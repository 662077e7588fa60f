/**
 * The string operations the configuration uses: Python's `str.split` with a
 * one-character separator, the final component of a path, the text before
 * the first dot, and `os.path.join` on POSIX paths.
 */
module PathText {

  /** The parts joined back with the separator between each pair. */
  function Join(parts: seq<string>, sep: char): string
    requires |parts| > 0
    decreases |parts|
  {
    if |parts| == 1 then parts[0] else parts[0] + [sep] + Join(parts[1..], sep)
  }

  predicate Free(s: string, sep: char)
  {
    forall i :: 0 <= i < |s| ==> s[i] != sep
  }

  predicate AllFree(parts: seq<string>, sep: char)
  {
    forall k :: 0 <= k < |parts| ==> Free(parts[k], sep)
  }

  /**
   * `s.split(sep)`: the maximal runs between separators, always at least one
   * (an empty string splits into one empty part).
   */
  function Split(s: string, sep: char): (parts: seq<string>)
    ensures |parts| > 0
    ensures AllFree(parts, sep)
    ensures Join(parts, sep) == s
    decreases |s|
  {
    if |s| == 0 then [""]
    else
      var rest := Split(s[1..], sep);
      if s[0] == sep then
        JoinCons("", rest, sep);
        [""] + rest
      else
        var parts := [[s[0]] + rest[0]] + rest[1..];
        JoinHead(s[0], rest, sep);
        assert AllFree(parts, sep) by {
          forall k | 0 <= k < |parts| ensures Free(parts[k], sep) {
            if k > 0 { assert parts[k] == rest[k]; }
          }
        }
        assert [s[0]] + s[1..] == s;
        parts
  }

  lemma JoinCons(first: string, rest: seq<string>, sep: char)
    requires |rest| > 0
    ensures Join([first] + rest, sep) == first + [sep] + Join(rest, sep)
  {
    assert ([first] + rest)[1..] == rest;
  }

  lemma JoinHead(c: char, rest: seq<string>, sep: char)
    requires |rest| > 0
    ensures Join([[c] + rest[0]] + rest[1..], sep) == [c] + Join(rest, sep)
  {
    var parts := [[c] + rest[0]] + rest[1..];
    if |rest| > 1 {
      assert parts[1..] == rest[1..];
    }
  }

  /**
   * Splitting undoes joining: parts free of the separator come back from
   * `sep.join(parts).split(sep)` unchanged.
   */
  lemma {:induction false} SplitJoin(parts: seq<string>, sep: char)
    requires |parts| > 0 && AllFree(parts, sep)
    ensures Split(Join(parts, sep), sep) == parts
    decreases |parts|, |parts[0]|
  {
    if |parts| == 1 {
      SplitFree(parts[0], sep);
    } else if |parts[0]| == 0 {
      var rest := parts[1..];
      assert AllFree(rest, sep) by {
        forall k | 0 <= k < |rest| ensures Free(rest[k], sep) { assert rest[k] == parts[k + 1]; }
      }
      SplitJoin(rest, sep);
      var s := Join(parts, sep);
      assert s == [sep] + Join(rest, sep);
      assert s[1..] == Join(rest, sep);
      assert [""] + rest == parts;
    } else {
      var c := parts[0][0];
      var shorter := [parts[0][1..]] + parts[1..];
      assert AllFree(shorter, sep) by {
        forall k | 0 <= k < |shorter| ensures Free(shorter[k], sep) {
          if k > 0 { assert shorter[k] == parts[k]; }
          else { assert Free(parts[0], sep); }
        }
      }
      SplitJoin(shorter, sep);
      JoinHead(c, shorter, sep);
      assert [[c] + shorter[0]] + shorter[1..] == parts by {
        assert [c] + parts[0][1..] == parts[0];
        assert shorter[1..] == parts[1..];
      }
      var s := Join(parts, sep);
      assert s == [c] + Join(shorter, sep);
      assert s[0] == c && s[1..] == Join(shorter, sep);
      assert c != sep;
    }
  }

  /** A string without the separator splits into itself alone. */
  lemma {:induction false} SplitFree(s: string, sep: char)
    requires Free(s, sep)
    ensures Split(s, sep) == [s]
    decreases |s|
  {
    if |s| > 0 {
      SplitFree(s[1..], sep);
      assert [s[0]] + s[1..] == s;
    }
  }

  /** The last part of a join is a suffix, preceded by the separator when there are several parts. */
  lemma {:induction false} JoinLast(parts: seq<string>, sep: char)
    requires |parts| > 0
    ensures var j, l := Join(parts, sep), parts[|parts| - 1];
            |l| <= |j| && j[|j| - |l|..] == l && (|parts| == 1 || (|l| < |j| && j[|j| - |l| - 1] == sep))
    decreases |parts|
  {
    if |parts| > 1 {
      JoinLast(parts[1..], sep);
      var inner := Join(parts[1..], sep);
      var j := Join(parts, sep);
      var l := parts[|parts| - 1];
      assert parts[1..][|parts[1..]| - 1] == l;
      assert j == (parts[0] + [sep]) + inner;
      assert j[|j| - |inner|..] == inner;
      if |parts| == 2 {
        assert inner == l;
      }
    }
  }

  /** The first part of a join is a prefix, followed by the separator when there are several parts. */
  lemma JoinFirst(parts: seq<string>, sep: char)
    requires |parts| > 0
    ensures var j, f := Join(parts, sep), parts[0];
            |f| <= |j| && j[..|f|] == f && (|parts| == 1 || (|f| < |j| && j[|f|] == sep))
  {
    if |parts| > 1 {
      var j := Join(parts, sep);
      assert j == parts[0] + ([sep] + Join(parts[1..], sep));
    }
  }

  /** `p.split("/")[-1]`: the text after the last slash, or all of p when it has none. */
  function LastSegment(p: string): (r: string)
    ensures Free(r, '/')
    ensures |r| <= |p| && p[|p| - |r|..] == r
    ensures r == p || (|r| < |p| && p[|p| - |r| - 1] == '/')
  {
    var parts := Split(p, '/');
    JoinLast(parts, '/');
    parts[|parts| - 1]
  }

  /** `b.split(".")[0]`: the text before the first dot, or all of b when it has none. */
  function Stem(b: string): (r: string)
    ensures Free(r, '.')
    ensures |r| <= |b| && b[..|r|] == r
    ensures r == b || (|r| < |b| && b[|r|] == '.')
  {
    var parts := Split(b, '.');
    JoinFirst(parts, '.');
    parts[0]
  }

  /** A prefix of a separator-free string is separator-free. */
  lemma PrefixFree(s: string, prefix: string, sep: char)
    requires Free(s, sep) && |prefix| <= |s| && s[..|prefix|] == prefix
    ensures Free(prefix, sep)
  {
    forall i | 0 <= i < |prefix| ensures prefix[i] != sep {
      assert prefix[i] == s[i];
    }
  }

  /** A slash-free suffix of p that is all of p or follows a slash is p's last segment. */
  lemma LastSegmentUnique(p: string, r: string)
    requires Free(r, '/') && |r| <= |p| && p[|p| - |r|..] == r
    requires r == p || (|r| < |p| && p[|p| - |r| - 1] == '/')
    ensures LastSegment(p) == r
  {
    var l := LastSegment(p);
    assert p[|p| - |l|..] == l;
  }

  /** A dot-free prefix of b that is all of b or is followed by a dot is b's stem. */
  lemma StemUnique(b: string, r: string)
    requires Free(r, '.') && |r| <= |b| && b[..|r|] == r
    requires r == b || (|r| < |b| && b[|r|] == '.')
    ensures Stem(b) == r
  {
    var t := Stem(b);
    assert b[..|t|] == t;
  }

  /**
   * `os.path.join(a, b)` on POSIX: an absolute b replaces a; otherwise b is
   * appended, with a slash in between unless a is empty or already ends in one.
   */
  function PathJoin(a: string, b: string): (r: string)
    ensures |b| <= |r| && r[|r| - |b|..] == b
    ensures !(|b| > 0 && b[0] == '/') ==> |a| <= |r| && r[..|a|] == a
    ensures |b| > 0 && b[0] == '/' ==> r == b
    ensures !(|b| > 0 && b[0] == '/') ==>
              var slash := if |a| == 0 || a[|a| - 1] == '/' then 0 else 1;
              && |r| == |a| + slash + |b|
              && (slash == 1 ==> r[|a|] == '/')
  {
    if |b| > 0 && b[0] == '/' then b
    else if |a| == 0 || a[|a| - 1] == '/' then a + b
    else a + "/" + b
  }

  /** Joining never changes the final component: basename(join(a, b)) == basename(b). */
  lemma JoinedLastSegment(a: string, b: string)
    ensures LastSegment(PathJoin(a, b)) == LastSegment(b)
  {
    var r := PathJoin(a, b);
    var l := LastSegment(b);
    if !(|b| > 0 && b[0] == '/') {
      assert r[|r| - |b|..] == b;
      assert r[|r| - |l|..] == l by {
        assert r[|r| - |l|..] == r[|r| - |b|..][|b| - |l|..];
      }
      if l == b {
        if |a| == 0 {
          assert r == b;
        } else if a[|a| - 1] == '/' {
          assert r[|r| - |l| - 1] == a[|a| - 1];
        } else {
          assert r == a + "/" + b;
          assert r[|r| - |l| - 1] == '/';
        }
      } else {
        assert r[|r| - |l| - 1] == b[|b| - |l| - 1];
      }
      LastSegmentUnique(r, l);
    }
  }
}

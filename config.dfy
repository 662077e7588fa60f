/**
 * The experiment configuration: its defaults, and what `__post_init__`
 * derives from them (the unique run name, the checkpoint directory, the
 * iteration count under identical augmentation, the diffusion settings
 * dropped when no generated-data augmentation is chosen, and the GDA tag
 * taken from the dataset path).
 */
module Config {
  import opened Wrappers
  import opened PathText

  /** `f"{name}-{env}-{augmentation}-{uuid[:4]}"`. */
  function RunName(name: string, env: string, augmentation: string, uuid: string): (r: string)
    ensures |r| == |name| + |env| + |augmentation| + 3 + UuidPrefixLength(uuid)
    ensures r[..|name| + 1] == name + "-"
    ensures r[|name| + 1..|name| + 1 + |env|] == env && r[|name| + 1 + |env|] == '-'
    ensures r[|name| + |env| + 2..|name| + |env| + 2 + |augmentation|] == augmentation
    ensures r[|r| - UuidPrefixLength(uuid) - 1..] == "-" + uuid[..UuidPrefixLength(uuid)]
  {
    name + "-" + env + "-" + augmentation + "-" + uuid[..UuidPrefixLength(uuid)]
  }

  /**
   * Runs that differ in the first four characters of their uuid get
   * different names, whatever the other settings.
   */
  lemma RunNamesDiffer(name: string, env: string, augmentation: string, uuid1: string, uuid2: string)
    requires uuid1[..UuidPrefixLength(uuid1)] != uuid2[..UuidPrefixLength(uuid2)]
    ensures RunName(name, env, augmentation, uuid1) != RunName(name, env, augmentation, uuid2)
  {
    var r1, r2 := RunName(name, env, augmentation, uuid1), RunName(name, env, augmentation, uuid2);
    var n1, n2 := UuidPrefixLength(uuid1), UuidPrefixLength(uuid2);
    assert r1[|r1| - n1..] == uuid1[..n1] by {
      assert r1[|r1| - n1..] == r1[|r1| - n1 - 1..][1..];
    }
    assert r2[|r2| - n2..] == uuid2[..n2] by {
      assert r2[|r2| - n2..] == r2[|r2| - n2 - 1..][1..];
    }
    if n1 == n2 {
      assert r1[|r1| - n1..] != r2[|r2| - n2..];
    } else {
      assert |r1| != |r2|;
    }
  }

  /** How many characters of the identifier the run name keeps: Python's `[:4]`. */
  function UuidPrefixLength(uuid: string): (n: nat)
    ensures n <= 4 && n <= |uuid|
    ensures n == 4 || n == |uuid|
  {
    if |uuid| < 4 then |uuid| else 4
  }

  /** A dataset path was given: neither Python's None nor the string "None". */
  predicate HasDatapath(datapath: Option<string>)
  {
    datapath.Some? && datapath.value != "None"
  }

  /**
   * The GDA tag `__post_init__` derives from the dataset path: the file name
   * up to its first dot, then `_<GDA_id>` and `_<data_mixture_type>` for
   * those that are set.
   */
  function DatasetTag(datapath: string, gdaId: Option<string>, mixture: Option<string>): (r: string)
    ensures var stem := Stem(LastSegment(datapath));
            && |stem| <= |r| && r[..|stem|] == stem
            && Free(stem, '/') && Free(stem, '.')
            && (gdaId.None? && mixture.None? ==> r == stem)
    ensures gdaId.Some? && mixture.None? ==> |gdaId.value| + 1 <= |r| && r[|r| - |gdaId.value| - 1..] == "_" + gdaId.value
    ensures mixture.Some? ==> |mixture.value| + 1 <= |r| && r[|r| - |mixture.value| - 1..] == "_" + mixture.value
    ensures r == Stem(LastSegment(datapath)) + (if gdaId.Some? then "_" + gdaId.value else "")
                                             + (if mixture.Some? then "_" + mixture.value else "")
  {
    var stem := Stem(LastSegment(datapath));
    PrefixFree(LastSegment(datapath), stem, '/');
    var withId := if gdaId.Some? then stem + ("_" + gdaId.value) else stem;
    if mixture.Some? then
      EndsWith(withId, "_" + mixture.value);
      withId + ("_" + mixture.value)
    else if gdaId.Some? then
      EndsWith(stem, "_" + gdaId.value);
      withId
    else
      withId
  }

  lemma EndsWith(a: string, b: string)
    ensures |b| <= |a + b| && (a + b)[|a + b| - |b|..] == b
  {
  }

  /**
   * A dataset saved as `<dir>/<file>.<ext>` is tagged as the bare `file`
   * would be: neither the directory nor the extension reaches the tag.
   */
  lemma SavedDatasetTag(dir: string, file: string, ext: string, gdaId: Option<string>, mixture: Option<string>)
    requires Free(file, '/') && Free(file, '.') && Free(ext, '/')
    ensures DatasetTag(PathJoin(dir, file + "." + ext), gdaId, mixture) == DatasetTag(file, gdaId, mixture)
  {
    var base := file + "." + ext;
    assert Free(base, '/') by {
      forall i | 0 <= i < |base| ensures base[i] != '/' {
        if i < |file| { assert base[i] == file[i]; }
        else if i > |file| { assert base[i] == ext[i - |file| - 1]; }
      }
    }
    JoinedLastSegment(dir, base);
    LastSegmentUnique(base, base);
    assert base[..|file|] == file;
    StemUnique(base, file);
    assert Stem(LastSegment(PathJoin(dir, base))) == file;
    LastSegmentUnique(file, file);
    StemUnique(file, file);
    assert Stem(LastSegment(file)) == file;
  }

  /** The settings of the diffusion model that generates augmentation data. */
  datatype Diffusion = Diffusion(horizon: Option<int>, backbone: Option<string>, conditioned: Option<bool>,
                                 dataVolume: Option<real>, generationType: Option<string>,
                                 guidanceTemperature: Option<real>, guidanceTargetMultiple: Option<real>)

  const NoDiffusion: Diffusion := Diffusion(None, None, None, None, None, None, None)

  /** The fields of the configuration that `__post_init__` reads or writes. */
  datatype Settings = Settings(augmentation: string, iteration: int, env: string,
                               gda: Option<string>, dataMixtureType: Option<string>, gdaId: Option<string>,
                               name: string, diffusion: Diffusion,
                               checkpointsPath: Option<string>, datapath: Option<string>)

  function Named(s: Settings, uuid: string): Settings
  {
    s.(name := RunName(s.name, s.env, s.augmentation, uuid))
  }

  function Placed(s: Settings): Settings
  {
    if s.checkpointsPath.Some? then s.(checkpointsPath := Some(PathJoin(s.checkpointsPath.value, s.name))) else s
  }

  function Augmented(s: Settings): Settings
  {
    if s.augmentation == "identical" then s.(iteration := 1) else s
  }

  function DiffusionDropped(s: Settings): Settings
  {
    if s.gda.None? then s.(diffusion := NoDiffusion) else s
  }

  function Tagged(s: Settings): Settings
  {
    if HasDatapath(s.datapath) then s.(gda := Some(DatasetTag(s.datapath.value, s.gdaId, s.dataMixtureType))) else s
  }

  /**
   * `__post_init__` on values, its five steps in the source's order. The
   * checkpoint directory is named after the new run name; the None test on
   * GDA comes before the tag is derived, so a configuration with GDA None
   * and a dataset path ends with a tag and no diffusion settings.
   */
  function PostInitOf(s: Settings, uuid: string): (r: Settings)
    ensures r.name == RunName(s.name, s.env, s.augmentation, uuid)
    ensures r.checkpointsPath.Some? <==> s.checkpointsPath.Some?
    ensures r.checkpointsPath.Some? ==>
              && r.checkpointsPath.value == PathJoin(s.checkpointsPath.value, r.name)
              && LastSegment(r.checkpointsPath.value) == LastSegment(r.name)
    ensures r.iteration == (if s.augmentation == "identical" then 1 else s.iteration)
    ensures r.diffusion == (if s.gda.None? then NoDiffusion else s.diffusion)
    ensures HasDatapath(s.datapath) ==> r.gda == Some(DatasetTag(s.datapath.value, s.gdaId, s.dataMixtureType))
    ensures !HasDatapath(s.datapath) ==> r.gda == s.gda
    ensures s.gda.None? && HasDatapath(s.datapath) ==> r.gda.Some? && r.diffusion == NoDiffusion
    ensures r.augmentation == s.augmentation && r.env == s.env && r.gdaId == s.gdaId
    ensures r.dataMixtureType == s.dataMixtureType && r.datapath == s.datapath
  {
    var named := Named(s, uuid);
    var r := Tagged(DiffusionDropped(Augmented(Placed(named))));
    if named.checkpointsPath.Some? then
      JoinedLastSegment(named.checkpointsPath.value, named.name);
      r
    else
      r
  }

  /** The run configuration, with the fields `__post_init__` reads or writes. */
  class TrainConfig {
    var augmentation: string
    var iteration: int
    var env: string
    var gda: Option<string>
    var dataMixtureType: Option<string>
    var gdaId: Option<string>
    var name: string
    var diffusionHorizon: Option<int>
    var diffusionBackbone: Option<string>
    var conditioned: Option<bool>
    var dataVolume: Option<real>
    var generationType: Option<string>
    var guidanceTemperature: Option<real>
    var guidanceTargetMultiple: Option<real>
    var checkpointsPath: Option<string>
    var datapath: Option<string>

    function Fields(): Settings
      reads this
    {
      Settings(augmentation, iteration, env, gda, dataMixtureType, gdaId, name,
               Diffusion(diffusionHorizon, diffusionBackbone, conditioned, dataVolume, generationType,
                         guidanceTemperature, guidanceTargetMultiple),
               checkpointsPath, datapath)
    }

    /**
     * The dataclass constructor: every field takes its argument (or its
     * default), then `__post_init__` runs; `uuid` stands for the text of a
     * fresh uuid4.
     */
    constructor (uuid: string,
                 augmentation: string := "identical", iteration: int := 2,
                 env: string := "halfcheetah-medium-expert-v2",
                 gda: Option<string> := Some("GTA"), dataMixtureType: Option<string> := Some("mixed"),
                 gdaId: Option<string> := None, name: string := "TD3_BC",
                 diffusionHorizon: Option<int> := Some(31), diffusionBackbone: Option<string> := Some("mixer"),
                 conditioned: Option<bool> := Some(false), dataVolume: Option<real> := Some(5000000.0),
                 generationType: Option<string> := Some("s"), guidanceTemperature: Option<real> := Some(1.2),
                 guidanceTargetMultiple: Option<real> := Some(2.0),
                 checkpointsPath: Option<string> := Some("checkpoints"), datapath: Option<string> := None)
      ensures Fields() == PostInitOf(Settings(augmentation, iteration, env, gda, dataMixtureType, gdaId, name,
                                              Diffusion(diffusionHorizon, diffusionBackbone, conditioned, dataVolume,
                                                        generationType, guidanceTemperature, guidanceTargetMultiple),
                                              checkpointsPath, datapath), uuid)
    {
      this.augmentation := augmentation;
      this.iteration := iteration;
      this.env := env;
      this.gda := gda;
      this.dataMixtureType := dataMixtureType;
      this.gdaId := gdaId;
      this.name := name;
      this.diffusionHorizon := diffusionHorizon;
      this.diffusionBackbone := diffusionBackbone;
      this.conditioned := conditioned;
      this.dataVolume := dataVolume;
      this.generationType := generationType;
      this.guidanceTemperature := guidanceTemperature;
      this.guidanceTargetMultiple := guidanceTargetMultiple;
      this.checkpointsPath := checkpointsPath;
      this.datapath := datapath;
      new;
      PostInit(uuid);
    }

    /** `__post_init__`, in place, step by step. */
    method PostInit(uuid: string)
      modifies this
      ensures Fields() == PostInitOf(old(Fields()), uuid)
    {
      NameRun(uuid);
      PlaceCheckpoints();
      ApplyAugmentation();
      DropDiffusion();
      TagDataset();
    }

    method NameRun(uuid: string)
      modifies this
      ensures Fields() == Named(old(Fields()), uuid)
    {
      name := RunName(name, env, augmentation, uuid);
    }

    method PlaceCheckpoints()
      modifies this
      ensures Fields() == Placed(old(Fields()))
    {
      if checkpointsPath.Some? {
        checkpointsPath := Some(PathJoin(checkpointsPath.value, name));
      }
    }

    method ApplyAugmentation()
      modifies this
      ensures Fields() == Augmented(old(Fields()))
    {
      if augmentation == "identical" {
        iteration := 1;
      }
    }

    method DropDiffusion()
      modifies this
      ensures Fields() == DiffusionDropped(old(Fields()))
    {
      if gda.None? {
        diffusionHorizon := None;
        diffusionBackbone := None;
        conditioned := None;
        dataVolume := None;
        generationType := None;
        guidanceTemperature := None;
        guidanceTargetMultiple := None;
      }
    }

    method TagDataset()
      modifies this
      ensures Fields() == Tagged(old(Fields()))
    {
      if datapath.Some? && datapath.value != "None" {
        var tag := Stem(LastSegment(datapath.value));
        if gdaId.Some? {
          tag := tag + ("_" + gdaId.value);
        }
        if dataMixtureType.Some? {
          tag := tag + ("_" + dataMixtureType.value);
        }
        gda := Some(tag);
      }
    }
  }
}

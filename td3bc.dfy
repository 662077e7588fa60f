/**
 * The TD3+BC trainer as a state machine. Its state is six parameter
 * vectors (actor, critic 1, critic 2 and a frozen target copy of each),
 * three optimiser states and the iteration counter `totalIt`.
 *
 * Everything inside torch is abstracted: the forward passes, the
 * backward-plus-optimiser step and the value of the actor loss are opaque
 * functions bundled in a Backend. What is modelled exactly is the control
 * flow of a step (which parts of the state change, when, from what), the
 * target-value arithmetic, the critic loss, the soft target updates, and
 * the snapshot/restore pair.
 */
module TD3BC {
  import opened Numerics
  import opened Polyak

  /** An optimiser's internal state (Adam's moment estimates and step count); never inspected. */
  datatype OptimState = OptimState(buffers: seq<real>)

  /** A network's parameters together with its optimiser's state, after one optimiser step. */
  datatype Stepped = Stepped(params: Params, optimizer: OptimState)

  /** One sampled transition; `done` is 1.0 at the end of an episode and 0.0 otherwise. */
  datatype Transition = Transition(state: seq<real>, action: seq<real>, reward: real, nextState: seq<real>, done: real)

  type Batch = seq<Transition>

  /**
   * The numeric collaborators, as opaque functions:
   * - actor(params, state): the actor network's action for one state;
   * - critic(params, state, action): a critic network's value estimate;
   * - criticStep(params, optimiser, batch, targets): zero_grad, backward of
   *   the critic's MSE against the targets, and one optimiser step (the
   *   combined critic loss is a sum, so each critic's gradient depends only
   *   on its own term);
   * - actorStep(params, optimiser, critic1, batch, alpha): the same for the
   *   actor loss, which reads critic 1;
   * - actorLoss(params, critic1, batch, alpha): the value of that loss.
   */
  datatype Backend = Backend(
    actor: (Params, seq<real>) -> seq<real>,
    critic: (Params, seq<real>, seq<real>) -> real,
    criticStep: (Params, OptimState, Batch, seq<real>) -> Stepped,
    actorStep: (Params, OptimState, Params, Batch, real) -> Stepped,
    actorLoss: (Params, Params, Batch, real) -> real)

  /** An optimiser step never changes the shape of the parameters it updates. */
  ghost predicate KeepsShapes(be: Backend)
  {
    && (forall p, o, b, y :: |be.criticStep(p, o, b, y).params| == |p|)
    && (forall p, o, c, b, alpha :: |be.actorStep(p, o, c, b, alpha).params| == |p|)
  }

  datatype Hyper = Hyper(
    maxAction: real, discount: real, tau: real, policyNoise: real,
    noiseClip: real, policyFreq: int, alpha: real)

  datatype TrainerState = TrainerState(
    actor: Params, actorTarget: Params, actorOptimizer: OptimState,
    critic1: Params, critic1Target: Params, critic1Optimizer: OptimState,
    critic2: Params, critic2Target: Params, critic2Optimizer: OptimState,
    totalIt: int)

  /** Each target network has the shape of its live network. */
  predicate TargetsShaped(st: TrainerState)
  {
    && |st.actorTarget| == |st.actor|
    && |st.critic1Target| == |st.critic1|
    && |st.critic2Target| == |st.critic2|
  }

  /** The state right after construction: targets are copies of the live networks, the counter is 0. */
  function Initial(actor: Params, actorOptimizer: OptimState, critic1: Params, critic1Optimizer: OptimState,
                   critic2: Params, critic2Optimizer: OptimState): (st: TrainerState)
    ensures TargetsShaped(st)
  {
    TrainerState(actor, actor, actorOptimizer, critic1, critic1, critic1Optimizer,
                 critic2, critic2, critic2Optimizer, 0)
  }

  /**
   * The step with counter value `it` is a delayed step: the actor is
   * updated and the targets are synchronised. Python's `%` raises on a zero
   * divisor; for any other divisor `it % k == 0` holds exactly when k
   * divides it, as with Dafny's `%`.
   */
  predicate Delayed(policyFreq: int, it: int)
  {
    policyFreq != 0 && it % policyFreq == 0
  }

  /** The standard-normal sample has the shape of the batch's actions (torch.randn_like(action)). */
  predicate NoiseShaped(batch: Batch, gauss: seq<seq<real>>)
  {
    && |gauss| == |batch|
    && forall i :: 0 <= i < |batch| ==> |gauss[i]| == |batch[i].action|
  }

  /** The target actor's outputs can be added to the noise: otherwise torch raises. */
  predicate ActionsAgree(be: Backend, actorTarget: Params, batch: Batch, gauss: seq<seq<real>>)
    requires |gauss| == |batch|
  {
    forall i | 0 <= i < |batch| :: |be.actor(actorTarget, batch[i].nextState)| == |gauss[i]|
  }

  /** The smoothed next action for one transition; within [-max_action, max_action] whatever the target actor says. */
  function NextAction(h: Hyper, be: Backend, actorTarget: Params, t: Transition, g: seq<real>): (a: seq<real>)
    requires |be.actor(actorTarget, t.nextState)| == |g|
    ensures |a| == |g|
    ensures 0.0 <= h.maxAction ==> forall j :: 0 <= j < |a| ==> -h.maxAction <= a[j] <= h.maxAction
  {
    SmoothedAction(be.actor(actorTarget, t.nextState), SmoothingNoise(g, h.policyNoise, h.noiseClip), h.maxAction)
  }

  /**
   * The target value of one transition, from the two target critics at
   * the smoothed next action: reward + (1 - done) * discount * min(q1, q2).
   * It is at most what either target critic alone
   * would give (for discount >= 0 and done <= 1), and the reward alone on a
   * terminal transition.
   */
  function TargetAt(h: Hyper, be: Backend, actorTarget: Params, critic1Target: Params, critic2Target: Params,
                    t: Transition, g: seq<real>): (y: real)
    requires |be.actor(actorTarget, t.nextState)| == |g|
    ensures var next := NextAction(h, be, actorTarget, t, g);
            y == t.reward + (1.0 - t.done) * h.discount *
                 Min(be.critic(critic1Target, t.nextState, next), be.critic(critic2Target, t.nextState, next))
    ensures t.done == 1.0 ==> y == t.reward
    ensures 0.0 <= h.discount && t.done <= 1.0 ==>
              var next := NextAction(h, be, actorTarget, t, g);
              && y <= t.reward + (1.0 - t.done) * h.discount * be.critic(critic1Target, t.nextState, next)
              && y <= t.reward + (1.0 - t.done) * h.discount * be.critic(critic2Target, t.nextState, next)
  {
    var next := NextAction(h, be, actorTarget, t, g);
    TargetValue(t.reward, t.done, h.discount,
                be.critic(critic1Target, t.nextState, next), be.critic(critic2Target, t.nextState, next))
  }

  /** target_q for the whole batch, one TargetAt per transition. */
  function TargetQ(h: Hyper, be: Backend, actorTarget: Params, critic1Target: Params, critic2Target: Params,
                   batch: Batch, gauss: seq<seq<real>>): (y: seq<real>)
    requires |gauss| == |batch| && ActionsAgree(be, actorTarget, batch, gauss)
    ensures |y| == |batch|
    ensures forall i :: 0 <= i < |batch| ==>
              y[i] == TargetAt(h, be, actorTarget, critic1Target, critic2Target, batch[i], gauss[i])
  {
    seq(|batch|, i requires 0 <= i < |batch| => TargetAt(h, be, actorTarget, critic1Target, critic2Target, batch[i], gauss[i]))
  }

  /** A critic's current estimates on the batch's (state, action) pairs. */
  function CurrentQ(be: Backend, critic: Params, batch: Batch): (q: seq<real>)
    ensures |q| == |batch|
  {
    seq(|batch|, i requires 0 <= i < |batch| => be.critic(critic, batch[i].state, batch[i].action))
  }

  /**
   * critic_loss: the sum of both critics' MSE against the targets. It is
   * never negative and is zero exactly when both critics already match the
   * targets on every transition.
   */
  function CriticLoss(be: Backend, critic1: Params, critic2: Params, batch: Batch, y: seq<real>): (loss: real)
    requires |batch| > 0 && |y| == |batch|
    ensures 0.0 <= loss
    ensures loss == 0.0 <==> CurrentQ(be, critic1, batch) == y && CurrentQ(be, critic2, batch) == y
  {
    Mse(CurrentQ(be, critic1, batch), y) + Mse(CurrentQ(be, critic2, batch), y)
  }

  const CriticLossKey: string := "critic_loss"
  const ActorLossKey: string := "actor_loss"

  /** What a call of `train` ends with: the returned log, or the exception it raises. */
  datatype Outcome = Logged(log: map<string, real>) | ShapeMismatch | ZeroDivisionError

  datatype StepResult = StepResult(next: TrainerState, outcome: Outcome)

  /** Both critics take one optimiser step towards y; nothing else changes. */
  function CriticsStepped(be: Backend, st: TrainerState, batch: Batch, y: seq<real>): (r: TrainerState)
    requires TargetsShaped(st) && KeepsShapes(be)
    ensures TargetsShaped(r)
  {
    var c1 := be.criticStep(st.critic1, st.critic1Optimizer, batch, y);
    var c2 := be.criticStep(st.critic2, st.critic2Optimizer, batch, y);
    st.(critic1 := c1.params, critic1Optimizer := c1.optimizer,
        critic2 := c2.params, critic2Optimizer := c2.optimizer)
  }

  /**
   * The delayed part of a step: the actor takes one optimiser step against
   * critic 1, then every target is blended towards its own live network.
   */
  function PolicySynced(h: Hyper, be: Backend, st: TrainerState, batch: Batch): (r: TrainerState)
    requires TargetsShaped(st) && KeepsShapes(be)
    ensures TargetsShaped(r)
  {
    var a := be.actorStep(st.actor, st.actorOptimizer, st.critic1, batch, h.alpha);
    st.(actor := a.params, actorOptimizer := a.optimizer,
        critic1Target := SoftUpdate(st.critic1Target, st.critic1, h.tau),
        critic2Target := SoftUpdate(st.critic2Target, st.critic2, h.tau),
        actorTarget := SoftUpdate(st.actorTarget, a.params, h.tau))
  }

  /**
   * One call of `train`. The counter always advances, even when the call
   * then raises. Unless the action shapes disagree, both critics take one
   * optimiser step towards target_q and critic_loss is logged; on a delayed
   * step (and only then) the actor takes a step against the freshly updated
   * critic 1, actor_loss is logged, and each target is blended towards its
   * own, freshly updated, live network. Nothing else changes.
   */
  function TrainStep(h: Hyper, be: Backend, st: TrainerState, batch: Batch, gauss: seq<seq<real>>): (r: StepResult)
    requires |batch| > 0 && NoiseShaped(batch, gauss)
    requires TargetsShaped(st) && KeepsShapes(be)
    ensures r.next.totalIt == st.totalIt + 1
    ensures TargetsShaped(r.next)
    ensures r.outcome.ShapeMismatch? <==> !ActionsAgree(be, st.actorTarget, batch, gauss)
    ensures r.outcome.ShapeMismatch? ==> r.next == st.(totalIt := st.totalIt + 1)
    ensures r.outcome.ZeroDivisionError? <==> ActionsAgree(be, st.actorTarget, batch, gauss) && h.policyFreq == 0
    ensures !r.outcome.ShapeMismatch? ==>
              var y := TargetQ(h, be, st.actorTarget, st.critic1Target, st.critic2Target, batch, gauss);
              && Stepped(r.next.critic1, r.next.critic1Optimizer) == be.criticStep(st.critic1, st.critic1Optimizer, batch, y)
              && Stepped(r.next.critic2, r.next.critic2Optimizer) == be.criticStep(st.critic2, st.critic2Optimizer, batch, y)
    ensures r.outcome.Logged? ==>
              var y := TargetQ(h, be, st.actorTarget, st.critic1Target, st.critic2Target, batch, gauss);
              && r.outcome.log.Keys == (if Delayed(h.policyFreq, r.next.totalIt) then {CriticLossKey, ActorLossKey} else {CriticLossKey})
              && r.outcome.log[CriticLossKey] == CriticLoss(be, st.critic1, st.critic2, batch, y)
              && 0.0 <= r.outcome.log[CriticLossKey]
    ensures !(r.outcome.Logged? && Delayed(h.policyFreq, r.next.totalIt)) ==>
              && r.next.actor == st.actor && r.next.actorOptimizer == st.actorOptimizer
              && r.next.actorTarget == st.actorTarget
              && r.next.critic1Target == st.critic1Target && r.next.critic2Target == st.critic2Target
    ensures r.outcome.Logged? && Delayed(h.policyFreq, r.next.totalIt) ==>
              && Stepped(r.next.actor, r.next.actorOptimizer) == be.actorStep(st.actor, st.actorOptimizer, r.next.critic1, batch, h.alpha)
              && r.outcome.log[ActorLossKey] == be.actorLoss(st.actor, r.next.critic1, batch, h.alpha)
              && r.next.critic1Target == SoftUpdate(st.critic1Target, r.next.critic1, h.tau)
              && r.next.critic2Target == SoftUpdate(st.critic2Target, r.next.critic2, h.tau)
              && r.next.actorTarget == SoftUpdate(st.actorTarget, r.next.actor, h.tau)
  {
    var it := st.totalIt + 1;
    if !ActionsAgree(be, st.actorTarget, batch, gauss) then
      StepResult(st.(totalIt := it), ShapeMismatch)
    else
      var y := TargetQ(h, be, st.actorTarget, st.critic1Target, st.critic2Target, batch, gauss);
      var criticLoss := CriticLoss(be, st.critic1, st.critic2, batch, y);
      var afterCritics := CriticsStepped(be, st.(totalIt := it), batch, y);
      if h.policyFreq == 0 then
        StepResult(afterCritics, ZeroDivisionError)
      else if it % h.policyFreq != 0 then
        StepResult(afterCritics, Logged(map[CriticLossKey := criticLoss]))
      else
        var actorLoss := be.actorLoss(st.actor, afterCritics.critic1, batch, h.alpha);
        StepResult(PolicySynced(h, be, afterCritics, batch), Logged(map[CriticLossKey := criticLoss, ActorLossKey := actorLoss]))
  }

  /** Every batch of a run is non-empty and comes with noise of its actions' shape. */
  predicate RunInputs(batches: seq<Batch>, noises: seq<seq<seq<real>>>)
  {
    && |noises| == |batches|
    && forall i :: 0 <= i < |batches| ==> |batches[i]| > 0 && NoiseShaped(batches[i], noises[i])
  }

  predicate AllLogged(outcomes: seq<Outcome>)
  {
    forall i :: 0 <= i < |outcomes| ==> outcomes[i].Logged?
  }

  /** The i-th outcome, from the call that took the counter to c + i + 1, logs actor_loss exactly on a delayed step. */
  predicate OnCadence(outcomes: seq<Outcome>, policyFreq: int, c: int)
  {
    forall i :: 0 <= i < |outcomes| && outcomes[i].Logged? ==>
      (ActorLossKey in outcomes[i].log <==> Delayed(policyFreq, c + i + 1))
  }

  lemma OnCadenceCons(first: Outcome, rest: seq<Outcome>, policyFreq: int, c: int)
    requires first.Logged? ==> (ActorLossKey in first.log <==> Delayed(policyFreq, c + 1))
    requires OnCadence(rest, policyFreq, c + 1)
    ensures OnCadence([first] + rest, policyFreq, c)
  {
    var all := [first] + rest;
    forall i | 0 <= i < |all| && all[i].Logged?
      ensures ActorLossKey in all[i].log <==> Delayed(policyFreq, c + i + 1)
    {
      if i > 0 {
        assert all[i] == rest[i - 1];
        assert c + 1 + (i - 1) + 1 == c + i + 1;
      }
    }
  }

  lemma RunInputsTail(batches: seq<Batch>, noises: seq<seq<seq<real>>>)
    requires RunInputs(batches, noises) && |batches| > 0
    ensures RunInputs(batches[1..], noises[1..])
  {
    forall i | 0 <= i < |batches| - 1
      ensures |batches[1..][i]| > 0 && NoiseShaped(batches[1..][i], noises[1..][i])
    {
      assert batches[1..][i] == batches[i + 1] && noises[1..][i] == noises[i + 1];
    }
  }

  /**
   * n calls that end either with all n outcomes logged or at the first call
   * that raised: at most n outcomes, every one but the last logged, and a
   * run cut short ends with a failure.
   */
  predicate StopsAtFailure(outcomes: seq<Outcome>, n: nat)
  {
    && |outcomes| <= n
    && (forall i :: 0 <= i < |outcomes| - 1 ==> outcomes[i].Logged?)
    && (|outcomes| < n ==> 0 < |outcomes| && !outcomes[|outcomes| - 1].Logged?)
  }

  lemma StopsAtFailureCons(first: Outcome, rest: seq<Outcome>, n: nat)
    requires first.Logged? && StopsAtFailure(rest, n)
    ensures StopsAtFailure([first] + rest, n + 1)
  {
    var all := [first] + rest;
    forall i | 0 <= i < |all| - 1 ensures all[i].Logged? {
      if i > 0 { assert all[i] == rest[i - 1]; }
    }
    if |all| < n + 1 {
      assert all[|all| - 1] == rest[|rest| - 1];
    }
  }

  /** A run that stops at failure and logged every call made all n calls. */
  lemma AllLoggedComplete(outcomes: seq<Outcome>, n: nat)
    requires StopsAtFailure(outcomes, n) && AllLogged(outcomes)
    ensures |outcomes| == n
  {
  }

  datatype RunResult = RunResult(last: TrainerState, outcomes: seq<Outcome>)

  /**
   * Consecutive calls of `train`, one per batch, as the training loop makes
   * them; an exception ends the run, so only the last outcome can be a
   * failure.
   */
  function Run(h: Hyper, be: Backend, st: TrainerState, batches: seq<Batch>, noises: seq<seq<seq<real>>>): (r: RunResult)
    requires RunInputs(batches, noises) && TargetsShaped(st) && KeepsShapes(be)
    ensures StopsAtFailure(r.outcomes, |batches|)
    ensures r.last.totalIt == st.totalIt + |r.outcomes|
    ensures TargetsShaped(r.last)
    ensures OnCadence(r.outcomes, h.policyFreq, st.totalIt)
    ensures |batches| > 0 ==> 0 < |r.outcomes| && r.outcomes[0] == TrainStep(h, be, st, batches[0], noises[0]).outcome
    decreases |batches|
  {
    if |batches| == 0 then RunResult(st, [])
    else
      var s := TrainStep(h, be, st, batches[0], noises[0]);
      if !s.outcome.Logged? then RunResult(s.next, [s.outcome])
      else
        RunInputsTail(batches, noises);
        var rest := Run(h, be, s.next, batches[1..], noises[1..]);
        OnCadenceCons(s.outcome, rest.outcomes, h.policyFreq, st.totalIt);
        StopsAtFailureCons(s.outcome, rest.outcomes, |batches| - 1);
        RunResult(rest.last, [s.outcome] + rest.outcomes)
  }

  /** The number of calls whose log holds actor_loss. */
  function ActorUpdates(outcomes: seq<Outcome>): nat
    decreases |outcomes|
  {
    if |outcomes| == 0 then 0
    else
      var last := outcomes[|outcomes| - 1];
      ActorUpdates(outcomes[..|outcomes| - 1]) + (if last.Logged? && ActorLossKey in last.log then 1 else 0)
  }

  /** The number of delayed steps among counter values c + 1, ..., c + n. */
  function CountDelayed(policyFreq: int, c: int, n: nat): nat
    decreases n
  {
    if n == 0 then 0 else CountDelayed(policyFreq, c, n - 1) + (if Delayed(policyFreq, c + n) then 1 else 0)
  }

  lemma DivIs(a: int, k: int, q: int, r: int)
    requires 0 < k && a == q * k + r && 0 <= r < k
    ensures a / k == q && a % k == r
  {
    var q', r' := a / k, a % k;
    assert a == q' * k + r' && 0 <= r' < k;
    assert (q - q') * k == r' - r;
    if q' < q {
      MulAtLeast(q - q', k);
    } else if q < q' {
      MulAtLeast(q' - q, k);
    }
  }

  lemma MulAtLeast(m: int, k: int)
    requires 1 <= m && 0 < k
    ensures k <= m * k
  {
  }

  /** Going from m - 1 to m, the floor of the quotient grows by one exactly when k divides m. */
  lemma FloorStep(m: int, k: int)
    requires 0 < k
    ensures m / k - (m - 1) / k == (if m % k == 0 then 1 else 0)
  {
    var q, r := m / k, m % k;
    if r == 0 {
      DivIs(m - 1, k, q - 1, k - 1);
    } else {
      DivIs(m - 1, k, q, r - 1);
    }
  }

  /** Among c + 1, ..., c + n there are floor((c + n) / k) - floor(c / k) multiples of k. */
  lemma {:induction false} CountDelayedClosedForm(policyFreq: int, c: int, n: nat)
    requires 0 < policyFreq
    ensures CountDelayed(policyFreq, c, n) == (c + n) / policyFreq - c / policyFreq
    decreases n
  {
    if n > 0 {
      CountDelayedClosedForm(policyFreq, c, n - 1);
      FloorStep(c + n, policyFreq);
    }
  }

  lemma {:induction false} ActorUpdatesCounted(outcomes: seq<Outcome>, policyFreq: int, c: int)
    requires AllLogged(outcomes) && OnCadence(outcomes, policyFreq, c)
    ensures ActorUpdates(outcomes) == CountDelayed(policyFreq, c, |outcomes|)
    decreases |outcomes|
  {
    if |outcomes| > 0 {
      var n := |outcomes|;
      var prefix := outcomes[..n - 1];
      assert forall i :: 0 <= i < |prefix| ==> prefix[i] == outcomes[i];
      ActorUpdatesCounted(prefix, policyFreq, c);
    }
  }

  /** Counting actor_loss logs in outcomes that follow the cadence. */
  lemma CadenceCount(outcomes: seq<Outcome>, policyFreq: int, c: int)
    requires 0 < policyFreq && AllLogged(outcomes) && OnCadence(outcomes, policyFreq, c)
    ensures ActorUpdates(outcomes) == (c + |outcomes|) / policyFreq - c / policyFreq
  {
    ActorUpdatesCounted(outcomes, policyFreq, c);
    CountDelayedClosedForm(policyFreq, c, |outcomes|);
  }

  /**
   * states is a trace of the run r: states[i] is the trainer before the i-th
   * call, and that call is TrainStep from it, giving states[i + 1] and the
   * i-th outcome; the run starts at st and ends in r.last.
   */
  ghost predicate IsTrace(h: Hyper, be: Backend, st: TrainerState, batches: seq<Batch>, noises: seq<seq<seq<real>>>,
                          r: RunResult, states: seq<TrainerState>)
    requires RunInputs(batches, noises) && KeepsShapes(be) && |r.outcomes| <= |batches|
  {
    && |states| == |r.outcomes| + 1 && states[0] == st && states[|r.outcomes|] == r.last
    && forall i :: 0 <= i < |r.outcomes| ==>
         TargetsShaped(states[i]) && TrainStep(h, be, states[i], batches[i], noises[i]) == StepResult(states[i + 1], r.outcomes[i])
  }

  /** Every call of a run, not only the first, is TrainStep from the state the previous call left. */
  lemma {:induction false} RunTrace(h: Hyper, be: Backend, st: TrainerState, batches: seq<Batch>, noises: seq<seq<seq<real>>>)
    returns (states: seq<TrainerState>)
    requires RunInputs(batches, noises) && TargetsShaped(st) && KeepsShapes(be)
    ensures IsTrace(h, be, st, batches, noises, Run(h, be, st, batches, noises), states)
    decreases |batches|
  {
    if |batches| == 0 {
      states := [st];
    } else {
      var s := TrainStep(h, be, st, batches[0], noises[0]);
      if !s.outcome.Logged? {
        states := [st, s.next];
      } else {
        RunInputsTail(batches, noises);
        var tail := RunTrace(h, be, s.next, batches[1..], noises[1..]);
        states := [st] + tail;
        var r := Run(h, be, st, batches, noises);
        var rest := Run(h, be, s.next, batches[1..], noises[1..]);
        assert r.outcomes == [s.outcome] + rest.outcomes && r.last == rest.last;
        forall i | 0 <= i < |r.outcomes|
          ensures TargetsShaped(states[i]) && TrainStep(h, be, states[i], batches[i], noises[i]) == StepResult(states[i + 1], r.outcomes[i])
        {
          if i > 0 {
            assert states[i] == tail[i - 1] && states[i + 1] == tail[i];
            assert batches[i] == batches[1..][i - 1] && noises[i] == noises[1..][i - 1];
            assert r.outcomes[i] == rest.outcomes[i - 1];
          }
        }
      }
    }
  }

  /** The actor network gives every batch's next states an output of its noise's width, whatever its parameters. */
  ghost predicate WidthsAgree(be: Backend, batches: seq<Batch>, noises: seq<seq<seq<real>>>)
    requires RunInputs(batches, noises)
  {
    forall i, j, p: Params | 0 <= i < |batches| && 0 <= j < |batches[i]| ::
      |be.actor(p, batches[i][j].nextState)| == |noises[i][j]|
  }

  /**
   * With a positive policy_freq and an actor whose output always has the
   * action's width, no call of a run raises: every outcome is logged.
   */
  lemma {:induction false} RunLogsAll(h: Hyper, be: Backend, st: TrainerState, batches: seq<Batch>, noises: seq<seq<seq<real>>>)
    requires RunInputs(batches, noises) && TargetsShaped(st) && KeepsShapes(be) && 0 < h.policyFreq
    requires WidthsAgree(be, batches, noises)
    ensures AllLogged(Run(h, be, st, batches, noises).outcomes)
    decreases |batches|
  {
    if |batches| > 0 {
      var s := TrainStep(h, be, st, batches[0], noises[0]);
      assert ActionsAgree(be, st.actorTarget, batches[0], noises[0]) by {
        forall j | 0 <= j < |batches[0]| ensures |be.actor(st.actorTarget, batches[0][j].nextState)| == |noises[0][j]| {
        }
      }
      RunInputsTail(batches, noises);
      assert WidthsAgree(be, batches[1..], noises[1..]) by {
        forall i, j, p: Params | 0 <= i < |batches| - 1 && 0 <= j < |batches[1..][i]|
          ensures |be.actor(p, batches[1..][i][j].nextState)| == |noises[1..][i][j]|
        {
          assert batches[1..][i] == batches[i + 1] && noises[1..][i] == noises[i + 1];
        }
      }
      RunLogsAll(h, be, s.next, batches[1..], noises[1..]);
      var rest := Run(h, be, s.next, batches[1..], noises[1..]);
      var all := Run(h, be, st, batches, noises).outcomes;
      assert all == [s.outcome] + rest.outcomes;
      forall i | 0 <= i < |all| ensures all[i].Logged? {
        if i > 0 { assert all[i] == rest.outcomes[i - 1]; }
      }
    }
  }

  /**
   * A run in which no call raised made one call per batch and, with a
   * positive policy_freq, updated the actor and the targets once for each
   * multiple of policy_freq the counter passed. The requirements on the
   * outcomes are what Run ensures of Run(h, be, st, batches, noises).outcomes
   * with n = |batches| and c = st.totalIt.
   */
  lemma RunCadence(outcomes: seq<Outcome>, n: nat, policyFreq: int, c: int)
    requires 0 < policyFreq && StopsAtFailure(outcomes, n) && AllLogged(outcomes) && OnCadence(outcomes, policyFreq, c)
    ensures |outcomes| == n && ActorUpdates(outcomes) == (c + n) / policyFreq - c / policyFreq
  {
    AllLoggedComplete(outcomes, n);
    CadenceCount(outcomes, policyFreq, c);
  }

  /** What `state_dict` returns: the live networks, their optimisers and the counter; no targets. */
  datatype Snapshot = Snapshot(
    critic1: Params, critic1Optimizer: OptimState,
    critic2: Params, critic2Optimizer: OptimState,
    actor: Params, actorOptimizer: OptimState,
    totalIt: int)

  function SnapshotOf(st: TrainerState): Snapshot
  {
    Snapshot(st.critic1, st.critic1Optimizer, st.critic2, st.critic2Optimizer, st.actor, st.actorOptimizer, st.totalIt)
  }

  datatype RestoreResult = RestoreResult(next: TrainerState, ok: bool)

  /**
   * `load_state_dict`: for critic 1, critic 2 and the actor in turn, load the
   * network (a strict load, which raises when the saved parameters do not
   * have the live network's shape), load its optimiser, and rebuild its
   * target as a copy of it; then restore the counter. A failure leaves the
   * groups already processed restored and the rest untouched. On success
   * the live part of the state is the snapshot, and every target equals its
   * live network, whatever the targets held before.
   */
  function Restore(st: TrainerState, s: Snapshot): (r: RestoreResult)
    ensures r.ok <==> |s.critic1| == |st.critic1| && |s.critic2| == |st.critic2| && |s.actor| == |st.actor|
    ensures r.ok ==> SnapshotOf(r.next) == s
    ensures r.ok ==>
              && r.next.critic1Target == r.next.critic1
              && r.next.critic2Target == r.next.critic2
              && r.next.actorTarget == r.next.actor
    ensures !r.ok ==>
              && r.next.totalIt == st.totalIt
              && r.next.actor == st.actor && r.next.actorOptimizer == st.actorOptimizer
              && r.next.actorTarget == st.actorTarget
    ensures |s.critic1| != |st.critic1| ==> r.next == st
    ensures |s.critic1| == |st.critic1| && |s.critic2| != |st.critic2| ==>
              r.next == st.(critic1 := s.critic1, critic1Optimizer := s.critic1Optimizer, critic1Target := s.critic1)
    ensures |s.critic1| == |st.critic1| && |s.critic2| == |st.critic2| && |s.actor| != |st.actor| ==>
              r.next == st.(critic1 := s.critic1, critic1Optimizer := s.critic1Optimizer, critic1Target := s.critic1,
                            critic2 := s.critic2, critic2Optimizer := s.critic2Optimizer, critic2Target := s.critic2)
    ensures TargetsShaped(st) ==> TargetsShaped(r.next)
  {
    if |s.critic1| != |st.critic1| then RestoreResult(st, false)
    else
      var st1 := st.(critic1 := s.critic1, critic1Optimizer := s.critic1Optimizer, critic1Target := s.critic1);
      if |s.critic2| != |st.critic2| then RestoreResult(st1, false)
      else
        var st2 := st1.(critic2 := s.critic2, critic2Optimizer := s.critic2Optimizer, critic2Target := s.critic2);
        if |s.actor| != |st.actor| then RestoreResult(st2, false)
        else RestoreResult(st2.(actor := s.actor, actorOptimizer := s.actorOptimizer, actorTarget := s.actor,
                                totalIt := s.totalIt), true)
  }

  /**
   * Snapshot then restore: the live networks, optimiser states and counter
   * come back unchanged and each target becomes a copy of its live network.
   */
  lemma SnapshotRestore(st: TrainerState)
    ensures Restore(st, SnapshotOf(st)) ==
            RestoreResult(st.(actorTarget := st.actor, critic1Target := st.critic1, critic2Target := st.critic2), true)
  {
  }

  /** A successful restore does not depend on what the targets (or any other part of the state) held before. */
  lemma RestoreForgetsTargets(st: TrainerState, other: TrainerState, s: Snapshot)
    requires |st.critic1| == |other.critic1| && |st.critic2| == |other.critic2| && |st.actor| == |other.actor|
    ensures Restore(st, s).ok ==> Restore(st, s) == Restore(other, s)
  {
  }

  /**
   * The trainer object. The fields are those of the source; the networks
   * and optimisers are their parameter and state values.
   */
  class Trainer {
    var actor: Params
    var actorTarget: Params
    var actorOptimizer: OptimState
    var critic1: Params
    var critic1Target: Params
    var critic1Optimizer: OptimState
    var critic2: Params
    var critic2Target: Params
    var critic2Optimizer: OptimState

    const maxAction: real
    const discount: real
    const tau: real
    const policyNoise: real
    const noiseClip: real
    const policyFreq: int
    const alpha: real
    const backend: Backend

    var totalIt: int

    function State(): TrainerState
      reads this
    {
      TrainerState(actor, actorTarget, actorOptimizer, critic1, critic1Target, critic1Optimizer,
                   critic2, critic2Target, critic2Optimizer, totalIt)
    }

    function Hyperparameters(): Hyper
    {
      Hyper(maxAction, discount, tau, policyNoise, noiseClip, policyFreq, alpha)
    }

    ghost predicate Valid()
      reads this
    {
      TargetsShaped(State()) && KeepsShapes(backend)
    }

    /** Targets start as deep copies of the live networks and the counter at 0. */
    constructor (maxAction: real, actor: Params, actorOptimizer: OptimState,
                 critic1: Params, critic1Optimizer: OptimState,
                 critic2: Params, critic2Optimizer: OptimState,
                 backend: Backend,
                 discount: real := 0.99, tau: real := 0.005, policyNoise: real := 0.2,
                 noiseClip: real := 0.5, policyFreq: int := 2, alpha: real := 2.5)
      requires KeepsShapes(backend)
      ensures Valid()
      ensures State() == Initial(actor, actorOptimizer, critic1, critic1Optimizer, critic2, critic2Optimizer)
      ensures Hyperparameters() == Hyper(maxAction, discount, tau, policyNoise, noiseClip, policyFreq, alpha)
      ensures this.backend == backend
    {
      this.actor := actor;
      this.actorTarget := actor;
      this.actorOptimizer := actorOptimizer;
      this.critic1 := critic1;
      this.critic1Target := critic1;
      this.critic1Optimizer := critic1Optimizer;
      this.critic2 := critic2;
      this.critic2Target := critic2;
      this.critic2Optimizer := critic2Optimizer;
      this.maxAction := maxAction;
      this.discount := discount;
      this.tau := tau;
      this.policyNoise := policyNoise;
      this.noiseClip := noiseClip;
      this.policyFreq := policyFreq;
      this.alpha := alpha;
      this.backend := backend;
      this.totalIt := 0;
    }

    /** `train`: one step in place; the new state and the outcome are those of TrainStep. */
    method Train(batch: Batch, gauss: seq<seq<real>>) returns (outcome: Outcome)
      requires Valid() && |batch| > 0 && NoiseShaped(batch, gauss)
      modifies this
      ensures Valid()
      ensures totalIt == old(totalIt) + 1
      ensures var r := TrainStep(Hyperparameters(), backend, old(State()), batch, gauss);
              State() == r.next && outcome == r.outcome
    {
      totalIt := totalIt + 1;
      if !ActionsAgree(backend, actorTarget, batch, gauss) {
        return ShapeMismatch;
      }
      var targetQ := TargetQ(Hyperparameters(), backend, actorTarget, critic1Target, critic2Target, batch, gauss);
      var log: map<string, real> := map[];
      log := log[CriticLossKey := CriticLoss(backend, critic1, critic2, batch, targetQ)];
      StepCritics(batch, targetQ);
      if policyFreq == 0 {
        return ZeroDivisionError;
      }
      if totalIt % policyFreq == 0 {
        log := log[ActorLossKey := backend.actorLoss(actor, critic1, batch, alpha)];
        SyncPolicy(batch);
      }
      return Logged(log);
    }

    /** The critic half of `train`, in place. */
    method StepCritics(batch: Batch, targetQ: seq<real>)
      requires Valid()
      modifies this
      ensures Valid()
      ensures State() == CriticsStepped(backend, old(State()), batch, targetQ)
    {
      var c1 := backend.criticStep(critic1, critic1Optimizer, batch, targetQ);
      var c2 := backend.criticStep(critic2, critic2Optimizer, batch, targetQ);
      critic1, critic1Optimizer := c1.params, c1.optimizer;
      critic2, critic2Optimizer := c2.params, c2.optimizer;
    }

    /** The delayed half of `train`, in place: actor step, then the three soft updates. */
    method SyncPolicy(batch: Batch)
      requires Valid()
      modifies this
      ensures Valid()
      ensures State() == PolicySynced(Hyperparameters(), backend, old(State()), batch)
    {
      var a := backend.actorStep(actor, actorOptimizer, critic1, batch, alpha);
      actor, actorOptimizer := a.params, a.optimizer;
      critic1Target := SoftUpdate(critic1Target, critic1, tau);
      critic2Target := SoftUpdate(critic2Target, critic2, tau);
      actorTarget := SoftUpdate(actorTarget, actor, tau);
    }

    /** `state_dict`: reads the trainer and changes nothing. */
    method StateDict() returns (s: Snapshot)
      ensures s == SnapshotOf(State())
      ensures s.totalIt == totalIt && s.actor == actor && s.critic1 == critic1 && s.critic2 == critic2
    {
      s := Snapshot(critic1, critic1Optimizer, critic2, critic2Optimizer, actor, actorOptimizer, totalIt);
    }

    /** `load_state_dict`, group by group, in place; `ok` is false where the source raises. */
    method LoadStateDict(s: Snapshot) returns (ok: bool)
      requires Valid()
      modifies this
      ensures Valid()
      ensures var r := Restore(old(State()), s); State() == r.next && ok == r.ok
    {
      if |s.critic1| != |critic1| {
        return false;
      }
      critic1 := s.critic1;
      critic1Optimizer := s.critic1Optimizer;
      critic1Target := critic1;
      if |s.critic2| != |critic2| {
        return false;
      }
      critic2 := s.critic2;
      critic2Optimizer := s.critic2Optimizer;
      critic2Target := critic2;
      if |s.actor| != |actor| {
        return false;
      }
      actor := s.actor;
      actorOptimizer := s.actorOptimizer;
      actorTarget := actor;
      totalIt := s.totalIt;
      return true;
    }
  }

  /**
   * A client of the class: exporting and immediately re-importing leaves the
   * live networks, optimisers and counter as they were and resynchronises
   * every target with its live network.
   */
  method ExportImport(t: Trainer)
    requires t.Valid()
    modifies t
    ensures t.Valid()
    ensures t.actor == old(t.actor) && t.critic1 == old(t.critic1) && t.critic2 == old(t.critic2)
    ensures t.actorOptimizer == old(t.actorOptimizer) && t.critic1Optimizer == old(t.critic1Optimizer)
    ensures t.critic2Optimizer == old(t.critic2Optimizer) && t.totalIt == old(t.totalIt)
    ensures t.actorTarget == t.actor && t.critic1Target == t.critic1 && t.critic2Target == t.critic2
  {
    var s := t.StateDict();
    var ok := t.LoadStateDict(s);
    SnapshotRestore(old(t.State()));
  }
}

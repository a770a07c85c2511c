/**
 How long an operation on a service can take. The two waits of a stop end by their
 deadlines; apart from the rounds they spend before, every operation is a bounded number of
 steps, and so is the clean-up of the observer.
 */
module ProcessProgress {
  import opened Common
  import opened ProcessModel
  import opened ProcessSafety
  import opened ProcessTheorems

  /** An upper bound on the steps the operation thread has left, wait rounds that end before
      the deadline not counted. */
  function StepsLeft(op: Op, restarting: bool): nat {
    var again := if restarting then 8 else 0;
    match op
    case Idle => 0
    case StartConfirm(_) => 1
    case StartFail => 1
    case StartSpawn(_) => 2
    case StartReap(_) => 2
    case StartPublish(_) => 3
    case StartKill(_) => 3
    case StartHandshake(_) => 4
    case StartPrepare => 5
    case StartClaim => 6
    case StartJoin => 7
    case RestartStart => 8
    case StopJoin(_) => again + 1
    case StopGiveUp(_) => again + 1
    case StopDecide(_, forced, _, _) => again + if forced then 2 else 6
    case StopProbe(_, forced, _) => again + if forced then 3 else 7
    case StopPoll(_, forced) => again + if forced then 4 else 8
    case StopKill(_) => again + 5
    case StopTerm(_) => again + 9
    case RestartStop => 18
  }

  predicate OperationEvent(e: Event) { StartEvent(e) || StopEvent(e) }

  /** A wait round that ends neither in success nor at the deadline. */
  predicate KeepsWaiting(s: State, e: Event) {
    e == Decide(false) && s.op.StopDecide? && !(s.op.observed && s.op.gone)
  }

  lemma StartStepUses(s: State, e: Event)
    requires StartEvent(e) && StartEnabled(s, e) && (s.op.RestartStart? ==> s.restarting)
    ensures StepsLeft(AfterStart(s, e).op, AfterStart(s, e).restarting) < StepsLeft(s.op, s.restarting)
  {
    match e
    case BeginStart =>
    case JoinForStart =>
    case Claim =>
    case PrepareFails =>
    case Fork =>
    case HandshakeOk =>
    case HandshakeReported =>
    case HandshakeAbandoned =>
    case KillChild =>
    case ReapChild =>
    case Fail =>
    case Publish =>
    case Spawn =>
    case Confirm =>
  }

  lemma StopStepUses(s: State, e: Event)
    requires StopEvent(e) && StopEnabled(s, e) && (s.op.RestartStop? ==> s.restarting)
    ensures var s' := AfterStop(s, e);
      StepsLeft(s'.op, s'.restarting) <=
      StepsLeft(s.op, s.restarting) + if KeepsWaiting(s, e) then 2 else -1
  {
    match e
    case BeginStop =>
    case Terminate =>
    case SignalRefused =>
    case Poll =>
    case Probe(_) =>
    case Decide(_) =>
    case Kill =>
    case GiveUp =>
    case JoinForStop =>
  }

  lemma OthersUseNothing(s: State, e: Event)
    requires Enabled(s, e) && !CallerEvent(e) && !OperationEvent(e)
    ensures After(s, e).op == s.op && After(s, e).restarting == s.restarting
  {
  }

  /** The steps from `m` to `n` that the operation thread takes. */
  function OperationSteps(es: seq<Event>, m: nat, n: nat): nat
    requires m <= n <= |es|
  {
    if m == n then 0 else OperationSteps(es, m, n - 1) + if OperationEvent(es[n - 1]) then 1 else 0
  }

  /** Those of them that keep waiting. */
  function WaitRounds(ss: seq<State>, es: seq<Event>, m: nat, n: nat): nat
    requires m <= n <= |es| && |ss| == |es| + 1
  {
    if m == n then 0
    else WaitRounds(ss, es, m, n - 1) + if KeepsWaiting(ss[n - 1], es[n - 1]) then 1 else 0
  }

  /** In every interleaving, until the next call: the operation under way takes at most
      `StepsLeft` steps of its own, and three more for every round it waits before the
      deadline. Eighteen and those rounds are enough for any operation. */
  lemma {:induction false} OperationIsBounded(ss: seq<State>, es: seq<Event>, m: nat, n: nat)
    requires Run(ss, es) && m <= n < |ss| && forall k :: m <= k < n ==> !CallerEvent(es[k])
    ensures OperationSteps(es, m, n) + StepsLeft(ss[n].op, ss[n].restarting) <=
            StepsLeft(ss[m].op, ss[m].restarting) + 3 * WaitRounds(ss, es, m, n)
    ensures StepsLeft(ss[m].op, ss[m].restarting) <= 18
  {
    if m < n {
      OperationIsBounded(ss, es, m, n - 1);
      RunInv(ss, es, n - 1);
      StepUses(ss[n - 1], es[n - 1]);
    }
  }

  lemma StepUses(s: State, e: Event)
    requires Inv(s) && Enabled(s, e) && !CallerEvent(e)
    ensures var s' := After(s, e);
      StepsLeft(s'.op, s'.restarting) <=
      StepsLeft(s.op, s.restarting) +
      if !OperationEvent(e) then 0 else if KeepsWaiting(s, e) then 2 else -1
  {
    if StartEvent(e) {
      StartStepUses(s, e);
    } else if StopEvent(e) {
      StopStepUses(s, e);
    } else {
      OthersUseNothing(s, e);
    }
  }

  /** From the deadline on no round keeps waiting: if every decision from step `m` on finds
      the deadline passed, the operation is over after `StepsLeft` more steps of its own. */
  lemma ExpiredOperationEnds(ss: seq<State>, es: seq<Event>, m: nat, n: nat)
    requires Run(ss, es) && m <= n < |ss| && forall k :: m <= k < n ==> !CallerEvent(es[k])
    requires forall k :: m <= k < n && es[k].Decide? ==> es[k].expired
    ensures OperationSteps(es, m, n) <= StepsLeft(ss[m].op, ss[m].restarting)
    ensures OperationSteps(es, m, n) == StepsLeft(ss[m].op, ss[m].restarting) ==> ss[n].op.Idle?
  {
    NoRounds(ss, es, m, n);
    OperationIsBounded(ss, es, m, n);
    NothingLeftIsIdle(ss[n].op, ss[n].restarting);
  }

  lemma NothingLeftIsIdle(op: Op, restarting: bool)
    ensures StepsLeft(op, restarting) == 0 <==> op.Idle?
  {
  }

  lemma {:induction false} NoRounds(ss: seq<State>, es: seq<Event>, m: nat, n: nat)
    requires m <= n <= |es| && |ss| == |es| + 1
    requires forall k :: m <= k < n && es[k].Decide? ==> es[k].expired
    ensures WaitRounds(ss, es, m, n) == 0
  {
    if m < n {
      NoRounds(ss, es, m, n - 1);
    }
  }
}

/**
 What every interleaving of callers, the operation thread, the observer and the
 processes keeps: generations of a service never overlap, each child is reaped once
 by one thread, and a join never waits for a live leader.
 */
module ProcessSafety {
  import opened Common
  import opened ProcessModel

  // The invariant

  predicate GenerationOk(g: Generation) {
    && (if g.leader.Reaped? then g.reaps == 1 && !g.reaper.Nobody? else g.reaps == 0 && g.reaper.Nobody?)
    && (!g.progress.Execed? ==> g.members == 0 && !g.killedLate)
    && (g.leader.Reaped? ==> g.reaper == if g.watched then Observer else Starter)
  }

  /** The generation the starting thread is responsible for reaping. */
  function ChildInHand(op: Op): Option<nat> {
    match op
    case StartHandshake(c) => Some(c)
    case StartKill(c) => Some(c)
    case StartReap(c) => Some(c)
    case StartPublish(c) => Some(c)
    case StartSpawn(c) => Some(c)
    case _ => None
  }

  function Watched(o: Obs): Option<nat> {
    if o.Waiting? then Some(o.g) else None
  }

  predicate MayReap(s: State, g: nat) {
    ChildInHand(s.op) == Some(g) || Watched(s.obs) == Some(g)
  }

  predicate NotYetSettled(op: Op, g: nat) {
    op == StartHandshake(g) || op == StartKill(g) || op == StartPublish(g)
  }

  ghost predicate GenerationsOk(s: State) {
    && (forall g :: 0 <= g < |s.gens| ==> GenerationOk(s.gens[g]))
    && (forall g :: 0 <= g < |s.gens| && !s.gens[g].leader.Reaped? ==> MayReap(s, g))
    && (forall g :: 0 <= g < |s.gens| && !s.gens[g].leader.Reaped? ==> s.gens[g].watched == (Watched(s.obs) == Some(g)))
    && (forall g :: 0 <= g < |s.gens| && s.gens[g].members > 0 ==>
          s.gens[g].killedLate || s.f.pgid == Some(g) || NotYetSettled(s.op, g))
  }

  /** `pid_` set implies `process_group_id_` is the same number, and the observer holds
      the leader until it has published the exit. */
  predicate PidOk(s: State) {
    && (s.f.pid.Some? ==>
          && s.f.pgid == s.f.pid
          && s.f.pid.value < |s.gens|
          && (s.op == StartSpawn(s.f.pid.value) || s.obs == Waiting(s.f.pid.value) ||
              s.obs == Publishing(s.f.pid.value)))
    && (s.f.pgid.Some? ==> s.f.pgid.value < |s.gens|)
    && (s.obs.Waiting? || s.obs.Publishing? ==> s.f.pid == Some(s.obs.g))
    && (!s.obs.NoThread? ==> s.obs.g < |s.gens| && s.gens[s.obs.g].leader.Reaped? == !s.obs.Waiting?)
  }

  predicate Unclaimed(s: State) {
    s.f.pid.None? && s.f.pgid.None? && s.obs.NoThread?
  }

  /** The state a stop leaves behind once nobody watches the leader any more. */
  predicate StopStateOk(s: State, x: Target) {
    && s.f.desired == x.final
    && s.restarting == x.final.WantRunning?
    && (x.pid.Some? ==> s.f.state == if s.f.pid.Some? then Stopping else Stopped)
    && (x.pid.None? && x.pgid.Some? ==> s.f.state == Stopping)
  }

  predicate StopTargetOk(s: State, x: Target) {
    && x.pgid.Some? && x.pgid.value < |s.gens|
    && (x.pid.Some? ==> x.pid == x.pgid)
    && (s.f.pid == None || s.f.pid == x.pid)
    && (s.f.pgid == None || s.f.pgid == x.pgid)
    && StopStateOk(s, x)
  }

  /** After SIGKILL nothing in the group runs any more. */
  predicate ForcedOk(s: State, x: Target, forced: bool) {
    x.pgid.Some? && x.pgid.value < |s.gens| && (forced ==> MayLookGone(s.gens[x.pgid.value]))
  }

  predicate OpOk(s: State) {
    match s.op
    case Idle => !s.restarting
    case RestartStop => s.restarting
    case RestartStart => s.restarting && Unclaimed(s)
    case StartJoin => s.f.pid.None? && s.f.desired.WantRunning?
    case StartClaim => s.f.pid.None? && s.obs.NoThread? && s.f.desired.WantRunning?
    case StartPrepare => Unclaimed(s) && s.f.desired.WantRunning?
    case StartFail => Unclaimed(s) && s.f.desired.WantRunning?
    case StartHandshake(c) => Unclaimed(s) && c < |s.gens| && !s.gens[c].leader.Reaped? && !s.gens[c].killedLate
                              && s.f.desired.WantRunning?
    case StartKill(c) => Unclaimed(s) && c < |s.gens| && !s.gens[c].leader.Reaped? && s.f.desired.WantRunning?
    case StartReap(c) => Unclaimed(s) && c < |s.gens| && !s.gens[c].leader.Reaped? && s.f.desired.WantRunning?
                         && (s.gens[c].progress.Reported? || !s.gens[c].leader.Live?)
    case StartPublish(c) => Unclaimed(s) && c < |s.gens| && !s.gens[c].leader.Reaped? && s.f.desired.WantRunning?
                            && (s.gens[c].leader.Live? ==> s.gens[c].progress.Execed?)
    case StartSpawn(c) => c < |s.gens| && s.f.pid == Some(c) && s.obs.NoThread? && !s.gens[c].leader.Reaped?
                          && s.f.desired.WantRunning?
    case StartConfirm(c) => c < |s.gens| && !s.obs.NoThread? && s.f.desired.WantRunning?
    case StopTerm(x) => StopTargetOk(s, x)
    case StopPoll(x, forced) => StopTargetOk(s, x) && ForcedOk(s, x, forced)
    case StopProbe(x, forced, observed) => StopTargetOk(s, x) && ForcedOk(s, x, forced) && (observed ==> s.f.pid.None?)
    case StopDecide(x, forced, observed, gone) =>
      StopTargetOk(s, x) && ForcedOk(s, x, forced || gone) && (observed ==> s.f.pid.None?)
    case StopKill(x) => StopTargetOk(s, x)
    case StopGiveUp(x) => StopTargetOk(s, x)
    case StopJoin(x) =>
      && s.f.pid.None? && s.f.pgid.None? && StopStateOk(s, x)
      && (x.pid.Some? ==> x.pid == x.pgid)
      && (x.pgid.None? ==> s.f.state == Stopped || x.final.WantRunning?)
      && (x.pgid.Some? ==> x.pgid.value < |s.gens| && MustLookGone(s.gens[x.pgid.value]))
  }

  ghost predicate Inv(s: State) {
    && GenerationsOk(s) && PidOk(s) && OpOk(s)
    && (s.restarting ==> s.f.desired.WantRunning? && !s.op.Idle?)
  }

  lemma InitInv(s: State)
    requires Init(s)
    ensures Inv(s)
  {
  }

  // Every step keeps it

  /** `b` is `a` with other members and perhaps its leader dead. */
  predicate Ages(a: Generation, b: Generation) {
    && b == a.(members := b.members, leader := b.leader) && b.leader.Reaped? == a.leader.Reaped?
    && (b.leader.Live? ==> a.leader.Live?) && (MayLookGone(a) ==> MayLookGone(b))
  }

  lemma AgingGenerations(s: State, g: nat, x: Generation)
    requires GenerationsOk(s) && g < |s.gens| && Ages(s.gens[g], x) && GenerationOk(x)
    requires x.members > 0 ==> x.killedLate || s.f.pgid == Some(g) || NotYetSettled(s.op, g)
    ensures GenerationsOk(s.(gens := s.gens[g := x]))
  {
  }

  lemma AgingPid(s: State, g: nat, x: Generation)
    requires PidOk(s) && g < |s.gens| && Ages(s.gens[g], x)
    ensures PidOk(s.(gens := s.gens[g := x]))
  {
  }

  lemma AgingOp(s: State, g: nat, x: Generation)
    requires OpOk(s) && g < |s.gens| && Ages(s.gens[g], x)
    ensures OpOk(s.(gens := s.gens[g := x]))
  {
  }

  lemma AgingInv(s: State, g: nat, x: Generation)
    requires Inv(s) && g < |s.gens| && Ages(s.gens[g], x) && GenerationOk(x)
    requires x.members > 0 ==> x.killedLate || s.f.pgid == Some(g) || NotYetSettled(s.op, g)
    ensures Inv(s.(gens := s.gens[g := x]))
  {
    AgingGenerations(s, g, x);
    AgingPid(s, g, x);
    AgingOp(s, g, x);
  }

  /** Whoever can fork is accounted for. */
  lemma MayGain(s: State, g: nat)
    requires Inv(s) && ProcessEnabled(s, MemberForks(g))
    ensures s.gens[g].killedLate || s.f.pgid == Some(g) || NotYetSettled(s.op, g)
  {
    if s.gens[g].members == 0 {
      assert MayReap(s, g);
    }
  }

  lemma CallerStepInv(s: State, e: Event)
    requires Inv(s) && CallerEvent(e) && s.op.Idle?
    ensures Inv(AfterCaller(s, e))
  {
  }

  lemma BeginStartInv(s: State)
    requires Inv(s) && StartEnabled(s, BeginStart)
    ensures Inv(AfterStart(s, BeginStart))
  {
  }

  lemma JoinForStartInv(s: State)
    requires Inv(s) && StartEnabled(s, JoinForStart)
    ensures Inv(AfterStart(s, JoinForStart))
  {
  }

  lemma ClaimInv(s: State)
    requires Inv(s) && StartEnabled(s, Claim)
    ensures Inv(AfterStart(s, Claim))
  {
  }

  lemma PrepareFailsInv(s: State)
    requires Inv(s) && StartEnabled(s, PrepareFails)
    ensures Inv(AfterStart(s, PrepareFails))
  {
  }

  lemma ForkInv(s: State)
    requires Inv(s) && StartEnabled(s, Fork)
    ensures Inv(AfterStart(s, Fork))
  {
  }

  lemma HandshakeOkInv(s: State)
    requires Inv(s) && StartEnabled(s, HandshakeOk)
    ensures Inv(AfterStart(s, HandshakeOk))
  {
  }

  lemma HandshakeReportedInv(s: State)
    requires Inv(s) && StartEnabled(s, HandshakeReported)
    ensures Inv(AfterStart(s, HandshakeReported))
  {
  }

  lemma HandshakeAbandonedInv(s: State)
    requires Inv(s) && StartEnabled(s, HandshakeAbandoned)
    ensures Inv(AfterStart(s, HandshakeAbandoned))
  {
  }

  lemma KillChildInv(s: State)
    requires Inv(s) && StartEnabled(s, KillChild)
    ensures Inv(AfterStart(s, KillChild))
  {
  }

  lemma ReapChildInv(s: State)
    requires Inv(s) && StartEnabled(s, ReapChild)
    ensures Inv(AfterStart(s, ReapChild))
  {
  }

  lemma FailInv(s: State)
    requires Inv(s) && StartEnabled(s, Fail)
    ensures Inv(AfterStart(s, Fail))
  {
  }

  lemma PublishInv(s: State)
    requires Inv(s) && StartEnabled(s, Publish)
    ensures Inv(AfterStart(s, Publish))
  {
  }

  lemma SpawnInv(s: State)
    requires Inv(s) && StartEnabled(s, Spawn)
    ensures Inv(AfterStart(s, Spawn))
  {
  }

  lemma ConfirmInv(s: State)
    requires Inv(s) && StartEnabled(s, Confirm)
    ensures Inv(AfterStart(s, Confirm))
  {
  }

  lemma BeginStopInv(s: State)
    requires Inv(s) && StopEnabled(s, BeginStop)
    ensures Inv(AfterStop(s, BeginStop))
  {
  }

  lemma TerminateInv(s: State)
    requires Inv(s) && StopEnabled(s, Terminate)
    ensures Inv(AfterStop(s, Terminate))
  {
  }

  lemma RefusedInv(s: State)
    requires Inv(s) && StopEnabled(s, SignalRefused)
    ensures Inv(AfterStop(s, SignalRefused))
  {
  }

  lemma PollInv(s: State)
    requires Inv(s) && StopEnabled(s, Poll)
    ensures Inv(AfterStop(s, Poll))
  {
  }

  lemma ProbeInv(s: State, gone: bool)
    requires Inv(s) && StopEnabled(s, Probe(gone))
    ensures Inv(AfterStop(s, Probe(gone)))
  {
  }

  lemma KillInv(s: State)
    requires Inv(s) && StopEnabled(s, Kill)
    ensures Inv(AfterStop(s, Kill))
  {
    var x := s.op.x;
    var g := x.pgid.value;
    AgingInv(s, g, Killed(s.gens[g]).(members := 0));
    KilledInv(s.(gens := KillGroup(s.gens, x.pgid)), x);
  }

  lemma KilledInv(s: State, x: Target)
    requires Inv(s) && s.op == StopKill(x) && MayLookGone(s.gens[x.pgid.value])
    ensures Inv(s.(op := StopPoll(x, true)))
  {
  }

  lemma GiveUpInv(s: State)
    requires Inv(s) && StopEnabled(s, GiveUp)
    ensures Inv(AfterStop(s, GiveUp))
  {
  }

  lemma JoinForStopInv(s: State)
    requires Inv(s) && StopEnabled(s, JoinForStop)
    ensures Inv(AfterStop(s, JoinForStop))
  {
  }

  lemma FinishedInv(s: State)
    requires Inv(s) && s.op.StopDecide? && s.op.observed && s.op.gone
    ensures Inv(s.(f := if s.f.pgid == s.op.x.pgid then s.f.(pgid := None) else s.f, op := StopJoin(s.op.x)))
  {
  }

  lemma PollsAgainInv(s: State)
    requires Inv(s) && s.op.StopDecide?
    ensures Inv(s.(op := StopPoll(s.op.x, s.op.forced)))
  {
  }

  lemma ExpiredInv(s: State)
    requires Inv(s) && s.op.StopDecide?
    ensures Inv(s.(op := if s.op.forced then StopGiveUp(s.op.x) else StopKill(s.op.x)))
  {
  }

  lemma DecideInv(s: State, expired: bool)
    requires Inv(s) && StopEnabled(s, Decide(expired))
    ensures Inv(AfterStop(s, Decide(expired)))
  {
    if s.op.observed && s.op.gone {
      FinishedInv(s);
    } else if !expired {
      PollsAgainInv(s);
    } else {
      ExpiredInv(s);
    }
  }

  lemma ObserverReapsInv(s: State)
    requires Inv(s) && ObserverEnabled(s, ObserverReaps)
    ensures Inv(AfterObserver(s, ObserverReaps))
  {
  }

  lemma ObserverPublishesInv(s: State)
    requires Inv(s) && ObserverEnabled(s, ObserverPublishes)
    ensures Inv(AfterObserver(s, ObserverPublishes))
  {
  }

  lemma ObserverProbesInv(s: State, gone: bool)
    requires Inv(s) && ObserverEnabled(s, ObserverProbes(gone))
    ensures Inv(AfterObserver(s, ObserverProbes(gone)))
  {
  }

  lemma ObserverKillsInv(s: State)
    requires Inv(s) && ObserverEnabled(s, ObserverKills)
    ensures Inv(AfterObserver(s, ObserverKills))
  {
  }

  lemma ObserverStopsWaitingInv(s: State)
    requires Inv(s) && ObserverEnabled(s, ObserverStopsWaiting)
    ensures Inv(AfterObserver(s, ObserverStopsWaiting))
  {
  }

  lemma ObserverClearsInv(s: State, gone: bool)
    requires Inv(s) && ObserverEnabled(s, ObserverClears(gone))
    ensures Inv(AfterObserver(s, ObserverClears(gone)))
  {
  }

  lemma LeaderExecsInv(s: State, g: nat)
    requires Inv(s) && ProcessEnabled(s, LeaderExecs(g))
    ensures Inv(AfterProcess(s, LeaderExecs(g)))
  {
  }

  lemma LeaderReportsInv(s: State, g: nat)
    requires Inv(s) && ProcessEnabled(s, LeaderReports(g))
    ensures Inv(AfterProcess(s, LeaderReports(g)))
  {
  }

  lemma LeaderDiesInv(s: State, g: nat)
    requires Inv(s) && ProcessEnabled(s, LeaderDies(g))
    ensures Inv(AfterProcess(s, LeaderDies(g)))
  {
  }

  lemma MemberForksInv(s: State, g: nat)
    requires Inv(s) && ProcessEnabled(s, MemberForks(g))
    ensures Inv(AfterProcess(s, MemberForks(g)))
  {
    MayGain(s, g);
    AgingInv(s, g, s.gens[g].(members := s.gens[g].members + 1));
  }

  lemma MemberExitsInv(s: State, g: nat)
    requires Inv(s) && ProcessEnabled(s, MemberExits(g))
    ensures Inv(AfterProcess(s, MemberExits(g)))
  {
    AgingInv(s, g, s.gens[g].(members := s.gens[g].members - 1));
  }

  lemma StartStepInv(s: State, e: Event)
    requires Inv(s) && StartEvent(e) && StartEnabled(s, e)
    ensures Inv(AfterStart(s, e))
  {
    if e.BeginStart? { BeginStartInv(s); }
    else if e.JoinForStart? { JoinForStartInv(s); }
    else if e.Claim? { ClaimInv(s); }
    else if e.PrepareFails? { PrepareFailsInv(s); }
    else if e.Fork? { ForkInv(s); }
    else if e.Fail? { FailInv(s); }
    else { ChildStepInv(s, e); }
  }

  predicate InHand(e: Event) {
    e.HandshakeOk? || e.HandshakeReported? || e.HandshakeAbandoned? || e.KillChild? || e.ReapChild? || e.Publish? ||
    e.Spawn? || e.Confirm?
  }

  lemma ChildStepInv(s: State, e: Event)
    requires Inv(s) && StartEvent(e) && StartEnabled(s, e) && InHand(e)
    ensures Inv(AfterStart(s, e))
  {
    if e.HandshakeOk? { HandshakeOkInv(s); }
    else if e.HandshakeReported? { HandshakeReportedInv(s); }
    else if e.HandshakeAbandoned? { HandshakeAbandonedInv(s); }
    else if e.KillChild? { KillChildInv(s); }
    else if e.ReapChild? { ReapChildInv(s); }
    else if e.Publish? { PublishInv(s); }
    else if e.Spawn? { SpawnInv(s); }
    else { ConfirmInv(s); }
  }

  lemma StopStepInv(s: State, e: Event)
    requires Inv(s) && StopEvent(e) && StopEnabled(s, e)
    ensures Inv(AfterStop(s, e))
  {
    if e.BeginStop? { BeginStopInv(s); }
    else if e.Terminate? { TerminateInv(s); }
    else if e.SignalRefused? { RefusedInv(s); }
    else if e.Poll? { PollInv(s); }
    else if e.Probe? { ProbeInv(s, e.gone); }
    else if e.Decide? { DecideInv(s, e.expired); }
    else if e.Kill? { KillInv(s); }
    else if e.GiveUp? { GiveUpInv(s); }
    else { JoinForStopInv(s); }
  }

  lemma ObserverStepInv(s: State, e: Event)
    requires Inv(s) && ObserverEvent(e) && ObserverEnabled(s, e)
    ensures Inv(AfterObserver(s, e))
  {
    if e.ObserverReaps? { ObserverReapsInv(s); }
    else if e.ObserverPublishes? { ObserverPublishesInv(s); }
    else if e.ObserverProbes? { ObserverProbesInv(s, e.gone); }
    else if e.ObserverKills? { ObserverKillsInv(s); }
    else if e.ObserverStopsWaiting? { ObserverStopsWaitingInv(s); }
    else { ObserverClearsInv(s, e.gone); }
  }

  lemma ProcessStepInv(s: State, e: Event)
    requires Inv(s) && ProcessEvent(e) && ProcessEnabled(s, e)
    ensures Inv(AfterProcess(s, e))
  {
    if e.LeaderExecs? { LeaderExecsInv(s, e.g); }
    else if e.LeaderReports? { LeaderReportsInv(s, e.g); }
    else if e.LeaderDies? { LeaderDiesInv(s, e.g); }
    else if e.MemberForks? { MemberForksInv(s, e.g); }
    else { MemberExitsInv(s, e.g); }
  }

  lemma StepInv(s: State, e: Event)
    requires Inv(s) && Enabled(s, e)
    ensures Inv(After(s, e))
  {
    if CallerEvent(e) { CallerStepInv(s, e); }
    else if StartEvent(e) { StartStepInv(s, e); }
    else if StopEvent(e) { StopStepInv(s, e); }
    else if ObserverEvent(e) { ObserverStepInv(s, e); }
    else { ProcessStepInv(s, e); }
  }
}

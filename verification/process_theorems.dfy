/**
 Whole runs of the supervisor: what holds at every fork, at every `waitpid`, at every
 join and when a stop returns, over all interleavings.
 */
module ProcessTheorems {
  import opened Common
  import opened ProcessModel
  import opened ProcessSafety

  ghost predicate Run(ss: seq<State>, es: seq<Event>) {
    && |ss| == |es| + 1
    && Init(ss[0])
    && forall i :: 0 <= i < |es| ==> Enabled(ss[i], es[i]) && ss[i + 1] == After(ss[i], es[i])
  }

  lemma {:induction false} RunInv(ss: seq<State>, es: seq<Event>, n: nat)
    requires Run(ss, es) && n < |ss|
    ensures Inv(ss[n])
  {
    if n == 0 {
      InitInv(ss[0]);
    } else {
      RunInv(ss, es, n - 1);
      StepInv(ss[n - 1], es[n - 1]);
    }
  }

  // Generations

  predicate GroupEmpty(g: Generation) {
    g.members == 0 && !g.leader.Live?
  }

  ghost predicate GroupsEmpty(s: State) {
    forall g :: 0 <= g < |s.gens| ==> GroupEmpty(s.gens[g])
  }

  /** At every fork no observer thread exists and every earlier leader has been reaped.
      Every earlier process group is empty exactly when the groups of those children are
      empty whose start was abandoned after they had reached `execv`: that branch kills
      the leader alone. */
  lemma GenerationsNeverOverlap(ss: seq<State>, es: seq<Event>, n: nat)
    requires Run(ss, es) && n < |es| && es[n].Fork?
    ensures ss[n].f.pid.None? && ss[n].f.pgid.None? && ss[n].obs.NoThread?
    ensures forall g :: 0 <= g < |ss[n].gens| ==> ss[n].gens[g].leader.Reaped?
    ensures GroupsEmpty(ss[n]) <==>
      forall g :: 0 <= g < |ss[n].gens| && ss[n].gens[g].killedLate ==> ss[n].gens[g].members == 0
  {
    RunInv(ss, es, n);
    var s := ss[n];
    assert forall g :: 0 <= g < |s.gens| ==> GenerationOk(s.gens[g]);
  }

  /** Only the branch that abandons a handshake sets the mark, and only on a child that has
      reached `execv`. */
  lemma OnlyAbandoningMarks(s: State, e: Event, g: nat)
    requires Inv(s) && Enabled(s, e) && g < |After(s, e).gens|
    ensures After(s, e).gens[g].killedLate <==>
      (g < |s.gens| && s.gens[g].killedLate) ||
      (e.KillChild? && s.op.c == g && s.gens[g].progress.Execed?)
  {
    if g < |s.gens| {
      assert GenerationOk(s.gens[g]);
    }
    if StartEvent(e) {
      StartMarks(s, e, g);
    } else if CallerEvent(e) {
      assert After(s, e).gens == s.gens;
    } else {
      OthersMarkNothing(s, e, g);
    }
  }

  lemma OthersMarkNothing(s: State, e: Event, g: nat)
    requires Inv(s) && Enabled(s, e) && !CallerEvent(e) && !StartEvent(e) && g < |After(s, e).gens|
    ensures g < |s.gens| && After(s, e).gens[g].killedLate == s.gens[g].killedLate
  {
    if StopEvent(e) {
      assert e.Kill? || AfterStop(s, e).gens == s.gens;
    } else if ObserverEvent(e) {
      assert e.ObserverReaps? || e.ObserverKills? || AfterObserver(s, e).gens == s.gens;
    }
  }

  lemma StartMarks(s: State, e: Event, g: nat)
    requires Inv(s) && StartEvent(e) && StartEnabled(s, e) && g < |AfterStart(s, e).gens|
    requires g < |s.gens| ==> GenerationOk(s.gens[g])
    ensures AfterStart(s, e).gens[g].killedLate <==>
      (g < |s.gens| && s.gens[g].killedLate) ||
      (e.KillChild? && s.op.c == g && s.gens[g].progress.Execed?)
  {
    match e
    case Fork =>
    case KillChild =>
    case ReapChild =>
    case Spawn =>
    case BeginStart => assert AfterStart(s, e).gens == s.gens;
    case JoinForStart =>
    case Claim =>
    case PrepareFails =>
    case HandshakeOk =>
    case HandshakeReported =>
    case HandshakeAbandoned =>
    case Fail =>
    case Publish =>
    case Confirm =>
  }

  /** In terms of what happened: the mark says that the start abandoned this child after it
      had reached `execv`. */
  lemma {:induction false} MarkedIff(ss: seq<State>, es: seq<Event>, n: nat, g: nat)
    requires Run(ss, es) && n < |ss| && g < |ss[n].gens|
    ensures ss[n].gens[g].killedLate <==> exists k :: 0 <= k < n && AbandonsLate(ss[k], es[k], g)
  {
    if n > 0 {
      RunInv(ss, es, n - 1);
      OnlyAbandoningMarks(ss[n - 1], es[n - 1], g);
      if g < |ss[n - 1].gens| {
        MarkedIff(ss, es, n - 1, g);
      } else {
        NotYetForked(ss, es, n - 1, g);
      }
    }
  }

  /** This step kills child `g`, which has reached `execv`, because its handshake timed out
      or its pipe failed. */
  predicate AbandonsLate(s: State, e: Event, g: nat) {
    e.KillChild? && s.op == StartKill(g) && g < |s.gens| && s.gens[g].progress.Execed?
  }

  lemma {:induction false} NotYetForked(ss: seq<State>, es: seq<Event>, n: nat, g: nat)
    requires Run(ss, es) && n < |ss| && g >= |ss[n].gens|
    ensures forall k :: 0 <= k < n ==> g >= |ss[k].gens|
  {
    if n > 0 {
      GenerationsGrow(ss[n - 1], es[n - 1]);
      NotYetForked(ss, es, n - 1, g);
    }
  }

  lemma GenerationsGrow(s: State, e: Event)
    requires Enabled(s, e)
    ensures |After(s, e).gens| >= |s.gens|
  {
    if StartEvent(e) {
      assert e.Fork? || |AfterStart(s, e).gens| == |s.gens|;
    } else if StopEvent(e) {
      assert |AfterStop(s, e).gens| == |s.gens|;
    } else if ObserverEvent(e) {
      assert |AfterObserver(s, e).gens| == |s.gens|;
    }
  }

  /** As long as no start has abandoned its handshake, which a caller sees from the error of
      that start, every earlier generation is gone at every fork: leader reaped, group
      empty, no observer. */
  lemma NoAbandonNoOverlap(ss: seq<State>, es: seq<Event>, n: nat)
    requires Run(ss, es) && n < |es| && es[n].Fork?
    requires forall k :: 0 <= k < n ==> !es[k].KillChild?
    ensures GroupsEmpty(ss[n]) && ss[n].obs.NoThread?
    ensures forall g :: 0 <= g < |ss[n].gens| ==> ss[n].gens[g].leader.Reaped?
  {
    GenerationsNeverOverlap(ss, es, n);
    forall g: nat | g < |ss[n].gens|
      ensures !ss[n].gens[g].killedLate
    {
      MarkedIff(ss, es, n, g);
    }
  }

  /** Every overlap is the doing of a particular abandoned start: generation `g` still has
      members at a fork only if an earlier step abandoned it after it had reached `execv`. */
  lemma OverlapNamesItsStart(ss: seq<State>, es: seq<Event>, n: nat, g: nat) returns (k: nat)
    requires Run(ss, es) && n < |es| && es[n].Fork? && g < |ss[n].gens| && !GroupEmpty(ss[n].gens[g])
    ensures k < n && AbandonsLate(ss[k], es[k], g)
  {
    RunInv(ss, es, n);
    assert GenerationOk(ss[n].gens[g]);
    MarkedIff(ss, es, n, g);
    k :| 0 <= k < n && AbandonsLate(ss[k], es[k], g);
  }

  /** `s` occurs at the end of some run. */
  ghost predicate Reachable(s: State) {
    exists ss: seq<State>, es: seq<Event> :: Run(ss, es) && ss[|es|] == s
  }

  /** `R` holds initially and every step keeps it; reachability is such a set. */
  ghost predicate Closed(R: State -> bool) {
    && (forall s :: Init(s) ==> R(s))
    && (forall s, e :: R(s) && Enabled(s, e) ==> R(After(s, e)))
  }

  lemma ReachableStep(s: State, e: Event)
    requires Reachable(s) && Enabled(s, e)
    ensures Reachable(After(s, e))
  {
    var ss, es :| Run(ss, es) && ss[|es|] == s;
    RunExtends(ss, es, e);
    var es' := es + [e];
    assert Run(ss + [After(s, e)], es') && (ss + [After(s, e)])[|es'|] == After(s, e);
  }

  lemma RunExtends(ss: seq<State>, es: seq<Event>, e: Event)
    requires Run(ss, es) && Enabled(ss[|es|], e)
    ensures Run(ss + [After(ss[|es|], e)], es + [e])
  {
  }

  lemma ReachableIsClosed()
    ensures Closed(Reachable)
  {
    forall s | Init(s)
      ensures Reachable(s)
    {
      var ss, es: seq<Event> := [s], [];
      assert Run(ss, es) && ss[|es|] == s;
    }
    forall s, e | Reachable(s) && Enabled(s, e)
      ensures Reachable(After(s, e))
    {
      ReachableStep(s, e);
    }
  }

  lemma Step(R: State -> bool, s: State, e: Event, s': State)
    requires Closed(R) && R(s) && Enabled(s, e) && s' == After(s, e)
    ensures R(s')
  {
  }

  function At(f: Fields, op: Op, obs: Obs, g: Generation): State {
    State(f, op, false, obs, [g])
  }

  const Begun := Fields(Starting, WantRunning, None, None)

  /** A first start, up to the moment after the fork. */
  lemma FirstFork(R: State -> bool)
    requires Closed(R)
    ensures R(At(Begun, StartHandshake(0), NoThread, FreshGeneration))
  {
    var none := Fields(Stopped, WantStopped, None, None);
    var wanted := Fields(Stopped, WantRunning, None, None);
    assert Init(State(none, Idle, false, NoThread, []));
    Step(R, State(none, Idle, false, NoThread, []), CallStart, State(wanted, StartJoin, false, NoThread, []));
    Step(R, State(wanted, StartJoin, false, NoThread, []), JoinForStart,
         State(wanted, StartClaim, false, NoThread, []));
    Step(R, State(wanted, StartClaim, false, NoThread, []), Claim, State(Begun, StartPrepare, false, NoThread, []));
    Step(R, State(Begun, StartPrepare, false, NoThread, []), Fork,
         At(Begun, StartHandshake(0), NoThread, FreshGeneration));
  }

  /** The start gives up on the child just as it execs. */
  lemma AbandonedExec(R: State -> bool)
    requires Closed(R)
    ensures R(At(Begun, StartKill(0), NoThread, FreshGeneration.(progress := Execed)))
  {
    FirstFork(R);
    Step(R, At(Begun, StartHandshake(0), NoThread, FreshGeneration), HandshakeAbandoned,
         At(Begun, StartKill(0), NoThread, FreshGeneration));
    Step(R, At(Begun, StartKill(0), NoThread, FreshGeneration), LeaderExecs(0),
         At(Begun, StartKill(0), NoThread, FreshGeneration.(progress := Execed)));
  }

  /** The child forks a descendant and is killed alone. */
  lemma AbandonedChild(R: State -> bool)
    requires Closed(R)
    ensures R(At(Begun, StartReap(0), NoThread, Generation(Zombie, Execed, 1, 0, Nobody, false, true)))
  {
    AbandonedExec(R);
    var execed := FreshGeneration.(progress := Execed);
    Step(R, At(Begun, StartKill(0), NoThread, execed), MemberForks(0),
         At(Begun, StartKill(0), NoThread, execed.(members := 1)));
    Step(R, At(Begun, StartKill(0), NoThread, execed.(members := 1)), KillChild,
         At(Begun, StartReap(0), NoThread, Generation(Zombie, Execed, 1, 0, Nobody, false, true)));
  }

  /** The exception is real: a start that times out just as the child execs leaves the
      child's descendant in the group, and the next start forks beside it. */
  lemma AbandonedStartOverlaps() returns (s: State)
    ensures Reachable(s) && Enabled(s, Fork) && !GroupsEmpty(s)
  {
    ReachableIsClosed();
    s := AbandonedThenStarted(Reachable);
  }

  lemma AbandonedThenStarted(R: State -> bool) returns (s: State)
    requires Closed(R)
    ensures R(s) && Enabled(s, Fork) && !GroupsEmpty(s)
  {
    AbandonedChild(R);
    var left := Generation(Reaped, Execed, 1, 1, Starter, false, true);
    var failed := Begun.(state := Failed);
    Step(R, At(Begun, StartReap(0), NoThread, Generation(Zombie, Execed, 1, 0, Nobody, false, true)), ReapChild,
         At(Begun, StartFail, NoThread, left));
    Step(R, At(Begun, StartFail, NoThread, left), Fail, At(failed, Idle, NoThread, left));
    Step(R, At(failed, Idle, NoThread, left), CallStart, At(failed, StartJoin, NoThread, left));
    Step(R, At(failed, StartJoin, NoThread, left), JoinForStart, At(failed, StartClaim, NoThread, left));
    s := At(Begun, StartPrepare, NoThread, left);
    Step(R, At(failed, StartClaim, NoThread, left), Claim, s);
    assert s.gens[0].members == 1;
  }

  /** At the fork at step `n` of this run some earlier group still lives. */
  ghost predicate OverlapsAt(ss: seq<State>, es: seq<Event>, n: nat) {
    Run(ss, es) && n < |es| && es[n].Fork? && !GroupsEmpty(ss[n])
  }

  /** No handshake was abandoned before step `n`, unless that may happen. */
  predicate AbandonedOnlyIf(may: bool, es: seq<Event>, n: nat)
    requires n <= |es|
  {
    forall k :: 0 <= k < n && es[k].KillChild? ==> may
  }

  /** Generations never overlap, in any run, if and only if no handshake is ever abandoned. */
  lemma OverlapFreeIff(may: bool)
    ensures (forall ss, es, n: nat :: OverlapsAt(ss, es, n) ==> !AbandonedOnlyIf(may, es, n)) <==> !may
  {
    if may {
      var s := AbandonedStartOverlaps();
      var ss, es :| Run(ss, es) && ss[|es|] == s;
      RunExtends(ss, es, Fork);
      assert OverlapsAt(ss + [After(s, Fork)], es + [Fork], |es|);
      assert AbandonedOnlyIf(may, es + [Fork], |es|);
    } else {
      forall ss, es, n: nat | OverlapsAt(ss, es, n)
        ensures !AbandonedOnlyIf(may, es, n)
      {
        if AbandonedOnlyIf(may, es, n) {
          NoAbandonNoOverlap(ss, es, n);
        }
      }
    }
  }

  // Reaping

  /** Each child is reaped at most once, by its observer thread if one was created for it
      and by the starting thread otherwise. A thread about to call `waitpid` always finds
      its child unreaped, and no other thread may reap the same child, so ECHILD cannot
      be returned; and the observer always finds its own pid still published. */
  lemma ReapedOnce(ss: seq<State>, es: seq<Event>, n: nat)
    requires Run(ss, es) && n < |ss|
    ensures forall g :: 0 <= g < |ss[n].gens| ==>
      var gen := ss[n].gens[g];
      gen.reaps <= 1 && (gen.reaps == 1 ==> gen.reaper == if gen.watched then Observer else Starter)
    ensures forall g :: 0 <= g < |ss[n].gens| && (ss[n].obs == Waiting(g) || ss[n].op == StartReap(g)) ==>
      !ss[n].gens[g].leader.Reaped? && (ChildInHand(ss[n].op) == Some(g) <==> Watched(ss[n].obs) != Some(g))
    ensures ss[n].obs.Publishing? ==> ss[n].f.pid == Some(ss[n].obs.g)
  {
    RunInv(ss, es, n);
    var s := ss[n];
    assert forall g :: 0 <= g < |s.gens| ==> GenerationOk(s.gens[g]);
  }

  // Joining

  /** An upper bound on the observer's own steps once it has reaped its leader. */
  function ObserverLeft(o: Obs): nat {
    match o
    case NoThread => 0
    case Waiting(_) => 7
    case Publishing(_) => 6
    case Cleaning(_) => 5
    case TermWait(_) => 4
    case Killing(_) => 3
    case KillWait(_) => 2
    case Clearing(_) => 1
    case Done(_) => 0
  }

  /** Whenever a start or a stop is about to join the observer thread, that thread has
      already reaped its leader and published the exit; all it has left are a bounded
      number of steps, and the next of them is never blocked. */
  lemma JoinNeverWaitsOnALiveLeader(ss: seq<State>, es: seq<Event>, n: nat) returns (e: Event)
    requires Run(ss, es) && n < |ss|
    requires ss[n].op.StartJoin? || ss[n].op.StopJoin?
    ensures !ss[n].obs.NoThread? ==>
      && ss[n].f.pid.None? && !ss[n].obs.Waiting? && !ss[n].obs.Publishing?
      && ss[n].obs.g < |ss[n].gens| && ss[n].gens[ss[n].obs.g].leader.Reaped?
    ensures !Joinable(ss[n].obs) ==>
      Enabled(ss[n], e) && ObserverEvent(e) && ObserverLeft(After(ss[n], e).obs) < ObserverLeft(ss[n].obs)
  {
    RunInv(ss, es, n);
    var s := ss[n];
    e := CallStart;
    if !Joinable(s.obs) {
      e := ObserverMove(s);
    }
  }

  lemma ObserverMove(s: State) returns (e: Event)
    requires PidOk(s) && !Joinable(s.obs) && !s.obs.Waiting?
    ensures Enabled(s, e) && ObserverEvent(e) && ObserverLeft(After(s, e).obs) < ObserverLeft(s.obs)
  {
    var gone := MustLookGone(s.gens[s.obs.g]);
    match s.obs
    case Publishing(_) => e := ObserverPublishes;
    case Cleaning(_) => e := ObserverProbes(gone);
    case TermWait(_) => e := ObserverProbes(gone);
    case Killing(_) => e := ObserverKills;
    case KillWait(_) => e := ObserverStopsWaiting;
    case Clearing(_) => e := ObserverClears(gone);
  }

  /** No operation is ever stuck: some step of the operation or observer thread is
      enabled, unless the start is waiting for a child that has reported its failure and
      is about to exit. */
  lemma OperationNeverStuck(ss: seq<State>, es: seq<Event>, n: nat) returns (e: Event)
    requires Run(ss, es) && n < |ss| && !ss[n].op.Idle?
    requires forall c: nat :: ss[n].op == StartReap(c) && c < |ss[n].gens| ==> !ss[n].gens[c].leader.Live?
    ensures Enabled(ss[n], e) && !CallerEvent(e) && !ProcessEvent(e)
  {
    RunInv(ss, es, n);
    if TargetOf(ss[n].op).Some? {
      e := StopMove(ss[n]);
    } else {
      e := StartMove(ss[n]);
    }
  }

  lemma StartMove(s: State) returns (e: Event)
    requires PidOk(s) && OpOk(s) && !s.op.Idle? && TargetOf(s.op).None?
    requires forall c: nat :: s.op == StartReap(c) && c < |s.gens| ==> !s.gens[c].leader.Live?
    ensures Enabled(s, e) && !CallerEvent(e) && !ProcessEvent(e)
  {
    if s.op.RestartStop? {
      e := BeginStop;
    } else if s.op.StartJoin? && !Joinable(s.obs) {
      e := ObserverMove(s);
    } else {
      e := NextOfStart(s);
      OwnIsEnabled(s, e);
    }
  }

  lemma OwnIsEnabled(s: State, e: Event)
    requires (StartEvent(e) && StartEnabled(s, e)) || (StopEvent(e) && StopEnabled(s, e))
    ensures Enabled(s, e) && !CallerEvent(e) && !ProcessEvent(e)
  {
  }

  lemma NextOfStart(s: State) returns (e: Event)
    requires OpOk(s) && !s.op.Idle? && !s.op.RestartStop? && TargetOf(s.op).None?
    requires s.op.StartJoin? ==> Joinable(s.obs)
    requires forall c: nat :: s.op == StartReap(c) && c < |s.gens| ==> !s.gens[c].leader.Live?
    ensures StartEvent(e) && StartEnabled(s, e)
  {
    match s.op
    case RestartStart => e := BeginStart;
    case StartJoin => e := JoinForStart;
    case StartClaim => e := Claim;
    case StartPrepare => e := Fork;
    case StartHandshake(_) => e := HandshakeAbandoned;
    case StartKill(_) => e := KillChild;
    case StartReap(_) => e := ReapChild;
    case StartFail => e := Fail;
    case StartPublish(_) => e := Publish;
    case StartSpawn(_) => e := Spawn;
    case StartConfirm(_) => e := Confirm;
  }

  lemma StopMove(s: State) returns (e: Event)
    requires PidOk(s) && OpOk(s) && TargetOf(s.op).Some?
    ensures Enabled(s, e) && !CallerEvent(e) && !ProcessEvent(e)
  {
    if s.op.StopJoin? && !Joinable(s.obs) {
      e := ObserverMove(s);
    } else {
      e := NextOfStop(s);
      OwnIsEnabled(s, e);
    }
  }

  lemma NextOfStop(s: State) returns (e: Event)
    requires OpOk(s) && TargetOf(s.op).Some? && (s.op.StopJoin? ==> Joinable(s.obs))
    ensures StopEvent(e) && StopEnabled(s, e)
  {
    match s.op
    case StopTerm(_) => e := Terminate;
    case StopPoll(_, _) => e := Poll;
    case StopProbe(x, _, _) => e := Probe(MustLookGone(s.gens[x.pgid.value]));
    case StopDecide(_, _, _, _) => e := Decide(true);
    case StopKill(_) => e := Kill;
    case StopGiveUp(_) => e := GiveUp;
    case StopJoin(_) => e := JoinForStop;
  }

  // Stopping

  function TargetOf(op: Op): Option<Target> {
    match op
    case StopTerm(x) => Some(x)
    case StopPoll(x, _) => Some(x)
    case StopProbe(x, _, _) => Some(x)
    case StopDecide(x, _, _, _) => Some(x)
    case StopKill(x) => Some(x)
    case StopGiveUp(x) => Some(x)
    case StopJoin(x) => Some(x)
    case _ => None
  }

  function FinalOf(e: Event): DesiredState {
    if e.CallStop? then WantStopped else WantRunning
  }

  /** The first critical section of the stop that is under way in `ss[n]`. */
  lemma {:induction false} StopEntry(ss: seq<State>, es: seq<Event>, n: nat) returns (m: nat)
    requires Run(ss, es) && n < |ss| && TargetOf(ss[n].op).Some?
    ensures m < n && (es[m].CallStop? || es[m].BeginStop?)
    ensures TargetOf(ss[n].op) == Some(StopTarget(ss[m].f, FinalOf(es[m])))
    ensures forall k :: m < k <= n ==> TargetOf(ss[k].op) == TargetOf(ss[n].op)
  {
    var e := es[n - 1];
    TargetStep(ss[n - 1], e);
    if e.CallStop? || e.BeginStop? {
      m := n - 1;
    } else {
      m := StopEntry(ss, es, n - 1);
    }
  }

  /** A stop keeps its target from its first critical section on. */
  lemma TargetStep(s: State, e: Event)
    requires Enabled(s, e) && TargetOf(After(s, e).op).Some?
    ensures TargetOf(After(s, e).op) ==
            if e.CallStop? || e.BeginStop? then Some(StopTarget(s.f, FinalOf(e))) else TargetOf(s.op)
  {
    if CallerEvent(e) {
      CallerTarget(s, e);
    } else if StartEvent(e) {
      StartTarget(s, e);
    } else if StopEvent(e) {
      StopTargetStep(s, e);
    } else if ObserverEvent(e) {
      assert AfterObserver(s, e).op == s.op;
    }
  }

  lemma CallerTarget(s: State, e: Event)
    requires CallerEvent(e) && s.op.Idle? && TargetOf(AfterCaller(s, e).op).Some?
    ensures e.CallStop? && TargetOf(AfterCaller(s, e).op) == Some(StopTarget(s.f, WantStopped))
  {
  }

  lemma StartTarget(s: State, e: Event)
    requires StartEvent(e) && StartEnabled(s, e)
    ensures TargetOf(AfterStart(s, e).op).None?
  {
  }

  lemma StopTargetStep(s: State, e: Event)
    requires StopEvent(e) && StopEnabled(s, e) && TargetOf(AfterStop(s, e).op).Some?
    ensures TargetOf(AfterStop(s, e).op) ==
            if e.BeginStop? then Some(StopTarget(s.f, WantRunning)) else TargetOf(s.op)
  {
  }

  /** When a stop entered at step `m` succeeds at step `n`: nothing is published any
      more, no observer is left, and the leader that was being stopped is reaped with no
      live member left in its group. A manual stop leaves the state `Stopped` exactly if,
      at entry, the leader was still unobserved or no group was left; if the leader had
      already been observed and only its group remained, the state stays `Stopping`. */
  lemma StopReturningTrue(ss: seq<State>, es: seq<Event>, n: nat) returns (m: nat)
    requires Run(ss, es) && n < |es| && es[n].JoinForStop?
    ensures m < n && (es[m].CallStop? || es[m].BeginStop?)
    ensures var s' := ss[n + 1];
      s'.f.pid.None? && s'.f.pgid.None? && s'.obs.NoThread?
    ensures ss[m].f.pgid.Some? ==>
      var g := ss[m].f.pgid.value; g < |ss[n + 1].gens| && MustLookGone(ss[n + 1].gens[g])
    ensures es[m].CallStop? ==>
      && ss[n + 1].op.Idle? && ss[n + 1].f.desired.WantStopped?
      && (ss[n + 1].f.state == Stopped <==> ss[m].f.pid.Some? || ss[m].f.pgid.None?)
      && (ss[m].f.pid.None? && ss[m].f.pgid.Some? ==> ss[n + 1].f.state == Stopping)
  {
    RunInv(ss, es, n);
    m := StopEntry(ss, es, n);
    RunInv(ss, es, m);
  }

  /** The state `Stopping` that outlives a successful stop is reachable: stop a service
      whose leader has just been observed to exit while a descendant is still alive. */
  lemma StopCanLeaveStopping() returns (s: State)
    ensures Reachable(s) && Enabled(s, JoinForStop) && !s.restarting
    ensures var s' := After(s, JoinForStop); s'.op.Idle? && s'.f.state == Stopping && s'.f.pid.None?
  {
    ReachableIsClosed();
    s := StoppedDuringCleanup(Reachable);
  }

  lemma StoppedDuringCleanup(R: State -> bool) returns (s: State)
    requires Closed(R)
    ensures R(s) && Enabled(s, JoinForStop) && !s.restarting
    ensures var s' := After(s, JoinForStop); s'.op.Idle? && s'.f.state == Stopping && s'.f.pid.None?
  {
    var x := Target(WantStopped, None, Some(0));
    var empty := Generation(Reaped, Execed, 0, 1, Observer, true, false);
    var stopped := Fields(Stopping, WantStopped, None, None);
    CleanupEnds(R);
    WaitEnds(R, stopped, x, empty);
    s := At(stopped, StopJoin(x), Done(0), empty);
  }

  lemma CleanupEnds(R: State -> bool)
    requires Closed(R)
    ensures R(At(Fields(Stopping, WantStopped, None, None), StopPoll(Target(WantStopped, None, Some(0)), false),
                 Done(0), Generation(Reaped, Execed, 0, 1, Observer, true, false)))
  {
    StopBegins(R);
    var x := Target(WantStopped, None, Some(0));
    var empty := Generation(Reaped, Execed, 0, 1, Observer, true, false);
    var stopping := Fields(Stopping, WantStopped, None, Some(0));
    Step(R, At(stopping, StopPoll(x, false), Cleaning(0), empty), ObserverProbes(true),
         At(stopping, StopPoll(x, false), Clearing(0), empty));
    Step(R, At(stopping, StopPoll(x, false), Clearing(0), empty), ObserverClears(true),
         At(stopping.(pgid := None), StopPoll(x, false), Done(0), empty));
  }

  lemma StopBegins(R: State -> bool)
    requires Closed(R)
    ensures R(At(Fields(Stopping, WantStopped, None, Some(0)), StopPoll(Target(WantStopped, None, Some(0)), false),
                 Cleaning(0), Generation(Reaped, Execed, 0, 1, Observer, true, false)))
  {
    LeaderGone(R);
    var alone := Generation(Reaped, Execed, 1, 1, Observer, true, false);
    var x := Target(WantStopped, None, Some(0));
    var stopping := Fields(Stopping, WantStopped, None, Some(0));
    Step(R, At(Fields(Exited, WantRunning, None, Some(0)), Idle, Cleaning(0), alone), CallStop,
         At(stopping, StopTerm(x), Cleaning(0), alone));
    Step(R, At(stopping, StopTerm(x), Cleaning(0), alone), Terminate,
         At(stopping, StopPoll(x, false), Cleaning(0), alone));
    Step(R, At(stopping, StopPoll(x, false), Cleaning(0), alone), MemberExits(0),
         At(stopping, StopPoll(x, false), Cleaning(0), alone.(members := 0)));
  }

  lemma WaitEnds(R: State -> bool, f: Fields, x: Target, g: Generation)
    requires Closed(R)
    requires R(At(f, StopPoll(x, false), Done(0), g))
    requires f.pid.None? && f.pgid.None? && x.pid.None? && x.pgid == Some(0) && MayLookGone(g)
    ensures R(At(f, StopJoin(x), Done(0), g))
  {
    Step(R, At(f, StopPoll(x, false), Done(0), g), Poll, At(f, StopProbe(x, false, true), Done(0), g));
    Step(R, At(f, StopProbe(x, false, true), Done(0), g), Probe(true),
         At(f, StopDecide(x, false, true, true), Done(0), g));
    Step(R, At(f, StopDecide(x, false, true, true), Done(0), g), Decide(false), At(f, StopJoin(x), Done(0), g));
  }

  lemma FirstConfirmed(R: State -> bool)
    requires Closed(R)
    ensures R(At(Begun, StartPublish(0), NoThread, FreshGeneration.(progress := Execed)))
  {
    FirstFork(R);
    var execed := FreshGeneration.(progress := Execed);
    Step(R, At(Begun, StartHandshake(0), NoThread, FreshGeneration), LeaderExecs(0),
         At(Begun, StartHandshake(0), NoThread, execed));
    Step(R, At(Begun, StartHandshake(0), NoThread, execed), HandshakeOk, At(Begun, StartPublish(0), NoThread, execed));
  }

  lemma FirstRun(R: State -> bool)
    requires Closed(R)
    ensures R(At(Fields(Running, WantRunning, Some(0), Some(0)), Idle, Waiting(0),
                 Generation(Live, Execed, 0, 0, Nobody, true, false)))
  {
    FirstConfirmed(R);
    var execed := FreshGeneration.(progress := Execed);
    var watched := execed.(watched := true);
    var published := Begun.(pid := Some(0), pgid := Some(0));
    Step(R, At(Begun, StartPublish(0), NoThread, execed), Publish, At(published, StartSpawn(0), NoThread, execed));
    Step(R, At(published, StartSpawn(0), NoThread, execed), Spawn, At(published, StartConfirm(0), Waiting(0), watched));
    Step(R, At(published, StartConfirm(0), Waiting(0), watched), Confirm,
         At(published.(state := Running), Idle, Waiting(0), watched));
  }

  lemma LeaderDied(R: State -> bool)
    requires Closed(R)
    ensures R(At(Fields(Running, WantRunning, Some(0), Some(0)), Idle, Waiting(0),
                 Generation(Zombie, Execed, 1, 0, Nobody, true, false)))
  {
    FirstRun(R);
    var running := Fields(Running, WantRunning, Some(0), Some(0));
    var g := Generation(Live, Execed, 0, 0, Nobody, true, false);
    Step(R, At(running, Idle, Waiting(0), g), MemberForks(0), At(running, Idle, Waiting(0), g.(members := 1)));
    Step(R, At(running, Idle, Waiting(0), g.(members := 1)), LeaderDies(0),
         At(running, Idle, Waiting(0), g.(members := 1, leader := Zombie)));
  }

  lemma LeaderGone(R: State -> bool)
    requires Closed(R)
    ensures R(At(Fields(Exited, WantRunning, None, Some(0)), Idle, Cleaning(0),
                 Generation(Reaped, Execed, 1, 1, Observer, true, false)))
  {
    LeaderDied(R);
    var running := Fields(Running, WantRunning, Some(0), Some(0));
    var died := Generation(Zombie, Execed, 1, 0, Nobody, true, false);
    var reaped := Generation(Reaped, Execed, 1, 1, Observer, true, false);
    Step(R, At(running, Idle, Waiting(0), died), ObserverReaps, At(running, Idle, Publishing(0), reaped));
    Step(R, At(running, Idle, Publishing(0), reaped), ObserverPublishes,
         At(Fields(Exited, WantRunning, None, Some(0)), Idle, Cleaning(0), reaped));
  }

  /** After SIGKILL the wait cannot miss: once the observer has published the exit, the
      next probe must find the group gone and the stop succeeds whatever the clock says. */
  lemma ForcedStopSucceeds(ss: seq<State>, es: seq<Event>, n: nat, gone: bool, expired: bool)
    requires Run(ss, es) && n < |ss|
    requires ss[n].op.StopProbe? && ss[n].op.forced && ss[n].op.observed && Enabled(ss[n], Probe(gone))
    ensures gone && After(After(ss[n], Probe(gone)), Decide(expired)).op.StopJoin?
  {
    RunInv(ss, es, n);
    var s := ss[n];
    var g := s.op.x.pgid.value;
    assert GenerationOk(s.gens[g]);
    assert !s.gens[g].leader.Reaped? ==> MayReap(s, g);
  }

  /** The group id is given up last: only after the pid was cleared, the leader reaped
      and every member of the group gone. */
  lemma GroupReleasedLast(ss: seq<State>, es: seq<Event>, n: nat)
    requires Run(ss, es) && n < |es|
    requires ss[n].f.pgid.Some? && ss[n + 1].f.pgid != ss[n].f.pgid
    ensures ss[n].f.pid.None? && ss[n + 1].f.pgid.None?
    ensures var g := ss[n].f.pgid.value; g < |ss[n].gens| && MustLookGone(ss[n].gens[g])
  {
    RunInv(ss, es, n);
    if es[n].Decide? || es[n].ObserverClears? {
      ReleasedGroupIsGone(ss[n], es[n]);
    } else {
      KeepsGroup(ss[n], es[n]);
    }
  }

  lemma KeepsGroup(s: State, e: Event)
    requires OpOk(s) && Enabled(s, e) && s.f.pgid.Some? && !e.Decide? && !e.ObserverClears?
    ensures After(s, e).f.pgid == s.f.pgid
  {
    if StartEvent(e) {
      StartKeepsGroup(s, e);
    } else if StopEvent(e) {
      StopKeepsGroup(s, e);
    } else if ObserverEvent(e) {
      assert AfterObserver(s, e).f.pgid == s.f.pgid;
    }
  }

  lemma StartKeepsGroup(s: State, e: Event)
    requires OpOk(s) && StartEvent(e) && StartEnabled(s, e) && s.f.pgid.Some?
    ensures AfterStart(s, e).f.pgid == s.f.pgid
  {
  }

  lemma StopKeepsGroup(s: State, e: Event)
    requires StopEvent(e) && StopEnabled(s, e) && !e.Decide?
    ensures AfterStop(s, e).f.pgid == s.f.pgid
  {
  }

  lemma ReleasedGroupIsGone(s: State, e: Event)
    requires Inv(s) && Enabled(s, e) && s.f.pgid.Some? && After(s, e).f.pgid != s.f.pgid
    requires e.Decide? || e.ObserverClears?
    ensures s.f.pid.None? && After(s, e).f.pgid.None? && MustLookGone(s.gens[s.f.pgid.value])
  {
    assert GenerationOk(s.gens[s.f.pgid.value]);
  }

  /** From the first critical section of a restart until it returns, everybody reading
      the status sees the desired state Running. */
  lemma {:induction false} RestartKeepsDesired(ss: seq<State>, es: seq<Event>, m: nat, n: nat)
    requires Run(ss, es) && m < n < |ss| && es[m].CallRestart?
    requires forall k :: m < k < n ==> !ss[k].op.Idle?
    ensures ss[n].f.desired.WantRunning?
    ensures !ss[n].op.Idle? ==> ss[n].restarting
  {
    RunInv(ss, es, n);
    if n > m + 1 {
      RestartKeepsDesired(ss, es, m, n - 1);
      RunInv(ss, es, n - 1);
    }
  }
}

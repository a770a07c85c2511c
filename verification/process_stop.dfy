/**
 How a stop escalates, and what the observer leaves behind, over all interleavings: no stop
 gives up before SIGKILL was sent or a signal was refused, and no group outlives its
 observer.
 */
module ProcessStop {
  import opened Common
  import opened ProcessModel
  import opened ProcessSafety
  import opened ProcessTheorems

  // Escalation

  /** A round of a wait that ends at the deadline without success. */
  predicate Expires(s: State, e: Event, forced: bool) {
    s.op.StopDecide? && s.op.forced == forced && !(s.op.observed && s.op.gone) && e == Decide(true)
  }

  /** When a stop sent SIGTERM, when its first wait expired, when it sent SIGKILL, and which
      step made it give up. */
  datatype Trace = Trace(term: nat, grace: nat, kill: nat, last: nat)

  /** The stop entered at step `m` has sent SIGTERM before step `n`. */
  predicate TermSent(es: seq<Event>, m: nat, n: nat, t: Trace) {
    m < t.term < n <= |es| && es[t.term].Terminate?
  }

  predicate GraceOver(ss: seq<State>, es: seq<Event>, m: nat, n: nat, t: Trace)
    requires |ss| == |es| + 1
  {
    TermSent(es, m, t.grace, t) && t.grace < n <= |es| && Expires(ss[t.grace], es[t.grace], false)
  }

  predicate KillSent(ss: seq<State>, es: seq<Event>, m: nat, n: nat, t: Trace)
    requires |ss| == |es| + 1
  {
    GraceOver(ss, es, m, t.kill, t) && t.kill < n <= |es| && es[t.kill].Kill?
  }

  /** SIGTERM, a wait to its deadline, SIGKILL and another wait to its deadline; or the
      system refused a signal. */
  predicate Exhausted(ss: seq<State>, es: seq<Event>, m: nat, n: nat, t: Trace)
    requires |ss| == |es| + 1
  {
    m < t.last < n <= |es| &&
    (es[t.last].SignalRefused? || (KillSent(ss, es, m, t.last, t) && Expires(ss[t.last], es[t.last], true)))
  }

  /** What the stop has done, by where it stands. */
  predicate Traced(ss: seq<State>, es: seq<Event>, m: nat, n: nat, t: Trace)
    requires |ss| == |es| + 1 && n <= |es|
  {
    match ss[n].op
    case StopPoll(_, forced) => if forced then KillSent(ss, es, m, n, t) else TermSent(es, m, n, t)
    case StopProbe(_, forced, _) => if forced then KillSent(ss, es, m, n, t) else TermSent(es, m, n, t)
    case StopDecide(_, forced, _, _) => if forced then KillSent(ss, es, m, n, t) else TermSent(es, m, n, t)
    case StopKill(_) => GraceOver(ss, es, m, n, t)
    case StopGiveUp(_) => Exhausted(ss, es, m, n, t)
    case _ => true
  }

  function Noted(t: Trace, s: State, e: Event, n: nat): Trace {
    match e
    case Terminate => t.(term := n)
    case Kill => t.(kill := n)
    case SignalRefused => t.(last := n)
    case Decide(_) => if s.op.StopDecide? && s.op.forced then t.(last := n) else t.(grace := n)
    case _ => t
  }

  /** How the position of a stop changes. */
  lemma StopMoves(s: State, e: Event)
    requires Enabled(s, e) && TargetOf(s.op).Some? && TargetOf(After(s, e).op).Some?
    ensures After(s, e).op == s.op || (StopEvent(e) && StopEnabled(s, e) && After(s, e) == AfterStop(s, e))
  {
    if ObserverEvent(e) {
      assert AfterObserver(s, e).op == s.op;
    }
  }

  lemma TraceStep(ss: seq<State>, es: seq<Event>, m: nat, n: nat, t: Trace)
    requires |ss| == |es| + 1 && m < n < |es| && Traced(ss, es, m, n, t)
    requires StopEvent(es[n]) && StopEnabled(ss[n], es[n]) && ss[n + 1] == AfterStop(ss[n], es[n])
    requires TargetOf(ss[n].op).Some? && TargetOf(ss[n + 1].op).Some?
    ensures Traced(ss, es, m, n + 1, Noted(t, ss[n], es[n], n))
  {
    if es[n].Decide? {
      assert ss[n + 1].op.StopKill? ==> Expires(ss[n], es[n], false);
      assert ss[n + 1].op.StopGiveUp? ==> Expires(ss[n], es[n], true);
    }
  }

  lemma {:induction false} TraceOf(ss: seq<State>, es: seq<Event>, m: nat, n: nat) returns (t: Trace)
    requires Run(ss, es) && m < n < |ss| && (es[m].CallStop? || es[m].BeginStop?)
    requires forall k :: m < k <= n ==> TargetOf(ss[k].op).Some?
    ensures Traced(ss, es, m, n, t)
  {
    if n == m + 1 {
      t := Trace(0, 0, 0, 0);
      assert ss[n].op.StopTerm? || ss[n].op.StopJoin?;
    } else {
      t := TraceOf(ss, es, m, n - 1);
      var s, e := ss[n - 1], es[n - 1];
      assert TargetOf(ss[n].op).Some? && TargetOf(s.op).Some?;
      StopMoves(s, e);
      if ss[n].op != s.op {
        TraceStep(ss, es, m, n - 1, t);
        t := Noted(t, s, e, n - 1);
      }
    }
  }

  /** No stop fails before it has gone all the way: since it was entered at step `m` it has
      sent SIGTERM, waited to the deadline without success, sent SIGKILL and waited to the
      second deadline without success, in this order; unless a signal was refused. */
  lemma GivesUpLast(ss: seq<State>, es: seq<Event>, n: nat) returns (m: nat, t: Trace)
    requires Run(ss, es) && n < |es| && es[n].GiveUp?
    ensures m < n && (es[m].CallStop? || es[m].BeginStop?) && Exhausted(ss, es, m, n, t)
    ensures forall k :: m < k <= n ==> TargetOf(ss[k].op) == Some(StopTarget(ss[m].f, FinalOf(es[m])))
  {
    m := StopEntry(ss, es, n);
    t := TraceOf(ss, es, m, n);
  }

  /** SIGKILL is never sent before SIGTERM and a wait to its deadline without success. */
  lemma KillComesLate(ss: seq<State>, es: seq<Event>, n: nat) returns (m: nat, t: Trace)
    requires Run(ss, es) && n < |es| && es[n].Kill?
    ensures m < n && (es[m].CallStop? || es[m].BeginStop?) && GraceOver(ss, es, m, n, t)
  {
    m := StopEntry(ss, es, n);
    t := TraceOf(ss, es, m, n);
  }

  /** And it is sent: when the first wait has expired without success, the operation goes
      nowhere before SIGKILL is sent or refused. */
  lemma {:induction false} ExpiryIsForced(ss: seq<State>, es: seq<Event>, d: nat, n: nat)
    requires Run(ss, es) && d < n < |ss| && Expires(ss[d], es[d], false)
    requires forall k :: d < k < n ==> !es[k].Kill? && !es[k].SignalRefused?
    ensures ss[n].op == StopKill(ss[d].op.x)
  {
    if n > d + 1 {
      ExpiryIsForced(ss, es, d, n - 1);
      OnlySignalsLeave(ss[n - 1], es[n - 1]);
    }
  }

  lemma OnlySignalsLeave(s: State, e: Event)
    requires Enabled(s, e) && s.op.StopKill? && !e.Kill? && !e.SignalRefused?
    ensures After(s, e).op == s.op
  {
    if ObserverEvent(e) {
      assert AfterObserver(s, e).op == s.op;
    }
  }

  /** SIGTERM comes first: a stop that has something to stop goes nowhere before it is sent
      or refused. */
  lemma {:induction false} TermComesFirst(ss: seq<State>, es: seq<Event>, m: nat, n: nat)
    requires Run(ss, es) && m < n < |ss| && (es[m].CallStop? || es[m].BeginStop?)
    requires ss[m].f.pid.Some? || ss[m].f.pgid.Some?
    requires forall k :: m < k < n ==> !es[k].Terminate? && !es[k].SignalRefused?
    ensures ss[n].op == StopTerm(StopTarget(ss[m].f, FinalOf(es[m])))
  {
    if n > m + 1 {
      TermComesFirst(ss, es, m, n - 1);
      OnlyTermLeaves(ss[n - 1], es[n - 1]);
    }
  }

  lemma OnlyTermLeaves(s: State, e: Event)
    requires Enabled(s, e) && s.op.StopTerm? && !e.Terminate? && !e.SignalRefused?
    ensures After(s, e).op == s.op
  {
    if ObserverEvent(e) {
      assert AfterObserver(s, e).op == s.op;
    }
  }

  // Rounds

  /** One whole round of a wait, its moves undisturbed: it ends in success exactly if the
      leader's exit had been published and the group looked gone, whatever the clock says. */
  lemma RoundSucceedsIff(ss: seq<State>, es: seq<Event>, n: nat, gone: bool, expired: bool)
    requires Run(ss, es) && n < |ss| && ss[n].op.StopPoll?
    requires Probes(ss[n].gens, ss[n].op.x.pgid, gone)
    ensures var s1 := AfterStop(ss[n], Poll);
            var s2 := AfterStop(s1, Probe(gone));
      AfterStop(s2, Decide(expired)).op == StopJoin(ss[n].op.x) <==> ss[n].f.pid.None? && gone
  {
    RunInv(ss, es, n);
  }

  /** After SIGKILL that is certain: as soon as the observer has published the exit, the next
      round succeeds. */
  lemma ForcedRoundSucceeds(ss: seq<State>, es: seq<Event>, n: nat, gone: bool, expired: bool)
    requires Run(ss, es) && n < |ss| && ss[n].op.StopPoll? && ss[n].op.forced && ss[n].f.pid.None?
    requires Probes(ss[n].gens, ss[n].op.x.pgid, gone)
    ensures gone
    ensures var s1 := AfterStop(ss[n], Poll);
            var s2 := AfterStop(s1, Probe(gone));
      AfterStop(s2, Decide(expired)).op == StopJoin(ss[n].op.x)
  {
    RunInv(ss, es, n);
    var s := ss[n];
    var g := s.op.x.pgid.value;
    assert GenerationOk(s.gens[g]);
    assert !s.gens[g].leader.Reaped? ==> MayReap(s, g);
  }

  // A forced stop

  const Up := Fields(Running, WantRunning, Some(0), Some(0))

  const Ending := Fields(Stopping, WantStopped, Some(0), Some(0))

  const Victim := Target(WantStopped, Some(0), Some(0))

  const LiveChild := Generation(Live, Execed, 0, 0, Nobody, true, false)

  const KilledChild := LiveChild.(leader := Zombie)

  const GoneChild := Generation(Reaped, Execed, 0, 1, Observer, true, false)

  /** The child ignores SIGTERM until the deadline. */
  lemma GraceIsIgnored(R: State -> bool)
    requires Closed(R)
    ensures R(At(Ending, StopDecide(Victim, false, false, false), Waiting(0), LiveChild))
  {
    FirstRun(R);
    Step(R, At(Up, Idle, Waiting(0), LiveChild), CallStop, At(Ending, StopTerm(Victim), Waiting(0), LiveChild));
    Step(R, At(Ending, StopTerm(Victim), Waiting(0), LiveChild), Terminate,
         At(Ending, StopPoll(Victim, false), Waiting(0), LiveChild));
    Step(R, At(Ending, StopPoll(Victim, false), Waiting(0), LiveChild), Poll,
         At(Ending, StopProbe(Victim, false, false), Waiting(0), LiveChild));
    Step(R, At(Ending, StopProbe(Victim, false, false), Waiting(0), LiveChild), Probe(false),
         At(Ending, StopDecide(Victim, false, false, false), Waiting(0), LiveChild));
  }

  lemma ChildIsKilled(R: State -> bool)
    requires Closed(R)
    ensures R(At(Ending, StopPoll(Victim, true), Waiting(0), KilledChild))
  {
    GraceIsIgnored(R);
    Step(R, At(Ending, StopDecide(Victim, false, false, false), Waiting(0), LiveChild), Decide(true),
         At(Ending, StopKill(Victim), Waiting(0), LiveChild));
    Step(R, At(Ending, StopKill(Victim), Waiting(0), LiveChild), Kill,
         At(Ending, StopPoll(Victim, true), Waiting(0), KilledChild));
  }

  lemma KilledIsObserved(R: State -> bool)
    requires Closed(R)
    ensures R(At(Fields(Stopped, WantStopped, None, Some(0)), StopProbe(Victim, true, true), Cleaning(0), GoneChild))
  {
    ChildIsKilled(R);
    var f := Fields(Stopped, WantStopped, None, Some(0));
    Step(R, At(Ending, StopPoll(Victim, true), Waiting(0), KilledChild), ObserverReaps,
         At(Ending, StopPoll(Victim, true), Publishing(0), GoneChild));
    Step(R, At(Ending, StopPoll(Victim, true), Publishing(0), GoneChild), ObserverPublishes,
         At(f, StopPoll(Victim, true), Cleaning(0), GoneChild));
    Step(R, At(f, StopPoll(Victim, true), Cleaning(0), GoneChild), Poll,
         At(f, StopProbe(Victim, true, true), Cleaning(0), GoneChild));
  }

  lemma KilledIsJoined(R: State -> bool)
    requires Closed(R)
    ensures R(At(Fields(Stopped, WantStopped, None, None), StopJoin(Victim), Cleaning(0), GoneChild))
  {
    KilledIsObserved(R);
    var f := Fields(Stopped, WantStopped, None, Some(0));
    Step(R, At(f, StopProbe(Victim, true, true), Cleaning(0), GoneChild), Probe(true),
         At(f, StopDecide(Victim, true, true, true), Cleaning(0), GoneChild));
    Step(R, At(f, StopDecide(Victim, true, true, true), Cleaning(0), GoneChild), Decide(true),
         At(f.(pgid := None), StopJoin(Victim), Cleaning(0), GoneChild));
  }

  lemma ForcedThroughout(R: State -> bool)
    requires Closed(R)
    ensures R(At(Fields(Stopped, WantStopped, None, None), Idle, NoThread, GoneChild))
  {
    KilledIsJoined(R);
    var f := Fields(Stopped, WantStopped, None, None);
    Step(R, At(f, StopJoin(Victim), Cleaning(0), GoneChild), ObserverProbes(true),
         At(f, StopJoin(Victim), Clearing(0), GoneChild));
    Step(R, At(f, StopJoin(Victim), Clearing(0), GoneChild), ObserverClears(true),
         At(f, StopJoin(Victim), Done(0), GoneChild));
    Step(R, At(f, StopJoin(Victim), Done(0), GoneChild), JoinForStop, At(f, Idle, NoThread, GoneChild));
  }

  lemma ForcedStop(R: State -> bool) returns (probing: State, end: State)
    requires Closed(R)
    ensures R(probing) && probing.op.StopProbe? && probing.op.forced && probing.op.observed
    ensures Enabled(probing, Probe(true))
    ensures R(end) && end.op.Idle? && end.f == Fields(Stopped, WantStopped, None, None)
    ensures |end.gens| == 1 && MustLookGone(end.gens[0])
  {
    KilledIsObserved(R);
    ForcedThroughout(R);
    probing := At(Fields(Stopped, WantStopped, None, Some(0)), StopProbe(Victim, true, true), Cleaning(0), GoneChild);
    end := At(Fields(Stopped, WantStopped, None, None), Idle, NoThread, GoneChild);
  }

  /** A stop is forced, and succeeds: a child that ignores SIGTERM is killed, its exit is
      observed, and the stop returns with the service stopped and nothing left. */
  lemma ForcedStopHappens() returns (probing: State, end: State)
    ensures Reachable(probing) && probing.op.StopProbe? && probing.op.forced && probing.op.observed
    ensures Enabled(probing, Probe(true))
    ensures Reachable(end) && end.op.Idle? && end.f == Fields(Stopped, WantStopped, None, None)
    ensures |end.gens| == 1 && MustLookGone(end.gens[0])
  {
    ReachableIsClosed();
    probing, end := ForcedStop(Reachable);
  }

  // What the observer leaves behind

  /** From the end of its clean-up on, the observer's group is empty and its leader reaped;
      a group id that is still published belongs to a run whose observer is not done. */
  predicate Tidy(s: State) {
    && (s.obs.KillWait? || s.obs.Clearing? || s.obs.Done? ==>
          s.obs.g < |s.gens| && MustLookGone(s.gens[s.obs.g]))
    && (s.f.pgid.Some? ==>
          if s.obs.NoThread? then s.op == StartSpawn(s.f.pgid.value)
          else s.obs.g == s.f.pgid.value && !s.obs.Done?)
  }

  lemma CallerTidy(s: State, e: Event)
    requires Inv(s) && Tidy(s) && CallerEvent(e) && s.op.Idle?
    ensures Tidy(AfterCaller(s, e))
  {
  }

  lemma StartTidy(s: State, e: Event)
    requires Inv(s) && Tidy(s) && StartEvent(e) && StartEnabled(s, e)
    ensures Tidy(AfterStart(s, e))
  {
  }

  lemma StopTidy(s: State, e: Event)
    requires Inv(s) && Tidy(s) && StopEvent(e) && StopEnabled(s, e)
    ensures Tidy(AfterStop(s, e))
  {
  }

  lemma ObserverTidy(s: State, e: Event)
    requires Inv(s) && Tidy(s) && ObserverEvent(e) && ObserverEnabled(s, e)
    ensures Tidy(AfterObserver(s, e))
  {
  }

  lemma ProcessTidy(s: State, e: Event)
    requires Inv(s) && Tidy(s) && ProcessEvent(e) && ProcessEnabled(s, e)
    ensures Tidy(AfterProcess(s, e))
  {
  }

  lemma StepTidy(s: State, e: Event)
    requires Inv(s) && Tidy(s) && Enabled(s, e)
    ensures Tidy(After(s, e))
  {
    if CallerEvent(e) {
      CallerTidy(s, e);
    } else if StartEvent(e) {
      StartTidy(s, e);
    } else if StopEvent(e) {
      StopTidy(s, e);
    } else if ObserverEvent(e) {
      ObserverTidy(s, e);
    } else {
      ProcessTidy(s, e);
    }
  }

  /** When the observer of a run has ended, by itself or joined: its leader is reaped, its
      group is empty and its group id is not published any more. */
  lemma {:induction false} ObserverLeavesNothing(ss: seq<State>, es: seq<Event>, n: nat)
    requires Run(ss, es) && n < |ss|
    ensures Tidy(ss[n])
    ensures ss[n].obs.Done? ==> MustLookGone(ss[n].gens[ss[n].obs.g]) && ss[n].f.pid.None? && ss[n].f.pgid.None?
  {
    RunInv(ss, es, n);
    if n > 0 {
      ObserverLeavesNothing(ss, es, n - 1);
      RunInv(ss, es, n - 1);
      StepTidy(ss[n - 1], es[n - 1]);
    }
  }

  /** So a start that has joined the old observer is never refused for a group that is still
      there. */
  lemma ClaimIsNeverRefused(ss: seq<State>, es: seq<Event>, n: nat)
    requires Run(ss, es) && n < |ss| && ss[n].op.StartClaim?
    ensures Enabled(ss[n], Claim) && After(ss[n], Claim).op.StartPrepare? && After(ss[n], Claim).f.state == Starting
  {
    ObserverLeavesNothing(ss, es, n);
    RunInv(ss, es, n);
  }

  // How a start ends

  /** The state `Starting` lasts until the exit of the child, if any, is published. */
  predicate StartingOk(s: State) {
    && (s.op.StartPrepare? || s.op.StartHandshake? || s.op.StartPublish? || s.op.StartSpawn? ==> s.f.state == Starting)
    && (s.op.StartConfirm? ==>
          if s.f.pid.Some? then s.f.pid == Some(s.op.c) && s.f.state == Starting else s.f.state == Exited)
  }

  lemma StartStarting(s: State, e: Event)
    requires Inv(s) && StartingOk(s) && StartEvent(e) && StartEnabled(s, e)
    ensures StartingOk(AfterStart(s, e))
  {
  }

  lemma ObserverStarting(s: State, e: Event)
    requires Inv(s) && StartingOk(s) && ObserverEvent(e) && ObserverEnabled(s, e)
    ensures StartingOk(AfterObserver(s, e))
  {
  }

  /** Callers and stops never stand in the middle of a start. */
  lemma OthersStarting(s: State, e: Event)
    requires StartingOk(s) && Enabled(s, e) && !StartEvent(e) && !ObserverEvent(e)
    ensures StartingOk(After(s, e))
  {
    if CallerEvent(e) {
      assert StartingOk(AfterCaller(s, e));
    } else if StopEvent(e) {
      assert StartingOk(AfterStop(s, e));
    }
  }

  lemma StepStarting(s: State, e: Event)
    requires Inv(s) && StartingOk(s) && Enabled(s, e)
    ensures StartingOk(After(s, e))
  {
    if StartEvent(e) {
      StartStarting(s, e);
    } else if ObserverEvent(e) {
      ObserverStarting(s, e);
    } else {
      OthersStarting(s, e);
    }
  }

  lemma {:induction false} AlwaysStarting(ss: seq<State>, es: seq<Event>, n: nat)
    requires Run(ss, es) && n < |ss|
    ensures StartingOk(ss[n])
  {
    if n > 0 {
      AlwaysStarting(ss, es, n - 1);
      RunInv(ss, es, n - 1);
      StepStarting(ss[n - 1], es[n - 1]);
    }
  }

  /** A start that got its child through the handshake leaves `Running` exactly if the child's
      exit has not been published by then, and `Exited` otherwise. */
  lemma StartEndsIn(ss: seq<State>, es: seq<Event>, n: nat)
    requires Run(ss, es) && n < |es| && es[n].Confirm?
    ensures var f := ss[n + 1].f;
      ss[n + 1].op.Idle? && f.state == if f.pid == Some(ss[n].op.c) then Running else Exited
    ensures ss[n + 1].f.pid == ss[n].f.pid
  {
    AlwaysStarting(ss, es, n);
  }

  predicate AllReaped(s: State) {
    forall g :: 0 <= g < |s.gens| ==> s.gens[g].leader.Reaped?
  }

  /** A start that fails leaves `Failed`, no child of its own, and nothing published. */
  lemma FailedStartEndsIn(ss: seq<State>, es: seq<Event>, n: nat)
    requires Run(ss, es) && n < |es| && es[n].Fail?
    ensures ss[n + 1].op.Idle? && ss[n + 1].f == Fields(Failed, WantRunning, None, None) && ss[n + 1].obs.NoThread?
    ensures AllReaped(ss[n + 1])
  {
    RunInv(ss, es, n);
    forall g | 0 <= g < |ss[n].gens|
      ensures ss[n].gens[g].leader.Reaped?
    {
      assert !MayReap(ss[n], g);
    }
  }

  /** A stop that gives up leaves `Failed`, unless the leader it was to stop has meanwhile been
      observed: then the state is `Stopped`. The pid, if any, stays published. */
  lemma FailedStopEndsIn(ss: seq<State>, es: seq<Event>, n: nat) returns (m: nat)
    requires Run(ss, es) && n < |es| && es[n].GiveUp?
    ensures m < n && (es[m].CallStop? || es[m].BeginStop?)
    ensures ss[n + 1].op.Idle? && ss[n + 1].f.pid == ss[n].f.pid && ss[n + 1].f.desired == FinalOf(es[m])
    ensures ss[n + 1].f.state == if ss[m].f.pid.Some? && ss[n].f.pid.None? then Stopped else Failed
  {
    RunInv(ss, es, n);
    m := StopEntry(ss, es, n);
  }

  /** A restart whose stop has succeeded goes on to start the service. */
  lemma RestartGoesOn(ss: seq<State>, es: seq<Event>, n: nat) returns (m: nat)
    requires Run(ss, es) && n < |es| && es[n].JoinForStop?
    ensures m < n && (es[m].CallStop? || es[m].BeginStop?)
    ensures es[m].CallStop? ==> ss[n + 1].op.Idle?
    ensures es[m].BeginStop? ==>
      ss[n + 1].op.RestartStart? && After(ss[n + 1], BeginStart).op.StartJoin?
  {
    RunInv(ss, es, n);
    m := StopEntry(ss, es, n);
    RunInv(ss, es, n + 1);
  }

  /** The leader alone is killed only in a start that has given up on its handshake. */
  lemma {:induction false} KillIsOfAbandoned(ss: seq<State>, es: seq<Event>, n: nat) returns (k: nat)
    requires Run(ss, es) && n < |ss| && ss[n].op.StartKill?
    ensures k < n && es[k].HandshakeAbandoned? && forall j :: k < j <= n ==> ss[j].op == ss[n].op
  {
    if es[n - 1].HandshakeAbandoned? {
      k := n - 1;
    } else {
      OnlyAbandoned(ss[n - 1], es[n - 1]);
      k := KillIsOfAbandoned(ss, es, n - 1);
    }
  }

  lemma OnlyAbandoned(s: State, e: Event)
    requires Enabled(s, e) && After(s, e).op.StartKill? && !e.HandshakeAbandoned?
    ensures s.op == After(s, e).op
  {
    if StartEvent(e) {
      assert false;
    } else if StopEvent(e) {
      assert false;
    } else if ObserverEvent(e) {
      assert AfterObserver(s, e).op == s.op;
    }
  }
}

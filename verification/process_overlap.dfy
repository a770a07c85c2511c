/**
 When exactly an abandoned start can outlive its start. At the moment the starting thread
 gives up on its child, the state of that child decides whether some continuation forks
 beside a survivor.
 */
module ProcessOverlap {
  import opened Common
  import opened ProcessModel
  import opened ProcessSafety
  import opened ProcessTheorems

  /** The events lead from one state to the other. */
  ghost predicate Leads(s: State, es: seq<Event>, s': State)
    decreases |es|
  {
    if es == [] then s == s' else Enabled(s, es[0]) && Leads(After(s, es[0]), es[1..], s')
  }

  /** Nothing lives in the group, and nothing can come to live in it: its leader is dead, or
      has reported that it could not be started. */
  predicate Barren(g: Generation) {
    g.members == 0 && (!g.leader.Live? || g.progress.Reported?)
  }

  lemma StaysBarren(s: State, e: Event, c: nat)
    requires Enabled(s, e) && c < |s.gens| && Barren(s.gens[c])
    ensures c < |After(s, e).gens| && Barren(After(s, e).gens[c])
  {
    if StartEvent(e) {
      StartLeavesBarren(s, e, c);
    } else if CallerEvent(e) {
      assert After(s, e).gens == s.gens;
    } else if StopEvent(e) {
      assert e.Kill? || AfterStop(s, e).gens == s.gens;
    } else if ObserverEvent(e) {
      assert e.ObserverReaps? || e.ObserverKills? || AfterObserver(s, e).gens == s.gens;
    }
  }

  lemma StartLeavesBarren(s: State, e: Event, c: nat)
    requires StartEvent(e) && StartEnabled(s, e) && c < |s.gens| && Barren(s.gens[c])
    ensures c < |AfterStart(s, e).gens| && Barren(AfterStart(s, e).gens[c])
  {
    match e
    case Fork =>
    case KillChild =>
    case ReapChild =>
    case Spawn =>
    case BeginStart => assert AfterStart(s, e).gens == s.gens;
    case JoinForStart =>
    case Claim =>
    case PrepareFails =>
    case HandshakeOk =>
    case HandshakeReported =>
    case HandshakeAbandoned =>
    case Fail =>
    case Publish =>
    case Confirm =>
  }

  lemma {:induction false} BarrenForGood(s: State, es: seq<Event>, s': State, c: nat)
    requires Leads(s, es, s') && c < |s.gens| && Barren(s.gens[c])
    ensures c < |s'.gens| && s'.gens[c].members == 0
    decreases |es|
  {
    if es != [] {
      StaysBarren(s, es[0], c);
      BarrenForGood(After(s, es[0]), es[1..], s', c);
    }
  }

  // A survivor

  /** The generation with a member in its group. */
  function WithMember(g: Generation): Generation { g.(members := g.members + 1) }

  /** Some events of the processes give the group of the child a member, unless it is barren. */
  lemma Populate(s: State, c: nat) returns (es: seq<Event>, s': State)
    requires c < |s.gens| && !Barren(s.gens[c])
    ensures Leads(s, es, s') && s' == s.(gens := s'.gens) && |s'.gens| == |s.gens|
    ensures s'.gens[c].members > 0 && s'.gens[c].leader == s.gens[c].leader
  {
    var g := s.gens[c];
    if g.members > 0 {
      es, s' := [], s;
    } else if g.progress.Execed? {
      es, s' := [MemberForks(c)], s.(gens := s.gens[c := WithMember(g)]);
      OneStep(s, MemberForks(c), s');
    } else {
      es, s' := ExecAndFork(s, c);
    }
  }

  lemma OneStep(s: State, e: Event, s': State)
    requires Enabled(s, e) && After(s, e) == s'
    ensures Leads(s, [e], s')
  {
    assert [e][1..] == [];
  }

  lemma ExecAndFork(s: State, c: nat) returns (es: seq<Event>, s': State)
    requires c < |s.gens| && s.gens[c].leader.Live? && s.gens[c].progress.BeforeExec?
    ensures Leads(s, es, s') && s' == s.(gens := s'.gens) && |s'.gens| == |s.gens|
    ensures s'.gens[c].members > 0 && s'.gens[c].leader == s.gens[c].leader
  {
    var execed := s.gens[c].(progress := Execed);
    var t := s.(gens := s.gens[c := execed]);
    es, s' := [LeaderExecs(c), MemberForks(c)], s.(gens := s.gens[c := WithMember(execed)]);
    assert t.gens[c := WithMember(execed)] == s'.gens;
    OneStep(t, MemberForks(c), s');
    assert es[1..] == [MemberForks(c)];
  }

  /** What the starting thread does from here on, and what the next caller may do. */
  const GivingUp := [KillChild, ReapChild, Fail]

  const Starting := [CallStart, JoinForStart, Claim]

  lemma GiveUpChild(s: State, c: nat) returns (s': State)
    requires Inv(s) && s.op == StartKill(c) && c < |s.gens| && s.gens[c].members > 0
    ensures Leads(s, GivingUp, s') && s'.op.Idle? && Unclaimed(s')
    ensures c < |s'.gens| && s'.gens[c].members > 0
  {
    var g := s.gens[c];
    var killed := Killed(g).(killedLate := g.progress.Execed?);
    var s1 := s.(gens := s.gens[c := killed], op := StartReap(c));
    var reaped := killed.(leader := Reaped, reaps := killed.reaps + 1, reaper := Starter);
    var s2 := s1.(gens := s1.gens[c := reaped], op := StartFail);
    s' := AfterStart(s2, Fail);
    assert AfterStart(s, KillChild) == s1 && AfterStart(s1, ReapChild) == s2;
    assert GivingUp[1..] == [ReapChild, Fail];
    assert GivingUp[1..][1..] == [Fail];
    assert GivingUp[1..][1..][1..] == [];
  }

  lemma StartAgain(s: State, c: nat) returns (s': State)
    requires s.op.Idle? && Unclaimed(s) && c < |s.gens| && s.gens[c].members > 0
    ensures Leads(s, Starting, s') && Enabled(s', Fork) && c < |s'.gens| && s'.gens[c].members > 0
  {
    var s1 := AfterCaller(s, CallStart);
    var s2 := AfterStart(s1, JoinForStart);
    s' := AfterStart(s2, Claim);
    assert Starting[1..] == [JoinForStart, Claim];
    assert Starting[1..][1..] == [Claim];
    assert Starting[1..][1..][1..] == [];
  }

  lemma {:induction false} LeadsOn(s: State, es: seq<Event>, t: State, fs: seq<Event>, u: State)
    requires Leads(s, es, t) && Leads(t, fs, u)
    ensures Leads(s, es + fs, u)
    decreases |es|
  {
    if es == [] {
      assert es + fs == fs;
    } else {
      LeadsOn(After(s, es[0]), es[1..], t, fs, u);
      assert (es + fs)[1..] == es[1..] + fs;
    }
  }

  /** In this continuation a later start forks beside a member of generation `c`. */
  ghost predicate ForksBeside(s: State, es: seq<Event>, s': State, c: nat) {
    Leads(s, es, s') && Enabled(s', Fork) && c < |s'.gens| && s'.gens[c].members > 0
  }

  /** In every reachable state in which the starting thread is about to kill the child it
      has given up on: a continuation that forks beside a survivor of that child exists if
      and only if the child's group has a member, or the child is alive and has not
      reported a failure. */
  lemma CanOutliveIff(ss: seq<State>, es: seq<Event>, c: nat)
    requires Run(ss, es) && ss[|es|].op == StartKill(c)
    ensures c < |ss[|es|].gens|
    ensures (exists fs, s' :: ForksBeside(ss[|es|], fs, s', c)) <==> !Barren(ss[|es|].gens[c])
  {
    var s := ss[|es|];
    RunInv(ss, es, |es|);
    if Barren(s.gens[c]) {
      forall fs, s' | ForksBeside(s, fs, s', c)
        ensures false
      {
        BarrenForGood(s, fs, s', c);
      }
    } else {
      var fs, t := Populate(s, c);
      PopulatedInv(s, fs, t);
      var u := GiveUpChild(t, c);
      var s' := StartAgain(u, c);
      LeadsOn(t, GivingUp, u, Starting, s');
      LeadsOn(s, fs, t, GivingUp + Starting, s');
      assert ForksBeside(s, fs + (GivingUp + Starting), s', c);
    }
  }

  lemma {:induction false} PopulatedInv(s: State, es: seq<Event>, s': State)
    requires Inv(s) && Leads(s, es, s')
    ensures Inv(s')
    decreases |es|
  {
    if es != [] {
      StepInv(s, es[0]);
      PopulatedInv(After(s, es[0]), es[1..], s');
    }
  }
}

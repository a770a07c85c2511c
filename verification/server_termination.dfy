/**
 A bound on everything that can still happen once the stop is requested. Every step of
 the accept strand, of a session, of the network, of a pool worker or of the stopping
 threads uses up part of it; a keep-alive client is paid for by the number of requests
 its connection may still make.
 */
module ServerTermination {
  import opened SessionModel
  import opened ServerModel
  import opened ServerSafety
  import opened ServerTheorems

  // One session

  function JobWeight(j: Job): nat {
    match j
    case BeginRead => 5
    case Respond => 7
    case ReadDone(_) => 3
    case WriteDone(_) => 5
    case Drain => 1
    case ForceClose => 1
  }

  function JobsWeight(js: seq<Job>): nat {
    if js == [] then 0 else JobWeight(js[0]) + JobsWeight(js[1..])
  }

  function SessionWeight(x: Session, maxRequests: nat): nat {
    JobsWeight(x.jobs)
    + (if x.reading then 4 else 0) + (if x.writing then 6 else 0) + (if x.task then 8 else 0)
    + (if x.count < maxRequests then 8 * (maxRequests - x.count) else 0)
    + (if x.announced then 0 else 8)
    + (if x.callback then 12 else 0)
    + (if x.started then 0 else 6)
  }

  lemma {:induction false} JobsWeightAppend(js: seq<Job>, j: Job)
    ensures JobsWeight(js + [j]) == JobsWeight(js) + JobWeight(j)
  {
    if js == [] {
      assert js + [j] == [j];
    } else {
      assert (js + [j])[1..] == js[1..] + [j];
      JobsWeightAppend(js[1..], j);
    }
  }

  lemma CompletionUses(x: Session, e: SessionEvent, stopping: bool, maxRequests: nat)
    requires CanHappen(x, e, stopping) && Completion(e)
    ensures SessionWeight(Happened(x, e, stopping, maxRequests), maxRequests) < SessionWeight(x, maxRequests)
  {
    match e
    case ReadCompletes(r) => JobsWeightAppend(x.jobs, ReadDone(r));
    case WriteCompletes(ok) => JobsWeightAppend(x.jobs, WriteDone(ok));
    case TaskCompletes => JobsWeightAppend(x.jobs, Respond);
  }

  /** Running a handler uses up weight; firing the close handler leaves 11 for the removal. */
  lemma HandlerUses(x: Session, accepted: bool, stopping: bool, maxRequests: nat)
    requires SessionOk(x, stopping, maxRequests) && CanHappen(x, RunNext(accepted), stopping)
    ensures var y := Happened(x, RunNext(accepted), stopping, maxRequests);
      SessionWeight(y, maxRequests) + (if y.closings > x.closings then 11 else 0) < SessionWeight(x, maxRequests)
  {
    Popped(x, stopping, maxRequests);
    var p := x.(jobs := x.jobs[1..]);
    assert SessionWeight(p, maxRequests) + JobWeight(x.jobs[0]) == SessionWeight(x, maxRequests);
    assert x.jobs[0].ReadDone? ==> IsReadJob(x.jobs[0]);
    JobUses(p, x.jobs[0], accepted, maxRequests);
  }

  lemma JobUses(p: Session, j: Job, accepted: bool, maxRequests: nat)
    requires !j.Drain? && !j.ForceClose? ==> !Outstanding(p)
    requires j.ReadDone? ==> p.count < maxRequests && !p.announced
    ensures var y := RunJob(p, j, accepted, maxRequests);
      SessionWeight(y, maxRequests) + (if y.closings > p.closings then 11 else 0)
      < SessionWeight(p, maxRequests) + JobWeight(j)
  {
    match j
    case BeginRead => ReadRequestUses(p, maxRequests);
    case Drain => DrainUses(p, maxRequests);
    case ForceClose => CloseUses(p, maxRequests);
    case Respond => WriteUses(p, false, maxRequests);
    case ReadDone(r) => HandleReadUses(p, r, accepted, maxRequests);
    case WriteDone(ok) =>
      CloseUses(p, maxRequests);
      ReadRequestUses(p, maxRequests);
      assert HandleWrite(p, ok) == Close(p) || HandleWrite(p, ok) == ReadRequest(p);
  }

  lemma ReadRequestUses(p: Session, maxRequests: nat)
    requires !p.reading
    ensures var y := ReadRequest(p);
      SessionWeight(y, maxRequests) + (if y.closings > p.closings then 11 else 0) <= SessionWeight(p, maxRequests) + 4
  {
    CloseUses(p, maxRequests);
  }

  lemma DrainUses(p: Session, maxRequests: nat)
    ensures var y := HandleDrain(p);
      SessionWeight(y, maxRequests) + (if y.closings > p.closings then 11 else 0) <= SessionWeight(p, maxRequests)
  {
    CloseUses(LastAnswer(p), maxRequests);
  }

  lemma CloseUses(p: Session, maxRequests: nat)
    ensures var y := Close(p);
      SessionWeight(y, maxRequests) + (if y.closings > p.closings then 11 else 0) <= SessionWeight(p, maxRequests)
  {
  }

  lemma WriteUses(p: Session, force: bool, maxRequests: nat)
    requires !p.writing
    ensures var y := WriteResponse(p, force, maxRequests);
      && y.closings == p.closings
      && SessionWeight(y, maxRequests)
         <= SessionWeight(p, maxRequests) + 6 - (if y.announced && !p.announced then 8 else 0)
  {
  }

  lemma HandleReadUses(p: Session, r: ReadResult, accepted: bool, maxRequests: nat)
    requires p.count < maxRequests && !p.announced && !Outstanding(p)
    ensures var y := HandleRead(p, r, accepted, maxRequests);
      SessionWeight(y, maxRequests) + (if y.closings > p.closings then 11 else 0) < SessionWeight(p, maxRequests) + 3
  {
    if r.ReadFailed? {
      CloseUses(p, maxRequests);
    } else if r.ReadRejected? {
      WriteUses(p.(keepAlive := false), true, maxRequests);
    } else {
      ReceivedUses(p, r.keepAlive, accepted, maxRequests);
      assert r == ReadOk(r.keepAlive);
    }
  }

  lemma ReceivedUses(p: Session, keepAlive: bool, accepted: bool, maxRequests: nat)
    requires p.count < maxRequests && !p.announced && !Outstanding(p)
    ensures var y := HandleRead(p, ReadOk(keepAlive), accepted, maxRequests);
      SessionWeight(y, maxRequests) + (if y.closings > p.closings then 11 else 0) < SessionWeight(p, maxRequests) + 3
  {
    WriteUses(Received(p, keepAlive), false, maxRequests);
  }

  // The whole server

  function RemovalWeight(r: Removal): nat {
    match r
    case NoRemoval => 0
    case Erase => 11
    case SawEmpty => 10
    case SawStop => 9
    case Post => 8
  }

  function ConnWeight(k: Conn, maxRequests: nat): nat {
    SessionWeight(k.session, maxRequests) + RemovalWeight(k.removal)
  }

  function ConnsWeight(ks: seq<Conn>, maxRequests: nat): nat {
    if ks == [] then 0 else ConnWeight(ks[0], maxRequests) + ConnsWeight(ks[1..], maxRequests)
  }

  lemma {:induction false} ConnsWeightUpdate(ks: seq<Conn>, c: nat, k: Conn, maxRequests: nat)
    requires c < |ks|
    ensures ConnsWeight(ks[c := k], maxRequests) + ConnWeight(ks[c], maxRequests) ==
            ConnsWeight(ks, maxRequests) + ConnWeight(k, maxRequests)
  {
    if c == 0 {
      assert ks[c := k][1..] == ks[1..];
    } else {
      assert ks[c := k][1..] == ks[1..][c - 1 := k];
      ConnsWeightUpdate(ks[1..], c - 1, k, maxRequests);
    }
  }

  /** What the armed timer may still cause: one round of forced closing over `n` connections. */
  function TimerWeight(n: nat): nat { 2 * n + 14 }

  function AcceptJobWeight(j: AcceptJob, n: nat): nat {
    match j
    case Accepted => 3
    case AcceptFailed => 3
    case StopOnIo => 3 * n + TimerWeight(n) + 7
    case TryComplete => 4
    case Deadline(_) => TimerWeight(n) - 1
  }

  function QueueWeight(q: seq<AcceptJob>, n: nat): nat {
    if q == [] then 0 else AcceptJobWeight(q[0], n) + QueueWeight(q[1..], n)
  }

  lemma {:induction false} QueueWeightAppend(q: seq<AcceptJob>, j: AcceptJob, n: nat)
    ensures QueueWeight(q + [j], n) == QueueWeight(q, n) + AcceptJobWeight(j, n)
  {
    if q == [] {
      assert q + [j] == [j];
    } else {
      assert (q + [j])[1..] == q[1..] + [j];
      QueueWeightAppend(q[1..], j, n);
    }
  }

  function PosWeight(p: AcceptPos, n: nat): nat {
    match p
    case AtRest => 0
    case Registering(_) => 8
    case Starting(_) => 8
    case Rejecting(_) => 6
    case NextAccept => 2
    case Snapshot => 3 * n + TimerWeight(n) + 6
    case Draining(todo, _) => 3 * |todo| + TimerWeight(n) + 5
    case Flagged(_, todo, _) => 3 * |todo| + TimerWeight(n) + 7
    case TryFlags => 3
    case TrySessions => 2
    case ForceSnapshot => 2 * n + 12
    case Forcing(todo) => 2 * |todo| + 11
  }

  function ThreadsWeight(requester: Requester, waiter: Waiter, n: nat): nat {
    (match requester
     case NotAsked => 0
     case StopSet => 3 * n + TimerWeight(n) + 9
     case ExecutorTold => 3 * n + TimerWeight(n) + 8
     case StopPosted => 0)
    + (match waiter
       case NotWaiting => 10
       case JoiningExecutor => 9
       case ExecutorJoined => 8
       case DrainedStored => 7
       case JoiningIo => 1
       case IoDone => 0)
  }

  function Measure(s: Server): nat {
    var n := |s.conns|;
    ConnsWeight(s.conns, s.maxRequests) + QueueWeight(s.queue, n) + PosWeight(s.pos, n)
    + (if s.timer then TimerWeight(n) else 0) + (if s.accepting then 4 else 0) + ThreadsWeight(s.requester, s.waiter, n)
  }

  lemma {:induction false} IndexSetBound(t: set<nat>, n: nat)
    requires forall c :: c in t ==> c < n
    ensures |t| <= n
  {
    if n == 0 {
      assert t == {};
    } else {
      IndexSetBound(t - {n - 1}, n - 1);
      assert t <= (t - {n - 1}) + {n - 1};
      assert n - 1 in t ==> |t| == |t - {n - 1}| + 1;
      assert n - 1 !in t ==> t == t - {n - 1};
    }
  }

  lemma ConnSwap(s: Server, c: nat, k: Conn)
    requires c < |s.conns|
    ensures Measure(s.(conns := s.conns[c := k])) + ConnWeight(s.conns[c], s.maxRequests) ==
            Measure(s) + ConnWeight(k, s.maxRequests)
  {
    ConnsWeightUpdate(s.conns, c, k, s.maxRequests);
  }

  lemma QueuePush(s: Server, j: AcceptJob)
    ensures Measure(s.(queue := s.queue + [j])) == Measure(s) + AcceptJobWeight(j, |s.conns|)
  {
    QueueWeightAppend(s.queue, j, |s.conns|);
  }

  lemma PosMoves(s: Server, p: AcceptPos)
    ensures Measure(s.(pos := p)) + PosWeight(s.pos, |s.conns|) == Measure(s) + PosWeight(p, |s.conns|)
  {
  }

  // The accept strand

  lemma CompletedUses(s: Server, e: Event)
    requires AcceptEvent(e) && AcceptEnabled(s, e) && (e.AcceptCompletes? || e.TimerFires?)
    ensures Measure(AfterAccept(s, e)) < Measure(s)
  {
    if e.AcceptCompletes? {
      QueuePush(s.(accepting := false), if e.ok then Accepted else AcceptFailed);
    } else {
      QueuePush(s.(timer := false), Deadline(e.aborted));
    }
  }

  lemma MovedUses(s: Server, e: Event)
    requires s.stopRequested && AcceptEvent(e) && AcceptEnabled(s, e) && (e.Register? || e.ContinueAccept?)
    ensures Measure(AfterAccept(s, e)) < Measure(s)
  {
    var p := if e.Register? then Rejecting(s.pos.c) else AtRest;
    assert AfterAccept(s, e) == s.(pos := p);
    PosMoves(s, p);
  }

  lemma TakeJobUses(s: Server)
    requires s.stopRequested && s.pos.AtRest? && s.queue != []
    ensures Measure(JobTaken(s.(queue := s.queue[1..]), s.queue[0])) < Measure(s)
  {
    var n := |s.conns|;
    assert QueueWeight(s.queue, n) == AcceptJobWeight(s.queue[0], n) + QueueWeight(s.queue[1..], n);
    var p := s.(queue := s.queue[1..]);
    assert Measure(p) + AcceptJobWeight(s.queue[0], n) == Measure(s);
    QueuedUses(p, s.queue[0]);
  }

  lemma QueuedUses(p: Server, j: AcceptJob)
    requires p.stopRequested && p.pos.AtRest?
    ensures Measure(JobTaken(p, j)) < Measure(p) + AcceptJobWeight(j, |p.conns|)
  {
    match j
    case Accepted => PosMoves(p, NextAccept);
    case AcceptFailed => PosMoves(p, NextAccept);
    case StopOnIo => PosMoves(p.(acceptorOpen := false), Snapshot);
    case TryComplete => PosMoves(p, TryFlags);
    case Deadline(_) => PosMoves(p, ForceSnapshot);
  }

  lemma PostUses(s: Server, c: nat, j: Job)
    requires c < |s.conns| && (j.Drain? || j.ForceClose?)
    ensures Measure(WithSession(s, c, s.conns[c].session.(jobs := s.conns[c].session.jobs + [j]))) == Measure(s) + 1
  {
    var x := s.conns[c].session;
    var y := x.(jobs := x.jobs + [j]);
    PostWeighs(x, j, s.maxRequests);
    ConnSwap(s, c, s.conns[c].(session := y));
  }

  lemma PostWeighs(x: Session, j: Job, maxRequests: nat)
    ensures SessionWeight(x.(jobs := x.jobs + [j]), maxRequests) == SessionWeight(x, maxRequests) + JobWeight(j)
  {
    JobsWeightAppend(x.jobs, j);
  }

  lemma BeginUses(s: Server, c: nat)
    requires c < |s.conns| && !s.conns[c].session.started
    ensures var x := s.conns[c].session;
      Measure(WithSession(s, c, x.(started := true, jobs := x.jobs + [BeginRead]))) < Measure(s)
  {
    var x := s.conns[c].session;
    JobsWeightAppend(x.jobs, BeginRead);
    ConnSwap(s, c, s.conns[c].(session := x.(started := true, jobs := x.jobs + [BeginRead])));
  }

  lemma FlagUses(s: Server, c: nat)
    requires c < |s.conns|
    ensures Measure(WithSession(s, c, s.conns[c].session.(drain := true))) == Measure(s)
  {
    var x := s.conns[c].session;
    assert SessionWeight(x.(drain := true), s.maxRequests) == SessionWeight(x, s.maxRequests);
    ConnSwap(s, c, s.conns[c].(session := x.(drain := true)));
  }

  lemma StartUses(s: Server)
    requires AcceptEnabled(s, StartSession)
    ensures Measure(Touched(s, s.pos.c, Begin).(pos := NextAccept)) < Measure(s)
  {
    BeginUses(s, s.pos.c);
    PosMoves(Touched(s, s.pos.c, Begin), NextAccept);
  }

  lemma RejectUses(s: Server)
    requires AcceptEnabled(s, Reject)
    ensures Measure(Touched(s, s.pos.c, PostForce).(pos := NextAccept)) < Measure(s)
  {
    PostUses(s, s.pos.c, ForceClose);
    PosMoves(Touched(s, s.pos.c, PostForce), NextAccept);
  }

  lemma SnapshotUses(s: Server)
    requires forall c :: c in s.sessions ==> c < |s.conns|
    ensures s.pos.Snapshot? ==> Measure(s.(pos := Draining(s.sessions, s.sessions != {}))) < Measure(s)
    ensures s.pos.ForceSnapshot? ==> Measure(s.(pos := Forcing(s.sessions))) < Measure(s)
  {
    IndexSetBound(s.sessions, |s.conns|);
    PosMoves(s, Draining(s.sessions, s.sessions != {}));
    PosMoves(s, Forcing(s.sessions));
  }

  lemma EndDrainingUses(s: Server, armed: bool)
    requires s.pos.Draining?
    ensures Measure(s.(timer := armed, pos := TryFlags)) < Measure(s)
  {
    PosMoves(s, TryFlags);
  }

  lemma CheckSessionsUses(s: Server)
    requires s.pos.TrySessions?
    ensures Measure(AfterStop(s, CheckSessions)) < Measure(s)
  {
    PosMoves(s, AtRest);
    assert s.sessions == {} ==> Measure(AfterStop(s, CheckSessions)) == Measure(s.(pos := AtRest));
  }

  lemma ReadFlagsUses(s: Server, p: AcceptPos)
    requires s.pos.TryFlags? && (p.AtRest? || p.TrySessions?)
    ensures Measure(s.(pos := p)) < Measure(s)
  {
    PosMoves(s, p);
  }

  lemma EndForcingUses(s: Server)
    requires s.pos.Forcing?
    ensures Measure(s.(pos := TryFlags)) < Measure(s)
  {
    PosMoves(s, TryFlags);
  }

  lemma SetDrainFlagUses(s: Server, c: nat)
    requires StopEnabled(s, SetDrainFlag(c))
    ensures Measure(Touched(s, c, Flag).(pos := Flagged(c, s.pos.todo - {c}, s.pos.some))) < Measure(s)
  {
    FlagUses(s, c);
    PosMoves(Touched(s, c, Flag), Flagged(c, s.pos.todo - {c}, s.pos.some));
  }

  lemma PostDrainJobUses(s: Server)
    requires StopEnabled(s, PostDrainJob)
    ensures Measure(Touched(s, s.pos.c, PostDrain).(pos := Draining(s.pos.todo, s.pos.some))) < Measure(s)
  {
    PostUses(s, s.pos.c, Drain);
    PosMoves(Touched(s, s.pos.c, PostDrain), Draining(s.pos.todo, s.pos.some));
  }

  lemma ForceOneUses(s: Server, c: nat)
    requires StopEnabled(s, ForceOne(c))
    ensures Measure(Touched(s, c, PostForce).(pos := Forcing(s.pos.todo - {c}))) < Measure(s)
  {
    PostUses(s, c, ForceClose);
    PosMoves(Touched(s, c, PostForce), Forcing(s.pos.todo - {c}));
  }

  // Session strands

  lemma SessionCompletesUses(s: Server, c: nat, e: SessionEvent)
    requires CanTouch(s, c, e) && Completion(e)
    ensures Measure(Touched(s, c, e)) < Measure(s)
  {
    var x := s.conns[c].session;
    var y := Happened(x, e, s.executorStopped, s.maxRequests);
    CompletionUses(x, e, s.executorStopped, s.maxRequests);
    ConnSwap(s, c, s.conns[c].(session := y));
  }

  /** `y` is what a handler made of the session of connection `c`. */
  lemma RanUses(s: Server, c: nat, y: Session, r: Removal)
    requires c < |s.conns| && s.conns[c].removal.NoRemoval?
    requires SessionWeight(y, s.maxRequests) + RemovalWeight(r) < SessionWeight(s.conns[c].session, s.maxRequests)
    ensures Measure(s.(conns := s.conns[c := Conn(y, r)])) < Measure(s)
  {
    ConnSwap(s, c, Conn(y, r));
  }

  lemma SessionRunsUses(s: Server, c: nat, accepted: bool)
    requires SessionsOk(s) && SessionEnabled(s, SessionRuns(c, accepted))
    ensures Measure(AfterSession(s, SessionRuns(c, accepted))) < Measure(s)
  {
    var x := s.conns[c].session;
    var y := Happened(x, RunNext(accepted), s.executorStopped, s.maxRequests);
    HandlerUses(x, accepted, s.executorStopped, s.maxRequests);
    var r := if y.closings > x.closings then Erase else NoRemoval;
    RanUses(s, c, y, r);
    AfterRunning(s, c, accepted);
  }

  lemma RemovalMoves(s: Server, c: nat, r: Removal)
    requires c < |s.conns|
    ensures Measure(AtRemoval(s, c, r)) + RemovalWeight(s.conns[c].removal) == Measure(s) + RemovalWeight(r)
  {
    ConnSwap(s, c, s.conns[c].(removal := r));
  }

  lemma RemovalUses(s: Server, e: Event)
    requires SessionStrandEvent(e) && SessionEnabled(s, e)
    requires e.EraseSession? || e.ReadStop? || e.ReadDrained? || e.PostTry?
    ensures Measure(AfterSession(s, e)) < Measure(s)
  {
    match e
    case EraseSession(c) =>
      var s' := s.(sessions := s.sessions - {c});
      assert Measure(s') == Measure(s);
      RemovalMoves(s', c, if s'.sessions == {} then SawEmpty else NoRemoval);
    case ReadStop(c) => RemovalMoves(s, c, if s.stopRequested then SawStop else NoRemoval);
    case ReadDrained(c) => RemovalMoves(s, c, if s.drained then Post else NoRemoval);
    case PostTry(c) =>
      QueuePush(s, TryComplete);
      RemovalMoves(s.(queue := s.queue + [TryComplete]), c, NoRemoval);
  }

  lemma PostStopUses(s: Server)
    requires ThreadEnabled(s, PostStop)
    ensures Measure(AfterThread(s, PostStop)) < Measure(s)
  {
    QueuePush(s.(requester := StopPosted), StopOnIo);
  }

  lemma PostFinalTryUses(s: Server)
    requires ThreadEnabled(s, PostFinalTry)
    ensures Measure(AfterThread(s, PostFinalTry)) < Measure(s)
  {
    QueuePush(s.(waiter := JoiningIo), TryComplete);
  }

  lemma ThreadMoves(s: Server, e: Event)
    requires ThreadEnabled(s, e) && !e.SetStop? && !e.PostStop? && !e.PostFinalTry?
    ensures Measure(AfterThread(s, e)) < Measure(s)
  {
    assert AfterThread(s, e).conns == s.conns && AfterThread(s, e).queue == s.queue;
  }

  lemma ThreadUses(s: Server, e: Event)
    requires s.stopRequested == !s.requester.NotAsked? && s.stopRequested && ThreadEnabled(s, e)
    ensures Measure(AfterThread(s, e)) < Measure(s)
  {
    if e.PostStop? {
      PostStopUses(s);
    } else if e.PostFinalTry? {
      PostFinalTryUses(s);
    } else {
      ThreadMoves(s, e);
    }
  }

  lemma AcceptStepUses(s: Server, e: Event)
    requires s.stopRequested && AcceptEvent(e) && AcceptEnabled(s, e)
    ensures Measure(AfterAccept(s, e)) < Measure(s)
  {
    if e.TakeJob? { TakeJobUses(s); }
    else if e.StartSession? { StartUses(s); }
    else if e.Reject? { RejectUses(s); }
    else if e.Register? || e.ContinueAccept? { MovedUses(s, e); }
    else { CompletedUses(s, e); }
  }

  lemma StopStepUses(s: Server, e: Event)
    requires RegisteredOk(s) && StopEvent(e) && StopEnabled(s, e)
    ensures Measure(AfterStop(s, e)) < Measure(s)
  {
    if e.SetDrainFlag? { SetDrainFlagUses(s, e.c); }
    else if e.PostDrainJob? { PostDrainJobUses(s); }
    else if e.ForceOne? { ForceOneUses(s, e.c); }
    else if e.EndDraining? { EndDrainingUses(s, s.timer || s.pos.some); }
    else if e.ReadFlags? { ReadFlagsUses(s, AfterStop(s, e).pos); }
    else if e.CheckSessions? { CheckSessionsUses(s); }
    else if e.EndForcing? { EndForcingUses(s); }
    else { SnapshotUses(s); }
  }

  lemma SessionStepUses(s: Server, e: Event)
    requires SessionsOk(s) && SessionStrandEvent(e) && SessionEnabled(s, e)
    ensures Measure(AfterSession(s, e)) < Measure(s)
  {
    if e.SessionCompletes? { SessionCompletesUses(s, e.c, e.e); }
    else if e.SessionRuns? { SessionRunsUses(s, e.c, e.accepted); }
    else { RemovalUses(s, e); }
  }

  lemma StepUses(s: Server, e: Event)
    requires Inv(s) && s.stopRequested && Enabled(s, e)
    ensures Measure(After(s, e)) < Measure(s)
  {
    if AcceptEvent(e) { AcceptStepUses(s, e); }
    else if StopEvent(e) { StopStepUses(s, e); }
    else if SessionStrandEvent(e) { SessionStepUses(s, e); }
    else { ThreadUses(s, e); }
  }

  lemma StopIsKept(s: Server, e: Event)
    requires s.stopRequested && Enabled(s, e)
    ensures After(s, e).stopRequested
  {
    if AcceptEvent(e) { AcceptKeepsStop(s, e); }
    else if StopEvent(e) { StopKeepsStop(s, e); }
    else if SessionStrandEvent(e) { SessionKeepsStop(s, e); }
  }

  lemma AcceptKeepsStop(s: Server, e: Event)
    requires s.stopRequested && AcceptEvent(e) && AcceptEnabled(s, e)
    ensures AfterAccept(s, e).stopRequested
  {
    match e
    case TakeJob => JobKeepsStop(s.(queue := s.queue[1..]), s.queue[0]);
    case StartSession =>
    case Reject =>
    case AcceptCompletes(_) =>
    case TimerFires(_) =>
    case Register =>
    case ContinueAccept =>
  }

  lemma JobKeepsStop(s: Server, j: AcceptJob)
    ensures JobTaken(s, j).stopRequested == s.stopRequested
  {
    match j
    case Accepted =>
    case AcceptFailed =>
    case StopOnIo =>
    case TryComplete =>
    case Deadline(_) =>
  }

  lemma StopKeepsStop(s: Server, e: Event)
    requires s.stopRequested && StopEvent(e) && StopEnabled(s, e)
    ensures AfterStop(s, e).stopRequested
  {
    match e
    case TakeSnapshot =>
    case SetDrainFlag(_) =>
    case PostDrainJob =>
    case EndDraining =>
    case ReadFlags =>
    case CheckSessions =>
    case TakeForceSnapshot =>
    case ForceOne(_) =>
    case EndForcing =>
  }

  lemma SessionKeepsStop(s: Server, e: Event)
    requires s.stopRequested && SessionStrandEvent(e) && SessionEnabled(s, e)
    ensures AfterSession(s, e).stopRequested
  {
    match e
    case SessionCompletes(_, _) =>
    case SessionRuns(_, _) =>
    case EraseSession(_) =>
    case ReadStop(_) =>
    case ReadDrained(_) =>
    case PostTry(_) =>
  }

  lemma StepOfRun(ss: seq<Server>, es: seq<Event>, n: nat)
    requires Run(ss, es) && 0 < n < |ss| && ss[n - 1].stopRequested
    ensures ss[n].stopRequested && Measure(ss[n]) < Measure(ss[n - 1])
  {
    RunInv(ss, es, n - 1);
    StepUses(ss[n - 1], es[n - 1]);
    StopIsKept(ss[n - 1], es[n - 1]);
  }

  ghost predicate Descends(ss: seq<Server>) {
    forall i :: 0 < i < |ss| && ss[i - 1].stopRequested ==>
      ss[i].stopRequested && Measure(ss[i]) < Measure(ss[i - 1])
  }

  lemma {:induction false} DescentIsBounded(ss: seq<Server>, m: nat, n: nat)
    requires Descends(ss) && m <= n < |ss| && ss[m].stopRequested
    ensures ss[n].stopRequested && (n - m) + Measure(ss[n]) <= Measure(ss[m])
  {
    if m < n {
      DescentIsBounded(ss, m, n - 1);
    }
  }

  /** From any reachable state in which the stop is requested, no run of any kind is longer
      than `Measure`. */
  lemma StoppingIsBounded(ss: seq<Server>, es: seq<Event>, m: nat, n: nat)
    requires Run(ss, es) && m <= n < |ss| && ss[m].stopRequested
    ensures ss[n].stopRequested && (n - m) + Measure(ss[n]) <= Measure(ss[m])
  {
    forall i | 0 < i < |ss| && ss[i - 1].stopRequested
      ensures ss[i].stopRequested && Measure(ss[i]) < Measure(ss[i - 1])
    {
      StepOfRun(ss, es, i);
    }
    DescentIsBounded(ss, m, n);
  }

  /** And where it ends, the wait is over: after the stop request some step is enabled until
      the waiting thread has joined the I/O threads, provided somebody waits and the requests
      in the pool return. */
  lemma StoppingEndsInDone(ss: seq<Server>, es: seq<Event>, n: nat) returns (e: Event)
    requires Run(ss, es) && n < |ss| && ss[n].stopRequested && !ss[n].waiter.IoDone?
    ensures Enabled(ss[n], e)
  {
    RunInv(ss, es, n);
    var s := ss[n];
    match s.requester
    case StopSet => e := TellExecutor;
    case ExecutorTold => e := PostStop;
    case StopPosted => e := WaiterMove(ss, es, n);
  }

  lemma WaiterMove(ss: seq<Server>, es: seq<Event>, n: nat) returns (e: Event)
    requires Run(ss, es) && n < |ss| && ss[n].requester.StopPosted? && !ss[n].waiter.IoDone?
    ensures Enabled(ss[n], e)
  {
    RunInv(ss, es, n);
    var s := ss[n];
    match s.waiter
    case NotWaiting => e := BeginWait;
    case ExecutorJoined => e := StoreDrained;
    case DrainedStored => e := PostFinalTry;
    case JoiningExecutor => e := PoolMove(s);
    case JoiningIo =>
      if IoQuiet(s) {
        WaitNeverSticks(ss, es, n);
        e := JoinIo;
      } else {
        e := IoMove(s);
      }
  }

  lemma PoolMove(s: Server) returns (e: Event)
    requires s.waiter.JoiningExecutor? && s.executorStopped
    ensures Enabled(s, e) && (e.SessionCompletes? ==> e.e.TaskCompletes?) && !e.AcceptCompletes?
  {
    if PoolIdle(s) {
      e := JoinExecutor;
    } else {
      var c: nat :| c < |s.conns| && s.conns[c].session.task;
      e := SessionCompletes(c, TaskCompletes);
    }
  }

  /** A busy I/O context can always do its next piece of work. */
  lemma IoMove(s: Server) returns (e: Event)
    requires PosOk(s) && !IoQuiet(s)
    ensures Enabled(s, e)
  {
    if !s.pos.AtRest? {
      e := AcceptMove(s);
    } else if s.queue != [] {
      e := TakeJob;
    } else if s.accepting {
      e := AcceptCompletes(false);
    } else if s.timer {
      e := TimerFires(false);
    } else {
      var c: nat :| c < |s.conns| && !(var k := s.conns[c];
        k.removal.NoRemoval? && k.session.jobs == [] && !k.session.reading && !k.session.writing);
      e := SessionMove(s, c);
    }
  }

  lemma SessionMove(s: Server, c: nat) returns (e: Event)
    requires c < |s.conns|
    requires var k := s.conns[c];
      !k.removal.NoRemoval? || k.session.jobs != [] || k.session.reading || k.session.writing
    ensures SessionStrandEvent(e) && SessionEnabled(s, e)
    ensures e.SessionCompletes? ==> e.c == c && s.conns[c].session.jobs == []
  {
    var k := s.conns[c];
    match k.removal
    case Erase => e := EraseSession(c);
    case SawEmpty => e := ReadStop(c);
    case SawStop => e := ReadDrained(c);
    case Post => e := PostTry(c);
    case NoRemoval =>
      if k.session.jobs != [] { e := SessionRuns(c, false); }
      else if k.session.reading { e := SessionCompletes(c, ReadCompletes(ReadFailed)); }
      else { e := SessionCompletes(c, WriteCompletes(false)); }
  }

  lemma AcceptMove(s: Server) returns (e: Event)
    requires PosOk(s) && !s.pos.AtRest?
    ensures Enabled(s, e) && (AcceptEvent(e) || StopEvent(e)) && !e.AcceptCompletes?
  {
    match s.pos
    case Registering(_) => e := Register;
    case Starting(_) => e := StartSession;
    case Rejecting(_) => e := Reject;
    case NextAccept => e := ContinueAccept;
    case Snapshot => e := TakeSnapshot;
    case Draining(todo, _) =>
      if todo == {} { e := EndDraining; } else { var c :| c in todo; e := SetDrainFlag(c); }
    case Flagged(_, _, _) => e := PostDrainJob;
    case TryFlags => e := ReadFlags;
    case TrySessions => e := CheckSessions;
    case ForceSnapshot => e := TakeForceSnapshot;
    case Forcing(todo) =>
      if todo == {} { e := EndForcing; } else { var c :| c in todo; e := ForceOne(c); }
  }
}

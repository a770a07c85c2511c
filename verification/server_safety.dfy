/**
 Safety and progress of the server's shutdown over all interleavings.
 */
module ServerSafety {
  import opened SessionModel
  import opened ServerModel

  ghost predicate SessionsOk(s: Server) {
    forall c :: 0 <= c < |s.conns| ==> SessionOk(s.conns[c].session, s.executorStopped, s.maxRequests)
  }

  predicate PosOk(s: Server) {
    match s.pos
    case Registering(c) => c < |s.conns| && s.conns[c] == Conn(FreshSession, NoRemoval) && c !in s.sessions
    case Starting(c) => c < |s.conns| && s.conns[c] == Conn(FreshSession, NoRemoval) && c in s.sessions
    case Rejecting(c) => c < |s.conns| && s.conns[c] == Conn(FreshSession, NoRemoval) && c !in s.sessions
    case Snapshot => s.executorStopped
    case Draining(todo, _) => s.executorStopped && forall c :: c in todo ==> c < |s.conns|
    case Flagged(c, todo, _) => s.executorStopped && c < |s.conns| && forall d :: d in todo ==> d < |s.conns|
    case TrySessions => s.drained && !s.completionStarted
    case ForceSnapshot => s.executorStopped
    case Forcing(todo) => s.executorStopped && forall c :: c in todo ==> c < |s.conns|
    case _ => true
  }

  /** The flags rise in the order of the stop protocol. */
  ghost predicate FlagsOk(s: Server) {
    && s.maxConnections > 0 && s.maxRequests > 0
    && s.stopRequested == !s.requester.NotAsked?
    && s.executorStopped == (s.requester.ExecutorTold? || s.requester.StopPosted?)
    && (!s.waiter.NotWaiting? ==> s.requester.StopPosted?)
    && s.drained == (s.waiter.DrainedStored? || s.waiter.JoiningIo? || s.waiter.IoDone?)
    && (s.drained || s.waiter.ExecutorJoined? ==> PoolIdle(s))
    && (s.timer ==> s.executorStopped)
    && (forall i :: 0 <= i < |s.queue| && (s.queue[i].StopOnIo? || s.queue[i].Deadline?) ==> s.executorStopped)
  }

  /** A registered session is in the set until its close handler has erased it, and until
      then something is still going to happen to it. */
  ghost predicate RegisteredOk(s: Server) {
    && |s.sessions| <= s.maxConnections
    && (forall c :: c in s.sessions ==> c < |s.conns|)
    && (forall c :: 0 <= c < |s.conns| && c in s.sessions ==>
          s.conns[c].session.callback || s.conns[c].removal.Erase?)
    && (forall c :: 0 <= c < |s.conns| && c in s.sessions ==>
          s.conns[c].session.started || s.pos == Starting(c) || s.conns[c].removal.Erase?)
  }

  predicate CompletionOk(s: Server) {
    && (s.completionStarted ==> s.drained && s.sessions == {})
    && s.guard == !s.completionStarted
    && s.guardReleases == (if s.completionStarted then 1 else 0)
    && (s.waiter.IoDone? ==> s.completionStarted)
  }

  predicate Trying(p: AcceptPos) {
    p.Snapshot? || p.Draining? || p.Flagged? || p.TryFlags? || p.TrySessions? || p.ForceSnapshot? || p.Forcing?
  }

  predicate Checking(r: Removal) { r.SawEmpty? || r.SawStop? || r.Post? }

  predicate TryQueued(s: Server) {
    exists i :: 0 <= i < |s.queue| && s.queue[i].TryComplete?
  }

  predicate SomeoneChecking(s: Server) {
    exists c :: 0 <= c < |s.conns| && Checking(s.conns[c].removal)
  }

  /** Completion has started, or a call of the completion test is running, queued or
      about to be queued. */
  predicate OnTheWay(s: Server) {
    s.completionStarted || TryQueued(s) || Trying(s.pos) || s.waiter.DrainedStored? || SomeoneChecking(s)
  }

  ghost predicate NeverMissed(s: Server) {
    s.drained && s.sessions == {} ==> OnTheWay(s)
  }

  ghost predicate Inv(s: Server) {
    SessionsOk(s) && PosOk(s) && FlagsOk(s) && RegisteredOk(s) && CompletionOk(s) && NeverMissed(s)
  }

  lemma InitInv(s: Server)
    requires Init(s)
    ensures Inv(s)
  {
  }
  // Every step keeps it

  /** Everything but the position on the accept strand. */
  ghost predicate Core(s: Server) {
    SessionsOk(s) && FlagsOk(s) && RegisteredOk(s) && CompletionOk(s) && NeverMissed(s)
  }

  lemma TouchKeepsSessions(s: Server, c: nat, e: SessionEvent)
    requires SessionsOk(s) && CanTouch(s, c, e)
    ensures SessionsOk(Touched(s, c, e))
  {
    EventKeepsOk(s.conns[c].session, e, s.executorStopped, s.maxRequests);
  }

  /** What an event other than a strand job leaves alone. */
  lemma PostingFrame(x: Session, e: SessionEvent, stopping: bool, maxRequests: nat)
    requires CanHappen(x, e, stopping) && !e.RunNext?
    ensures var y := Happened(x, e, stopping, maxRequests);
      && y.callback == x.callback && y.closings == x.closings
      && y.started == (x.started || e.Begin?)
  {
    match e
    case Begin =>
    case Flag =>
    case PostDrain =>
    case PostForce =>
    case ReadCompletes(_) =>
    case WriteCompletes(_) =>
    case TaskCompletes =>
  }

  lemma JobTaskFrame(p: Session, j: Job, accepted: bool, maxRequests: nat)
    ensures RunJob(p, j, accepted, maxRequests).task ==> p.task || accepted
  {
    match j
    case BeginRead =>
    case Drain =>
    case ForceClose =>
    case Respond => WriteTaskFrame(p, false, maxRequests);
    case ReadDone(r) => ReadTaskFrame(p, r, accepted, maxRequests);
    case WriteDone(ok) => WrittenTaskFrame(p, ok);
  }

  lemma WrittenTaskFrame(p: Session, ok: bool)
    ensures HandleWrite(p, ok).task == p.task
  {
  }

  lemma ReadTaskFrame(p: Session, r: ReadResult, accepted: bool, maxRequests: nat)
    ensures HandleRead(p, r, accepted, maxRequests).task ==> p.task || accepted
  {
    if r.ReadRejected? {
      WriteTaskFrame(p.(keepAlive := false), true, maxRequests);
    } else if r.ReadOk? {
      WriteTaskFrame(Received(p, r.keepAlive), false, maxRequests);
    }
  }

  lemma WriteTaskFrame(p: Session, force: bool, maxRequests: nat)
    ensures WriteResponse(p, force, maxRequests).task == p.task
  {
  }

  lemma TaskFrame(x: Session, e: SessionEvent, stopping: bool, maxRequests: nat)
    requires CanHappen(x, e, stopping)
    ensures Happened(x, e, stopping, maxRequests).task ==> x.task || !stopping
  {
    match e
    case RunNext(accepted) => JobTaskFrame(x.(jobs := x.jobs[1..]), x.jobs[0], accepted, maxRequests);
    case Begin =>
    case Flag =>
    case PostDrain =>
    case PostForce =>
    case ReadCompletes(_) =>
    case WriteCompletes(_) =>
    case TaskCompletes =>
  }

  lemma KeepsFlags(s: Server, c: nat, y: Session)
    requires FlagsOk(s) && c < |s.conns|
    requires y.task ==> s.conns[c].session.task || !s.executorStopped
    ensures FlagsOk(WithSession(s, c, y))
  {
    var s' := WithSession(s, c, y);
    assert s.drained || s.waiter.ExecutorJoined? ==> s.executorStopped;
    assert forall d :: 0 <= d < |s.conns| && d != c ==> s'.conns[d] == s.conns[d];
  }

  lemma KeepsRegistered(s: Server, c: nat, y: Session)
    requires RegisteredOk(s) && c < |s.conns|
    requires y.callback == s.conns[c].session.callback && (s.conns[c].session.started ==> y.started)
    ensures RegisteredOk(WithSession(s, c, y))
  {
  }

  lemma KeepsMissed(s: Server, c: nat, y: Session)
    requires NeverMissed(s) && c < |s.conns|
    ensures NeverMissed(WithSession(s, c, y))
  {
    var s' := WithSession(s, c, y);
    if SomeoneChecking(s) {
      var d :| 0 <= d < |s.conns| && Checking(s.conns[d].removal);
      assert Checking(s'.conns[d].removal);
    }
    assert s'.queue == s.queue;
  }

  lemma TouchOk(s: Server, c: nat, e: SessionEvent)
    requires Core(s) && CanTouch(s, c, e) && !e.RunNext?
    ensures Core(Touched(s, c, e))
  {
    var x := s.conns[c].session;
    var y := Happened(x, e, s.executorStopped, s.maxRequests);
    TouchKeepsSessions(s, c, e);
    PostingFrame(x, e, s.executorStopped, s.maxRequests);
    TaskFrame(x, e, s.executorStopped, s.maxRequests);
    KeepsFlags(s, c, y);
    KeepsRegistered(s, c, y);
    KeepsMissed(s, c, y);
  }

  // The accept strand

  lemma QueueGrows(s: Server, j: AcceptJob)
    requires Core(s) && PosOk(s)
    requires j.StopOnIo? || j.Deadline? ==> s.executorStopped
    ensures Inv(s.(queue := s.queue + [j]))
    ensures j.TryComplete? ==> TryQueued(s.(queue := s.queue + [j]))
  {
    var s' := s.(queue := s.queue + [j]);
    assert s'.queue[|s.queue|] == j;
    assert forall i :: 0 <= i < |s.queue| ==> s'.queue[i] == s.queue[i];
  }

  lemma CompletionEventInv(s: Server, e: Event)
    requires Inv(s) && Enabled(s, e) && (e.AcceptCompletes? || e.TimerFires?)
    ensures Inv(After(s, e))
  {
    QueueGrows(s, if e.AcceptCompletes? then if e.ok then Accepted else AcceptFailed else Deadline(e.aborted));
  }

  lemma NewConnInv(s: Server)
    requires Core(s) && PosOk(s) && s.pos.AtRest? && !s.stopRequested
    ensures Inv(s.(conns := s.conns + [Conn(FreshSession, NoRemoval)], pos := Registering(|s.conns|)))
  {
    FreshOk(s.executorStopped, s.maxRequests);
    assert !s.drained;
  }

  lemma ShrinksQueue(s: Server)
    requires Inv(s) && s.queue != [] && s.pos.AtRest?
    ensures var p := s.(queue := s.queue[1..]);
      && SessionsOk(p) && FlagsOk(p) && RegisteredOk(p) && CompletionOk(p) && PosOk(p)
      && (!s.queue[0].TryComplete? ==> NeverMissed(p))
  {
    var p := s.(queue := s.queue[1..]);
    assert forall i :: 1 <= i < |s.queue| ==> p.queue[i - 1] == s.queue[i];
  }

  lemma TakeJobInv(s: Server)
    requires Inv(s) && Enabled(s, TakeJob)
    ensures Inv(After(s, TakeJob))
  {
    ShrinksQueue(s);
    var p := s.(queue := s.queue[1..]);
    var j := s.queue[0];
    assert j.StopOnIo? || j.Deadline? ==> s.executorStopped;
    JobTakenInv(p, j);
  }

  lemma JobTakenInv(p: Server, j: AcceptJob)
    requires SessionsOk(p) && FlagsOk(p) && RegisteredOk(p) && CompletionOk(p) && p.pos.AtRest?
    requires j.StopOnIo? || j.Deadline? ==> p.executorStopped
    requires NeverMissed(p) || j.TryComplete?
    ensures Inv(JobTaken(p, j))
  {
    match j
    case Accepted =>
      if !p.stopRequested { NewConnInv(p); } else { Moves(p, NextAccept); }
    case AcceptFailed => Moves(p, NextAccept);
    case StopOnIo => Moves(p.(acceptorOpen := false), Snapshot);
    case TryComplete => Moves(p, TryFlags);
    case Deadline(aborted) => Moves(p, if aborted then AtRest else ForceSnapshot);
  }

  /** The handler on the accept strand goes on to `q`, which concerns no connection. */
  lemma Moves(s: Server, q: AcceptPos)
    requires SessionsOk(s) && FlagsOk(s) && RegisteredOk(s) && CompletionOk(s) && !s.pos.Starting?
    requires PosOk(s.(pos := q)) && !Trying(s.pos) && (NeverMissed(s) || Trying(q))
    ensures Inv(s.(pos := q))
  {
  }

  lemma RegisterInv(s: Server)
    requires Inv(s) && s.pos.Registering?
    ensures Inv(AfterAccept(s, Register))
  {
    var c := s.pos.c;
    if s.stopRequested || |s.sessions| >= s.maxConnections {
      Moves(s, Rejecting(c));
    } else {
      var more := s.sessions + {c};
      assert !s.drained && !s.completionStarted;
      assert |more| <= s.maxConnections;
      var t := s.(sessions := more, pos := Starting(c));
      assert RegisteredOk(t) by { assert forall d :: d in more && d != c ==> d in s.sessions; }
    }
  }

  lemma ContinueInv(s: Server)
    requires Inv(s) && s.pos.NextAccept?
    ensures Inv(AfterAccept(s, ContinueAccept))
  {
    Moves(s, AtRest);
  }

  lemma StartInv(s: Server, e: Event)
    requires Inv(s) && Enabled(s, e) && (e.StartSession? || e.Reject?)
    ensures Inv(After(s, e))
  {
    var ev := if e.StartSession? then Begin else PostForce;
    TouchOk(s, s.pos.c, ev);
    var t := Touched(s, s.pos.c, ev);
    assert After(s, e) == t.(pos := NextAccept);
    if e.StartSession? {
      assert t.conns[s.pos.c].session.started;
    }
  }

  lemma StopMoveInv(s: Server, e: Event)
    requires Inv(s) && StopEvent(e) && StopEnabled(s, e)
    requires e.TakeSnapshot? || e.EndDraining? || e.TakeForceSnapshot? || e.EndForcing?
    ensures Inv(AfterStop(s, e))
  {
    var s' := if e.EndDraining? then s.(timer := s.timer || s.pos.some) else s;
    var q :=
      if e.TakeSnapshot? then Draining(s.sessions, s.sessions != {})
      else if e.TakeForceSnapshot? then Forcing(s.sessions) else TryFlags;
    StaysTrying(s', q);
  }

  lemma StaysTrying(s: Server, q: AcceptPos)
    requires Core(s) && Trying(s.pos) && Trying(q) && PosOk(s.(pos := q))
    ensures Inv(s.(pos := q))
  {
  }

  lemma TryFlagsInv(s: Server)
    requires Inv(s) && s.pos.TryFlags?
    ensures Inv(AfterStop(s, ReadFlags))
  {
    if s.completionStarted || !s.drained {
      assert Inv(s.(pos := AtRest));
    } else {
      StaysTrying(s, TrySessions);
    }
  }

  lemma TrySessionsInv(s: Server)
    requires Inv(s) && s.pos.TrySessions?
    ensures Inv(AfterStop(s, CheckSessions))
  {
    if s.sessions != {} {
      assert Inv(s.(pos := AtRest));
    } else {
      assert Inv(AfterStop(s, CheckSessions));
    }
  }

  lemma StopTouchInv(s: Server, c: nat, e: SessionEvent, q: AcceptPos)
    requires Inv(s) && CanTouch(s, c, e) && (e.Flag? || e.PostDrain? || e.PostForce?)
    requires Trying(s.pos) && Trying(q) && PosOk(s.(pos := q)) && !q.TrySessions?
    ensures Inv(Touched(s, c, e).(pos := q))
  {
    TouchOk(s, c, e);
    StaysTrying(Touched(s, c, e), q);
  }

  // Session strands

  /** Jobs and operations of other sessions do not disturb the one being registered. */
  lemma UntouchedPos(s: Server, c: nat, y: Session, r: Removal)
    requires PosOk(s) && c < |s.conns|
    requires s.conns[c] != Conn(FreshSession, NoRemoval)
    ensures PosOk(s.(conns := s.conns[c := Conn(y, r)]))
  {
  }

  lemma SessionCompletesInv(s: Server, e: Event)
    requires Inv(s) && Enabled(s, e) && e.SessionCompletes?
    ensures Inv(After(s, e))
  {
    TouchOk(s, e.c, e.e);
    UntouchedPos(s, e.c, After(s, e).conns[e.c].session, s.conns[e.c].removal);
  }

  /** What a strand job leaves alone of a session: the close handler is used exactly when it
      is given up. */
  predicate Framed(x: Session, y: Session) {
    y.started == x.started && (y.callback ==> x.callback) && (y.closings > x.closings <==> x.callback && !y.callback)
  }

  lemma CloseFrame(p: Session)
    ensures Framed(p, Close(p))
  {
  }

  lemma WriteFrame(p: Session, force: bool, maxRequests: nat)
    ensures Framed(p, WriteResponse(p, force, maxRequests))
  {
  }

  lemma FrameFrom(p: Session, q: Session, y: Session)
    requires q.started == p.started && q.callback == p.callback && q.closings == p.closings && Framed(q, y)
    ensures Framed(p, y)
  {
  }

  lemma FailedFrame(p: Session, accepted: bool, maxRequests: nat)
    ensures Framed(p, HandleRead(p, ReadFailed, accepted, maxRequests))
  {
    CloseFrame(p);
  }

  lemma RejectedFrame(p: Session, accepted: bool, maxRequests: nat)
    ensures Framed(p, HandleRead(p, ReadRejected, accepted, maxRequests))
  {
    var q := p.(keepAlive := false);
    WriteFrame(q, true, maxRequests);
    FrameFrom(p, q, WriteResponse(q, true, maxRequests));
  }

  lemma ReceivedFrame(p: Session, keepAlive: bool, accepted: bool, maxRequests: nat)
    ensures Framed(p, HandleRead(p, ReadOk(keepAlive), accepted, maxRequests))
  {
    var q := Received(p, keepAlive);
    if !accepted {
      WriteFrame(q, false, maxRequests);
      FrameFrom(p, q, WriteResponse(q, false, maxRequests));
    }
  }

  lemma ReadFrame(p: Session, r: ReadResult, accepted: bool, maxRequests: nat)
    ensures Framed(p, HandleRead(p, r, accepted, maxRequests))
  {
    if r.ReadFailed? {
      FailedFrame(p, accepted, maxRequests);
    } else if r.ReadRejected? {
      RejectedFrame(p, accepted, maxRequests);
    } else {
      ReceivedFrame(p, r.keepAlive, accepted, maxRequests);
      assert r == ReadOk(r.keepAlive);
    }
  }

  lemma RequestFrame(p: Session)
    ensures Framed(p, ReadRequest(p))
  {
    CloseFrame(p);
  }

  lemma JobFrame(p: Session, j: Job, accepted: bool, maxRequests: nat)
    ensures Framed(p, RunJob(p, j, accepted, maxRequests))
  {
    match j
    case BeginRead => RequestFrame(p);
    case Drain => CloseFrame(LastAnswer(p));
    case ForceClose => CloseFrame(p);
    case Respond => WriteFrame(p, false, maxRequests);
    case ReadDone(r) => ReadFrame(p, r, accepted, maxRequests);
    case WriteDone(_) =>
      CloseFrame(p);
      RequestFrame(p);
  }

  lemma RunFrame(x: Session, accepted: bool, stopping: bool, maxRequests: nat)
    requires CanHappen(x, RunNext(accepted), stopping)
    ensures Framed(x, Happened(x, RunNext(accepted), stopping, maxRequests))
  {
    JobFrame(x.(jobs := x.jobs[1..]), x.jobs[0], accepted, maxRequests);
  }

  lemma Replaced(s: Server, c: nat, y: Session, r: Removal)
    requires c < |s.conns|
    ensures AtRemoval(WithSession(s, c, y), c, r) == s.(conns := s.conns[c := Conn(y, r)])
    ensures s.conns[c].removal.NoRemoval? ==> WithSession(s, c, y) == s.(conns := s.conns[c := Conn(y, NoRemoval)])
  {
    var k := s.conns[c].(session := y);
    assert s.conns[c := k][c := Conn(y, r)] == s.conns[c := Conn(y, r)];
  }

  /** What a handler run on a session's strand does to the server. */
  lemma AfterRunning(s: Server, c: nat, accepted: bool)
    requires SessionEnabled(s, SessionRuns(c, accepted))
    ensures var x := s.conns[c].session;
            var y := Happened(x, RunNext(accepted), s.executorStopped, s.maxRequests);
            AfterSession(s, SessionRuns(c, accepted)) ==
            s.(conns := s.conns[c := Conn(y, if y.closings > x.closings then Erase else NoRemoval)])
  {
    var x := s.conns[c].session;
    var y := Happened(x, RunNext(accepted), s.executorStopped, s.maxRequests);
    Replaced(s, c, y, Erase);
  }

  lemma SessionRunsInv(s: Server, e: Event)
    requires Inv(s) && Enabled(s, e) && e.SessionRuns?
    ensures Inv(After(s, e))
  {
    var x := s.conns[e.c].session;
    var y := Happened(x, RunNext(e.accepted), s.executorStopped, s.maxRequests);
    RunFrame(x, e.accepted, s.executorStopped, s.maxRequests);
    TaskFrame(x, RunNext(e.accepted), s.executorStopped, s.maxRequests);
    TouchKeepsSessions(s, e.c, RunNext(e.accepted));
    KeepsFlags(s, e.c, y);
    AfterRunning(s, e.c, e.accepted);
    RanOk(s, e.c, y, y.closings > x.closings);
  }

  lemma RanOk(s: Server, c: nat, y: Session, fired: bool)
    requires PosOk(s) && RegisteredOk(s) && CompletionOk(s) && NeverMissed(s)
    requires c < |s.conns| && s.conns[c].removal.NoRemoval? && s.conns[c].session.jobs != []
    requires SessionsOk(WithSession(s, c, y)) && FlagsOk(WithSession(s, c, y))
    requires y.started == s.conns[c].session.started
    requires fired <==> s.conns[c].session.callback && !y.callback
    ensures Inv(s.(conns := s.conns[c := Conn(y, if fired then Erase else NoRemoval)]))
  {
    var r := if fired then Erase else NoRemoval;
    RemovalKeepsState(s, c, y, r);
    RemovalKeepsRest(s, c, y, r);
    RanRegistered(s, c, y, fired);
    UntouchedPos(s, c, y, r);
  }

  lemma RanRegistered(s: Server, c: nat, y: Session, fired: bool)
    requires RegisteredOk(s) && c < |s.conns| && s.conns[c].removal.NoRemoval?
    requires y.started == s.conns[c].session.started
    requires fired <==> s.conns[c].session.callback && !y.callback
    ensures RegisteredOk(s.(conns := s.conns[c := Conn(y, if fired then Erase else NoRemoval)]))
  {
  }

  /** Sessions and flags do not depend on where a close handler stands. */
  lemma RemovalKeepsState(s: Server, c: nat, y: Session, r: Removal)
    requires c < |s.conns| && SessionsOk(WithSession(s, c, y)) && FlagsOk(WithSession(s, c, y))
    ensures var s' := s.(conns := s.conns[c := Conn(y, r)]); SessionsOk(s') && FlagsOk(s')
  {
    var s', t := s.(conns := s.conns[c := Conn(y, r)]), WithSession(s, c, y);
    assert forall d :: 0 <= d < |s.conns| ==> s'.conns[d].session == t.conns[d].session;
  }

  /** Nor does completion, if the handler goes on checking or the test is queued. */
  lemma RemovalKeepsRest(s: Server, c: nat, y: Session, r: Removal)
    requires CompletionOk(s) && NeverMissed(s) && c < |s.conns|
    requires Checking(s.conns[c].removal) && s.drained && s.sessions == {} ==> Checking(r) || TryQueued(s)
    ensures var s' := s.(conns := s.conns[c := Conn(y, r)]); CompletionOk(s') && NeverMissed(s')
  {
    var s' := s.(conns := s.conns[c := Conn(y, r)]);
    assert s'.queue == s.queue;
    if SomeoneChecking(s) {
      var d :| 0 <= d < |s.conns| && Checking(s.conns[d].removal);
      assert d != c || Checking(r) ==> Checking(s'.conns[d].removal);
    }
  }

  lemma CheckRegistered(s: Server, c: nat, r: Removal)
    requires RegisteredOk(s) && c < |s.conns| && Checking(s.conns[c].removal)
    ensures RegisteredOk(AtRemoval(s, c, r))
  {
  }

  lemma CheckInv(s: Server, c: nat, r: Removal)
    requires Inv(s) && c < |s.conns| && Checking(s.conns[c].removal)
    requires s.drained && s.sessions == {} ==> Checking(r) || TryQueued(s)
    ensures Inv(AtRemoval(s, c, r))
  {
    var y := s.conns[c].session;
    assert WithSession(s, c, y) == s by { assert s.conns[c := s.conns[c].(session := y)] == s.conns; }
    assert AtRemoval(s, c, r) == s.(conns := s.conns[c := Conn(y, r)]);
    RemovalKeepsState(s, c, y, r);
    RemovalKeepsRest(s, c, y, r);
    CheckRegistered(s, c, r);
    UntouchedPos(s, c, y, r);
  }

  lemma EraseInv(s: Server, c: nat)
    requires Inv(s) && c < |s.conns| && s.conns[c].removal.Erase?
    ensures Inv(SessionErased(s, c))
  {
    var rest := s.sessions - {c};
    var r := if rest == {} then SawEmpty else NoRemoval;
    var u := SessionErased(s, c);
    assert u == s.(sessions := rest, conns := s.conns[c := s.conns[c].(removal := r)]);
    ErasedState(s, u, c, r);
    ErasedRest(s, u, c, r);
    ErasedRegistered(s, c, r);
  }

  lemma ErasedState(s: Server, u: Server, c: nat, r: Removal)
    requires SessionsOk(s) && FlagsOk(s) && c < |s.conns|
    requires u == s.(sessions := u.sessions, conns := s.conns[c := s.conns[c].(removal := r)])
    ensures SessionsOk(u) && FlagsOk(u)
  {
    assert forall d :: 0 <= d < |s.conns| ==> u.conns[d].session == s.conns[d].session;
  }

  lemma ErasedRest(s: Server, u: Server, c: nat, r: Removal)
    requires CompletionOk(s) && PosOk(s) && c < |s.conns| && s.conns[c].removal.Erase?
    requires u == s.(sessions := s.sessions - {c}, conns := s.conns[c := s.conns[c].(removal := r)])
    requires u.sessions == {} ==> Checking(r)
    ensures CompletionOk(u) && PosOk(u) && NeverMissed(u)
  {
    UntouchedPos(s, c, s.conns[c].session, r);
    assert u.conns[c].removal == r && !PosAt(s.pos, c);
  }

  /** The accept strand is busy registering connection `c`. */
  predicate PosAt(p: AcceptPos, c: nat) {
    (p.Registering? || p.Starting? || p.Rejecting?) && p.c == c
  }

  lemma ErasedRegistered(s: Server, c: nat, r: Removal)
    requires RegisteredOk(s) && c < |s.conns|
    ensures RegisteredOk(s.(sessions := s.sessions - {c}, conns := s.conns[c := s.conns[c].(removal := r)]))
  {
    assert s.sessions - {c} <= s.sessions;
    Cardinality(s.sessions - {c}, s.sessions);
  }

  lemma Cardinality(a: set<nat>, b: set<nat>)
    requires a <= b
    ensures |a| <= |b|
  {
    assert b == a + (b - a);
  }

  lemma PostTryInv(s: Server, c: nat)
    requires Inv(s) && c < |s.conns| && s.conns[c].removal.Post?
    ensures Inv(AtRemoval(s.(queue := s.queue + [TryComplete]), c, NoRemoval))
  {
    QueueGrows(s, TryComplete);
    CheckInv(s.(queue := s.queue + [TryComplete]), c, NoRemoval);
  }

  lemma RemovalInv(s: Server, e: Event)
    requires Inv(s) && Enabled(s, e) && (e.EraseSession? || e.ReadStop? || e.ReadDrained? || e.PostTry?)
    ensures Inv(After(s, e))
  {
    match e
    case EraseSession(c) => EraseInv(s, c);
    case ReadStop(c) => CheckInv(s, c, if s.stopRequested then SawStop else NoRemoval);
    case ReadDrained(c) => CheckInv(s, c, if s.drained then Post else NoRemoval);
    case PostTry(c) => PostTryInv(s, c);
  }

  // The threads

  lemma TellExecutorInv(s: Server)
    requires Inv(s) && s.requester.StopSet?
    ensures Inv(AfterThread(s, TellExecutor))
  {
    forall c | 0 <= c < |s.conns|
      ensures SessionOk(s.conns[c].session, true, s.maxRequests)
    {
      StoppingOnlyHelps(s.conns[c].session, s.executorStopped, true, s.maxRequests);
    }
  }

  /** Setting the stop flag, waiting and joining. */
  lemma SimpleThreadInv(s: Server, e: Event)
    requires Inv(s) && ThreadEnabled(s, e) && (e.SetStop? || e.BeginWait? || e.JoinExecutor? || e.StoreDrained?)
    ensures Inv(AfterThread(s, e))
  {
  }

  lemma PostingThreadInv(s: Server, e: Event)
    requires Inv(s) && ThreadEnabled(s, e) && (e.PostStop? || e.PostFinalTry?)
    ensures Inv(AfterThread(s, e))
  {
    QueueGrows(s, if e.PostStop? then StopOnIo else TryComplete);
  }

  lemma JoinIoInv(s: Server)
    requires Inv(s) && ThreadEnabled(s, JoinIo)
    ensures Inv(AfterThread(s, JoinIo))
  {
  }

  lemma ThreadInv(s: Server, e: Event)
    requires Inv(s) && ThreadEnabled(s, e)
    ensures Inv(AfterThread(s, e))
  {
    if e.TellExecutor? {
      TellExecutorInv(s);
    } else if e.PostStop? || e.PostFinalTry? {
      PostingThreadInv(s, e);
    } else if e.JoinIo? {
      JoinIoInv(s);
    } else {
      SimpleThreadInv(s, e);
    }
  }

  lemma AcceptInv(s: Server, e: Event)
    requires Inv(s) && AcceptEvent(e) && AcceptEnabled(s, e)
    ensures Inv(AfterAccept(s, e))
  {
    match e
    case AcceptCompletes(_) => CompletionEventInv(s, e);
    case TimerFires(_) => CompletionEventInv(s, e);
    case TakeJob => TakeJobInv(s);
    case Register => RegisterInv(s);
    case ContinueAccept => ContinueInv(s);
    case StartSession => StartInv(s, e);
    case Reject => StartInv(s, e);
  }

  lemma StopTouchesInv(s: Server, e: Event)
    requires Inv(s) && StopEvent(e) && StopEnabled(s, e) && (e.SetDrainFlag? || e.PostDrainJob? || e.ForceOne?)
    ensures Inv(AfterStop(s, e))
  {
    var c := if e.PostDrainJob? then s.pos.c else e.c;
    var ev := if e.SetDrainFlag? then Flag else if e.PostDrainJob? then PostDrain else PostForce;
    var q :=
      if e.SetDrainFlag? then Flagged(c, s.pos.todo - {c}, s.pos.some)
      else if e.PostDrainJob? then Draining(s.pos.todo, s.pos.some) else Forcing(s.pos.todo - {c});
    StopTouchInv(s, c, ev, q);
  }

  lemma StopInv(s: Server, e: Event)
    requires Inv(s) && StopEvent(e) && StopEnabled(s, e)
    ensures Inv(AfterStop(s, e))
  {
    match e
    case SetDrainFlag(_) => StopTouchesInv(s, e);
    case PostDrainJob => StopTouchesInv(s, e);
    case ForceOne(_) => StopTouchesInv(s, e);
    case ReadFlags => TryFlagsInv(s);
    case CheckSessions => TrySessionsInv(s);
    case _ => StopMoveInv(s, e);
  }

  lemma StepInv(s: Server, e: Event)
    requires Inv(s) && Enabled(s, e)
    ensures Inv(After(s, e))
  {
    if AcceptEvent(e) {
      AcceptInv(s, e);
    } else if StopEvent(e) {
      StopInv(s, e);
    } else if e.SessionCompletes? {
      SessionCompletesInv(s, e);
    } else if e.SessionRuns? {
      SessionRunsInv(s, e);
    } else if SessionStrandEvent(e) {
      RemovalInv(s, e);
    } else {
      ThreadInv(s, e);
    }
  }
}

/**
 The grace period of a stop. Every registered session is asked to drain; if one has not ended
 when the grace period is over, the socket of every connection is closed. From the stop request
 on the server needs no client to go on.
 */
module ServerDeadline {
  import opened SessionModel
  import opened ServerModel
  import opened ServerSafety
  import opened ServerTheorems
  import opened ServerTermination

  // One session

  /** The socket is closed, or will be as soon as the strand gets there. */
  predicate Condemned(x: Session) { x.open ==> ForceClose in x.jobs }

  /** The session begins no further request, and if it still waits for one, the handler that
      closes it is on the strand. */
  predicate Asked(x: Session) { x.drain && (x.st.Reading? ==> Drain in x.jobs) }

  /** What `x` can become, as far as draining and closing go. */
  predicate Follows(x: Session, y: Session) {
    && (Condemned(x) ==> Condemned(y)) && (Asked(x) ==> Asked(y))
    && (x.drain ==> y.drain) && (y.open ==> x.open)
  }

  /** What a handler leaves alone. */
  predicate Handled(p: Session, y: Session) {
    && y.jobs == p.jobs && y.drain == p.drain && (y.open ==> p.open)
    && (y.st.Reading? ==> p.st.Reading? || !p.drain) && (y.reading ==> p.reading || !p.drain)
  }

  lemma CloseHandled(p: Session)
    ensures Handled(p, Close(p))
  {
  }

  lemma RequestHandled(p: Session)
    ensures Handled(p, ReadRequest(p)) && (p.drain ==> !ReadRequest(p).st.Reading?)
  {
    CloseHandled(p);
  }

  lemma WriteHandled(p: Session, force: bool, maxRequests: nat)
    ensures Handled(p, WriteResponse(p, force, maxRequests))
  {
  }

  lemma DrainHandled(p: Session)
    ensures Handled(p, HandleDrain(p)) && !HandleDrain(p).st.Reading?
  {
    CloseHandled(LastAnswer(p));
  }

  lemma ReadHandled(p: Session, r: ReadResult, accepted: bool, maxRequests: nat)
    ensures Handled(p, HandleRead(p, r, accepted, maxRequests))
  {
    if r.ReadFailed? {
      CloseHandled(p);
    } else if r.ReadRejected? {
      WriteHandled(p.(keepAlive := false), true, maxRequests);
    } else {
      ReceivedHandled(p, r.keepAlive, accepted, maxRequests);
      assert r == ReadOk(r.keepAlive);
    }
  }

  lemma ReceivedHandled(p: Session, keepAlive: bool, accepted: bool, maxRequests: nat)
    ensures Handled(p, HandleRead(p, ReadOk(keepAlive), accepted, maxRequests))
  {
    WriteHandled(Received(p, keepAlive), false, maxRequests);
  }

  lemma JobHandled(p: Session, j: Job, accepted: bool, maxRequests: nat)
    ensures Handled(p, RunJob(p, j, accepted, maxRequests))
  {
    match j
    case BeginRead => RequestHandled(p);
    case Drain => DrainHandled(p);
    case ForceClose => CloseHandled(p);
    case Respond => WriteHandled(p, false, maxRequests);
    case ReadDone(r) => ReadHandled(p, r, accepted, maxRequests);
    case WriteDone(_) =>
      CloseHandled(p);
      RequestHandled(p);
  }

  /** The two handlers that matter do what they are there for. */
  lemma RunFollows(x: Session, accepted: bool, stopping: bool, maxRequests: nat)
    requires SessionOk(x, stopping, maxRequests) && CanHappen(x, RunNext(accepted), stopping)
    ensures Follows(x, Happened(x, RunNext(accepted), stopping, maxRequests))
  {
    var j := x.jobs[0];
    var p := x.(jobs := x.jobs[1..]);
    assert x.jobs == [j] + p.jobs;
    JobHandled(p, j, accepted, maxRequests);
    if j.ForceClose? {
      assert !Close(p).open;
    }
    if j.Drain? {
      DrainHandled(p);
    }
  }

  lemma EventFollows(x: Session, e: SessionEvent, stopping: bool, maxRequests: nat)
    requires SessionOk(x, stopping, maxRequests) && CanHappen(x, e, stopping)
    ensures Follows(x, Happened(x, e, stopping, maxRequests))
  {
    if e.RunNext? {
      RunFollows(x, e.accepted, stopping, maxRequests);
    }
  }

  /** A session that is asked to drain begins no read any more. */
  lemma AskedReadsNoMore(x: Session, e: SessionEvent, stopping: bool, maxRequests: nat)
    requires SessionOk(x, stopping, maxRequests) && CanHappen(x, e, stopping) && x.drain
    ensures Happened(x, e, stopping, maxRequests).reading ==> x.reading
  {
    if e.RunNext? {
      JobHandled(x.(jobs := x.jobs[1..]), x.jobs[0], e.accepted, maxRequests);
    }
  }

  // The server

  /** The accept strand is busy admitting some connection. */
  predicate Admitting(p: AcceptPos) { p.Registering? || p.Starting? || p.Rejecting? }

  ghost predicate AllCondemned(s: Server) {
    forall c :: 0 <= c < |s.conns| ==> Condemned(s.conns[c].session)
  }

  /** Every connection is being admitted, registered, or condemned. */
  ghost predicate Covered(s: Server) {
    forall c :: 0 <= c < |s.conns| ==> c in s.sessions || PosAt(s.pos, c) || Condemned(s.conns[c].session)
  }

  /** A close handler runs only for a closed socket. */
  ghost predicate RemovalsClosed(s: Server) {
    forall c :: 0 <= c < |s.conns| && !s.conns[c].removal.NoRemoval? ==> !s.conns[c].session.open
  }

  /** Every registered session but those in `todo` has been asked to drain. */
  ghost predicate AskedBut(s: Server, todo: set<nat>) {
    forall c :: 0 <= c < |s.conns| && c in s.sessions && c !in todo ==> Asked(s.conns[c].session)
  }

  ghost predicate CondemnedBut(s: Server, todo: set<nat>) {
    forall c :: 0 <= c < |s.conns| && c !in todo ==> Condemned(s.conns[c].session)
  }

  /** How far draining and forced closing are. */
  ghost predicate PassesOk(s: Server) {
    match s.pos
    case Draining(todo, _) => AskedBut(s, todo)
    case Flagged(c, todo, _) => AskedBut(s, todo + {c}) && (c < |s.conns| ==> s.conns[c].session.drain)
    case Forcing(todo) => CondemnedBut(s, todo)
    case _ => true
  }

  predicate StopQueued(s: Server) { StopOnIo in s.queue }

  predicate DeadlineComing(s: Server) { s.timer || Deadline(false) in s.queue }

  /** The stop handler has begun: nothing is accepted any more, and until all connections are
      condemned the deadline is to come. */
  ghost predicate Closing(s: Server) {
    && !s.acceptorOpen && !Admitting(s.pos)
    && match s.pos
       case Snapshot => true
       case Draining(_, some) => some || AllCondemned(s)
       case Flagged(_, _, some) => some || AllCondemned(s)
       case ForceSnapshot => AskedBut(s, {})
       case Forcing(_) => AskedBut(s, {})
       case _ => AskedBut(s, {}) && (DeadlineComing(s) || AllCondemned(s))
  }

  ghost predicate Plan(s: Server) {
    && Covered(s) && RemovalsClosed(s) && PassesOk(s)
    && (s.requester.StopPosted? ==> StopQueued(s) || Closing(s))
  }

  lemma InitPlan(s: Server)
    requires Init(s)
    ensures Plan(s)
  {
  }

  // Steps that touch one connection

  predicate Swaps(s: Server, c: nat, k: Conn) {
    && c < |s.conns| && Follows(s.conns[c].session, k.session)
    && (!k.removal.NoRemoval? ==> !k.session.open)
  }

  lemma SwapKeepsCovered(s: Server, c: nat, k: Conn)
    requires Swaps(s, c, k) && Covered(s) && RemovalsClosed(s)
    ensures var s' := s.(conns := s.conns[c := k]); Covered(s') && RemovalsClosed(s')
  {
  }

  lemma SwapKeepsSets(s: Server, c: nat, k: Conn, todo: set<nat>)
    requires Swaps(s, c, k)
    ensures var s' := s.(conns := s.conns[c := k]);
      && (AskedBut(s, todo) ==> AskedBut(s', todo)) && (CondemnedBut(s, todo) ==> CondemnedBut(s', todo))
      && (AllCondemned(s) ==> AllCondemned(s'))
  {
  }

  lemma SwapKeepsPasses(s: Server, c: nat, k: Conn)
    requires Swaps(s, c, k) && PassesOk(s)
    ensures PassesOk(s.(conns := s.conns[c := k]))
  {
    match s.pos
    case Draining(todo, _) => SwapKeepsSets(s, c, k, todo);
    case Flagged(d, todo, _) => SwapKeepsSets(s, c, k, todo + {d});
    case Forcing(todo) => SwapKeepsSets(s, c, k, todo);
    case _ =>
  }

  lemma SwapKeepsPlan(s: Server, c: nat, k: Conn)
    requires Swaps(s, c, k) && Plan(s)
    ensures Plan(s.(conns := s.conns[c := k]))
  {
    SwapKeepsCovered(s, c, k);
    SwapKeepsPasses(s, c, k);
    SwapKeepsSets(s, c, k, {});
  }

  lemma TouchSwaps(s: Server, c: nat, e: SessionEvent) returns (k: Conn)
    requires SessionsOk(s) && RemovalsClosed(s) && CanTouch(s, c, e)
    ensures Swaps(s, c, k) && Touched(s, c, e) == s.(conns := s.conns[c := k])
    ensures k.removal == s.conns[c].removal
    ensures e.PostForce? ==> Condemned(k.session)
    ensures e.Flag? ==> k.session.drain
    ensures e.PostDrain? && s.conns[c].session.drain ==> Asked(k.session)
  {
    var x := s.conns[c].session;
    EventFollows(x, e, s.executorStopped, s.maxRequests);
    k := s.conns[c].(session := Happened(x, e, s.executorStopped, s.maxRequests));
    PostingIs(x, e, s.executorStopped, s.maxRequests);
  }

  lemma PostingIs(x: Session, e: SessionEvent, stopping: bool, maxRequests: nat)
    requires CanHappen(x, e, stopping)
    ensures var y := Happened(x, e, stopping, maxRequests);
      && (e.PostForce? ==> ForceClose in y.jobs)
      && (e.Flag? ==> y.drain)
      && (e.PostDrain? ==> y.drain == x.drain && Drain in y.jobs)
  {
  }

  lemma FiredIsClosed(x: Session, accepted: bool, stopping: bool, maxRequests: nat)
    requires SessionOk(x, stopping, maxRequests) && CanHappen(x, RunNext(accepted), stopping)
    ensures var y := Happened(x, RunNext(accepted), stopping, maxRequests); y.closings > x.closings ==> !y.open
  {
    RunKeepsOk(x, accepted, stopping, maxRequests);
    RunFrame(x, accepted, stopping, maxRequests);
  }

  lemma RunFacts(x: Session, accepted: bool, stopping: bool, maxRequests: nat) returns (y: Session, fired: bool)
    requires SessionOk(x, stopping, maxRequests) && CanHappen(x, RunNext(accepted), stopping)
    ensures y == Happened(x, RunNext(accepted), stopping, maxRequests) && fired == (y.closings > x.closings)
    ensures Follows(x, y) && (fired ==> !y.open)
  {
    y := Happened(x, RunNext(accepted), stopping, maxRequests);
    fired := y.closings > x.closings;
    EventFollows(x, RunNext(accepted), stopping, maxRequests);
    FiredIsClosed(x, accepted, stopping, maxRequests);
  }

  lemma RunSwaps(s: Server, c: nat, accepted: bool) returns (k: Conn)
    requires SessionsOk(s) && SessionEnabled(s, SessionRuns(c, accepted))
    ensures Swaps(s, c, k) && AfterSession(s, SessionRuns(c, accepted)) == s.(conns := s.conns[c := k])
  {
    var y, fired := RunFacts(s.conns[c].session, accepted, s.executorStopped, s.maxRequests);
    AfterRunning(s, c, accepted);
    k := PackSwap(s, c, y, fired);
  }

  lemma PackSwap(s: Server, c: nat, y: Session, fired: bool) returns (k: Conn)
    requires c < |s.conns| && Follows(s.conns[c].session, y) && (fired ==> !y.open)
    ensures k == Conn(y, if fired then Erase else NoRemoval) && Swaps(s, c, k)
  {
    k := Conn(y, if fired then Erase else NoRemoval);
  }

  lemma TouchKeepsPlan(s: Server, c: nat, e: SessionEvent)
    requires Plan(s) && SessionsOk(s) && CanTouch(s, c, e)
    ensures Plan(Touched(s, c, e))
  {
    var k := TouchSwaps(s, c, e);
    SwapKeepsPlan(s, c, k);
  }

  lemma SessionRunsPlan(s: Server, c: nat, accepted: bool)
    requires Plan(s) && SessionsOk(s) && SessionEnabled(s, SessionRuns(c, accepted))
    ensures Plan(AfterSession(s, SessionRuns(c, accepted)))
  {
    var k := RunSwaps(s, c, accepted);
    SwapKeepsPlan(s, c, k);
  }

  lemma RemovalPlan(s: Server, c: nat, r: Removal)
    requires Plan(s) && c < |s.conns| && !s.conns[c].removal.NoRemoval?
    ensures Plan(AtRemoval(s, c, r))
  {
    SwapKeepsPlan(s, c, s.conns[c].(removal := r));
  }

  /** Fewer registered sessions, all of those that went closed. */
  lemma FewerKeepsPlan(s: Server, rest: set<nat>)
    requires Plan(s) && rest <= s.sessions
    requires forall c :: 0 <= c < |s.conns| && c in s.sessions && c !in rest ==> Condemned(s.conns[c].session)
    ensures Plan(s.(sessions := rest))
  {
    var t := s.(sessions := rest);
    assert forall todo :: AskedBut(s, todo) ==> AskedBut(t, todo);
    assert forall todo :: CondemnedBut(s, todo) ==> CondemnedBut(t, todo);
    assert AllCondemned(s) ==> AllCondemned(t);
  }

  lemma EraseKeepsPlan(s: Server, c: nat)
    requires Plan(s) && c < |s.conns| && s.conns[c].removal.Erase?
    ensures Plan(SessionErased(s, c))
  {
    var rest := s.sessions - {c};
    FewerKeepsPlan(s, rest);
    RemovalPlan(s.(sessions := rest), c, if rest == {} then SawEmpty else NoRemoval);
  }

  lemma QueueKeepsPlan(s: Server, j: AcceptJob)
    requires Plan(s)
    ensures Plan(s.(queue := s.queue + [j]))
  {
  }

  lemma SessionPlan(s: Server, e: Event)
    requires Plan(s) && SessionsOk(s) && SessionStrandEvent(e) && SessionEnabled(s, e)
    ensures Plan(AfterSession(s, e))
  {
    match e
    case SessionCompletes(c, ev) => TouchKeepsPlan(s, c, ev);
    case SessionRuns(c, accepted) => SessionRunsPlan(s, c, accepted);
    case EraseSession(c) => EraseKeepsPlan(s, c);
    case ReadStop(c) => RemovalPlan(s, c, if s.stopRequested then SawStop else NoRemoval);
    case ReadDrained(c) => RemovalPlan(s, c, if s.drained then Post else NoRemoval);
    case PostTry(c) =>
      QueueKeepsPlan(s, TryComplete);
      RemovalPlan(s.(queue := s.queue + [TryComplete]), c, NoRemoval);
  }

  // The accept strand

  /** The handler goes on to `q`, which admits nobody and is in no pass over the sessions. */
  lemma MoveKeepsPlan(s: Server, q: AcceptPos)
    requires Plan(s) && !Admitting(q) && !q.Draining? && !q.Flagged? && !q.Forcing?
    requires forall c :: 0 <= c < |s.conns| && PosAt(s.pos, c) ==> c in s.sessions || Condemned(s.conns[c].session)
    requires s.requester.StopPosted? && !StopQueued(s) ==> Closing(s.(pos := q))
    ensures Plan(s.(pos := q))
  {
  }

  lemma PoppedPlan(s: Server)
    requires Plan(s) && s.queue != [] && s.pos.AtRest?
    ensures var p := s.(queue := s.queue[1..]);
      && Covered(p) && RemovalsClosed(p) && PassesOk(p)
      && (s.requester.StopPosted? && s.queue[0] != Deadline(false) && !s.queue[0].StopOnIo? ==>
            StopQueued(p) || Closing(p))
      && (s.requester.StopPosted? && !s.queue[0].StopOnIo? ==>
            StopQueued(p) || (!s.acceptorOpen && AskedBut(p, {})))
  {
    assert s.queue == [s.queue[0]] + s.queue[1..];
  }

  lemma TakeJobPlan(s: Server)
    requires Plan(s) && s.queue != [] && s.pos.AtRest? && (s.requester.StopPosted? ==> s.stopRequested)
    ensures Plan(JobTaken(s.(queue := s.queue[1..]), s.queue[0]))
  {
    PoppedPlan(s);
    var p := s.(queue := s.queue[1..]);
    match s.queue[0]
    case Accepted =>
      if s.stopRequested { MoveKeepsPlan(p, NextAccept); } else { AdmitsPlan(p); }
    case AcceptFailed => MoveKeepsPlan(p, NextAccept);
    case StopOnIo => BeginsClosing(p);
    case TryComplete => MoveKeepsPlan(p, TryFlags);
    case Deadline(aborted) => DeadlinePlan(s, p, aborted);
  }

  lemma AdmitsPlan(p: Server)
    requires Covered(p) && RemovalsClosed(p) && p.pos.AtRest? && !p.requester.StopPosted?
    ensures Plan(p.(conns := p.conns + [Conn(FreshSession, NoRemoval)], pos := Registering(|p.conns|)))
  {
  }

  lemma BeginsClosing(p: Server)
    requires Covered(p) && RemovalsClosed(p) && p.pos.AtRest?
    ensures Plan(p.(acceptorOpen := false, pos := Snapshot))
  {
  }

  lemma DeadlinePlan(s: Server, p: Server, aborted: bool)
    requires Covered(p) && RemovalsClosed(p) && PassesOk(p) && p.pos.AtRest? && p == s.(queue := p.queue)
    requires p.requester.StopPosted? ==> StopQueued(p) || (!p.acceptorOpen && AskedBut(p, {}))
    requires aborted && p.requester.StopPosted? ==> StopQueued(p) || Closing(p)
    ensures Plan(if aborted then p else p.(pos := ForceSnapshot))
  {
  }

  lemma AcceptPlan(s: Server, e: Event)
    requires Plan(s) && Inv(s) && AcceptEvent(e) && AcceptEnabled(s, e)
    ensures Plan(AfterAccept(s, e))
  {
    match e
    case AcceptCompletes(ok) => QueueKeepsPlan(s.(accepting := false), if ok then Accepted else AcceptFailed);
    case TimerFires(aborted) => TimerPlan(s, aborted);
    case TakeJob => TakeJobPlan(s);
    case Register => RegisterPlan(s);
    case StartSession => StartedPlan(s, Begin);
    case Reject => StartedPlan(s, PostForce);
    case ContinueAccept => ContinuePlan(s);
  }

  lemma ContinuePlan(s: Server)
    requires Plan(s) && s.pos.NextAccept?
    ensures Plan(AfterAccept(s, ContinueAccept))
  {
    SettledMove(s, AtRest);
  }

  lemma RegisterPlan(s: Server)
    requires Plan(s) && s.pos.Registering?
    ensures Plan(AfterAccept(s, Register))
  {
    var c := s.pos.c;
    if s.stopRequested || |s.sessions| >= s.maxConnections {
      RejectedPlan(s, c);
    } else {
      RegisteredPlan(s, c);
    }
  }

  lemma RejectedPlan(s: Server, c: nat)
    requires Plan(s) && s.pos == Registering(c)
    ensures Plan(s.(pos := Rejecting(c)))
  {
    assert s.requester.StopPosted? ==> StopQueued(s);
    assert forall d :: PosAt(s.pos, d) <==> PosAt(Rejecting(c), d);
  }

  lemma RegisteredPlan(s: Server, c: nat)
    requires Plan(s) && s.pos == Registering(c)
    ensures Plan(s.(sessions := s.sessions + {c}, pos := Starting(c)))
  {
    assert s.requester.StopPosted? ==> StopQueued(s);
    assert forall d :: PosAt(s.pos, d) <==> PosAt(Starting(c), d);
  }

  /** The admitted connection is started, or condemned. */
  lemma StartedPlan(s: Server, e: SessionEvent)
    requires Plan(s) && SessionsOk(s) && PosOk(s)
    requires (s.pos.Starting? && e == Begin) || (s.pos.Rejecting? && e == PostForce)
    requires CanTouch(s, s.pos.c, e)
    ensures Plan(Touched(s, s.pos.c, e).(pos := NextAccept))
  {
    var k := TouchSwaps(s, s.pos.c, e);
    SwapKeepsPlan(s, s.pos.c, k);
    assert s.requester.StopPosted? ==> StopQueued(s);
    MoveKeepsPlan(s.(conns := s.conns[s.pos.c := k]), NextAccept);
  }

  /** The timer is cancelled only when no session is left. */
  lemma TimerPlan(s: Server, aborted: bool)
    requires Plan(s) && CompletionOk(s) && s.timer && (aborted ==> s.completionStarted)
    ensures Plan(s.(timer := false, queue := s.queue + [Deadline(aborted)]))
  {
    if aborted && Closing(s) {
      NoneLeft(s);
    }
  }

  lemma NoneLeft(s: Server)
    requires Covered(s) && !Admitting(s.pos) && s.sessions == {}
    ensures AllCondemned(s)
  {
  }

  lemma StopPlan(s: Server, e: Event)
    requires Plan(s) && SessionsOk(s) && StopEvent(e) && StopEnabled(s, e)
    ensures Plan(AfterStop(s, e))
  {
    match e
    case TakeSnapshot => SnapshotPlan(s);
    case SetDrainFlag(c) => FlagPlan(s, c);
    case PostDrainJob => DrainJobPlan(s);
    case EndDraining =>
    case ReadFlags => SettledMove(s, AfterStop(s, e).pos);
    case CheckSessions => CheckPlan(s);
    case TakeForceSnapshot => ForceSnapshotPlan(s);
    case ForceOne(c) => ForceOnePlan(s, c);
    case EndForcing => MoveKeepsPlan(s, TryFlags);
  }

  /** No pass over the sessions is under way. */
  predicate Settled(p: AcceptPos) { p.AtRest? || p.NextAccept? || p.TryFlags? || p.TrySessions? }

  lemma SettledMove(s: Server, q: AcceptPos)
    requires Plan(s) && Settled(s.pos) && Settled(q)
    ensures Plan(s.(pos := q))
  {
  }

  lemma CheckPlan(s: Server)
    requires Plan(s) && s.pos.TrySessions?
    ensures Plan(AfterStop(s, CheckSessions))
  {
    SettledMove(s, AtRest);
    if s.sessions == {} {
      CompletedPlan(s.(pos := AtRest));
    }
  }

  lemma CompletedPlan(s: Server)
    requires Plan(s)
    ensures Plan(s.(completionStarted := true, guard := false, guardReleases := s.guardReleases + 1))
  {
  }

  lemma SnapshotPlan(s: Server)
    requires Plan(s) && s.pos.Snapshot?
    ensures Plan(s.(pos := Draining(s.sessions, s.sessions != {})))
  {
    if s.sessions == {} {
      NoneLeft(s);
    }
  }

  lemma FlagPlan(s: Server, c: nat)
    requires Plan(s) && SessionsOk(s) && StopEnabled(s, SetDrainFlag(c))
    ensures Plan(AfterStop(s, SetDrainFlag(c)))
  {
    var k := TouchSwaps(s, c, Flag);
    SwapKeepsPlan(s, c, k);
    FlaggedPlan(s.(conns := s.conns[c := k]), c);
  }

  lemma FlaggedPlan(t: Server, c: nat)
    requires Plan(t) && t.pos.Draining? && c in t.pos.todo && c < |t.conns| && t.conns[c].session.drain
    ensures Plan(t.(pos := Flagged(c, t.pos.todo - {c}, t.pos.some)))
  {
    assert (t.pos.todo - {c}) + {c} == t.pos.todo;
  }

  lemma DrainJobPlan(s: Server)
    requires Plan(s) && SessionsOk(s) && StopEnabled(s, PostDrainJob)
    ensures Plan(AfterStop(s, PostDrainJob))
  {
    var k := TouchSwaps(s, s.pos.c, PostDrain);
    SwapKeepsPlan(s, s.pos.c, k);
    DrainPostedPlan(s.(conns := s.conns[s.pos.c := k]), s.pos.c);
  }

  lemma DrainPostedPlan(t: Server, c: nat)
    requires Plan(t) && t.pos.Flagged? && t.pos.c == c < |t.conns| && Asked(t.conns[c].session)
    ensures Plan(t.(pos := Draining(t.pos.todo, t.pos.some)))
  {
    assert AskedBut(t, t.pos.todo + {c});
    assert AskedBut(t, t.pos.todo);
  }

  lemma ForceSnapshotPlan(s: Server)
    requires Plan(s) && s.pos.ForceSnapshot?
    ensures Plan(s.(pos := Forcing(s.sessions)))
  {
  }

  lemma ForceOnePlan(s: Server, c: nat)
    requires Plan(s) && SessionsOk(s) && StopEnabled(s, ForceOne(c))
    ensures Plan(AfterStop(s, ForceOne(c)))
  {
    var k := TouchSwaps(s, c, PostForce);
    SwapKeepsPlan(s, c, k);
    ForcedPlan(s.(conns := s.conns[c := k]), c);
  }

  lemma ForcedPlan(t: Server, c: nat)
    requires Plan(t) && t.pos.Forcing? && c < |t.conns| && Condemned(t.conns[c].session)
    ensures Plan(t.(pos := Forcing(t.pos.todo - {c})))
  {
    assert CondemnedBut(t, t.pos.todo - {c});
  }

  lemma PostStopPlan(s: Server)
    requires Plan(s)
    ensures Plan(s.(queue := s.queue + [StopOnIo], requester := StopPosted))
  {
    assert (s.queue + [StopOnIo])[|s.queue|] == StopOnIo;
  }

  lemma OtherThreadPlan(s: Server, e: Event)
    requires Plan(s) && ThreadEnabled(s, e) && !e.JoinIo? && !e.PostStop? && !e.PostFinalTry?
    ensures Plan(AfterThread(s, e))
  {
    assert AfterThread(s, e).conns == s.conns && AfterThread(s, e).queue == s.queue;
  }

  lemma FinalTryPlan(s: Server)
    requires Plan(s)
    ensures Plan(s.(queue := s.queue + [TryComplete], waiter := JoiningIo))
  {
    QueueKeepsPlan(s, TryComplete);
  }

  lemma JoinIoPlan(s: Server)
    requires Plan(s) && CompletionOk(s) && s.completionStarted
    ensures Plan(s.(sessions := {}, waiter := IoDone))
  {
    FewerKeepsPlan(s, {});
  }

  lemma ThreadPlan(s: Server, e: Event)
    requires Plan(s) && CompletionOk(s) && ThreadEnabled(s, e)
    ensures Plan(AfterThread(s, e))
  {
    if e.JoinIo? {
      JoinIoPlan(s);
    } else if e.PostStop? {
      PostStopPlan(s);
    } else if e.PostFinalTry? {
      FinalTryPlan(s);
    } else {
      OtherThreadPlan(s, e);
    }
  }

  // Whole runs

  lemma StepPlan(s: Server, e: Event)
    requires Plan(s) && Inv(s) && Enabled(s, e)
    ensures Plan(After(s, e))
  {
    if AcceptEvent(e) {
      AcceptPlan(s, e);
    } else if StopEvent(e) {
      StopPlan(s, e);
    } else if SessionStrandEvent(e) {
      SessionPlan(s, e);
    } else {
      ThreadPlan(s, e);
    }
  }

  lemma {:induction false} RunPlan(ss: seq<Server>, es: seq<Event>, n: nat)
    requires Run(ss, es) && n < |ss|
    ensures Plan(ss[n])
  {
    if n == 0 {
      InitPlan(ss[0]);
    } else {
      RunPlan(ss, es, n - 1);
      RunInv(ss, es, n - 1);
      StepPlan(ss[n - 1], es[n - 1]);
    }
  }

  /** When draining ends, every registered session has been asked to drain: it begins no
      further read, and if it was waiting for a request its handler is on the strand. */
  lemma AllAreAsked(ss: seq<Server>, es: seq<Event>, n: nat, c: nat)
    requires Run(ss, es) && n < |es| && es[n].EndDraining? && c in ss[n].sessions
    ensures c < |ss[n].conns|
    ensures var x := ss[n].conns[c].session; x.drain && (x.st.Reading? ==> Drain in x.jobs)
  {
    RunInv(ss, es, n);
    RunPlan(ss, es, n);
  }

  /** When the forced closing after the grace period ends, every connection ever accepted, and
      so every session registered at the deadline, has its socket closed or the handler that
      closes it on its strand. */
  lemma AllAreCondemned(ss: seq<Server>, es: seq<Event>, n: nat, c: nat)
    requires Run(ss, es) && n < |es| && es[n].EndForcing? && c < |ss[n].conns|
    ensures var x := ss[n].conns[c].session; x.open ==> ForceClose in x.jobs
  {
    RunPlan(ss, es, n);
  }

  /** No condemned connection is spared. */
  ghost predicate NoneSpared(s: Server, t: Server) {
    |s.conns| <= |t.conns| &&
    forall c :: 0 <= c < |s.conns| && Condemned(s.conns[c].session) ==> Condemned(t.conns[c].session)
  }

  lemma SwapSparesNone(s: Server, c: nat, k: Conn, t: Server)
    requires Swaps(s, c, k) && t.conns == s.conns[c := k]
    ensures NoneSpared(s, t)
  {
  }

  lemma TouchSparesNone(s: Server, c: nat, e: SessionEvent, t: Server)
    requires SessionsOk(s) && RemovalsClosed(s) && CanTouch(s, c, e) && t.conns == Touched(s, c, e).conns
    ensures NoneSpared(s, t)
  {
    var k := TouchSwaps(s, c, e);
    SwapSparesNone(s, c, k, t);
  }

  lemma AcceptSparesNone(s: Server, e: Event)
    requires SessionsOk(s) && RemovalsClosed(s) && AcceptEvent(e) && AcceptEnabled(s, e)
    ensures NoneSpared(s, AfterAccept(s, e))
  {
    if e.StartSession? {
      TouchSparesNone(s, s.pos.c, Begin, AfterAccept(s, e));
    } else if e.Reject? {
      TouchSparesNone(s, s.pos.c, PostForce, AfterAccept(s, e));
    } else if e.TakeJob? {
      TakenSparesNone(s);
    } else {
      assert AfterAccept(s, e).conns == s.conns;
    }
  }

  lemma TakenSparesNone(s: Server)
    requires s.pos.AtRest? && s.queue != []
    ensures NoneSpared(s, JobTaken(s.(queue := s.queue[1..]), s.queue[0]))
  {
    var p := s.(queue := s.queue[1..]);
    TakenOnlyMore(p, s.queue[0]);
    MoreSparesNone(p, JobTaken(p, s.queue[0]));
  }

  lemma TakenOnlyMore(p: Server, j: AcceptJob)
    ensures p.conns <= JobTaken(p, j).conns
  {
    if j.Accepted? && !p.stopRequested {
      assert JobTaken(p, j).conns == p.conns + [Conn(FreshSession, NoRemoval)];
    } else {
      assert JobTaken(p, j).conns == p.conns;
    }
  }

  lemma MoreSparesNone(s: Server, t: Server)
    requires s.conns <= t.conns
    ensures NoneSpared(s, t)
  {
    assert forall c :: 0 <= c < |s.conns| ==> t.conns[c] == s.conns[c];
  }

  lemma StopSparesNone(s: Server, e: Event)
    requires SessionsOk(s) && RemovalsClosed(s) && StopEvent(e) && StopEnabled(s, e)
    ensures NoneSpared(s, AfterStop(s, e))
  {
    if e.SetDrainFlag? {
      TouchSparesNone(s, e.c, Flag, AfterStop(s, e));
    } else if e.PostDrainJob? {
      TouchSparesNone(s, s.pos.c, PostDrain, AfterStop(s, e));
    } else if e.ForceOne? {
      TouchSparesNone(s, e.c, PostForce, AfterStop(s, e));
    }
  }

  lemma RunSparesNone(s: Server, c: nat, accepted: bool)
    requires SessionsOk(s) && SessionEnabled(s, SessionRuns(c, accepted))
    ensures NoneSpared(s, AfterSession(s, SessionRuns(c, accepted)))
  {
    var k := RunSwaps(s, c, accepted);
    SwapSparesNone(s, c, k, s.(conns := s.conns[c := k]));
  }

  lemma RemovalSparesNone(s: Server, e: Event)
    requires SessionStrandEvent(e) && SessionEnabled(s, e) && !e.SessionCompletes? && !e.SessionRuns?
    ensures NoneSpared(s, AfterSession(s, e))
  {
    var t := AfterSession(s, e);
    assert |t.conns| == |s.conns| && forall d :: 0 <= d < |s.conns| ==> t.conns[d].session == s.conns[d].session;
  }

  lemma SessionSparesNone(s: Server, e: Event)
    requires SessionsOk(s) && RemovalsClosed(s) && SessionStrandEvent(e) && SessionEnabled(s, e)
    ensures NoneSpared(s, AfterSession(s, e))
  {
    if e.SessionCompletes? {
      TouchSparesNone(s, e.c, e.e, AfterSession(s, e));
    } else if e.SessionRuns? {
      RunSparesNone(s, e.c, e.accepted);
    } else {
      RemovalSparesNone(s, e);
    }
  }

  lemma StepSparesNone(s: Server, e: Event)
    requires SessionsOk(s) && RemovalsClosed(s) && Enabled(s, e)
    ensures NoneSpared(s, After(s, e))
  {
    if AcceptEvent(e) {
      AcceptSparesNone(s, e);
    } else if StopEvent(e) {
      StopSparesNone(s, e);
    } else if SessionStrandEvent(e) {
      SessionSparesNone(s, e);
    }
  }

  ghost predicate NeverSpares(ss: seq<Server>) {
    forall i, j :: 0 <= i && j == i + 1 < |ss| ==> NoneSpared(ss[i], ss[j])
  }

  lemma {:induction false} CondemnedOn(ss: seq<Server>, m: nat, n: nat, c: nat)
    requires NeverSpares(ss) && m <= n < |ss| && c < |ss[m].conns| && Condemned(ss[m].conns[c].session)
    ensures c < |ss[n].conns| && Condemned(ss[n].conns[c].session)
  {
    if m < n {
      CondemnedOn(ss, m, n - 1, c);
      assert NoneSpared(ss[n - 1], ss[n]);
    }
  }

  /** And that stays so. */
  lemma CondemnedForGood(ss: seq<Server>, es: seq<Event>, m: nat, n: nat, c: nat)
    requires Run(ss, es) && m <= n < |ss| && c < |ss[m].conns| && Condemned(ss[m].conns[c].session)
    ensures c < |ss[n].conns| && Condemned(ss[n].conns[c].session)
  {
    forall i, j | 0 <= i && j == i + 1 < |ss|
      ensures NoneSpared(ss[i], ss[j])
    {
      RunInv(ss, es, i);
      RunPlan(ss, es, i);
      StepSparesNone(ss[i], es[i]);
    }
    CondemnedOn(ss, m, n, c);
  }

  /** The client of some connection, or one that connects, has to do something. */
  predicate NeedsClient(s: Server, e: Event)
    requires Enabled(s, e)
  {
    || (e.SessionCompletes? && (e.e.ReadCompletes? || e.e.WriteCompletes?) && s.conns[e.c].session.open)
    || (e.AcceptCompletes? && s.acceptorOpen)
  }

  /** From the stop request on, until the wait is over, the server can always take a step for
      which it needs no client: a step of its own threads and timer, the end of a request in
      the pool, or the failure of an operation on a socket it has closed. */
  lemma StopNeedsNoClient(ss: seq<Server>, es: seq<Event>, n: nat) returns (e: Event)
    requires Run(ss, es) && n < |ss| && ss[n].stopRequested && !ss[n].waiter.IoDone?
    ensures Enabled(ss[n], e) && !NeedsClient(ss[n], e)
  {
    RunInv(ss, es, n);
    RunPlan(ss, es, n);
    var s := ss[n];
    match s.requester
    case StopSet => e := TellExecutor;
    case ExecutorTold => e := PostStop;
    case StopPosted => e := OwnMove(s);
  }

  lemma OwnMove(s: Server) returns (e: Event)
    requires Inv(s) && Plan(s) && s.requester.StopPosted? && !s.waiter.IoDone?
    ensures Enabled(s, e) && !NeedsClient(s, e)
  {
    match s.waiter
    case NotWaiting => e := BeginWait;
    case ExecutorJoined => e := StoreDrained;
    case DrainedStored => e := PostFinalTry;
    case JoiningExecutor => e := PoolMove(s);
    case JoiningIo =>
      if IoQuiet(s) {
        QuietIsReleased(s);
        e := JoinIo;
      } else {
        e := OwnIoMove(s);
      }
  }

  lemma QuietIsReleased(s: Server)
    requires Inv(s) && s.waiter.JoiningIo? && IoQuiet(s)
    ensures Enabled(s, JoinIo)
  {
    forall c | c in s.sessions
      ensures false
    {
      RegisteredIsBusy(s, c);
    }
    assert s.sessions == {};
  }

  lemma OwnIoMove(s: Server) returns (e: Event)
    requires PosOk(s) && Plan(s) && s.requester.StopPosted? && !IoQuiet(s)
    ensures Enabled(s, e) && !NeedsClient(s, e)
  {
    if !s.pos.AtRest? {
      e := AcceptMove(s);
    } else if s.queue != [] {
      e := TakeJob;
    } else if s.timer {
      e := TimerFires(false);
    } else if s.accepting {
      e := AcceptCompletes(false);
    } else {
      e := OwnSessionMove(s);
    }
  }

  /** With nothing queued and no timer armed every connection is condemned: what is left to
      happen needs no client. */
  lemma OwnSessionMove(s: Server) returns (e: Event)
    requires Plan(s) && s.requester.StopPosted? && !IoQuiet(s)
    requires s.pos.AtRest? && s.queue == [] && !s.timer && !s.accepting
    ensures Enabled(s, e) && !NeedsClient(s, e)
  {
    assert AllCondemned(s);
    var c: nat :| c < |s.conns| && !(var k := s.conns[c];
      k.removal.NoRemoval? && k.session.jobs == [] && !k.session.reading && !k.session.writing);
    e := SessionMove(s, c);
  }

  // Until the stop

  /** Somebody is on the way to accept the next connection. */
  predicate Listening(s: Server) {
    s.acceptorOpen &&
    (s.accepting || Accepted in s.queue || AcceptFailed in s.queue || Admitting(s.pos) || s.pos.NextAccept?)
  }

  lemma QueueListens(s: Server, j: AcceptJob)
    requires Listening(s)
    ensures Listening(s.(queue := s.queue + [j]))
  {
  }

  lemma AcceptListens(s: Server, e: Event)
    requires Listening(s) && FlagsOk(s) && !s.stopRequested && AcceptEvent(e) && AcceptEnabled(s, e)
    ensures Listening(AfterAccept(s, e))
  {
    match e
    case AcceptCompletes(ok) => CompletedListens(s, ok);
    case TimerFires(aborted) => QueueListens(s.(timer := false), Deadline(aborted));
    case TakeJob => TakenListens(s);
    case Register =>
    case StartSession =>
    case Reject =>
    case ContinueAccept =>
  }

  lemma CompletedListens(s: Server, ok: bool)
    requires s.acceptorOpen
    ensures Listening(s.(accepting := false, queue := s.queue + [if ok then Accepted else AcceptFailed]))
  {
    var j := if ok then Accepted else AcceptFailed;
    assert (s.queue + [j])[|s.queue|] == j;
  }

  lemma TakenListens(s: Server)
    requires Listening(s) && FlagsOk(s) && !s.stopRequested && s.queue != [] && s.pos.AtRest?
    ensures Listening(JobTaken(s.(queue := s.queue[1..]), s.queue[0]))
  {
    var j := s.queue[0];
    assert s.queue == [j] + s.queue[1..];
    assert !j.StopOnIo? && !j.Deadline?;
  }

  lemma StepListens(s: Server, e: Event)
    requires Listening(s) && FlagsOk(s) && !s.stopRequested && Enabled(s, e)
    ensures Listening(After(s, e))
  {
    if AcceptEvent(e) {
      AcceptListens(s, e);
    } else if StopEvent(e) {
      StopListens(s, e);
    } else if SessionStrandEvent(e) {
      SessionListens(s, e);
    }
  }

  lemma StopListens(s: Server, e: Event)
    requires Listening(s) && StopEvent(e) && StopEnabled(s, e)
    ensures Listening(AfterStop(s, e))
  {
    var t := AfterStop(s, e);
    assert t.acceptorOpen == s.acceptorOpen && t.accepting == s.accepting && t.queue == s.queue;
  }

  lemma SessionListens(s: Server, e: Event)
    requires Listening(s) && SessionStrandEvent(e) && SessionEnabled(s, e)
    ensures Listening(AfterSession(s, e))
  {
    if e.PostTry? {
      QueueListens(s, TryComplete);
    } else {
      SessionLeavesQueue(s, e);
    }
  }

  lemma SessionLeavesQueue(s: Server, e: Event)
    requires SessionStrandEvent(e) && SessionEnabled(s, e) && !e.PostTry?
    ensures var t := AfterSession(s, e);
      && t.acceptorOpen == s.acceptorOpen && t.accepting == s.accepting
      && t.queue == s.queue && t.pos == s.pos
  {
    if e.SessionCompletes? {
      assert AfterSession(s, e) == Touched(s, e.c, e.e);
    } else if e.SessionRuns? {
      AfterRunning(s, e.c, e.accepted);
    }
  }

  /** Until a stop is requested the server listens: an accept is under way, or its handler is
      queued or running and will begin the next one. */
  lemma {:induction false} ListensUntilStopped(ss: seq<Server>, es: seq<Event>, n: nat)
    requires Run(ss, es) && n < |ss| && !ss[n].stopRequested
    ensures Listening(ss[n])
  {
    if n > 0 {
      RunInv(ss, es, n - 1);
      StopStays(ss, es, n);
      ListensUntilStopped(ss, es, n - 1);
      StepListens(ss[n - 1], es[n - 1]);
    }
  }

  lemma StopStays(ss: seq<Server>, es: seq<Event>, n: nat)
    requires Run(ss, es) && 0 < n < |ss| && !ss[n].stopRequested
    ensures !ss[n - 1].stopRequested
  {
    if ss[n - 1].stopRequested {
      StopIsKept(ss[n - 1], es[n - 1]);
    }
  }
}

/**
 One HTTP connection. All handlers of a session run on its strand, one at a time and in
 the order they were posted; between them the network completes reads and writes, a pool
 worker finishes the request, and the server asks for draining or closing.
 */
module SessionModel {

  datatype SessionState = Reading | Handling | Writing | Closed

  /** How an asynchronous read ends: with a request, with bytes that are answered by an
      error response (limits, malformed request), or with a plain error. */
  datatype ReadResult = ReadOk(keepAlive: bool) | ReadRejected | ReadFailed

  /** What can wait on a session's strand. */
  datatype Job = BeginRead | Drain | ForceClose | Respond | ReadDone(r: ReadResult) | WriteDone(ok: bool)

  /** The session's fields; `callback` says that the close handler was not used yet, `open`
      that the socket was not closed. `jobs` is the strand; `reading`, `writing` and `task`
      are the operations outstanding outside it. `started`, `answers`, `announced` and
      `closings` record history: requests answered, a response announcing close begun, and
      uses of the close handler. */
  datatype Session = Session(
    st: SessionState,
    count: nat,
    keepAlive: bool,
    closeAfter: bool,
    drain: bool,
    callback: bool,
    open: bool,
    jobs: seq<Job>,
    reading: bool,
    writing: bool,
    task: bool,
    started: bool,
    answers: nat,
    announced: bool,
    closings: nat)

  const FreshSession := Session(Reading, 0, false, true, false, true, true, [], false, false, false, false, 0, false, 0)

  // The handlers, as functions

  function Close(s: Session): Session {
    if s.st.Closed? then s
    else s.(st := Closed, open := false, callback := false, closings := s.closings + if s.callback then 1 else 0)
  }

  function ReadRequest(s: Session): Session {
    if s.st.Closed? || s.drain then Close(s) else s.(st := Reading, reading := true)
  }

  predicate KeepsAlive(s: Session, force: bool, maxRequests: nat) {
    !force && !s.drain && s.keepAlive && s.count < maxRequests
  }

  function WriteResponse(s: Session, force: bool, maxRequests: nat): Session {
    if s.st.Closed? then s
    else
      var keep := KeepsAlive(s, force, maxRequests);
      s.(closeAfter := !keep, st := Writing, writing := true, announced := s.announced || !keep,
         answers := s.answers + if force then 0 else 1)
  }

  function Received(s: Session, keepAlive: bool): Session {
    s.(count := s.count + 1, keepAlive := keepAlive, st := Handling)
  }

  function Submitted(s: Session): Session { s.(task := true) }

  /** `accepted` is the answer of the worker pool to the submission. */
  function HandleRead(s: Session, r: ReadResult, accepted: bool, maxRequests: nat): Session {
    match r
    case ReadFailed => Close(s)
    case ReadRejected => WriteResponse(s.(keepAlive := false), true, maxRequests)
    case ReadOk(keepAlive) =>
      var s' := Received(s, keepAlive);
      if accepted then Submitted(s') else WriteResponse(s', false, maxRequests)
  }

  /** What becomes of a read: a request is counted and goes to the pool, or is answered at once
      if the pool refuses it; bad input is answered and ends the connection; an error ends it
      without an answer. */
  lemma ReadIs(s: Session, r: ReadResult, accepted: bool, maxRequests: nat)
    ensures var y := HandleRead(s, r, accepted, maxRequests);
      && y.count == s.count + (if r.ReadOk? then 1 else 0)
      && (r.ReadOk? ==> y.keepAlive == r.keepAlive && y.st == if accepted then Handling else Writing)
      && (r.ReadOk? ==> y.task == (s.task || accepted) && y.writing == (s.writing || !accepted))
      && (r.ReadRejected? && !s.st.Closed? ==> y.st.Writing? && y.writing && y.closeAfter)
      && (r.ReadFailed? ==> y.st.Closed? && y.writing == s.writing && y.task == s.task)
  {
    if r.ReadOk? {
      ReceivedIs(s, r.keepAlive, accepted, maxRequests);
      assert r == ReadOk(r.keepAlive);
    }
  }

  lemma ReceivedIs(s: Session, keepAlive: bool, accepted: bool, maxRequests: nat)
    ensures var y := HandleRead(s, ReadOk(keepAlive), accepted, maxRequests);
      && y.count == s.count + 1 && y.keepAlive == keepAlive && y.st == (if accepted then Handling else Writing)
      && y.task == (s.task || accepted) && y.writing == (s.writing || !accepted)
  {
  }

  /** A response keeps the connection alive exactly if it is not forced to end it, the session
      is not draining, the request asked for that and more requests are allowed. */
  lemma ResponseIs(s: Session, force: bool, maxRequests: nat)
    requires !s.st.Closed?
    ensures var y := WriteResponse(s, force, maxRequests);
      && y.st.Writing? && y.writing && y.count == s.count
      && (!y.closeAfter <==> !force && !s.drain && s.keepAlive && s.count < maxRequests)
      && (y.announced <==> s.announced || y.closeAfter)
      && y.answers == s.answers + (if force then 0 else 1)
  {
  }

  function HandleWrite(s: Session, ok: bool): Session {
    if !ok || s.closeAfter || s.drain then Close(s) else ReadRequest(s)
  }

  function HandleDrain(s: Session): Session {
    if s.st.Closed? then s
    else
      var s' := LastAnswer(s);
      if s.st.Reading? then Close(s') else s'
  }

  function LastAnswer(s: Session): Session { s.(closeAfter := true) }

  function RunJob(s: Session, j: Job, accepted: bool, maxRequests: nat): Session {
    match j
    case BeginRead => ReadRequest(s)
    case Drain => HandleDrain(s)
    case ForceClose => Close(s)
    case Respond => WriteResponse(s, false, maxRequests)
    case ReadDone(r) => HandleRead(s, r, accepted, maxRequests)
    case WriteDone(ok) => HandleWrite(s, ok)
  }

  // Everything that happens to a session

  datatype SessionEvent =
    | Begin
    | Flag
    | PostDrain
    | PostForce
    | ReadCompletes(r: ReadResult)
    | WriteCompletes(ok: bool)
    | TaskCompletes
    | RunNext(accepted: bool)

  /** `stopping`: the worker pool was told to stop, so it accepts nothing more. Draining and
      forced closing of a started session belong to that phase; a connection that was never
      started is closed at any time. A closed socket only completes with errors. */
  predicate CanHappen(s: Session, e: SessionEvent, stopping: bool) {
    match e
    case Begin => !s.started && s.jobs == [] && !s.st.Closed?
    case Flag => stopping
    case PostDrain => stopping
    case PostForce => stopping || !s.started
    case ReadCompletes(r) => s.reading && (s.open || r.ReadFailed?)
    case WriteCompletes(ok) => s.writing && (s.open || !ok)
    case TaskCompletes => s.task
    case RunNext(accepted) => s.jobs != [] && (accepted ==> !stopping)
  }

  function Happened(s: Session, e: SessionEvent, stopping: bool, maxRequests: nat): Session
    requires CanHappen(s, e, stopping)
  {
    match e
    case Begin => s.(started := true, jobs := s.jobs + [BeginRead])
    case Flag => s.(drain := true)
    case PostDrain => s.(jobs := s.jobs + [Drain])
    case PostForce => s.(jobs := s.jobs + [ForceClose])
    case ReadCompletes(r) => s.(reading := false, jobs := s.jobs + [ReadDone(r)])
    case WriteCompletes(ok) => s.(writing := false, jobs := s.jobs + [WriteDone(ok)])
    case TaskCompletes => s.(task := false, jobs := s.jobs + [Respond])
    case RunNext(accepted) => RunJob(s.(jobs := s.jobs[1..]), s.jobs[0], accepted, maxRequests)
  }

  // The protocol

  predicate IsToken(j: Job) { !j.Drain? && !j.ForceClose? }

  predicate IsReadJob(j: Job) { j.BeginRead? || j.ReadDone? }

  /** A strand job belongs to the state the session was in when it was posted, unless the
      session has been closed in between. */
  predicate Fits(s: Session, j: Job) {
    match j
    case BeginRead => s.st.Reading? || s.st.Closed?
    case ReadDone(_) => s.st.Reading? || s.st.Closed?
    case Respond => s.st.Handling? || s.st.Closed?
    case WriteDone(_) => s.st.Writing? || s.st.Closed?
    case _ => true
  }

  predicate HasToken(s: Session) {
    exists i :: 0 <= i < |s.jobs| && IsToken(s.jobs[i])
  }

  predicate Outstanding(s: Session) { s.reading || s.writing || s.task }

  /** Something is still going to happen to the session. */
  predicate Alive(s: Session) { HasToken(s) || Outstanding(s) }

  /** At most one continuation exists at any time: one strand job or one operation. */
  ghost predicate OneToken(s: Session) {
    && (forall i, j :: 0 <= i < |s.jobs| && 0 <= j < |s.jobs| && IsToken(s.jobs[i]) && IsToken(s.jobs[j]) ==> i == j)
    && (HasToken(s) ==> !Outstanding(s))
    && !(s.reading && s.writing) && !(s.reading && s.task) && !(s.writing && s.task)
  }

  predicate ReadPending(s: Session) {
    s.reading || exists i :: 0 <= i < |s.jobs| && IsReadJob(s.jobs[i])
  }

  predicate AnswerPending(s: Session) {
    s.task || exists i :: 0 <= i < |s.jobs| && s.jobs[i].Respond?
  }

  ghost predicate StateFits(s: Session) {
    && (forall i :: 0 <= i < |s.jobs| ==> Fits(s, s.jobs[i]))
    && (s.reading ==> s.st.Reading? || s.st.Closed?)
    && (s.task ==> s.st.Handling? || s.st.Closed?)
    && (s.writing ==> s.st.Writing? || s.st.Closed?)
    && (s.started && !s.st.Closed? ==> Alive(s))
    && (!s.started ==> !Alive(s) && (s.st.Reading? || s.st.Closed?) && !s.announced && s.count == 0)
  }

  ghost predicate CountsOk(s: Session, maxRequests: nat) {
    && s.count <= maxRequests
    && (ReadPending(s) || !s.started ==> s.count < maxRequests)
    && (s.st.Writing? && !s.closeAfter ==> s.count < maxRequests)
    && (s.announced ==> s.closeAfter && !ReadPending(s) && !s.st.Reading? && !s.st.Handling?)
    && s.answers <= s.count
    && (AnswerPending(s) ==> s.answers < s.count)
    && (s.callback && !s.st.Closed? ==> s.answers == if s.st.Handling? then s.count - 1 else s.count)
  }

  ghost predicate CloseOk(s: Session, stopping: bool) {
    && s.closings == (if s.callback then 0 else 1)
    && (s.st.Closed? ==> !s.callback)
    && (!s.callback ==> !s.open)
    && (!s.callback && !s.st.Closed? ==> s.st.Writing? && stopping)
    && (!s.callback && !s.st.Closed? ==> forall i :: 0 <= i < |s.jobs| && s.jobs[i].WriteDone? ==> !s.jobs[i].ok)
    && (!s.callback && ReadPending(s) ==> stopping)
    && (forall i :: 0 <= i < |s.jobs| && s.jobs[i].Drain? ==> stopping)
    && (forall i :: 0 <= i < |s.jobs| && s.jobs[i].ForceClose? ==> stopping || !s.started)
  }

  ghost predicate SessionOk(s: Session, stopping: bool, maxRequests: nat) {
    OneToken(s) && StateFits(s) && CountsOk(s, maxRequests) && CloseOk(s, stopping)
  }

  lemma FreshOk(stopping: bool, maxRequests: nat)
    requires maxRequests > 0
    ensures SessionOk(FreshSession, stopping, maxRequests)
  {
  }

  predicate Completion(e: SessionEvent) {
    e.ReadCompletes? || e.WriteCompletes? || e.TaskCompletes?
  }

  lemma CompletionKeepsOk(s: Session, e: SessionEvent, stopping: bool, maxRequests: nat)
    requires SessionOk(s, stopping, maxRequests) && CanHappen(s, e, stopping) && Completion(e)
    ensures SessionOk(Happened(s, e, stopping, maxRequests), stopping, maxRequests)
  {
    var s' := Happened(s, e, stopping, maxRequests);
    var n := |s.jobs|;
    assert s'.jobs[n] == s'.jobs[|s'.jobs| - 1];
    assert forall i :: 0 <= i < n ==> s'.jobs[i] == s.jobs[i];
  }

  function Posted(s: Session, j: Job): Session { s.(jobs := s.jobs + [j]) }

  /** A job that continues nothing changes nothing of what is pending. */
  lemma PostPending(s: Session, j: Job)
    requires !IsToken(j)
    ensures HasToken(Posted(s, j)) == HasToken(s) && ReadPending(Posted(s, j)) == ReadPending(s)
    ensures AnswerPending(Posted(s, j)) == AnswerPending(s)
  {
    var s' := Posted(s, j);
    assert forall i :: 0 <= i < |s.jobs| ==> s'.jobs[i] == s.jobs[i];
  }

  lemma PostFits(s: Session, j: Job)
    requires OneToken(s) && StateFits(s) && !IsToken(j)
    ensures OneToken(Posted(s, j)) && StateFits(Posted(s, j))
  {
    PostPending(s, j);
  }

  lemma PostCounts(s: Session, j: Job, stopping: bool, maxRequests: nat)
    requires CountsOk(s, maxRequests) && CloseOk(s, stopping) && !IsToken(j)
    requires stopping || (j.ForceClose? && !s.started)
    ensures CountsOk(Posted(s, j), maxRequests) && CloseOk(Posted(s, j), stopping)
  {
    PostPending(s, j);
  }

  lemma PostKeepsOk(s: Session, e: SessionEvent, stopping: bool, maxRequests: nat)
    requires SessionOk(s, stopping, maxRequests) && CanHappen(s, e, stopping) && (e.PostDrain? || e.PostForce?)
    ensures SessionOk(Happened(s, e, stopping, maxRequests), stopping, maxRequests)
  {
    var j := if e.PostDrain? then Drain else ForceClose;
    PostFits(s, j);
    PostCounts(s, j, stopping, maxRequests);
  }

  lemma BeginKeepsOk(s: Session, e: SessionEvent, stopping: bool, maxRequests: nat)
    requires SessionOk(s, stopping, maxRequests) && CanHappen(s, e, stopping) && (e.Begin? || e.Flag?)
    ensures SessionOk(Happened(s, e, stopping, maxRequests), stopping, maxRequests)
  {
    if e.Begin? {
      assert Happened(s, e, stopping, maxRequests).jobs[0] == BeginRead;
    }
  }

  /** What is left on the strand once its first job is taken. */
  lemma Popped(s: Session, stopping: bool, maxRequests: nat)
    requires SessionOk(s, stopping, maxRequests) && s.jobs != []
    ensures var p := s.(jobs := s.jobs[1..]);
      && (IsToken(s.jobs[0]) ==> !Alive(p) && !ReadPending(p) && !AnswerPending(p))
      && (!IsToken(s.jobs[0]) ==> SessionOk(p, stopping, maxRequests))
      && Remaining(p, stopping)
  {
    var p := s.(jobs := s.jobs[1..]);
    assert forall i :: 0 <= i < |p.jobs| ==> p.jobs[i] == s.jobs[i + 1];
    if !IsToken(s.jobs[0]) {
      assert forall i :: 1 <= i < |s.jobs| ==> s.jobs[i] == p.jobs[i - 1];
    }
  }

  /** The part of the protocol that does not depend on the running handler. */
  ghost predicate Remaining(p: Session, stopping: bool) {
    && (forall i :: 0 <= i < |p.jobs| && p.jobs[i].Drain? ==> stopping)
    && (forall i :: 0 <= i < |p.jobs| && p.jobs[i].ForceClose? ==> stopping || !p.started)
  }

  lemma RunKeepsOk(s: Session, accepted: bool, stopping: bool, maxRequests: nat)
    requires SessionOk(s, stopping, maxRequests) && CanHappen(s, RunNext(accepted), stopping)
    ensures SessionOk(Happened(s, RunNext(accepted), stopping, maxRequests), stopping, maxRequests)
  {
    Popped(s, stopping, maxRequests);
    var j := s.jobs[0];
    var p := s.(jobs := s.jobs[1..]);
    assert Fits(s, j);
    match j
    case BeginRead =>
      assert IsReadJob(s.jobs[0]);
      ReadRequestOk(p, stopping, maxRequests);
    case Drain => DrainOk(p, stopping, maxRequests);
    case ForceClose => ForceOk(p, stopping, maxRequests);
    case Respond =>
      assert s.jobs[0].Respond?;
      RespondOk(p, stopping, maxRequests);
    case ReadDone(r) =>
      assert IsReadJob(s.jobs[0]);
      HandleReadOk(p, r, accepted, stopping, maxRequests);
    case WriteDone(ok) => HandleWriteOk(p, ok, stopping, maxRequests);
  }

  /** A session whose only continuation has just been taken off the strand. */
  ghost predicate TokenTaken(p: Session, stopping: bool, maxRequests: nat) {
    && p.started && !Alive(p) && !ReadPending(p) && !AnswerPending(p) && Remaining(p, stopping)
    && p.count <= maxRequests && p.answers <= p.count
    && (p.announced ==> p.closeAfter && !p.st.Reading? && !p.st.Handling?)
    && p.closings == (if p.callback then 0 else 1)
    && (p.st.Closed? ==> !p.callback) && (!p.callback ==> !p.open)
    && (!p.callback && !p.st.Closed? ==> p.st.Writing? && stopping)
    && (p.callback ==> p.answers == if p.st.Handling? then p.count - 1 else p.count)
  }

  lemma ReadRequestOk(p: Session, stopping: bool, maxRequests: nat)
    requires TokenTaken(p, stopping, maxRequests) && p.count < maxRequests
    requires p.st.Reading? || p.st.Closed? || (p.st.Writing? && !p.announced && p.callback)
    ensures SessionOk(ReadRequest(p), stopping, maxRequests)
  {
  }

  lemma RespondOk(p: Session, stopping: bool, maxRequests: nat)
    requires TokenTaken(p, stopping, maxRequests)
    requires p.st.Handling? || p.st.Closed?
    requires p.answers < p.count
    ensures SessionOk(WriteResponse(p, false, maxRequests), stopping, maxRequests)
  {
  }

  lemma HandleReadOk(p: Session, r: ReadResult, accepted: bool, stopping: bool, maxRequests: nat)
    requires TokenTaken(p, stopping, maxRequests) && p.count < maxRequests
    requires p.st.Reading? || p.st.Closed?
    requires !p.announced && (accepted ==> !stopping) && (!p.callback ==> stopping)
    ensures SessionOk(HandleRead(p, r, accepted, maxRequests), stopping, maxRequests)
  {
  }

  lemma HandleWriteOk(p: Session, ok: bool, stopping: bool, maxRequests: nat)
    requires TokenTaken(p, stopping, maxRequests)
    requires p.st.Writing? || p.st.Closed?
    requires p.st.Writing? && !p.closeAfter ==> p.count < maxRequests
    requires p.st.Writing? && !p.callback ==> !ok
    ensures SessionOk(HandleWrite(p, ok), stopping, maxRequests)
  {
  }

  lemma DrainOk(p: Session, stopping: bool, maxRequests: nat)
    requires SessionOk(p, stopping, maxRequests) && stopping
    ensures SessionOk(HandleDrain(p), stopping, maxRequests)
  {
  }

  lemma ForceOk(p: Session, stopping: bool, maxRequests: nat)
    requires SessionOk(p, stopping, maxRequests) && (stopping || !p.started)
    ensures SessionOk(Close(p), stopping, maxRequests)
  {
  }

  lemma EventKeepsOk(s: Session, e: SessionEvent, stopping: bool, maxRequests: nat)
    requires SessionOk(s, stopping, maxRequests) && CanHappen(s, e, stopping)
    ensures SessionOk(Happened(s, e, stopping, maxRequests), stopping, maxRequests)
  {
    if e.RunNext? {
      RunKeepsOk(s, e.accepted, stopping, maxRequests);
    } else if Completion(e) {
      CompletionKeepsOk(s, e, stopping, maxRequests);
    } else if e.PostDrain? || e.PostForce? {
      PostKeepsOk(s, e, stopping, maxRequests);
    } else {
      BeginKeepsOk(s, e, stopping, maxRequests);
    }
  }

  // Whole lives of a session

  /** `stops[i]` says whether the worker pool had been told to stop when `es[i]` happened. */
  ghost predicate Life(ss: seq<Session>, es: seq<SessionEvent>, stops: seq<bool>, maxRequests: nat) {
    && maxRequests > 0 && |ss| == |es| + 1 && |stops| == |es|
    && ss[0] == FreshSession
    && (forall i, j :: 0 <= i <= j < |stops| && stops[i] ==> stops[j])
    && (forall i :: 0 <= i < |es| ==>
          CanHappen(ss[i], es[i], stops[i]) && ss[i + 1] == Happened(ss[i], es[i], stops[i], maxRequests))
  }

  lemma {:induction false} LifeOk(ss: seq<Session>, es: seq<SessionEvent>, stops: seq<bool>, maxRequests: nat, n: nat)
    requires Life(ss, es, stops, maxRequests) && n < |ss|
    ensures SessionOk(ss[n], n > 0 && stops[n - 1], maxRequests)
  {
    if n == 0 {
      FreshOk(false, maxRequests);
    } else {
      LifeOk(ss, es, stops, maxRequests, n - 1);
      StoppingOnlyHelps(ss[n - 1], n > 1 && stops[n - 2], stops[n - 1], maxRequests);
      EventKeepsOk(ss[n - 1], es[n - 1], stops[n - 1], maxRequests);
    }
  }

  /** At every moment of a session's life: it has read at most `maxRequests` requests and
      answered each at most once; while it handles a request, either the worker task or the
      posted response is outstanding, not both; the close handler was used at most once; and
      an open session is never without a continuation. */
  lemma SessionProtocol(ss: seq<Session>, es: seq<SessionEvent>, stops: seq<bool>, maxRequests: nat, n: nat)
    requires Life(ss, es, stops, maxRequests) && n < |ss|
    ensures var s := ss[n];
      && s.answers <= s.count <= maxRequests
      && s.closings <= 1
      && (s.st.Handling? ==> s.task != exists i :: 0 <= i < |s.jobs| && s.jobs[i].Respond?)
      && (s.started && !s.st.Closed? ==> Alive(s))
  {
    LifeOk(ss, es, stops, maxRequests, n);
    var s := ss[n];
    if s.st.Handling? && !s.task {
      var i :| 0 <= i < |s.jobs| && IsToken(s.jobs[i]);
      assert Fits(s, s.jobs[i]) && s.jobs[i].Respond?;
    }
  }

  lemma AnnouncedIsKept(s: Session, e: SessionEvent, stopping: bool, maxRequests: nat)
    requires SessionOk(s, stopping, maxRequests) && CanHappen(s, e, stopping) && s.announced
    ensures var s' := Happened(s, e, stopping, maxRequests); s'.announced && s'.count == s.count
  {
    if e.RunNext? {
      assert !IsReadJob(s.jobs[0]);
    }
  }

  /** Once a response announcing close has been begun, no further request is read (section
      9.6 of RFC 9112). */
  lemma {:induction false} NothingReadAfterClose(ss: seq<Session>, es: seq<SessionEvent>, stops: seq<bool>,
                                                 maxRequests: nat, m: nat, n: nat)
    requires Life(ss, es, stops, maxRequests) && m <= n < |ss| && ss[m].announced
    ensures ss[n].announced && ss[n].count == ss[m].count && !ReadPending(ss[n])
  {
    LifeOk(ss, es, stops, maxRequests, n);
    if m < n {
      NothingReadAfterClose(ss, es, stops, maxRequests, m, n - 1);
      LifeOk(ss, es, stops, maxRequests, n - 1);
      StoppingOnlyHelps(ss[n - 1], n > 1 && stops[n - 2], stops[n - 1], maxRequests);
      AnnouncedIsKept(ss[n - 1], es[n - 1], stops[n - 1], maxRequests);
    }
  }

  lemma StoppingOnlyHelps(s: Session, before: bool, now: bool, maxRequests: nat)
    requires SessionOk(s, before, maxRequests) && (before ==> now)
    ensures SessionOk(s, now, maxRequests)
  {
  }

  /** A closed session for which no read is pending. */
  predicate Over(s: Session) { s.st.Closed? && !ReadPending(s) }

  lemma OverIsKept(s: Session, e: SessionEvent, stopping: bool, maxRequests: nat)
    requires Over(s) && CanHappen(s, e, stopping)
    ensures var s' := Happened(s, e, stopping, maxRequests);
      Over(s') && s'.answers == s.answers && s'.count == s.count && (s'.writing ==> s.writing)
  {
    if e.RunNext? {
      assert !IsReadJob(s.jobs[0]);
      OverPopped(s);
      ClosedJobIs(s.(jobs := s.jobs[1..]), s.jobs[0], e.accepted, maxRequests);
    } else {
      OverPosted(s, e, stopping, maxRequests);
    }
  }

  lemma OverPopped(s: Session)
    requires Over(s) && s.jobs != []
    ensures Over(s.(jobs := s.jobs[1..]))
  {
    var p := s.(jobs := s.jobs[1..]);
    assert forall i :: 0 <= i < |p.jobs| ==> p.jobs[i] == s.jobs[i + 1];
  }

  lemma OverPosted(s: Session, e: SessionEvent, stopping: bool, maxRequests: nat)
    requires Over(s) && CanHappen(s, e, stopping) && !e.RunNext? && !e.Begin?
    ensures var s' := Happened(s, e, stopping, maxRequests);
      Over(s') && s'.answers == s.answers && s'.count == s.count && (s'.writing ==> s.writing)
  {
    var s' := Happened(s, e, stopping, maxRequests);
    assert forall i :: 0 <= i < |s.jobs| ==> s'.jobs[i] == s.jobs[i];
  }

  /** A closed session ignores every job but a completed read. */
  lemma ClosedJobIs(p: Session, j: Job, accepted: bool, maxRequests: nat)
    requires p.st.Closed? && !IsReadJob(j)
    ensures RunJob(p, j, accepted, maxRequests) == p
  {
    if j.WriteDone? {
      ClosedWriteIs(p, j.ok);
    }
  }

  lemma ClosedWriteIs(p: Session, ok: bool)
    requires p.st.Closed?
    ensures HandleWrite(p, ok) == p
  {
  }

  /** If a session is closed while the answer to a request is still to come, from the worker
      or on the strand, then for the rest of its life it stays closed, counts no answer,
      reads no request and begins no write: the late result is dropped. */
  lemma {:induction false} LateResultDropped(ss: seq<Session>, es: seq<SessionEvent>, stops: seq<bool>,
                                             maxRequests: nat, m: nat, n: nat)
    requires Life(ss, es, stops, maxRequests) && m <= n < |ss|
    requires ss[m].st.Closed? && AnswerPending(ss[m])
    ensures Over(ss[n]) && !ss[n].writing
    ensures ss[n].answers == ss[m].answers && ss[n].count == ss[m].count
  {
    if m == n {
      LifeOk(ss, es, stops, maxRequests, m);
      AnswerExcludesOthers(ss[m], m > 0 && stops[m - 1], maxRequests);
    } else {
      LateResultDropped(ss, es, stops, maxRequests, m, n - 1);
      OverIsKept(ss[n - 1], es[n - 1], stops[n - 1], maxRequests);
    }
  }

  lemma AnswerExcludesOthers(s: Session, stopping: bool, maxRequests: nat)
    requires SessionOk(s, stopping, maxRequests) && AnswerPending(s)
    ensures !ReadPending(s) && !s.writing
  {
    if !s.task {
      var i :| 0 <= i < |s.jobs| && s.jobs[i].Respond?;
      assert IsToken(s.jobs[i]);
    }
  }

  // A closed session can come back

  /** `HandleRead` does not test for a closed session. A handler moves a closed session to
      another state exactly when it delivers a request whose read had succeeded before the
      close. Even then the pool is already stopping: the session is left writing a refusal
      to its closed socket, and the close handler is not used again. */
  lemma ClosedReopensIff(ss: seq<Session>, es: seq<SessionEvent>, stops: seq<bool>, maxRequests: nat, n: nat)
    requires Life(ss, es, stops, maxRequests) && n < |es| && ss[n].st.Closed?
    ensures !ss[n + 1].st.Closed? <==> es[n].RunNext? && ss[n].jobs[0].ReadDone? && ss[n].jobs[0].r.ReadOk?
    ensures !ss[n + 1].st.Closed? ==>
      ss[n + 1].st.Writing? && !ss[n + 1].open && !ss[n + 1].task && ss[n + 1].closings == ss[n].closings == 1
  {
    LifeOk(ss, es, stops, maxRequests, n);
    StoppingOnlyHelps(ss[n], n > 0 && stops[n - 1], stops[n], maxRequests);
    ClosedStep(ss[n], es[n], stops[n], maxRequests);
  }

  lemma ClosedStep(s: Session, e: SessionEvent, stopping: bool, maxRequests: nat)
    requires SessionOk(s, stopping, maxRequests) && CanHappen(s, e, stopping) && s.st.Closed?
    ensures var s' := Happened(s, e, stopping, maxRequests);
      && (!s'.st.Closed? <==> e.RunNext? && s.jobs[0].ReadDone? && s.jobs[0].r.ReadOk?)
      && (!s'.st.Closed? ==> s'.st.Writing? && !s'.open && !s'.task && s'.closings == s.closings == 1)
  {
    if e.RunNext? && s.jobs[0].ReadDone? {
      Popped(s, stopping, maxRequests);
      assert IsReadJob(s.jobs[0]);
    }
  }

  lemma Lives(ss: seq<Session>, es: seq<SessionEvent>, stops: seq<bool>, maxRequests: nat, e: SessionEvent, stop: bool)
    returns (ss': seq<Session>, es': seq<SessionEvent>, stops': seq<bool>)
    requires Life(ss, es, stops, maxRequests) && CanHappen(ss[|es|], e, stop)
    requires es != [] && stops[|es| - 1] ==> stop
    ensures Life(ss', es', stops', maxRequests) && es' == es + [e] && stops' == stops + [stop]
    ensures ss' == ss + [Happened(ss[|es|], e, stop, maxRequests)]
  {
    var next := Happened(ss[|es|], e, stop, maxRequests);
    ss', es', stops' := ss + [next], es + [e], stops + [stop];
    forall i | 0 <= i < |es'|
      ensures CanHappen(ss'[i], es'[i], stops'[i]) && ss'[i + 1] == Happened(ss'[i], es'[i], stops'[i], maxRequests)
    {
      if i < |es| {
        assert ss'[i] == ss[i] && ss'[i + 1] == ss[i + 1];
      } else {
        assert ss'[i] == ss[|es|] && ss'[i + 1] == next;
      }
    }
  }

  /** The request arrives while the drain is on the strand. */
  const ReadBehindDrain: Session :=
    FreshSession.(started := true, drain := true, jobs := [Drain, ReadDone(ReadOk(true))])

  lemma ReadArrivesBehindDrain() returns (ss: seq<Session>, es: seq<SessionEvent>, stops: seq<bool>)
    ensures Life(ss, es, stops, 1) && es != [] && stops[|es| - 1] && ss[|es|] == ReadBehindDrain
  {
    ss, es, stops := [FreshSession], [], [];
    ss, es, stops := Lives(ss, es, stops, 1, Begin, false);
    ss, es, stops := Lives(ss, es, stops, 1, RunNext(false), false);
    ss, es, stops := Lives(ss, es, stops, 1, Flag, true);
    ss, es, stops := Lives(ss, es, stops, 1, PostDrain, true);
    ss, es, stops := Lives(ss, es, stops, 1, ReadCompletes(ReadOk(true)), true);
  }

  /** A life in which it happens. */
  lemma ClosedSessionReopens() returns (ss: seq<Session>, es: seq<SessionEvent>, stops: seq<bool>)
    ensures Life(ss, es, stops, 1) && |es| > 0 && ss[|es| - 1].st.Closed? && !ss[|es|].st.Closed?
  {
    ss, es, stops := ReadArrivesBehindDrain();
    ss, es, stops := Lives(ss, es, stops, 1, RunNext(false), true);
    assert ss[|es|].jobs == [ReadDone(ReadOk(true))];
    ss, es, stops := Lives(ss, es, stops, 1, RunNext(false), true);
  }

}

/** The session's own code; each handler is proved to be the corresponding function. */
module SessionCode {
  import opened SessionModel

  datatype Submission = Accepted | Refused | Throws

  class HttpSession {
    const maxRequestsPerConnection: nat
    var state: SessionState
    var requestCount: nat
    var requestKeepAlive: bool
    var closeAfterResponse: bool
    var drainRequested: bool
    var closeHandlerPresent: bool
    var socketOpen: bool
    ghost var s: Session

    ghost predicate Valid()
      reads this
    {
      && s.st == state && s.count == requestCount && s.keepAlive == requestKeepAlive
      && s.closeAfter == closeAfterResponse && s.drain == drainRequested
      && s.callback == closeHandlerPresent && s.open == socketOpen
    }

    constructor (maxRequests: nat)
      ensures Valid() && s == FreshSession && maxRequestsPerConnection == maxRequests
    {
      maxRequestsPerConnection := maxRequests;
      state, requestCount, requestKeepAlive := Reading, 0, false;
      closeAfterResponse, drainRequested, closeHandlerPresent, socketOpen := true, false, true, true;
      s := FreshSession;
    }

    method ReadRequest()
      requires Valid()
      modifies this
      ensures Valid() && s == SessionModel.ReadRequest(old(s))
      ensures old(state) != Closed && !drainRequested ==> state == Reading && s.reading && socketOpen == old(socketOpen)
      ensures old(state) == Closed || drainRequested ==> state == Closed && s.reading == old(s).reading
    {
      if state == Closed || drainRequested {
        Close();
        return;
      }
      state := Reading;
      s := s.(st := Reading, reading := true);
    }

    /** `submission` is what becomes of the request, should it be submitted to the pool; one
        that throws is answered like one that is refused, with another status. */
    method HandleRead(result: ReadResult, submission: Submission)
      requires Valid()
      modifies this
      ensures Valid()
      ensures s == SessionModel.HandleRead(old(s), result, submission.Accepted?, maxRequestsPerConnection)
    {
      match result
      case ReadRejected =>
        requestKeepAlive := false;
        s := s.(keepAlive := false);
        WriteResponse(true);
      case ReadFailed =>
        Close();
      case ReadOk(keepAlive) =>
        Dispatch(keepAlive, submission);
    }

    method Dispatch(keepAlive: bool, submission: Submission)
      requires Valid()
      modifies this
      ensures Valid()
      ensures s == SessionModel.HandleRead(old(s), ReadOk(keepAlive), submission.Accepted?, maxRequestsPerConnection)
      ensures requestCount == old(requestCount) + 1 && requestKeepAlive == keepAlive
      ensures state == if submission.Accepted? then Handling else Writing
    {
      requestCount := requestCount + 1;
      requestKeepAlive := keepAlive;
      state := Handling;
      s := Received(s, keepAlive);
      if submission.Throws? {
        WriteResponse(false);
        return;
      }
      if submission.Refused? {
        WriteResponse(false);
        return;
      }
      s := Submitted(s);
    }

    method WriteResponse(forceClose: bool)
      requires Valid()
      modifies this
      ensures Valid() && s == SessionModel.WriteResponse(old(s), forceClose, maxRequestsPerConnection)
      ensures old(state) == Closed ==> s == old(s)
      ensures old(state) != Closed ==>
        && state == Writing && s.writing
        && (!closeAfterResponse <==>
              !forceClose && !drainRequested && requestKeepAlive && requestCount < maxRequestsPerConnection)
      ensures requestKeepAlive == old(requestKeepAlive) && requestCount == old(requestCount)
      ensures drainRequested == old(drainRequested)
    {
      if state == Closed {
        return;
      }
      var keepAlive := !forceClose && !drainRequested && requestKeepAlive && requestCount < maxRequestsPerConnection;
      closeAfterResponse := !keepAlive;
      state := Writing;
      s := SessionModel.WriteResponse(s, forceClose, maxRequestsPerConnection);
    }

    method HandleWrite(ok: bool)
      requires Valid()
      modifies this
      ensures Valid() && s == SessionModel.HandleWrite(old(s), ok)
      ensures state == if ok && !old(closeAfterResponse) && !old(drainRequested) && old(state) != Closed then Reading
                       else Closed
      ensures state == Reading ==> s.reading
    {
      if !ok {
        Close();
        return;
      }
      if closeAfterResponse || drainRequested {
        Close();
        return;
      }
      ReadRequest();
    }

    /** The handler that `BeginDrain` puts on the strand. */
    method HandleDrain()
      requires Valid()
      modifies this
      ensures Valid() && s == SessionModel.HandleDrain(old(s))
      ensures state == if old(state) == Reading then Closed else old(state)
      ensures old(state) != Closed ==> closeAfterResponse
    {
      if state == Closed {
        return;
      }
      closeAfterResponse := true;
      s := LastAnswer(s);
      if state == Reading {
        Close();
      }
    }

    method Close()
      requires Valid()
      modifies this
      ensures Valid() && s == SessionModel.Close(old(s))
      ensures closeHandlerPresent == (old(closeHandlerPresent) && old(state) == Closed)
      ensures state == Closed && (socketOpen ==> old(state) == Closed && old(socketOpen))
    {
      if state == Closed {
        return;
      }
      state := Closed;
      socketOpen := false;
      s := SessionModel.Close(s);
      closeHandlerPresent := false;
    }
  }
}

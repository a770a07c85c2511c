/**
 Graceful shutdown of the HTTP server: the accept strand, one strand per session, the
 thread that requests the stop and the thread that waits for it. Completion depends on
 three facts set by three different threads: stop requested, worker pool drained, no
 session left.

 Each strand handler runs alone on its strand but interleaves with the other strands and
 threads; it is cut into one atomic step per lock, atomic flag and posting. Assumed, as
 the agent's main function guarantees: the stop request has returned before the wait
 begins, and one thread waits.
 */
module ServerModel {
  import opened SessionModel

  /** Handlers posted to the accept strand. */
  datatype AcceptJob = Accepted | AcceptFailed | StopOnIo | TryComplete | Deadline(aborted: bool)

  /** Where the handler running on the accept strand stands. */
  datatype AcceptPos =
    | AtRest
    | Registering(c: nat)
    | Starting(c: nat)
    | Rejecting(c: nat)
    | NextAccept
    | Snapshot
    | Draining(todo: set<nat>, some: bool)
    | Flagged(c: nat, todo: set<nat>, some: bool)
    | TryFlags
    | TrySessions
    | ForceSnapshot
    | Forcing(todo: set<nat>)

  /** Where a session's close handler stands: about to erase the session, or having seen the
      session set empty, stop requested, pool drained. */
  datatype Removal = NoRemoval | Erase | SawEmpty | SawStop | Post

  datatype Conn = Conn(session: Session, removal: Removal)

  datatype Requester = NotAsked | StopSet | ExecutorTold | StopPosted

  datatype Waiter = NotWaiting | JoiningExecutor | ExecutorJoined | DrainedStored | JoiningIo | IoDone

  /** `sessions_`, the flags and the work guard of the server; `conns` are the connections
      accepted so far; `guardReleases` counts the releases made by completing the stop. */
  datatype Server = Server(
    maxConnections: nat,
    maxRequests: nat,
    stopRequested: bool,
    executorStopped: bool,
    drained: bool,
    completionStarted: bool,
    guard: bool,
    guardReleases: nat,
    acceptorOpen: bool,
    accepting: bool,
    timer: bool,
    sessions: set<nat>,
    conns: seq<Conn>,
    queue: seq<AcceptJob>,
    pos: AcceptPos,
    requester: Requester,
    waiter: Waiter)

  predicate Init(s: Server) {
    && s.maxConnections > 0 && s.maxRequests > 0
    && s == Server(s.maxConnections, s.maxRequests, false, false, false, false, true, 0, true, true, false, {}, [], [],
                   AtRest, NotAsked, NotWaiting)
  }

  datatype Event =
    // the accept strand
    | AcceptCompletes(ok: bool)
    | TimerFires(aborted: bool)
    | TakeJob
    | Register
    | StartSession
    | Reject
    | ContinueAccept
    | TakeSnapshot
    | SetDrainFlag(c: nat)
    | PostDrainJob
    | EndDraining
    | ReadFlags
    | CheckSessions
    | TakeForceSnapshot
    | ForceOne(c: nat)
    | EndForcing
    // session strands
    | SessionCompletes(c: nat, e: SessionEvent)
    | SessionRuns(c: nat, accepted: bool)
    | EraseSession(c: nat)
    | ReadStop(c: nat)
    | ReadDrained(c: nat)
    | PostTry(c: nat)
    // requesting the stop
    | SetStop
    | TellExecutor
    | PostStop
    // waiting
    | BeginWait
    | JoinExecutor
    | StoreDrained
    | PostFinalTry
    | JoinIo

  // The accept strand

  predicate AcceptEvent(e: Event) {
    e.AcceptCompletes? || e.TimerFires? || e.TakeJob? || e.Register? || e.StartSession? || e.Reject? ||
    e.ContinueAccept?
  }

  predicate StopEvent(e: Event) {
    e.TakeSnapshot? || e.SetDrainFlag? || e.PostDrainJob? || e.EndDraining? || e.ReadFlags? || e.CheckSessions? ||
    e.TakeForceSnapshot? || e.ForceOne? || e.EndForcing?
  }

  predicate SessionStrandEvent(e: Event) {
    e.SessionCompletes? || e.SessionRuns? || e.EraseSession? || e.ReadStop? || e.ReadDrained? || e.PostTry?
  }

  predicate CanTouch(s: Server, c: nat, e: SessionEvent) {
    c < |s.conns| && CanHappen(s.conns[c].session, e, s.executorStopped)
  }

  function WithSession(s: Server, c: nat, x: Session): Server
    requires c < |s.conns|
  {
    s.(conns := s.conns[c := s.conns[c].(session := x)])
  }

  function Touched(s: Server, c: nat, e: SessionEvent): Server
    requires CanTouch(s, c, e)
  {
    WithSession(s, c, Happened(s.conns[c].session, e, s.executorStopped, s.maxRequests))
  }

  predicate AcceptEnabled(s: Server, e: Event)
    requires AcceptEvent(e)
  {
    match e
    case AcceptCompletes(ok) => s.accepting && (ok ==> s.acceptorOpen)
    case TimerFires(aborted) => s.timer && (aborted ==> s.completionStarted)
    case TakeJob => s.pos.AtRest? && s.queue != []
    case Register => s.pos.Registering?
    case StartSession => s.pos.Starting? && CanTouch(s, s.pos.c, Begin)
    case Reject => s.pos.Rejecting? && CanTouch(s, s.pos.c, PostForce)
    case ContinueAccept => s.pos.NextAccept?
  }

  function AfterAccept(s: Server, e: Event): Server
    requires AcceptEvent(e) && AcceptEnabled(s, e)
  {
    match e
    case AcceptCompletes(ok) => s.(accepting := false, queue := s.queue + [if ok then Accepted else AcceptFailed])
    case TimerFires(aborted) => s.(timer := false, queue := s.queue + [Deadline(aborted)])
    case TakeJob => JobTaken(s.(queue := s.queue[1..]), s.queue[0])
    case Register =>
      if s.stopRequested || |s.sessions| >= s.maxConnections then s.(pos := Rejecting(s.pos.c))
      else s.(sessions := s.sessions + {s.pos.c}, pos := Starting(s.pos.c))
    case StartSession => Touched(s, s.pos.c, Begin).(pos := NextAccept)
    case Reject => Touched(s, s.pos.c, PostForce).(pos := NextAccept)
    case ContinueAccept => s.(accepting := s.accepting || (!s.stopRequested && s.acceptorOpen), pos := AtRest)
  }

  function JobTaken(s: Server, j: AcceptJob): Server {
    match j
    case Accepted =>
      if s.stopRequested then s.(pos := NextAccept)
      else s.(conns := s.conns + [Conn(FreshSession, NoRemoval)], pos := Registering(|s.conns|))
    case AcceptFailed => s.(pos := NextAccept)
    case StopOnIo => s.(acceptorOpen := false, pos := Snapshot)
    case TryComplete => s.(pos := TryFlags)
    case Deadline(aborted) => if aborted then s else s.(pos := ForceSnapshot)
  }

  predicate StopEnabled(s: Server, e: Event)
    requires StopEvent(e)
  {
    match e
    case TakeSnapshot => s.pos.Snapshot?
    case SetDrainFlag(c) => s.pos.Draining? && c in s.pos.todo && CanTouch(s, c, Flag)
    case PostDrainJob => s.pos.Flagged? && CanTouch(s, s.pos.c, PostDrain)
    case EndDraining => s.pos.Draining? && s.pos.todo == {}
    case ReadFlags => s.pos.TryFlags?
    case CheckSessions => s.pos.TrySessions?
    case TakeForceSnapshot => s.pos.ForceSnapshot?
    case ForceOne(c) => s.pos.Forcing? && c in s.pos.todo && CanTouch(s, c, PostForce)
    case EndForcing => s.pos.Forcing? && s.pos.todo == {}
  }

  function AfterStop(s: Server, e: Event): Server
    requires StopEvent(e) && StopEnabled(s, e)
  {
    match e
    case TakeSnapshot => s.(pos := Draining(s.sessions, s.sessions != {}))
    case SetDrainFlag(c) => Touched(s, c, Flag).(pos := Flagged(c, s.pos.todo - {c}, s.pos.some))
    case PostDrainJob => Touched(s, s.pos.c, PostDrain).(pos := Draining(s.pos.todo, s.pos.some))
    case EndDraining => s.(timer := s.timer || s.pos.some, pos := TryFlags)
    case ReadFlags => s.(pos := if s.completionStarted || !s.drained then AtRest else TrySessions)
    case CheckSessions =>
      if s.sessions != {} then s.(pos := AtRest)
      else s.(completionStarted := true, guard := false, guardReleases := s.guardReleases + 1, pos := AtRest)
    case TakeForceSnapshot => s.(pos := Forcing(s.sessions))
    case ForceOne(c) => Touched(s, c, PostForce).(pos := Forcing(s.pos.todo - {c}))
    case EndForcing => s.(pos := TryFlags)
  }

  // Session strands

  predicate SessionEnabled(s: Server, e: Event)
    requires SessionStrandEvent(e)
  {
    e.c < |s.conns| &&
    match e
    case SessionCompletes(c, ev) => Completion(ev) && CanTouch(s, c, ev)
    case SessionRuns(c, accepted) => s.conns[c].removal.NoRemoval? && CanTouch(s, c, RunNext(accepted))
    case EraseSession(c) => s.conns[c].removal.Erase?
    case ReadStop(c) => s.conns[c].removal.SawEmpty?
    case ReadDrained(c) => s.conns[c].removal.SawStop?
    case PostTry(c) => s.conns[c].removal.Post?
  }

  function AtRemoval(s: Server, c: nat, r: Removal): Server
    requires c < |s.conns|
  {
    s.(conns := s.conns[c := s.conns[c].(removal := r)])
  }

  function SessionErased(s: Server, c: nat): Server
    requires c < |s.conns|
  {
    var rest := s.sessions - {c};
    AtRemoval(s.(sessions := rest), c, if rest == {} then SawEmpty else NoRemoval)
  }

  /** A strand handler; the close handler it may have used is still to run. */
  function SessionRan(s: Server, c: nat, accepted: bool): Server
    requires CanTouch(s, c, RunNext(accepted))
  {
    var s' := Touched(s, c, RunNext(accepted));
    if s'.conns[c].session.closings > s.conns[c].session.closings then AtRemoval(s', c, Erase) else s'
  }

  function AfterSession(s: Server, e: Event): Server
    requires SessionStrandEvent(e) && SessionEnabled(s, e)
  {
    match e
    case SessionCompletes(c, ev) => Touched(s, c, ev)
    case SessionRuns(c, accepted) => SessionRan(s, c, accepted)
    case EraseSession(c) => SessionErased(s, c)
    case ReadStop(c) => AtRemoval(s, c, if s.stopRequested then SawStop else NoRemoval)
    case ReadDrained(c) => AtRemoval(s, c, if s.drained then Post else NoRemoval)
    case PostTry(c) => AtRemoval(s.(queue := s.queue + [TryComplete]), c, NoRemoval)
  }

  // The requesting and the waiting thread

  predicate PoolIdle(s: Server) {
    forall c :: 0 <= c < |s.conns| ==> !s.conns[c].session.task
  }

  /** The I/O context has run out of work: no handler queued or running, no operation
      outstanding. Without the work guard its threads return. */
  predicate IoQuiet(s: Server) {
    && s.queue == [] && s.pos.AtRest? && !s.accepting && !s.timer
    && forall c :: 0 <= c < |s.conns| ==>
         var k := s.conns[c]; k.removal.NoRemoval? && k.session.jobs == [] && !k.session.reading && !k.session.writing
  }

  predicate ThreadEnabled(s: Server, e: Event) {
    match e
    case SetStop => s.requester.NotAsked?
    case TellExecutor => s.requester.StopSet?
    case PostStop => s.requester.ExecutorTold?
    case BeginWait => s.requester.StopPosted? && s.waiter.NotWaiting?
    case JoinExecutor => s.waiter.JoiningExecutor? && s.executorStopped && PoolIdle(s)
    case StoreDrained => s.waiter.ExecutorJoined?
    case PostFinalTry => s.waiter.DrainedStored?
    case JoinIo => s.waiter.JoiningIo? && IoQuiet(s) && !s.guard
    case _ => false
  }

  function AfterThread(s: Server, e: Event): Server
    requires ThreadEnabled(s, e)
  {
    match e
    case SetStop => s.(stopRequested := true, requester := StopSet)
    case TellExecutor => s.(executorStopped := true, requester := ExecutorTold)
    case PostStop => s.(queue := s.queue + [StopOnIo], requester := StopPosted)
    case BeginWait => s.(waiter := JoiningExecutor)
    case JoinExecutor => s.(waiter := ExecutorJoined)
    case StoreDrained => s.(drained := true, waiter := DrainedStored)
    case PostFinalTry => s.(queue := s.queue + [TryComplete], waiter := JoiningIo)
    case JoinIo => s.(sessions := {}, waiter := IoDone)
  }

  predicate Enabled(s: Server, e: Event) {
    if AcceptEvent(e) then AcceptEnabled(s, e)
    else if StopEvent(e) then StopEnabled(s, e)
    else if SessionStrandEvent(e) then SessionEnabled(s, e)
    else ThreadEnabled(s, e)
  }

  function After(s: Server, e: Event): Server
    requires Enabled(s, e)
  {
    if AcceptEvent(e) then AfterAccept(s, e)
    else if StopEvent(e) then AfterStop(s, e)
    else if SessionStrandEvent(e) then AfterSession(s, e)
    else AfterThread(s, e)
  }
}

/**
 Supervision of one service: an operation thread that runs Start, Stop and Restart
 one at a time, an observer thread per run that owns `waitpid` and the clean-up of the
 process group, and an abstract operating system in which processes fork, exec and die
 at any moment.

 Each critical section under the state mutex, each system call and each move of a
 process is one atomic step, so a run is one interleaving of all of them. Assumed of
 the environment: pids are not reused, observer threads can be created, `waitpid`
 fails only with EINTR.
 */
module ProcessModel {
  import opened Common

  datatype ServiceState = Stopped | Starting | Running | Stopping | Exited | Failed

  datatype DesiredState = WantStopped | WantRunning

  /** The fields the state mutex protects. */
  datatype Fields = Fields(state: ServiceState, desired: DesiredState, pid: Option<nat>, pgid: Option<nat>)

  // The operating system

  datatype Leader = Live | Zombie | Reaped

  /** How far the child got on its way to `execv`: `Reported` once it has written the
      first byte of an error message to the start-up pipe. */
  datatype Progress = BeforeExec | Reported | Execed

  datatype Reaper = Nobody | Starter | Observer

  /** One forked child and its process group; `members` counts the live descendants
      still in the group. `watched` records that an observer thread was created for the
      child, `killedLate` that its start-up handshake was abandoned and it had already
      reached `execv` when it was killed. */
  datatype Generation = Generation(
    leader: Leader, progress: Progress, members: nat, reaps: nat, reaper: Reaper, watched: bool,
    killedLate: bool)

  /** `kill(-pgid, 0)` may report the group gone once nothing in it runs; it must do so
      once the leader is reaped as well. Between the two, systems differ. */
  predicate MayLookGone(g: Generation) { g.members == 0 && !g.leader.Live? }

  predicate MustLookGone(g: Generation) { g.members == 0 && g.leader.Reaped? }

  predicate Probes(gens: seq<Generation>, group: Option<nat>, gone: bool) {
    match group
    case None => gone
    case Some(g) => g < |gens| && (gone ==> MayLookGone(gens[g])) && (!gone ==> !MustLookGone(gens[g]))
  }

  function Killed(g: Generation): Generation {
    g.(leader := if g.leader.Live? then Zombie else g.leader)
  }

  function KillGroup(gens: seq<Generation>, group: Option<nat>): seq<Generation>
    requires group.Some? ==> group.value < |gens|
  {
    match group
    case None => gens
    case Some(g) => gens[g := Killed(gens[g]).(members := 0)]
  }

  // Threads

  /** What a stop remembers from its first critical section. */
  datatype Target = Target(final: DesiredState, pid: Option<nat>, pgid: Option<nat>)

  /** Where the operation thread stands. */
  datatype Op =
    | Idle
    | RestartStop
    | RestartStart
    | StartJoin
    | StartClaim
    | StartPrepare
    | StartHandshake(c: nat)
    | StartKill(c: nat)
    | StartReap(c: nat)
    | StartFail
    | StartPublish(c: nat)
    | StartSpawn(c: nat)
    | StartConfirm(c: nat)
    | StopTerm(x: Target)
    | StopPoll(x: Target, forced: bool)
    | StopProbe(x: Target, forced: bool, observed: bool)
    | StopDecide(x: Target, forced: bool, observed: bool, gone: bool)
    | StopKill(x: Target)
    | StopGiveUp(x: Target)
    | StopJoin(x: Target)

  /** Where the observer thread stands; any value but `NoThread` is joinable. */
  datatype Obs =
    | NoThread
    | Waiting(g: nat)
    | Publishing(g: nat)
    | Cleaning(g: nat)
    | TermWait(g: nat)
    | Killing(g: nat)
    | KillWait(g: nat)
    | Clearing(g: nat)
    | Done(g: nat)

  datatype State = State(f: Fields, op: Op, restarting: bool, obs: Obs, gens: seq<Generation>)

  datatype Event =
    // callers
    | CallStart
    | CallStop
    | CallRestart
    | CallSetDesired(d: DesiredState)
    // the operation thread
    | BeginStop
    | BeginStart
    | JoinForStart
    | Claim
    | PrepareFails
    | Fork
    | HandshakeOk
    | HandshakeReported
    | HandshakeAbandoned
    | KillChild
    | ReapChild
    | Fail
    | Publish
    | Spawn
    | Confirm
    | Terminate
    | SignalRefused
    | Poll
    | Probe(gone: bool)
    | Decide(expired: bool)
    | Kill
    | GiveUp
    | JoinForStop
    // the observer thread
    | ObserverReaps
    | ObserverPublishes
    | ObserverProbes(gone: bool)
    | ObserverKills
    | ObserverStopsWaiting
    | ObserverClears(gone: bool)
    // processes
    | LeaderExecs(g: nat)
    | LeaderReports(g: nat)
    | LeaderDies(g: nat)
    | MemberForks(g: nat)
    | MemberExits(g: nat)

  // Critical sections, as functions of the protected fields

  function StopTarget(f: Fields, final: DesiredState): Target {
    Target(final, f.pid, f.pgid)
  }

  function StopEntered(f: Fields, final: DesiredState): Fields {
    var f' := f.(desired := final);
    if f.pid.None? && f.pgid.None? then
      if final.WantStopped? then f'.(state := Stopped) else f'
    else
      f'.(state := Stopping)
  }

  function GivenUp(f: Fields, x: Target): Fields {
    if f.pid == x.pid then f.(state := Failed) else f
  }

  function ExitPublished(f: Fields): Fields {
    f.(pid := None, state := if f.desired.WantStopped? || f.state.Stopping? then Stopped else Exited)
  }

  // The machine

  const FreshGeneration := Generation(Live, BeforeExec, 0, 0, Nobody, false, false)

  predicate Init(s: State) {
    s.f.state == Stopped && s.f.pid == None && s.f.pgid == None &&
    s.op == Idle && !s.restarting && s.obs == NoThread && s.gens == []
  }

  predicate Joinable(o: Obs) { o.NoThread? || o.Done? }

  predicate ChildValid(s: State) {
    && (s.op.StartHandshake? || s.op.StartKill? || s.op.StartReap? || s.op.StartPublish? || s.op.StartSpawn? ||
        s.op.StartConfirm?)
    && s.op.c < |s.gens|
  }

  predicate StartEnabled(s: State, e: Event)
    requires StartEvent(e)
  {
    match e
    case BeginStart => s.op.RestartStart?
    case JoinForStart => s.op.StartJoin? && Joinable(s.obs)
    case Claim => s.op.StartClaim?
    case PrepareFails => s.op.StartPrepare?
    case Fork => s.op.StartPrepare?
    case HandshakeOk =>
      s.op.StartHandshake? && ChildValid(s) &&
      var g := s.gens[s.op.c]; g.progress.Execed? || (g.progress.BeforeExec? && !g.leader.Live?)
    case HandshakeReported => s.op.StartHandshake? && ChildValid(s) && s.gens[s.op.c].progress.Reported?
    case HandshakeAbandoned => s.op.StartHandshake?
    case KillChild => s.op.StartKill? && ChildValid(s)
    case ReapChild => s.op.StartReap? && ChildValid(s) && s.gens[s.op.c].leader.Zombie?
    case Fail => s.op.StartFail?
    case Publish => s.op.StartPublish?
    case Spawn => s.op.StartSpawn? && ChildValid(s)
    case Confirm => s.op.StartConfirm?
  }

  predicate StopEnabled(s: State, e: Event)
    requires StopEvent(e)
  {
    match e
    case BeginStop => s.op.RestartStop?
    case Terminate => s.op.StopTerm?
    case SignalRefused => s.op.StopTerm? || s.op.StopKill?
    case Poll => s.op.StopPoll?
    case Probe(gone) => s.op.StopProbe? && Probes(s.gens, s.op.x.pgid, gone)
    case Decide(_) => s.op.StopDecide?
    case Kill => s.op.StopKill? && (s.op.x.pgid.Some? ==> s.op.x.pgid.value < |s.gens|)
    case GiveUp => s.op.StopGiveUp?
    case JoinForStop => s.op.StopJoin? && Joinable(s.obs)
  }

  predicate ObserverEnabled(s: State, e: Event)
    requires ObserverEvent(e)
  {
    match e
    case ObserverReaps => s.obs.Waiting? && s.obs.g < |s.gens| && s.gens[s.obs.g].leader.Zombie?
    case ObserverPublishes => s.obs.Publishing?
    case ObserverProbes(gone) => (s.obs.Cleaning? || s.obs.TermWait?) && Probes(s.gens, Some(s.obs.g), gone)
    case ObserverKills => s.obs.Killing? && s.obs.g < |s.gens|
    case ObserverStopsWaiting => s.obs.KillWait?
    case ObserverClears(gone) => s.obs.Clearing? && Probes(s.gens, Some(s.obs.g), gone)
  }

  predicate ProcessEnabled(s: State, e: Event)
    requires ProcessEvent(e)
  {
    e.g < |s.gens| &&
    var gen := s.gens[e.g];
    match e
    case LeaderExecs(_) => gen.leader.Live? && gen.progress.BeforeExec?
    case LeaderReports(_) => gen.leader.Live? && gen.progress.BeforeExec?
    case LeaderDies(_) => gen.leader.Live?
    case MemberForks(_) => (gen.leader.Live? && gen.progress.Execed?) || gen.members > 0
    case MemberExits(_) => gen.members > 0
  }

  predicate Enabled(s: State, e: Event) {
    if CallerEvent(e) then s.op.Idle?
    else if StartEvent(e) then StartEnabled(s, e)
    else if StopEvent(e) then StopEnabled(s, e)
    else if ObserverEvent(e) then ObserverEnabled(s, e)
    else ProcessEnabled(s, e)
  }

  function Returned(s: State): State {
    s.(op := Idle, restarting := false)
  }

  function StartEntered(s: State): State {
    var s' := s.(f := s.f.(desired := WantRunning));
    if s.f.pid.Some? then Returned(s') else s'.(op := StartJoin)
  }

  function StopBegun(s: State, final: DesiredState): State {
    var x := StopTarget(s.f, final);
    s.(f := StopEntered(s.f, final), op := if x.pid.None? && x.pgid.None? then StopJoin(x) else StopTerm(x))
  }

  function Decided(s: State, x: Target, forced: bool, finished: bool, expired: bool): State {
    if finished then
      s.(f := if s.f.pgid == x.pgid then s.f.(pgid := None) else s.f, op := StopJoin(x))
    else if !expired then
      s.(op := StopPoll(x, forced))
    else
      s.(op := if forced then StopGiveUp(x) else StopKill(x))
  }

  function AfterCaller(s: State, e: Event): State
    requires CallerEvent(e) && Enabled(s, e)
  {
    match e
    case CallStart => StartEntered(s)
    case CallStop => StopBegun(s, WantStopped)
    case CallRestart => s.(f := s.f.(desired := WantRunning), restarting := true, op := RestartStop)
    case CallSetDesired(d) => s.(f := s.f.(desired := d))
  }

  function AfterStart(s: State, e: Event): State
    requires StartEvent(e) && StartEnabled(s, e)
  {
    match e
    case BeginStart => StartEntered(s)
    case JoinForStart => s.(obs := NoThread, op := StartClaim)
    case Claim =>
      if s.f.pgid.Some? then Returned(s) else s.(f := s.f.(state := Starting), op := StartPrepare)
    case PrepareFails => s.(op := StartFail)
    case Fork => s.(gens := s.gens + [FreshGeneration], op := StartHandshake(|s.gens|))
    case HandshakeOk => s.(op := StartPublish(s.op.c))
    case HandshakeReported => s.(op := StartReap(s.op.c))
    case HandshakeAbandoned => s.(op := StartKill(s.op.c))
    case KillChild =>
      var g := s.gens[s.op.c];
      s.(gens := s.gens[s.op.c := Killed(g).(killedLate := g.progress.Execed?)], op := StartReap(s.op.c))
    case ReapChild =>
      var g := s.gens[s.op.c];
      s.(gens := s.gens[s.op.c := g.(leader := Reaped, reaps := g.reaps + 1, reaper := Starter)], op := StartFail)
    case Fail => Returned(s.(f := s.f.(state := Failed)))
    case Publish => s.(f := s.f.(pid := Some(s.op.c), pgid := Some(s.op.c)), op := StartSpawn(s.op.c))
    case Spawn =>
      s.(obs := Waiting(s.op.c), op := StartConfirm(s.op.c),
         gens := s.gens[s.op.c := s.gens[s.op.c].(watched := true)])
    case Confirm =>
      Returned(if s.f.pid == Some(s.op.c) && s.f.state.Starting? then s.(f := s.f.(state := Running)) else s)
  }

  function AfterStop(s: State, e: Event): State
    requires StopEvent(e) && StopEnabled(s, e)
  {
    match e
    case BeginStop => StopBegun(s, WantRunning)
    case Terminate => s.(op := StopPoll(s.op.x, false))
    case SignalRefused => s.(op := StopGiveUp(s.op.x))
    case Poll => s.(op := StopProbe(s.op.x, s.op.forced, s.op.x.pid.None? || s.f.pid != s.op.x.pid))
    case Probe(gone) => s.(op := StopDecide(s.op.x, s.op.forced, s.op.observed, gone))
    case Decide(expired) => Decided(s, s.op.x, s.op.forced, s.op.observed && s.op.gone, expired)
    case Kill => s.(gens := KillGroup(s.gens, s.op.x.pgid), op := StopPoll(s.op.x, true))
    case GiveUp => Returned(s.(f := GivenUp(s.f, s.op.x)))
    case JoinForStop =>
      var s' := s.(obs := NoThread);
      if s.restarting then s'.(op := RestartStart) else Returned(s')
  }

  function AfterObserver(s: State, e: Event): State
    requires ObserverEvent(e) && ObserverEnabled(s, e)
  {
    var g := s.obs.g;
    match e
    case ObserverReaps =>
      var gen := s.gens[g];
      s.(gens := s.gens[g := gen.(leader := Reaped, reaps := gen.reaps + 1, reaper := Observer)], obs := Publishing(g))
    case ObserverPublishes =>
      if s.f.pid != Some(g) then s.(obs := Done(g)) else s.(f := ExitPublished(s.f), obs := Cleaning(g))
    case ObserverProbes(gone) =>
      s.(obs := if gone then Clearing(g) else if s.obs.Cleaning? then TermWait(g) else Killing(g))
    case ObserverKills => s.(gens := KillGroup(s.gens, Some(g)), obs := KillWait(g))
    case ObserverStopsWaiting => s.(obs := Clearing(g))
    case ObserverClears(gone) =>
      s.(f := if s.f.pgid == Some(g) && gone then s.f.(pgid := None) else s.f, obs := Done(g))
  }

  function AfterProcess(s: State, e: Event): State
    requires ProcessEvent(e) && ProcessEnabled(s, e)
  {
    var gen := s.gens[e.g];
    var gen' := match e
      case LeaderExecs(_) => gen.(progress := Execed)
      case LeaderReports(_) => gen.(progress := Progress.Reported)
      case LeaderDies(_) => gen.(leader := Zombie)
      case MemberForks(_) => gen.(members := gen.members + 1)
      case MemberExits(_) => gen.(members := gen.members - 1);
    s.(gens := s.gens[e.g := gen'])
  }

  predicate ObserverEvent(e: Event) {
    e.ObserverReaps? || e.ObserverPublishes? || e.ObserverProbes? || e.ObserverKills? || e.ObserverStopsWaiting? ||
    e.ObserverClears?
  }

  predicate ProcessEvent(e: Event) {
    e.LeaderExecs? || e.LeaderReports? || e.LeaderDies? || e.MemberForks? || e.MemberExits?
  }

  predicate CallerEvent(e: Event) {
    e.CallStart? || e.CallStop? || e.CallRestart? || e.CallSetDesired?
  }

  predicate StartEvent(e: Event) {
    e.BeginStart? || e.JoinForStart? || e.Claim? || e.PrepareFails? || e.Fork? || e.HandshakeOk? ||
    e.HandshakeReported? || e.HandshakeAbandoned? || e.KillChild? || e.ReapChild? || e.Fail? || e.Publish? ||
    e.Spawn? || e.Confirm?
  }

  predicate StopEvent(e: Event) {
    e.BeginStop? || e.Terminate? || e.SignalRefused? || e.Poll? || e.Probe? || e.Decide? || e.Kill? || e.GiveUp? ||
    e.JoinForStop?
  }

  function After(s: State, e: Event): State
    requires Enabled(s, e)
  {
    if CallerEvent(e) then AfterCaller(s, e)
    else if StartEvent(e) then AfterStart(s, e)
    else if StopEvent(e) then AfterStop(s, e)
    else if ObserverEvent(e) then AfterObserver(s, e)
    else AfterProcess(s, e)
  }
}

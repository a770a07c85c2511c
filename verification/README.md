# Verification of the Aegis agent

This project models the agent's concurrent and stateful core in Dafny and proves what its parts
promise each other. `dafny verify dfyconfig.toml` checks the whole project.

## What is modelled

**Process supervision** (`process_model`, `process_safety`, `process_theorems`,
`process_progress`, `process_overlap`, `process_stop`, `process_supervisor`). One operation at a
time starts, stops or restarts a service, while an observer thread per run owns `waitpid` and the
clean-up of the process group and processes fork, exec and die at any moment. Every critical
section, system call and process move is one atomic step of a state machine with a small abstract
operating system. The class `ProcessSupervisor` holds the real fields; each of its methods is one
critical section and is proved to be one step of the machine. `start_record` and `exec_handshake`
model the start-up pipe between parent and child for every fragmentation.

**Graceful shutdown** (`executor`, `executor_restart`, `http_session`, `server_model`,
`server_safety`, `server_theorems`, `server_termination`, `server_deadline`, `http_server`). The
bounded worker pool with its condition variable, one strand per connection, and the stop protocol
whose completion depends on three facts set by three threads. Safety is proved over all
interleavings; progress is proved by a measure that every step of a stopping server uses up and by
showing that some step is enabled until the wait is over, one for which the server needs no
client.

**The control loop** (`control_types`, `health`, `alerts`, `alert_events`, `alert_display`,
`alert_manager`, `recovery`, `recovery_decision`, `recovery_manager`, `monitor_model`,
`monitor_theorems`, `monitor_runs`, `monitor_alerts`, `monitor_restarts`, `health_monitor`). The
code keeps compressed state: a counter, one start time, a pruned queue. Each is proved equal to a
function of the whole history of observations, and the end-to-end statements follow: every
automatic restart is justified, the restart budget holds, and the table of active alerts is
exactly the set of rules that have held for their duration. The clock is an arbitrary sequence of
readings unless a statement says otherwise.

**Log tail, exact arithmetic, escaping** (`log_reader`, `mach_ticks`, `metrics_sampler`,
`json_escape`).

Objects that change their fields are classes and their loops are loops; the function or machine
that a method is proved against carries the properties. Ghost fields hold the machine state or the
history next to the real fields.

## Assumptions about the environment

- Pids are not reused, observer threads can be created, `waitpid` fails only with EINTR, and
  `kill` is never refused for lack of permission. After SIGKILL every member of a group dies; a
  probe must find a group gone once its leader is reaped and no member lives, and may already do
  so while the leader is a zombie.
- The stop request has returned before the server's wait begins, and one thread waits
  (apps/agent/src/api/http_server.cpp:182-196 and 291-294). Tasks given to the pool return. Of the
  pool the server's machine uses what `StopThenWait` states: no submission is accepted after its
  stop, and its wait returns with no task queued or held.
- Posting a handler succeeds; handlers of one strand are executed one at a time in posting order.
  Reads, writes, timers and clients are events that may happen at any time or never.
- Services are listed once, with the structurally valid definition they were registered with; the
  registry does not reload.
- Times are integers; sums of a time and a configured duration stay far below the 64-bit limit.
- A log file does not change while its tail is read and is smaller than 2^63 bytes.
- The error record crosses the pipe within one machine; the model fixes least-significant-byte
  first and Linux's value of EPROTO.

## Where the code does less than it seems to

- A start whose handshake is abandoned kills only the child it forked
  (apps/agent/src/service/process_supervisor.cpp:503-514). If the child had already reached
  `execv`, its descendants survive, and the next start forks beside them
  (`AbandonedStartOverlaps`). The condition is the guard of that branch: as long as no start has
  ended with a handshake timeout or pipe error, generations never overlap (`NoAbandonNoOverlap`,
  `OverlapFreeIff`), and every overlap is due to a particular start that did
  (`OverlapNamesItsStart`). When a start is about to kill its child, a survivor is possible if and
  only if the child's group has a member, or the child is alive and has not reported a failure
  (`CanOutliveIff`).
- A stop that begins when the leader has already been observed but its group is still there
  returns true and leaves the state `Stopping`
  (apps/agent/src/service/process_supervisor.cpp:560-574, 733-739): `StopReturningTrue`,
  `StopCanLeaveStopping`.
- `HandleRead` does not look at `kClosed` (apps/agent/src/api/http_session.cpp:95-159). A read
  that completed before a close can take a closed session to another state; it does no harm beyond
  a refused write: `ClosedReopensIff`, `ClosedSessionReopens`.
- The test in the pool's `Start` does not see workers that a wait has moved out
  (apps/agent/src/api/bounded_request_executor.cpp:23-37, 87-113): `StartTestMissesAJoin`. It is
  sound outside a join (`StartTestIsSound`); `StartTestFailsIff` gives the exact condition. A
  start that slips in clears the stop flag, so a worker that the wait has taken and that has not
  returned never does, and the wait hangs (`StartDuringWaitStrands`). If all have returned, the
  wait ends on the new pool (`StartBeforeReset`): tasks it has accepted are wiped
  (`SlippedStartLosesTasks`, `ResetDropsTask`), or its counter wraps around and it refuses
  everything (`ResetJamsCounter`). The server keeps clear of this: it starts each pool once, right
  after creating it (apps/agent/src/api/http_server.cpp:74-76).
- A child whose very first write of the error record fails is taken for a successful start:
  `LostReportLooksLikeSuccess`, with `HandshakeOutcome` for the exact conditions.
- With a clock that runs backwards a firing alert is dropped, and counted as an ignored evaluation
  (apps/agent/src/alerts/alert_manager.cpp:87-91): `SteppedClockDropsAlert`. `ActiveAfterIff`
  gives the exact condition for one evaluation, `ActiveByAnyClock` for a round of the loop, and
  `ActiveIsHistory` for whole runs, in terms of the observations alone.
- Some checks can never fail: the id and new-alert checks of the alert manager
  (apps/agent/src/alerts/alert_manager.cpp:40-43, 63-66), and the return for a window that is
  already the whole file (apps/agent/src/service/log_reader.cpp:96-98).

## Model

| member | source | states |
|---|---|---|
| `ProcessSafety.StepInv` | apps/agent/src/service/process_supervisor.cpp:289-712 | every atomic step of operations, observer, callers and processes keeps the supervision invariant |
| `ProcessTheorems.RunInv` | apps/agent/src/service/process_supervisor.cpp:289-712 | the invariant holds in every state of every interleaving |
| `ProcessTheorems.GenerationsNeverOverlap` | apps/agent/src/service/process_supervisor.cpp:344-450 | at every fork no pid, no group and no observer is left and every earlier leader is reaped; only groups of starts abandoned after `execv` can be nonempty |
| `ProcessTheorems.NoAbandonNoOverlap` | apps/agent/src/service/process_supervisor.cpp:344-450 | as long as no start has abandoned its handshake (the guard of the killing branch, visible as that start's error), every earlier leader is reaped and every earlier group empty at every fork |
| `ProcessTheorems.OverlapFreeIff` | apps/agent/src/service/process_supervisor.cpp:503-514 | taken over all runs: no run without an abandoned handshake overlaps, and some run with one does |
| `ProcessOverlap.CanOutliveIff` | apps/agent/src/service/process_supervisor.cpp:503-514 | in every reachable state in which a start is about to kill the child it has given up on: some continuation forks beside a survivor of that child if and only if its group has a member, or the child is alive and has not reported a failure |
| `ProcessTheorems.OverlapNamesItsStart` | apps/agent/src/service/process_supervisor.cpp:503-514 | a group still alive at a fork belongs to a start abandoned earlier, after its child had reached `execv` |
| `ProcessTheorems.MarkedIff` | apps/agent/src/service/process_supervisor.cpp:503-514 | the ghost mark of a late kill says exactly that such a step happened |
| `ProcessTheorems.AbandonedStartOverlaps` | apps/agent/src/service/process_supervisor.cpp:503-514 | the exception is reachable: a handshake abandoned as the child execs kills the leader alone, and the next start forks beside its descendant |
| `ProcessTheorems.ReapedOnce` | apps/agent/src/service/process_supervisor.cpp:649-683 | each child is reaped at most once, by its observer if it has one and by the starter otherwise; ECHILD and a foreign published pid cannot occur |
| `ProcessTheorems.JoinNeverWaitsOnALiveLeader` | apps/agent/src/service/process_supervisor.cpp:708-712 | whenever a start or stop is about to join, the observer has reaped its leader and published the exit and has only a bounded number of unblocked steps left |
| `ProcessTheorems.ObserverMove` | apps/agent/src/service/process_supervisor.cpp:688-707 | the observer's clean-up always has an enabled step that uses up part of its bound |
| `ProcessTheorems.OperationNeverStuck` | apps/agent/src/service/process_supervisor.cpp:344-648 | an operation under way always has an enabled step of its own or of the observer's, except while it reaps a child that has reported failure and is about to exit |
| `ProcessTheorems.StopEntry` | apps/agent/src/service/process_supervisor.cpp:560-574 | a stop works throughout on the pid and group it noted in its first critical section |
| `ProcessTheorems.StopReturningTrue` | apps/agent/src/service/process_supervisor.cpp:554-648 | a successful stop leaves no pid, no group id, no observer and an empty, reaped group; a manual stop ends in Stopped if and only if at entry the leader was unobserved or no group was left |
| `ProcessTheorems.StopCanLeaveStopping` | apps/agent/src/service/process_supervisor.cpp:733-739 | the other case is reachable: a successful stop that leaves the state Stopping |
| `ProcessTheorems.ForcedStopSucceeds` | apps/agent/src/service/process_supervisor.cpp:597-611 | from every such state of a forced wait, after SIGKILL and an observed exit the next probe finds the group gone and the stop succeeds whatever the clock says |
| `ProcessStop.TermComesFirst` | apps/agent/src/service/process_supervisor.cpp:576-589 | a stop with something to stop goes nowhere before SIGTERM is sent or refused |
| `ProcessStop.KillComesLate` | apps/agent/src/service/process_supervisor.cpp:591-605 | SIGKILL is sent only after SIGTERM and a wait to its deadline without success |
| `ProcessStop.ExpiryIsForced` | apps/agent/src/service/process_supervisor.cpp:591-605 | and it is sent or refused before the operation goes anywhere, once that wait has expired |
| `ProcessStop.GivesUpLast` | apps/agent/src/service/process_supervisor.cpp:576-622 | every stop that gives up has sent SIGTERM, waited in vain, sent SIGKILL and waited in vain, in this order, unless a signal was refused |
| `ProcessStop.RoundSucceedsIff` | apps/agent/src/service/process_supervisor.cpp:624-646 | a round of either wait ends in success if and only if the leader's exit was published and the group looked gone, whatever the clock says |
| `ProcessStop.ForcedRoundSucceeds` | apps/agent/src/service/process_supervisor.cpp:597-611 | after SIGKILL and a published exit the next round succeeds |
| `ProcessStop.ForcedStopHappens` | apps/agent/src/service/process_supervisor.cpp:597-611 | a forced stop is reachable: a child that ignores SIGTERM is killed, and the stop ends in Stopped with nothing left |
| `ProcessStop.FailedStopEndsIn` | apps/agent/src/service/process_supervisor.cpp:613-622 | a stop that gives up leaves Failed, or Stopped if its leader was observed meanwhile |
| `ProcessStop.RestartGoesOn` | apps/agent/src/service/process_supervisor.cpp:297-310 | a restart whose stop succeeded goes on to start the service |
| `ProcessStop.StartEndsIn` | apps/agent/src/service/process_supervisor.cpp:545-550 | a start past its handshake leaves Running if and only if its child's exit is not yet published, and Exited otherwise |
| `ProcessStop.FailedStartEndsIn` | apps/agent/src/service/process_supervisor.cpp:503-518 | a failed start leaves Failed, every leader reaped, nothing published and no observer |
| `ProcessStop.KillIsOfAbandoned` | apps/agent/src/service/process_supervisor.cpp:503-511 | only a start that gave up on its handshake kills its child |
| `ProcessStop.ObserverLeavesNothing` | apps/agent/src/service/process_supervisor.cpp:685-707 | when an observer has ended, its leader is reaped, its group empty and its group id not published any more |
| `ProcessStop.ClaimIsNeverRefused` | apps/agent/src/service/process_supervisor.cpp:358-367 | so the test for a remaining process group in a start never refuses |
| `ProcessTheorems.GroupReleasedLast` | apps/agent/src/service/process_supervisor.cpp:688-707 | the group id is given up only after the pid, with leader reaped and group empty |
| `ProcessTheorems.RestartKeepsDesired` | apps/agent/src/service/process_supervisor.cpp:297-310 | every status visible during a restart has desired state Running |
| `ProcessProgress.OperationIsBounded` | apps/agent/src/service/process_supervisor.cpp:289-310 | in every interleaving an operation takes at most eighteen steps of its own, and three more for every wait round before the deadline |
| `ProcessProgress.ExpiredOperationEnds` | apps/agent/src/service/process_supervisor.cpp:641-646 | once the deadline is passed in every round, the operation ends within its bound |
| `Supervisor.ProcessSupervisor.StartEnter` | apps/agent/src/service/process_supervisor.cpp:347-356 | first critical section of a start: one step of the machine |
| `Supervisor.ProcessSupervisor.StartClaims` | apps/agent/src/service/process_supervisor.cpp:360-367 | proceeds if and only if no group id is left, and then claims the state Starting |
| `Supervisor.ProcessSupervisor.StartFails` | apps/agent/src/service/process_supervisor.cpp:514-518 | a start that fails leaves the state Failed and nothing published |
| `Supervisor.ProcessSupervisor.SetDesiredState` | apps/agent/src/service/process_supervisor.cpp:339-343 | changes the desired state only between operations |
| `Supervisor.ProcessSupervisor.PublishChild` | apps/agent/src/service/process_supervisor.cpp:521-526 | publishes pid and group id together |
| `Supervisor.ProcessSupervisor.ConfirmRunning` | apps/agent/src/service/process_supervisor.cpp:545-550 | marks the service running only if its child is still the published one |
| `Supervisor.ProcessSupervisor.RestartEnter` | apps/agent/src/service/process_supervisor.cpp:300-303 | sets the desired state before anything is stopped |
| `Supervisor.ProcessSupervisor.StopEnter` | apps/agent/src/service/process_supervisor.cpp:560-574 | notes what must be stopped; moves to Stopping, or to Stopped when there is nothing |
| `Supervisor.ProcessSupervisor.LeaderWasObserved` | apps/agent/src/service/process_supervisor.cpp:629-630 | the first half of the wait loop's test, under the lock |
| `Supervisor.ProcessSupervisor.FinishWait` | apps/agent/src/service/process_supervisor.cpp:632-644 | finishes, dropping the group id, if and only if the leader was observed and the group was seen gone; otherwise waits again before the deadline, and from it on goes to SIGKILL in the first wait and gives up in the second |
| `Supervisor.ProcessSupervisor.StopGivesUp` | apps/agent/src/service/process_supervisor.cpp:613-622 | a stop that times out fails only its own target |
| `Supervisor.ProcessSupervisor.PublishExit` | apps/agent/src/service/process_supervisor.cpp:658-683 | always finds its own pid published and clears it |
| `Supervisor.ProcessSupervisor.MarkChildExited` | apps/agent/src/service/process_supervisor.cpp:733-739 | Stopped if the exit was wanted, Exited otherwise |
| `Supervisor.ProcessSupervisor.ClearGroup` | apps/agent/src/service/process_supervisor.cpp:699-704 | drops the group id only if it is still its own and gone |
| `StartRecord.RecordRoundTrip` | apps/agent/src/service/process_supervisor.cpp:67-70 | eight bytes decode to an error if and only if they are that error's record |
| `ExecHandshake.ReportChildStartError` | apps/agent/src/service/process_supervisor.cpp:102-128 | under partial and interrupted writes the bytes sent are a prefix of the record, as long as what the writes delivered |
| `ExecHandshake.DeliveredIs` | apps/agent/src/service/process_supervisor.cpp:102-128 | what the writes take before one fails is sent, up to the whole record |
| `ExecHandshake.NothingDelivered` | apps/agent/src/service/process_supervisor.cpp:109-126 | nothing is delivered if and only if every effective write comes after a failed one |
| `ExecHandshake.RunChild` | apps/agent/src/service/process_supervisor.cpp:463-493 | the child execs if and only if all its calls succeed; otherwise the wire holds the sent part of its report |
| `ExecHandshake.FateIs` | apps/agent/src/service/process_supervisor.cpp:463-493 | the six calls, their order, and the stage that each failure reports |
| `ExecHandshake.ReportsFirstFailure` | apps/agent/src/service/process_supervisor.cpp:463-493 | the reported stage and error number are those of the first call that did not succeed |
| `ExecHandshake.WaitForExecConfirmation` | apps/agent/src/service/process_supervisor.cpp:130-190 | the poll and read loop, with its five-second deadline, computes the verdict of its script |
| `ExecHandshake.FragmentationIrrelevant` | apps/agent/src/service/process_supervisor.cpp:130-190 | for every fragmentation the parent reports what the wire says, unless its time is up or an error of `poll` or `read` occurred; undisturbed, it reports the wire |
| `ExecHandshake.FirstTroubleDecides` | apps/agent/src/service/process_supervisor.cpp:130-190 | the first round that goes wrong decides: a passed deadline or a timed-out `poll` is a timeout, an error of `poll` or `read` is that error, unless there was an answer before |
| `ExecHandshake.AnswersInTime` | apps/agent/src/service/process_supervisor.cpp:136-142 | any answer but a timeout is found in a round before the deadline |
| `ExecHandshake.HandshakeFitsMachine` | apps/agent/src/service/process_supervisor.cpp:498-517 | whatever the parent concludes is a step of the supervision machine, which allows success exactly if the wire is empty |
| `ExecHandshake.ReportedFailureIsExact` | apps/agent/src/service/process_supervisor.cpp:185-188 | a reported child failure decodes to exactly the stage and error number sent |
| `ExecHandshake.SuccessMeansSilence` | apps/agent/src/service/process_supervisor.cpp:167-170 | success means that no byte was sent: exec, or a child killed or muted first |
| `ExecHandshake.HandshakeOutcome` | apps/agent/src/service/process_supervisor.cpp:130-190 | undisturbed: failure if and only if the whole record was sent, EPROTO if and only if a proper nonempty part, success if and only if nothing |
| `ExecHandshake.LostReportLooksLikeSuccess` | apps/agent/src/service/process_supervisor.cpp:120-127 | a child whose first write fails is taken for a successful start |
| `Executor.StepInv` | apps/agent/src/api/bounded_request_executor.cpp:23-165 | every critical section, notification and task step keeps the pool invariant |
| `Executor.BoundedFifo` | apps/agent/src/api/bounded_request_executor.cpp:57-75 | the counter is queued plus executing tasks and within capacity; dequeue order is submission order; accepted tasks are queued, held or executed, each once |
| `Executor.WaitDrains` | apps/agent/src/api/bounded_request_executor.cpp:87-113 | when a wait returns every accepted task has executed exactly once, the resets change nothing and the pool can be started again |
| `Executor.NeverStalls` | apps/agent/src/api/bounded_request_executor.cpp:133-150 | no lost wake-up: a nonempty queue has a notification coming or a worker awake, and after a stop request no worker sleeps without a broadcast coming |
| `Executor.InternalStepDecreases` | apps/agent/src/api/bounded_request_executor.cpp:133-165 | every internal step of a stopping pool uses up part of a measure |
| `Executor.StoppingIsBounded` | apps/agent/src/api/bounded_request_executor.cpp:133-165 | a stopping run has at most that many steps |
| `Executor.StoppingNeverSticks` | apps/agent/src/api/bounded_request_executor.cpp:87-113 | and some step is enabled until all workers have returned and the wait is over |
| `Executor.StopThenWait` | apps/agent/src/api/bounded_request_executor.cpp:77-113 | after a stop request nothing is accepted, and when the wait returns exactly the tasks accepted before have run and none is queued or held |
| `ExecutorRestart.StartTestIsSound` | apps/agent/src/api/bounded_request_executor.cpp:26-28 | outside a join the test in `Start` passes only if no worker thread is left |
| `ExecutorRestart.StartTestFailsIff` | apps/agent/src/api/bounded_request_executor.cpp:26-28 | in every reachable state it passes before the wait under way is over if and only if the wait joins its threads with nothing queued or in flight, or has only asked a pool without threads to stop |
| `ExecutorRestart.StartTestMissesAJoin` | apps/agent/src/api/bounded_request_executor.cpp:26-28 | that case is reachable, with a worker still alive |
| `ExecutorRestart.StartDuringWaitStrands` | apps/agent/src/api/bounded_request_executor.cpp:23-113 | if a worker taken by the wait has not returned at such a start, or the wait has yet to take the workers: that worker, or any new one, does not return and the wait does not end until a stop is requested again |
| `ExecutorRestart.StartBeforeReset` | apps/agent/src/api/bounded_request_executor.cpp:103-113 | if all of them have returned, the wait can end right after the start, on a pool that accepts tasks |
| `ExecutorRestart.SlippedStartLosesTasks` | apps/agent/src/api/bounded_request_executor.cpp:109-113 | whenever the wait ends after such a start, the tasks then queued, all accepted by the new pool, stay missing from everything executed, held or queued until its next start |
| `ExecutorRestart.WrappedCounterRefuses` | apps/agent/src/api/bounded_request_executor.cpp:160-163 | a decrement of the counter the reset has cleared wraps it around, and every submission is refused |
| `ExecutorRestart.StartedBeforeReset` | apps/agent/src/api/bounded_request_executor.cpp:23-113 | a run of the code that reaches such a start with the last joined worker returned |
| `ExecutorRestart.ResetDropsTask` | apps/agent/src/api/bounded_request_executor.cpp:109-113 | from there an accepted task is wiped: not queued, not held, not executed |
| `ExecutorRestart.ResetJamsCounter` | apps/agent/src/api/bounded_request_executor.cpp:109-163 | or it is executed, and the pool then accepts nothing although it is idle |
| `Executor.BoundedRequestExecutor.Start` | apps/agent/src/api/bounded_request_executor.cpp:23-55 | starts if and only if its test passes, in any state, and is then the step of the code |
| `Executor.BoundedRequestExecutor.TrySubmit` | apps/agent/src/api/bounded_request_executor.cpp:57-75 | accepts if and only if accepting, not stopping and below capacity |
| `Executor.BoundedRequestExecutor.RequestStop` | apps/agent/src/api/bounded_request_executor.cpp:77-85 | refuses submissions from then on and leaves queue and counter alone |
| `Executor.BoundedRequestExecutor.WorkerAcquire` | apps/agent/src/api/bounded_request_executor.cpp:137-150 | takes the oldest task, sleeps, or returns if stopped and empty |
| `Executor.BoundedRequestExecutor.WorkerDecrement` | apps/agent/src/api/bounded_request_executor.cpp:160-163 | one step of the machine |
| `Executor.BoundedRequestExecutor.WaitTakeWorkers` | apps/agent/src/api/bounded_request_executor.cpp:90-101 | refuses a worker of the pool, and moves the workers out for any other caller |
| `Executor.BoundedRequestExecutor.WaitReset` | apps/agent/src/api/bounded_request_executor.cpp:109-113 | writes the values that are already there |
| `SessionModel.EventKeepsOk` | apps/agent/src/api/http_session.cpp:47-228 | every event of the network, the pool, the server and the strand keeps the session invariant |
| `SessionModel.SessionProtocol` | apps/agent/src/api/http_session.cpp:95-214 | exactly one continuation exists while a session handles a request; answers never exceed requests read, requests never exceed the limit, the close handler is used at most once |
| `SessionModel.NothingReadAfterClose` | apps/agent/src/api/http_session.cpp:181-195 | after a response announcing close nothing more is read (section 9.6 of RFC 9112) |
| `SessionModel.ReadIs` | apps/agent/src/api/http_session.cpp:95-159 | what becomes of a read: a request is counted and submitted, or answered at once if refused; bad input is answered and ends the connection; an error ends it |
| `SessionModel.ResponseIs` | apps/agent/src/api/http_session.cpp:181-195 | a response keeps the connection alive if and only if it is not forced to end it, the session is not draining, the request asked for that and its number is below the limit |
| `SessionModel.LateResultDropped` | apps/agent/src/api/http_session.cpp:161-184 | a session closed with an answer outstanding stays closed for the rest of its life and neither answers, reads nor writes |
| `SessionModel.ClosedReopensIff` | apps/agent/src/api/http_session.cpp:95-159 | a closed session leaves that state if and only if a read that had succeeded before the close is delivered; it then only writes a refusal to a closed socket, without a second close callback |
| `SessionModel.ClosedSessionReopens` | apps/agent/src/api/http_session.cpp:129-134 | that case is reachable |
| `SessionCode.HttpSession.ReadRequest` | apps/agent/src/api/http_session.cpp:79-93 | the handler is the modelled transition |
| `SessionCode.HttpSession.HandleRead` | apps/agent/src/api/http_session.cpp:95-159 | the handler is the modelled transition |
| `SessionCode.HttpSession.WriteResponse` | apps/agent/src/api/http_session.cpp:181-195 | the handler is the modelled transition |
| `SessionCode.HttpSession.HandleWrite` | apps/agent/src/api/http_session.cpp:197-214 | the handler is the modelled transition |
| `SessionCode.HttpSession.HandleDrain` | apps/agent/src/api/http_session.cpp:63-73 | the handler is the modelled transition |
| `SessionCode.HttpSession.Close` | apps/agent/src/api/http_session.cpp:216-228 | closes once and gives up the close handler |
| `ServerSafety.StepInv` | apps/agent/src/api/http_server.cpp:130-498 | every step of accept strand, session strands, stopping and waiting threads keeps the server invariant |
| `ServerTheorems.CompletionNeverMissed` | apps/agent/src/api/http_server.cpp:417-498 | once stop is requested, the pool drained and no session left, completion has started or its test is running, queued or about to be queued |
| `ServerTheorems.GuardReleasedOnce` | apps/agent/src/api/http_server.cpp:481-498 | the work guard is released at most once, only with the pool drained and idle and no session; clearing the sessions after the join changes nothing |
| `ServerTheorems.WaitNeverSticks` | apps/agent/src/api/http_server.cpp:212-221 | when the I/O threads run out of work during the wait, the guard has been released and the join returns |
| `ServerTheorems.RegisteredIsBusy` | apps/agent/src/api/http_server.cpp:406-433 | a registered session always has a handler, an operation or a request to come |
| `ServerTheorems.ConnectionsBounded` | apps/agent/src/api/http_server.cpp:406-415 | the session set never exceeds its limit and every connection obeys the session protocol |
| `ServerTermination.StepUses` | apps/agent/src/api/http_server.cpp:130-498 | after the stop request every step, clients included, uses up part of a measure |
| `ServerTermination.StoppingIsBounded` | apps/agent/src/api/http_server.cpp:130-243 | no run after a stop request is longer than that measure |
| `ServerTermination.StoppingEndsInDone` | apps/agent/src/api/http_server.cpp:165-243 | and some step, perhaps of a client, is enabled until the waiting thread has joined the I/O threads |
| `ServerDeadline.ListensUntilStopped` | apps/agent/src/api/http_server.cpp:376-404 | until a stop is requested an accept is under way, or its handler is queued or running |
| `ServerDeadline.AllAreAsked` | apps/agent/src/api/http_server.cpp:435-447 | when draining ends every registered session has its drain flag, and if it waits for a request, the drain handler on its strand |
| `ServerDeadline.AskedReadsNoMore` | apps/agent/src/api/http_session.cpp:63-93 | a session with its drain flag begins no read |
| `ServerDeadline.AllAreCondemned` | apps/agent/src/api/http_server.cpp:469-479 | when the forced closing after the grace period ends, every connection ever accepted has its socket closed or the closing handler on its strand |
| `ServerDeadline.CondemnedForGood` | apps/agent/src/api/http_server.cpp:469-479 | and that stays so |
| `ServerDeadline.StopNeedsNoClient` | apps/agent/src/api/http_server.cpp:130-243 | from the stop request until the wait is over some step is enabled that needs no client: no read or write on an open socket and no connection on an open acceptor |
| `ServerCode.HttpServer.RaiseStop` | apps/agent/src/api/http_server.cpp:130-149 | callable at any time: only the first call schedules the stop, and a stopped server is left alone |
| `ServerCode.HttpServer.RegisterSession` | apps/agent/src/api/http_server.cpp:406-415 | registers if and only if not stopping and below the limit |
| `ServerCode.HttpServer.StartAccept` | apps/agent/src/api/http_server.cpp:376-382 | accepts again only while not stopping and open |
| `ServerCode.HttpServer.RemoveSession` | apps/agent/src/api/http_server.cpp:417-423 | erases the session and reports whether it was the last |
| `ServerCode.HttpServer.StopSnapshot` | apps/agent/src/api/http_server.cpp:438-442 | returns exactly the registered sessions |
| `ServerCode.HttpServer.ForceCloseSnapshot` | apps/agent/src/api/http_server.cpp:469-474 | returns exactly the registered sessions |
| `ServerCode.HttpServer.ReadStopFlags` | apps/agent/src/api/http_server.cpp:481-484 | goes on only if drained and not completed |
| `ServerCode.HttpServer.CompleteIfEmpty` | apps/agent/src/api/http_server.cpp:486-497 | completes and releases the guard if and only if no session is left |
| `ServerCode.HttpServer.MarkDrained` | apps/agent/src/api/http_server.cpp:199-203 | one step of the machine |
| `ServerCode.HttpServer.ClearAfterJoin` | apps/agent/src/api/http_server.cpp:218-221 | finds nothing to clear, with completion started |
| `ServerCode.HttpServer.FinishWait` | apps/agent/src/api/http_server.cpp:225-236 | stops the lifecycle; the guard was released before |
| `Health.CounterIsRun` | apps/agent/src/health/health_checker.cpp:51-89 | the counter is the length of the failing run at the end of the history, saturated at 32 bits |
| `Health.UnhealthyIff` | apps/agent/src/health/health_checker.cpp:51-89 | unhealthy if and only if the last max(1, threshold) checks were process checks that found the service down |
| `Health.VerdictOfHistory` | apps/agent/src/health/health_checker.cpp:51-89 | the same with the definition's own threshold, and healthy if and only if the last check found the process running |
| `Health.CheckMeans` | apps/agent/src/health/health_checker.cpp:7-89 | one check: what it reports, and what it makes of the counter |
| `Health.HealthChecker.Check` | apps/agent/src/health/health_checker.cpp:7-44 | counter and status after a check, for every kind of definition |
| `Health.HealthChecker.CheckProcess` | apps/agent/src/health/health_checker.cpp:51-89 | counter and status after a process check |
| `Health.HealthChecker.ForgetService` | apps/agent/src/health/health_checker.cpp:45-47 | forgets one service's counter and leaves every other |
| `ControlTypes.KeyInjective` | apps/agent/src/alerts/alert_evaluator.cpp:269-279 | a key determines service and rule, because neither part may contain the separator |
| `ControlTypes.KeyIsValidEventId` | apps/agent/include/agent/alerts/alert_event.h:29-44 | the 160-character check never rejects a key of valid parts |
| `ControlTypes.PrefixIsService` | apps/agent/src/alerts/alert_evaluator.cpp:93-103 | a key starts with a service's prefix if and only if it is that service's |
| `Alerts.FiresIff` | apps/agent/src/alerts/alert_evaluator.cpp:109-178 | a rule fires if and only if its condition has held without a break since an evaluation at least its duration back, by any clock |
| `Alerts.StartIsLeastOfRun` | apps/agent/src/alerts/alert_evaluator.cpp:155-167 | the stored start is the least evaluation time of the current unbroken run, and absent outside a run |
| `Alerts.AfterRulesKeepsStates` | apps/agent/src/alerts/alert_evaluator.cpp:80-91 | rule states are kept only under keys of well-formed services and rules |
| `Alerts.ForgetsExactlyOneService` | apps/agent/src/alerts/alert_evaluator.cpp:93-103 | forgetting by prefix removes exactly one service's rule states |
| `Alerts.EvaluationIsValid` | apps/agent/src/alerts/alert_evaluator.cpp:109-178 | evaluations of valid rules at valid times are structurally valid |
| `Alerts.AfterRulesAt` | apps/agent/src/alerts/alert_evaluator.cpp:80-91 | in a batch of distinct rules each state and evaluation depends on its own rule only |
| `Alerts.NumericVerdict` | apps/agent/src/alerts/alert_evaluator.cpp:188-215 | the verdict on a numeric rule depends only on the reading of its own metric, and on whether that lies above, at or below the threshold, as its operator says; without a reading there is none |
| `Alerts.HealthVerdict` | apps/agent/src/alerts/alert_evaluator.cpp:217-233 | the verdict on a health rule is whether the health is, or is not, the one named |
| `Alerts.OppositesDisagree` | apps/agent/src/alerts/alert_evaluator.cpp:235-267 | of two rules with opposite operators exactly one is met |
| `Alerts.MoreStaysMet` | apps/agent/src/alerts/alert_evaluator.cpp:235-252 | a rule asking for more stays met when its reading rises, one asking for less when it falls |
| `Alerts.AlertEvaluator.EvaluateRule` | apps/agent/src/alerts/alert_evaluator.cpp:109-178 | state and evaluation of one rule; its condition is met exactly if the rule is enabled and valid and its reading stands to the threshold as the operator says, and it fires exactly if that has lasted its duration |
| `Alerts.AlertEvaluator.Evaluate` | apps/agent/src/alerts/alert_evaluator.cpp:80-91 | states and evaluations of all rules, in order, each with that meaning |
| `Alerts.AlertEvaluator.ForgetService` | apps/agent/src/alerts/alert_evaluator.cpp:93-103 | drops the states with the service's prefix |
| `AlertManagement.ActiveAfterIff` | apps/agent/src/alerts/alert_manager.cpp:27-122 | after a valid evaluation the alert is active if and only if the rule fires and the clock is not behind the moment it was raised; it is dropped if and only if the clock went back |
| `AlertManagement.OutcomeTells` | apps/agent/src/alerts/alert_manager.cpp:40-119 | what a new, a confirmed and a resolved alert say, and what of it does not change |
| `AlertManagement.ReportMatchesStore` | apps/agent/src/alerts/alert_manager.cpp:27-122 | the report lists as many new alerts as were created and exactly the resolutions that were logged |
| `AlertManagement.ReportHolds` | apps/agent/src/alerts/alert_manager.cpp:27-122 | in a batch of distinct rules every outcome is in its list of the report |
| `AlertManagement.AcknowledgeIs` | apps/agent/src/alerts/alert_manager.cpp:207-227 | acknowledging marks the active alert with the id, else the first resolved one, and nothing else |
| `AlertManagement.AlertTellsItsRun` | apps/agent/src/alerts/alert_manager.cpp:47-96 | an active alert's times and count are those of the firing evaluations since it was raised |
| `AlertManagement.LifecycleConserved` | apps/agent/src/alerts/alert_manager.cpp:27-255 | over any batches, acknowledgements and forgets: created = active + resolved + dropped + forgotten, active alerts well formed under their own ids, resolved list a bounded end of the resolution log |
| `AlertManagement.ResolvedIsLast` | apps/agent/src/alerts/alert_manager.cpp:292-298 | with nothing forgotten, the resolved list is exactly the last resolutions up to capacity |
| `AlertManagement.ForgetKeepsOk` | apps/agent/src/alerts/alert_manager.cpp:231-249 | forgetting keeps the invariant and leaves exactly the other services' resolved alerts |
| `AlertManagement.ApplyAllAt` | apps/agent/src/alerts/alert_manager.cpp:27-122 | in a batch of distinct rules each alert depends on its own evaluation only |
| `AlertDisplay.BeforeIsStrict` | apps/agent/src/alerts/alert_manager.cpp:267-291 | the display order is irreflexive, asymmetric and total on alerts of different rules |
| `AlertDisplay.BeforeIsTransitive` | apps/agent/src/alerts/alert_manager.cpp:267-291 | and transitive |
| `AlertDisplay.SortedReads` | apps/agent/src/alerts/alert_manager.cpp:267-291 | a sorted list shows critical alerts first and informational ones last, then active ones first, then the latest, then by service and rule |
| `AlertDisplay.LessIff` | apps/agent/src/alerts/alert_manager.cpp:286-290 | names are compared as in a dictionary |
| `AlertDisplay.DisplayIsUnique` | apps/agent/src/alerts/alert_manager.cpp:123-137 | the sorted list does not depend on the order of the hash table |
| `AlertManagerCode.AlertManager.ApplyEvaluations` | apps/agent/src/alerts/alert_manager.cpp:27-122 | the whole new state and report of a batch |
| `AlertManagerCode.AlertManager.ApplyOne` | apps/agent/src/alerts/alert_manager.cpp:32-119 | one evaluation's effect; the checks of id and new alert never reject it |
| `AlertManagerCode.AlertManager.PushResolved` | apps/agent/src/alerts/alert_manager.cpp:292-298 | appends within capacity, dropping the oldest |
| `AlertManagerCode.AlertManager.GetActiveAlerts` | apps/agent/src/alerts/alert_manager.cpp:123-137 | the one list that displays the active alerts |
| `AlertManagerCode.AlertManager.GetAlertsForService` | apps/agent/src/alerts/alert_manager.cpp:159-182 | the one list that displays a service's active alerts; on demand its resolved alerts among them, sorted, nothing lost or added |
| `AlertDisplay.OwnBelong` | apps/agent/src/alerts/alert_manager.cpp:159-182 | the resolved alerts listed for a service are exactly its own |
| `AlertDisplay.OwnAndOthers` | apps/agent/src/alerts/alert_manager.cpp:231-249 | what forgetting keeps and what it removes are together all resolved alerts, each as often as before |
| `AlertManagerCode.AlertManager.AcknowledgeAndGet` | apps/agent/src/alerts/alert_manager.cpp:207-227 | acknowledges the active alert with the id, or else the first resolved one, or nothing |
| `AlertManagerCode.AlertManager.ForgetService` | apps/agent/src/alerts/alert_manager.cpp:231-249 | the whole new state |
| `Recovery.RestartBudget` | apps/agent/src/recovery/recovery_manager.cpp:305-323 | by any clock: attempts never go back, keep max(backoff, grace) between them, and no closed window holds more than the allowed number |
| `Recovery.SuppressionsSpaced` | apps/agent/src/recovery/recovery_manager.cpp:325-337 | announced suppressions of a service keep the cool-down between them, by any clock |
| `Recovery.QueueIsExact` | apps/agent/src/recovery/recovery_manager.cpp:305-314 | at every budget decision the pruned queue is exactly the recorded attempts within the window, in order |
| `Recovery.NothingPruned` | apps/agent/src/recovery/recovery_manager.cpp:117-136 | when the limit is reached nothing has been pruned: pruning is always followed by an attempt |
| `Recovery.CountsAreExact` | apps/agent/src/recovery/recovery_manager.cpp:117-198 | the counts in started, succeeded, failed and limit-suppressed events are exact over the full history |
| `Recovery.SuppressedCountIff` | apps/agent/src/recovery/recovery_manager.cpp:57-136 | the count in every suppression is the length of the queue; it is the number of attempts within the window if and only if the queue is current, which, while the clock is not behind the last attempt, means that no queued attempt is older than the window |
| `Recovery.HistoryHolds` | apps/agent/src/recovery/recovery_manager.cpp:23-199 | the invariant behind these over all call sequences |
| `RecoveryDecision.TriggerIff` | apps/agent/src/recovery/recovery_manager.cpp:267-294 | recovery is triggered if and only if the service is unhealthy or one of its active alerts is critical, where the policy wants that; unhealthiness goes first, and else the first such alert is named |
| `RecoveryDecision.ActsIff` | apps/agent/src/recovery/recovery_manager.cpp:41-136 | one evaluation acts if and only if policy, trigger and desired state say so, the service was seen healthy or starts automatically, backoff and grace since the last attempt are over, and fewer attempts than allowed lie within the window; it restarts a running process and starts one that does not run |
| `RecoveryDecision.RestartsIff` | apps/agent/src/recovery/recovery_manager.cpp:23-199 | the same over every sequence of evaluations |
| `RecoveryDecision.AttemptAnnounces` | apps/agent/src/recovery/recovery_manager.cpp:138-198 | an attempt announces its start and its end, with the triggering alert and the supervisor's error |
| `RecoveryDecision.SuppressionAnnounces` | apps/agent/src/recovery/recovery_manager.cpp:57-136 | a suppression is announced if and only if the last announcement is a cool-down ago |
| `Recovery.OtherEventsAre` | apps/agent/src/recovery/recovery_manager.cpp:246-258 | forgetting removes a service's events and no other |
| `RecoveryCode.OwnEventsAre` | apps/agent/src/recovery/recovery_manager.cpp:223-244 | the events listed from are exactly the service's own |
| `RecoveryCode.ListedBackwards` | apps/agent/src/recovery/recovery_manager.cpp:223-244 | the list of a service is its newest events up to the limit, newest first |
| `Recovery.ActsOnTrigger` | apps/agent/src/recovery/recovery_manager.cpp:41-55 | an operation needs an enabled policy, a trigger and desired state Running, and is a restart if and only if the process runs |
| `Recovery.NotBeforeHealthy` | apps/agent/src/recovery/recovery_manager.cpp:57-75 | an unhealthy service without automatic start is left alone until it was seen healthy |
| `RecoveryCode.RecoveryManager.EvaluateAndRecover` | apps/agent/src/recovery/recovery_manager.cpp:23-199 | new state, events, event log and operation of one evaluation |
| `RecoveryCode.RecoveryManager.Decide` | apps/agent/src/recovery/recovery_manager.cpp:41-136 | the tests of an evaluation, in order |
| `RecoveryCode.RecoveryManager.FindTrigger` | apps/agent/src/recovery/recovery_manager.cpp:267-294 | unhealthiness first, else the first active critical alert |
| `RecoveryCode.RecoveryManager.HasRestartBudget` | apps/agent/src/recovery/recovery_manager.cpp:305-314 | prunes the queue and compares with the limit |
| `RecoveryCode.RecoveryManager.AttemptRestart` | apps/agent/src/recovery/recovery_manager.cpp:138-198 | both events, the operation and the recorded attempt |
| `RecoveryCode.RecoveryManager.AnnounceSuppression` | apps/agent/src/recovery/recovery_manager.cpp:57-75 | announces at most once per cool-down |
| `RecoveryCode.RecoveryManager.PushRecentEvent` | apps/agent/src/recovery/recovery_manager.cpp:339-345 | appends within capacity, dropping the oldest |
| `RecoveryCode.RecoveryManager.ForgetService` | apps/agent/src/recovery/recovery_manager.cpp:246-258 | forgets a service's state and events |
| `RecoveryCode.RecoveryManager.GetEventsForService` | apps/agent/src/recovery/recovery_manager.cpp:223-244 | the newest events of a service, newest first |
| `RecoveryCode.ListedBelong` | apps/agent/src/recovery/recovery_manager.cpp:223-244 | within the limit, only the service's events, and all of them if they fit |
| `MonitorRuns.StateIsHistory` | apps/agent/src/health/health_monitor.cpp:89-170 | in every run all that is remembered of a service is a function of its observations since it was last unlisted |
| `MonitorRuns.RestartJustified` | apps/agent/src/health/health_monitor.cpp:89-170 | every automatic restart or start is justified by observations ending in that round: down for the threshold, or a critical rule held for its duration; by any clock |
| `MonitorRuns.RestartCanHappen` | apps/agent/src/health/health_monitor.cpp:89-170 | and such restarts happen: a run whose first round starts a service that is down |
| `MonitorRestarts.RestartIff` | apps/agent/src/health/health_monitor.cpp:89-170 | by any clock: a service is started or restarted in a round if and only if its observations, its policy and the attempts made so far say so |
| `MonitorRestarts.TriggeredIsJustified` | apps/agent/src/health/health_monitor.cpp:89-170 | if the clock never runs back the trigger is the justification of `RestartJustified` |
| `MonitorRestarts.JustifiedIsRestarted` | apps/agent/src/health/health_monitor.cpp:89-170 | and a justified service that nothing holds back is restarted in that round |
| `MonitorRestarts.AttemptsGrow` | apps/agent/src/health/health_monitor.cpp:138-154 | the attempts that count are those of the rounds that acted since the service was last unlisted |
| `MonitorRestarts.SeenAlways` | apps/agent/src/health/health_monitor.cpp:138-154 | recovery knows whether the service was seen healthy since it was last unlisted |
| `MonitorRestarts.SampleAt` | apps/agent/src/health/health_monitor.cpp:118-130 | a rule is evaluated on the metrics of the observation and on the health found with it |
| `MonitorRestarts.LatestIsHealth` | apps/agent/src/health/health_monitor.cpp:94-169 | the published health has one entry for every listed service, of this round, as its observations give it; unknown without a supervisor |
| `MonitorAlerts.ActiveIsHistory` | apps/agent/src/health/health_monitor.cpp:89-170 | by any clock, after every run: which alerts of a service are active, and when each was raised, is a function of its observations alone |
| `MonitorAlerts.ActiveByAnyClock` | apps/agent/src/health/health_monitor.cpp:89-170 | by any clock: after a round the alert of an examined rule is active if and only if the rule has held for its duration and the clock is not behind the moment the alert was raised |
| `MonitorAlerts.SteppedClockDropsAlert` | apps/agent/src/alerts/alert_manager.cpp:87-91 | two rounds, the second by an earlier clock, in which the rule holds and its alert is gone |
| `MonitorAlerts.ActiveIsHeld` | apps/agent/src/health/health_monitor.cpp:89-170 | by any clock every active alert is that of a registered rule that has held for its duration |
| `MonitorAlerts.ActiveIffFiring` | apps/agent/src/health/health_monitor.cpp:89-170 | if the clock never runs back, of all rules of all registered services exactly those that have held for their duration have an active alert |
| `MonitorAlerts.ActiveTable` | apps/agent/src/health/health_monitor.cpp:89-170 | and the whole table of active alerts is exactly that set of rules |
| `MonitorRuns.LoopKeepsBudget` | apps/agent/src/health/health_monitor.cpp:138-154 | the restart budget over any run of the loop, by any clock |
| `MonitorRuns.HistoryIsConsecutive` | apps/agent/src/health/health_monitor.cpp:104-134 | a service's history is its listings in the last rounds without a gap |
| `MonitorRuns.FiringIff` | apps/agent/src/alerts/alert_evaluator.cpp:161-173 | firing over a history means that the condition held for the duration |
| `MonitorTheorems.ExaminedAt` | apps/agent/src/health/health_monitor.cpp:104-134 | examining all services updates each one as if it were alone |
| `MonitorTheorems.EvaluationsBelong` | apps/agent/src/health/health_monitor.cpp:128-134 | the batch holds one evaluation per rule, all with different keys |
| `MonitorTheorems.BatchMatches` | apps/agent/src/health/health_monitor.cpp:130-136 | after the batch a service's alert is active only for a rule that fires now |
| `MonitorCode.HealthMonitor.ExamineServices` | apps/agent/src/health/health_monitor.cpp:94-134 | the first loop |
| `MonitorCode.HealthMonitor.RecoverServices` | apps/agent/src/health/health_monitor.cpp:138-154 | the second loop |
| `MonitorCode.HealthMonitor.ForgetMissing` | apps/agent/src/health/health_monitor.cpp:156-166 | forgets the services no longer listed, in any table order |
| `MonitorCode.HealthMonitor.CheckOnce` | apps/agent/src/health/health_monitor.cpp:89-170 | the whole round is the modelled transition |
| `LogReader.LinesPartitionText` | apps/agent/src/service/log_reader.cpp:16-35 | the lines are the pieces of the text between newlines: nothing lost, nothing invented |
| `LogReader.LinesArePieces` | apps/agent/src/service/log_reader.cpp:16-35 | every line is its piece without its newline and without a carriage return directly before it or at the end of an unterminated piece |
| `LogReader.LastLinesArePieces` | apps/agent/src/service/log_reader.cpp:16-117 | the last lines are those of the last pieces, as many as asked for or there are |
| `LogReader.KeepLastLines` | apps/agent/src/service/log_reader.cpp:16-35 | the last lines of a text |
| `LogReader.LinesAfterNewline` | apps/agent/src/service/log_reader.cpp:89-106 | the lines after a newline are the end of all lines |
| `LogReader.WindowSuffices` | apps/agent/src/service/log_reader.cpp:105-113 | a window with enough complete lines yields the file's last lines |
| `LogReader.ReadLastLines` | apps/agent/src/service/log_reader.cpp:39-117 | the last lines of the whole file, for every content and count; each error in exactly its case, a failed seek if and only if it falls into a round that is needed |
| `LogReader.ReadWindow` | apps/agent/src/service/log_reader.cpp:70-113 | one round: finds the last lines if and only if the window is the whole file or has enough lines after its first newline |
| `LogReader.Doubled` | apps/agent/src/service/log_reader.cpp:115 | the next window is larger, within the file, and does not overflow |
| `TickConversion.AddWithoutOverflow` | apps/agent/src/metrics/macos_metrics_reader.cpp:26-34 | succeeds if and only if the sum fits in 64 bits |
| `TickConversion.ConvertMachTicksToNanoseconds` | apps/agent/src/metrics/macos_metrics_reader.cpp:38-70 | succeeds if and only if floor(ticks * numer / denom) fits in 64 bits, and is that floor |
| `TickConversion.IntermediatesFit` | apps/agent/src/metrics/macos_metrics_reader.cpp:49-67 | no intermediate value overflows, and the guards fail exactly when the result does not fit |
| `TickConversion.ScaledIsFloor` | apps/agent/src/metrics/macos_metrics_reader.cpp:38-70 | the value is the floor of the exact quotient |
| `TickConversion.ScalingIsMonotone` | apps/agent/src/metrics/macos_metrics_reader.cpp:38-70 | more ticks are never fewer nanoseconds |
| `Metrics.MetricsSampler.Sample` | apps/agent/src/metrics/metrics_sampler.cpp:9-118 | which samples are accepted, the new baseline and the reported metrics |
| `Metrics.CpuValueIs` | apps/agent/src/metrics/metrics_sampler.cpp:63-113 | a value is reported if and only if both samples are of one process run on the same CPUs, no counter went back, time advanced, and no more than all CPUs were used; it is the share used |
| `Metrics.PercentIsNotNegative` | apps/agent/src/metrics/metrics_sampler.cpp:92-113 | the percentage is never negative |
| `Metrics.CpuAccountTelescopes` | apps/agent/src/metrics/metrics_sampler.cpp:81-117 | over consecutive samples that all report a value, the reported values account for exactly the CPU time that passed |
| `JsonString.JsonEscape` | apps/agent/src/api/http_json.cpp:11-49 | the loop computes the escaped form |
| `JsonString.EscapesAre` | apps/agent/src/api/http_json.cpp:14-47 | the escapes are those of section 7 of RFC 8259, and nothing else is changed |
| `JsonString.DigitsAre` | apps/agent/src/api/http_json.cpp:37-43 | the hexadecimal digits |
| `JsonString.EscapeRoundTrip` | apps/agent/src/api/http_json.cpp:11-49 | a decoder after section 7 of RFC 8259 recovers every byte string |
| `JsonString.NoControlCharacter` | apps/agent/src/api/http_json.cpp:37-43 | the output holds no byte below 0x20 |
| `JsonString.EndsWhereWritten` | apps/agent/src/api/http_json.cpp:14-19 | no unescaped quote: in any document the string ends at the quote written behind it |

## Left out

- Supervisor.ProcessSupervisor.FinishWait: the machine chooses in each round whether the deadline has passed, so the three seconds of each stop timeout appear only as the method's deadline parameter.
- Metrics.MetricsSampler.Sample: percentages are real numbers; the rounding of `long double` and `double`, and the tests for values that are not finite, are not modelled.
- Alerts.AlertEvaluator.EvaluateRule: messages are modelled only as nonempty texts, without the formatted numbers; counts compared with a threshold are not rounded to `double`.
- MonitorCode.HealthMonitor.CheckOnce: a manual stop between recovery's look at the status and its start is not modelled; the statements are about the status that recovery read.
- AlertManagerCode.AlertManager.GetAlertsForService: with resolved alerts the order of alerts with equal keys is left to the sort, as the library's is.
- Exception-only paths: failed posting or dispatching, failed creation of threads, exceptions of I/O workers, the cleanup of a failed server start.
- Pid reuse, EPERM from `kill`, and errors of `waitpid` other than EINTR.
- Exit codes, signals, up-time and last-error texts of a service's status.
- Sockets, the HTTP parser, timers and file descriptors themselves, and the order of bytes on a connection.
- Loading the configuration, the service registry, routing of HTTP requests and the response builders.
- Reading process statistics from the operating system, the metrics history, and the desktop application.
- Listing functions over bounded histories other than those in the table, and clearing of whole components.

/**
 The bounded worker pool behind the HTTP server: a FIFO of tasks, an in-flight
 counter, and workers blocked on one condition variable.

 Every critical section under the pool's mutex, every notification and every task
 body is one atomic step of the machine below, so a run of the machine is one
 interleaving of callers and workers. `BoundedRequestExecutor` holds the fields of
 the pool; each of its methods is one critical section and is proved to be exactly
 one step of the machine.
 */
module Executor {
  import opened Common

  /** Where a worker thread stands: about to take the mutex at the top of its loop,
      blocked in the condition variable, running a task, about to decrement the
      in-flight counter, or returned. */
  datatype Worker = AtLock | Asleep | Running(task: nat) | Finishing | Exited

  datatype Waiter = NoWaiter | StopAsked | Joining

  /** `joined` counts the threads at the front of `threads` that the wait under way has taken
      out of the vector; `inVector` says whether the others are in it. `accepted`, `dequeued`
      and `ran` record what happened since the last start; `notifyOne` and `notifyAll` count
      notifications decided on but not yet issued, because both are issued after the mutex is
      released. */
  datatype State = State(
    workerCount: nat,
    capacity: nat,
    accepting: bool,
    stopRequested: bool,
    tasks: seq<nat>,
    inFlight: nat,
    threads: seq<Worker>,
    inVector: bool,
    joined: nat,
    notifyOne: nat,
    notifyAll: nat,
    waiter: Waiter,
    accepted: seq<nat>,
    dequeued: seq<nat>,
    ran: seq<nat>)

  datatype Event =
    | Start
    | Submit(task: nat)
    | RequestStop
    | NotifyOne(woken: nat)
    | NotifyAll
    | SpuriousWake(w: nat)
    | Acquire(w: nat)
    | RunTask(w: nat)
    | Decrement(w: nat)
    | WaitBegin
    | WaitRefused(w: nat)
    | WaitTake
    | WaitReset

  // Counting over the worker threads

  function Sum(ws: seq<Worker>, f: Worker -> nat): nat {
    if ws == [] then 0 else f(ws[0]) + Sum(ws[1..], f)
  }

  function TaskOf(w: Worker): multiset<nat> {
    if w.Running? then multiset{w.task} else multiset{}
  }

  /** The tasks taken from the queue that have not run yet. */
  function Held(ws: seq<Worker>): multiset<nat> {
    if ws == [] then multiset{} else TaskOf(ws[0]) + Held(ws[1..])
  }

  function Busy(w: Worker): nat { if w.Running? || w.Finishing? then 1 else 0 }

  function Ready(w: Worker): nat { if w.AtLock? then 1 else 0 }

  function Woken(w: Worker): Worker { if w.Asleep? then AtLock else w }

  function WakeAll(ws: seq<Worker>): (r: seq<Worker>)
    ensures |r| == |ws|
    ensures forall i :: 0 <= i < |ws| ==> r[i] == Woken(ws[i])
  {
    if ws == [] then [] else [Woken(ws[0])] + WakeAll(ws[1..])
  }

  predicate SomeAsleep(ws: seq<Worker>) {
    exists i :: 0 <= i < |ws| && ws[i].Asleep?
  }

  predicate AllExited(ws: seq<Worker>) {
    forall i :: 0 <= i < |ws| ==> ws[i].Exited?
  }

  lemma {:induction false} SumUpdate(ws: seq<Worker>, f: Worker -> nat, i: nat, x: Worker)
    requires i < |ws|
    ensures Sum(ws[i := x], f) + f(ws[i]) == Sum(ws, f) + f(x)
  {
    if i == 0 {
      assert ws[i := x][1..] == ws[1..];
    } else {
      assert ws[i := x][1..] == ws[1..][i - 1 := x];
      SumUpdate(ws[1..], f, i - 1, x);
    }
  }

  lemma ReplaceFirst(gone: multiset<nat>, rest: multiset<nat>, come: multiset<nat>)
    ensures come + rest == (gone + rest) - gone + come
  {
  }

  lemma ReplaceInRest(first: multiset<nat>, rest: multiset<nat>, gone: multiset<nat>, come: multiset<nat>)
    requires gone <= rest
    ensures gone <= first + rest
    ensures first + (rest - gone + come) == (first + rest) - gone + come
  {
  }

  lemma {:induction false} HeldUpdate(ws: seq<Worker>, i: nat, x: Worker)
    requires i < |ws|
    ensures TaskOf(ws[i]) <= Held(ws)
    ensures Held(ws[i := x]) == Held(ws) - TaskOf(ws[i]) + TaskOf(x)
  {
    if i == 0 {
      assert ws[i := x][1..] == ws[1..];
      ReplaceFirst(TaskOf(ws[0]), Held(ws[1..]), TaskOf(x));
    } else {
      assert ws[i := x][1..] == ws[1..][i - 1 := x];
      HeldUpdate(ws[1..], i - 1, x);
      ReplaceInRest(TaskOf(ws[0]), Held(ws[1..]), TaskOf(ws[i]), TaskOf(x));
    }
  }

  lemma {:induction false} WakeAllCounts(ws: seq<Worker>)
    ensures Held(WakeAll(ws)) == Held(ws)
    ensures Sum(WakeAll(ws), Busy) == Sum(ws, Busy)
    ensures Sum(WakeAll(ws), Weight) <= Sum(ws, Weight)
    ensures !SomeAsleep(WakeAll(ws))
  {
    if ws != [] {
      assert WakeAll(ws)[1..] == WakeAll(ws[1..]);
      WakeAllCounts(ws[1..]);
    }
  }

  lemma {:induction false} FreshCounts(n: nat)
    ensures Held(seq(n, _ => AtLock)) == multiset{}
    ensures Sum(seq(n, _ => AtLock), Busy) == 0
  {
    if n > 0 {
      assert seq(n, _ => AtLock)[1..] == seq(n - 1, _ => AtLock);
      FreshCounts(n - 1);
    }
  }

  lemma {:induction false} ExitedCounts(ws: seq<Worker>)
    requires AllExited(ws)
    ensures Held(ws) == multiset{} && Sum(ws, Busy) == 0 && Sum(ws, Weight) == 0
  {
    if ws != [] {
      ExitedCounts(ws[1..]);
    }
  }

  // The machine

  predicate Init(s: State) {
    && s.workerCount > 0 && s.capacity > 0
    && s == State(s.workerCount, s.capacity, false, false, [], 0, [], false, 0, 0, 0, NoWaiter, [], [], [])
  }

  /** The test `Start` makes before it creates threads. */
  predicate StartAllowed(s: State) {
    !s.accepting && (s.threads == [] || !s.inVector) && s.tasks == [] && s.inFlight == 0
  }

  predicate SubmitAllowed(s: State) {
    s.accepting && !s.stopRequested && s.inFlight < s.capacity
  }

  /** What the pool's code lets happen. A worker whose task calls `Wait` is refused; a wait
      ends when the threads it has taken have returned. */
  predicate Possible(s: State, e: Event) {
    match e
    case Start => StartAllowed(s)
    case Submit(_) => SubmitAllowed(s)
    case RequestStop => true
    case NotifyOne(w) => s.notifyOne > 0 && (SomeAsleep(s.threads) ==> w < |s.threads| && s.threads[w].Asleep?)
    case NotifyAll => s.notifyAll > 0
    case SpuriousWake(w) => w < |s.threads| && s.threads[w].Asleep?
    case Acquire(w) => w < |s.threads| && s.threads[w].AtLock?
    case RunTask(w) => w < |s.threads| && s.threads[w].Running?
    case Decrement(w) => w < |s.threads| && s.threads[w].Finishing?
    case WaitBegin => s.waiter.NoWaiter?
    case WaitRefused(w) => s.waiter.StopAsked? && s.inVector && w < |s.threads| && s.threads[w].Running?
    case WaitTake => s.waiter.StopAsked?
    case WaitReset => s.waiter.Joining? && s.joined <= |s.threads| && AllExited(s.threads[..s.joined])
  }

  /** The counter is an unsigned 64-bit number. */
  function Decremented(n: nat): nat {
    if n == 0 then UINT64_MAX else n - 1
  }

  function After(s: State, e: Event): State
    requires Possible(s, e)
  {
    match e
    case Start =>
      s.(accepting := true, stopRequested := false, threads := s.threads + seq(s.workerCount, _ => AtLock),
         inVector := true, accepted := [], dequeued := [], ran := [])
    case Submit(t) =>
      s.(tasks := s.tasks + [t], inFlight := s.inFlight + 1, notifyOne := s.notifyOne + 1, accepted := s.accepted + [t])
    case RequestStop => Stopped(s)
    case NotifyOne(w) =>
      var s' := s.(notifyOne := s.notifyOne - 1);
      if SomeAsleep(s.threads) then s'.(threads := s.threads[w := AtLock]) else s'
    case NotifyAll => s.(notifyAll := s.notifyAll - 1, threads := WakeAll(s.threads))
    case SpuriousWake(w) => s.(threads := s.threads[w := AtLock])
    case Acquire(w) =>
      if s.tasks != [] then
        s.(tasks := s.tasks[1..], threads := s.threads[w := Running(s.tasks[0])], dequeued := s.dequeued + [s.tasks[0]])
      else
        s.(threads := s.threads[w := if s.stopRequested then Exited else Asleep])
    case RunTask(w) => s.(threads := s.threads[w := Finishing], ran := s.ran + [s.threads[w].task])
    case Decrement(w) => s.(threads := s.threads[w := AtLock], inFlight := Decremented(s.inFlight))
    case WaitBegin => Stopped(s).(waiter := StopAsked)
    case WaitRefused(_) => s.(waiter := NoWaiter)
    case WaitTake => s.(inVector := false, joined := |s.threads|, waiter := Joining)
    case WaitReset =>
      s.(tasks := [], inFlight := 0, stopRequested := false, threads := s.threads[s.joined..], joined := 0,
         waiter := NoWaiter)
  }

  /** The server that owns the pool starts a new one only after a wait has finished: these
      are the steps of a pool whose owner keeps to that. */
  predicate Enabled(s: State, e: Event) {
    Possible(s, e) && (e.Start? ==> s.waiter.NoWaiter?)
  }

  function Stopped(s: State): State {
    s.(accepting := false, stopRequested := true, notifyAll := s.notifyAll + 1)
  }

  // What every reachable state satisfies

  /** Nothing is lost between submission and execution, and the queue is served in
      submission order. */
  ghost predicate Conserved(s: State) {
    && s.accepted == s.dequeued + s.tasks
    && multiset(s.ran) + Held(s.threads) == multiset(s.dequeued)
  }

  ghost predicate Counted(s: State) {
    s.inFlight == |s.tasks| + Sum(s.threads, Busy) && s.inFlight <= s.capacity
  }

  /** While any worker sleeps, each queued task has its own worker on the way or a
      notification about to be issued; once stop is requested, a sleeping worker has a
      broadcast coming. */
  ghost predicate NoLostWakeup(s: State) {
    && (SomeAsleep(s.threads) ==> |s.tasks| <= s.notifyOne + Sum(s.threads, Ready))
    && (SomeAsleep(s.threads) && s.stopRequested ==> s.notifyAll > 0)
  }

  ghost predicate Phases(s: State) {
    && s.workerCount > 0 && s.capacity > 0
    && (s.threads != [] ==> |s.threads| == s.workerCount && s.accepting == !s.stopRequested)
    && (s.threads == [] ==> !s.accepting && s.tasks == [])
    && (forall i :: 0 <= i < |s.threads| && s.threads[i].Exited? ==> s.stopRequested && s.tasks == [])
    && (s.accepting ==> s.inVector)
    && (!s.waiter.NoWaiter? ==> s.stopRequested)
    && (s.waiter.Joining? ==> !s.inVector)
    && (s.threads != [] && !s.inVector ==> s.waiter.Joining?)
    && s.joined == (if s.waiter.Joining? then |s.threads| else 0)
  }

  ghost predicate Inv(s: State) {
    Phases(s) && Conserved(s) && Counted(s) && NoLostWakeup(s)
  }

  lemma InitInv(s: State)
    requires Init(s)
    ensures Inv(s)
  {
  }

  lemma WorkerCounts(s: State, w: nat, x: Worker)
    requires w < |s.threads|
    ensures TaskOf(s.threads[w]) <= Held(s.threads)
    ensures Held(s.threads[w := x]) == Held(s.threads) - TaskOf(s.threads[w]) + TaskOf(x)
    ensures Sum(s.threads[w := x], Busy) + Busy(s.threads[w]) == Sum(s.threads, Busy) + Busy(x)
    ensures Sum(s.threads[w := x], Ready) + Ready(s.threads[w]) == Sum(s.threads, Ready) + Ready(x)
    ensures SomeAsleep(s.threads[w := x]) && !x.Asleep? ==> SomeAsleep(s.threads)
  {
    HeldUpdate(s.threads, w, x);
    SumUpdate(s.threads, Busy, w, x);
    SumUpdate(s.threads, Ready, w, x);
  }

  lemma StepPhases(s: State, e: Event)
    requires Phases(s) && Enabled(s, e)
    ensures Phases(After(s, e))
  {
  }

  predicate WorkerEvent(e: Event) {
    e.SpuriousWake? || e.Acquire? || e.RunTask? || e.Decrement?
  }

  lemma HeldTake(ws: seq<Worker>, w: nat, t: nat)
    requires w < |ws| && ws[w].AtLock?
    ensures Held(ws[w := Running(t)]) == Held(ws) + multiset{t}
  {
    HeldUpdate(ws, w, Running(t));
  }

  lemma HeldKeep(ws: seq<Worker>, w: nat, x: Worker)
    requires w < |ws| && !ws[w].Running? && !x.Running?
    ensures Held(ws[w := x]) == Held(ws)
  {
    HeldUpdate(ws, w, x);
  }

  lemma TakeBag(ran: multiset<nat>, held: multiset<nat>, dequeued: seq<nat>, t: nat)
    requires ran + held == multiset(dequeued)
    ensures ran + (held + multiset{t}) == multiset(dequeued + [t])
  {
  }

  lemma MoveFront(dequeued: seq<nat>, tasks: seq<nat>)
    requires tasks != []
    ensures dequeued + tasks == (dequeued + [tasks[0]]) + tasks[1..]
  {
  }

  lemma AcquireConserved(s: State, w: nat)
    requires Conserved(s) && Enabled(s, Acquire(w))
    ensures Conserved(After(s, Acquire(w)))
  {
    if s.tasks == [] {
      HeldKeep(s.threads, w, After(s, Acquire(w)).threads[w]);
    } else {
      HeldTake(s.threads, w, s.tasks[0]);
      TakeBag(multiset(s.ran), Held(s.threads), s.dequeued, s.tasks[0]);
      MoveFront(s.dequeued, s.tasks);
    }
  }

  lemma RunTaskConserved(s: State, w: nat)
    requires Conserved(s) && Enabled(s, RunTask(w))
    ensures Conserved(After(s, RunTask(w)))
  {
    var s' := After(s, RunTask(w));
    HeldUpdate(s.threads, w, Finishing);
    assert multiset(s'.ran) + Held(s'.threads) == multiset(s.ran) + Held(s.threads);
  }

  lemma WorkerConserved(s: State, e: Event)
    requires Conserved(s) && Enabled(s, e) && WorkerEvent(e)
    ensures Conserved(After(s, e))
  {
    if e.Acquire? {
      AcquireConserved(s, e.w);
    } else if e.RunTask? {
      RunTaskConserved(s, e.w);
    } else {
      HeldKeep(s.threads, e.w, AtLock);
    }
  }

  lemma NotifyConserved(s: State, e: Event)
    requires Conserved(s) && Enabled(s, e) && (e.NotifyOne? || e.NotifyAll?)
    ensures Conserved(After(s, e))
  {
    if e.NotifyAll? {
      WakeAllCounts(s.threads);
    } else if SomeAsleep(s.threads) {
      HeldKeep(s.threads, e.woken, AtLock);
    }
  }

  lemma CallerConserved(s: State, e: Event)
    requires Phases(s) && Conserved(s) && Enabled(s, e)
    requires !WorkerEvent(e) && !e.NotifyOne? && !e.NotifyAll?
    ensures Conserved(After(s, e))
  {
    if e.Start? {
      FreshPool(s);
    } else if e.Submit? {
      assert s.accepted + [e.task] == s.dequeued + (s.tasks + [e.task]);
    } else if e.WaitReset? {
      AllReturned(s);
    }
  }

  lemma FreshPool(s: State)
    requires Phases(s) && Enabled(s, Start)
    ensures After(s, Start).threads == seq(s.workerCount, _ => AtLock)
    ensures Held(After(s, Start).threads) == multiset{} && Sum(After(s, Start).threads, Busy) == 0
  {
    assert [] + seq(s.workerCount, _ => AtLock) == seq(s.workerCount, _ => AtLock);
    FreshCounts(s.workerCount);
  }

  /** At the end of a wait every worker has returned. */
  lemma AllReturned(s: State)
    requires Phases(s) && Enabled(s, WaitReset)
    ensures AllExited(s.threads) && After(s, WaitReset).threads == [] && s.tasks == []
    ensures Held(s.threads) == multiset{} && Sum(s.threads, Busy) == 0 && Sum(s.threads, Weight) == 0
  {
    assert s.threads[..s.joined] == s.threads;
    ExitedCounts(s.threads);
    assert s.threads != [] ==> s.threads[0].Exited?;
  }

  lemma WorkerCounted(s: State, e: Event)
    requires Counted(s) && Enabled(s, e) && WorkerEvent(e)
    ensures Counted(After(s, e))
  {
    if e.Decrement? {
      BusyIsCounted(s.threads, e.w);
    }
    SumUpdate(s.threads, Busy, e.w, After(s, e).threads[e.w]);
  }

  lemma StepCounted(s: State, e: Event)
    requires Phases(s) && Counted(s) && Enabled(s, e) && !WorkerEvent(e)
    ensures Counted(After(s, e))
  {
    match e
    case Start => FreshPool(s);
    case WaitReset => AllReturned(s);
    case NotifyOne(w) =>
      if SomeAsleep(s.threads) { SumUpdate(s.threads, Busy, w, AtLock); }
    case NotifyAll => WakeAllCounts(s.threads);
    case _ =>
  }

  lemma StepNoLostWakeup(s: State, e: Event)
    requires Phases(s) && NoLostWakeup(s) && Enabled(s, e)
    ensures NoLostWakeup(After(s, e))
  {
    match e
    case NotifyOne(w) =>
      if SomeAsleep(s.threads) { WorkerCounts(s, w, AtLock); }
    case NotifyAll => WakeAllCounts(s.threads);
    case SpuriousWake(w) => WorkerCounts(s, w, AtLock);
    case Acquire(w) => WorkerCounts(s, w, After(s, e).threads[w]);
    case RunTask(w) => WorkerCounts(s, w, Finishing);
    case Decrement(w) => WorkerCounts(s, w, AtLock);
    case Start => FreshPool(s);
    case WaitReset => AllReturned(s);
    case _ =>
  }

  lemma StepInv(s: State, e: Event)
    requires Inv(s) && Enabled(s, e)
    ensures Inv(After(s, e))
  {
    StepPhases(s, e);
    if WorkerEvent(e) {
      WorkerConserved(s, e);
      WorkerCounted(s, e);
    } else {
      if e.NotifyOne? || e.NotifyAll? {
        NotifyConserved(s, e);
      } else {
        CallerConserved(s, e);
      }
      StepCounted(s, e);
    }
    StepNoLostWakeup(s, e);
  }

  // Whole runs

  /** `ss` is the sequence of states visited by the events `es`. */
  ghost predicate Path(ss: seq<State>, es: seq<Event>) {
    && |ss| == |es| + 1
    && forall i :: 0 <= i < |es| ==> Enabled(ss[i], es[i]) && ss[i + 1] == After(ss[i], es[i])
  }

  ghost predicate Run(ss: seq<State>, es: seq<Event>) {
    Path(ss, es) && Init(ss[0])
  }

  lemma {:induction false} RunInv(ss: seq<State>, es: seq<Event>, n: nat)
    requires Run(ss, es) && n < |ss|
    ensures Inv(ss[n])
  {
    if n == 0 {
      InitInv(ss[0]);
    } else {
      RunInv(ss, es, n - 1);
      StepInv(ss[n - 1], es[n - 1]);
    }
  }

  /** In every state of every run: the in-flight count is exact and bounded, tasks
      leave the queue in submission order, and only accepted tasks ever run, each as
      often as it was accepted. */
  lemma BoundedFifo(ss: seq<State>, es: seq<Event>, n: nat)
    requires Run(ss, es) && n < |ss|
    ensures var s := ss[n];
      && s.inFlight == |s.tasks| + Sum(s.threads, Busy) <= s.capacity
      && s.dequeued <= s.accepted
      && multiset(s.ran) + Held(s.threads) + multiset(s.tasks) == multiset(s.accepted)
  {
    RunInv(ss, es, n);
  }

  /** When a wait reaches its final critical section, every accepted task has run as
      often as it was accepted, nothing is left to reset but the stop flag, and a new
      start is allowed afterwards. */
  lemma WaitDrains(ss: seq<State>, es: seq<Event>, n: nat)
    requires Run(ss, es) && n < |es| && es[n].WaitReset?
    ensures var s := ss[n];
      && s.tasks == [] && s.inFlight == 0
      && s.dequeued == s.accepted
      && multiset(s.ran) == multiset(s.accepted)
    ensures ss[n + 1] == ss[n].(stopRequested := false, threads := [], joined := 0, waiter := NoWaiter)
    ensures Enabled(ss[n + 1], Start)
  {
    RunInv(ss, es, n);
    AllReturned(ss[n]);
  }

  /** No interleaving puts every worker to sleep over a nonempty queue without a
      notification on the way, nor leaves a sleeper behind after the stop broadcast. */
  lemma NeverStalls(ss: seq<State>, es: seq<Event>, n: nat)
    requires Run(ss, es) && n < |ss|
    ensures var s := ss[n];
      && (s.tasks != [] ==>
            s.notifyOne > 0 || exists w :: 0 <= w < |s.threads| && !s.threads[w].Asleep? && !s.threads[w].Exited?)
      && (s.stopRequested && s.notifyAll == 0 ==> !SomeAsleep(s.threads))
  {
    RunInv(ss, es, n);
    var s := ss[n];
    if s.tasks != [] && s.notifyOne == 0 {
      if SomeAsleep(s.threads) {
        var w := SomeReady(s.threads);
        assert !s.threads[w].Asleep? && !s.threads[w].Exited?;
      } else {
        assert !s.threads[0].Asleep? && !s.threads[0].Exited?;
      }
    }
  }

  lemma {:induction false} SomeReady(ws: seq<Worker>) returns (w: nat)
    requires Sum(ws, Ready) > 0
    ensures w < |ws| && ws[w].AtLock?
  {
    if ws[0].AtLock? {
      w := 0;
    } else {
      w := SomeReady(ws[1..]);
      w := w + 1;
    }
  }

  // Shutdown always finishes

  function Weight(w: Worker): nat {
    match w
    case AtLock => 1
    case Asleep => 2
    case Running(_) => 3
    case Finishing => 2
    case Exited => 0
  }

  /** An upper bound on the steps the pool itself can still take once stop is requested. */
  function Measure(s: State): nat {
    3 * |s.tasks| + Sum(s.threads, Weight) + s.notifyOne + s.notifyAll +
    (match s.waiter case NoWaiter => 0 case StopAsked => 2 case Joining => 1)
  }

  /** Steps of the workers, of pending notifications and of a waiter already inside
      `Wait`: everything except new calls from outside. */
  predicate Internal(e: Event) {
    !e.Start? && !e.Submit? && !e.RequestStop? && !e.WaitBegin?
  }

  lemma NotifyDecreases(s: State, e: Event)
    requires Enabled(s, e) && (e.NotifyOne? || e.NotifyAll?)
    ensures Measure(After(s, e)) < Measure(s)
  {
    if e.NotifyAll? {
      WakeAllCounts(s.threads);
    } else if SomeAsleep(s.threads) {
      SumUpdate(s.threads, Weight, e.woken, AtLock);
    }
  }

  lemma AcquireDecreases(s: State, w: nat)
    requires Enabled(s, Acquire(w)) && s.stopRequested
    ensures Measure(After(s, Acquire(w))) < Measure(s)
  {
    SumUpdate(s.threads, Weight, w, After(s, Acquire(w)).threads[w]);
  }

  lemma MoveDecreases(s: State, e: Event)
    requires Enabled(s, e) && (e.SpuriousWake? || e.RunTask? || e.Decrement?)
    ensures Measure(After(s, e)) < Measure(s)
  {
    SumUpdate(s.threads, Weight, e.w, After(s, e).threads[e.w]);
  }

  lemma WaitDecreases(s: State, e: Event)
    requires Phases(s) && Enabled(s, e) && (e.WaitRefused? || e.WaitTake? || e.WaitReset?)
    ensures Measure(After(s, e)) < Measure(s)
  {
    if e.WaitReset? {
      AllReturned(s);
    }
  }

  lemma InternalStepDecreases(s: State, e: Event)
    requires Inv(s) && Enabled(s, e) && Internal(e)
    requires s.stopRequested || s.threads == []
    ensures Measure(After(s, e)) < Measure(s)
    ensures After(s, e).stopRequested || After(s, e).threads == []
  {
    if e.NotifyOne? || e.NotifyAll? {
      NotifyDecreases(s, e);
    } else if e.Acquire? {
      AcquireDecreases(s, e.w);
    } else if WorkerEvent(e) {
      MoveDecreases(s, e);
    } else {
      WaitDecreases(s, e);
      if e.WaitReset? {
        AllReturned(s);
      }
    }
  }

  /** However the remaining steps interleave, a stopping pool takes at most `Measure`
      of them. */
  lemma {:induction false} StoppingIsBounded(ss: seq<State>, es: seq<Event>, n: nat)
    requires Path(ss, es) && Inv(ss[0]) && n <= |es|
    requires ss[0].stopRequested || ss[0].threads == []
    requires forall i :: 0 <= i < |es| ==> Internal(es[i])
    ensures n + Measure(ss[n]) <= Measure(ss[0])
    ensures Inv(ss[n]) && (ss[n].stopRequested || ss[n].threads == [])
  {
    if n > 0 {
      StoppingIsBounded(ss, es, n - 1);
      StepInv(ss[n - 1], es[n - 1]);
      InternalStepDecreases(ss[n - 1], es[n - 1]);
    }
  }

  /** Together with the bound: the only place a stopping pool can come to rest is with
      every worker returned and, if someone is waiting, the wait finished. */
  lemma StoppingNeverSticks(s: State) returns (e: Event)
    requires Inv(s) && s.stopRequested
    requires !AllExited(s.threads) || !s.waiter.NoWaiter?
    ensures Internal(e) && Enabled(s, e)
  {
    if AllExited(s.threads) {
      e := if s.waiter.StopAsked? then WaitTake else WaitReset;
      assert s.waiter.Joining? ==> s.threads[..s.joined] == s.threads;
    } else {
      var w: nat :| w < |s.threads| && !s.threads[w].Exited?;
      if s.threads[w].Asleep? {
        e := NotifyAll;
      } else if s.threads[w].AtLock? {
        e := Acquire(w);
      } else if s.threads[w].Running? {
        e := RunTask(w);
      } else {
        e := Decrement(w);
      }
    }
  }

  lemma {:induction false} BusyIsCounted(ws: seq<Worker>, w: nat)
    requires w < |ws| && Busy(ws[w]) == 1
    ensures Sum(ws, Busy) > 0
  {
    if w > 0 {
      BusyIsCounted(ws[1..], w - 1);
    }
  }

  // The pool as its owner sees it

  /** Once the pool no longer accepts, nothing is accepted until it is started again. */
  lemma {:induction false} AcceptanceIsOver(ss: seq<State>, es: seq<Event>, m: nat, n: nat)
    requires Run(ss, es) && m <= n < |ss| && !ss[m].accepting
    requires forall i :: m <= i < n ==> !es[i].Start?
    ensures !ss[n].accepting && ss[n].accepted == ss[m].accepted
  {
    if m < n {
      AcceptanceIsOver(ss, es, m, n - 1);
      NoAcceptance(ss[n - 1], es[n - 1]);
    }
  }

  lemma NoAcceptance(s: State, e: Event)
    requires Enabled(s, e) && !s.accepting && !e.Start?
    ensures !After(s, e).accepting && After(s, e).accepted == s.accepted
  {
    match e
    case Submit(_) =>
    case RequestStop =>
    case NotifyOne(_) =>
    case NotifyAll =>
    case SpuriousWake(_) =>
    case Acquire(_) =>
    case RunTask(_) =>
    case Decrement(_) =>
    case WaitBegin =>
    case WaitRefused(_) =>
    case WaitTake =>
    case WaitReset =>
  }

  /** What the server relies on: from a stop request on every submission is refused, and
      when the wait that follows returns, exactly the tasks accepted before the request have
      run, each once, and none is queued or held by a worker. */
  lemma StopThenWait(ss: seq<State>, es: seq<Event>, m: nat, n: nat)
    requires Run(ss, es) && m < n < |es| && es[m].RequestStop? && es[n].WaitReset?
    requires forall i :: m < i < n ==> !es[i].Start?
    ensures forall i :: m < i <= n ==> !SubmitAllowed(ss[i])
    ensures multiset(ss[n].ran) == multiset(ss[m].accepted)
    ensures ss[n].tasks == [] && Held(ss[n].threads) == multiset{}
  {
    forall i | m < i <= n
      ensures !ss[i].accepting && ss[i].accepted == ss[m + 1].accepted
    {
      AcceptanceIsOver(ss, es, m + 1, i);
    }
    WaitDrains(ss, es, n);
    RunInv(ss, es, n);
    AllReturned(ss[n]);
  }

  // The pool itself

  lemma ReturnsIff(s: State, w: nat)
    requires Enabled(s, Acquire(w))
    ensures var t := After(s, Acquire(w));
      |t.threads| == |s.threads| && (t.threads[w].Exited? <==> s.stopRequested && s.tasks == [])
  {
  }

  class BoundedRequestExecutor {
    const workerCount: nat
    const capacity: nat
    var tasks: seq<nat>
    var workersPresent: bool
    var inFlightCount: nat
    var accepting: bool
    var stopRequested: bool
    ghost var m: State

    /** The fields are those of the machine. */
    ghost predicate Ties()
      reads this
    {
      && workerCount == m.workerCount && capacity == m.capacity
      && tasks == m.tasks && inFlightCount == m.inFlight
      && accepting == m.accepting && stopRequested == m.stopRequested
      && workersPresent == (m.inVector && m.threads != [])
    }

    ghost predicate Valid()
      reads this
    {
      Inv(m) && Ties()
    }

    constructor (workerCount: nat, capacity: nat)
      requires workerCount > 0 && capacity > 0
      ensures Valid() && Init(m)
      ensures this.workerCount == workerCount && this.capacity == capacity
    {
      this.workerCount, this.capacity := workerCount, capacity;
      tasks, workersPresent, inFlightCount, accepting, stopRequested := [], false, 0, false, false;
      m := State(workerCount, capacity, false, false, [], 0, [], false, 0, 0, 0, NoWaiter, [], [], []);
    }

    /** One step of the machine. */
    ghost method Take(e: Event)
      requires Inv(m) && Enabled(m, e)
      modifies this`m
      ensures Inv(m) && m == After(old(m), e)
    {
      StepInv(m, e);
      m := After(m, e);
    }

    /** Nothing is asked of the caller. What a start during a wait leads to is the subject of
        `ExecutorRestart`. */
    method Start() returns (started: bool)
      requires Valid()
      modifies this
      ensures started == StartAllowed(old(m))
      ensures started <==> !old(accepting) && !old(workersPresent) && old(tasks) == [] && old(inFlightCount) == 0
      ensures started ==> accepting && workersPresent && !stopRequested && tasks == [] && inFlightCount == 0
      ensures Ties() && m == if started then After(old(m), Event.Start) else old(m)
      ensures !started || old(m).waiter.NoWaiter? ==> Valid()
    {
      if accepting || workersPresent || tasks != [] || inFlightCount != 0 {
        return false;
      }
      workersPresent, accepting, stopRequested := true, true, false;
      if m.waiter.NoWaiter? {
        StepInv(m, Event.Start);
      }
      m := After(m, Event.Start);
      return true;
    }

    method TrySubmit(task: nat) returns (submitted: bool)
      requires Valid()
      modifies this
      ensures Valid()
      ensures submitted == SubmitAllowed(old(m))
      ensures m == if submitted then After(old(m), Submit(task)) else old(m)
      ensures submitted <==> old(accepting) && !old(stopRequested) && old(inFlightCount) < capacity
      ensures tasks == if submitted then old(tasks) + [task] else old(tasks)
      ensures inFlightCount == old(inFlightCount) + if submitted then 1 else 0
    {
      if !accepting || stopRequested || inFlightCount >= capacity {
        return false;
      }
      tasks := tasks + [task];
      inFlightCount := inFlightCount + 1;
      Take(Submit(task));
      return true;
    }

    method RequestStop()
      requires Valid()
      modifies this
      ensures Valid() && m == After(old(m), Event.RequestStop)
      ensures !accepting && stopRequested && tasks == old(tasks) && inFlightCount == old(inFlightCount)
    {
      accepting := false;
      stopRequested := true;
      Take(Event.RequestStop);
    }

    /** One pass of a worker through the mutex at the top of its loop: it takes the
        oldest task, or blocks, or returns. */
    method WorkerAcquire(ghost w: nat) returns (taken: seq<nat>, returned: bool)
      requires Valid() && Enabled(m, Acquire(w))
      modifies this
      ensures Valid() && m == After(old(m), Acquire(w))
      ensures taken == if old(tasks) != [] then [old(tasks)[0]] else []
      ensures returned <==> m.threads[w].Exited?
      ensures tasks == if old(tasks) != [] then old(tasks)[1..] else []
      ensures returned <==> old(stopRequested) && old(tasks) == []
    {
      ReturnsIff(m, w);
      taken, returned := NextTask();
      Take(Acquire(w));
    }

    method NextTask() returns (taken: seq<nat>, returned: bool)
      modifies this`tasks
      ensures taken == if old(tasks) != [] then [old(tasks)[0]] else []
      ensures tasks == if old(tasks) != [] then old(tasks)[1..] else []
      ensures returned <==> stopRequested && old(tasks) == []
    {
      taken, returned := [], false;
      if stopRequested || tasks != [] {
        if tasks == [] {
          returned := true;
        } else {
          taken := [tasks[0]];
          tasks := tasks[1..];
        }
      }
    }

    method WorkerDecrement(ghost w: nat)
      requires Valid() && Enabled(m, Decrement(w))
      modifies this
      ensures Valid() && m == After(old(m), Decrement(w))
      ensures inFlightCount == old(inFlightCount) - 1 && tasks == old(tasks)
    {
      BusyIsCounted(m.threads, w);
      inFlightCount := inFlightCount - 1;
      Take(Decrement(w));
    }

    /** The second critical section of `Wait`: a worker of the pool, found among its own
        threads as `w`, is refused; any other caller takes the threads out. */
    method WaitTakeWorkers(callerIsWorker: bool, ghost w: nat) returns (refused: bool)
      requires Valid() && m.waiter.StopAsked?
      requires callerIsWorker ==> m.inVector && w < |m.threads| && m.threads[w].Running?
      modifies this
      ensures Valid() && refused == callerIsWorker
      ensures m == After(old(m), if refused then WaitRefused(w) else WaitTake)
      ensures workersPresent == (refused && old(workersPresent))
    {
      refused := callerIsWorker;
      if refused {
        Take(WaitRefused(w));
        return;
      }
      workersPresent := false;
      Take(WaitTake);
    }

    /** The last critical section of `Wait`, entered when every joined thread has
        returned; the two resets write the values already there. */
    method WaitReset()
      requires Valid() && Enabled(m, Event.WaitReset)
      modifies this
      ensures Valid() && m == After(old(m), Event.WaitReset)
      ensures tasks == old(tasks) == [] && inFlightCount == old(inFlightCount) == 0 && !stopRequested
    {
      AllReturned(m);
      tasks := [];
      inFlightCount := 0;
      stopRequested := false;
      Take(Event.WaitReset);
    }
  }
}

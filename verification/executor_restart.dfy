/**
 What the test in the pool's `Start` protects against, and what it lets through. A start
 that slips in while a wait is under way is a step of the pool's code but not of a pool whose
 owner waits for the wait; here are both runs, of the disciplined pool and of the bare code.
 */
module ExecutorRestart {
  import opened Common
  import opened Executor

  // When the test passes

  /** Outside a join the test is sound: it passes only if no worker thread is left at all. */
  lemma StartTestIsSound(ss: seq<State>, es: seq<Event>, n: nat)
    requires Run(ss, es) && n < |ss| && StartAllowed(ss[n]) && !ss[n].waiter.Joining?
    ensures ss[n].threads == []
    ensures ss[n].waiter.NoWaiter? ==> Enabled(ss[n], Start)
  {
    RunInv(ss, es, n);
  }

  /** In every reachable state: the test passes before the wait under way is over exactly
      while the wait joins its threads and nothing is queued or in flight, or while it has
      only asked a pool without threads to stop. */
  lemma StartTestFailsIff(ss: seq<State>, es: seq<Event>, n: nat)
    requires Run(ss, es) && n < |ss|
    ensures var s := ss[n];
      StartAllowed(s) && !s.waiter.NoWaiter? <==>
      (s.waiter.Joining? && s.tasks == [] && s.inFlight == 0) || (s.waiter.StopAsked? && s.threads == [])
  {
    RunInv(ss, es, n);
  }

  /** The case is reachable, with a worker that is still alive. */
  lemma StartTestMissesAJoin() returns (ss: seq<State>, es: seq<Event>)
    ensures Run(ss, es)
    ensures StartAllowed(ss[|es|]) && ss[|es|].waiter.Joining? && !AllExited(ss[|es|].threads)
  {
    var s0 := State(1, 1, false, false, [], 0, [], false, 0, 0, 0, NoWaiter, [], [], []);
    var s1 := State(1, 1, true, false, [], 0, [AtLock], true, 0, 0, 0, NoWaiter, [], [], []);
    var s2 := State(1, 1, false, true, [], 0, [AtLock], true, 0, 0, 1, StopAsked, [], [], []);
    var s3 := State(1, 1, false, true, [], 0, [AtLock], false, 1, 0, 1, Joining, [], [], []);
    assert After(s0, Start) == s1 by { assert [] + seq(1, _ => AtLock) == [AtLock]; }
    ss, es := [s0, s1, s2, s3], [Start, WaitBegin, WaitTake];
    assert !AllExited(s3.threads) by { assert s3.threads[0] == AtLock; }
  }

  // What follows: the wait does not end

  ghost predicate BarePath(ss: seq<State>, es: seq<Event>) {
    && |ss| == |es| + 1
    && forall i :: 0 <= i < |es| ==> Possible(ss[i], es[i]) && ss[i + 1] == After(ss[i], es[i])
  }

  /** The wait joins worker `w`, or is about to take it, while no stop is requested. */
  predicate Stranded(s: State, w: nat) {
    && !s.stopRequested && w < |s.threads| && !s.threads[w].Exited?
    && (s.waiter.StopAsked? || (s.waiter.Joining? && w < s.joined))
  }

  lemma StaysStranded(s: State, e: Event, w: nat)
    requires Stranded(s, w) && Possible(s, e) && !e.RequestStop? && !e.WaitRefused? && !e.WaitReset?
    ensures Stranded(After(s, e), w)
  {
    match e
    case Start =>
    case Submit(_) =>
    case NotifyOne(_) =>
    case NotifyAll =>
    case SpuriousWake(_) =>
    case Acquire(_) =>
    case RunTask(_) =>
    case Decrement(_) =>
    case WaitTake =>
  }

  lemma StrandedBlocks(s: State, w: nat)
    requires Stranded(s, w)
    ensures !Possible(s, WaitReset)
  {
    if s.waiter.Joining? && s.joined <= |s.threads| {
      assert s.threads[..s.joined][w] == s.threads[w];
    }
  }

  /** If at the start some worker taken by the wait has not returned, or the wait has yet to
      take the workers: that worker, or any new one, does not return and the wait does not
      end before somebody requests a stop again. */
  lemma {:induction false} StartDuringWaitStrands(s: State, w: nat, ss: seq<State>, es: seq<Event>, n: nat)
    requires StartAllowed(s) && w < |After(s, Start).threads| && !After(s, Start).threads[w].Exited?
    requires s.waiter.StopAsked? || (s.waiter.Joining? && w < s.joined)
    requires BarePath(ss, es) && ss[0] == After(s, Start) && n < |ss|
    requires forall i :: 0 <= i < n ==> !es[i].RequestStop? && !es[i].WaitRefused?
    ensures Stranded(ss[n], w) && !Possible(ss[n], WaitReset)
  {
    if n > 0 {
      StartDuringWaitStrands(s, w, ss, es, n - 1);
      StaysStranded(ss[n - 1], es[n - 1], w);
    }
    StrandedBlocks(ss[n], w);
  }

  // Or it ends and wipes the new pool

  /** If every worker taken by the wait has returned, the wait can end right after the start,
      on a pool that accepts tasks. */
  lemma StartBeforeReset(s: State)
    requires StartAllowed(s) && s.waiter.Joining? && s.joined <= |s.threads| && AllExited(s.threads[..s.joined])
    ensures var s' := After(s, Start); Possible(s', WaitReset) && s'.accepting
  {
    assert After(s, Start).threads[..s.joined] == s.threads[..s.joined];
  }

  /** Every dequeued task has been executed or is held by a worker. */
  predicate Executing(s: State) {
    multiset(s.ran) + Held(s.threads) == multiset(s.dequeued)
  }

  /** Every accepted task has been dequeued, is queued, or is among `lost`. */
  predicate Accounted(s: State, lost: multiset<nat>) {
    multiset(s.dequeued) + multiset(s.tasks) + lost == multiset(s.accepted)
  }

  lemma {:induction false} HeldSplit(ws: seq<Worker>, k: nat)
    requires k <= |ws|
    ensures Held(ws) == Held(ws[..k]) + Held(ws[k..])
  {
    if k == 0 {
      assert ws[..0] == [] && ws[0..] == ws;
    } else {
      HeldSplit(ws[1..], k - 1);
      assert ws[..k][1..] == ws[1..][..k - 1] && ws[1..][k - 1..] == ws[k..];
    }
  }

  lemma {:induction false} NoBusyHoldsNothing(ws: seq<Worker>)
    requires Sum(ws, Busy) == 0
    ensures Held(ws) == multiset{}
  {
    if ws != [] {
      NoBusyHoldsNothing(ws[1..]);
    }
  }

  lemma StepExecuting(s: State, e: Event)
    requires Executing(s) && Possible(s, e) && !e.Start?
    ensures Executing(After(s, e))
  {
    if WorkerEvent(e) {
      WorkerExecuting(s, e);
    } else {
      CallerExecuting(s, e);
    }
  }

  lemma WorkerExecuting(s: State, e: Event)
    requires Executing(s) && Possible(s, e) && WorkerEvent(e)
    ensures Executing(After(s, e))
  {
    if e.RunTask? {
      HeldUpdate(s.threads, e.w, Finishing);
      RanBag(s.ran, s.threads[e.w].task, Held(s.threads));
    } else if e.Acquire? && s.tasks != [] {
      HeldTake(s.threads, e.w, s.tasks[0]);
      TakeBag(multiset(s.ran), Held(s.threads), s.dequeued, s.tasks[0]);
    } else {
      HeldKeep(s.threads, e.w, After(s, e).threads[e.w]);
    }
  }

  lemma CallerExecuting(s: State, e: Event)
    requires Executing(s) && Possible(s, e) && !WorkerEvent(e) && !e.Start?
    ensures Executing(After(s, e))
  {
    match e
    case NotifyOne(w) => if SomeAsleep(s.threads) { HeldKeep(s.threads, w, AtLock); }
    case NotifyAll => WakeAllCounts(s.threads);
    case WaitReset =>
      HeldSplit(s.threads, s.joined);
      ExitedCounts(s.threads[..s.joined]);
    case Submit(_) =>
    case RequestStop =>
    case WaitBegin =>
    case WaitRefused(_) =>
    case WaitTake =>
  }

  lemma RanBag(ran: seq<nat>, t: nat, held: multiset<nat>)
    requires multiset{t} <= held
    ensures multiset(ran + [t]) + (held - multiset{t} + multiset{}) == multiset(ran) + held
  {
  }

  lemma FrontBag(dequeued: seq<nat>, tasks: seq<nat>)
    requires tasks != []
    ensures multiset(dequeued + [tasks[0]]) + multiset(tasks[1..]) == multiset(dequeued) + multiset(tasks)
  {
    FirstApart(tasks);
  }

  lemma AcquireAccounted(s: State, w: nat, lost: multiset<nat>)
    requires Accounted(s, lost) && Possible(s, Acquire(w))
    ensures Accounted(After(s, Acquire(w)), lost)
  {
    if s.tasks != [] {
      FrontBag(s.dequeued, s.tasks);
    }
  }

  lemma SubmitAccounted(s: State, task: nat, lost: multiset<nat>)
    requires Accounted(s, lost) && Possible(s, Submit(task))
    ensures Accounted(After(s, Submit(task)), lost)
  {
  }

  lemma ResetAccounted(s: State, lost: multiset<nat>)
    requires Accounted(s, lost) && Possible(s, WaitReset)
    ensures Accounted(After(s, WaitReset), lost + multiset(s.tasks))
  {
  }

  lemma QuietStep(s: State, e: Event)
    requires Possible(s, e) && !e.Start? && !e.Acquire? && !e.Submit? && !e.WaitReset?
    ensures var t := After(s, e); t.dequeued == s.dequeued && t.tasks == s.tasks && t.accepted == s.accepted
  {
  }

  /** The end of a wait loses exactly what is queued then; nothing else loses a task. */
  lemma StepAccounted(s: State, e: Event, lost: multiset<nat>)
    requires Accounted(s, lost) && Possible(s, e) && !e.Start?
    ensures Accounted(After(s, e), lost + if e.WaitReset? then multiset(s.tasks) else multiset{})
  {
    assert lost + multiset{} == lost;
    if e.Acquire? {
      AcquireAccounted(s, e.w, lost);
    } else if e.Submit? {
      SubmitAccounted(s, e.task, lost);
    } else if e.WaitReset? {
      ResetAccounted(s, lost);
    } else {
      QuietStep(s, e);
    }
  }

  lemma {:induction false} LostForGood(ss: seq<State>, es: seq<Event>, m: nat, n: nat, lost: multiset<nat>)
    returns (more: multiset<nat>)
    requires BarePath(ss, es) && m <= n < |ss| && Executing(ss[m]) && Accounted(ss[m], lost)
    requires forall i :: m <= i < n ==> !es[i].Start?
    ensures Executing(ss[n]) && Accounted(ss[n], lost + more)
  {
    more := multiset{};
    if m < n {
      var before := LostForGood(ss, es, m, n - 1, lost);
      more := StepLoses(ss[n - 1], es[n - 1], lost, before);
    }
  }

  lemma StepLoses(s: State, e: Event, lost: multiset<nat>, before: multiset<nat>) returns (more: multiset<nat>)
    requires Executing(s) && Accounted(s, lost + before) && Possible(s, e) && !e.Start?
    ensures Executing(After(s, e)) && Accounted(After(s, e), lost + more)
  {
    StepExecuting(s, e);
    StepAccounted(s, e, lost + before);
    more := before + if e.WaitReset? then multiset(s.tasks) else multiset{};
    assert lost + more == lost + before + if e.WaitReset? then multiset(s.tasks) else multiset{};
  }

  /** A start that slips into a join, in any reachable state: whenever the wait then ends,
      the tasks queued at that moment, all accepted by the new pool, never run; they stay
      missing however the pool goes on until its next start. */
  lemma SlippedStartLosesTasks(s: State, ss: seq<State>, es: seq<Event>, n: nat, k: nat)
    requires Inv(s) && StartAllowed(s) && s.waiter.Joining?
    requires BarePath(ss, es) && ss[0] == After(s, Start) && n < k < |ss| && es[n].WaitReset?
    requires forall i :: 0 <= i < k ==> !es[i].Start?
    ensures multiset(ss[k].ran) + Held(ss[k].threads) + multiset(ss[k].tasks) + multiset(ss[n].tasks)
            <= multiset(ss[k].accepted)
  {
    StartsEmpty(s);
    var before := LostForGood(ss, es, 0, n, multiset{});
    StepExecuting(ss[n], es[n]);
    StepAccounted(ss[n], es[n], multiset{} + before);
    var after := LostForGood(ss, es, n + 1, k, multiset{} + before + multiset(ss[n].tasks));
  }

  lemma StartsEmpty(s: State)
    requires Inv(s) && StartAllowed(s)
    ensures Executing(After(s, Start)) && Accounted(After(s, Start), multiset{})
  {
    NoBusyHoldsNothing(s.threads);
    HeldSplit(s.threads + seq(s.workerCount, _ => AtLock), |s.threads|);
    assert (s.threads + seq(s.workerCount, _ => AtLock))[..|s.threads|] == s.threads;
    assert (s.threads + seq(s.workerCount, _ => AtLock))[|s.threads|..] == seq(s.workerCount, _ => AtLock);
    FreshCounts(s.workerCount);
  }

  /** A decrement the reset has not foreseen wraps the counter around, and from then on every
      submission is refused. */
  lemma WrappedCounterRefuses(s: State, w: nat)
    requires Possible(s, Decrement(w)) && s.inFlight == 0 && s.capacity <= UINT64_MAX
    ensures After(s, Decrement(w)).inFlight == UINT64_MAX && !SubmitAllowed(After(s, Decrement(w)))
  {
  }

  // Both happen

  /** A path grows by one step. */
  lemma Grow(ss: seq<State>, es: seq<Event>, e: Event, next: State) returns (ss': seq<State>, es': seq<Event>)
    requires BarePath(ss, es) && Possible(ss[|es|], e) && After(ss[|es|], e) == next
    ensures BarePath(ss', es') && ss' == ss + [next] && es' == es + [e]
  {
    ss', es' := ss + [next], es + [e];
  }

  const Joined := State(1, 1, false, true, [], 0, [Exited], false, 1, 0, 1, Joining, [], [], [])
  const Slipped := State(1, 1, true, false, [], 0, [Exited, AtLock], true, 1, 0, 1, Joining, [], [], [])

  lemma JoinedIsReached() returns (ss: seq<State>, es: seq<Event>)
    ensures BarePath(ss, es) && Init(ss[0]) && |es| == 4 && ss[4] == Joined
  {
    var s0 := State(1, 1, false, false, [], 0, [], false, 0, 0, 0, NoWaiter, [], [], []);
    var s1 := State(1, 1, true, false, [], 0, [AtLock], true, 0, 0, 0, NoWaiter, [], [], []);
    var s2 := State(1, 1, false, true, [], 0, [AtLock], true, 0, 0, 1, StopAsked, [], [], []);
    var s3 := State(1, 1, false, true, [], 0, [AtLock], false, 1, 0, 1, Joining, [], [], []);
    assert After(s0, Start) == s1 by { assert [] + seq(1, _ => AtLock) == [AtLock]; }
    ss, es := Grow([s0], [], Start, s1);
    ss, es := Grow(ss, es, WaitBegin, s2);
    ss, es := Grow(ss, es, WaitTake, s3);
    ss, es := Grow(ss, es, Acquire(0), Joined);
  }

  /** The last joined worker has returned; then a start, before the wait goes on. */
  lemma StartedBeforeReset() returns (ss: seq<State>, es: seq<Event>)
    ensures BarePath(ss, es) && Init(ss[0]) && |es| == 5 && es[4].Start? && ss[4].waiter.Joining?
    ensures ss[5] == Slipped
  {
    ss, es := JoinedIsReached();
    assert After(Joined, Start) == Slipped by { assert [Exited] + seq(1, _ => AtLock) == [Exited, AtLock]; }
    ss, es := Grow(ss, es, Start, Slipped);
  }

  /** From there a task is accepted and wiped: it is neither queued nor held nor executed. */
  lemma ResetDropsTask(s: State, task: nat)
    requires s == Slipped
    ensures Possible(s, Submit(task)) && Possible(After(s, Submit(task)), WaitReset)
    ensures var t := After(After(s, Submit(task)), WaitReset);
      t.accepted == [task] && t.tasks == [] && t.ran == [] && Held(t.threads) == multiset{}
  {
    var t := After(s, Submit(task));
    assert t.threads[..t.joined] == [Exited] && t.threads[t.joined..] == [AtLock];
  }

  /** Or a worker takes it first, and the wait ends then. */
  lemma ResetUnderWorker(s: State, task: nat) returns (ss: seq<State>, es: seq<Event>)
    requires s == Slipped
    ensures BarePath(ss, es) && ss[0] == s && |es| == 3
    ensures ss[3] == State(1, 1, true, false, [], 0, [Running(task)], true, 0, 1, 1, NoWaiter, [task], [task], [])
  {
    var s1 := State(1, 1, true, false, [task], 1, [Exited, AtLock], true, 1, 1, 1, Joining, [task], [], []);
    var s2 := State(1, 1, true, false, [], 1, [Exited, Running(task)], true, 1, 1, 1, Joining, [task], [task], []);
    var s3 := State(1, 1, true, false, [], 0, [Running(task)], true, 0, 1, 1, NoWaiter, [task], [task], []);
    ss, es := Grow([s], [], Submit(task), s1);
    ss, es := Grow(ss, es, Acquire(1), s2);
    assert s2.threads[..1] == [Exited] && s2.threads[1..] == [Running(task)];
    ss, es := Grow(ss, es, WaitReset, s3);
  }

  /** When the task has run, the counter wraps, and the pool refuses everything although it
      has nothing to do. */
  lemma ResetJamsCounter(s: State, task: nat) returns (ss: seq<State>, es: seq<Event>)
    requires s == Slipped
    ensures BarePath(ss, es) && ss[0] == s && |es| == 5
    ensures ss[5].accepting && ss[5].tasks == [] && ss[5].ran == [task] && Sum(ss[5].threads, Busy) == 0
    ensures ss[5].inFlight == UINT64_MAX && !SubmitAllowed(ss[5])
  {
    ss, es := ResetUnderWorker(s, task);
    var s4 := ss[3].(threads := [Finishing], ran := [task]);
    var s5 := s4.(threads := [AtLock], inFlight := UINT64_MAX);
    ss, es := Grow(ss, es, RunTask(0), s4);
    ss, es := Grow(ss, es, Decrement(0), s5);
  }
}

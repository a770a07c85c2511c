/**
 The server's own code, one method for every critical section, atomic flag and handler
 piece that the protocol treats as one step.
 */
module ServerCode {
  import opened ServerModel
  import opened ServerSafety

  /** Of a server that has been started. */
  datatype LifecycleState = Running | Stopping | Stopped

  class HttpServer {
    const maxConnections: nat
    var state: LifecycleState
    var stopRequested: bool
    var handlerExecutorDrained: bool
    var stopCompletionStarted: bool
    var workGuard: bool
    var acceptorOpen: bool
    var accepting: bool
    var sessions: set<nat>
    ghost var m: Server

    ghost predicate Valid()
      reads this
    {
      && Inv(m)
      && maxConnections == m.maxConnections
      && (state.Running? <==> m.requester.NotAsked?) && (state.Stopped? ==> m.waiter.IoDone?)
      && stopRequested == m.stopRequested && handlerExecutorDrained == m.drained
      && stopCompletionStarted == m.completionStarted && workGuard == m.guard
      && acceptorOpen == m.acceptorOpen && accepting == m.accepting
      && sessions == m.sessions
    }

    /** A server that has just been started. */
    constructor (maxConnections: nat, ghost maxRequests: nat)
      requires maxConnections > 0 && maxRequests > 0
      ensures Valid() && Init(m)
      ensures m.maxConnections == maxConnections && m.maxRequests == maxRequests
    {
      this.maxConnections := maxConnections;
      state := Running;
      stopRequested, handlerExecutorDrained, stopCompletionStarted := false, false, false;
      workGuard, acceptorOpen, accepting, sessions := true, true, true, {};
      m := Server(maxConnections, maxRequests, false, false, false, false, true, 0, true, true, false, {}, [], [],
                  AtRest, NotAsked, NotWaiting);
    }

    /** The locked part of `RequestStop`, which may be called at any time: only the first call
        schedules the stop, and on a stopped server none does anything. */
    method RaiseStop() returns (schedule: bool)
      requires Valid()
      modifies this
      ensures Valid() && (schedule <==> old(state).Running?)
      ensures m == if schedule then AfterThread(old(m), SetStop) else old(m)
      ensures state == if schedule then Stopping else old(state)
      ensures stopRequested <==> !old(state).Running? || schedule
    {
      schedule := false;
      if state.Stopped? {
        return;
      }
      if !state.Stopping? {
        state := Stopping;
        schedule := true;
        StepInv(m, SetStop);
        m := AfterThread(m, SetStop);
      }
      stopRequested := true;
    }

    method RegisterSession(session: nat) returns (registered: bool)
      requires Valid() && m.pos == Registering(session)
      modifies this
      ensures Valid() && m == AfterAccept(old(m), Register)
      ensures registered <==> !stopRequested && |old(sessions)| < maxConnections
      ensures sessions == if registered then old(sessions) + {session} else old(sessions)
      ensures stopRequested == old(stopRequested) && |sessions| <= maxConnections && session !in old(sessions)
    {
      registered := !(stopRequested || |sessions| >= maxConnections);
      if registered {
        sessions := sessions + {session};
      }
      StepInv(m, Register);
      m := AfterAccept(m, Register);
    }

    method StartAccept()
      requires Valid() && m.pos.NextAccept?
      modifies this
      ensures Valid() && m == AfterAccept(old(m), ContinueAccept)
      ensures accepting == (old(accepting) || (!old(stopRequested) && old(acceptorOpen)))
      ensures acceptorOpen == old(acceptorOpen) && stopRequested == old(stopRequested)
    {
      if !(stopRequested || !acceptorOpen) {
        accepting := true;
      }
      StepInv(m, ContinueAccept);
      m := AfterAccept(m, ContinueAccept);
    }

    /** The locked part of `RemoveSession`. */
    method RemoveSession(session: nat) returns (sessionsEmpty: bool)
      requires Valid() && session < |m.conns| && m.conns[session].removal.Erase?
      modifies this
      ensures Valid() && m == SessionErased(old(m), session)
      ensures sessionsEmpty == m.conns[session].removal.SawEmpty? == (sessions == {})
      ensures sessions == old(sessions) - {session}
    {
      sessions := sessions - {session};
      sessionsEmpty := sessions == {};
      EraseInv(m, session);
      m := SessionErased(m, session);
    }

    /** The sessions to drain. */
    method StopSnapshot() returns (snapshot: set<nat>)
      requires Valid() && m.pos.Snapshot?
      modifies this
      ensures Valid() && m == AfterStop(old(m), TakeSnapshot)
      ensures snapshot == sessions == old(sessions) == m.pos.todo && forall c :: c in snapshot ==> c < |m.conns|
    {
      snapshot := sessions;
      StepInv(m, TakeSnapshot);
      m := AfterStop(m, TakeSnapshot);
    }

    /** The sessions to close when the grace period is over. */
    method ForceCloseSnapshot() returns (snapshot: set<nat>)
      requires Valid() && m.pos.ForceSnapshot?
      modifies this
      ensures Valid() && m == AfterStop(old(m), TakeForceSnapshot)
      ensures snapshot == sessions == old(sessions) == m.pos.todo && forall c :: c in snapshot ==> c < |m.conns|
    {
      snapshot := sessions;
      StepInv(m, TakeForceSnapshot);
      m := AfterStop(m, TakeForceSnapshot);
    }

    /** The first test of `TryCompleteStopOnIoContext`. */
    method ReadStopFlags() returns (goOn: bool)
      requires Valid() && m.pos.TryFlags?
      modifies this
      ensures Valid() && m == AfterStop(old(m), ReadFlags)
      ensures goOn == m.pos.TrySessions? == (handlerExecutorDrained && !stopCompletionStarted)
      ensures handlerExecutorDrained == old(handlerExecutorDrained)
      ensures stopCompletionStarted == old(stopCompletionStarted)
    {
      goOn := !(stopCompletionStarted || !handlerExecutorDrained);
      StepInv(m, ReadFlags);
      m := AfterStop(m, ReadFlags);
    }

    /** Its second test, and the completion. */
    method CompleteIfEmpty() returns (completed: bool)
      requires Valid() && m.pos.TrySessions?
      modifies this
      ensures Valid() && m == AfterStop(old(m), CheckSessions)
      ensures completed == (sessions == {}) == !workGuard == stopCompletionStarted
      ensures sessions == old(sessions)
    {
      completed := sessions == {};
      if completed {
        stopCompletionStarted := true;
        workGuard := false;
      }
      StepInv(m, CheckSessions);
      m := AfterStop(m, CheckSessions);
    }

    /** `Wait`, after the executor has been joined. */
    method MarkDrained()
      requires Valid() && m.waiter.ExecutorJoined?
      modifies this
      ensures Valid() && m == AfterThread(old(m), StoreDrained)
      ensures handlerExecutorDrained && m.waiter.DrainedStored?
    {
      handlerExecutorDrained := true;
      StepInv(m, StoreDrained);
      m := AfterThread(m, StoreDrained);
    }

    /** The end of `Wait`: clearing the sessions finds none. */
    method ClearAfterJoin()
      requires Valid() && ThreadEnabled(m, JoinIo)
      modifies this
      ensures Valid() && m == AfterThread(old(m), JoinIo)
      ensures sessions == old(sessions) && stopCompletionStarted
    {
      sessions := {};
      StepInv(m, JoinIo);
      m := AfterThread(m, JoinIo);
    }

    /** The last critical section of `Wait`: the guard was released before. */
    method FinishWait()
      requires Valid() && m.waiter.IoDone?
      modifies this
      ensures Valid() && state.Stopped? && m == old(m)
      ensures workGuard == old(workGuard)
    {
      workGuard := false;
      state := Stopped;
    }
  }
}

/**
 The supervisor's own code: its fields and, as methods, the critical sections that the
 operation thread and the observer thread run under the state mutex. Each method is
 proved to be exactly one step of the machine of `ProcessModel`.
 */
module Supervisor {
  import opened Common
  import opened ProcessModel
  import opened ProcessSafety

  class ProcessSupervisor {
    var state: ServiceState
    var desiredState: DesiredState
    var pid: Option<nat>
    var processGroupId: Option<nat>
    ghost var m: State

    ghost predicate Valid()
      reads this
    {
      Inv(m) && m.f == Fields(state, desiredState, pid, processGroupId)
    }

    constructor (autoStart: bool)
      ensures Valid() && Init(m)
      ensures desiredState == if autoStart then WantRunning else WantStopped
    {
      state := Stopped;
      desiredState := if autoStart then WantRunning else WantStopped;
      pid, processGroupId := None, None;
      var desired := if autoStart then WantRunning else WantStopped;
      m := State(Fields(Stopped, desired, None, None), Idle, false, NoThread, []);
    }

    ghost method Take(e: Event)
      requires Inv(m) && Enabled(m, e)
      modifies this`m
      ensures Inv(m) && m == After(old(m), e)
    {
      StepInv(m, e);
      m := After(m, e);
    }

    // Start

    /** First critical section of a start; it refuses when a pid is already published. */
    method StartEnter() returns (proceed: bool)
      requires Valid() && (m.op.Idle? || m.op.RestartStart?)
      modifies this
      ensures Valid() && m == After(old(m), if old(m).op.Idle? then CallStart else BeginStart)
      ensures proceed <==> old(pid).None?
      ensures proceed <==> m.op.StartJoin?
      ensures !proceed ==> m.op.Idle?
      ensures desiredState == WantRunning && state == old(state) && pid == old(pid)
      ensures processGroupId == old(processGroupId)
    {
      desiredState := WantRunning;
      Take(if m.op.Idle? then CallStart else BeginStart);
      return pid.None?;
    }

    /** Second critical section, after the old observer was joined. */
    method StartClaims() returns (proceed: bool)
      requires Valid() && Enabled(m, Claim)
      modifies this
      ensures Valid() && m == After(old(m), Claim)
      ensures proceed <==> old(processGroupId).None?
      ensures if proceed then m.op.StartPrepare? && state == Starting else m.op.Idle? && state == old(state)
      ensures desiredState == old(desiredState) && pid == old(pid) && processGroupId == old(processGroupId)
    {
      proceed := processGroupId.None?;
      if proceed {
        state := Starting;
      }
      Take(Claim);
    }

    method StartFails()
      requires Valid() && Enabled(m, Fail)
      modifies this
      ensures Valid() && m == After(old(m), Fail)
      ensures m.op.Idle? && state == Failed && pid.None? && processGroupId.None? && desiredState == WantRunning
    {
      state := Failed;
      Take(Fail);
    }

    method PublishChild(childPid: nat)
      requires Valid() && m.op == StartPublish(childPid)
      modifies this
      ensures Valid() && m == After(old(m), Publish)
      ensures pid == processGroupId == Some(childPid) && m.op == StartSpawn(childPid)
      ensures state == old(state) && desiredState == old(desiredState)
    {
      pid := Some(childPid);
      processGroupId := Some(childPid);
      Take(Publish);
    }

    /** Last critical section of a start: the child may already have exited. */
    method ConfirmRunning(childPid: nat)
      requires Valid() && m.op == StartConfirm(childPid)
      modifies this
      ensures Valid() && m == After(old(m), Confirm) && m.op.Idle?
      ensures state == Running <==> old(state) == Running || (old(state) == Starting && pid == Some(childPid))
      ensures state == Running || state == old(state)
      ensures desiredState == old(desiredState) && pid == old(pid) && processGroupId == old(processGroupId)
    {
      if pid == Some(childPid) && state == Starting {
        state := Running;
      }
      Take(Confirm);
    }

    // Stop and restart

    method RestartEnter()
      requires Valid() && m.op.Idle?
      modifies this
      ensures Valid() && m == After(old(m), CallRestart) && m.op.RestartStop?
      ensures desiredState == WantRunning && state == old(state) && pid == old(pid)
      ensures processGroupId == old(processGroupId)
    {
      desiredState := WantRunning;
      Take(CallRestart);
    }

    /** First critical section of a stop: it notes what has to be stopped. */
    method StopEnter(finalDesired: DesiredState) returns (targetPid: Option<nat>, targetGroup: Option<nat>)
      requires Valid()
      requires if finalDesired.WantStopped? then m.op.Idle? else m.op.RestartStop?
      modifies this
      ensures Valid() && m == After(old(m), if finalDesired.WantStopped? then CallStop else BeginStop)
      ensures targetPid == old(pid) && targetGroup == old(processGroupId)
      ensures pid == old(pid) && processGroupId == old(processGroupId) && desiredState == finalDesired
      ensures pid.Some? || processGroupId.Some? ==> state == Stopping && m.op.StopTerm?
      ensures pid.None? && processGroupId.None? ==>
        m.op.StopJoin? && state == if finalDesired == WantStopped then Stopped else old(state)
    {
      targetPid, targetGroup := None, None;
      desiredState := finalDesired;
      if pid.None? && processGroupId.None? {
        if finalDesired == WantStopped && state != Stopped {
          state := Stopped;
        }
      } else {
        targetPid, targetGroup := pid, processGroupId;
        state := Stopping;
      }
      Take(if finalDesired.WantStopped? then CallStop else BeginStop);
    }

    /** The test at the top of the wait loop. */
    method LeaderWasObserved(targetPid: Option<nat>) returns (observed: bool)
      requires Valid() && m.op.StopPoll? && m.op.x.pid == targetPid
      modifies this`m
      ensures Valid() && m == After(old(m), Poll)
      ensures m.op == StopProbe(old(m).op.x, old(m).op.forced, observed)
      ensures observed <==> pid.None?
    {
      observed := targetPid.None? || pid != targetPid;
      Take(Poll);
    }

    /** The rest of the wait loop's body, once the group was probed with the mutex released:
        the loop ends in success, or at its deadline, or goes round again. */
    method FinishWait(targetGroup: Option<nat>, observed: bool, gone: bool, now: int, deadline: int)
      returns (finished: bool, again: bool)
      requires Valid() && m.op.StopDecide? && m.op.x.pgid == targetGroup
      requires m.op.observed == observed && m.op.gone == gone
      modifies this
      ensures Valid() && m == After(old(m), Decide(now >= deadline))
      ensures finished <==> observed && gone
      ensures again <==> !finished && now < deadline
      ensures var x, forced := old(m).op.x, old(m).op.forced;
        m.op == if finished then StopJoin(x) else if again then StopPoll(x, forced)
                else if forced then StopGiveUp(x) else StopKill(x)
      ensures processGroupId == if finished then None else old(processGroupId)
      ensures state == old(state) && desiredState == old(desiredState) && pid == old(pid)
    {
      finished := observed && gone;
      if finished && processGroupId == targetGroup {
        processGroupId := None;
      }
      again := !finished && now < deadline;
      Take(Decide(now >= deadline));
    }

    method StopGivesUp(targetPid: Option<nat>)
      requires Valid() && m.op.StopGiveUp? && m.op.x.pid == targetPid
      modifies this
      ensures Valid() && m == After(old(m), GiveUp) && m.op.Idle?
      ensures state == if pid == targetPid then Failed else old(state)
      ensures pid == old(pid) && processGroupId == old(processGroupId) && desiredState == old(desiredState)
    {
      if pid == targetPid {
        state := Failed;
      }
      Take(GiveUp);
    }

    method SetDesiredState(desired: DesiredState)
      requires Valid() && m.op.Idle?
      modifies this
      ensures Valid() && m == After(old(m), CallSetDesired(desired))
      ensures desiredState == desired && state == old(state) && pid == old(pid)
      ensures processGroupId == old(processGroupId) && m.op.Idle?
    {
      desiredState := desired;
      Take(CallSetDesired(desired));
    }

    // The observer thread

    /** After `waitpid` returned; the early return for a foreign pid is never taken. */
    method PublishExit(targetPid: nat) returns (published: bool)
      requires Valid() && m.obs == Publishing(targetPid)
      modifies this
      ensures Valid() && m == After(old(m), ObserverPublishes)
      ensures published && pid.None? && processGroupId == old(processGroupId) && desiredState == old(desiredState)
      ensures m.obs == Cleaning(targetPid)
      ensures state == if desiredState == WantStopped || old(state) == Stopping then Stopped else Exited
    {
      if pid != Some(targetPid) {
        published := false;
      } else {
        MarkChildExited();
        published := true;
      }
      Take(ObserverPublishes);
    }

    method MarkChildExited()
      modifies this`pid, this`state
      ensures Fields(state, desiredState, pid, processGroupId) ==
        ExitPublished(old(Fields(state, desiredState, pid, processGroupId)))
      ensures pid.None?
      ensures state == if desiredState == WantStopped || old(state) == Stopping then Stopped else Exited
    {
      pid := None;
      var explicitlyStopped := desiredState == WantStopped || state == Stopping;
      state := if explicitlyStopped then Stopped else Exited;
    }

    /** Last critical section of the clean-up; the group is probed under the mutex. */
    method ClearGroup(targetGroup: nat, gone: bool)
      requires Valid() && m.obs == Clearing(targetGroup) && Probes(m.gens, Some(targetGroup), gone)
      modifies this
      ensures Valid() && m == After(old(m), ObserverClears(gone)) && m.obs == Done(targetGroup)
      ensures processGroupId == if old(processGroupId) == Some(targetGroup) && gone then None else old(processGroupId)
      ensures state == old(state) && desiredState == old(desiredState) && pid == old(pid)
    {
      if processGroupId == Some(targetGroup) && gone {
        processGroupId := None;
      }
      Take(ObserverClears(gone));
    }
  }
}

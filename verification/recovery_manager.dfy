/**
 The recovery manager's own code. The supervisor's status and the result of its start or
 restart are parameters of an evaluation.
 */
module RecoveryCode {
  import opened Common
  import opened ControlTypes
  import opened Recovery
  import RecoveryDecision

  function StateOf(states: map<Id, RecoveryState>, id: Id): RecoveryState {
    if id in states then states[id] else FreshState
  }

  function FirstOf(es: seq<RecoveryEvent>, id: Id, limit: nat): seq<RecoveryEvent> {
    if es == [] || limit == 0 then []
    else if es[|es| - 1].serviceId == id then [es[|es| - 1]] + FirstOf(es[..|es| - 1], id, limit - 1)
    else FirstOf(es[..|es| - 1], id, limit)
  }

  class RecoveryManager {
    const recentEventCapacity: nat
    const suppressEventCooldownSeconds: nat
    var states: map<Id, RecoveryState>
    var recentEvents: seq<RecoveryEvent>
    ghost var m: map<Id, Tracked>

    ghost predicate Valid()
      reads this
    {
      && recentEventCapacity > 0 && suppressEventCooldownSeconds > 0
      && |recentEvents| <= recentEventCapacity
      && states.Keys == m.Keys && forall id :: id in states ==> states[id] == m[id].state
    }

    constructor (capacity: nat, cooldown: nat)
      ensures Valid() && m == map[] && recentEvents == []
      ensures recentEventCapacity == (if capacity == 0 then 1 else capacity)
      ensures suppressEventCooldownSeconds == (if cooldown == 0 then 1 else cooldown)
    {
      recentEventCapacity := if capacity == 0 then 1 else capacity;
      suppressEventCooldownSeconds := if cooldown == 0 then 1 else cooldown;
      states, recentEvents, m := map[], [], map[];
    }

    static method FindTrigger(definition: ServiceDefinition, health: HealthStatus, alerts: seq<AlertEvent>)
      returns (trigger: Option<Trigger>)
      ensures trigger == TriggerOf(definition, health, alerts)
      ensures trigger.Some? <==> RecoveryDecision.Wanted(definition, health, alerts)
    {
      RecoveryDecision.TriggerIff(definition, health, alerts);
      var p := definition.policy;
      if p.restartOnUnhealthy && health.state.Unhealthy? {
        return Some(Trigger("service health state is unhealthy: " + health.reason, None));
      }
      if p.restartOnCriticalAlert {
        var i := 0;
        while i < |alerts|
          invariant 0 <= i <= |alerts|
          invariant FirstCritical(alerts, definition.id) == FirstCritical(alerts[i..], definition.id)
        {
          assert alerts[i..][1..] == alerts[i + 1..];
          if IsCritical(alerts[i], definition.id) {
            return Some(Trigger("critical alert is active: " + alerts[i].id, Some(alerts[i].id)));
          }
          i := i + 1;
        }
      }
      return None;
    }

    static method HasRestartBudget(state: RecoveryState, p: RecoveryPolicy, now: Time)
      returns (state': RecoveryState, allowed: bool)
      ensures state' == state.(restartAttempts := Prune(state.restartAttempts, Milliseconds(p.windowSeconds), now))
      ensures allowed == (|state'.restartAttempts| < p.maxRestarts)
    {
      var window := Milliseconds(p.windowSeconds);
      var attempts := state.restartAttempts;
      while attempts != [] && attempts[0] + window < now
        invariant Prune(attempts, window, now) == Prune(state.restartAttempts, window, now)
        decreases |attempts|
      {
        attempts := attempts[1..];
      }
      state' := state.(restartAttempts := attempts);
      allowed := |attempts| < p.maxRestarts;
    }

    method PushRecentEvent(e: RecoveryEvent)
      requires recentEventCapacity > 0 && |recentEvents| <= recentEventCapacity
      modifies this`recentEvents
      ensures recentEvents == LastOf(old(recentEvents) + [e], recentEventCapacity)
    {
      recentEvents := recentEvents + [e];
      while |recentEvents| > recentEventCapacity
        invariant |recentEvents| >= recentEventCapacity || recentEvents == old(recentEvents) + [e]
        invariant |recentEvents| <= |old(recentEvents)| + 1
        invariant var all := old(recentEvents) + [e]; recentEvents == all[|all| - |recentEvents|..]
      {
        recentEvents := recentEvents[1..];
      }
    }

    /** Announces a well-formed event. */
    method Announce(e: RecoveryEvent) returns (events: seq<RecoveryEvent>)
      requires recentEventCapacity > 0 && |recentEvents| <= recentEventCapacity
      modifies this`recentEvents
      ensures events == IfValid(e)
      ensures recentEvents == LastOf(old(recentEvents) + events, recentEventCapacity)
    {
      events := [];
      if e.Valid() {
        PushRecentEvent(e);
        events := [e];
      }
    }

    /** Each of the four suppressing branches. */
    method AnnounceSuppression(state: RecoveryState, c: Call, reason: string, trigger: Trigger)
      returns (state': RecoveryState, events: seq<RecoveryEvent>)
      requires recentEventCapacity > 0 && |recentEvents| <= recentEventCapacity
      modifies this`recentEvents
      ensures var step := Suppressed(state, c, reason, trigger, suppressEventCooldownSeconds);
        state' == step.state && events == step.events
      ensures recentEvents == LastOf(old(recentEvents) + events, recentEventCapacity)
    {
      state', events := state, [];
      var cooldown := Milliseconds(suppressEventCooldownSeconds);
      if state.lastSuppressed.None? || c.now >= state.lastSuppressed.value + cooldown {
        state' := state.(lastSuppressed := Some(c.now));
        events := Announce(Event(c, RestartSuppressed, reason, trigger, |state.restartAttempts|));
      }
    }

    method AttemptRestart(state: RecoveryState, c: Call, trigger: Trigger)
      returns (state': RecoveryState, events: seq<RecoveryEvent>, operation: Operation)
      requires recentEventCapacity > 0 && |recentEvents| <= recentEventCapacity
      modifies this`recentEvents
      ensures var step := Attempted(state, c, trigger);
        state' == step.state && events == step.events && operation == step.operation
      ensures recentEvents == LastOf(old(recentEvents) + events, recentEventCapacity)
    {
      var p := c.definition.policy;
      var n := |state.restartAttempts|;
      var started := Announce(Event(c, RestartStarted, trigger.reason, trigger, n));
      operation := if c.current.state.Running? && c.current.pid > 0 then RestartService else StartService;
      state' := state.(
        restartAttempts := state.restartAttempts + [c.now],
        nextAllowed := Some(c.now + Milliseconds(p.backoffSeconds)),
        graceUntil := Some(c.now + Milliseconds(p.startupGraceSeconds)));
      var ended: seq<RecoveryEvent>;
      if c.succeeded {
        ended := Announce(Event(c, RestartSucceeded, trigger.reason, trigger, |state'.restartAttempts|));
      } else {
        var reason := if c.error == "" then "restart operation failed" else c.error;
        ended := Announce(Event(c, RestartFailed, reason, trigger, |state'.restartAttempts|));
      }
      PushedTwice(old(recentEvents), started, ended, recentEventCapacity);
      events := started + ended;
    }

    method EvaluateAndRecover(c: Call) returns (events: seq<RecoveryEvent>, operation: Operation)
      requires Valid()
      modifies this
      ensures Valid()
      ensures var id := c.definition.id;
              var step := StepOf(TrackedOf(old(m), id).state, c, suppressEventCooldownSeconds);
        && events == step.events && operation == step.operation
        && m == old(m)[id := Track(TrackedOf(old(m), id), c, suppressEventCooldownSeconds)]
        && states == old(states)[id := step.state]
      ensures recentEvents == LastOf(old(recentEvents) + events, recentEventCapacity)
    {
      var id := c.definition.id;
      ghost var tracked := TrackedOf(m, id);
      var state: RecoveryState;
      state, events, operation := Evaluate(StateOf(states, id), c);
      states := states[id := state];
      m := m[id := Track(tracked, c, suppressEventCooldownSeconds)];
    }

    method Evaluate(before: RecoveryState, c: Call)
      returns (state: RecoveryState, events: seq<RecoveryEvent>, operation: Operation)
      requires recentEventCapacity > 0 && |recentEvents| <= recentEventCapacity
      modifies this`recentEvents
      ensures var step := StepOf(before, c, suppressEventCooldownSeconds);
        state == step.state && events == step.events && operation == step.operation
      ensures recentEvents == LastOf(old(recentEvents) + events, recentEventCapacity)
    {
      var verdict: Verdict;
      operation, events := NoOperation, [];
      state := before;
      if c.health.state.Healthy? {
        state := state.(hasSeenHealthy := true);
      }
      state, verdict := Decide(state, c);
      match verdict
      case Leave =>
      case Suppress(reason, trigger) => state, events := AnnounceSuppression(state, c, reason, trigger);
      case OverLimit(trigger) => state, events := AnnounceSuppression(state, c, LIMIT_REASON, trigger);
      case Restart(trigger) => state, events, operation := AttemptRestart(state, c, trigger);
    }

    /** The tests of an evaluation, in order. */
    static method Decide(state: RecoveryState, c: Call) returns (state': RecoveryState, verdict: Verdict)
      ensures verdict == Judge(state, c)
      ensures state' == if verdict.OverLimit? || verdict.Restart? then Pruned(state, c) else state
    {
      state', verdict := state, Leave;
      var trigger := FindReason(c);
      if trigger.None? {
        return;
      }
      if c.health.state.Unhealthy? && !state.hasSeenHealthy && !c.definition.autoStart {
        return state, Suppress(
          "auto recovery suppressed because service has not been observed healthy yet", trigger.value);
      }
      if state.graceUntil.Some? && c.now < state.graceUntil.value {
        return state, Suppress("auto recovery suppressed during startup grace period", trigger.value);
      }
      if state.nextAllowed.Some? && c.now < state.nextAllowed.value {
        return state, Suppress("auto recovery suppressed by backoff window", trigger.value);
      }
      state', verdict := DecideByBudget(state, c, trigger.value);
    }

    /** What recovery is asked for, if it may act at all. */
    static method FindReason(c: Call) returns (trigger: Option<Trigger>)
      ensures var p := c.definition.policy;
        trigger == if !p.enabled || !p.Valid() || c.current.desired.WantStopped? then None
                   else TriggerOf(c.definition, c.health, c.alerts)
    {
      if !c.definition.policy.enabled || !c.definition.policy.Valid() {
        return None;
      }
      trigger := FindTrigger(c.definition, c.health, c.alerts);
      if trigger.None? {
        return None;
      }
      if c.current.desired.WantStopped? {
        return None;
      }
    }

    static method DecideByBudget(state: RecoveryState, c: Call, trigger: Trigger)
      returns (state': RecoveryState, verdict: Verdict)
      ensures state' == Pruned(state, c)
      ensures verdict == if |state'.restartAttempts| >= c.definition.policy.maxRestarts then OverLimit(trigger)
                         else Restart(trigger)
    {
      var allowed: bool;
      state', allowed := HasRestartBudget(state, c.definition.policy, c.now);
      verdict := if allowed then Restart(trigger) else OverLimit(trigger);
    }

    method ForgetService(id: Id)
      requires Valid()
      modifies this
      ensures Valid() && m == Erase(old(m), id)
      ensures recentEvents == OtherEvents(old(recentEvents), id)
    {
      states := Erase(states, id);
      var kept: seq<RecoveryEvent> := [];
      var i := 0;
      while i < |recentEvents|
        invariant 0 <= i <= |recentEvents|
        invariant |kept| <= i && kept == OtherEvents(recentEvents[..i], id)
      {
        assert recentEvents[..i + 1][..i] == recentEvents[..i];
        if recentEvents[i].serviceId != id {
          kept := kept + [recentEvents[i]];
        }
        i := i + 1;
      }
      assert recentEvents[..i] == recentEvents;
      recentEvents := kept;
      m := Erase(m, id);
    }

    /** The newest events of a service, newest first. */
    method GetEventsForService(id: Id, limit: nat) returns (result: seq<RecoveryEvent>)
      ensures result == FirstOf(recentEvents, id, limit)
    {
      result := [];
      var i := |recentEvents|;
      assert recentEvents[..i] == recentEvents;
      while i > 0 && |result| < limit
        invariant 0 <= i <= |recentEvents| && |result| <= limit
        invariant FirstOf(recentEvents, id, limit) == result + FirstOf(recentEvents[..i], id, limit - |result|)
        decreases i
      {
        i := i - 1;
        assert recentEvents[..i + 1][..i] == recentEvents[..i];
        if recentEvents[i].serviceId == id {
          result := result + [recentEvents[i]];
        }
      }
    }
  }

  lemma PushedTwice<T>(s: seq<T>, a: seq<T>, b: seq<T>, n: nat)
    ensures LastOf(LastOf(s + a, n) + b, n) == LastOf(s + (a + b), n)
  {
    assert s + (a + b) == s + a + b;
    PushedOnce(s + a, b, n);
  }

  lemma PushedOnce<T>(s: seq<T>, b: seq<T>, n: nat)
    ensures LastOf(LastOf(s, n) + b, n) == LastOf(s + b, n)
  {
    if |s| > n {
      TailPlus(s, b, |s| - n);
      LastOfTail(s + b, |s| - n, n);
    }
  }

  lemma LastOfTail<T>(s: seq<T>, k: nat, n: nat)
    requires k + n <= |s|
    ensures LastOf(s[k..], n) == LastOf(s, n)
  {
    SliceOfSlice(s, k, |s| - k - n);
  }

  lemma TailPlus<T>(s: seq<T>, b: seq<T>, k: nat)
    requires k <= |s|
    ensures s[k..] + b == (s + b)[k..]
  {
  }

  /** The events of a service, oldest first. */
  function OwnEvents(es: seq<RecoveryEvent>, id: Id): seq<RecoveryEvent> {
    if es == [] then []
    else OwnEvents(es[..|es| - 1], id) + if es[|es| - 1].serviceId == id then [es[|es| - 1]] else []
  }

  lemma {:induction false} OwnEventsAre(es: seq<RecoveryEvent>, id: Id, e: RecoveryEvent)
    ensures multiset(OwnEvents(es, id))[e] == if e.serviceId == id then multiset(es)[e] else 0
  {
    if es != [] {
      OwnEventsAre(es[..|es| - 1], id, e);
      LastApart(es);
    }
  }

  /** The list of a service goes back in time from its newest event, as far as the limit. */
  lemma {:induction false} ListedBackwards(es: seq<RecoveryEvent>, id: Id, limit: nat)
    ensures var own, r := OwnEvents(es, id), FirstOf(es, id, limit);
      && |r| == (if |own| < limit then |own| else limit)
      && forall i :: 0 <= i < |r| ==> r[i] == own[|own| - 1 - i]
  {
    if es != [] && limit > 0 {
      var n := |es| - 1;
      ListedBackwards(es[..n], id, if es[n].serviceId == id then limit - 1 else limit);
    }
  }

  /** What is listed for a service belongs to it, within the limit. */
  lemma {:induction false} ListedBelong(es: seq<RecoveryEvent>, id: Id, limit: nat)
    ensures var r := FirstOf(es, id, limit);
      && |r| <= limit && (forall e :: e in r ==> e in es && e.serviceId == id)
      && (|r| < limit ==> forall e :: e in es && e.serviceId == id ==> e in r)
  {
    if es != [] && limit > 0 {
      var n := |es| - 1;
      ListedBelong(es[..n], id, if es[n].serviceId == id then limit - 1 else limit);
      assert forall e :: e in es <==> e in es[..n] || e == es[n];
    }
  }
}

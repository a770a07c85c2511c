/**
 When a service is restarted, and what is announced: exact conditions in terms of the policy,
 the health, the alerts and the full history of attempts.
 */
module RecoveryDecision {
  import opened Common
  import opened ControlTypes
  import opened Recovery

  // The trigger

  /** This alert asks for a restart of the service. */
  predicate Asks(e: AlertEvent, id: Id) {
    e.serviceId == id && e.state.Active? && e.severity.Critical?
  }

  /** The service is unhealthy and that matters, or one of its active alerts is critical and
      that matters. */
  predicate Wanted(d: ServiceDefinition, health: HealthStatus, alerts: seq<AlertEvent>) {
    || (d.policy.restartOnUnhealthy && health.state.Unhealthy?)
    || (d.policy.restartOnCriticalAlert && exists i :: 0 <= i < |alerts| && Asks(alerts[i], d.id))
  }

  /** The first alert that asks is the one named. */
  lemma {:induction false} FirstCriticalIs(es: seq<AlertEvent>, id: Id)
    ensures match FirstCritical(es, id)
            case Some(e) => exists i :: 0 <= i < |es| && es[i] == e && Asks(e, id) &&
                                        forall j :: 0 <= j < i ==> !Asks(es[j], id)
            case None => forall i :: 0 <= i < |es| ==> !Asks(es[i], id)
  {
    if es != [] && !IsCritical(es[0], id) {
      FirstCriticalIs(es[1..], id);
      assert forall i :: 0 < i < |es| ==> es[i] == es[1..][i - 1];
      if FirstCritical(es, id).Some? {
        var i :| 0 <= i < |es| - 1 && es[1..][i] == FirstCritical(es, id).value &&
                 forall j :: 0 <= j < i ==> !Asks(es[1..][j], id);
        assert es[i + 1] == FirstCritical(es, id).value;
        assert forall j :: 0 <= j < i + 1 ==> !Asks(es[j], id);
      }
    }
  }

  /** Recovery is triggered exactly if the service is unhealthy or an active critical alert of
      its own is listed, and the policy wants that. Unhealthiness goes first and names no
      alert; otherwise the first such alert is named. */
  lemma TriggerIff(d: ServiceDefinition, health: HealthStatus, alerts: seq<AlertEvent>)
    ensures TriggerOf(d, health, alerts).Some? <==>
      || (d.policy.restartOnUnhealthy && health.state.Unhealthy?)
      || (d.policy.restartOnCriticalAlert &&
          exists i :: 0 <= i < |alerts| && Asks(alerts[i], d.id))
    ensures var t := TriggerOf(d, health, alerts);
      t.Some? ==>
        && t.value.reason != ""
        && (t.value.alertEventId.None? <==> d.policy.restartOnUnhealthy && health.state.Unhealthy?)
        && (t.value.alertEventId.Some? ==>
              exists i :: 0 <= i < |alerts| && Asks(alerts[i], d.id) && alerts[i].id == t.value.alertEventId.value &&
                          forall j :: 0 <= j < i ==> !Asks(alerts[j], d.id))
  {
    FirstCriticalIs(alerts, d.id);
  }

  // The decision

  /** The delays after the last attempt are over. */
  predicate Rested(ever: seq<Time>, p: RecoveryPolicy, now: Time) {
    ever == [] ||
    var last := ever[|ever| - 1];
    last + 1000 * p.backoffSeconds <= now && last + 1000 * p.startupGraceSeconds <= now
  }

  /** How many attempts, of all ever made, lie within the window that ends now. */
  function AttemptsInWindow(ever: seq<Time>, p: RecoveryPolicy, now: Time): nat {
    CountIn(ever, now - 1000 * p.windowSeconds, now)
  }

  /** A service that is wanted running and for which recovery is asked, in a state in which
      it may act. */
  predicate Concerned(c: Call) {
    && c.definition.policy.enabled && c.definition.policy.Valid()
    && Wanted(c.definition, c.health, c.alerts) && !c.current.desired.WantStopped?
  }

  predicate Acts(c: Call, seenHealthy: bool, ever: seq<Time>) {
    && Concerned(c)
    && (c.health.state.Unhealthy? ==> seenHealthy || c.definition.autoStart)
    && Rested(ever, c.definition.policy, c.now)
    && AttemptsInWindow(ever, c.definition.policy, c.now) < c.definition.policy.maxRestarts
  }

  lemma {:induction false} RecentIsCount(ts: seq<Time>, window: Time, now: Time)
    requires forall i :: 0 <= i < |ts| ==> ts[i] <= now
    ensures |Recent(ts, window, now)| == CountIn(ts, now - window, now)
  {
    if ts != [] {
      var n := |ts| - 1;
      RecentIsCount(ts[..n], window, now);
      RecentLast(ts, window, now);
    }
  }

  lemma {:induction false} RecentLast(ts: seq<Time>, window: Time, now: Time)
    requires ts != []
    ensures var n := |ts| - 1;
      |Recent(ts, window, now)| == |Recent(ts[..n], window, now)| + if ts[n] + window >= now then 1 else 0
  {
    if |ts| > 1 {
      RecentLast(ts[1..], window, now);
      assert ts[1..][..|ts| - 2] == ts[..|ts| - 1][1..];
    }
  }

  lemma AllPast(t: Tracked, p: RecoveryPolicy, cooldown: nat, now: Time)
    requires HistoryOk(t, p, cooldown) && Rested(t.ever, p, now)
    ensures forall i :: 0 <= i < |t.ever| ==> t.ever[i] <= now
  {
    forall i | 0 <= i < |t.ever|
      ensures t.ever[i] <= now
    {
      SpacedSorts(t.ever, Gap(p), i, |t.ever| - 1);
    }
  }

  lemma RestedIff(t: Tracked, p: RecoveryPolicy, cooldown: nat, now: Time)
    requires HistoryOk(t, p, cooldown)
    ensures Decides(t.state, now) <==> Rested(t.ever, p, now)
  {
  }

  lemma BudgetIsCount(t: Tracked, p: RecoveryPolicy, cooldown: nat, now: Time)
    requires HistoryOk(t, p, cooldown) && Rested(t.ever, p, now)
    ensures |Prune(t.state.restartAttempts, Milliseconds(p.windowSeconds), now)| == AttemptsInWindow(t.ever, p, now)
  {
    RestedIff(t, p, cooldown, now);
    AllPast(t, p, cooldown, now);
    QueueIsExact(t, p, cooldown, now);
    RecentIsCount(t.ever, Milliseconds(p.windowSeconds), now);
  }

  lemma LeavesIff(s: RecoveryState, c: Call)
    ensures Judge(s, c).Leave? <==> !Concerned(c)
  {
    TriggerIff(c.definition, c.health, c.alerts);
  }

  /** The verdict on a concerned service, test by test. */
  lemma VerdictOf(s: RecoveryState, c: Call)
    requires Concerned(c)
    ensures Judge(s, c).Restart? <==>
      && (c.health.state.Unhealthy? ==> s.hasSeenHealthy || c.definition.autoStart)
      && Decides(s, c.now)
      && |Prune(s.restartAttempts, Milliseconds(c.definition.policy.windowSeconds), c.now)|
         < c.definition.policy.maxRestarts
  {
    TriggerIff(c.definition, c.health, c.alerts);
  }

  lemma VerdictIff(t: Tracked, c: Call, cooldown: nat)
    requires HistoryOk(t, c.definition.policy, cooldown)
    ensures Judge(Seen(t.state, c), c).Restart? <==> Acts(c, t.state.hasSeenHealthy, t.ever)
  {
    LeavesIff(Seen(t.state, c), c);
    if Concerned(c) {
      VerdictOf(Seen(t.state, c), c);
      RestedIff(t, c.definition.policy, cooldown, c.now);
      if Rested(t.ever, c.definition.policy, c.now) {
        BudgetIsCount(t, c.definition.policy, cooldown, c.now);
      }
    }
  }

  lemma OperationIs(s: RecoveryState, c: Call, cooldown: nat)
    ensures var op := StepOf(s, c, cooldown).operation;
      && (op.NoOperation? <==> !Judge(Seen(s, c), c).Restart?)
      && (op.RestartService? ==> c.current.state.Running? && c.current.pid > 0)
      && (op.StartService? ==> !(c.current.state.Running? && c.current.pid > 0))
  {
  }

  /** One evaluation of a service with history `t`: it is started or restarted exactly if it
      is concerned, was seen healthy or starts automatically, has rested since its last
      attempt, and has had fewer attempts in the window than allowed. It is restarted if its
      process runs, and started otherwise. */
  lemma ActsIff(t: Tracked, c: Call, cooldown: nat)
    requires HistoryOk(t, c.definition.policy, cooldown)
    ensures var op := StepOf(t.state, c, cooldown).operation;
      && (!op.NoOperation? <==> Acts(c, t.state.hasSeenHealthy, t.ever))
      && (op.RestartService? ==> c.current.state.Running? && c.current.pid > 0)
      && (op.StartService? ==> !(c.current.state.Running? && c.current.pid > 0))
  {
    VerdictIff(t, c, cooldown);
    OperationIs(t.state, c, cooldown);
  }

  /** The same over every sequence of evaluations, whatever the clock says. */
  lemma RestartsIff(cs: seq<Call>, p: RecoveryPolicy, cooldown: nat, c: Call)
    requires SamePolicy(cs, p) && c.definition.policy == p
    ensures var t := TrackAll(cs, cooldown);
      !StepOf(t.state, c, cooldown).operation.NoOperation? <==>
      Acts(c, exists i :: 0 <= i < |cs| && cs[i].health.state.Healthy?, t.ever)
  {
    HistoryHolds(cs, p, cooldown);
    SeenIsHistory(cs, cooldown);
    ActsIff(TrackAll(cs, cooldown), c, cooldown);
  }

  // What is announced

  predicate Announces(e: RecoveryEvent, c: Call, kind: EventType) {
    e.serviceId == c.definition.id && e.kind == kind && e.occurredAt == c.now && e.reason != ""
  }

  /** An attempt announces two events, its start and how it ended, both with the alert that
      triggered it; a failure is explained by the supervisor's error if there is one. */
  lemma AttemptAnnounces(s: RecoveryState, c: Call, cooldown: nat)
    requires !StepOf(s, c, cooldown).operation.NoOperation? && ValidServiceId(c.definition.id) && c.now >= 0
    ensures var es := StepOf(s, c, cooldown).events;
            var trigger := TriggerOf(c.definition, c.health, c.alerts);
      && |es| == 2 && trigger.Some?
      && Announces(es[0], c, RestartStarted)
      && Announces(es[1], c, if c.succeeded then RestartSucceeded else RestartFailed)
      && es[0].alertEventId == es[1].alertEventId == trigger.value.alertEventId
      && es[0].reason == trigger.value.reason
      && (c.succeeded ==> es[1].reason == trigger.value.reason)
      && (!c.succeeded && c.error != "" ==> es[1].reason == c.error)
  {
    TriggerIff(c.definition, c.health, c.alerts);
  }

  /** The step of a concerned service that is not restarted. */
  lemma SuppressedStep(s: RecoveryState, c: Call, cooldown: nat) returns (s': RecoveryState, reason: string)
    requires Concerned(c) && StepOf(s, c, cooldown).operation.NoOperation?
    ensures TriggerOf(c.definition, c.health, c.alerts).Some? && reason != ""
    ensures StepOf(s, c, cooldown) ==
            Suppressed(s', c, reason, TriggerOf(c.definition, c.health, c.alerts).value, cooldown)
    ensures s'.lastSuppressed == s.lastSuppressed
  {
    LeavesIff(Seen(s, c), c);
    s', reason := Seen(s, c), "";
    match Judge(Seen(s, c), c)
    case Suppress(text, _) => reason := text;
    case OverLimit(_) => s', reason := Pruned(Seen(s, c), c), LIMIT_REASON;
  }

  lemma SuppressedAnnounces(s: RecoveryState, c: Call, reason: string, t: Trigger, cooldown: nat)
    requires reason != "" && ValidServiceId(c.definition.id) && c.now >= 0
    ensures var step := Suppressed(s, c, reason, t, cooldown);
      && step.emitted == (s.lastSuppressed.None? || s.lastSuppressed.value + Milliseconds(cooldown) <= c.now)
      && |step.events| == (if step.emitted then 1 else 0)
      && (step.emitted ==> Announces(step.events[0], c, RestartSuppressed))
      && (step.emitted ==> step.events[0].alertEventId == t.alertEventId)
  {
  }

  /** A concerned service that is not restarted is announced as suppressed, unless that was
      announced less than the cool-down ago; nothing else is announced. */
  lemma SuppressionAnnounces(t: Tracked, c: Call, cooldown: nat)
    requires HistoryOk(t, c.definition.policy, cooldown)
    requires StepOf(t.state, c, cooldown).operation.NoOperation? && ValidServiceId(c.definition.id) && c.now >= 0
    ensures var es := StepOf(t.state, c, cooldown).events;
            var quiet := t.silenced == [] || t.silenced[|t.silenced| - 1] + 1000 * cooldown <= c.now;
      && |es| == (if Concerned(c) && quiet then 1 else 0)
      && (es != [] ==> Announces(es[0], c, RestartSuppressed))
      && Track(t, c, cooldown).silenced == (if es != [] then t.silenced + [c.now] else t.silenced)
  {
    if Concerned(c) {
      var s', reason := SuppressedStep(t.state, c, cooldown);
      SuppressedAnnounces(s', c, reason, TriggerOf(c.definition, c.health, c.alerts).value, cooldown);
    } else {
      LeavesIff(Seen(t.state, c), c);
    }
  }
}

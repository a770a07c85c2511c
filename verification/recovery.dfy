/**
 Automatic recovery: when to restart a service, and when to leave it alone. The clock may
 jump in either direction; a service's definition does not change while it is known.
 */
module Recovery {
  import opened Common
  import opened ControlTypes
  import AlertManagement

  type AlertEvent = AlertManagement.AlertEvent

  /** What is remembered of one service. */
  datatype RecoveryState = RecoveryState(
    hasSeenHealthy: bool,
    restartAttempts: seq<Time>,
    nextAllowed: Option<Time>,
    graceUntil: Option<Time>,
    lastSuppressed: Option<Time>)

  const FreshState := RecoveryState(false, [], None, None, None)

  datatype EventType = RestartStarted | RestartSucceeded | RestartFailed | RestartSuppressed

  datatype RecoveryEvent = RecoveryEvent(
    serviceId: Id, kind: EventType, occurredAt: Time, reason: string, alertEventId: Option<Id>, restartCount: nat)
  {
    predicate Valid() { ValidServiceId(serviceId) && occurredAt >= 0 && reason != "" }
  }

  datatype Trigger = Trigger(reason: string, alertEventId: Option<Id>)

  /** What one evaluation is given: the service, its health and active alerts, the time, the
      supervisor's status, and how the supervisor's start or restart would end. */
  datatype Call = Call(
    definition: ServiceDefinition,
    health: HealthStatus,
    alerts: seq<AlertEvent>,
    now: Time,
    current: ServiceStatus,
    succeeded: bool,
    error: string)

  datatype Operation = NoOperation | StartService | RestartService

  datatype Verdict = Leave | Suppress(reason: string, trigger: Trigger) | OverLimit(trigger: Trigger)
                   | Restart(trigger: Trigger)

  function Milliseconds(seconds: nat): Time { seconds * MILLISECONDS_PER_SECOND }

  // Deciding

  predicate IsCritical(e: AlertEvent, id: Id) {
    e.serviceId == id && e.state.Active? && e.severity.Critical?
  }

  function FirstCritical(es: seq<AlertEvent>, id: Id): (e: Option<AlertEvent>)
    ensures e.Some? ==> e.value in es && IsCritical(e.value, id)
    ensures e.None? ==> forall x :: x in es ==> !IsCritical(x, id)
  {
    if es == [] then None
    else if IsCritical(es[0], id) then Some(es[0])
    else FirstCritical(es[1..], id)
  }

  function TriggerOf(d: ServiceDefinition, health: HealthStatus, alerts: seq<AlertEvent>): Option<Trigger> {
    if d.policy.restartOnUnhealthy && health.state.Unhealthy? then
      Some(Trigger("service health state is unhealthy: " + health.reason, None))
    else if d.policy.restartOnCriticalAlert then
      match FirstCritical(alerts, d.id)
      case Some(e) => Some(Trigger("critical alert is active: " + e.id, Some(e.id)))
      case None => None
    else None
  }

  predicate InGrace(s: RecoveryState, now: Time) { s.graceUntil.Some? && now < s.graceUntil.value }

  predicate InBackoff(s: RecoveryState, now: Time) { s.nextAllowed.Some? && now < s.nextAllowed.value }

  /** Attempts older than the window leave the front of the queue. */
  function Prune(ts: seq<Time>, window: Time, now: Time): seq<Time> {
    if ts != [] && ts[0] + window < now then Prune(ts[1..], window, now) else ts
  }

  function Seen(s: RecoveryState, c: Call): RecoveryState {
    s.(hasSeenHealthy := s.hasSeenHealthy || c.health.state.Healthy?)
  }

  /** `s` includes what this evaluation saw of the health. */
  function Judge(s: RecoveryState, c: Call): Verdict {
    var p := c.definition.policy;
    var trigger := TriggerOf(c.definition, c.health, c.alerts);
    if !p.enabled || !p.Valid() || trigger.None? || c.current.desired.WantStopped? then Leave
    else if c.health.state.Unhealthy? && !s.hasSeenHealthy && !c.definition.autoStart then
      Suppress("auto recovery suppressed because service has not been observed healthy yet", trigger.value)
    else if InGrace(s, c.now) then
      Suppress("auto recovery suppressed during startup grace period", trigger.value)
    else if InBackoff(s, c.now) then
      Suppress("auto recovery suppressed by backoff window", trigger.value)
    else if |Prune(s.restartAttempts, Milliseconds(p.windowSeconds), c.now)| >= p.maxRestarts then
      OverLimit(trigger.value)
    else Restart(trigger.value)
  }

  predicate MayEmit(s: RecoveryState, now: Time, cooldown: nat) {
    s.lastSuppressed.None? || now >= s.lastSuppressed.value + Milliseconds(cooldown)
  }

  // One evaluation

  datatype Step = Step(state: RecoveryState, events: seq<RecoveryEvent>, operation: Operation, emitted: bool)

  function IfValid(e: RecoveryEvent): seq<RecoveryEvent> { if e.Valid() then [e] else [] }

  function Event(c: Call, kind: EventType, reason: string, t: Trigger, count: nat): RecoveryEvent {
    RecoveryEvent(c.definition.id, kind, c.now, reason, t.alertEventId, count)
  }

  function Suppressed(s: RecoveryState, c: Call, reason: string, t: Trigger, cooldown: nat): Step {
    if MayEmit(s, c.now, cooldown) then
      Step(s.(lastSuppressed := Some(c.now)),
           IfValid(Event(c, RestartSuppressed, reason, t, |s.restartAttempts|)), NoOperation, true)
    else Step(s, [], NoOperation, false)
  }

  function Recorded(s: RecoveryState, p: RecoveryPolicy, now: Time): RecoveryState {
    s.(restartAttempts := s.restartAttempts + [now],
       nextAllowed := Some(now + Milliseconds(p.backoffSeconds)),
       graceUntil := Some(now + Milliseconds(p.startupGraceSeconds)))
  }

  function Attempted(s: RecoveryState, c: Call, t: Trigger): Step {
    var n := |s.restartAttempts|;
    var started := IfValid(Event(c, RestartStarted, t.reason, t, n));
    var ended :=
      if c.succeeded then IfValid(Event(c, RestartSucceeded, t.reason, t, n + 1))
      else IfValid(Event(c, RestartFailed, if c.error == "" then "restart operation failed" else c.error, t, n + 1));
    Step(Recorded(s, c.definition.policy, c.now), started + ended,
         if c.current.Running() then RestartService else StartService, false)
  }

  function Pruned(s: RecoveryState, c: Call): RecoveryState {
    s.(restartAttempts := Prune(s.restartAttempts, Milliseconds(c.definition.policy.windowSeconds), c.now))
  }

  const LIMIT_REASON := "auto recovery suppressed because restart limit was reached"

  function StepOf(state: RecoveryState, c: Call, cooldown: nat): Step {
    var s := Seen(state, c);
    match Judge(s, c)
    case Leave => Step(s, [], NoOperation, false)
    case Suppress(reason, t) => Suppressed(s, c, reason, t, cooldown)
    case OverLimit(t) => Suppressed(Pruned(s, c), c, LIMIT_REASON, t, cooldown)
    case Restart(t) => Attempted(Pruned(s, c), c, t)
  }

  /** The events that remain when a service is forgotten. */
  function OtherEvents(es: seq<RecoveryEvent>, id: Id): seq<RecoveryEvent> {
    if es == [] then []
    else OtherEvents(es[..|es| - 1], id) + if es[|es| - 1].serviceId == id then [] else [es[|es| - 1]]
  }

  /** Forgetting a service removes its events and no other. */
  lemma {:induction false} OtherEventsAre(es: seq<RecoveryEvent>, id: Id, e: RecoveryEvent)
    ensures multiset(OtherEvents(es, id))[e] == if e.serviceId == id then 0 else multiset(es)[e]
  {
    if es != [] {
      OtherEventsAre(es[..|es| - 1], id, e);
      LastApart(es);
    }
  }

  // The full history of one service

  /** `ever` lists all attempts recorded since the service was last forgotten, `silenced` all
      times at which a suppression was announced. */
  datatype Tracked = Tracked(state: RecoveryState, ever: seq<Time>, silenced: seq<Time>)

  const FreshTracked := Tracked(FreshState, [], [])

  function TrackedOf(m: map<Id, Tracked>, id: Id): Tracked {
    if id in m then m[id] else FreshTracked
  }

  function Track(t: Tracked, c: Call, cooldown: nat): Tracked {
    var step := StepOf(t.state, c, cooldown);
    Tracked(step.state,
            if step.operation.NoOperation? then t.ever else t.ever + [c.now],
            if step.emitted then t.silenced + [c.now] else t.silenced)
  }

  function TrackAll(cs: seq<Call>, cooldown: nat): Tracked {
    if cs == [] then FreshTracked else Track(TrackAll(cs[..|cs| - 1], cooldown), cs[|cs| - 1], cooldown)
  }

  function Gap(p: RecoveryPolicy): Time {
    Milliseconds(if p.backoffSeconds > p.startupGraceSeconds then p.backoffSeconds else p.startupGraceSeconds)
  }

  predicate Spaced(ts: seq<Time>, gap: Time) {
    forall i :: 0 <= i < |ts| - 1 ==> ts[i] + gap <= ts[i + 1]
  }

  /** No `n + 1` consecutive attempts lie within a closed interval of length `window`. */
  predicate Sparse(ts: seq<Time>, n: nat, window: Time) {
    forall i :: 0 <= i < |ts| - n ==> ts[i] + window < ts[i + n]
  }

  /** The attempts no older than the window. */
  function Recent(ts: seq<Time>, window: Time, now: Time): seq<Time> {
    if ts == [] then []
    else if ts[0] + window >= now then [ts[0]] + Recent(ts[1..], window, now)
    else Recent(ts[1..], window, now)
  }

  /** The queue is the end of the full history, and what has left it is older than the
      window even at the time of the last attempt. */
  predicate QueueOk(s: RecoveryState, ever: seq<Time>, p: RecoveryPolicy) {
    && |s.restartAttempts| <= |ever| && |s.restartAttempts| <= p.maxRestarts
    && s.restartAttempts == ever[|ever| - |s.restartAttempts|..]
    && forall i :: 0 <= i < |ever| - |s.restartAttempts| ==>
         ever[i] + Milliseconds(p.windowSeconds) < ever[|ever| - 1]
  }

  predicate TimesOk(s: RecoveryState, ever: seq<Time>, p: RecoveryPolicy) {
    if ever == [] then s.nextAllowed.None? && s.graceUntil.None?
    else
      var last := ever[|ever| - 1];
      && s.nextAllowed == Some(last + Milliseconds(p.backoffSeconds))
      && s.graceUntil == Some(last + Milliseconds(p.startupGraceSeconds))
  }

  predicate BudgetOk(s: RecoveryState, ever: seq<Time>, p: RecoveryPolicy) {
    && Spaced(ever, Gap(p)) && Sparse(ever, p.maxRestarts, Milliseconds(p.windowSeconds))
    && QueueOk(s, ever, p) && TimesOk(s, ever, p)
  }

  predicate SilencedOk(s: RecoveryState, silenced: seq<Time>, cooldown: nat) {
    && Spaced(silenced, Milliseconds(cooldown))
    && s.lastSuppressed == (if silenced == [] then None else Some(silenced[|silenced| - 1]))
  }

  predicate HistoryOk(t: Tracked, p: RecoveryPolicy, cooldown: nat) {
    BudgetOk(t.state, t.ever, p) && SilencedOk(t.state, t.silenced, cooldown)
  }

  lemma {:induction false} SpacedSorts(ts: seq<Time>, gap: Time, i: nat, j: nat)
    requires Spaced(ts, gap) && gap >= 0 && i <= j < |ts|
    ensures ts[i] <= ts[j]
  {
    if i < j {
      SpacedSorts(ts, gap, i, j - 1);
      assert ts[j - 1] + gap <= ts[j - 1 + 1];
    }
  }

  lemma {:induction false} PruneOfSorted(ts: seq<Time>, window: Time, now: Time)
    requires forall i, j :: 0 <= i <= j < |ts| ==> ts[i] <= ts[j]
    ensures var r := Prune(ts, window, now);
      && |r| <= |ts| && r == ts[|ts| - |r|..]
      && (forall i :: 0 <= i < |ts| - |r| ==> ts[i] + window < now)
      && (forall i :: |ts| - |r| <= i < |ts| ==> ts[i] + window >= now)
  {
    if ts != [] && ts[0] + window < now {
      PruneOfSorted(ts[1..], window, now);
    }
  }

  lemma {:induction false} RecentIsTail(ts: seq<Time>, window: Time, now: Time, k: nat)
    requires k <= |ts|
    requires forall i :: 0 <= i < k ==> ts[i] + window < now
    requires forall i :: k <= i < |ts| ==> ts[i] + window >= now
    ensures Recent(ts, window, now) == ts[k..]
  {
    if ts != [] {
      RecentIsTail(ts[1..], window, now, if k == 0 then 0 else k - 1);
    }
  }

  predicate Decides(s: RecoveryState, now: Time) { !InGrace(s, now) && !InBackoff(s, now) }

  /** Which attempts the queue holds after pruning at `now`. */
  lemma PrunedTail(s: RecoveryState, ever: seq<Time>, p: RecoveryPolicy, now: Time)
    requires BudgetOk(s, ever, p) && Decides(s, now)
    ensures var r := Prune(s.restartAttempts, Milliseconds(p.windowSeconds), now);
      && |r| <= |s.restartAttempts| && r == ever[|ever| - |r|..]
      && (forall i :: 0 <= i < |ever| - |r| ==> ever[i] + Milliseconds(p.windowSeconds) < now)
      && (forall i :: |ever| - |r| <= i < |ever| ==> ever[i] + Milliseconds(p.windowSeconds) >= now)
      && (ever != [] ==> ever[|ever| - 1] + Gap(p) <= now)
  {
    forall i, j | 0 <= i <= j < |ever|
      ensures ever[i] <= ever[j]
    {
      SpacedSorts(ever, Gap(p), i, j);
    }
    var last := if ever == [] then now else ever[|ever| - 1];
    PruneOfTail(ever, |ever| - |s.restartAttempts|, Milliseconds(p.windowSeconds), last, now);
  }

  lemma PruneOfTail(ever: seq<Time>, k: nat, window: Time, last: Time, now: Time)
    requires k <= |ever| && forall i, j :: 0 <= i <= j < |ever| ==> ever[i] <= ever[j]
    requires last <= now && forall i :: 0 <= i < k ==> ever[i] + window < last
    ensures var r := Prune(ever[k..], window, now);
      && |r| <= |ever| - k && r == ever[|ever| - |r|..]
      && (forall i :: 0 <= i < |ever| - |r| ==> ever[i] + window < now)
      && (forall i :: |ever| - |r| <= i < |ever| ==> ever[i] + window >= now)
  {
    var q := ever[k..];
    PruneOfSorted(q, window, now);
    forall i | k <= i < |ever|
      ensures ever[i] == q[i - k]
    {
    }
  }

  /** At every budget decision the queue holds exactly the attempts, of all ever recorded,
      that lie within the window. */
  lemma QueueIsExact(t: Tracked, p: RecoveryPolicy, cooldown: nat, now: Time)
    requires HistoryOk(t, p, cooldown) && Decides(t.state, now)
    ensures Prune(t.state.restartAttempts, Milliseconds(p.windowSeconds), now) ==
            Recent(t.ever, Milliseconds(p.windowSeconds), now)
  {
    PrunedTail(t.state, t.ever, p, now);
    var w := Milliseconds(p.windowSeconds);
    var k := |t.ever| - |Prune(t.state.restartAttempts, w, now)|;
    assert Prune(t.state.restartAttempts, w, now) == t.ever[k..];
    RecentIsTail(t.ever, w, now, k);
  }

  lemma SparseGrows(ever: seq<Time>, k: nat, max: nat, window: Time, now: Time)
    requires Sparse(ever, max, window) && k <= |ever| && |ever| - k < max
    requires forall i :: 0 <= i < k ==> ever[i] + window < now
    ensures Sparse(ever + [now], max, window)
  {
    var e := ever + [now];
    forall i | 0 <= i < |e| - max
      ensures e[i] + window < e[i + max]
    {
      if i + max < |ever| {
        assert ever[i] + window < ever[i + max];
      }
    }
  }

  lemma Recording(s: RecoveryState, ever: seq<Time>, p: RecoveryPolicy, now: Time)
    requires BudgetOk(s, ever, p) && Decides(s, now)
    requires |Prune(s.restartAttempts, Milliseconds(p.windowSeconds), now)| < p.maxRestarts
    ensures var r := Prune(s.restartAttempts, Milliseconds(p.windowSeconds), now);
      BudgetOk(Recorded(s.(restartAttempts := r), p, now), ever + [now], p)
  {
    var w := Milliseconds(p.windowSeconds);
    var r := Prune(s.restartAttempts, w, now);
    var s' := s.(restartAttempts := r);
    assert Spaced(ever + [now], Gap(p)) by {
      PrunedTail(s, ever, p, now);
      SpacedGrows(ever, Gap(p), now);
    }
    assert Sparse(ever + [now], p.maxRestarts, w) by {
      PrunedTail(s, ever, p, now);
      SparseGrows(ever, |ever| - |r|, p.maxRestarts, w, now);
    }
    assert QueueOk(Recorded(s', p, now), ever + [now], p) by {
      PrunedTail(s, ever, p, now);
      QueueGrows(s', ever, p, now);
    }
    assert TimesOk(Recorded(s', p, now), ever + [now], p);
  }

  lemma SpacedGrows(ever: seq<Time>, gap: Time, now: Time)
    requires Spaced(ever, gap) && (ever != [] ==> ever[|ever| - 1] + gap <= now)
    ensures Spaced(ever + [now], gap)
  {
  }

  lemma QueueGrows(s: RecoveryState, ever: seq<Time>, p: RecoveryPolicy, now: Time)
    requires |s.restartAttempts| <= |ever| && |s.restartAttempts| < p.maxRestarts
    requires s.restartAttempts == ever[|ever| - |s.restartAttempts|..]
    requires forall i :: 0 <= i < |ever| - |s.restartAttempts| ==> ever[i] + Milliseconds(p.windowSeconds) < now
    ensures QueueOk(Recorded(s, p, now), ever + [now], p)
  {
    var k := |ever| - |s.restartAttempts|;
    assert (ever + [now])[k..] == ever[k..] + [now];
  }

  lemma AttemptKeepsOk(t: Tracked, c: Call, cooldown: nat)
    requires HistoryOk(t, c.definition.policy, cooldown)
    requires Judge(Seen(t.state, c), c).Restart?
    ensures HistoryOk(Track(t, c, cooldown), c.definition.policy, cooldown)
  {
    Recording(Seen(t.state, c), t.ever, c.definition.policy, c.now);
    AfterAttempt(t, c, cooldown);
  }

  lemma AfterAttempt(t: Tracked, c: Call, cooldown: nat)
    requires Judge(Seen(t.state, c), c).Restart?
    ensures Track(t, c, cooldown) ==
            Tracked(Recorded(Pruned(Seen(t.state, c), c), c.definition.policy, c.now), t.ever + [c.now], t.silenced)
  {
  }

  lemma SuppressionKeepsOk(t: Tracked, c: Call, cooldown: nat)
    requires HistoryOk(t, c.definition.policy, cooldown)
    requires !Judge(Seen(t.state, c), c).Restart?
    ensures HistoryOk(Track(t, c, cooldown), c.definition.policy, cooldown)
  {
    if Judge(Seen(t.state, c), c).OverLimit? {
      NothingPruned(t.state, c, t.ever);
    }
    AfterSuppression(t, c, cooldown);
    SuppressionStep(t, Track(t, c, cooldown), c.now, c.definition.policy, cooldown);
  }

  /** What a call without an attempt may change. */
  predicate OnlyAnnounces(t: Tracked, t': Tracked, now: Time, cooldown: nat) {
    && t'.ever == t.ever && t'.state.restartAttempts == t.state.restartAttempts
    && t'.state.nextAllowed == t.state.nextAllowed && t'.state.graceUntil == t.state.graceUntil
    && if t'.silenced == t.silenced then t'.state.lastSuppressed == t.state.lastSuppressed
       else
         && MayEmit(t.state, now, cooldown)
         && t'.silenced == t.silenced + [now] && t'.state.lastSuppressed == Some(now)
  }

  lemma AfterSuppression(t: Tracked, c: Call, cooldown: nat)
    requires !Judge(Seen(t.state, c), c).Restart?
    requires Judge(Seen(t.state, c), c).OverLimit? ==> Pruned(Seen(t.state, c), c) == Seen(t.state, c)
    ensures OnlyAnnounces(t, Track(t, c, cooldown), c.now, cooldown)
  {
  }

  lemma SuppressionStep(t: Tracked, t': Tracked, now: Time, p: RecoveryPolicy, cooldown: nat)
    requires HistoryOk(t, p, cooldown) && OnlyAnnounces(t, t', now, cooldown)
    ensures HistoryOk(t', p, cooldown)
  {
    if t'.silenced != t.silenced {
      Announcing(t.state, t.silenced, now, cooldown);
    }
  }

  lemma Announcing(s: RecoveryState, silenced: seq<Time>, now: Time, cooldown: nat)
    requires SilencedOk(s, silenced, cooldown) && MayEmit(s, now, cooldown)
    ensures Spaced(silenced + [now], Milliseconds(cooldown))
  {
  }

  /** Pruning below the limit is followed by an attempt in the same call: when the limit is
      reached nothing was pruned. */
  lemma NothingPruned(s: RecoveryState, c: Call, ever: seq<Time>)
    requires QueueOk(s, ever, c.definition.policy) && Judge(Seen(s, c), c).OverLimit?
    ensures Pruned(Seen(s, c), c) == Seen(s, c)
  {
    PruneShrinks(s.restartAttempts, Milliseconds(c.definition.policy.windowSeconds), c.now);
  }

  lemma {:induction false} PruneShrinks(ts: seq<Time>, window: Time, now: Time)
    ensures |Prune(ts, window, now)| < |ts| || Prune(ts, window, now) == ts
  {
    if ts != [] && ts[0] + window < now {
      PruneShrinks(ts[1..], window, now);
    }
  }

  lemma FreshIsOk(p: RecoveryPolicy, cooldown: nat)
    ensures HistoryOk(FreshTracked, p, cooldown)
  {
  }

  /** All calls concern one service with one policy. */
  predicate SamePolicy(cs: seq<Call>, p: RecoveryPolicy) {
    forall i :: 0 <= i < |cs| ==> cs[i].definition.policy == p
  }

  lemma {:induction false} HistoryHolds(cs: seq<Call>, p: RecoveryPolicy, cooldown: nat)
    requires SamePolicy(cs, p)
    ensures HistoryOk(TrackAll(cs, cooldown), p, cooldown)
  {
    if cs != [] {
      var n := |cs| - 1;
      HistoryHolds(cs[..n], p, cooldown);
      var t := TrackAll(cs[..n], cooldown);
      assert cs[n].definition.policy == p;
      if Judge(Seen(t.state, cs[n]), cs[n]).Restart? {
        AttemptKeepsOk(t, cs[n], cooldown);
      } else {
        SuppressionKeepsOk(t, cs[n], cooldown);
      }
    }
  }

  // The restart budget

  function CountIn(ts: seq<Time>, from: Time, to: Time): (n: nat)
    ensures n <= |ts|
  {
    if ts == [] then 0
    else CountIn(ts[..|ts| - 1], from, to) + if from <= ts[|ts| - 1] <= to then 1 else 0
  }

  lemma {:induction false} CountSplit(ts: seq<Time>, k: nat, from: Time, to: Time)
    requires k <= |ts| && forall i :: 0 <= i < k ==> ts[i] < from
    ensures CountIn(ts, from, to) <= |ts| - k
  {
    if ts != [] {
      var n := |ts| - 1;
      CountSplit(ts[..n], if k > n then n else k, from, to);
    }
  }

  lemma {:induction false} SparseCount(ts: seq<Time>, gap: Time, max: nat, window: Time, from: Time)
    requires Spaced(ts, gap) && gap >= 0 && Sparse(ts, max, window)
    ensures CountIn(ts, from, from + window) <= max
  {
    if ts != [] {
      var n := |ts| - 1;
      if from <= ts[n] <= from + window && n >= max {
        assert ts[n - max] + window < ts[n - max + max];
        forall i | 0 <= i < n - max + 1
          ensures ts[i] < from
        {
          SpacedSorts(ts, gap, i, n - max);
        }
        CountSplit(ts, n - max + 1, from, from + window);
      } else {
        SparseCount(ts[..n], gap, max, window, from);
      }
    }
  }

  /** For any sequence of clock readings: attempts never go back in time and keep the longer
      of backoff and start-up grace between them, and no closed interval as long as the
      window holds more than the allowed number of attempts. */
  lemma RestartBudget(cs: seq<Call>, p: RecoveryPolicy, cooldown: nat, from: Time)
    requires SamePolicy(cs, p)
    ensures var ever := TrackAll(cs, cooldown).ever;
      && Spaced(ever, Gap(p))
      && CountIn(ever, from, from + Milliseconds(p.windowSeconds)) <= p.maxRestarts
  {
    HistoryHolds(cs, p, cooldown);
    KeepsBudget(TrackAll(cs, cooldown), p, cooldown, from);
  }

  lemma KeepsBudget(t: Tracked, p: RecoveryPolicy, cooldown: nat, from: Time)
    requires HistoryOk(t, p, cooldown)
    ensures Spaced(t.ever, Gap(p)) && CountIn(t.ever, from, from + Milliseconds(p.windowSeconds)) <= p.maxRestarts
  {
    SparseCount(t.ever, Gap(p), p.maxRestarts, Milliseconds(p.windowSeconds), from);
  }

  /** The manager acts only on an enabled policy and a trigger, for a service that is wanted
      running. */
  lemma ActsOnTrigger(s: RecoveryState, c: Call, cooldown: nat)
    requires !StepOf(s, c, cooldown).operation.NoOperation?
    ensures c.definition.policy.enabled && !c.current.desired.WantStopped?
    ensures TriggerOf(c.definition, c.health, c.alerts).Some?
    ensures StepOf(s, c, cooldown).operation.RestartService? <==> c.current.Running()
  {
  }

  lemma TriggerIs(d: ServiceDefinition, health: HealthStatus, alerts: seq<AlertEvent>)
    requires TriggerOf(d, health, alerts).Some?
    ensures (d.policy.restartOnUnhealthy && health.state.Unhealthy?) ||
            (d.policy.restartOnCriticalAlert && FirstCritical(alerts, d.id).Some?)
  {
  }

  /** Announced suppressions keep the cool-down between them, again by any clock. */
  lemma SuppressionsSpaced(cs: seq<Call>, p: RecoveryPolicy, cooldown: nat)
    requires SamePolicy(cs, p)
    ensures Spaced(TrackAll(cs, cooldown).silenced, Milliseconds(cooldown))
  {
    HistoryHolds(cs, p, cooldown);
  }

  /** The counts in the events are exact: of all attempts ever made, those within the window
      before the attempt, and one more after it; at the limit, the limit itself. */
  lemma CountsAreExact(cs: seq<Call>, p: RecoveryPolicy, cooldown: nat, c: Call, e: RecoveryEvent)
    requires SamePolicy(cs, p) && c.definition.policy == p
    requires var s := TrackAll(cs, cooldown).state;
      e in StepOf(s, c, cooldown).events && (e.kind.RestartSuppressed? ==> Judge(Seen(s, c), c).OverLimit?)
    ensures var recent := Recent(TrackAll(cs, cooldown).ever, Milliseconds(p.windowSeconds), c.now);
      match e.kind
      case RestartStarted => e.restartCount == |recent| < p.maxRestarts
      case RestartSuppressed => e.restartCount == |recent| == p.maxRestarts
      case _ => e.restartCount == |recent| + 1 <= p.maxRestarts
  {
    HistoryHolds(cs, p, cooldown);
    CountIsExact(TrackAll(cs, cooldown), c, cooldown, e);
  }

  lemma CountIsExact(t: Tracked, c: Call, cooldown: nat, e: RecoveryEvent)
    requires HistoryOk(t, c.definition.policy, cooldown)
    requires e in StepOf(t.state, c, cooldown).events
    requires e.kind.RestartSuppressed? ==> Judge(Seen(t.state, c), c).OverLimit?
    ensures var n := |Recent(t.ever, Milliseconds(c.definition.policy.windowSeconds), c.now)|;
            var max := c.definition.policy.maxRestarts;
      match e.kind
      case RestartStarted => e.restartCount == n < max
      case RestartSuppressed => e.restartCount == n == max
      case _ => e.restartCount == n + 1 <= max
  {
    if Judge(Seen(t.state, c), c).Restart? {
      QueueIsExact(t, c.definition.policy, cooldown, c.now);
      AttemptCounts(t.state, c, cooldown, e);
    } else {
      QueueIsExact(t, c.definition.policy, cooldown, c.now);
      NothingPruned(t.state, c, t.ever);
    }
  }

  lemma AttemptCounts(s: RecoveryState, c: Call, cooldown: nat, e: RecoveryEvent)
    requires Judge(Seen(s, c), c).Restart? && e in StepOf(s, c, cooldown).events
    ensures var n := |Prune(s.restartAttempts, Milliseconds(c.definition.policy.windowSeconds), c.now)|;
      && n < c.definition.policy.maxRestarts
      && !e.kind.RestartSuppressed?
      && e.restartCount == if e.kind.RestartStarted? then n else n + 1
  {
  }

  /** The oldest queued attempt lies within the window, and the newest that has left the
      queue does not. */
  predicate QueueCurrent(s: RecoveryState, ever: seq<Time>, window: Time, now: Time)
    requires |s.restartAttempts| <= |ever|
  {
    var k := |ever| - |s.restartAttempts|;
    && (s.restartAttempts == [] || s.restartAttempts[0] + window >= now)
    && (k == 0 || ever[k - 1] + window < now)
  }

  lemma RecentCut(ever: seq<Time>, window: Time, now: Time) returns (k: nat)
    requires forall i, j :: 0 <= i <= j < |ever| ==> ever[i] <= ever[j]
    ensures k <= |ever| && Recent(ever, window, now) == ever[k..]
    ensures forall i :: 0 <= i < |ever| ==> (i < k <==> ever[i] + window < now)
  {
    PruneOfSorted(ever, window, now);
    k := |ever| - |Prune(ever, window, now)|;
    RecentIsTail(ever, window, now, k);
  }

  lemma QueueCountIff(s: RecoveryState, ever: seq<Time>, p: RecoveryPolicy, now: Time)
    requires BudgetOk(s, ever, p)
    ensures var w := Milliseconds(p.windowSeconds);
      |s.restartAttempts| == |Recent(ever, w, now)| <==> QueueCurrent(s, ever, w, now)
  {
    forall i, j | 0 <= i <= j < |ever|
      ensures ever[i] <= ever[j]
    {
      SpacedSorts(ever, Gap(p), i, j);
    }
    var k := RecentCut(ever, Milliseconds(p.windowSeconds), now);
  }

  /** What every suppression announces: the length of the queue. It is the number of attempts
      within the window if and only if the queue is current; while the clock is not behind
      the last attempt, that is: if and only if no queued attempt is older than the window. */
  lemma SuppressedCountIff(cs: seq<Call>, p: RecoveryPolicy, cooldown: nat, c: Call, e: RecoveryEvent)
    requires SamePolicy(cs, p) && c.definition.policy == p && e.kind.RestartSuppressed?
    requires e in StepOf(TrackAll(cs, cooldown).state, c, cooldown).events
    ensures var t := TrackAll(cs, cooldown);
            var q := t.state.restartAttempts;
            var w := Milliseconds(p.windowSeconds);
      && |q| <= |t.ever| && e.restartCount == |q|
      && (e.restartCount == |Recent(t.ever, w, c.now)| <==> QueueCurrent(t.state, t.ever, w, c.now))
      && ((t.ever != [] ==> t.ever[|t.ever| - 1] <= c.now) ==>
            (QueueCurrent(t.state, t.ever, w, c.now) <==> forall i :: 0 <= i < |q| ==> q[i] + w >= c.now))
  {
    HistoryHolds(cs, p, cooldown);
    var t := TrackAll(cs, cooldown);
    SuppressedCount(t, c, cooldown, e);
    QueueCountIff(t.state, t.ever, p, c.now);
    if t.ever != [] ==> t.ever[|t.ever| - 1] <= c.now {
      CurrentWhenForward(t.state, t.ever, p, c.now);
    }
  }

  lemma SuppressedCount(t: Tracked, c: Call, cooldown: nat, e: RecoveryEvent)
    requires HistoryOk(t, c.definition.policy, cooldown) && e.kind.RestartSuppressed?
    requires e in StepOf(t.state, c, cooldown).events
    ensures e.restartCount == |t.state.restartAttempts|
  {
    var s := Seen(t.state, c);
    match Judge(s, c)
    case Leave =>
    case Suppress(reason, trigger) => CountOfSuppression(s, c, reason, trigger, cooldown, e);
    case OverLimit(trigger) =>
      NothingPruned(t.state, c, t.ever);
      CountOfSuppression(s, c, LIMIT_REASON, trigger, cooldown, e);
    case Restart(_) => AttemptCounts(t.state, c, cooldown, e);
  }

  lemma CountOfSuppression(
    s: RecoveryState, c: Call, reason: string, trigger: Trigger, cooldown: nat, e: RecoveryEvent)
    requires e in Suppressed(s, c, reason, trigger, cooldown).events
    ensures e.restartCount == |s.restartAttempts|
  {
  }

  lemma CurrentWhenForward(s: RecoveryState, ever: seq<Time>, p: RecoveryPolicy, now: Time)
    requires BudgetOk(s, ever, p) && (ever != [] ==> ever[|ever| - 1] <= now)
    ensures var q := s.restartAttempts;
            var w := Milliseconds(p.windowSeconds);
      QueueCurrent(s, ever, w, now) <==> forall i :: 0 <= i < |q| ==> q[i] + w >= now
  {
    var k := |ever| - |s.restartAttempts|;
    forall i | 0 <= i < |s.restartAttempts|
      ensures s.restartAttempts[0] <= s.restartAttempts[i]
    {
      SpacedSorts(ever, Gap(p), k, k + i);
    }
  }

  // A service must have been healthy once

  lemma {:induction false} SeenIsHistory(cs: seq<Call>, cooldown: nat)
    ensures TrackAll(cs, cooldown).state.hasSeenHealthy <==> SomeHealthy(cs)
  {
    if cs != [] {
      var n := |cs| - 1;
      SeenIsHistory(cs[..n], cooldown);
      SeenGrows(TrackAll(cs[..n], cooldown).state, cs[n], cooldown);
      SomeHealthySplits(cs);
    }
  }

  predicate SomeHealthy(cs: seq<Call>) {
    exists i :: 0 <= i < |cs| && cs[i].health.state.Healthy?
  }

  lemma SomeHealthySplits(cs: seq<Call>)
    requires cs != []
    ensures SomeHealthy(cs) <==> SomeHealthy(cs[..|cs| - 1]) || cs[|cs| - 1].health.state.Healthy?
  {
    assert forall i :: 0 <= i < |cs| - 1 ==> cs[..|cs| - 1][i] == cs[i];
  }

  lemma SeenGrows(s: RecoveryState, c: Call, cooldown: nat)
    ensures StepOf(s, c, cooldown).state.hasSeenHealthy == (s.hasSeenHealthy || c.health.state.Healthy?)
  {
  }

  /** An unhealthy service that is not started automatically is left alone until it has been
      seen healthy. */
  lemma NotBeforeHealthy(cs: seq<Call>, cooldown: nat, c: Call)
    requires c.health.state.Unhealthy? && !c.definition.autoStart
    requires !StepOf(TrackAll(cs, cooldown).state, c, cooldown).operation.NoOperation?
    ensures exists i :: 0 <= i < |cs| && cs[i].health.state.Healthy?
  {
    SeenIsHistory(cs, cooldown);
  }
}

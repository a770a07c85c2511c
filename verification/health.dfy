/**
 The health checker: one failure counter per service, compared with the threshold.
 */
module Health {
  import opened Common
  import opened ControlTypes

  type Failures = map<Id, nat>

  function CounterOf(m: Failures, id: Id): nat {
    if id in m then m[id] else 0
  }

  /** Only a process check, enabled and well formed, looks at the service's state. */
  predicate ChecksProcess(h: HealthCheck) { h.enabled && h.Valid() && h.kind.Process? }

  predicate Failing(h: HealthCheck, status: ServiceStatus) { ChecksProcess(h) && !status.Running() }

  function Threshold(h: HealthCheck): nat { if h.failureThreshold < 1 then 1 else h.failureThreshold }

  /** The counter after one check. */
  function NextCounter(n: nat, h: HealthCheck, status: ServiceStatus): nat {
    if Failing(h, status) then SaturatingIncrement(n) else 0
  }

  /** What is reported for counter `n`, the value after the check. */
  function Report(n: nat, h: HealthCheck, status: ServiceStatus): HealthState {
    if ChecksProcess(h) && status.Running() then Healthy
    else if Failing(h, status) && n >= Threshold(h) then Unhealthy
    else Unknown
  }

  function Reason(n: nat, h: HealthCheck, status: ServiceStatus): (text: string)
    ensures text != ""
  {
    if !h.enabled then "health check is disabled"
    else if !h.Valid() then "health check definition is invalid"
    else if !h.kind.Process? then "health check is not implemented yet"
    else if status.Running() then "process is running"
    else if n < Threshold(h) then "process is not running, waiting for failure threshold"
    else "process is not running"
  }

  /** A counter of zero is not stored. */
  function AfterCheck(m: Failures, d: ServiceDefinition, status: ServiceStatus): (m': Failures)
    ensures CounterOf(m', d.id) == NextCounter(CounterOf(m, d.id), d.healthCheck, status)
    ensures forall k :: k != d.id ==> CounterOf(m', k) == CounterOf(m, k)
    ensures m'.Keys <= m.Keys + {d.id}
  {
    var n := NextCounter(CounterOf(m, d.id), d.healthCheck, status);
    if n == 0 then Erase(m, d.id) else m[d.id := n]
  }

  /** `m` is the counters after the check. */
  function StatusAfter(m: Failures, d: ServiceDefinition, status: ServiceStatus, now: Time): HealthStatus {
    var n := CounterOf(m, d.id);
    HealthStatus(d.id, Report(n, d.healthCheck, status), Reason(n, d.healthCheck, status), n, now)
  }

  /** The check looked at the process and did not find it running. */
  predicate FoundDown(h: HealthCheck, status: ServiceStatus) {
    h.enabled && h.Valid() && h.kind.Process? && !(status.state.Running? && status.pid > 0)
  }

  predicate FoundUp(h: HealthCheck, status: ServiceStatus) {
    h.enabled && h.Valid() && h.kind.Process? && status.state.Running? && status.pid > 0
  }

  /** The verdict of one check and what it makes of the counter. */
  lemma CheckMeans(m: Failures, d: ServiceDefinition, status: ServiceStatus, now: Time)
    ensures var m' := AfterCheck(m, d, status);
            var health := StatusAfter(m', d, status, now);
            var down := FoundDown(d.healthCheck, status);
            var before := CounterOf(m, d.id);
      && health.serviceId == d.id && health.checkedAt == now && health.reason != ""
      && health.consecutiveFailures == CounterOf(m', d.id)
      && (down ==> CounterOf(m', d.id) == if before < 0xFFFF_FFFF then before + 1 else before)
      && (!down ==> CounterOf(m', d.id) == 0)
      && (health.state.Healthy? <==> FoundUp(d.healthCheck, status))
      && (health.state.Unhealthy? <==> down && CounterOf(m', d.id) >= d.healthCheck.failureThreshold)
  {
  }

  class HealthChecker {
    var consecutiveFailures: Failures

    constructor ()
      ensures consecutiveFailures == map[]
    {
      consecutiveFailures := map[];
    }

    method Check(definition: ServiceDefinition, status: ServiceStatus, now: Time) returns (health: HealthStatus)
      modifies this
      ensures consecutiveFailures == AfterCheck(old(consecutiveFailures), definition, status)
      ensures health == StatusAfter(consecutiveFailures, definition, status, now)
      ensures health.state.Healthy? <==> FoundUp(definition.healthCheck, status)
      ensures health.state.Unhealthy? <==>
        FoundDown(definition.healthCheck, status) &&
        CounterOf(consecutiveFailures, definition.id) >= definition.healthCheck.failureThreshold
    {
      CheckMeans(consecutiveFailures, definition, status, now);
      if !definition.healthCheck.enabled {
        consecutiveFailures := Erase(consecutiveFailures, definition.id);
        return HealthStatus(definition.id, Unknown, "health check is disabled", 0, now);
      }
      if !definition.healthCheck.Valid() {
        consecutiveFailures := Erase(consecutiveFailures, definition.id);
        return HealthStatus(definition.id, Unknown, "health check definition is invalid", 0, now);
      }
      match definition.healthCheck.kind
      case Process =>
        health := CheckProcess(definition, status, now);
      case _ =>
        consecutiveFailures := Erase(consecutiveFailures, definition.id);
        return HealthStatus(definition.id, Unknown, "health check is not implemented yet", 0, now);
    }

    method CheckProcess(definition: ServiceDefinition, status: ServiceStatus, now: Time) returns (health: HealthStatus)
      requires ChecksProcess(definition.healthCheck)
      modifies this
      ensures consecutiveFailures == AfterCheck(old(consecutiveFailures), definition, status)
      ensures health == StatusAfter(consecutiveFailures, definition, status, now)
    {
      if status.Running() {
        consecutiveFailures := Erase(consecutiveFailures, definition.id);
        return HealthStatus(definition.id, Healthy, "process is running", 0, now);
      }
      var failureCount := CounterOf(consecutiveFailures, definition.id);
      if failureCount < UINT32_MAX {
        failureCount := failureCount + 1;
      }
      consecutiveFailures := consecutiveFailures[definition.id := failureCount];
      if failureCount < Threshold(definition.healthCheck) {
        return HealthStatus(
            definition.id, Unknown, "process is not running, waiting for failure threshold", failureCount, now);
      }
      return HealthStatus(definition.id, Unhealthy, "process is not running", failureCount, now);
    }

    method ForgetService(id: Id)
      modifies this
      ensures consecutiveFailures == Erase(old(consecutiveFailures), id)
      ensures forall k :: CounterOf(consecutiveFailures, k) ==
                          if k == id then 0 else CounterOf(old(consecutiveFailures), k)
    {
      consecutiveFailures := Erase(consecutiveFailures, id);
    }
  }

  // The whole history of one service

  datatype HealthSample = HealthSample(check: HealthCheck, status: ServiceStatus)

  /** The counter after a sequence of checks. */
  function CounterAfter(h: seq<HealthSample>): nat {
    if h == [] then 0
    else
      var last := h[|h| - 1];
      NextCounter(CounterAfter(h[..|h| - 1]), last.check, last.status)
  }

  /** The length of the unbroken run of failing checks at the end of the history. */
  function FailingRun(h: seq<HealthSample>): (n: nat)
    ensures n <= |h|
    ensures forall i :: |h| - n <= i < |h| ==> Failing(h[i].check, h[i].status)
    ensures n < |h| ==> !Failing(h[|h| - n - 1].check, h[|h| - n - 1].status)
  {
    if h == [] then 0
    else
      var last := h[|h| - 1];
      if Failing(last.check, last.status) then FailingRun(h[..|h| - 1]) + 1 else 0
  }

  function Saturated(n: nat): nat { if n < UINT32_MAX then n else UINT32_MAX }

  lemma {:induction false} CounterIsRun(h: seq<HealthSample>)
    ensures CounterAfter(h) == Saturated(FailingRun(h))
  {
    if h != [] {
      CounterIsRun(h[..|h| - 1]);
    }
  }

  /** A service is reported unhealthy exactly when the last `Threshold` checks were all
      process checks that found it not running. */
  lemma UnhealthyIff(h: seq<HealthSample>)
    requires h != []
    ensures var last := h[|h| - 1];
            var t := Threshold(last.check);
      Report(CounterAfter(h), last.check, last.status).Unhealthy? <==>
      t <= |h| && forall i :: |h| - t <= i < |h| ==> Failing(h[i].check, h[i].status)
  {
    CounterIsRun(h);
    var last := h[|h| - 1];
    var t := Threshold(last.check);
    if Failing(last.check, last.status) {
      assert last.check.Valid();
      assert t <= 100;
      if t <= |h| && FailingRun(h) < t {
        assert !Failing(h[|h| - FailingRun(h) - 1].check, h[|h| - FailingRun(h) - 1].status);
      }
    } else {
      assert h[|h| - 1] == last;
    }
  }

  /** Over the whole history, spelled out: a service is reported unhealthy exactly if as many
      checks as its definition asks for, up to and including the last, all looked at the
      process and did not find it running; it is reported healthy exactly if the last one
      found it running. */
  lemma VerdictOfHistory(h: seq<HealthSample>)
    requires h != []
    ensures var last := h[|h| - 1];
            var t := last.check.failureThreshold;
            var state := Report(CounterAfter(h), last.check, last.status);
      && (state.Unhealthy? <==>
            && FoundDown(last.check, last.status) && t <= |h|
            && forall i :: |h| - t <= i < |h| ==> FoundDown(h[i].check, h[i].status))
      && (state.Healthy? <==> FoundUp(last.check, last.status))
  {
    UnhealthyIff(h);
    assert forall i :: 0 <= i < |h| ==> (Failing(h[i].check, h[i].status) <==> FoundDown(h[i].check, h[i].status));
  }
}

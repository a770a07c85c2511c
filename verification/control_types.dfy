/**
 The values that the health, alert and recovery components exchange. Times are
 milliseconds since the epoch, as integers; measured values are reals, with one extra value
 for those that are not finite. Texts are kept only as far as they can be empty.
 */
module ControlTypes {
  import opened Common
  import ProcessModel

  type Id = string
  type Time = int

  const MILLISECONDS_PER_SECOND := 1000

  datatype HealthState = Healthy | Unhealthy | Unknown

  datatype HealthCheckType = Process | Http | Tcp | Command

  datatype HealthCheck = HealthCheck(
    enabled: bool,
    kind: HealthCheckType,
    intervalSeconds: nat,
    timeoutMilliseconds: nat,
    failureThreshold: nat,
    endpoint: string,
    host: string,
    port: nat,
    command: string)
  {
    predicate Valid() {
      !enabled || (
        && 1 <= intervalSeconds <= 3600 && 1 <= timeoutMilliseconds <= 60000 && 1 <= failureThreshold <= 100
        && (kind.Http? ==> endpoint != "")
        && (kind.Tcp? ==> host != "" && port > 0)
        && (kind.Command? ==> command != ""))
    }
  }

  datatype HealthStatus = HealthStatus(
    serviceId: Id, state: HealthState, reason: string, consecutiveFailures: nat, checkedAt: Time)

  datatype ServiceStatus = ServiceStatus(state: ProcessModel.ServiceState, desired: ProcessModel.DesiredState, pid: int)
  {
    predicate Running() { state.Running? && pid > 0 }
  }

  datatype Number = Finite(value: real) | NotFinite

  datatype ServiceMetrics = ServiceMetrics(
    available: bool, cpuPercent: Option<Number>, rssBytes: Option<nat>, threadCount: Option<nat>, fdCount: Option<nat>)

  datatype Metric = CpuPercent | RssBytes | ThreadCount | FdCount | HealthMetric

  datatype Operator = GreaterThan | GreaterThanOrEqual | LessThan | LessThanOrEqual | Equal | NotEqual

  datatype Severity = Info | Warning | Critical

  datatype AlertRule = AlertRule(
    id: Id,
    serviceId: Id,
    metric: Metric,
    op: Operator,
    numericThreshold: Option<Number>,
    healthThreshold: Option<HealthState>,
    durationSeconds: nat,
    severity: Severity,
    enabled: bool)
  {
    predicate Valid() {
      && ValidRuleId(id) && ValidServiceId(serviceId) && durationSeconds <= 86400
      && if metric.HealthMetric? then healthThreshold.Some? && numericThreshold.None? && (op.Equal? || op.NotEqual?)
         else
           && numericThreshold.Some? && healthThreshold.None? && numericThreshold.value.Finite?
           && numericThreshold.value.value >= 0.0
           && (metric.CpuPercent? ==> numericThreshold.value.value <= 100.0)
    }
  }

  datatype RecoveryPolicy = RecoveryPolicy(
    enabled: bool,
    restartOnUnhealthy: bool,
    restartOnCriticalAlert: bool,
    maxRestarts: nat,
    windowSeconds: nat,
    backoffSeconds: nat,
    startupGraceSeconds: nat)
  {
    predicate Valid() {
      !enabled || (
        && (restartOnUnhealthy || restartOnCriticalAlert)
        && 1 <= maxRestarts <= 100 && 1 <= windowSeconds <= 86400
        && backoffSeconds <= 3600 && startupGraceSeconds <= 3600)
    }
  }

  datatype ServiceDefinition = ServiceDefinition(
    id: Id, autoStart: bool, healthCheck: HealthCheck, alertRules: seq<AlertRule>, policy: RecoveryPolicy)
  {
    ghost predicate Valid() {
      && ValidServiceId(id) && healthCheck.Valid() && policy.Valid()
      && (forall i :: 0 <= i < |alertRules| ==> alertRules[i].Valid() && alertRules[i].serviceId == id)
      && (forall i, j :: 0 <= i < j < |alertRules| ==> alertRules[i].id != alertRules[j].id)
    }
  }

  // Identifiers

  predicate IdChar(c: char) {
    'a' <= c <= 'z' || 'A' <= c <= 'Z' || '0' <= c <= '9' || c == '_' || c == '-'
  }

  predicate ValidServiceId(id: string) {
    0 < |id| <= 64 && forall i :: 0 <= i < |id| ==> IdChar(id[i])
  }

  predicate ValidRuleId(id: string) {
    0 < |id| <= 64 && forall i :: 0 <= i < |id| ==> IdChar(id[i]) || id[i] == '.'
  }

  predicate ValidEventId(id: string) {
    0 < |id| <= 160 && forall i :: 0 <= i < |id| ==> IdChar(id[i]) || id[i] == '.' || id[i] == ':'
  }

  /** The key of a rule's run-time state and the id of its alert. */
  function MakeKey(serviceId: Id, ruleId: Id): Id {
    serviceId + ":" + ruleId
  }

  /** No valid part contains the separator, so a key determines both of its parts. */
  lemma KeyInjective(s: Id, r: Id, s': Id, r': Id)
    requires ValidServiceId(s) && ValidServiceId(s')
    requires MakeKey(s, r) == MakeKey(s', r')
    ensures s == s' && r == r'
  {
    var k, k' := MakeKey(s, r), MakeKey(s', r');
    assert k[|s|] == ':' && k'[|s'|] == ':';
    assert forall i :: 0 <= i < |s| ==> k[i] == s[i];
    assert forall i :: 0 <= i < |s'| ==> k'[i] == s'[i];
    assert |s| == |s'|;
    assert s == k[..|s|] == k'[..|s'|] == s';
    assert r == k[|s| + 1..] == k'[|s'| + 1..] == r';
  }

  /** The length check on alert ids never rejects a key made of valid parts. */
  lemma KeyIsValidEventId(s: Id, r: Id)
    requires ValidServiceId(s) && ValidRuleId(r)
    ensures ValidEventId(MakeKey(s, r))
  {
  }

  /** A key starts with `t:` exactly when it belongs to service `t`, whatever `t` is. */
  lemma PrefixIsService(s: Id, r: Id, t: Id)
    requires ValidServiceId(s) && ValidRuleId(r)
    ensures t + ":" <= MakeKey(s, r) <==> t == s
  {
    var k := MakeKey(s, r);
    OneSeparator(s, r);
    if t + ":" <= k {
      assert (t + ":")[|t|] == ':' && k[|t|] == ':';
      assert t == (t + ":")[..|t|] == k[..|t|] == s;
    }
    if t == s {
      assert k[..|s| + 1] == s + ":";
    }
  }

  lemma OneSeparator(s: Id, r: Id)
    requires ValidServiceId(s) && ValidRuleId(r)
    ensures forall i :: 0 <= i < |MakeKey(s, r)| ==> (MakeKey(s, r)[i] == ':' <==> i == |s|)
  {
  }
}

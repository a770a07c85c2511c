/**
 The alert evaluator: for every rule it remembers only when the current run of met
 conditions began.
 */
module Alerts {
  import opened Common
  import opened ControlTypes

  /** Why there is no verdict, or whether the condition holds. */
  datatype Condition = Unavailable(message: string) | Condition(met: bool)

  datatype Evaluation = Evaluation(
    serviceId: Id,
    ruleId: Id,
    severity: Severity,
    conditionMet: bool,
    firing: bool,
    evaluatedAt: Time,
    conditionStarted: Option<Time>,
    message: string)
  {
    predicate Valid() {
      && ValidServiceId(serviceId) && ValidRuleId(ruleId) && evaluatedAt >= 0
      && (conditionStarted.Some? ==> conditionStarted.value >= 0)
      && (firing ==> conditionMet) && message != ""
    }
  }

  // One condition

  function AsNumber(n: Option<nat>): Option<Number> {
    match n
    case None => None
    case Some(v) => Some(Finite(v as real))
  }

  function NumericValue(rule: AlertRule, metrics: Option<ServiceMetrics>): Option<Number> {
    if metrics.None? || !metrics.value.available then None
    else
      match rule.metric
      case CpuPercent => metrics.value.cpuPercent
      case RssBytes => AsNumber(metrics.value.rssBytes)
      case ThreadCount => AsNumber(metrics.value.threadCount)
      case FdCount => AsNumber(metrics.value.fdCount)
      case HealthMetric => None
  }

  function CompareNumber(observed: real, op: Operator, threshold: real): bool {
    match op
    case GreaterThan => observed > threshold
    case GreaterThanOrEqual => observed >= threshold
    case LessThan => observed < threshold
    case LessThanOrEqual => observed <= threshold
    case Equal => observed == threshold
    case NotEqual => observed != threshold
  }

  function CompareHealth(observed: HealthState, op: Operator, threshold: HealthState): bool {
    match op
    case Equal => observed == threshold
    case NotEqual => observed != threshold
    case _ => false
  }

  /** Evaluated for structurally valid rules only, whose numeric threshold is finite. */
  function EvaluateNumeric(rule: AlertRule, observed: Option<Number>): Condition {
    match rule.numericThreshold
    case None => Unavailable("numeric alert rule is missing threshold")
    case Some(NotFinite) => Unavailable("threshold is not finite")
    case Some(Finite(threshold)) =>
      match observed
      case None => Unavailable("metric value is unavailable")
      case Some(NotFinite) => Unavailable("metric value is not finite")
      case Some(Finite(value)) => Condition(CompareNumber(value, rule.op, threshold))
  }

  function EvaluateHealth(rule: AlertRule, observed: HealthState): Condition {
    match rule.healthThreshold
    case None => Unavailable("health_state alert rule is missing threshold")
    case Some(threshold) => Condition(CompareHealth(observed, rule.op, threshold))
  }

  function EvaluateCondition(rule: AlertRule, metrics: Option<ServiceMetrics>, health: HealthState): (c: Condition)
    ensures c.Unavailable? ==> c.message != ""
  {
    if rule.metric.HealthMetric? then EvaluateHealth(rule, health)
    else EvaluateNumeric(rule, NumericValue(rule, metrics))
  }

  // What the verdict means

  /** `v` is the reading that the rule is about. */
  predicate Reads(rule: AlertRule, metrics: Option<ServiceMetrics>, v: real) {
    metrics.Some? && metrics.value.available &&
    match rule.metric
    case CpuPercent => metrics.value.cpuPercent == Some(Finite(v))
    case RssBytes => metrics.value.rssBytes.Some? && v == metrics.value.rssBytes.value as real
    case ThreadCount => metrics.value.threadCount.Some? && v == metrics.value.threadCount.value as real
    case FdCount => metrics.value.fdCount.Some? && v == metrics.value.fdCount.value as real
    case HealthMetric => false
  }

  /** Which operators are met above, at and below the threshold. */
  predicate ByOrder(met: bool, op: Operator, v: real, threshold: real) {
    && (v > threshold ==> (met <==> op in {GreaterThan, GreaterThanOrEqual, NotEqual}))
    && (v == threshold ==> (met <==> op in {GreaterThanOrEqual, LessThanOrEqual, Operator.Equal}))
    && (v < threshold ==> (met <==> op in {LessThan, LessThanOrEqual, NotEqual}))
  }

  predicate Met(rule: AlertRule, metrics: Option<ServiceMetrics>, health: HealthState) {
    EvaluateCondition(rule, metrics, health) == Condition(true)
  }

  /** The verdict on a numeric rule depends on its own reading only, and on where that lies
      relative to the threshold. Without a reading there is no verdict. */
  lemma NumericVerdict(rule: AlertRule, metrics: Option<ServiceMetrics>, health: HealthState)
    requires rule.Valid() && !rule.metric.HealthMetric?
    ensures forall v :: Reads(rule, metrics, v) ==>
      && EvaluateCondition(rule, metrics, health).Condition?
      && ByOrder(Met(rule, metrics, health), rule.op, v, rule.numericThreshold.value.value)
    ensures (forall v :: !Reads(rule, metrics, v)) ==> EvaluateCondition(rule, metrics, health).Unavailable?
  {
    var n := NumericValue(rule, metrics);
    assert forall v :: Reads(rule, metrics, v) <==> n == Some(Finite(v));
    if n.Some? && n.value.Finite? {
      assert Reads(rule, metrics, n.value.value);
    }
  }

  /** The verdict on a health rule is whether the health is, or is not, the one it names. */
  lemma HealthVerdict(rule: AlertRule, metrics: Option<ServiceMetrics>, health: HealthState)
    requires rule.Valid() && rule.metric.HealthMetric?
    ensures EvaluateCondition(rule, metrics, health).Condition?
    ensures Met(rule, metrics, health) <==> (rule.op.Equal? <==> Some(health) == rule.healthThreshold)
  {
  }

  function Opposite(op: Operator): Operator {
    match op
    case GreaterThan => LessThanOrEqual
    case GreaterThanOrEqual => LessThan
    case LessThan => GreaterThanOrEqual
    case LessThanOrEqual => GreaterThan
    case Equal => NotEqual
    case NotEqual => Operator.Equal
  }

  /** Of two rules with opposite operators exactly one is met, whenever there is a verdict. */
  lemma OppositesDisagree(rule: AlertRule, metrics: Option<ServiceMetrics>, health: HealthState)
    requires rule.Valid() && EvaluateCondition(rule, metrics, health).Condition?
    ensures Met(rule.(op := Opposite(rule.op)), metrics, health) <==> !Met(rule, metrics, health)
  {
    var other := rule.(op := Opposite(rule.op));
    if !rule.metric.HealthMetric? {
      assert other.Valid();
      NumericVerdict(rule, metrics, health);
      NumericVerdict(other, metrics, health);
      var v :| Reads(rule, metrics, v);
      assert Reads(other, metrics, v);
    }
  }

  /** A rule that asks for more stays met when its reading rises, and one that asks for less
      when it falls. */
  lemma MoreStaysMet(
    rule: AlertRule, before: Option<ServiceMetrics>, after: Option<ServiceMetrics>, health: HealthState,
    v: real, w: real)
    requires rule.Valid() && Reads(rule, before, v) && Reads(rule, after, w) && v <= w
    ensures rule.op in {GreaterThan, GreaterThanOrEqual} && Met(rule, before, health) ==> Met(rule, after, health)
    ensures rule.op in {LessThan, LessThanOrEqual} && Met(rule, after, health) ==> Met(rule, before, health)
  {
    NumericVerdict(rule, before, health);
    NumericVerdict(rule, after, health);
  }

  /** What an evaluation says about a rule. */
  ghost predicate Judged(
    e: Evaluation, rule: AlertRule, metrics: Option<ServiceMetrics>, health: HealthState, now: Time)
  {
    && e.serviceId == rule.serviceId && e.ruleId == rule.id && e.severity == rule.severity && e.evaluatedAt == now
    && (e.conditionMet ==> rule.enabled && rule.Valid() && now >= 0)
    && (e.conditionMet <==> e.conditionStarted.Some?)
    && (e.firing <==> e.conditionMet && now - e.conditionStarted.value >= 1000 * rule.durationSeconds)
    && (rule.enabled && rule.Valid() && now >= 0 ==>
          if rule.metric.HealthMetric? then
            e.conditionMet <==> (rule.op.Equal? <==> Some(health) == rule.healthThreshold)
          else
            && (forall v :: Reads(rule, metrics, v) ==>
                  ByOrder(e.conditionMet, rule.op, v, rule.numericThreshold.value.value))
            && ((forall v :: !Reads(rule, metrics, v)) ==> !e.conditionMet))
  }

  /** Every evaluation in the model says that, whatever was remembered before. */
  lemma EvaluatedIsJudged(start: Option<Time>, x: Sample)
    ensures Judged(Evaluated(NextStart(start, x), x), x.rule, x.metrics, x.health, x.now)
  {
    if x.rule.Valid() {
      if x.rule.metric.HealthMetric? {
        HealthVerdict(x.rule, x.metrics, x.health);
      } else {
        NumericVerdict(x.rule, x.metrics, x.health);
      }
    }
  }

  // One evaluation

  /** Everything an evaluation of a rule depends on, apart from its run-time state. */
  datatype Sample = Sample(rule: AlertRule, metrics: Option<ServiceMetrics>, health: HealthState, now: Time)

  /** The rule is enabled and well formed, its value available and its condition met. */
  predicate Holds(x: Sample) {
    x.rule.enabled && x.rule.Valid() && x.now >= 0 && EvaluateCondition(x.rule, x.metrics, x.health) == Condition(true)
  }

  function Duration(rule: AlertRule): Time { rule.durationSeconds * MILLISECONDS_PER_SECOND }

  function NextStart(start: Option<Time>, x: Sample): Option<Time> {
    if !Holds(x) then None
    else if start.None? || start.value > x.now then Some(x.now)
    else start
  }

  predicate Fires(start: Option<Time>, x: Sample) {
    start.Some? && x.now - start.value >= Duration(x.rule)
  }

  function Message(start: Option<Time>, x: Sample): (text: string)
    ensures text != ""
  {
    if !x.rule.enabled then "alert rule is disabled"
    else if !x.rule.Valid() then "alert rule is structurally invalid"
    else if x.now < 0 then "evaluation time is invalid"
    else
      match EvaluateCondition(x.rule, x.metrics, x.health)
      case Unavailable(message) => message
      case Condition(met) =>
        if !met then "condition not met"
        else if Fires(start, x) then "firing"
        else "condition met but duration not reached"
  }

  /** `start` is the state after the evaluation. */
  function Evaluated(start: Option<Time>, x: Sample): Evaluation {
    Evaluation(x.rule.serviceId, x.rule.id, x.rule.severity, Holds(x), Fires(start, x), x.now, start, Message(start, x))
  }

  // All rules of a service

  type Starts = map<Id, Time>

  function StartOf(m: Starts, key: Id): Option<Time> {
    if key in m then Some(m[key]) else None
  }

  function WithStart(m: Starts, key: Id, start: Option<Time>): Starts {
    match start
    case None => Erase(m, key)
    case Some(t) => m[key := t]
  }

  function KeyOf(rule: AlertRule): Id { MakeKey(rule.serviceId, rule.id) }

  function AfterRule(m: Starts, x: Sample): (m': Starts)
    ensures StartOf(m', KeyOf(x.rule)) == NextStart(StartOf(m, KeyOf(x.rule)), x)
    ensures forall k :: k != KeyOf(x.rule) ==> StartOf(m', k) == StartOf(m, k)
  {
    WithStart(m, KeyOf(x.rule), NextStart(StartOf(m, KeyOf(x.rule)), x))
  }

  function AfterRules(m: Starts, xs: seq<Sample>): Starts {
    if xs == [] then m else AfterRule(AfterRules(m, xs[..|xs| - 1]), xs[|xs| - 1])
  }

  function Evaluations(m: Starts, xs: seq<Sample>): (es: seq<Evaluation>)
    ensures |es| == |xs|
  {
    if xs == [] then []
    else
      var x := xs[|xs| - 1];
      Evaluations(m, xs[..|xs| - 1]) + [Evaluated(StartOf(AfterRules(m, xs), KeyOf(x.rule)), x)]
  }

  function Samples(
    rules: seq<AlertRule>, metrics: Option<ServiceMetrics>, health: HealthState, now: Time): (xs: seq<Sample>)
    ensures |xs| == |rules|
    ensures forall i :: 0 <= i < |rules| ==> xs[i] == Sample(rules[i], metrics, health, now)
  {
    seq(|rules|, i requires 0 <= i < |rules| => Sample(rules[i], metrics, health, now))
  }

  lemma {:induction false} EvaluationsAreJudged(m: Starts, xs: seq<Sample>)
    ensures forall i :: 0 <= i < |xs| ==>
      Judged(Evaluations(m, xs)[i], xs[i].rule, xs[i].metrics, xs[i].health, xs[i].now)
  {
    if xs != [] {
      var n := |xs| - 1;
      EvaluationsAreJudged(m, xs[..n]);
      EvaluatedIsJudged(StartOf(AfterRules(m, xs[..n]), KeyOf(xs[n].rule)), xs[n]);
    }
  }

  /** The states left when those whose key starts with the service's prefix are gone. */
  function Forgotten(m: Starts, id: Id): Starts {
    map k | k in m && !(id + ":" <= k) :: m[k]
  }

  class AlertEvaluator {
    var ruleStates: Starts

    constructor ()
      ensures ruleStates == map[]
    {
      ruleStates := map[];
    }

    method EvaluateRule(rule: AlertRule, metrics: Option<ServiceMetrics>, health: HealthState, now: Time)
      returns (e: Evaluation)
      modifies this
      ensures var x := Sample(rule, metrics, health, now);
        && ruleStates == AfterRule(old(ruleStates), x)
        && e == Evaluated(StartOf(ruleStates, KeyOf(rule)), x)
      ensures Judged(e, rule, metrics, health, now)
    {
      EvaluatedIsJudged(StartOf(ruleStates, KeyOf(rule)), Sample(rule, metrics, health, now));
      e := JudgeRule(rule, metrics, health, now);
    }

    method JudgeRule(rule: AlertRule, metrics: Option<ServiceMetrics>, health: HealthState, now: Time)
      returns (e: Evaluation)
      modifies this
      ensures var x := Sample(rule, metrics, health, now);
        && ruleStates == AfterRule(old(ruleStates), x)
        && e == Evaluated(StartOf(ruleStates, KeyOf(rule)), x)
    {
      e := Evaluation(rule.serviceId, rule.id, rule.severity, false, false, now, None, "");
      var key := KeyOf(rule);
      if !rule.enabled {
        ruleStates := Erase(ruleStates, key);
        return e.(message := "alert rule is disabled");
      }
      if !rule.Valid() {
        ruleStates := Erase(ruleStates, key);
        return e.(message := "alert rule is structurally invalid");
      }
      if now < 0 {
        ruleStates := Erase(ruleStates, key);
        return e.(message := "evaluation time is invalid");
      }
      var condition := EvaluateCondition(rule, metrics, health);
      if condition.Unavailable? {
        ruleStates := Erase(ruleStates, key);
        return e.(message := condition.message);
      }
      e := e.(conditionMet := condition.met);
      if !condition.met {
        ruleStates := Erase(ruleStates, key);
        return e.(message := "condition not met");
      }
      var start := KeepStart(key, now);
      e := e.(conditionStarted := Some(start), firing := now - start >= Duration(rule));
      e := e.(message := if e.firing then "firing" else "condition met but duration not reached");
    }

    /** When the condition, which is met, began to be. */
    method KeepStart(key: Id, now: Time) returns (start: Time)
      modifies this
      ensures ruleStates == old(ruleStates)[key := start]
      ensures start == if key in old(ruleStates) && old(ruleStates)[key] <= now then old(ruleStates)[key] else now
    {
      if key !in ruleStates || ruleStates[key] > now {
        ruleStates := ruleStates[key := now];
      }
      start := ruleStates[key];
    }

    method Evaluate(definition: ServiceDefinition, metrics: Option<ServiceMetrics>, health: HealthState, now: Time)
      returns (evaluations: seq<Evaluation>)
      modifies this
      ensures var xs := Samples(definition.alertRules, metrics, health, now);
        && ruleStates == AfterRules(old(ruleStates), xs)
        && evaluations == Evaluations(old(ruleStates), xs)
      ensures |evaluations| == |definition.alertRules|
      ensures forall i :: 0 <= i < |evaluations| ==>
        Judged(evaluations[i], definition.alertRules[i], metrics, health, now)
    {
      EvaluationsAreJudged(ruleStates, Samples(definition.alertRules, metrics, health, now));
      evaluations := EvaluateEach(definition.alertRules, metrics, health, now);
    }

    method EvaluateEach(rules: seq<AlertRule>, metrics: Option<ServiceMetrics>, health: HealthState, now: Time)
      returns (evaluations: seq<Evaluation>)
      modifies this
      ensures var xs := Samples(rules, metrics, health, now);
        && ruleStates == AfterRules(old(ruleStates), xs)
        && evaluations == Evaluations(old(ruleStates), xs)
    {
      evaluations := [];
      ghost var xs := Samples(rules, metrics, health, now);
      var i := 0;
      while i < |rules|
        invariant 0 <= i <= |rules|
        invariant ruleStates == AfterRules(old(ruleStates), xs[..i])
        invariant evaluations == Evaluations(old(ruleStates), xs[..i])
      {
        var e := JudgeRule(rules[i], metrics, health, now);
        assert xs[..i + 1][..i] == xs[..i];
        evaluations := evaluations + [e];
        i := i + 1;
      }
      assert xs[..i] == xs;
    }

    method ForgetService(id: Id)
      modifies this
      ensures ruleStates == Forgotten(old(ruleStates), id)
    {
      var prefix := id + ":";
      ruleStates := map k | k in ruleStates && !(prefix <= k) :: ruleStates[k];
    }
  }

  // The whole history of one rule

  /** The run-time state after a history of evaluations of one rule. */
  function StartAfter(h: seq<Sample>): Option<Time> {
    if h == [] then None else NextStart(StartAfter(h[..|h| - 1]), h[|h| - 1])
  }

  /** Every sample from `i` on holds. */
  predicate HoldsFrom(h: seq<Sample>, i: nat) {
    forall j :: i <= j < |h| ==> Holds(h[j])
  }

  lemma HoldsFromFront(h: seq<Sample>, i: nat)
    requires i < |h|
    ensures HoldsFrom(h, i) <==> HoldsFrom(h[..|h| - 1], i) && Holds(h[|h| - 1])
  {
    var n := |h| - 1;
    assert HoldsFrom(h, i) ==> forall j :: i <= j < n ==> Holds(h[j]);
  }

  /** Within a run the state is at most every evaluation time. */
  lemma {:induction false} StartIsBound(h: seq<Sample>, i: nat)
    requires i < |h| && HoldsFrom(h, i)
    ensures StartAfter(h).Some? && StartAfter(h).value <= h[i].now
  {
    var n := |h| - 1;
    HoldsFromFront(h, i);
    if i < n {
      StartIsBound(h[..n], i);
    }
  }

  /** And it is one of them. */
  lemma {:induction false} StartIsInRun(h: seq<Sample>) returns (i: nat)
    requires StartAfter(h).Some?
    ensures i < |h| && HoldsFrom(h, i) && h[i].now == StartAfter(h).value
  {
    var n := |h| - 1;
    i := n;
    if StartAfter(h[..n]).Some? && StartAfter(h[..n]).value <= h[n].now {
      i := StartIsInRun(h[..n]);
    }
    HoldsFromFront(h, i);
  }

  /** An alert fires exactly when its condition has held without a break since some
      evaluation that lies at least its duration back. Nothing is assumed about the clock. */
  lemma FiresIff(h: seq<Sample>)
    requires h != []
    ensures var last := h[|h| - 1];
      Fires(StartAfter(h), last) <==>
      exists i :: 0 <= i < |h| && HoldsFrom(h, i) && last.now - h[i].now >= Duration(last.rule)
  {
    var last := h[|h| - 1];
    if Fires(StartAfter(h), last) {
      var i := StartIsInRun(h);
    }
    if i :| 0 <= i < |h| && HoldsFrom(h, i) && last.now - h[i].now >= Duration(last.rule) {
      StartIsBound(h, i);
    }
  }

  /** The state is the least evaluation time within the current unbroken run of met
      conditions, and there is none outside such a run. */
  lemma StartIsLeastOfRun(h: seq<Sample>, t: Time)
    ensures StartAfter(h) == Some(t) <==>
      && (exists i :: 0 <= i < |h| && HoldsFrom(h, i) && h[i].now == t)
      && (forall i :: 0 <= i < |h| && HoldsFrom(h, i) ==> t <= h[i].now)
  {
    forall i | 0 <= i < |h| && HoldsFrom(h, i)
      ensures StartAfter(h).Some? && StartAfter(h).value <= h[i].now
    {
      StartIsBound(h, i);
    }
    if StartAfter(h).Some? {
      var i := StartIsInRun(h);
    }
  }

  // Forgetting a service

  /** Only well-formed rules leave a state behind. */
  ghost predicate StatesOk(m: Starts) {
    forall k :: k in m ==> exists s, r :: ValidServiceId(s) && ValidRuleId(r) && k == MakeKey(s, r)
  }

  lemma AfterRuleKeepsStates(m: Starts, x: Sample)
    requires StatesOk(m)
    ensures StatesOk(AfterRule(m, x))
  {
    if Holds(x) {
      assert ValidServiceId(x.rule.serviceId) && ValidRuleId(x.rule.id);
    }
  }

  lemma {:induction false} AfterRulesKeepsStates(m: Starts, xs: seq<Sample>)
    requires StatesOk(m)
    ensures StatesOk(AfterRules(m, xs))
  {
    if xs != [] {
      AfterRulesKeepsStates(m, xs[..|xs| - 1]);
      AfterRuleKeepsStates(AfterRules(m, xs[..|xs| - 1]), xs[|xs| - 1]);
    }
  }

  /** Forgetting by prefix removes the states of exactly one service. */
  lemma ForgetsExactlyOneService(m: Starts, id: Id, s: Id, r: Id)
    requires StatesOk(m) && ValidServiceId(s) && ValidRuleId(r)
    ensures StartOf(Forgotten(m, id), MakeKey(s, r)) == if s == id then None else StartOf(m, MakeKey(s, r))
    ensures StatesOk(Forgotten(m, id))
  {
    PrefixIsService(s, r, id);
  }

  /** An evaluation of a well-formed rule by the monitor's clock is never rejected. */
  lemma EvaluationIsValid(start: Option<Time>, x: Sample)
    requires ValidServiceId(x.rule.serviceId) && ValidRuleId(x.rule.id) && x.now >= 0
    requires start.Some? ==> 0 <= start.value && Holds(x)
    ensures Evaluated(start, x).Valid()
  {
  }

  // A batch of distinct rules acts rule by rule

  lemma {:induction false} AfterRulesAt(m: Starts, xs: seq<Sample>, i: nat)
    requires i < |xs|
    requires forall j, k :: 0 <= j < k < |xs| ==> KeyOf(xs[j].rule) != KeyOf(xs[k].rule)
    ensures StartOf(AfterRules(m, xs), KeyOf(xs[i].rule)) == NextStart(StartOf(m, KeyOf(xs[i].rule)), xs[i])
    ensures Evaluations(m, xs)[i] == Evaluated(NextStart(StartOf(m, KeyOf(xs[i].rule)), xs[i]), xs[i])
  {
    var n := |xs| - 1;
    if i < n {
      AfterRulesAt(m, xs[..n], i);
    } else {
      AfterRulesElsewhere(m, xs[..n], KeyOf(xs[n].rule));
    }
  }

  lemma {:induction false} AfterRulesElsewhere(m: Starts, xs: seq<Sample>, key: Id)
    requires forall j :: 0 <= j < |xs| ==> KeyOf(xs[j].rule) != key
    ensures StartOf(AfterRules(m, xs), key) == StartOf(m, key)
  {
    if xs != [] {
      AfterRulesElsewhere(m, xs[..|xs| - 1], key);
    }
  }
}

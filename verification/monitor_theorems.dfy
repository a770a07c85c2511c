/**
 Whole runs of the control loop: what the compressed state says about the history of
 observations, and why a service was restarted. The clock is arbitrary except where said.
 */
module MonitorTheorems {
  import opened Common
  import opened ControlTypes
  import opened Health
  import opened Alerts
  import opened AlertManagement
  import opened AlertDisplay
  import opened MonitorModel
  import Recovery

  // What was observed of one service

  /** One round's observation of a supervised service. */
  datatype Observation = Observation(now: Time, v: Service)

  ghost function IndexOf(vs: seq<Service>, id: Id): (i: nat)
    ensures i <= |vs|
    ensures i < |vs| ==> vs[i].Id() == id
    ensures i == |vs| ==> id !in SeenIds(vs)
  {
    if id in SeenIds(vs) then
      var i :| 0 <= i < |vs| && vs[i].Id() == id;
      i
    else |vs|
  }

  /** A round adds an observation, or none if the supervisor was not found, or ends the
      history if the service is not listed. */
  ghost function Extend(h: seq<Observation>, r: Round, id: Id): seq<Observation> {
    var i := IndexOf(r.services, id);
    if i == |r.services| then []
    else if !r.services[i].supervised then h
    else h + [Observation(r.Now(), r.services[i])]
  }

  /** The observations of a service since it was last missing from the list. */
  ghost function History(rs: seq<Round>, id: Id): seq<Observation> {
    if rs == [] then [] else Extend(History(rs[..|rs| - 1], id), rs[|rs| - 1], id)
  }

  function HealthSamples(h: seq<Observation>): (xs: seq<HealthSample>)
    ensures |xs| == |h|
    ensures forall i :: 0 <= i < |h| ==> xs[i] == HealthSample(h[i].v.definition.healthCheck, h[i].v.status)
  {
    seq(|h|, i requires 0 <= i < |h| => HealthSample(h[i].v.definition.healthCheck, h[i].v.status))
  }

  /** The health reported with the last observation. */
  function HealthAfter(h: seq<Observation>): HealthState
    requires h != []
  {
    var last := h[|h| - 1].v;
    Health.Report(CounterAfter(HealthSamples(h)), last.definition.healthCheck, last.status)
  }

  function RuleSamples(h: seq<Observation>, rule: AlertRule): (xs: seq<Sample>)
    ensures |xs| == |h|
  {
    if h == [] then []
    else
      var last := h[|h| - 1];
      RuleSamples(h[..|h| - 1], rule) + [Sample(rule, last.v.metrics, HealthAfter(h), last.now)]
  }

  // Runs

  type Definitions = map<Id, ServiceDefinition>

  /** Services are listed once, with the well-formed definition they were registered with. */
  ghost predicate RoundOk(r: Round, defs: Definitions) {
    && ListedOnce(r.services)
    && forall i :: 0 <= i < |r.services| ==>
         var d := r.services[i].definition; d.id in defs && defs[d.id] == d && d.Valid()
  }

  // What the state says about a history

  predicate CounterMatches(f: Failures, id: Id, h: seq<Observation>) {
    CounterOf(f, id) == CounterAfter(HealthSamples(h))
  }

  ghost predicate StartsMatch(m: Starts, d: ServiceDefinition, h: seq<Observation>) {
    forall i :: 0 <= i < |d.alertRules| ==>
      StartOf(m, KeyOf(d.alertRules[i])) == StartAfter(RuleSamples(h, d.alertRules[i]))
  }

  /** The rule fires at the last observation. */
  predicate Firing(h: seq<Observation>, rule: AlertRule) {
    h != [] && Fires(StartAfter(RuleSamples(h, rule)), RuleSamples(h, rule)[|h| - 1])
  }

  /** Every active alert of the service belongs to a rule that fired when it was last
      evaluated. */
  ghost predicate AlertsMatch(active: map<Id, AlertEvent>, d: ServiceDefinition, h: seq<Observation>) {
    forall k :: k in active && active[k].serviceId == d.id ==>
      exists i :: 0 <= i < |d.alertRules| && k == KeyOf(d.alertRules[i]) &&
                  active[k].severity == d.alertRules[i].severity && Firing(h, d.alertRules[i])
  }

  lemma SamplesGrow(h: seq<Observation>, x: Observation)
    ensures HealthSamples(h + [x])[..|h|] == HealthSamples(h)
    ensures HealthSamples(h + [x])[|h|] == HealthSample(x.v.definition.healthCheck, x.v.status)
    ensures (h + [x])[..|h|] == h
  {
  }

  // One service's examination

  lemma ExamineCounter(p: Examined, v: Service, now: Time, h: seq<Observation>)
    requires v.supervised && CounterMatches(p.failures, v.Id(), h)
    ensures var h' := h + [Observation(now, v)];
            var p' := Examine(p, v, now);
      && CounterMatches(p'.failures, v.Id(), h')
      && v.Id() in p'.next && p'.next[v.Id()].state == HealthAfter(h')
  {
    SamplesGrow(h, Observation(now, v));
  }

  lemma RuleSamplesGrow(h: seq<Observation>, x: Observation, rule: AlertRule)
    ensures RuleSamples(h + [x], rule) ==
            RuleSamples(h, rule) + [Sample(rule, x.v.metrics, HealthAfter(h + [x]), x.now)]
    ensures StartAfter(RuleSamples(h + [x], rule)) ==
            NextStart(StartAfter(RuleSamples(h, rule)), Sample(rule, x.v.metrics, HealthAfter(h + [x]), x.now))
  {
    assert (h + [x])[..|h|] == h;
    var xs := RuleSamples(h, rule);
    var y := Sample(rule, x.v.metrics, HealthAfter(h + [x]), x.now);
    assert (xs + [y])[..|xs|] == xs;
  }

  /** The samples one round takes of a service's rules. */
  function RoundSamples(v: Service, h: seq<Observation>, now: Time): seq<Sample> {
    Samples(v.definition.alertRules, v.metrics, HealthAfter(h + [Observation(now, v)]), now)
  }

  lemma DistinctRuleKeys(d: ServiceDefinition, xs: seq<Sample>)
    requires d.Valid() && |xs| == |d.alertRules| && forall i :: 0 <= i < |xs| ==> xs[i].rule == d.alertRules[i]
    ensures forall j, k :: 0 <= j < k < |xs| ==> KeyOf(xs[j].rule) != KeyOf(xs[k].rule)
  {
    forall j, k | 0 <= j < k < |xs|
      ensures KeyOf(xs[j].rule) != KeyOf(xs[k].rule)
    {
      var a, b := d.alertRules[j], d.alertRules[k];
      if KeyOf(a) == KeyOf(b) {
        KeyInjective(a.serviceId, a.id, b.serviceId, b.id);
      }
    }
  }

  lemma ExamineStarts(p: Examined, v: Service, now: Time, h: seq<Observation>)
    requires v.supervised && v.definition.Valid()
    requires CounterMatches(p.failures, v.Id(), h) && StartsMatch(p.starts, v.definition, h)
    ensures StartsMatch(Examine(p, v, now).starts, v.definition, h + [Observation(now, v)])
  {
    ExamineCounter(p, v, now, h);
    var xs := RoundSamples(v, h, now);
    assert Examine(p, v, now).starts == AfterRules(p.starts, xs);
    DistinctRuleKeys(v.definition, xs);
    forall i | 0 <= i < |v.definition.alertRules|
      ensures StartOf(AfterRules(p.starts, xs), KeyOf(v.definition.alertRules[i])) ==
              StartAfter(RuleSamples(h + [Observation(now, v)], v.definition.alertRules[i]))
    {
      AfterRulesAt(p.starts, xs, i);
      RuleSamplesGrow(h, Observation(now, v), v.definition.alertRules[i]);
    }
  }

  /** Examining another service changes nothing that is remembered of this one. */
  lemma ExamineElsewhere(p: Examined, v: Service, now: Time, d: ServiceDefinition)
    requires v.Id() != d.id && d.Valid() && (v.supervised ==> v.definition.Valid())
    ensures var p' := Examine(p, v, now);
      && CounterOf(p'.failures, d.id) == CounterOf(p.failures, d.id)
      && (d.id in p'.next <==> d.id in p.next) && (d.id in p.next ==> p'.next[d.id] == p.next[d.id])
      && forall i :: 0 <= i < |d.alertRules| ==>
           StartOf(p'.starts, KeyOf(d.alertRules[i])) == StartOf(p.starts, KeyOf(d.alertRules[i]))
  {
    if v.supervised {
      var failures := AfterCheck(p.failures, v.definition, v.status);
      var health := StatusAfter(failures, v.definition, v.status, now);
      var xs := Samples(v.definition.alertRules, v.metrics, health.state, now);
      forall i | 0 <= i < |d.alertRules|
        ensures StartOf(AfterRules(p.starts, xs), KeyOf(d.alertRules[i])) == StartOf(p.starts, KeyOf(d.alertRules[i]))
      {
        OtherServicesKeys(v.definition, d, i, xs);
        AfterRulesElsewhere(p.starts, xs, KeyOf(d.alertRules[i]));
      }
    }
  }

  lemma OtherServicesKeys(c: ServiceDefinition, d: ServiceDefinition, i: nat, xs: seq<Sample>)
    requires c.Valid() && d.Valid() && c.id != d.id && i < |d.alertRules|
    requires |xs| == |c.alertRules| && forall j :: 0 <= j < |xs| ==> xs[j].rule == c.alertRules[j]
    ensures forall j :: 0 <= j < |xs| ==> KeyOf(xs[j].rule) != KeyOf(d.alertRules[i])
  {
    forall j | 0 <= j < |xs|
      ensures KeyOf(xs[j].rule) != KeyOf(d.alertRules[i])
    {
      var a, b := c.alertRules[j], d.alertRules[i];
      if KeyOf(a) == KeyOf(b) {
        KeyInjective(a.serviceId, a.id, b.serviceId, b.id);
      }
    }
  }

  // A round's examination of all services

  ghost predicate AllValid(vs: seq<Service>) {
    forall i :: 0 <= i < |vs| ==> vs[i].definition.Valid()
  }

  /** The service is not examined. */
  ghost predicate NotExamined(vs: seq<Service>, id: Id) {
    forall i :: 0 <= i < |vs| && vs[i].Id() == id ==> !vs[i].supervised
  }

  lemma {:induction false} NotExaminedKeeps(p: Examined, vs: seq<Service>, now: Time, d: ServiceDefinition)
    requires d.Valid() && AllValid(vs) && NotExamined(vs, d.id)
    ensures var p' := ExamineAll(p, vs, now);
      && CounterOf(p'.failures, d.id) == CounterOf(p.failures, d.id)
      && forall i :: 0 <= i < |d.alertRules| ==>
           StartOf(p'.starts, KeyOf(d.alertRules[i])) == StartOf(p.starts, KeyOf(d.alertRules[i]))
  {
    if vs != [] {
      var n := |vs| - 1;
      NotExaminedKeeps(p, vs[..n], now, d);
      if vs[n].Id() != d.id {
        ExamineElsewhere(ExamineAll(p, vs[..n], now), vs[n], now, d);
      }
    }
  }

  lemma NotExaminedMatches(p: Examined, vs: seq<Service>, now: Time, d: ServiceDefinition, h: seq<Observation>)
    requires d.Valid() && AllValid(vs) && NotExamined(vs, d.id)
    requires CounterMatches(p.failures, d.id, h) && StartsMatch(p.starts, d, h)
    ensures var p' := ExamineAll(p, vs, now); CounterMatches(p'.failures, d.id, h) && StartsMatch(p'.starts, d, h)
  {
    NotExaminedKeeps(p, vs, now, d);
  }

  ghost predicate ServiceMatches(p: Examined, d: ServiceDefinition, h: seq<Observation>) {
    && CounterMatches(p.failures, d.id, h) && StartsMatch(p.starts, d, h)
    && h != [] && d.id in p.next && p.next[d.id].state == HealthAfter(h)
  }

  lemma ElsewhereMatches(p: Examined, v: Service, now: Time, d: ServiceDefinition, h: seq<Observation>)
    requires v.Id() != d.id && d.Valid() && v.definition.Valid()
    requires ServiceMatches(p, d, h)
    ensures ServiceMatches(Examine(p, v, now), d, h)
  {
    ExamineElsewhere(p, v, now, d);
  }

  lemma {:induction false} ExaminedAt(p: Examined, vs: seq<Service>, now: Time, v: Service, h: seq<Observation>)
    requires v in vs && v.supervised && ListedOnce(vs) && AllValid(vs)
    requires CounterMatches(p.failures, v.Id(), h) && StartsMatch(p.starts, v.definition, h)
    ensures ServiceMatches(ExamineAll(p, vs, now), v.definition, h + [Observation(now, v)])
  {
    var n := |vs| - 1;
    var front := ExamineAll(p, vs[..n], now);
    if vs[n] == v {
      NotExaminedMatches(p, vs[..n], now, v.definition, h);
      ExamineCounter(front, v, now, h);
      ExamineStarts(front, v, now, h);
    } else {
      ExaminedAt(p, vs[..n], now, v, h);
      ElsewhereMatches(front, vs[n], now, v.definition, h + [Observation(now, v)]);
    }
  }

  // The evaluations of a round

  /** What the last observation evaluates a rule to. */
  function LastEvaluation(h: seq<Observation>, rule: AlertRule): Evaluation
    requires h != []
  {
    Evaluated(StartAfter(RuleSamples(h, rule)), RuleSamples(h, rule)[|h| - 1])
  }

  ghost predicate FromRule(x: Evaluation, d: ServiceDefinition, h: seq<Observation>)
    requires h != []
  {
    exists i :: 0 <= i < |d.alertRules| && x == LastEvaluation(h, d.alertRules[i])
  }

  /** The service's evaluations among `es` are those of its rules. */
  ghost predicate EvaluationsMatch(es: seq<Evaluation>, d: ServiceDefinition, h: seq<Observation>)
    requires h != []
  {
    && (forall e :: 0 <= e < |es| && es[e].serviceId == d.id ==> FromRule(es[e], d, h))
    && (forall i :: 0 <= i < |d.alertRules| ==> LastEvaluation(h, d.alertRules[i]) in es)
  }

  lemma {:induction false} EvaluationIds(m: Starts, xs: seq<Sample>, i: nat)
    requires i < |xs|
    ensures Evaluations(m, xs)[i].serviceId == xs[i].rule.serviceId && Evaluations(m, xs)[i].ruleId == xs[i].rule.id
  {
    if i < |xs| - 1 {
      EvaluationIds(m, xs[..|xs| - 1], i);
    }
  }

  lemma ServiceEvaluations(p: Examined, v: Service, now: Time, h: seq<Observation>)
    requires v.supervised && v.definition.Valid()
    requires CounterMatches(p.failures, v.Id(), h) && StartsMatch(p.starts, v.definition, h)
    ensures var es := Evaluations(p.starts, RoundSamples(v, h, now));
            var h' := h + [Observation(now, v)];
      && Examine(p, v, now).evaluations == p.evaluations + es
      && |es| == |v.definition.alertRules|
      && forall i :: 0 <= i < |es| ==> es[i] == LastEvaluation(h', v.definition.alertRules[i])
  {
    ExamineCounter(p, v, now, h);
    var xs := RoundSamples(v, h, now);
    DistinctRuleKeys(v.definition, xs);
    forall i | 0 <= i < |xs|
      ensures Evaluations(p.starts, xs)[i] == LastEvaluation(h + [Observation(now, v)], v.definition.alertRules[i])
    {
      AfterRulesAt(p.starts, xs, i);
      RuleSamplesGrow(h, Observation(now, v), v.definition.alertRules[i]);
    }
  }

  /** Every evaluation belongs to a rule of an examined service. */
  ghost predicate Belong(es: seq<Evaluation>, vs: seq<Service>) {
    forall e :: 0 <= e < |es| ==> BelongsTo(es[e], vs)
  }

  ghost predicate BelongsTo(x: Evaluation, vs: seq<Service>) {
    exists k, i :: 0 <= k < |vs| && vs[k].supervised && 0 <= i < |vs[k].definition.alertRules| &&
                   x.serviceId == vs[k].Id() && x.ruleId == vs[k].definition.alertRules[i].id
  }

  lemma BelongsLonger(x: Evaluation, vs: seq<Service>, v: Service)
    requires BelongsTo(x, vs)
    ensures BelongsTo(x, vs + [v])
  {
    var k, i :| 0 <= k < |vs| && vs[k].supervised && 0 <= i < |vs[k].definition.alertRules| &&
                x.serviceId == vs[k].Id() && x.ruleId == vs[k].definition.alertRules[i].id;
    assert (vs + [v])[k] == vs[k];
  }

  /** One service's batch, whatever was remembered before. */
  lemma BatchOf(p: Examined, v: Service, now: Time) returns (es: seq<Evaluation>)
    requires v.supervised && v.definition.Valid()
    ensures Examine(p, v, now).evaluations == p.evaluations + es && |es| == |v.definition.alertRules|
    ensures forall i :: 0 <= i < |es| ==> es[i].serviceId == v.Id() && es[i].ruleId == v.definition.alertRules[i].id
    ensures DistinctKeys(es)
  {
    var failures := AfterCheck(p.failures, v.definition, v.status);
    var health := StatusAfter(failures, v.definition, v.status, now);
    var xs := Samples(v.definition.alertRules, v.metrics, health.state, now);
    es := Evaluations(p.starts, xs);
    forall i | 0 <= i < |es|
      ensures es[i].serviceId == v.Id() && es[i].ruleId == v.definition.alertRules[i].id
    {
      EvaluationIds(p.starts, xs, i);
    }
    DistinctRuleKeys(v.definition, xs);
  }

  lemma {:induction false} EvaluationsBelong(p: Examined, vs: seq<Service>, now: Time)
    requires p.evaluations == [] && ListedOnce(vs) && AllValid(vs)
    ensures Belong(ExamineAll(p, vs, now).evaluations, vs) && DistinctKeys(ExamineAll(p, vs, now).evaluations)
  {
    if vs != [] {
      var n := |vs| - 1;
      EvaluationsBelong(p, vs[..n], now);
      var front := ExamineAll(p, vs[..n], now);
      assert vs == vs[..n] + [vs[n]];
      BelongKept(front.evaluations, vs[..n], vs[n]);
      if vs[n].supervised {
        var es := BatchOf(front, vs[n], now);
        BatchBelongs(es, vs[..n], vs[n]);
        KeysStayDistinct(front.evaluations, es, vs[..n], vs[n]);
      }
    }
  }

  lemma BelongKept(es: seq<Evaluation>, vs: seq<Service>, v: Service)
    requires Belong(es, vs)
    ensures Belong(es, vs + [v])
  {
    forall e | 0 <= e < |es|
      ensures BelongsTo(es[e], vs + [v])
    {
      BelongsLonger(es[e], vs, v);
    }
  }

  lemma BatchBelongs(es: seq<Evaluation>, vs: seq<Service>, v: Service)
    requires v.supervised && |es| == |v.definition.alertRules|
    requires forall i :: 0 <= i < |es| ==> es[i].serviceId == v.Id() && es[i].ruleId == v.definition.alertRules[i].id
    ensures Belong(es, vs + [v])
  {
    var ws := vs + [v];
    assert ws[|vs|] == v;
    forall i | 0 <= i < |es|
      ensures BelongsTo(es[i], ws)
    {
    }
  }

  lemma KeysStayDistinct(a: seq<Evaluation>, b: seq<Evaluation>, vs: seq<Service>, v: Service)
    requires DistinctKeys(a) && DistinctKeys(b) && Belong(a, vs) && AllValid(vs) && v.definition.Valid()
    requires forall i :: 0 <= i < |vs| ==> vs[i].Id() != v.Id()
    requires forall j :: 0 <= j < |b| ==> b[j].serviceId == v.Id()
    ensures DistinctKeys(a + b)
  {
    forall i, j | 0 <= i < |a| && 0 <= j < |b|
      ensures MakeKey(a[i].serviceId, a[i].ruleId) != MakeKey(b[j].serviceId, b[j].ruleId)
    {
      assert BelongsTo(a[i], vs);
      if MakeKey(a[i].serviceId, a[i].ruleId) == MakeKey(b[j].serviceId, b[j].ruleId) {
        KeyInjective(a[i].serviceId, a[i].ruleId, b[j].serviceId, b[j].ruleId);
      }
    }
  }

  lemma {:induction false} EvaluationsOfService(
    p: Examined, vs: seq<Service>, now: Time, v: Service, h: seq<Observation>)
    requires p.evaluations == [] && ListedOnce(vs) && AllValid(vs) && v in vs && v.supervised
    requires CounterMatches(p.failures, v.Id(), h) && StartsMatch(p.starts, v.definition, h)
    ensures EvaluationsMatch(ExamineAll(p, vs, now).evaluations, v.definition, h + [Observation(now, v)])
  {
    var n := |vs| - 1;
    if vs[n] == v {
      EvaluationsOfLast(p, vs, now, h);
    } else {
      EvaluationsOfService(p, vs[..n], now, v, h);
      OtherExamined(p, vs, now, v, h + [Observation(now, v)]);
    }
  }

  lemma EvaluationsOfLast(p: Examined, vs: seq<Service>, now: Time, h: seq<Observation>)
    requires p.evaluations == [] && ListedOnce(vs) && AllValid(vs) && vs != [] && vs[|vs| - 1].supervised
    requires var v := vs[|vs| - 1];
      CounterMatches(p.failures, v.Id(), h) && StartsMatch(p.starts, v.definition, h)
    ensures var v := vs[|vs| - 1];
      EvaluationsMatch(ExamineAll(p, vs, now).evaluations, v.definition, h + [Observation(now, v)])
  {
    var n := |vs| - 1;
    NotExaminedMatches(p, vs[..n], now, vs[n].definition, h);
    EvaluationsBelong(p, vs[..n], now);
    OwnExamined(ExamineAll(p, vs[..n], now), vs[..n], vs[n], now, h);
  }

  lemma OtherExamined(p: Examined, vs: seq<Service>, now: Time, v: Service, h: seq<Observation>)
    requires ListedOnce(vs) && AllValid(vs) && v in vs && vs[|vs| - 1] != v && h != []
    requires EvaluationsMatch(ExamineAll(p, vs[..|vs| - 1], now).evaluations, v.definition, h)
    ensures EvaluationsMatch(ExamineAll(p, vs, now).evaluations, v.definition, h)
  {
    var n := |vs| - 1;
    var front := ExamineAll(p, vs[..n], now);
    if vs[n].supervised {
      var es := BatchOf(front, vs[n], now);
      OtherBatch(front.evaluations, es, v.definition, h);
    }
  }

  lemma OwnExamined(p: Examined, vs: seq<Service>, v: Service, now: Time, h: seq<Observation>)
    requires v.supervised && v.definition.Valid() && Belong(p.evaluations, vs)
    requires forall i :: 0 <= i < |vs| ==> vs[i].Id() != v.Id()
    requires CounterMatches(p.failures, v.Id(), h) && StartsMatch(p.starts, v.definition, h)
    ensures EvaluationsMatch(Examine(p, v, now).evaluations, v.definition, h + [Observation(now, v)])
  {
    ServiceEvaluations(p, v, now, h);
    var es := Evaluations(p.starts, RoundSamples(v, h, now));
    OwnBatch(p.evaluations, es, vs, v.definition, h + [Observation(now, v)]);
  }

  lemma OtherBatch(a: seq<Evaluation>, b: seq<Evaluation>, d: ServiceDefinition, h: seq<Observation>)
    requires h != [] && EvaluationsMatch(a, d, h) && forall j :: 0 <= j < |b| ==> b[j].serviceId != d.id
    ensures EvaluationsMatch(a + b, d, h)
  {
  }

  lemma OwnBatch(
    a: seq<Evaluation>, b: seq<Evaluation>, vs: seq<Service>, d: ServiceDefinition, h: seq<Observation>)
    requires h != [] && Belong(a, vs) && forall i :: 0 <= i < |vs| ==> vs[i].Id() != d.id
    requires |b| == |d.alertRules| && forall i :: 0 <= i < |b| ==> b[i] == LastEvaluation(h, d.alertRules[i])
    ensures EvaluationsMatch(a + b, d, h)
  {
    forall e | 0 <= e < |a|
      ensures a[e].serviceId != d.id
    {
      assert BelongsTo(a[e], vs);
    }
    var es := a + b;
    forall e | 0 <= e < |es| && es[e].serviceId == d.id
      ensures FromRule(es[e], d, h)
    {
      assert es[e] == b[e - |a|];
    }
    forall i | 0 <= i < |d.alertRules|
      ensures LastEvaluation(h, d.alertRules[i]) in es
    {
      assert b[i] in b;
    }
  }

  // Alerts

  lemma FromRuleIds(x: Evaluation, d: ServiceDefinition, h: seq<Observation>, i: nat)
    requires h != [] && d.Valid() && i < |d.alertRules| && x == LastEvaluation(h, d.alertRules[i])
    ensures x.serviceId == d.id && x.ruleId == d.alertRules[i].id
    ensures MakeKey(x.serviceId, x.ruleId) == KeyOf(d.alertRules[i])
    ensures x.severity == d.alertRules[i].severity && x.firing == Firing(h, d.alertRules[i])
  {
    RuleSamplesLast(h, d.alertRules[i]);
  }

  lemma RuleSamplesLast(h: seq<Observation>, rule: AlertRule)
    requires h != []
    ensures RuleSamples(h, rule)[|h| - 1] == Sample(rule, h[|h| - 1].v.metrics, HealthAfter(h), h[|h| - 1].now)
    ensures RuleSamples(h, rule)[..|h| - 1] == RuleSamples(h[..|h| - 1], rule)
  {
  }

  /** After a batch with the service's evaluations, an alert of the service is active only
      for a rule that fires now. */
  lemma BatchMatches(
    s: Store, es: seq<Evaluation>, capacity: nat, d: ServiceDefinition, h: seq<Observation>, h': seq<Observation>)
    requires d.Valid() && h' != [] && h'[|h'| - 1].now >= 0
    requires capacity > 0 && StoreOk(s, capacity) && DistinctKeys(es)
    requires AlertsMatch(s.active, d, h) && EvaluationsMatch(es, d, h')
    requires forall e :: 0 <= e < |es| ==> ValidServiceId(es[e].serviceId)
    ensures AlertsMatch(ApplyAll(s, es, capacity).active, d, h')
  {
    var active := ApplyAll(s, es, capacity).active;
    ApplyAllKeepsOk(s, es, capacity);
    forall k | k in active && active[k].serviceId == d.id
      ensures exists i :: 0 <= i < |d.alertRules| && k == KeyOf(d.alertRules[i]) &&
                          active[k].severity == d.alertRules[i].severity && Firing(h', d.alertRules[i])
    {
      KeyHasEvaluation(s, es, capacity, d, h, h', k);
      var e :| 0 <= e < |es| && MakeKey(es[e].serviceId, es[e].ruleId) == k;
      ApplyAllAt(s, es, capacity, e);
      var i := RuleOfAlert(Lookup(s.active, k), es, e, active[k], d, h');
    }
  }

  lemma RuleOfAlert(
    current: Option<AlertEvent>, es: seq<Evaluation>, e: nat, a: AlertEvent, d: ServiceDefinition, h: seq<Observation>)
    returns (i: nat)
    requires d.Valid() && h != [] && h[|h| - 1].now >= 0 && e < |es| && EvaluationsMatch(es, d, h)
    requires AlertAfter(current, es[e]) == Some(a)
    requires a.serviceId == d.id && MakeKey(a.serviceId, a.ruleId) == MakeKey(es[e].serviceId, es[e].ruleId)
    requires ValidServiceId(es[e].serviceId)
    ensures i < |d.alertRules| && MakeKey(a.serviceId, a.ruleId) == KeyOf(d.alertRules[i])
    ensures a.severity == d.alertRules[i].severity && Firing(h, d.alertRules[i])
  {
    KeyInjective(a.serviceId, a.ruleId, es[e].serviceId, es[e].ruleId);
    assert FromRule(es[e], d, h);
    i :| 0 <= i < |d.alertRules| && es[e] == LastEvaluation(h, d.alertRules[i]);
    FromRuleIds(es[e], d, h, i);
    LastEvaluationValid(h, d, i);
    StaysActive(current, es[e], a);
  }

  lemma LastEvaluationValid(h: seq<Observation>, d: ServiceDefinition, i: nat)
    requires d.Valid() && h != [] && h[|h| - 1].now >= 0 && i < |d.alertRules|
    ensures LastEvaluation(h, d.alertRules[i]).Valid()
  {
    var xs := RuleSamples(h, d.alertRules[i]);
    RuleSamplesLast(h, d.alertRules[i]);
    if StartAfter(xs).Some? {
      var j := StartIsInRun(xs);
      assert Holds(xs[j]);
    }
    EvaluationIsValid(StartAfter(xs), xs[|h| - 1]);
  }

  lemma KeyHasEvaluation(
    s: Store, es: seq<Evaluation>, capacity: nat, d: ServiceDefinition, h: seq<Observation>, h': seq<Observation>,
    k: Id)
    requires d.Valid() && h' != [] && capacity > 0 && StoreOk(s, capacity)
    requires AlertsMatch(s.active, d, h) && EvaluationsMatch(es, d, h')
    requires k in ApplyAll(s, es, capacity).active && ApplyAll(s, es, capacity).active[k].serviceId == d.id
    ensures exists e :: 0 <= e < |es| && MakeKey(es[e].serviceId, es[e].ruleId) == k
  {
    if Lookup(ApplyAll(s, es, capacity).active, k) == Lookup(s.active, k) {
      var i :| 0 <= i < |d.alertRules| && k == KeyOf(d.alertRules[i]);
      FromRuleIds(LastEvaluation(h', d.alertRules[i]), d, h', i);
      assert LastEvaluation(h', d.alertRules[i]) in es;
    } else if forall e :: 0 <= e < |es| ==> MakeKey(es[e].serviceId, es[e].ruleId) != k {
      ApplyAllElsewhere(s, es, capacity, k);
      assert false;
    }
  }

  /** An alert that an evaluation leaves active carries its severity, and the rule fires. */
  lemma StaysActive(current: Option<AlertEvent>, x: Evaluation, e: AlertEvent)
    requires AlertAfter(current, x) == Some(e) && x.Valid()
    ensures x.firing && e.severity == x.severity
  {
    KeyIsValidEventId(x.serviceId, x.ruleId);
  }
}

/**
 Which alerts are active after a round of the control loop: for any clock, and exactly, over
 the whole table, for one that does not run backwards.
 */
module MonitorAlerts {
  import opened Common
  import opened ControlTypes
  import opened Health
  import opened Alerts
  import opened AlertManagement
  import opened AlertDisplay
  import opened MonitorModel
  import opened MonitorTheorems
  import opened MonitorRuns
  import ProcessModel

  // One round, by any clock

  /** The clock has not gone back behind the moment the alert was raised, if there is one. */
  predicate NotBehind(active: map<Id, AlertEvent>, key: Id, now: Time) {
    key in active ==> active[key].firstTriggered <= now
  }

  /** The moment at which the alert was raised. */
  function TimeOf(e: Option<AlertEvent>): Option<Time> {
    if e.Some? then Some(e.value.firstTriggered) else None
  }

  function RaisedIn(active: map<Id, AlertEvent>, key: Id): Option<Time> { TimeOf(Lookup(active, key)) }

  function RaisedNext(before: Option<Time>, firing: bool, now: Time): Option<Time> {
    if !firing || (before.Some? && now < before.value) then None
    else if before.Some? then before else Some(now)
  }

  /** From the observations alone: when the rule's alert was raised, if it is active. It is
      raised when the rule fires, keeps its time while the rule goes on firing, and is lost
      when the rule stops firing or the clock is behind that time. */
  function RaisedTime(h: seq<Observation>, rule: AlertRule): Option<Time> {
    if h == [] then None
    else
      var n := |h| - 1;
      RaisedNext(RaisedTime(h[..n], rule), Firing(h, rule), h[n].now)
  }

  lemma RaisedAfter(current: Option<AlertEvent>, x: Evaluation)
    requires x.Valid()
    requires current.Some? ==>
      current.value.id == MakeKey(x.serviceId, x.ruleId) && current.value.Valid() && current.value.state.Active?
    ensures TimeOf(AlertAfter(current, x)) == RaisedNext(TimeOf(current), x.firing, x.evaluatedAt)
  {
    ActiveAfterIff(current, x);
  }

  lemma BatchRaised(
    s: Store, es: seq<Evaluation>, capacity: nat, d: ServiceDefinition, h: seq<Observation>, i: nat, now: Time)
    requires d.Valid() && h != [] && h[|h| - 1].now == now >= 0 && i < |d.alertRules|
    requires capacity > 0 && StoreOk(s, capacity) && DistinctKeys(es) && EvaluationsMatch(es, d, h)
    ensures var key := KeyOf(d.alertRules[i]);
      RaisedIn(ApplyAll(s, es, capacity).active, key) ==
      RaisedNext(RaisedIn(s.active, key), Firing(h, d.alertRules[i]), now)
  {
    var x := RuleInBatch(s, es, capacity, d, h, i);
    RaisedAfter(Lookup(s.active, KeyOf(d.alertRules[i])), x);
  }

  /** The evaluation of the rule, and what it makes of its alert. */
  lemma RuleInBatch(s: Store, es: seq<Evaluation>, capacity: nat, d: ServiceDefinition, h: seq<Observation>, i: nat)
    returns (x: Evaluation)
    requires d.Valid() && h != [] && h[|h| - 1].now >= 0 && i < |d.alertRules|
    requires DistinctKeys(es) && EvaluationsMatch(es, d, h)
    ensures x.Valid() && x.firing == Firing(h, d.alertRules[i]) && x.evaluatedAt == h[|h| - 1].now
    ensures MakeKey(x.serviceId, x.ruleId) == KeyOf(d.alertRules[i])
    ensures var key := KeyOf(d.alertRules[i]);
      Lookup(ApplyAll(s, es, capacity).active, key) == AlertAfter(Lookup(s.active, key), x)
  {
    x := LastEvaluation(h, d.alertRules[i]);
    FromRuleIds(x, d, h, i);
    LastEvaluationValid(h, d, i);
    RuleSamplesLast(h, d.alertRules[i]);
    assert x in es;
    var e :| 0 <= e < |es| && es[e] == x;
    ApplyAllAt(s, es, capacity, e);
  }

  /** Forgetting services that are not listed leaves the alerts of the others alone. */
  lemma KeptKey(u: State, t: State, d: ServiceDefinition, i: nat)
    requires Alike(u, t, d) && ActiveOk(t.store.active) && ActiveOk(u.store.active)
    requires d.Valid() && i < |d.alertRules|
    ensures Lookup(u.store.active, KeyOf(d.alertRules[i])) == Lookup(t.store.active, KeyOf(d.alertRules[i]))
  {
    OwnKey(u.store.active, d, i);
    OwnKey(t.store.active, d, i);
  }

  lemma OwnKey(active: map<Id, AlertEvent>, d: ServiceDefinition, i: nat)
    requires ActiveOk(active) && d.Valid() && i < |d.alertRules|
    ensures var key := KeyOf(d.alertRules[i]); key in active ==> active[key].serviceId == d.id
  {
    var key := KeyOf(d.alertRules[i]);
    if key in active {
      KeyInjective(active[key].serviceId, active[key].ruleId, d.alertRules[i].serviceId, d.alertRules[i].id);
    }
  }

  lemma ForgettingKeepsKey(s: State, r: Round, order: seq<Id>, d: ServiceDefinition, i: nat, o: Options)
    requires StateOk(s, o) && o.resolvedCapacity > 0 && d.Valid() && i < |d.alertRules| && d.id in SeenIds(r.services)
    ensures var key := KeyOf(d.alertRules[i]);
      Lookup(Checked(s, r, order, o).store.active, key) == Lookup(StoreIn(s, r, o).active, key)
  {
    var t := BeforeForgetting(s, r, o);
    ForgetUnseenKeeps(t, order, SeenIds(r.services), d);
    CheckedOk(s, r, order, o);
    ApplyAllKeepsOk(s.store, ExaminedIn(s, r).evaluations, o.resolvedCapacity);
    KeptKey(ForgetUnseen(t, order, SeenIds(r.services)), t, d, i);
  }

  lemma BatchOfRound(s: State, r: Round, v: Service, i: nat, h: seq<Observation>, o: Options)
    requires StateOk(s, o) && o.resolvedCapacity > 0 && ListedOnce(r.services) && AllValid(r.services)
    requires v in r.services && v.supervised && v.definition.Valid() && i < |v.definition.alertRules|
    requires CounterMatches(s.failures, v.Id(), h) && StartsMatch(s.starts, v.definition, h)
    ensures var rule := v.definition.alertRules[i];
      RaisedIn(StoreIn(s, r, o).active, KeyOf(rule)) ==
      RaisedNext(RaisedIn(s.store.active, KeyOf(rule)), Firing(h + [Observation(r.Now(), v)], rule), r.Now())
  {
    EvaluationsBelong(Start(s), r.services, r.Now());
    EvaluationsOfService(Start(s), r.services, r.Now(), v, h);
    var h' := h + [Observation(r.Now(), v)];
    BatchRaised(s.store, ExaminedIn(s, r).evaluations, o.resolvedCapacity, v.definition, h', i, r.Now());
  }

  lemma RoundRaised(s: State, r: Round, order: seq<Id>, k: nat, i: nat, h: seq<Observation>, o: Options)
    requires StateOk(s, o) && o.resolvedCapacity > 0 && ListedOnce(r.services) && AllValid(r.services)
    requires k < |r.services| && r.services[k].supervised && Matches(s, r.services[k].definition, h, o)
    requires i < |r.services[k].definition.alertRules|
    ensures var rule := r.services[k].definition.alertRules[i];
      RaisedIn(Checked(s, r, order, o).store.active, KeyOf(rule)) ==
      RaisedNext(
        RaisedIn(s.store.active, KeyOf(rule)), Firing(h + [Observation(r.Now(), r.services[k])], rule), r.Now())
  {
    var v := r.services[k];
    assert v.Id() in SeenIds(r.services);
    BatchOfRound(s, r, v, i, h, o);
    ForgettingKeepsKey(s, r, order, v.definition, i, o);
  }

  lemma NotBehindIff(before: map<Id, AlertEvent>, after: map<Id, AlertEvent>, key: Id, firing: bool, now: Time)
    requires RaisedIn(after, key) == RaisedNext(RaisedIn(before, key), firing, now)
    ensures key in after <==> firing && NotBehind(before, key, now)
  {
  }

  /** By any clock: after a round the alert of a rule of an examined service is active if and
      only if the rule's condition has held for its duration and the clock is not behind the
      moment at which the alert, if it was active, had been raised. */
  lemma ActiveByAnyClock(
    rs: seq<Round>, orders: seq<seq<Id>>, defs: Definitions, o: Options, r: Round, order: seq<Id>, k: nat, i: nat)
    requires Run(rs, orders, defs, o) && RoundOk(r, defs)
    requires k < |r.services| && r.services[k].supervised && i < |r.services[k].definition.alertRules|
    ensures var d := r.services[k].definition;
            var rule := d.alertRules[i];
            var before := StateAfter(rs, orders, o);
      KeyOf(rule) in Checked(before, r, order, o).store.active <==>
      HeldLong(History(rs + [r], d.id), rule) && NotBehind(before.store.active, KeyOf(rule), r.Now())
  {
    var d := r.services[k].definition;
    var h, s := History(rs + [r], d.id), StateAfter(rs, orders, o);
    StateIsHistory(rs, orders, defs, o, d.id);
    HistoryGrows(rs, r, k);
    FiringIff(h, d.alertRules[i]);
    RoundRaised(s, r, order, k, i, History(rs, d.id), o);
    var after := Checked(s, r, order, o).store.active;
    NotBehindIff(s.store.active, after, KeyOf(d.alertRules[i]), Firing(h, d.alertRules[i]), r.Now());
  }

  // Services that are not examined

  lemma UntouchedKey(
    s: Store, es: seq<Evaluation>, vs: seq<Service>, capacity: nat, d: ServiceDefinition, i: nat)
    requires AllValid(vs) && Belong(es, vs) && NotExamined(vs, d.id) && d.Valid() && i < |d.alertRules|
    ensures var key := KeyOf(d.alertRules[i]);
      Lookup(ApplyAll(s, es, capacity).active, key) == Lookup(s.active, key)
  {
    var key := KeyOf(d.alertRules[i]);
    forall e | 0 <= e < |es|
      ensures MakeKey(es[e].serviceId, es[e].ruleId) != key
    {
      assert BelongsTo(es[e], vs);
      if MakeKey(es[e].serviceId, es[e].ruleId) == key {
        KeyInjective(d.alertRules[i].serviceId, d.alertRules[i].id, es[e].serviceId, es[e].ruleId);
      }
    }
    ApplyAllElsewhere(s, es, capacity, key);
  }

  lemma RoundUntouched(s: State, r: Round, order: seq<Id>, d: ServiceDefinition, i: nat, o: Options)
    requires StateOk(s, o) && o.resolvedCapacity > 0 && ListedOnce(r.services) && AllValid(r.services)
    requires d.Valid() && i < |d.alertRules| && NotExamined(r.services, d.id) && d.id in SeenIds(r.services)
    ensures var key := KeyOf(d.alertRules[i]);
      RaisedIn(Checked(s, r, order, o).store.active, key) == RaisedIn(s.store.active, key)
  {
    EvaluationsBelong(Start(s), r.services, r.Now());
    UntouchedKey(s.store, ExaminedIn(s, r).evaluations, r.services, o.resolvedCapacity, d, i);
    ForgettingKeepsKey(s, r, order, d, i, o);
  }

  // Over whole runs, by any clock

  /** By any clock: after every run the alerts of a service that are active, and the moments
      at which they were raised, are those that its observations since it was last missing
      give. */
  lemma {:induction false} ActiveIsHistory(
    rs: seq<Round>, orders: seq<seq<Id>>, defs: Definitions, o: Options, id: Id, i: nat)
    requires Run(rs, orders, defs, o) && id in defs && i < |defs[id].alertRules|
    ensures RaisedIn(StateAfter(rs, orders, o).store.active, KeyOf(defs[id].alertRules[i])) ==
            RaisedTime(History(rs, id), defs[id].alertRules[i])
  {
    if rs != [] {
      var n := |rs| - 1;
      EndOfRun(rs, orders, defs, o);
      ActiveIsHistory(rs[..n], orders[..n], defs, o, id, i);
      StateIsHistory(rs[..n], orders[..n], defs, o, id);
      RaisedStep(StateAfter(rs[..n], orders[..n], o), rs[n], orders[n], defs, o, defs[id], History(rs[..n], id), i);
    }
  }

  lemma RaisedStep(
    s: State, r: Round, order: seq<Id>, defs: Definitions, o: Options, d: ServiceDefinition, h: seq<Observation>,
    i: nat)
    requires StateOk(s, o) && o.resolvedCapacity > 0 && DefinitionsOk(defs) && RoundOk(r, defs)
    requires Enumerates(order, s.latest.Keys) && d.id in defs && defs[d.id] == d && d.Valid() && i < |d.alertRules|
    requires Matches(s, d, h, o) && (d.id !in s.latest ==> h == [])
    requires RaisedIn(s.store.active, KeyOf(d.alertRules[i])) == RaisedTime(h, d.alertRules[i])
    ensures RaisedIn(Checked(s, r, order, o).store.active, KeyOf(d.alertRules[i])) ==
            RaisedTime(Extend(h, r, d.id), d.alertRules[i])
  {
    var k := IndexOf(r.services, d.id);
    if k == |r.services| {
      RoundBlank(s, r, order, defs, o, d, h, i);
    } else if r.services[k].supervised {
      RoundRaised(s, r, order, k, i, h, o);
      RaisedGrows(h, Observation(r.Now(), r.services[k]), d.alertRules[i]);
    } else {
      OnlyUnsupervised(r.services, d.id, k);
      RoundUntouched(s, r, order, d, i, o);
    }
  }

  lemma RaisedGrows(h: seq<Observation>, x: Observation, rule: AlertRule)
    ensures RaisedTime(h + [x], rule) == RaisedNext(RaisedTime(h, rule), Firing(h + [x], rule), x.now)
  {
    assert (h + [x])[..|h|] == h;
  }

  // With a clock that does not run backwards

  ghost predicate ClockForward(rs: seq<Round>) {
    forall i, j :: 0 <= i <= j < |rs| ==> rs[i].Now() <= rs[j].Now()
  }

  ghost predicate TimesForward(h: seq<Observation>) {
    forall i, j :: 0 <= i <= j < |h| ==> h[i].now <= h[j].now
  }

  lemma {:induction false} HistoryForward(rs: seq<Round>, id: Id, now: Time)
    requires ClockForward(rs) && forall i :: 0 <= i < |rs| ==> rs[i].Now() <= now
    ensures TimesForward(History(rs, id)) && forall i :: 0 <= i < |History(rs, id)| ==> History(rs, id)[i].now <= now
  {
    if rs != [] {
      HistoryForward(rs[..|rs| - 1], id, rs[|rs| - 1].Now());
    }
  }

  lemma {:induction false} RaisedForward(h: seq<Observation>, rule: AlertRule)
    requires TimesForward(h)
    ensures RaisedTime(h, rule).Some? <==> Firing(h, rule)
    ensures RaisedTime(h, rule).Some? ==> RaisedTime(h, rule).value <= h[|h| - 1].now
  {
    if h != [] {
      RaisedForward(h[..|h| - 1], rule);
    }
  }

  /** If the clock never runs backwards: after every round, of all rules of all registered
      services, exactly those have an active alert whose condition had held for their
      duration when the service was last observed. */
  lemma ActiveIffFiring(
    rs: seq<Round>, orders: seq<seq<Id>>, defs: Definitions, o: Options, id: Id, i: nat)
    requires Run(rs, orders, defs, o) && ClockForward(rs) && id in defs && i < |defs[id].alertRules|
    ensures KeyOf(defs[id].alertRules[i]) in StateAfter(rs, orders, o).store.active <==>
            HeldLong(History(rs, id), defs[id].alertRules[i])
  {
    var h := History(rs, id);
    ActiveIsHistory(rs, orders, defs, o, id, i);
    HistoryForward(rs, id, if rs == [] then 0 else rs[|rs| - 1].Now());
    RaisedForward(h, defs[id].alertRules[i]);
    FiringIff(h, defs[id].alertRules[i]);
  }

  lemma RoundBlank(
    s: State, r: Round, order: seq<Id>, defs: Definitions, o: Options, d: ServiceDefinition, h: seq<Observation>,
    i: nat)
    requires StateOk(s, o) && o.resolvedCapacity > 0 && DefinitionsOk(defs) && RoundOk(r, defs)
    requires Enumerates(order, s.latest.Keys) && d.id in defs && defs[d.id] == d && d.Valid() && i < |d.alertRules|
    requires Matches(s, d, h, o) && (d.id !in s.latest ==> h == []) && IndexOf(r.services, d.id) == |r.services|
    ensures KeyOf(d.alertRules[i]) !in Checked(s, r, order, o).store.active
  {
    StepMatches(s, r, order, defs, o, d, h);
    CheckedOk(s, r, order, o);
    NoneWithoutHistory(Checked(s, r, order, o).store.active, d, i);
  }

  lemma NoneWithoutHistory(active: map<Id, AlertEvent>, d: ServiceDefinition, i: nat)
    requires ActiveOk(active) && AlertsMatch(active, d, []) && d.Valid() && i < |d.alertRules|
    ensures KeyOf(d.alertRules[i]) !in active
  {
    OwnKey(active, d, i);
  }

  // The whole table

  ghost predicate Known(active: map<Id, AlertEvent>, defs: Definitions) {
    forall k :: k in active ==> active[k].serviceId in defs
  }

  lemma {:induction false} BatchKnown(s: Store, es: seq<Evaluation>, capacity: nat, defs: Definitions)
    requires Known(s.active, defs) && forall e :: 0 <= e < |es| ==> es[e].serviceId in defs
    ensures Known(ApplyAll(s, es, capacity).active, defs)
  {
    if es != [] {
      BatchKnown(s, es[..|es| - 1], capacity, defs);
    }
  }

  lemma {:induction false} ForgetKnown(s: State, ids: seq<Id>, seen: set<Id>, defs: Definitions)
    requires Known(s.store.active, defs)
    ensures Known(ForgetUnseen(s, ids, seen).store.active, defs)
  {
    if ids != [] {
      ForgetKnown(s, ids[..|ids| - 1], seen, defs);
    }
  }

  lemma RoundKnown(s: State, r: Round, order: seq<Id>, defs: Definitions, o: Options)
    requires StateOk(s, o) && o.resolvedCapacity > 0 && RoundOk(r, defs) && Known(s.store.active, defs)
    ensures Known(Checked(s, r, order, o).store.active, defs)
  {
    var es := ExaminedIn(s, r).evaluations;
    EvaluationsBelong(Start(s), r.services, r.Now());
    forall e | 0 <= e < |es|
      ensures es[e].serviceId in defs
    {
      assert BelongsTo(es[e], r.services);
    }
    BatchKnown(s.store, es, o.resolvedCapacity, defs);
    ForgetKnown(BeforeForgetting(s, r, o), order, SeenIds(r.services), defs);
  }

  lemma {:induction false} AllKnown(rs: seq<Round>, orders: seq<seq<Id>>, defs: Definitions, o: Options)
    requires Run(rs, orders, defs, o)
    ensures Known(StateAfter(rs, orders, o).store.active, defs)
  {
    if rs != [] {
      var n := |rs| - 1;
      EndOfRun(rs, orders, defs, o);
      AllKnown(rs[..n], orders[..n], defs, o);
      RoundKnown(StateAfter(rs[..n], orders[..n], o), rs[n], orders[n], defs, o);
    }
  }

  /** `key` is that of a rule of a registered service whose condition has held for its
      duration. */
  ghost predicate HeldKey(key: Id, rs: seq<Round>, defs: Definitions) {
    exists id, i :: id in defs && 0 <= i < |defs[id].alertRules| && key == KeyOf(defs[id].alertRules[i]) &&
                    HeldLong(History(rs, id), defs[id].alertRules[i])
  }

  /** If the clock never runs backwards, the table of active alerts is, after every round,
      exactly the set of rules that have held for their duration. */
  lemma ActiveTable(rs: seq<Round>, orders: seq<seq<Id>>, defs: Definitions, o: Options, key: Id)
    requires Run(rs, orders, defs, o) && ClockForward(rs)
    ensures key in StateAfter(rs, orders, o).store.active <==> HeldKey(key, rs, defs)
  {
    var active := StateAfter(rs, orders, o).store.active;
    if key in active {
      var i := ActiveIsHeld(rs, orders, defs, o, key);
      assert HeldLong(History(rs, active[key].serviceId), defs[active[key].serviceId].alertRules[i]);
    }
    if HeldKey(key, rs, defs) {
      var id, i :| id in defs && 0 <= i < |defs[id].alertRules| && key == KeyOf(defs[id].alertRules[i]) &&
                   HeldLong(History(rs, id), defs[id].alertRules[i]);
      ActiveIffFiring(rs, orders, defs, o, id, i);
    }
  }

  /** By any clock, no alert is active that is not owned by a registered rule that has held
      for its duration. */
  lemma ActiveIsHeld(rs: seq<Round>, orders: seq<seq<Id>>, defs: Definitions, o: Options, key: Id) returns (i: nat)
    requires Run(rs, orders, defs, o) && key in StateAfter(rs, orders, o).store.active
    ensures var id := StateAfter(rs, orders, o).store.active[key].serviceId;
      && id in defs && i < |defs[id].alertRules| && key == KeyOf(defs[id].alertRules[i])
      && HeldLong(History(rs, id), defs[id].alertRules[i])
  {
    var active := StateAfter(rs, orders, o).store.active;
    AllKnown(rs, orders, defs, o);
    var id := active[key].serviceId;
    StateIsHistory(rs, orders, defs, o, id);
    i := FiringRule(active, defs[id], History(rs, id), key);
    FiringIff(History(rs, id), defs[id].alertRules[i]);
  }

  lemma FiringRule(active: map<Id, AlertEvent>, d: ServiceDefinition, h: seq<Observation>, key: Id) returns (i: nat)
    requires AlertsMatch(active, d, h) && key in active && active[key].serviceId == d.id
    ensures i < |d.alertRules| && key == KeyOf(d.alertRules[i]) && Firing(h, d.alertRules[i])
  {
    i :| 0 <= i < |d.alertRules| && key == KeyOf(d.alertRules[i]) && Firing(h, d.alertRules[i]);
  }

  // A clock that steps back

  const EARLIER := 0
  const LATER := 1000

  /** A rule that asks whether the service is healthy, without a duration. */
  function WatchesHealth(id: Id): ServiceDefinition {
    ServiceDefinition(
      id, true, HealthCheck(true, Process, 5, 1000, 1, "", "", 0, ""),
      [AlertRule("up", id, HealthMetric, Equal, None, Some(Healthy), 0, Warning, true)],
      RecoveryPolicy(false, false, false, 3, 300, 10, 10))
  }

  function Up(id: Id): Service {
    var running := ServiceStatus(ProcessModel.Running, ProcessModel.WantRunning, 1);
    Service(WatchesHealth(id), true, running, None, running, true, "")
  }

  function FirstRound(id: Id): Round { Round(LATER, [Up(id)]) }

  function SecondRound(id: Id): Round { Round(EARLIER, [Up(id)]) }

  lemma UpIsListed(id: Id, defs: Definitions)
    requires ValidServiceId(id) && defs == map[id := WatchesHealth(id)]
    ensures RoundOk(FirstRound(id), defs) && RoundOk(SecondRound(id), defs) && DefinitionsOk(defs)
    ensures SeenIds(FirstRound(id).services) == {id}
  {
    assert WatchesHealth(id).Valid();
    assert FirstRound(id).services[0] == Up(id) && Up(id).Id() == id;
  }

  lemma UpHolds(h: seq<Observation>, now: Time, id: Id)
    requires ValidServiceId(id) && now >= 0
    ensures HeldLong(h + [Observation(now, Up(id))], WatchesHealth(id).alertRules[0])
  {
    var h' := h + [Observation(now, Up(id))];
    var rule := WatchesHealth(id).alertRules[0];
    RuleSamplesLast(h', rule);
    assert HealthAfter(h') == Healthy;
    assert Holds(RuleSamples(h', rule)[|h|]);
    assert HoldsFrom(RuleSamples(h', rule), |h|);
  }

  lemma FirstIsRun(id: Id, defs: Definitions, o: Options)
    requires ValidServiceId(id) && defs == map[id := WatchesHealth(id)] && o.resolvedCapacity > 0
    ensures Run([FirstRound(id)], [[]], defs, o)
    ensures StateAfter([FirstRound(id)], [[]], o).latest.Keys == {id}
  {
    UpIsListed(id, defs);
    RunExtends([], [], defs, o, FirstRound(id), []);
    SingletonSum<Round>(FirstRound(id));
    SingletonSum<seq<Id>>([]);
    LatestIsListed([FirstRound(id)], [[]], o);
  }

  lemma SingletonSum<T>(x: T)
    ensures [] + [x] == [x]
  {
  }

  lemma PairSum<T>(x: T, y: T)
    ensures [x] + [y] == [x, y]
  {
  }

  lemma BothAreRun(id: Id, defs: Definitions, o: Options)
    requires ValidServiceId(id) && defs == map[id := WatchesHealth(id)] && o.resolvedCapacity > 0
    ensures Run([FirstRound(id), SecondRound(id)], [[], [id]], defs, o)
  {
    FirstIsRun(id, defs, o);
    UpIsListed(id, defs);
    RunExtends([FirstRound(id)], [[]], defs, o, SecondRound(id), [id]);
    PairSum(FirstRound(id), SecondRound(id));
    PairSum<seq<Id>>([], [id]);
  }

  /** What the two rounds observe, and what follows from it. */
  lemma UpHistories(id: Id)
    requires ValidServiceId(id)
    ensures var first := History([FirstRound(id)], id);
            var rule := WatchesHealth(id).alertRules[0];
      HeldLong(first, rule) && RaisedTime(first, rule) == Some(LATER)
    ensures var both := History([FirstRound(id), SecondRound(id)], id);
            var rule := WatchesHealth(id).alertRules[0];
      HeldLong(both, rule) && RaisedTime(both, rule) == None
  {
    var rule := WatchesHealth(id).alertRules[0];
    var a, b := Observation(LATER, Up(id)), Observation(EARLIER, Up(id));
    UpHolds([], LATER, id);
    UpHolds([] + [a], EARLIER, id);
    FiringIff([] + [a], rule);
    RaisedGrows([], a, rule);
    RaisedGrows([] + [a], b, rule);
    HistoryGrows([], FirstRound(id), 0);
    HistoryGrows([FirstRound(id)], SecondRound(id), 0);
    assert [] + [FirstRound(id)] == [FirstRound(id)];
    assert [FirstRound(id)] + [SecondRound(id)] == [FirstRound(id), SecondRound(id)];
  }

  /** Two rounds in which the rule holds, the second by an earlier clock: the rule has held
      for its duration after both, its alert is active after the first, and gone after the
      second. */
  lemma SteppedClockDropsAlert(id: Id, o: Options)
    returns (first: Round, second: Round, defs: Definitions, rule: AlertRule)
    requires ValidServiceId(id) && o.resolvedCapacity > 0
    ensures Run([first, second], [[], [id]], defs, o) && id in defs && defs[id].alertRules == [rule]
    ensures second.Now() < first.Now()
    ensures HeldLong(History([first], id), rule) && HeldLong(History([first, second], id), rule)
    ensures KeyOf(rule) in StateAfter([first], [[]], o).store.active
    ensures KeyOf(rule) !in StateAfter([first, second], [[], [id]], o).store.active
  {
    first, second, defs := FirstRound(id), SecondRound(id), map[id := WatchesHealth(id)];
    rule := WatchesHealth(id).alertRules[0];
    FirstIsRun(id, defs, o);
    BothAreRun(id, defs, o);
    UpHistories(id);
    ActiveIsHistory([first], [[]], defs, o, id, 0);
    ActiveIsHistory([first, second], [[], [id]], defs, o, id, 0);
  }
}

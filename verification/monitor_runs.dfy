/**
 The control loop's invariant over whole runs, and the end-to-end statements about it.
 */
module MonitorRuns {
  import opened Common
  import opened ControlTypes
  import opened Health
  import opened Alerts
  import opened AlertManagement
  import opened AlertDisplay
  import opened MonitorModel
  import opened MonitorTheorems
  import ProcessModel
  import Recovery

  // Recovery, service by service

  lemma {:induction false} NotRecovered(
    r: Recovering, vs: seq<Service>, active: map<Id, AlertEvent>, next: map<Id, HealthStatus>, now: Time, o: Options,
    id: Id)
    requires ActiveOk(active) && forall i :: 0 <= i < |vs| ==> vs[i].Id() in next
    requires NotExamined(vs, id)
    ensures Recovery.TrackedOf(RecoverAll(r, vs, active, next, now, o).tracked, id) == Recovery.TrackedOf(r.tracked, id)
  {
    if vs != [] {
      NotRecovered(r, vs[..|vs| - 1], active, next, now, o, id);
    }
  }

  lemma {:induction false} RecoveredAt(
    r: Recovering, vs: seq<Service>, active: map<Id, AlertEvent>, next: map<Id, HealthStatus>, now: Time, o: Options,
    k: nat)
    requires ActiveOk(active) && forall i :: 0 <= i < |vs| ==> vs[i].Id() in next
    requires k < |vs| && vs[k].supervised && ListedOnce(vs)
    ensures var t := Recovery.TrackedOf(r.tracked, vs[k].Id());
            var c := CallOf(vs[k], active, next[vs[k].Id()], now);
            var r' := RecoverAll(r, vs, active, next, now, o);
      && Recovery.TrackedOf(r'.tracked, vs[k].Id()) == Recovery.Track(t, c, o.cooldown)
      && r'.operations[|r.operations| + k] == Recovery.StepOf(t.state, c, o.cooldown).operation
  {
    var n := |vs| - 1;
    if k < n {
      RecoveredAt(r, vs[..n], active, next, now, o, k);
      assert vs[..n][k] == vs[k];
      RecoverOther(RecoverAll(r, vs[..n], active, next, now, o), vs[n], active, next[vs[n].Id()], now, o, vs[k].Id());
    } else {
      RecoveredLast(r, vs, active, next, now, o);
    }
  }

  lemma RecoveredLast(
    r: Recovering, vs: seq<Service>, active: map<Id, AlertEvent>, next: map<Id, HealthStatus>, now: Time, o: Options)
    requires ActiveOk(active) && forall i :: 0 <= i < |vs| ==> vs[i].Id() in next
    requires vs != [] && vs[|vs| - 1].supervised && ListedOnce(vs)
    ensures var v := vs[|vs| - 1];
            var t := Recovery.TrackedOf(r.tracked, v.Id());
            var c := CallOf(v, active, next[v.Id()], now);
            var r' := RecoverAll(r, vs, active, next, now, o);
      && Recovery.TrackedOf(r'.tracked, v.Id()) == Recovery.Track(t, c, o.cooldown)
      && r'.operations[|r.operations| + |vs| - 1] == Recovery.StepOf(t.state, c, o.cooldown).operation
  {
    NotRecovered(r, vs[..|vs| - 1], active, next, now, o, vs[|vs| - 1].Id());
  }

  lemma RecoverOther(
    r: Recovering, v: Service, active: map<Id, AlertEvent>, health: HealthStatus, now: Time, o: Options, id: Id)
    requires ActiveOk(active) && v.Id() != id
    ensures var r' := Recover(r, v, active, health, now, o);
      && Recovery.TrackedOf(r'.tracked, id) == Recovery.TrackedOf(r.tracked, id)
      && |r'.operations| == |r.operations| + 1 && r'.operations[..|r.operations|] == r.operations
  {
  }

  // Forgetting, service by service

  /** Nothing is remembered of the service. */
  ghost predicate Blank(s: State, d: ServiceDefinition) {
    && CounterOf(s.failures, d.id) == 0 && Recovery.TrackedOf(s.tracked, d.id) == Recovery.FreshTracked
    && (forall i :: 0 <= i < |d.alertRules| ==> StartOf(s.starts, KeyOf(d.alertRules[i])) == None)
    && (forall k :: k in s.store.active ==> s.store.active[k].serviceId != d.id)
  }

  /** The same is remembered of the service. */
  ghost predicate Alike(s: State, t: State, d: ServiceDefinition) {
    && CounterOf(s.failures, d.id) == CounterOf(t.failures, d.id)
    && Recovery.TrackedOf(s.tracked, d.id) == Recovery.TrackedOf(t.tracked, d.id)
    && (forall i :: 0 <= i < |d.alertRules| ==>
          StartOf(s.starts, KeyOf(d.alertRules[i])) == StartOf(t.starts, KeyOf(d.alertRules[i])))
    && (forall k :: k in s.store.active && s.store.active[k].serviceId == d.id ==>
          k in t.store.active && t.store.active[k] == s.store.active[k])
    && (forall k :: k in t.store.active && t.store.active[k].serviceId == d.id ==>
          k in s.store.active && s.store.active[k] == t.store.active[k])
  }

  lemma ForgottenStarts(m: Starts, id: Id, d: ServiceDefinition, i: nat)
    requires d.Valid() && i < |d.alertRules|
    ensures StartOf(Forgotten(m, id), KeyOf(d.alertRules[i])) ==
            if id == d.id then None else StartOf(m, KeyOf(d.alertRules[i]))
  {
    assert d.alertRules[i].serviceId == d.id;
    PrefixIsService(d.id, d.alertRules[i].id, id);
  }

  lemma ForgetOther(s: State, id: Id, d: ServiceDefinition)
    requires d.Valid() && id != d.id
    ensures Alike(ForgetOne(s, id), s, d)
  {
    forall i | 0 <= i < |d.alertRules|
      ensures StartOf(Forgotten(s.starts, id), KeyOf(d.alertRules[i])) == StartOf(s.starts, KeyOf(d.alertRules[i]))
    {
      ForgottenStarts(s.starts, id, d, i);
    }
  }

  lemma ForgetThis(s: State, d: ServiceDefinition)
    requires d.Valid()
    ensures Blank(ForgetOne(s, d.id), d)
  {
    forall i | 0 <= i < |d.alertRules|
      ensures StartOf(Forgotten(s.starts, d.id), KeyOf(d.alertRules[i])) == None
    {
      ForgottenStarts(s.starts, d.id, d, i);
    }
  }

  lemma {:induction false} ForgetUnseenKeeps(s: State, ids: seq<Id>, seen: set<Id>, d: ServiceDefinition)
    requires d.Valid() && (d.id !in ids || d.id in seen)
    ensures Alike(ForgetUnseen(s, ids, seen), s, d)
  {
    if ids != [] {
      var n := |ids| - 1;
      assert ids[n] in ids;
      ForgetUnseenKeeps(s, ids[..n], seen, d);
      if ids[n] !in seen {
        ForgetOther(ForgetUnseen(s, ids[..n], seen), ids[n], d);
      }
    }
  }

  lemma {:induction false} ForgetUnseenBlanks(s: State, ids: seq<Id>, seen: set<Id>, d: ServiceDefinition)
    requires d.Valid() && d.id in ids && d.id !in seen
    ensures Blank(ForgetUnseen(s, ids, seen), d)
  {
    var n := |ids| - 1;
    if ids[n] == d.id {
      ForgetThis(ForgetUnseen(s, ids[..n], seen), d);
    } else {
      assert d.id in ids[..n];
      ForgetUnseenBlanks(s, ids[..n], seen, d);
      if ids[n] !in seen {
        ForgetOther(ForgetUnseen(s, ids[..n], seen), ids[n], d);
      }
    }
  }

  lemma {:induction false} ForgetUnseenOk(s: State, ids: seq<Id>, seen: set<Id>, o: Options)
    requires StateOk(s, o)
    ensures StateOk(ForgetUnseen(s, ids, seen), o)
  {
    if ids != [] {
      var n := |ids| - 1;
      ForgetUnseenOk(s, ids[..n], seen, o);
      if ids[n] !in seen {
        ForgetKeepsOk(ForgetUnseen(s, ids[..n], seen).store, ids[n], o.resolvedCapacity);
      }
    }
  }

  // The invariant

  /** All that is remembered of a service is a function of its history. */
  ghost predicate Matches(s: State, d: ServiceDefinition, h: seq<Observation>, o: Options) {
    && CounterMatches(s.failures, d.id, h) && StartsMatch(s.starts, d, h) && AlertsMatch(s.store.active, d, h)
    && Recovery.HistoryOk(Recovery.TrackedOf(s.tracked, d.id), d.policy, o.cooldown)
  }

  /** The state of a round before forgetting. */
  ghost function BeforeForgetting(s: State, r: Round, o: Options): State
    requires StateOk(s, o) && o.resolvedCapacity > 0
  {
    var p := ExaminedIn(s, r);
    var x := RecoveredIn(s, r, o);
    State(p.failures, p.starts, StoreIn(s, r, o), x.tracked, x.events, s.latest)
  }

  lemma BlankMatches(s: State, d: ServiceDefinition, o: Options)
    requires Blank(s, d)
    ensures Matches(s, d, [], o)
  {
    assert CounterMatches(s.failures, d.id, []);
    assert StartsMatch(s.starts, d, []);
    assert AlertsMatch(s.store.active, d, []);
    Recovery.FreshIsOk(d.policy, o.cooldown);
  }

  lemma AlikeMatches(s: State, t: State, d: ServiceDefinition, h: seq<Observation>, o: Options)
    requires Alike(s, t, d) && Matches(t, d, h, o)
    ensures Matches(s, d, h, o)
  {
  }

  /** The calls of the recovery manager in one round, by service. */
  ghost function CallIn(s: State, r: Round, k: nat, o: Options): Recovery.Call
    requires StateOk(s, o) && o.resolvedCapacity > 0 && k < |r.services| && r.services[k].Id() in ExaminedIn(s, r).next
  {
    ApplyAllKeepsOk(s.store, ExaminedIn(s, r).evaluations, o.resolvedCapacity);
    CallOf(r.services[k], StoreIn(s, r, o).active, ExaminedIn(s, r).next[r.services[k].Id()], r.Now())
  }

  lemma AllNext(s: State, r: Round)
    ensures forall i :: 0 <= i < |r.services| ==> r.services[i].Id() in ExaminedIn(s, r).next
    ensures ExaminedIn(s, r).next.Keys == SeenIds(r.services)
  {
    ExaminedNext(Start(s), r.services, r.Now());
  }

  lemma RecoveredService(s: State, r: Round, k: nat, o: Options)
    requires StateOk(s, o) && o.resolvedCapacity > 0 && ListedOnce(r.services)
    requires k < |r.services| && r.services[k].supervised && r.services[k].Id() in ExaminedIn(s, r).next
    ensures var t := Recovery.TrackedOf(s.tracked, r.services[k].Id());
            var c := CallIn(s, r, k, o);
      && Recovery.TrackedOf(RecoveredIn(s, r, o).tracked, r.services[k].Id()) == Recovery.Track(t, c, o.cooldown)
      && RecoveredIn(s, r, o).operations[k] == Recovery.StepOf(t.state, c, o.cooldown).operation
  {
    AllNext(s, r);
    ApplyAllKeepsOk(s.store, ExaminedIn(s, r).evaluations, o.resolvedCapacity);
    var active, next := StoreIn(s, r, o).active, ExaminedIn(s, r).next;
    RecoveredAt(Recovering(s.tracked, s.events, []), r.services, active, next, r.Now(), o, k);
  }

  lemma RecoveryKeepsHistory(t: Recovery.Tracked, c: Recovery.Call, cooldown: nat)
    requires Recovery.HistoryOk(t, c.definition.policy, cooldown)
    ensures Recovery.HistoryOk(Recovery.Track(t, c, cooldown), c.definition.policy, cooldown)
  {
    if Recovery.Judge(Recovery.Seen(t.state, c), c).Restart? {
      Recovery.AttemptKeepsOk(t, c, cooldown);
    } else {
      Recovery.SuppressionKeepsOk(t, c, cooldown);
    }
  }

  lemma BelongValid(es: seq<Evaluation>, vs: seq<Service>)
    requires Belong(es, vs) && AllValid(vs)
    ensures forall e :: 0 <= e < |es| ==> ValidServiceId(es[e].serviceId)
  {
    forall e | 0 <= e < |es|
      ensures ValidServiceId(es[e].serviceId)
    {
      assert BelongsTo(es[e], vs);
    }
  }

  lemma ExaminedMatches(s: State, r: Round, k: nat, h: seq<Observation>, o: Options)
    requires StateOk(s, o) && o.resolvedCapacity > 0 && ListedOnce(r.services) && AllValid(r.services)
    requires k < |r.services| && r.services[k].supervised && Matches(s, r.services[k].definition, h, o)
    ensures Matches(BeforeForgetting(s, r, o), r.services[k].definition, h + [Observation(r.Now(), r.services[k])], o)
    ensures r.services[k].Id() in ExaminedIn(s, r).next
    ensures ExaminedIn(s, r).next[r.services[k].Id()].state == HealthAfter(h + [Observation(r.Now(), r.services[k])])
  {
    var d := r.services[k].definition;
    var h' := h + [Observation(r.Now(), r.services[k])];
    var es := ExaminedIn(s, r).evaluations;
    ExaminedAt(Start(s), r.services, r.Now(), r.services[k], h);
    EvaluationsBelong(Start(s), r.services, r.Now());
    EvaluationsOfService(Start(s), r.services, r.Now(), r.services[k], h);
    BelongValid(es, r.services);
    BatchMatches(s.store, es, o.resolvedCapacity, d, h, h');
    RecoveredService(s, r, k, o);
    RecoveryKeepsHistory(Recovery.TrackedOf(s.tracked, d.id), CallIn(s, r, k, o), o.cooldown);
  }

  lemma UntouchedMatches(s: State, r: Round, d: ServiceDefinition, h: seq<Observation>, o: Options)
    requires StateOk(s, o) && o.resolvedCapacity > 0 && ListedOnce(r.services) && AllValid(r.services)
    requires d.Valid() && NotExamined(r.services, d.id) && Matches(s, d, h, o)
    ensures Matches(BeforeForgetting(s, r, o), d, h, o)
  {
    var es := ExaminedIn(s, r).evaluations;
    NotExaminedMatches(Start(s), r.services, r.Now(), d, h);
    EvaluationsBelong(Start(s), r.services, r.Now());
    AllNext(s, r);
    ApplyAllKeepsOk(s.store, es, o.resolvedCapacity);
    var active, next := StoreIn(s, r, o).active, ExaminedIn(s, r).next;
    NotRecovered(Recovering(s.tracked, s.events, []), r.services, active, next, r.Now(), o, d.id);
    UntouchedAlerts(s.store, es, r.services, o.resolvedCapacity, d, h);
  }

  lemma UntouchedAlerts(
    s: Store, es: seq<Evaluation>, vs: seq<Service>, capacity: nat, d: ServiceDefinition, h: seq<Observation>)
    requires StoreOk(s, capacity) && capacity > 0 && AllValid(vs) && Belong(es, vs) && NotExamined(vs, d.id)
    requires AlertsMatch(s.active, d, h)
    ensures AlertsMatch(ApplyAll(s, es, capacity).active, d, h)
  {
    ApplyAllKeepsOk(s, es, capacity);
    var active := ApplyAll(s, es, capacity).active;
    forall k | k in active && active[k].serviceId == d.id
      ensures k in s.active && s.active[k] == active[k]
    {
      forall e | 0 <= e < |es|
        ensures MakeKey(es[e].serviceId, es[e].ruleId) != k
      {
        assert BelongsTo(es[e], vs);
        if MakeKey(es[e].serviceId, es[e].ruleId) == k {
          KeyInjective(active[k].serviceId, active[k].ruleId, es[e].serviceId, es[e].ruleId);
        }
      }
      ApplyAllElsewhere(s, es, capacity, k);
    }
  }

  // Runs

  lemma CheckedOk(s: State, r: Round, order: seq<Id>, o: Options)
    requires StateOk(s, o) && o.resolvedCapacity > 0
    ensures StateOk(Checked(s, r, order, o), o)
    ensures Checked(s, r, order, o).latest.Keys == SeenIds(r.services)
  {
    ApplyAllKeepsOk(s.store, ExaminedIn(s, r).evaluations, o.resolvedCapacity);
    ForgetUnseenOk(BeforeForgetting(s, r, o), order, SeenIds(r.services), o);
    AllNext(s, r);
  }

  /** The state after some rounds; each walks the previous table in some order. */
  ghost function StateAfter(rs: seq<Round>, orders: seq<seq<Id>>, o: Options): (s: State)
    requires |orders| == |rs| && o.resolvedCapacity > 0
    ensures StateOk(s, o)
  {
    if rs == [] then InitialState
    else
      var n := |rs| - 1;
      CheckedOk(StateAfter(rs[..n], orders[..n], o), rs[n], orders[n], o);
      Checked(StateAfter(rs[..n], orders[..n], o), rs[n], orders[n], o)
  }

  ghost predicate DefinitionsOk(defs: Definitions) {
    forall id :: id in defs ==> defs[id].id == id && defs[id].Valid()
  }

  /** The round lists registered services, and its order is that of the table then. */
  ghost predicate RoundAt(rs: seq<Round>, orders: seq<seq<Id>>, defs: Definitions, o: Options, i: nat)
    requires i < |rs| == |orders| && o.resolvedCapacity > 0
  {
    RoundOk(rs[i], defs) && Enumerates(orders[i], StateAfter(rs[..i], orders[..i], o).latest.Keys)
  }

  ghost predicate Run(rs: seq<Round>, orders: seq<seq<Id>>, defs: Definitions, o: Options) {
    && o.resolvedCapacity > 0 && |orders| == |rs| && DefinitionsOk(defs)
    && forall i :: 0 <= i < |rs| ==> RoundAt(rs, orders, defs, o, i)
  }

  lemma RunPrefix(rs: seq<Round>, orders: seq<seq<Id>>, defs: Definitions, o: Options, n: nat)
    requires Run(rs, orders, defs, o) && n <= |rs|
    ensures Run(rs[..n], orders[..n], defs, o)
  {
    forall i | 0 <= i < n
      ensures RoundAt(rs[..n], orders[..n], defs, o, i)
    {
      assert RoundAt(rs, orders, defs, o, i);
      assert rs[..n][..i] == rs[..i] && orders[..n][..i] == orders[..i];
    }
  }

  lemma EndOfRun(rs: seq<Round>, orders: seq<seq<Id>>, defs: Definitions, o: Options)
    requires Run(rs, orders, defs, o) && rs != []
    ensures var n := |rs| - 1;
      && Run(rs[..n], orders[..n], defs, o) && RoundOk(rs[n], defs)
      && Enumerates(orders[n], StateAfter(rs[..n], orders[..n], o).latest.Keys)
      && StateAfter(rs, orders, o) == Checked(StateAfter(rs[..n], orders[..n], o), rs[n], orders[n], o)
  {
    RunPrefix(rs, orders, defs, o, |rs| - 1);
    assert RoundAt(rs, orders, defs, o, |rs| - 1);
  }

  lemma RunExtends(
    rs: seq<Round>, orders: seq<seq<Id>>, defs: Definitions, o: Options, r: Round, order: seq<Id>)
    requires Run(rs, orders, defs, o) && RoundOk(r, defs)
    requires Enumerates(order, StateAfter(rs, orders, o).latest.Keys)
    ensures Run(rs + [r], orders + [order], defs, o)
  {
    var rs', orders' := rs + [r], orders + [order];
    forall i | 0 <= i < |rs'|
      ensures RoundAt(rs', orders', defs, o, i)
    {
      assert rs'[..i] == rs[..i] && orders'[..i] == orders[..i];
      if i < |rs| {
        assert RoundAt(rs, orders, defs, o, i);
      } else {
        assert rs[..i] == rs && orders[..i] == orders;
      }
    }
  }

  lemma LatestIsListed(rs: seq<Round>, orders: seq<seq<Id>>, o: Options)
    requires |orders| == |rs| > 0 && o.resolvedCapacity > 0
    ensures StateAfter(rs, orders, o).latest.Keys == SeenIds(rs[|rs| - 1].services)
  {
    var n := |rs| - 1;
    CheckedOk(StateAfter(rs[..n], orders[..n], o), rs[n], orders[n], o);
  }

  lemma StepMatches(
    s: State, r: Round, order: seq<Id>, defs: Definitions, o: Options, d: ServiceDefinition, h: seq<Observation>)
    requires StateOk(s, o) && o.resolvedCapacity > 0 && DefinitionsOk(defs) && RoundOk(r, defs)
    requires Enumerates(order, s.latest.Keys) && d.id in defs && defs[d.id] == d
    requires Matches(s, d, h, o) && (d.id !in s.latest ==> h == [])
    ensures Matches(Checked(s, r, order, o), d, Extend(h, r, d.id), o)
    ensures d.id !in Checked(s, r, order, o).latest ==> Extend(h, r, d.id) == []
  {
    CheckedOk(s, r, order, o);
    AddedMatches(s, r, o, d, h);
    var t := ForgetUnseen(BeforeForgetting(s, r, o), order, SeenIds(r.services));
    ForgettingMatches(BeforeForgetting(s, r, o), order, SeenIds(r.services), o, d, Added(h, r, d.id));
    ForgottenHistory(h, r, d.id, d.id in order);
    LatestIsFree(t, Checked(s, r, order, o), d, Extend(h, r, d.id), o);
  }

  lemma ForgottenHistory(h: seq<Observation>, r: Round, id: Id, known: bool)
    requires !known ==> h == []
    ensures Extend(h, r, id) == if known && id !in SeenIds(r.services) then [] else Added(h, r, id)
  {
  }

  lemma LatestIsFree(t: State, u: State, d: ServiceDefinition, h: seq<Observation>, o: Options)
    requires u == t.(latest := u.latest) && Matches(t, d, h, o)
    ensures Matches(u, d, h, o)
  {
  }

  /** The history with the round's observation, before forgetting. */
  ghost function Added(h: seq<Observation>, r: Round, id: Id): seq<Observation> {
    var i := IndexOf(r.services, id);
    if i < |r.services| && r.services[i].supervised then h + [Observation(r.Now(), r.services[i])] else h
  }

  lemma AddedMatches(s: State, r: Round, o: Options, d: ServiceDefinition, h: seq<Observation>)
    requires StateOk(s, o) && o.resolvedCapacity > 0 && ListedOnce(r.services) && AllValid(r.services) && d.Valid()
    requires forall i :: 0 <= i < |r.services| && r.services[i].Id() == d.id ==> r.services[i].definition == d
    requires Matches(s, d, h, o)
    ensures Matches(BeforeForgetting(s, r, o), d, Added(h, r, d.id), o)
  {
    var i := IndexOf(r.services, d.id);
    if i < |r.services| && r.services[i].supervised {
      ExaminedMatches(s, r, i, h, o);
    } else {
      OnlyUnsupervised(r.services, d.id, i);
      UntouchedMatches(s, r, d, h, o);
      assert Added(h, r, d.id) == h;
    }
  }

  lemma OnlyUnsupervised(vs: seq<Service>, id: Id, k: nat)
    requires ListedOnce(vs) && k <= |vs| && (k == |vs| ==> id !in SeenIds(vs))
    requires k < |vs| ==> vs[k].Id() == id && !vs[k].supervised
    ensures NotExamined(vs, id)
  {
    forall i | 0 <= i < |vs| && vs[i].Id() == id
      ensures !vs[i].supervised
    {
      assert id in SeenIds(vs);
      assert i == k;
    }
  }

  lemma ForgettingMatches(
    t: State, order: seq<Id>, seen: set<Id>, o: Options, d: ServiceDefinition, h: seq<Observation>)
    requires d.Valid() && Matches(t, d, h, o)
    ensures Matches(ForgetUnseen(t, order, seen), d, if d.id in order && d.id !in seen then [] else h, o)
  {
    if d.id in order && d.id !in seen {
      ForgetUnseenBlanks(t, order, seen, d);
      BlankMatches(ForgetUnseen(t, order, seen), d, o);
    } else {
      ForgetUnseenKeeps(t, order, seen, d);
      AlikeMatches(ForgetUnseen(t, order, seen), t, d, h, o);
    }
  }

  /** In every run, all that the loop remembers of a service is a function of the service's
      observations since it was last missing: the failure counter, the start of every rule's
      condition, the alerts that may be active and the restart history. */
  lemma {:induction false} StateIsHistory(rs: seq<Round>, orders: seq<seq<Id>>, defs: Definitions, o: Options, id: Id)
    requires Run(rs, orders, defs, o) && id in defs
    ensures var s := StateAfter(rs, orders, o);
      Matches(s, defs[id], History(rs, id), o) && (id !in s.latest ==> History(rs, id) == [])
  {
    if rs == [] {
      BlankMatches(InitialState, defs[id], o);
    } else {
      var n := |rs| - 1;
      EndOfRun(rs, orders, defs, o);
      StateIsHistory(rs[..n], orders[..n], defs, o, id);
      StepMatches(StateAfter(rs[..n], orders[..n], o), rs[n], orders[n], defs, o, defs[id], History(rs[..n], id));
    }
  }

  // Why a service was restarted

  /** The last observations, as many as the threshold asks for, all found a process check
      failing. */
  predicate LongDown(h: seq<Observation>, d: ServiceDefinition) {
    var t := Threshold(d.healthCheck);
    t <= |h| && forall i :: |h| - t <= i < |h| ==> Failing(h[i].v.definition.healthCheck, h[i].v.status)
  }

  /** The rule's condition held at every observation from some point on, and that point lies
      at least the rule's duration back. */
  ghost predicate HeldLong(h: seq<Observation>, rule: AlertRule) {
    exists i :: 0 <= i < |h| && HoldsFrom(RuleSamples(h, rule), i) &&
                h[|h| - 1].now - h[i].now >= Duration(rule)
  }

  lemma FiringIff(h: seq<Observation>, rule: AlertRule)
    ensures Firing(h, rule) <==> HeldLong(h, rule)
  {
    if h != [] {
      RuleSamplesLast(h, rule);
      FiresIff(RuleSamples(h, rule));
      forall i | 0 <= i < |h|
        ensures RuleSamples(h, rule)[i].now == h[i].now
      {
        SampleTimes(h, rule, i);
      }
    }
  }

  lemma {:induction false} SampleTimes(h: seq<Observation>, rule: AlertRule, i: nat)
    requires i < |h|
    ensures RuleSamples(h, rule)[i].now == h[i].now && RuleSamples(h, rule)[i].rule == rule
  {
    if i < |h| - 1 {
      SampleTimes(h[..|h| - 1], rule, i);
    }
  }

  lemma UnhealthyIsLongDown(h: seq<Observation>)
    requires h != []
    ensures HealthAfter(h).Unhealthy? <==> LongDown(h, h[|h| - 1].v.definition)
  {
    UnhealthyIff(HealthSamples(h));
  }

  /** The service is down or one of its critical rules has held. */
  ghost predicate Justified(d: ServiceDefinition, h: seq<Observation>) {
    || (d.policy.restartOnUnhealthy && LongDown(h, d))
    || (d.policy.restartOnCriticalAlert &&
        exists i :: 0 <= i < |d.alertRules| && d.alertRules[i].severity.Critical? && HeldLong(h, d.alertRules[i]))
  }

  /** Every restart or start that the loop makes by itself, in any run and by any clock, is
      made for a service that is wanted running, and is justified by the observations
      ending in this round: the service was found down as many times in a row as its
      threshold asks, or the condition of one of its critical rules held without a break
      for the rule's duration. */
  lemma RestartJustified(
    rs: seq<Round>, orders: seq<seq<Id>>, defs: Definitions, o: Options, r: Round, k: nat)
    requires Run(rs, orders, defs, o) && RoundOk(r, defs) && k < |r.services| && r.services[k].supervised
    requires !RecoveredIn(StateAfter(rs, orders, o), r, o).operations[k].NoOperation?
    ensures var d := r.services[k].definition;
            var h := History(rs + [r], d.id);
      && d.policy.enabled && !r.services[k].current.desired.WantStopped?
      && Justified(d, h)
  {
    var d := r.services[k].definition;
    StateIsHistory(rs, orders, defs, o, d.id);
    HistoryGrows(rs, r, k);
    RoundJustified(StateAfter(rs, orders, o), r, k, History(rs, d.id), o);
  }

  lemma HistoryGrows(rs: seq<Round>, r: Round, k: nat)
    requires ListedOnce(r.services) && k < |r.services| && r.services[k].supervised
    ensures History(rs + [r], r.services[k].Id()) ==
            History(rs, r.services[k].Id()) + [Observation(r.Now(), r.services[k])]
  {
    assert (rs + [r])[..|rs|] == rs;
    assert r.services[k].Id() in SeenIds(r.services);
  }

  lemma RoundJustified(s: State, r: Round, k: nat, h: seq<Observation>, o: Options)
    requires StateOk(s, o) && o.resolvedCapacity > 0 && ListedOnce(r.services) && AllValid(r.services)
    requires k < |r.services| && r.services[k].supervised && Matches(s, r.services[k].definition, h, o)
    requires !RecoveredIn(s, r, o).operations[k].NoOperation?
    ensures var d := r.services[k].definition;
      && d.policy.enabled && !r.services[k].current.desired.WantStopped?
      && Justified(d, h + [Observation(r.Now(), r.services[k])])
  {
    ExaminedMatches(s, r, k, h, o);
    RecoveredService(s, r, k, o);
    ApplyAllKeepsOk(s.store, ExaminedIn(s, r).evaluations, o.resolvedCapacity);
    var c := CallIn(s, r, k, o);
    Recovery.ActsOnTrigger(Recovery.TrackedOf(s.tracked, r.services[k].Id()).state, c, o.cooldown);
    TriggerJustified(StoreIn(s, r, o).active, c, h + [Observation(r.Now(), r.services[k])]);
  }

  lemma TriggerJustified(active: map<Id, AlertEvent>, c: Recovery.Call, h: seq<Observation>)
    requires h != [] && h[|h| - 1].v.definition == c.definition && c.health.state == HealthAfter(h)
    requires ActiveOk(active) && c.alerts == DisplayOf(OfService(active, c.definition.id))
    requires AlertsMatch(active, c.definition, h)
    requires Recovery.TriggerOf(c.definition, c.health, c.alerts).Some?
    ensures Justified(c.definition, h)
  {
    var d := c.definition;
    Recovery.TriggerIs(d, c.health, c.alerts);
    UnhealthyIsLongDown(h);
    if !(d.policy.restartOnUnhealthy && c.health.state.Unhealthy?) {
      var i := CriticalRule(active, d, h, c);
      FiringIff(h, d.alertRules[i]);
    }
  }

  /** A service whose threshold is one, wanted running and found down. */
  function Down(id: Id): Service {
    var check := HealthCheck(true, Process, 5, 1000, 1, "", "", 0, "");
    var policy := RecoveryPolicy(true, true, false, 3, 300, 10, 10);
    var down := ServiceStatus(ProcessModel.Exited, ProcessModel.WantRunning, -1);
    Service(ServiceDefinition(id, true, check, [], policy), true, down, None, down, true, "")
  }

  lemma DownIsUnhealthy(v: Service, s: State)
    requires v == Down(v.Id()) && s == InitialState
    ensures v.Id() in ExaminedIn(s, Round(0, [v])).next
    ensures ExaminedIn(s, Round(0, [v])).next[v.Id()].state == Unhealthy
  {
    assert [v][..0] == [];
    assert ExamineAll(Start(s), [v], 0) == Examine(Start(s), v, 0);
  }

  lemma DownIsStarted(v: Service, o: Options)
    requires v == Down(v.Id()) && o.resolvedCapacity > 0
    ensures RecoveredIn(InitialState, Round(0, [v]), o).operations == [Recovery.StartService]
  {
    var r := Round(0, [v]);
    assert r.services == [v];
    DownIsUnhealthy(v, InitialState);
    RecoveredService(InitialState, r, 0, o);
    FirstCallStarts(CallIn(InitialState, r, 0, o), o.cooldown);
  }

  lemma DownIsListed(v: Service)
    requires ValidServiceId(v.Id()) && v == Down(v.Id())
    ensures DefinitionsOk(map[v.Id() := v.definition]) && RoundOk(Round(0, [v]), map[v.Id() := v.definition])
  {
    assert v.definition.Valid();
    assert Round(0, [v]).services[0] == v;
  }

  /** Such a restart does happen: a service whose threshold is one is found down in the very
      first round. */
  lemma RestartCanHappen(id: Id)
    returns (rs: seq<Round>, orders: seq<seq<Id>>, defs: Definitions, o: Options, r: Round)
    requires ValidServiceId(id)
    ensures Run(rs, orders, defs, o) && RoundOk(r, defs) && |r.services| == 1 && r.services[0].supervised
    ensures RecoveredIn(StateAfter(rs, orders, o), r, o).operations == [Recovery.StartService]
  {
    var v := Down(id);
    rs, orders, defs, o, r := [], [], map[id := v.definition], Options(200, 200, 30), Round(0, [v]);
    DownIsListed(v);
    DownIsStarted(v, o);
  }

  lemma FirstCallStarts(c: Recovery.Call, cooldown: nat)
    requires c.definition.policy.enabled && c.definition.policy.Valid() && c.definition.policy.restartOnUnhealthy
    requires c.health.state.Unhealthy? && c.definition.autoStart
    requires c.current.desired.WantRunning? && !c.current.Running()
    ensures Recovery.StepOf(Recovery.FreshState, c, cooldown).operation.StartService?
  {
  }

  lemma CriticalRule(active: map<Id, AlertEvent>, d: ServiceDefinition, h: seq<Observation>, c: Recovery.Call)
    returns (i: nat)
    requires ActiveOk(active) && AlertsMatch(active, d, h) && c.alerts == DisplayOf(OfService(active, d.id))
    requires Recovery.FirstCritical(c.alerts, d.id).Some?
    ensures i < |d.alertRules| && d.alertRules[i].severity.Critical? && Firing(h, d.alertRules[i])
  {
    var e := Recovery.FirstCritical(c.alerts, d.id).value;
    assert e in c.alerts && e.id in OfService(active, d.id);
    i :| 0 <= i < |d.alertRules| && e.id == KeyOf(d.alertRules[i]) &&
         active[e.id].severity == d.alertRules[i].severity && Firing(h, d.alertRules[i]);
  }

  /** Of all restart attempts made since the service was last missing, consecutive ones keep
      their distance, and the window starting at `from` holds no more than allowed. */
  predicate BudgetKept(s: State, d: ServiceDefinition, from: Time) {
    var ever := Recovery.TrackedOf(s.tracked, d.id).ever;
    && Recovery.Spaced(ever, Recovery.Gap(d.policy))
    && Recovery.CountIn(ever, from, from + Recovery.Milliseconds(d.policy.windowSeconds)) <= d.policy.maxRestarts
  }

  /** The restart budget of the whole loop: over any run, by any clock. */
  lemma LoopKeepsBudget(rs: seq<Round>, orders: seq<seq<Id>>, defs: Definitions, o: Options, id: Id, from: Time)
    requires Run(rs, orders, defs, o) && id in defs
    ensures BudgetKept(StateAfter(rs, orders, o), defs[id], from)
  {
    StateIsHistory(rs, orders, defs, o, id);
    MatchesBudget(StateAfter(rs, orders, o), defs[id], History(rs, id), o, from);
  }

  lemma MatchesBudget(s: State, d: ServiceDefinition, h: seq<Observation>, o: Options, from: Time)
    requires Matches(s, d, h, o)
    ensures BudgetKept(s, d, from)
  {
    Recovery.KeepsBudget(Recovery.TrackedOf(s.tracked, d.id), d.policy, o.cooldown, from);
  }

  // The history is what it looks like

  /** If supervisors are always found, the history of a service is its listings in the last
      rounds, without a gap. */
  lemma {:induction false} HistoryIsConsecutive(rs: seq<Round>, id: Id, j: nat)
    requires forall i :: 0 <= i < |rs| ==> ListedOnce(rs[i].services)
    requires forall i, k :: 0 <= i < |rs| && 0 <= k < |rs[i].services| ==> rs[i].services[k].supervised
    requires j < |History(rs, id)|
    ensures |History(rs, id)| <= |rs|
    ensures var r := rs[|rs| - |History(rs, id)| + j];
      History(rs, id)[j].v in r.services && History(rs, id)[j].v.Id() == id && History(rs, id)[j].now == r.Now()
  {
    var n := |rs| - 1;
    var h := History(rs[..n], id);
    if h != [] {
      HistoryIsConsecutive(rs[..n], id, if j < |h| then j else 0);
    }
  }
}

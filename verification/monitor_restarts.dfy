/**
 Which services the control loop restarts in a round: exactly those for which the observations,
 the policy and the attempts made so far say so, by any clock.
 */
module MonitorRestarts {
  import opened Common
  import opened ControlTypes
  import opened Health
  import opened Alerts
  import opened AlertManagement
  import opened AlertDisplay
  import opened MonitorModel
  import opened MonitorTheorems
  import opened MonitorRuns
  import opened MonitorAlerts
  import Recovery
  import RecoveryDecision

  // What the observations are

  /** What a rule is evaluated on at each observation: the metrics of that observation, and the
      health found by it and those before. */
  lemma {:induction false} SampleAt(h: seq<Observation>, rule: AlertRule, j: nat)
    requires j < |h|
    ensures RuleSamples(h, rule)[j] == Sample(rule, h[j].v.metrics, HealthAfter(h[..j + 1]), h[j].now)
  {
    var n := |h| - 1;
    if j < n {
      SampleAt(h[..n], rule, j);
      assert h[..n][..j + 1] == h[..j + 1];
    } else {
      assert h[..j + 1] == h;
    }
  }

  lemma {:induction false} LatestAt(p: Examined, vs: seq<Service>, now: Time, k: nat)
    requires ListedOnce(vs) && k < |vs|
    ensures vs[k].Id() in ExamineAll(p, vs, now).next
    ensures var health := ExamineAll(p, vs, now).next[vs[k].Id()];
      health.serviceId == vs[k].Id() && health.checkedAt == now && (!vs[k].supervised ==> health.state.Unknown?)
  {
    var n := |vs| - 1;
    if k < n {
      LatestAt(p, vs[..n], now, k);
      assert vs[..n][k] == vs[k] && vs[n].Id() != vs[k].Id();
    }
  }

  /** What the loop publishes after a round: one entry for every listed service and no other, of
      this round, with the health that its observations give; unknown if its supervisor was
      not found. */
  lemma LatestIsHealth(
    rs: seq<Round>, orders: seq<seq<Id>>, defs: Definitions, o: Options, r: Round, order: seq<Id>, k: nat)
    requires Run(rs, orders, defs, o) && RoundOk(r, defs) && k < |r.services|
    ensures var latest := Checked(StateAfter(rs, orders, o), r, order, o).latest;
            var v := r.services[k];
      && latest.Keys == SeenIds(r.services) && v.Id() in latest
      && latest[v.Id()].serviceId == v.Id() && latest[v.Id()].checkedAt == r.Now()
      && (v.supervised ==> History(rs + [r], v.Id()) != [] &&
                           latest[v.Id()].state == HealthAfter(History(rs + [r], v.Id())))
      && (!v.supervised ==> latest[v.Id()].state.Unknown?)
  {
    var s := StateAfter(rs, orders, o);
    CheckedOk(s, r, order, o);
    LatestAt(Start(s), r.services, r.Now(), k);
    if r.services[k].supervised {
      StateIsHistory(rs, orders, defs, o, r.services[k].Id());
      HistoryGrows(rs, r, k);
      ExaminedMatches(s, r, k, History(rs, r.services[k].Id()), o);
    }
  }

  // What recovery remembers

  /** Some observation found the service healthy. */
  predicate SeenHealthy(h: seq<Observation>) {
    h != [] && (SeenHealthy(h[..|h| - 1]) || HealthAfter(h).Healthy?)
  }

  lemma SeenGrows(h: seq<Observation>, x: Observation)
    ensures SeenHealthy(h + [x]) <==> SeenHealthy(h) || HealthAfter(h + [x]).Healthy?
  {
    assert (h + [x])[..|h|] == h;
  }

  function Remembered(s: State, id: Id): Recovery.Tracked { Recovery.TrackedOf(s.tracked, id) }

  /** What a round makes of what recovery remembers of an examined service. */
  lemma ExaminedTracked(s: State, r: Round, order: seq<Id>, k: nat, h: seq<Observation>, o: Options)
    requires StateOk(s, o) && o.resolvedCapacity > 0 && ListedOnce(r.services) && AllValid(r.services)
    requires k < |r.services| && r.services[k].supervised && Matches(s, r.services[k].definition, h, o)
    ensures r.services[k].Id() in ExaminedIn(s, r).next
    ensures Remembered(Checked(s, r, order, o), r.services[k].Id()) ==
            Recovery.Track(Remembered(s, r.services[k].Id()), CallIn(s, r, k, o), o.cooldown)
    ensures CallIn(s, r, k, o).health.state == HealthAfter(h + [Observation(r.Now(), r.services[k])])
  {
    var v := r.services[k];
    ExaminedMatches(s, r, k, h, o);
    RecoveredService(s, r, k, o);
    assert v.Id() in SeenIds(r.services);
    ForgetUnseenKeeps(BeforeForgetting(s, r, o), order, SeenIds(r.services), v.definition);
  }

  /** And of one that is not examined. */
  lemma OtherTracked(s: State, r: Round, order: seq<Id>, d: ServiceDefinition, o: Options)
    requires StateOk(s, o) && o.resolvedCapacity > 0 && d.Valid() && NotExamined(r.services, d.id)
    ensures Remembered(Checked(s, r, order, o), d.id) ==
            if d.id in order && d.id !in SeenIds(r.services) then Recovery.FreshTracked else Remembered(s, d.id)
  {
    AllNext(s, r);
    ApplyAllKeepsOk(s.store, ExaminedIn(s, r).evaluations, o.resolvedCapacity);
    var active, next := StoreIn(s, r, o).active, ExaminedIn(s, r).next;
    NotRecovered(Recovering(s.tracked, s.events, []), r.services, active, next, r.Now(), o, d.id);
    if d.id in order && d.id !in SeenIds(r.services) {
      ForgetUnseenBlanks(BeforeForgetting(s, r, o), order, SeenIds(r.services), d);
    } else {
      ForgetUnseenKeeps(BeforeForgetting(s, r, o), order, SeenIds(r.services), d);
    }
  }

  lemma SeenExamined(s: State, r: Round, order: seq<Id>, k: nat, h: seq<Observation>, o: Options)
    requires StateOk(s, o) && o.resolvedCapacity > 0 && ListedOnce(r.services) && AllValid(r.services)
    requires k < |r.services| && r.services[k].supervised && Matches(s, r.services[k].definition, h, o)
    requires Remembered(s, r.services[k].Id()).state.hasSeenHealthy <==> SeenHealthy(h)
    ensures Remembered(Checked(s, r, order, o), r.services[k].Id()).state.hasSeenHealthy <==>
            SeenHealthy(h + [Observation(r.Now(), r.services[k])])
  {
    ExaminedTracked(s, r, order, k, h, o);
    Recovery.SeenGrows(Remembered(s, r.services[k].Id()).state, CallIn(s, r, k, o), o.cooldown);
    SeenGrows(h, Observation(r.Now(), r.services[k]));
  }

  lemma SeenStep(
    s: State, r: Round, order: seq<Id>, defs: Definitions, o: Options, d: ServiceDefinition, h: seq<Observation>)
    requires StateOk(s, o) && o.resolvedCapacity > 0 && DefinitionsOk(defs) && RoundOk(r, defs)
    requires Enumerates(order, s.latest.Keys) && d.id in defs && defs[d.id] == d && d.Valid()
    requires Matches(s, d, h, o) && (d.id !in s.latest ==> h == [])
    requires Remembered(s, d.id).state.hasSeenHealthy <==> SeenHealthy(h)
    ensures Remembered(Checked(s, r, order, o), d.id).state.hasSeenHealthy <==> SeenHealthy(Extend(h, r, d.id))
  {
    var k := IndexOf(r.services, d.id);
    if k == |r.services| {
      SeenUnlisted(s, r, order, d, o);
    } else if r.services[k].supervised {
      SeenExamined(s, r, order, k, h, o);
    } else {
      OnlyUnsupervised(r.services, d.id, k);
      SeenUntouched(s, r, order, d, o);
    }
  }

  lemma SeenUnlisted(s: State, r: Round, order: seq<Id>, d: ServiceDefinition, o: Options)
    requires StateOk(s, o) && o.resolvedCapacity > 0 && d.Valid() && ListedOnce(r.services)
    requires d.id !in SeenIds(r.services) && Enumerates(order, s.latest.Keys)
    requires d.id !in s.latest ==> !Remembered(s, d.id).state.hasSeenHealthy
    ensures !Remembered(Checked(s, r, order, o), d.id).state.hasSeenHealthy
  {
    OnlyUnsupervised(r.services, d.id, |r.services|);
    OtherTracked(s, r, order, d, o);
  }

  lemma SeenUntouched(s: State, r: Round, order: seq<Id>, d: ServiceDefinition, o: Options)
    requires StateOk(s, o) && o.resolvedCapacity > 0 && d.Valid() && NotExamined(r.services, d.id)
    requires d.id in SeenIds(r.services)
    ensures Remembered(Checked(s, r, order, o), d.id) == Remembered(s, d.id)
  {
    OtherTracked(s, r, order, d, o);
  }

  /** In every run recovery knows whether the service was seen healthy since it was last
      missing. */
  lemma {:induction false} SeenAlways(rs: seq<Round>, orders: seq<seq<Id>>, defs: Definitions, o: Options, id: Id)
    requires Run(rs, orders, defs, o) && id in defs
    ensures Remembered(StateAfter(rs, orders, o), id).state.hasSeenHealthy <==> SeenHealthy(History(rs, id))
  {
    if rs != [] {
      var n := |rs| - 1;
      EndOfRun(rs, orders, defs, o);
      SeenAlways(rs[..n], orders[..n], defs, o, id);
      StateIsHistory(rs[..n], orders[..n], defs, o, id);
      SeenStep(StateAfter(rs[..n], orders[..n], o), rs[n], orders[n], defs, o, defs[id], History(rs[..n], id));
    }
  }

  // What asks for recovery

  /** The service has been found down long enough, or one of its critical rules has an active
      alert, and the policy wants that. */
  predicate Triggered(d: ServiceDefinition, h: seq<Observation>) {
    || (d.policy.restartOnUnhealthy && LongDown(h, d))
    || (d.policy.restartOnCriticalAlert &&
        exists i :: 0 <= i < |d.alertRules| && d.alertRules[i].severity.Critical? &&
                    RaisedTime(h, d.alertRules[i]).Some?)
  }

  /** The table of active alerts is what the observations of the service give. */
  ghost predicate AlertsAre(active: map<Id, AlertEvent>, d: ServiceDefinition, h: seq<Observation>) {
    forall i :: 0 <= i < |d.alertRules| ==>
      RaisedIn(active, KeyOf(d.alertRules[i])) == RaisedTime(h, d.alertRules[i])
  }

  /** An active critical alert of the service is that of a critical rule. */
  lemma CriticalIsRaised(active: map<Id, AlertEvent>, d: ServiceDefinition, h: seq<Observation>, e: AlertEvent)
    returns (i: nat)
    requires ActiveOk(active) && AlertsMatch(active, d, h) && AlertsAre(active, d, h)
    requires e in DisplayOf(OfService(active, d.id)) && RecoveryDecision.Asks(e, d.id)
    ensures i < |d.alertRules| && d.alertRules[i].severity.Critical? && RaisedTime(h, d.alertRules[i]).Some?
  {
    assert e.id in active && active[e.id] == e;
    i :| 0 <= i < |d.alertRules| && e.id == KeyOf(d.alertRules[i]) &&
         active[e.id].severity == d.alertRules[i].severity && Firing(h, d.alertRules[i]);
    assert RaisedIn(active, KeyOf(d.alertRules[i])) == RaisedTime(h, d.alertRules[i]);
  }

  lemma RaisedIsCritical(active: map<Id, AlertEvent>, d: ServiceDefinition, h: seq<Observation>, i: nat)
    returns (e: AlertEvent)
    requires ActiveOk(active) && AlertsMatch(active, d, h) && AlertsAre(active, d, h) && d.Valid()
    requires i < |d.alertRules| && d.alertRules[i].severity.Critical? && RaisedTime(h, d.alertRules[i]).Some?
    ensures e in DisplayOf(OfService(active, d.id)) && RecoveryDecision.Asks(e, d.id)
  {
    var key := KeyOf(d.alertRules[i]);
    assert RaisedIn(active, key) == RaisedTime(h, d.alertRules[i]);
    OwnKey(active, d, i);
    e := active[key];
    assert ActiveEntry(key, e);
    var j :| 0 <= j < |d.alertRules| && key == KeyOf(d.alertRules[j]) && e.severity == d.alertRules[j].severity;
    SameRule(d, i, j);
  }

  lemma SameRule(d: ServiceDefinition, i: nat, j: nat)
    requires d.Valid() && i < |d.alertRules| && j < |d.alertRules|
    requires KeyOf(d.alertRules[i]) == KeyOf(d.alertRules[j])
    ensures i == j
  {
    KeyInjective(d.alertRules[i].serviceId, d.alertRules[i].id, d.alertRules[j].serviceId, d.alertRules[j].id);
  }

  lemma WantedIff(active: map<Id, AlertEvent>, c: Recovery.Call, h: seq<Observation>)
    requires h != [] && h[|h| - 1].v.definition == c.definition && c.health.state == HealthAfter(h)
    requires ActiveOk(active) && c.alerts == DisplayOf(OfService(active, c.definition.id))
    requires AlertsMatch(active, c.definition, h) && AlertsAre(active, c.definition, h) && c.definition.Valid()
    ensures RecoveryDecision.Wanted(c.definition, c.health, c.alerts) <==> Triggered(c.definition, h)
  {
    var d := c.definition;
    UnhealthyIsLongDown(h);
    if j :| 0 <= j < |c.alerts| && RecoveryDecision.Asks(c.alerts[j], d.id) {
      var i := CriticalIsRaised(active, d, h, c.alerts[j]);
    }
    if i: nat :| i < |d.alertRules| && d.alertRules[i].severity.Critical? && RaisedTime(h, d.alertRules[i]).Some? {
      var e := RaisedIsCritical(active, d, h, i);
      var j :| 0 <= j < |c.alerts| && c.alerts[j] == e;
    }
  }

  // The round

  /** The alerts of an examined service once the batch is applied. */
  lemma BatchAlerts(s: State, r: Round, v: Service, h: seq<Observation>, o: Options)
    requires StateOk(s, o) && o.resolvedCapacity > 0 && ListedOnce(r.services) && AllValid(r.services)
    requires v in r.services && v.supervised && v.definition.Valid() && Matches(s, v.definition, h, o)
    requires AlertsAre(s.store.active, v.definition, h)
    ensures AlertsAre(StoreIn(s, r, o).active, v.definition, h + [Observation(r.Now(), v)])
  {
    forall i | 0 <= i < |v.definition.alertRules|
      ensures RaisedIn(StoreIn(s, r, o).active, KeyOf(v.definition.alertRules[i])) ==
              RaisedTime(h + [Observation(r.Now(), v)], v.definition.alertRules[i])
    {
      BatchOfRound(s, r, v, i, h, o);
      RaisedGrows(h, Observation(r.Now(), v), v.definition.alertRules[i]);
    }
  }

  /** What decides about the service in this round: its observations including this one, and
      the attempts made so far. */
  ghost predicate Due(v: Service, h: seq<Observation>, ever: seq<Time>, now: Time) {
    && v.definition.policy.enabled && !v.current.desired.WantStopped?
    && Triggered(v.definition, h)
    && (LongDown(h, v.definition) ==> SeenHealthy(h) || v.definition.autoStart)
    && RecoveryDecision.Rested(ever, v.definition.policy, now)
    && RecoveryDecision.AttemptsInWindow(ever, v.definition.policy, now) < v.definition.policy.maxRestarts
  }

  lemma RoundRestarts(s: State, r: Round, k: nat, h: seq<Observation>, o: Options)
    requires StateOk(s, o) && o.resolvedCapacity > 0 && ListedOnce(r.services) && AllValid(r.services)
    requires k < |r.services| && r.services[k].supervised && Matches(s, r.services[k].definition, h, o)
    requires AlertsAre(s.store.active, r.services[k].definition, h)
    requires Remembered(s, r.services[k].Id()).state.hasSeenHealthy <==> SeenHealthy(h)
    ensures var v := r.services[k];
            var h' := h + [Observation(r.Now(), v)];
            var op := RecoveredIn(s, r, o).operations[k];
      && (!op.NoOperation? <==> Due(v, h', Remembered(s, v.Id()).ever, r.Now()))
      && (op.RestartService? ==> v.current.state.Running? && v.current.pid > 0)
      && (op.StartService? ==> !(v.current.state.Running? && v.current.pid > 0))
  {
    RoundCall(s, r, k, h, o);
    assert r.services[k].definition.Valid();
    DueIff(Remembered(s, r.services[k].Id()), CallIn(s, r, k, o), r.services[k], h, o.cooldown);
  }

  /** The call of the recovery manager for an examined service. */
  lemma RoundCall(s: State, r: Round, k: nat, h: seq<Observation>, o: Options)
    requires StateOk(s, o) && o.resolvedCapacity > 0 && ListedOnce(r.services) && AllValid(r.services)
    requires k < |r.services| && r.services[k].supervised && Matches(s, r.services[k].definition, h, o)
    requires AlertsAre(s.store.active, r.services[k].definition, h)
    ensures r.services[k].Id() in ExaminedIn(s, r).next
    ensures var v := r.services[k];
            var h' := h + [Observation(r.Now(), v)];
            var c := CallIn(s, r, k, o);
      && c.definition == v.definition && c.current == v.current && c.now == r.Now()
      && c.health.state == HealthAfter(h')
      && (RecoveryDecision.Wanted(c.definition, c.health, c.alerts) <==> Triggered(v.definition, h'))
      && RecoveredIn(s, r, o).operations[k] ==
         Recovery.StepOf(Remembered(s, v.Id()).state, c, o.cooldown).operation
  {
    ExaminedMatches(s, r, k, h, o);
    RecoveredService(s, r, k, o);
    RoundWanted(s, r, k, h, o);
  }

  lemma RoundWanted(s: State, r: Round, k: nat, h: seq<Observation>, o: Options)
    requires StateOk(s, o) && o.resolvedCapacity > 0 && ListedOnce(r.services) && AllValid(r.services)
    requires k < |r.services| && r.services[k].supervised && Matches(s, r.services[k].definition, h, o)
    requires AlertsAre(s.store.active, r.services[k].definition, h) && r.services[k].Id() in ExaminedIn(s, r).next
    ensures var c := CallIn(s, r, k, o);
      RecoveryDecision.Wanted(c.definition, c.health, c.alerts) <==>
      Triggered(r.services[k].definition, h + [Observation(r.Now(), r.services[k])])
  {
    var v := r.services[k];
    var active := StoreIn(s, r, o).active;
    ExaminedMatches(s, r, k, h, o);
    BatchAlerts(s, r, v, h, o);
    ApplyAllKeepsOk(s.store, ExaminedIn(s, r).evaluations, o.resolvedCapacity);
    var c := CallOf(v, active, ExaminedIn(s, r).next[v.Id()], r.Now());
    WantedIff(active, c, h + [Observation(r.Now(), v)]);
  }

  lemma DueIff(t: Recovery.Tracked, c: Recovery.Call, v: Service, h: seq<Observation>, cooldown: nat)
    requires Recovery.HistoryOk(t, v.definition.policy, cooldown) && v.definition.policy.Valid()
    requires c.definition == v.definition && c.current == v.current
    requires c.health.state == HealthAfter(h + [Observation(c.now, v)])
    requires RecoveryDecision.Wanted(c.definition, c.health, c.alerts) <==>
             Triggered(v.definition, h + [Observation(c.now, v)])
    requires t.state.hasSeenHealthy <==> SeenHealthy(h)
    ensures var op := Recovery.StepOf(t.state, c, cooldown).operation;
      && (!op.NoOperation? <==> Due(v, h + [Observation(c.now, v)], t.ever, c.now))
      && (op.RestartService? ==> v.current.state.Running? && v.current.pid > 0)
      && (op.StartService? ==> !(v.current.state.Running? && v.current.pid > 0))
  {
    RecoveryDecision.ActsIff(t, c, cooldown);
    UnhealthyIsLongDown(h + [Observation(c.now, v)]);
    SeenGrows(h, Observation(c.now, v));
  }

  lemma AlertsAlways(rs: seq<Round>, orders: seq<seq<Id>>, defs: Definitions, o: Options, id: Id)
    requires Run(rs, orders, defs, o) && id in defs
    ensures AlertsAre(StateAfter(rs, orders, o).store.active, defs[id], History(rs, id))
  {
    forall i | 0 <= i < |defs[id].alertRules|
      ensures RaisedIn(StateAfter(rs, orders, o).store.active, KeyOf(defs[id].alertRules[i])) ==
              RaisedTime(History(rs, id), defs[id].alertRules[i])
    {
      ActiveIsHistory(rs, orders, defs, o, id, i);
    }
  }

  /** In every run and by any clock: a service is started or restarted in a round if and only
      if it is wanted running under an enabled policy; it has been found down as often in a
      row as its threshold asks, or one of its critical rules has an active alert, whichever
      the policy names; if it is down, it was seen healthy before or starts automatically;
      backoff and start-up grace after its last attempt are over; and fewer attempts than
      allowed lie within the window. */
  lemma RestartIff(
    rs: seq<Round>, orders: seq<seq<Id>>, defs: Definitions, o: Options, r: Round, k: nat)
    requires Run(rs, orders, defs, o) && RoundOk(r, defs) && k < |r.services| && r.services[k].supervised
    ensures var v := r.services[k];
            var before := StateAfter(rs, orders, o);
            var op := RecoveredIn(before, r, o).operations[k];
      && (!op.NoOperation? <==> Due(v, History(rs + [r], v.Id()), Remembered(before, v.Id()).ever, r.Now()))
      && (op.RestartService? ==> v.current.state.Running? && v.current.pid > 0)
      && (op.StartService? ==> !(v.current.state.Running? && v.current.pid > 0))
  {
    var id := r.services[k].Id();
    StateIsHistory(rs, orders, defs, o, id);
    SeenAlways(rs, orders, defs, o, id);
    AlertsAlways(rs, orders, defs, o, id);
    HistoryGrows(rs, r, k);
    RoundRestarts(StateAfter(rs, orders, o), r, k, History(rs, id), o);
  }

  /** With a clock that does not run backwards the trigger is the justification: the rule has
      held for its duration. */
  lemma TriggeredIsJustified(rs: seq<Round>, defs: Definitions, id: Id)
    requires ClockForward(rs) && id in defs
    ensures Triggered(defs[id], History(rs, id)) <==> Justified(defs[id], History(rs, id))
  {
    var h, d := History(rs, id), defs[id];
    HistoryForward(rs, id, if rs == [] then 0 else rs[|rs| - 1].Now());
    forall i | 0 <= i < |d.alertRules|
      ensures RaisedTime(h, d.alertRules[i]).Some? <==> HeldLong(h, d.alertRules[i])
    {
      RaisedForward(h, d.alertRules[i]);
      FiringIff(h, d.alertRules[i]);
    }
  }

  /** The converse of `RestartJustified`, with such a clock: a service whose restart would be
      justified, and which nothing holds back, is started or restarted in that round. */
  lemma JustifiedIsRestarted(
    rs: seq<Round>, orders: seq<seq<Id>>, defs: Definitions, o: Options, r: Round, k: nat)
    requires Run(rs, orders, defs, o) && RoundOk(r, defs) && k < |r.services| && r.services[k].supervised
    requires ClockForward(rs + [r])
    requires var v, d, h := r.services[k], r.services[k].definition, History(rs + [r], r.services[k].Id());
             var ever := Remembered(StateAfter(rs, orders, o), v.Id()).ever;
      && d.policy.enabled && !v.current.desired.WantStopped? && Justified(d, h)
      && (LongDown(h, d) ==> SeenHealthy(h) || d.autoStart)
      && RecoveryDecision.Rested(ever, d.policy, r.Now())
      && RecoveryDecision.AttemptsInWindow(ever, d.policy, r.Now()) < d.policy.maxRestarts
    ensures !RecoveredIn(StateAfter(rs, orders, o), r, o).operations[k].NoOperation?
  {
    var id := r.services[k].Id();
    assert defs[id] == r.services[k].definition;
    RestartIff(rs, orders, defs, o, r, k);
    TriggeredIsJustified(rs + [r], defs, id);
  }

  /** The attempts that count are those of the rounds that acted since the service was last
      missing. */
  lemma AttemptsGrow(
    rs: seq<Round>, orders: seq<seq<Id>>, defs: Definitions, o: Options, r: Round, order: seq<Id>, k: nat)
    requires Run(rs, orders, defs, o) && RoundOk(r, defs) && k < |r.services| && r.services[k].supervised
    ensures var before := StateAfter(rs, orders, o);
            var id := r.services[k].Id();
      Remembered(Checked(before, r, order, o), id).ever ==
      if RecoveredIn(before, r, o).operations[k].NoOperation? then Remembered(before, id).ever
      else Remembered(before, id).ever + [r.Now()]
  {
    var id := r.services[k].Id();
    StateIsHistory(rs, orders, defs, o, id);
    ExaminedTracked(StateAfter(rs, orders, o), r, order, k, History(rs, id), o);
    RecoveredService(StateAfter(rs, orders, o), r, k, o);
  }
}

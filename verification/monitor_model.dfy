/**
 One round of the control loop: every service is checked and its rules evaluated, the
 alerts are updated, recovery acts on what is active now, and services no longer listed
 are forgotten.
 */
module MonitorModel {
  import opened Common
  import opened ControlTypes
  import opened Health
  import opened Alerts
  import opened AlertManagement
  import opened AlertDisplay
  import Recovery

  /** A listed service and all that the round learns about it: the status in the list, the
      latest metrics, and, when recovery looks again, the supervisor's status and how a
      start or restart would end. `supervised` says whether its supervisor was found. */
  datatype Service = Service(
    definition: ServiceDefinition,
    supervised: bool,
    status: ServiceStatus,
    metrics: Option<ServiceMetrics>,
    current: ServiceStatus,
    succeeded: bool,
    error: string)
  {
    function Id(): Id { definition.id }
  }

  datatype Round = Round(clock: int, services: seq<Service>)
  {
    /** Readings before the epoch count as zero. */
    function Now(): Time { if clock < 0 then 0 else clock }
  }

  datatype Options = Options(resolvedCapacity: nat, eventCapacity: nat, cooldown: nat)

  datatype State = State(
    failures: Failures,
    starts: Starts,
    store: Store,
    tracked: map<Id, Recovery.Tracked>,
    events: seq<Recovery.RecoveryEvent>,
    latest: map<Id, HealthStatus>)

  const InitialState := State(map[], map[], EmptyStore, map[], [], map[])

  // Checks and evaluations

  datatype Examined = Examined(
    failures: Failures, starts: Starts, next: map<Id, HealthStatus>, evaluations: seq<Evaluation>)

  function Unsupervised(id: Id, now: Time): HealthStatus {
    HealthStatus(id, HealthState.Unknown, "service supervisor was not found", 0, now)
  }

  function Examine(p: Examined, v: Service, now: Time): Examined {
    if !v.supervised then p.(next := p.next[v.Id() := Unsupervised(v.Id(), now)])
    else
      var failures := AfterCheck(p.failures, v.definition, v.status);
      var health := StatusAfter(failures, v.definition, v.status, now);
      var xs := Samples(v.definition.alertRules, v.metrics, health.state, now);
      Examined(failures, AfterRules(p.starts, xs), p.next[v.Id() := health], p.evaluations + Evaluations(p.starts, xs))
  }

  function ExamineAll(p: Examined, vs: seq<Service>, now: Time): Examined {
    if vs == [] then p else Examine(ExamineAll(p, vs[..|vs| - 1], now), vs[|vs| - 1], now)
  }

  // Recovery

  datatype Recovering = Recovering(
    tracked: map<Id, Recovery.Tracked>, events: seq<Recovery.RecoveryEvent>, operations: seq<Recovery.Operation>)

  ghost function CallOf(v: Service, active: map<Id, AlertEvent>, health: HealthStatus, now: Time): Recovery.Call
    requires ActiveOk(active)
  {
    Recovery.Call(
      v.definition, health, DisplayOf(OfService(active, v.Id())), now, v.current, v.succeeded, v.error)
  }

  ghost function Recover(
    r: Recovering, v: Service, active: map<Id, AlertEvent>, health: HealthStatus, now: Time, o: Options): Recovering
    requires ActiveOk(active)
  {
    if !v.supervised then r.(operations := r.operations + [Recovery.NoOperation])
    else
      var c := CallOf(v, active, health, now);
      var t := Recovery.TrackedOf(r.tracked, v.Id());
      var step := Recovery.StepOf(t.state, c, o.cooldown);
      Recovering(r.tracked[v.Id() := Recovery.Track(t, c, o.cooldown)],
                 LastOf(r.events + step.events, o.eventCapacity), r.operations + [step.operation])
  }

  ghost function RecoverAll(
    r: Recovering, vs: seq<Service>, active: map<Id, AlertEvent>, next: map<Id, HealthStatus>, now: Time, o: Options)
    : (r': Recovering)
    requires ActiveOk(active) && forall i :: 0 <= i < |vs| ==> vs[i].Id() in next
    ensures |r'.operations| == |r.operations| + |vs|
  {
    if vs == [] then r
    else
      var v := vs[|vs| - 1];
      Recover(RecoverAll(r, vs[..|vs| - 1], active, next, now, o), v, active, next[v.Id()], now, o)
  }

  // Forgetting

  function ForgetOne(s: State, id: Id): State {
    s.(failures := Erase(s.failures, id), starts := Forgotten(s.starts, id), store := Forget(s.store, id),
       tracked := Erase(s.tracked, id), events := Recovery.OtherEvents(s.events, id))
  }

  function ForgetUnseen(s: State, ids: seq<Id>, seen: set<Id>): State {
    if ids == [] then s
    else
      var t := ForgetUnseen(s, ids[..|ids| - 1], seen);
      if ids[|ids| - 1] in seen then t else ForgetOne(t, ids[|ids| - 1])
  }

  // The round

  function SeenIds(vs: seq<Service>): set<Id> { set i | 0 <= i < |vs| :: vs[i].Id() }

  ghost predicate ListedOnce(vs: seq<Service>) {
    forall i, j :: 0 <= i < j < |vs| ==> vs[i].Id() != vs[j].Id()
  }

  lemma {:induction false} ExaminedNext(p: Examined, vs: seq<Service>, now: Time)
    ensures ExamineAll(p, vs, now).next.Keys == p.next.Keys + SeenIds(vs)
  {
    if vs != [] {
      var n := |vs| - 1;
      ExaminedNext(p, vs[..n], now);
      assert SeenIds(vs) == SeenIds(vs[..n]) + {vs[n].Id()} by {
        assert forall i :: 0 <= i < n ==> vs[..n][i] == vs[i];
      }
    }
  }

  ghost predicate StateOk(s: State, o: Options) {
    StoreOk(s.store, o.resolvedCapacity)
  }

  function Start(s: State): Examined { Examined(s.failures, s.starts, map[], []) }

  function ExaminedIn(s: State, r: Round): Examined { ExamineAll(Start(s), r.services, r.Now()) }

  function StoreIn(s: State, r: Round, o: Options): Store {
    ApplyAll(s.store, ExaminedIn(s, r).evaluations, o.resolvedCapacity)
  }

  ghost function RecoveredIn(s: State, r: Round, o: Options): (x: Recovering)
    requires StateOk(s, o) && o.resolvedCapacity > 0
    ensures |x.operations| == |r.services|
  {
    ApplyAllKeepsOk(s.store, ExaminedIn(s, r).evaluations, o.resolvedCapacity);
    ExaminedNext(Start(s), r.services, r.Now());
    var active, next := StoreIn(s, r, o).active, ExaminedIn(s, r).next;
    RecoverAll(Recovering(s.tracked, s.events, []), r.services, active, next, r.Now(), o)
  }

  /** `order` is the order in which the previous round's table of services is walked. */
  ghost function Checked(s: State, r: Round, order: seq<Id>, o: Options): State
    requires StateOk(s, o) && o.resolvedCapacity > 0
  {
    var p := ExaminedIn(s, r);
    var x := RecoveredIn(s, r, o);
    var t := State(p.failures, p.starts, StoreIn(s, r, o), x.tracked, x.events, s.latest);
    ForgetUnseen(t, order, SeenIds(r.services)).(latest := p.next)
  }

  ghost predicate Enumerates(order: seq<Id>, ids: set<Id>) {
    && (forall id :: id in order <==> id in ids)
    && forall i, j :: 0 <= i < j < |order| ==> order[i] != order[j]
  }
}

/**
 Alert events: at most one active alert per rule, and a bounded list of resolved ones.
 */
module AlertManagement {
  import opened Common
  import opened ControlTypes
  import opened Alerts

  datatype AlertState = Active | Resolved

  datatype AlertEvent = AlertEvent(
    id: Id,
    serviceId: Id,
    ruleId: Id,
    severity: Severity,
    state: AlertState,
    message: string,
    firstTriggered: Time,
    lastTriggered: Time,
    resolvedAt: Option<Time>,
    triggerCount: nat,
    acknowledged: bool)
  {
    predicate Valid() {
      && ValidEventId(id) && ValidServiceId(serviceId) && ValidRuleId(ruleId) && message != ""
      && 0 <= firstTriggered <= lastTriggered && triggerCount > 0
      && (state.Active? ==> resolvedAt.None?)
      && (state.Resolved? ==> resolvedAt.Some? && resolvedAt.value >= lastTriggered)
    }
  }

  // One evaluation

  /** What an evaluation does to the alert of its rule. */
  datatype Outcome =
    | Ignored
    | Nothing
    | Created(e: AlertEvent)
    | Updated(e: AlertEvent)
    | Dropped
    | Settled(e: AlertEvent)

  function Opened(x: Evaluation): AlertEvent {
    AlertEvent(MakeKey(x.serviceId, x.ruleId), x.serviceId, x.ruleId, x.severity, Active, x.message,
               x.evaluatedAt, x.evaluatedAt, None, 1, false)
  }

  function Again(e: AlertEvent, x: Evaluation): AlertEvent {
    e.(severity := x.severity, message := x.message, lastTriggered := x.evaluatedAt,
       triggerCount := SaturatingIncrement(e.triggerCount), state := Active, resolvedAt := None)
  }

  function Closed(e: AlertEvent, x: Evaluation): AlertEvent {
    e.(state := Resolved, message := x.message, resolvedAt := Some(x.evaluatedAt))
  }

  function Decide(current: Option<AlertEvent>, x: Evaluation): Outcome {
    if !x.Valid() || !ValidEventId(MakeKey(x.serviceId, x.ruleId)) then Ignored
    else if x.firing then
      match current
      case None => if Opened(x).Valid() then Created(Opened(x)) else Ignored
      case Some(e) => if Again(e, x).Valid() then Updated(Again(e, x)) else Dropped
    else
      match current
      case None => Nothing
      case Some(e) => if Closed(e, x).Valid() then Settled(Closed(e, x)) else Dropped
  }

  /** What an evaluation leaves of an alert. A new one is unacknowledged; a confirmed one keeps
      its identity, when it was raised and its acknowledgement; a resolved one keeps all that
      it told while it was active, and its end is the evaluation's time. */
  lemma OutcomeTells(current: Option<AlertEvent>, x: Evaluation)
    ensures var o := Decide(current, x);
      && (o.Created? ==>
            && o.e.serviceId == x.serviceId && o.e.ruleId == x.ruleId && o.e.id == x.serviceId + ":" + x.ruleId
            && o.e.state.Active? && o.e.firstTriggered == x.evaluatedAt && o.e.triggerCount == 1 && !o.e.acknowledged)
      && (o.Updated? && current.Some? ==>
            && o.e.state.Active? && o.e.resolvedAt.None? && o.e.lastTriggered == x.evaluatedAt
            && o.e == current.value.(severity := x.severity, message := x.message, lastTriggered := x.evaluatedAt,
                                     triggerCount := o.e.triggerCount, state := Active, resolvedAt := None)
            && o.e.triggerCount == (if current.value.triggerCount < 0xFFFF_FFFF then current.value.triggerCount + 1
                                    else current.value.triggerCount))
      && (o.Settled? && current.Some? ==>
            && o.e.state.Resolved? && o.e.resolvedAt == Some(x.evaluatedAt) && o.e.message == x.message
            && o.e.(state := current.value.state, resolvedAt := current.value.resolvedAt,
                    message := current.value.message) == current.value)
  {
  }

  // The whole store

  /** The active alerts by id and the resolved list; the other fields are history: every
      resolution ever, less those of services forgotten since, and how many alerts were
      created, resolved, dropped and forgotten. */
  datatype Store = Store(
    active: map<Id, AlertEvent>,
    resolved: seq<AlertEvent>,
    log: seq<AlertEvent>,
    created: nat,
    settled: nat,
    dropped: nat,
    forgotten: nat)

  const EmptyStore := Store(map[], [], [], 0, 0, 0, 0)

  function Lookup(m: map<Id, AlertEvent>, id: Id): Option<AlertEvent> {
    if id in m then Some(m[id]) else None
  }

  function OutcomeIn(s: Store, x: Evaluation): Outcome {
    Decide(Lookup(s.active, MakeKey(x.serviceId, x.ruleId)), x)
  }

  function Apply(s: Store, x: Evaluation, capacity: nat): Store {
    var key := MakeKey(x.serviceId, x.ruleId);
    match OutcomeIn(s, x)
    case Ignored => s
    case Nothing => s
    case Created(e) => s.(active := s.active[key := e], created := s.created + 1)
    case Updated(e) => s.(active := s.active[key := e])
    case Dropped => s.(active := Erase(s.active, key), dropped := s.dropped + 1)
    case Settled(e) =>
      s.(active := Erase(s.active, key), resolved := LastOf(s.resolved + [e], capacity), log := s.log + [e],
         settled := s.settled + 1)
  }

  function ApplyAll(s: Store, xs: seq<Evaluation>, capacity: nat): Store {
    if xs == [] then s else Apply(ApplyAll(s, xs[..|xs| - 1], capacity), xs[|xs| - 1], capacity)
  }

  function Others(es: seq<AlertEvent>, id: Id): seq<AlertEvent> {
    if es == [] then []
    else Others(es[..|es| - 1], id) + if es[|es| - 1].serviceId == id then [] else [es[|es| - 1]]
  }

  function OthersActive(m: map<Id, AlertEvent>, id: Id): map<Id, AlertEvent> {
    map k | k in m && m[k].serviceId != id :: m[k]
  }

  /** A service's alerts are forgotten, active and resolved. */
  function Forget(s: Store, id: Id): Store {
    var active := OthersActive(s.active, id);
    s.(active := active, resolved := Others(s.resolved, id), log := Others(s.log, id),
       forgotten := s.forgotten + |s.active.Keys - active.Keys|)
  }

  function ForgetAll(s: Store): Store {
    s.(active := map[], resolved := [], log := [], forgotten := s.forgotten + |s.active|)
  }

  /** The position of the first alert with this id. */
  function FindId(es: seq<AlertEvent>, id: Id): (i: nat)
    ensures i <= |es|
    ensures i < |es| ==> es[i].id == id
    ensures forall j :: 0 <= j < i ==> es[j].id != id
  {
    if es == [] || es[0].id == id then 0 else 1 + FindId(es[1..], id)
  }

  /** The active alert is acknowledged, or else the first resolved one with this id. */
  function Acknowledge(s: Store, id: Id): Store {
    if id in s.active then s.(active := s.active[id := s.active[id].(acknowledged := true)])
    else
      var i := FindId(s.resolved, id);
      if i == |s.resolved| then s
      else s.(resolved := s.resolved[i := s.resolved[i].(acknowledged := true)])
  }

  /** Acknowledging marks one alert and changes nothing else: the active alert with the id, or
      else the first resolved one, or none. */
  lemma AcknowledgeIs(s: Store, id: Id)
    ensures var t := Acknowledge(s, id);
      && t == s.(active := t.active, resolved := t.resolved)
      && (id in s.active ==>
            && t.resolved == s.resolved && t.active.Keys == s.active.Keys
            && t.active[id] == s.active[id].(acknowledged := true)
            && forall k :: k in s.active && k != id ==> t.active[k] == s.active[k])
      && (id !in s.active ==> t.active == s.active && |t.resolved| == |s.resolved|)
      && (id !in s.active ==> forall i :: 0 <= i < |s.resolved| ==>
            t.resolved[i] ==
            if s.resolved[i].id == id && forall j :: 0 <= j < i ==> s.resolved[j].id != id
            then s.resolved[i].(acknowledged := true) else s.resolved[i])
  {
  }

  // What one batch reports

  datatype Update = Update(
    created: seq<AlertEvent>, updated: seq<AlertEvent>, resolved: seq<AlertEvent>, ignored: nat)

  function Reported(u: Update, o: Outcome): Update {
    match o
    case Nothing => u
    case Ignored => u.(ignored := u.ignored + 1)
    case Dropped => u.(ignored := u.ignored + 1)
    case Created(e) => u.(created := u.created + [e])
    case Updated(e) => u.(updated := u.updated + [e])
    case Settled(e) => u.(resolved := u.resolved + [e])
  }

  function Report(s: Store, xs: seq<Evaluation>, capacity: nat): Update {
    if xs == [] then Update([], [], [], 0)
    else
      var n := |xs| - 1;
      Reported(Report(s, xs[..n], capacity), OutcomeIn(ApplyAll(s, xs[..n], capacity), xs[n]))
  }

  /** The report agrees with what happened to the store: it lists as many new alerts as were
      created, and exactly the resolutions that went to the log; everything else that was
      dropped is counted as ignored. */
  lemma {:induction false} ReportMatchesStore(s: Store, xs: seq<Evaluation>, capacity: nat)
    ensures var u, t := Report(s, xs, capacity), ApplyAll(s, xs, capacity);
      && t.log == s.log + u.resolved && |u.resolved| == t.settled - s.settled
      && |u.created| == t.created - s.created && u.ignored >= t.dropped - s.dropped >= 0
  {
    if xs != [] {
      var n := |xs| - 1;
      ReportMatchesStore(s, xs[..n], capacity);
      ReportStep(s, Report(s, xs[..n], capacity), ApplyAll(s, xs[..n], capacity), xs[n], capacity);
    }
  }

  lemma ReportStep(s: Store, u: Update, t: Store, x: Evaluation, capacity: nat)
    requires t.log == s.log + u.resolved && |u.resolved| == t.settled - s.settled
    requires |u.created| == t.created - s.created && u.ignored >= t.dropped - s.dropped >= 0
    ensures var u', t' := Reported(u, OutcomeIn(t, x)), Apply(t, x, capacity);
      && t'.log == s.log + u'.resolved && |u'.resolved| == t'.settled - s.settled
      && |u'.created| == t'.created - s.created && u'.ignored >= t'.dropped - s.dropped >= 0
  {
    match OutcomeIn(t, x)
    case Settled(e) => Regrouped(s.log, u.resolved, [e]);
    case _ =>
  }

  // Invariants

  predicate ActiveEntry(key: Id, e: AlertEvent) {
    e.id == key == MakeKey(e.serviceId, e.ruleId) && e.Valid() && e.state.Active?
  }

  predicate ResolvedEntry(e: AlertEvent) {
    e.id == MakeKey(e.serviceId, e.ruleId) && e.Valid() && e.state.Resolved?
  }

  /** Every active alert is stored under its own id and well formed. */
  ghost predicate ActiveOk(m: map<Id, AlertEvent>) {
    forall k :: k in m ==> ActiveEntry(k, m[k])
  }

  ghost predicate ResolvedOk(es: seq<AlertEvent>) {
    forall i :: 0 <= i < |es| ==> ResolvedEntry(es[i])
  }

  predicate SameButAck(a: AlertEvent, b: AlertEvent) {
    a.(acknowledged := false) == b.(acknowledged := false)
  }

  /** `es` is the end of `log`, acknowledgements aside. */
  ghost predicate SuffixOf(es: seq<AlertEvent>, log: seq<AlertEvent>) {
    |es| <= |log| && forall i :: 0 <= i < |es| ==> SameButAck(es[i], log[|log| - |es| + i])
  }

  ghost predicate StoreOk(s: Store, capacity: nat) {
    && ActiveOk(s.active) && ResolvedOk(s.resolved)
    && s.created == |s.active| + s.settled + s.dropped + s.forgotten
    && SuffixOf(s.resolved, s.log) && |s.resolved| <= capacity
  }

  lemma DecideOk(current: Option<AlertEvent>, x: Evaluation)
    requires current.Some? ==>
      && current.value.id == MakeKey(x.serviceId, x.ruleId) && current.value.Valid() && current.value.state.Active?
      && current.value.serviceId == x.serviceId && current.value.ruleId == x.ruleId
    ensures var o := Decide(current, x);
      && (o.Created? || o.Updated? || o.Settled? ==>
            && o.e.Valid() && o.e.id == MakeKey(x.serviceId, x.ruleId)
            && o.e.serviceId == x.serviceId && o.e.ruleId == x.ruleId)
      && (o.Created? || o.Updated? ==> o.e.state.Active?)
      && (o.Created? ==> current.None?)
      && (o.Updated? || o.Settled? || o.Dropped? ==> current.Some?)
      && (o.Settled? ==> o.e.state.Resolved?)
  {
  }

  /** Of a valid evaluation by any clock: afterwards the alert is active exactly if the rule
      fires, unless the clock has gone back behind the moment the alert was first raised. */
  lemma ActiveAfterIff(current: Option<AlertEvent>, x: Evaluation)
    requires x.Valid()
    requires current.Some? ==>
      current.value.id == MakeKey(x.serviceId, x.ruleId) && current.value.Valid() && current.value.state.Active?
    ensures var o := Decide(current, x);
      && !o.Ignored?
      && (o.Created? || o.Updated? <==>
            x.firing && (current.Some? ==> current.value.firstTriggered <= x.evaluatedAt))
      && (o.Dropped? <==>
            && current.Some?
            && x.evaluatedAt < if x.firing then current.value.firstTriggered else current.value.lastTriggered)
  {
    KeyIsValidEventId(x.serviceId, x.ruleId);
  }

  lemma Stored(m: map<Id, AlertEvent>, key: Id, e: AlertEvent)
    requires ActiveOk(m) && ActiveEntry(key, e)
    ensures ActiveOk(m[key := e]) && |m[key := e]| == if key in m then |m| else |m| + 1
  {
    assert m[key := e].Keys == m.Keys + {key};
  }

  lemma Erased(m: map<Id, AlertEvent>, key: Id)
    requires ActiveOk(m) && key in m
    ensures ActiveOk(Erase(m, key)) && |Erase(m, key)| == |m| - 1
  {
    assert Erase(m, key).Keys == m.Keys - {key};
  }

  lemma PushKeepsSuffix(s: Store, e: AlertEvent, capacity: nat)
    requires SuffixOf(s.resolved, s.log) && capacity > 0
    ensures SuffixOf(LastOf(s.resolved + [e], capacity), s.log + [e])
  {
  }

  lemma PushKeepsResolved(es: seq<AlertEvent>, e: AlertEvent, capacity: nat)
    requires ResolvedOk(es) && ResolvedEntry(e)
    ensures ResolvedOk(LastOf(es + [e], capacity))
  {
  }

  lemma ActiveMatches(m: map<Id, AlertEvent>, x: Evaluation)
    requires ActiveOk(m) && x.Valid()
    ensures var c := Lookup(m, MakeKey(x.serviceId, x.ruleId));
      c.Some? ==> c.value.serviceId == x.serviceId && c.value.ruleId == x.ruleId
  {
    var key := MakeKey(x.serviceId, x.ruleId);
    if key in m {
      KeyInjective(m[key].serviceId, m[key].ruleId, x.serviceId, x.ruleId);
    }
  }

  /** What an outcome may do to the table and the list. */
  lemma OutcomeFits(s: Store, x: Evaluation, capacity: nat)
    requires StoreOk(s, capacity)
    ensures var key := MakeKey(x.serviceId, x.ruleId);
      match OutcomeIn(s, x)
      case Ignored => true
      case Nothing => true
      case Created(e) => key !in s.active && ActiveEntry(key, e)
      case Updated(e) => key in s.active && ActiveEntry(key, e)
      case Dropped => key in s.active
      case Settled(e) => key in s.active && ResolvedEntry(e)
  {
    if x.Valid() {
      ActiveMatches(s.active, x);
      DecideOk(Lookup(s.active, MakeKey(x.serviceId, x.ruleId)), x);
    }
  }

  lemma ApplyKeepsOk(s: Store, x: Evaluation, capacity: nat)
    requires StoreOk(s, capacity) && capacity > 0
    ensures StoreOk(Apply(s, x, capacity), capacity)
  {
    var key := MakeKey(x.serviceId, x.ruleId);
    OutcomeFits(s, x, capacity);
    match OutcomeIn(s, x)
    case Ignored =>
    case Nothing =>
    case Created(e) => Stored(s.active, key, e);
    case Updated(e) => Stored(s.active, key, e);
    case Dropped => Erased(s.active, key);
    case Settled(e) =>
      Erased(s.active, key);
      PushKeepsSuffix(s, e, capacity);
      PushKeepsResolved(s.resolved, e, capacity);
  }

  lemma {:induction false} ApplyAllKeepsOk(s: Store, xs: seq<Evaluation>, capacity: nat)
    requires StoreOk(s, capacity) && capacity > 0
    ensures StoreOk(ApplyAll(s, xs, capacity), capacity)
  {
    if xs != [] {
      ApplyAllKeepsOk(s, xs[..|xs| - 1], capacity);
      ApplyKeepsOk(ApplyAll(s, xs[..|xs| - 1], capacity), xs[|xs| - 1], capacity);
    }
  }

  // Filtering a suffix gives a suffix

  lemma {:induction false} OthersOk(es: seq<AlertEvent>, id: Id)
    ensures |Others(es, id)| <= |es|
    ensures forall e :: e in Others(es, id) <==> e in es && e.serviceId != id
  {
    if es != [] {
      OthersOk(es[..|es| - 1], id);
      assert forall e :: e in es <==> e in es[..|es| - 1] || e == es[|es| - 1];
    }
  }

  lemma {:induction false} OthersSuffix(es: seq<AlertEvent>, log: seq<AlertEvent>, id: Id)
    requires SuffixOf(es, log)
    ensures SuffixOf(Others(es, id), Others(log, id))
  {
    if es != [] {
      var front, back := es[..|es| - 1], log[..|log| - 1];
      OthersSuffix(front, back, id);
      assert SameButAck(es[|es| - 1], log[|log| - 1]);
    }
  }

  lemma OthersActiveOk(m: map<Id, AlertEvent>, id: Id)
    requires ActiveOk(m)
    ensures var kept := OthersActive(m, id);
      ActiveOk(kept) && |m| == |kept| + |m.Keys - kept.Keys|
  {
    var kept := OthersActive(m, id).Keys;
    assert m.Keys == kept + (m.Keys - kept);
  }

  lemma OthersResolvedOk(es: seq<AlertEvent>, id: Id)
    requires ResolvedOk(es)
    ensures ResolvedOk(Others(es, id))
  {
    OthersOk(es, id);
    forall i | 0 <= i < |Others(es, id)|
      ensures ResolvedEntry(Others(es, id)[i])
    {
      assert Others(es, id)[i] in es;
    }
  }

  /** Forgetting keeps the invariant and leaves nothing of the service. */
  lemma ForgetKeepsOk(s: Store, id: Id, capacity: nat)
    requires StoreOk(s, capacity)
    ensures StoreOk(Forget(s, id), capacity)
    ensures forall e :: e in Forget(s, id).resolved <==> e in s.resolved && e.serviceId != id
  {
    OthersOk(s.resolved, id);
    OthersResolvedOk(s.resolved, id);
    OthersSuffix(s.resolved, s.log, id);
    OthersActiveOk(s.active, id);
  }

  lemma AcknowledgeKeepsOk(s: Store, id: Id, capacity: nat)
    requires StoreOk(s, capacity)
    ensures StoreOk(Acknowledge(s, id), capacity)
  {
    if id in s.active {
      assert ActiveEntry(id, s.active[id]);
      Stored(s.active, id, s.active[id].(acknowledged := true));
    } else {
      var i := FindId(s.resolved, id);
      if i < |s.resolved| {
        assert ResolvedEntry(s.resolved[i]);
      }
    }
  }

  // All histories

  datatype Command = Batch(evaluations: seq<Evaluation>) | ForgetService(id: Id) | Ack(id: Id) | Clear

  function Executed(s: Store, c: Command, capacity: nat): Store {
    match c
    case Batch(xs) => ApplyAll(s, xs, capacity)
    case ForgetService(id) => Forget(s, id)
    case Ack(id) => Acknowledge(s, id)
    case Clear => ForgetAll(s)
  }

  function ExecutedAll(cs: seq<Command>, capacity: nat): Store {
    if cs == [] then EmptyStore else Executed(ExecutedAll(cs[..|cs| - 1], capacity), cs[|cs| - 1], capacity)
  }

  lemma ExecutedOk(s: Store, c: Command, capacity: nat)
    requires StoreOk(s, capacity) && capacity > 0
    ensures StoreOk(Executed(s, c, capacity), capacity)
  {
    match c
    case Batch(xs) => ApplyAllKeepsOk(s, xs, capacity);
    case ForgetService(id) => ForgetKeepsOk(s, id, capacity);
    case Ack(id) => AcknowledgeKeepsOk(s, id, capacity);
    case Clear =>
  }

  /** After any sequence of commands every alert ever created is active, resolved, dropped
      or forgotten; the active ones are well formed under their own ids; the resolved list
      is the end of the resolution log and no longer than its capacity. */
  lemma {:induction false} LifecycleConserved(cs: seq<Command>, capacity: nat)
    requires capacity > 0
    ensures StoreOk(ExecutedAll(cs, capacity), capacity)
  {
    if cs != [] {
      var front := cs[..|cs| - 1];
      LifecycleConserved(front, capacity);
      ExecutedOk(ExecutedAll(front, capacity), cs[|cs| - 1], capacity);
    }
  }

  /** While nothing is forgotten, the resolved list is exactly the last `capacity`
      resolutions. */
  lemma {:induction false} ResolvedIsLast(cs: seq<Command>, capacity: nat)
    requires capacity > 0
    requires forall i :: 0 <= i < |cs| ==> cs[i].Batch? || cs[i].Ack?
    ensures var s := ExecutedAll(cs, capacity);
      |s.log| == s.settled && |s.resolved| == if |s.log| <= capacity then |s.log| else capacity
  {
    if cs != [] {
      ResolvedIsLast(cs[..|cs| - 1], capacity);
      var s := ExecutedAll(cs[..|cs| - 1], capacity);
      if cs[|cs| - 1].Batch? {
        BatchKeepsLast(s, cs[|cs| - 1].evaluations, capacity);
      }
    }
  }

  lemma {:induction false} BatchKeepsLast(s: Store, xs: seq<Evaluation>, capacity: nat)
    requires |s.log| == s.settled && |s.resolved| == if |s.log| <= capacity then |s.log| else capacity
    ensures var t := ApplyAll(s, xs, capacity);
      |t.log| == t.settled && |t.resolved| == if |t.log| <= capacity then |t.log| else capacity
  {
    if xs != [] {
      BatchKeepsLast(s, xs[..|xs| - 1], capacity);
      var t := ApplyAll(s, xs[..|xs| - 1], capacity);
      match OutcomeIn(t, xs[|xs| - 1])
      case Ignored =>
      case Nothing =>
      case Created(e) =>
      case Updated(e) =>
      case Dropped =>
      case Settled(e) =>
    }
  }

  // A batch of distinct rules acts rule by rule

  predicate DistinctKeys(xs: seq<Evaluation>) {
    forall i, j :: 0 <= i < j < |xs| ==>
      MakeKey(xs[i].serviceId, xs[i].ruleId) != MakeKey(xs[j].serviceId, xs[j].ruleId)
  }

  function AlertAfter(current: Option<AlertEvent>, x: Evaluation): Option<AlertEvent> {
    match Decide(current, x)
    case Created(e) => Some(e)
    case Updated(e) => Some(e)
    case Dropped => None
    case Settled(_) => None
    case Ignored => current
    case Nothing => current
  }

  /** The alert of one rule after all its evaluations. */
  function AlertOver(xs: seq<Evaluation>): Option<AlertEvent> {
    if xs == [] then None else AlertAfter(AlertOver(xs[..|xs| - 1]), xs[|xs| - 1])
  }

  /** The alert was raised by `xs[i]` and has been confirmed by every evaluation since. */
  ghost predicate RaisedAt(e: AlertEvent, xs: seq<Evaluation>, i: nat) {
    && i < |xs| && AlertOver(xs[..i]) == None
    && (forall j :: i <= j < |xs| ==> xs[j].firing)
    && (forall j :: i <= j < |xs| ==> xs[i].evaluatedAt <= xs[j].evaluatedAt)
    && e.firstTriggered == xs[i].evaluatedAt && e.lastTriggered == xs[|xs| - 1].evaluatedAt
    && e.severity == xs[|xs| - 1].severity && e.message == xs[|xs| - 1].message
    && e.triggerCount == (if |xs| - i < UINT32_MAX then |xs| - i else UINT32_MAX)
    && e.id == MakeKey(e.serviceId, e.ruleId) && e.state.Active? && e.Valid()
  }

  /** An active alert tells the story of its current run: when the run of firing evaluations
      began, when it was last confirmed, and, saturating, how many evaluations it counts. */
  lemma {:induction false} AlertTellsItsRun(xs: seq<Evaluation>, serviceId: Id, ruleId: Id) returns (i: nat)
    requires forall j :: 0 <= j < |xs| ==> xs[j].Valid() && xs[j].serviceId == serviceId && xs[j].ruleId == ruleId
    requires AlertOver(xs).Some?
    ensures RaisedAt(AlertOver(xs).value, xs, i)
    ensures AlertOver(xs).value.serviceId == serviceId && AlertOver(xs).value.ruleId == ruleId
  {
    var n := |xs| - 1;
    var front := xs[..n];
    KeyIsValidEventId(serviceId, ruleId);
    if AlertOver(front).None? {
      i := n;
    } else {
      i := AlertTellsItsRun(front, serviceId, ruleId);
      Confirmed(AlertOver(front).value, xs, i);
    }
  }

  lemma Confirmed(e: AlertEvent, xs: seq<Evaluation>, i: nat)
    requires xs != [] && RaisedAt(e, xs[..|xs| - 1], i) && xs[|xs| - 1].Valid()
    requires AlertAfter(Some(e), xs[|xs| - 1]).Some?
    requires e.serviceId == xs[|xs| - 1].serviceId && e.ruleId == xs[|xs| - 1].ruleId
    ensures RaisedAt(AlertAfter(Some(e), xs[|xs| - 1]).value, xs, i)
  {
    var front := xs[..|xs| - 1];
    assert front[..i] == xs[..i];
    assert forall j :: 0 <= j < |front| ==> front[j] == xs[j];
    KeyIsValidEventId(e.serviceId, e.ruleId);
  }

  lemma ApplyAt(s: Store, x: Evaluation, capacity: nat, key: Id)
    ensures Lookup(Apply(s, x, capacity).active, key) ==
            if key == MakeKey(x.serviceId, x.ruleId) then AlertAfter(Lookup(s.active, key), x)
            else Lookup(s.active, key)
  {
  }

  lemma {:induction false} ApplyAllElsewhere(s: Store, xs: seq<Evaluation>, capacity: nat, key: Id)
    requires forall i :: 0 <= i < |xs| ==> MakeKey(xs[i].serviceId, xs[i].ruleId) != key
    ensures Lookup(ApplyAll(s, xs, capacity).active, key) == Lookup(s.active, key)
  {
    if xs != [] {
      ApplyAllElsewhere(s, xs[..|xs| - 1], capacity, key);
      ApplyAt(ApplyAll(s, xs[..|xs| - 1], capacity), xs[|xs| - 1], capacity, key);
    }
  }

  lemma {:induction false} ApplyAllAt(s: Store, xs: seq<Evaluation>, capacity: nat, i: nat)
    requires i < |xs| && DistinctKeys(xs)
    ensures var key := MakeKey(xs[i].serviceId, xs[i].ruleId);
      Lookup(ApplyAll(s, xs, capacity).active, key) == AlertAfter(Lookup(s.active, key), xs[i])
  {
    var n := |xs| - 1;
    var key := MakeKey(xs[i].serviceId, xs[i].ruleId);
    ApplyAt(ApplyAll(s, xs[..n], capacity), xs[n], capacity, key);
    if i < n {
      ApplyAllAt(s, xs[..n], capacity, i);
    } else {
      ApplyAllElsewhere(s, xs[..n], capacity, key);
    }
  }

  lemma ReportOnlyGrows(u: Update, o: Outcome)
    ensures var u' := Reported(u, o);
      u.created <= u'.created && u.updated <= u'.updated && u.resolved <= u'.resolved && u.ignored <= u'.ignored
    ensures var u' := Reported(u, o);
      |u'.created| + |u'.updated| + |u'.resolved| + u'.ignored ==
      |u.created| + |u.updated| + |u.resolved| + u.ignored + if o.Nothing? then 0 else 1
  {
  }

  /** In a batch of distinct rules every evaluation that does something is reported, in the list
      that says what it did. */
  lemma {:induction false} ReportHolds(s: Store, xs: seq<Evaluation>, capacity: nat, i: nat)
    requires i < |xs| && DistinctKeys(xs)
    ensures var u := Report(s, xs, capacity);
            var o := Decide(Lookup(s.active, MakeKey(xs[i].serviceId, xs[i].ruleId)), xs[i]);
      && (o.Created? ==> o.e in u.created) && (o.Updated? ==> o.e in u.updated)
      && (o.Settled? ==> o.e in u.resolved) && (o.Ignored? || o.Dropped? ==> u.ignored > 0)
  {
    var n := |xs| - 1;
    ReportOnlyGrows(Report(s, xs[..n], capacity), OutcomeIn(ApplyAll(s, xs[..n], capacity), xs[n]));
    if i < n {
      ReportHolds(s, xs[..n], capacity, i);
    } else {
      ApplyAllElsewhere(s, xs[..n], capacity, MakeKey(xs[n].serviceId, xs[n].ruleId));
    }
  }
}

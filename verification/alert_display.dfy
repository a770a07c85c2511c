/**
 The order in which alerts are displayed: a strict total order on alerts of different
 rules, so that the displayed list does not depend on the order of the hash table.
 */
module AlertDisplay {
  import opened Common
  import opened ControlTypes
  import opened AlertManagement

  // Strings, compared character by character

  predicate StringLess(a: string, b: string) {
    b != [] && (a == [] || a[0] < b[0] || (a[0] == b[0] && StringLess(a[1..], b[1..])))
  }

  lemma {:induction false} StringTotal(a: string, b: string)
    ensures StringLess(a, b) || StringLess(b, a) || a == b
    ensures !(StringLess(a, b) && StringLess(b, a)) && !StringLess(a, a)
  {
    if a != [] {
      StringTotal(a[1..], a[1..]);
    }
    if a != [] && b != [] {
      StringTotal(a[1..], b[1..]);
      assert a == [a[0]] + a[1..] && b == [b[0]] + b[1..];
    }
  }

  lemma {:induction false} StringTransitive(a: string, b: string, c: string)
    requires StringLess(a, b) && StringLess(b, c)
    ensures StringLess(a, c)
  {
    if a != [] && a[0] == b[0] == c[0] {
      StringTransitive(a[1..], b[1..], c[1..]);
    }
  }

  // Alerts

  function SeverityRank(s: Severity): int {
    match s
    case Critical => 3
    case Warning => 2
    case Info => 1
  }

  predicate Before(l: AlertEvent, r: AlertEvent) {
    if SeverityRank(l.severity) != SeverityRank(r.severity) then SeverityRank(l.severity) > SeverityRank(r.severity)
    else if l.state != r.state then l.state.Active?
    else if l.lastTriggered != r.lastTriggered then l.lastTriggered > r.lastTriggered
    else if l.serviceId != r.serviceId then StringLess(l.serviceId, r.serviceId)
    else StringLess(l.ruleId, r.ruleId)
  }

  lemma BeforeIsStrict(l: AlertEvent, r: AlertEvent)
    ensures !(Before(l, r) && Before(r, l)) && !Before(l, l)
    ensures (l.serviceId, l.ruleId) != (r.serviceId, r.ruleId) ==> Before(l, r) || Before(r, l)
  {
    StringTotal(l.serviceId, r.serviceId);
    StringTotal(l.ruleId, r.ruleId);
  }

  lemma BeforeIsTransitive(a: AlertEvent, b: AlertEvent, c: AlertEvent)
    requires Before(a, b) && Before(b, c)
    ensures Before(a, c)
  {
    if a.serviceId == b.serviceId == c.serviceId {
      if StringLess(a.ruleId, b.ruleId) && StringLess(b.ruleId, c.ruleId) {
        StringTransitive(a.ruleId, b.ruleId, c.ruleId);
      }
    } else if StringLess(a.serviceId, b.serviceId) && StringLess(b.serviceId, c.serviceId) {
      StringTransitive(a.serviceId, b.serviceId, c.serviceId);
      StringTotal(a.serviceId, b.serviceId);
    }
  }

  /** What a sort by `Before` may leave: no element stands before an earlier one. */
  ghost predicate Sorted(es: seq<AlertEvent>) {
    forall i, j :: 0 <= i < j < |es| ==> !Before(es[j], es[i])
  }

  ghost predicate DistinctRules(es: seq<AlertEvent>) {
    forall i, j :: 0 <= i < j < |es| ==> (es[i].serviceId, es[i].ruleId) != (es[j].serviceId, es[j].ruleId)
  }

  lemma SortedTail(es: seq<AlertEvent>)
    requires es != [] && Sorted(es) && DistinctRules(es)
    ensures Sorted(es[1..]) && DistinctRules(es[1..]) && es[0] !in es[1..]
    ensures forall e :: e in es && e != es[0] ==> Before(es[0], e)
  {
    forall e | e in es && e != es[0]
      ensures Before(es[0], e)
    {
      var i :| 1 <= i < |es| && es[i] == e;
      BeforeIsStrict(es[0], es[i]);
    }
  }

  /** How a sorted list reads: the critical alerts come first and the informational ones last;
      among alerts of one severity the active ones come first, among those the ones triggered
      last, and among those they follow the names of service and rule. */
  lemma SortedReads(es: seq<AlertEvent>, i: nat, j: nat)
    requires Sorted(es) && i < j < |es|
    ensures var l, r := es[i], es[j];
      && (r.severity.Critical? ==> l.severity.Critical?) && (l.severity.Info? ==> r.severity.Info?)
      && (l.severity == r.severity && r.state.Active? ==> l.state.Active?)
      && (l.severity == r.severity && l.state == r.state ==> l.lastTriggered >= r.lastTriggered)
      && (l.severity == r.severity && l.state == r.state && l.lastTriggered == r.lastTriggered ==>
            || (l.serviceId != r.serviceId && NotAfter(l.serviceId, r.serviceId))
            || (l.serviceId == r.serviceId && NotAfter(l.ruleId, r.ruleId)))
  {
    var l, r := es[i], es[j];
    assert !Before(r, l);
    BeforeIsStrict(l, r);
    LessIff(l.serviceId, r.serviceId);
    LessIff(l.ruleId, r.ruleId);
  }

  /** In the dictionary `a` is `b` or stands before it: it is a prefix of `b`, or has the
      smaller character where they first differ. */
  predicate NotAfter(a: string, b: string) {
    a <= b || exists k :: 0 <= k < |a| && k < |b| && a[..k] == b[..k] && a[k] < b[k]
  }

  lemma {:induction false} LessIff(a: string, b: string)
    ensures StringLess(a, b) <==> a != b && NotAfter(a, b)
  {
    if a != [] && b != [] && a[0] == b[0] {
      LessIff(a[1..], b[1..]);
      TailNotAfter(a, b);
      assert a == [a[0]] + a[1..] && b == [b[0]] + b[1..];
    } else if a != [] && b != [] && a[0] < b[0] {
      assert a[..0] == b[..0];
    }
  }

  lemma TailNotAfter(a: string, b: string)
    requires a != [] && b != [] && a[0] == b[0]
    ensures NotAfter(a, b) <==> NotAfter(a[1..], b[1..])
  {
    if k :| 0 <= k < |a| && k < |b| && a[..k] == b[..k] && a[k] < b[k] {
      assert k > 0 && a[1..][..k - 1] == a[..k][1..] && b[1..][..k - 1] == b[..k][1..];
      assert a[1..][k - 1] < b[1..][k - 1];
    }
    if k :| 0 <= k < |a| - 1 && k < |b| - 1 && a[1..][..k] == b[1..][..k] && a[1..][k] < b[1..][k] {
      assert a[..k + 1] == [a[0]] + a[1..][..k] && b[..k + 1] == [b[0]] + b[1..][..k];
      assert a[k + 1] < b[k + 1];
    }
  }

  lemma HeadIsElement(es: seq<AlertEvent>)
    ensures es == [] || es[0] in es
  {
  }

  /** However the alerts of different rules were ordered before sorting, the sorted list is
      the same. */
  lemma {:induction false} DisplayIsUnique(a: seq<AlertEvent>, b: seq<AlertEvent>)
    requires Sorted(a) && DistinctRules(a) && Sorted(b) && DistinctRules(b)
    requires forall e :: e in a <==> e in b
    ensures a == b
  {
    HeadIsElement(a);
    HeadIsElement(b);
    if a != [] {
      SortedTail(a);
      SortedTail(b);
      assert b[0] in a && a[0] in b;
      BeforeIsStrict(a[0], b[0]);
      forall e
        ensures e in a[1..] <==> e in b[1..]
      {
        assert e in a[1..] <==> e in a && e != a[0];
        assert e in b[1..] <==> e in b && e != b[0];
      }
      DisplayIsUnique(a[1..], b[1..]);
    }
  }

  // Sorting

  function Insert(es: seq<AlertEvent>, e: AlertEvent): seq<AlertEvent> {
    if es == [] then [e]
    else if Before(es[|es| - 1], e) then es + [e]
    else Insert(es[..|es| - 1], e) + [es[|es| - 1]]
  }

  /** Stands for the library's sort. */
  function Sort(es: seq<AlertEvent>): seq<AlertEvent> {
    if es == [] then [] else Insert(Sort(es[..|es| - 1]), es[|es| - 1])
  }

  lemma {:induction false} InsertSame(es: seq<AlertEvent>, e: AlertEvent)
    ensures multiset(Insert(es, e)) == multiset(es) + multiset{e}
  {
    if es != [] {
      var n := |es| - 1;
      InsertSame(es[..n], e);
      assert es == es[..n] + [es[n]];
    }
  }

  lemma {:induction false} InsertSorted(es: seq<AlertEvent>, e: AlertEvent)
    requires Sorted(es)
    ensures Sorted(Insert(es, e))
  {
    if es != [] {
      var n := |es| - 1;
      if Before(es[n], e) {
        forall i | 0 <= i < |es|
          ensures !Before(e, es[i])
        {
          BeforeIsStrict(es[n], e);
          if i < n && Before(e, es[i]) {
            BeforeIsTransitive(es[n], e, es[i]);
          }
        }
      } else {
        InsertSorted(es[..n], e);
        InsertSame(es[..n], e);
        var r := Insert(es[..n], e);
        forall i | 0 <= i < |r|
          ensures !Before(es[n], r[i])
        {
          assert r[i] in multiset(r);
          assert r[i] == e || r[i] in es[..n];
        }
      }
    }
  }

  lemma {:induction false} SortSorts(es: seq<AlertEvent>)
    ensures Sorted(Sort(es))
  {
    if es != [] {
      SortSorts(es[..|es| - 1]);
      InsertSorted(Sort(es[..|es| - 1]), es[|es| - 1]);
    }
  }

  lemma {:induction false} SortPermutes(es: seq<AlertEvent>)
    ensures multiset(Sort(es)) == multiset(es)
  {
    if es != [] {
      SortPermutes(es[..|es| - 1]);
      InsertSame(Sort(es[..|es| - 1]), es[|es| - 1]);
      LastApart(es);
    }
  }

  // The list for a table of active alerts

  lemma SameElements(found: seq<AlertEvent>, result: seq<AlertEvent>)
    requires multiset(found) == multiset(result)
    requires forall i, j :: 0 <= i < j < |found| ==> found[i].id != found[j].id
    requires forall e :: e in found ==> e.id == MakeKey(e.serviceId, e.ruleId)
    ensures forall e :: e in result <==> e in found
    ensures DistinctRules(result)
  {
    assert forall e :: e in result <==> e in multiset(result);
    assert forall e :: e in found <==> e in multiset(found);
    forall i, j | 0 <= i < j < |result|
      ensures (result[i].serviceId, result[i].ruleId) != (result[j].serviceId, result[j].ruleId)
    {
      DistinctIds(found, result, i, j);
      assert result[i] in found && result[j] in found;
    }
  }

  lemma DistinctIds(found: seq<AlertEvent>, result: seq<AlertEvent>, i: nat, j: nat)
    requires multiset(found) == multiset(result) && i < j < |result|
    requires forall i, j :: 0 <= i < j < |found| ==> found[i].id != found[j].id
    ensures result[i].id != result[j].id
  {
    var e := result[i];
    assert e in multiset(result) && result[j] in multiset(result);
    assert e in found && result[j] in found;
    AtMostOnce(found, e);
    if result[j] == e {
      Twice(result, i, j);
    }
  }

  lemma Twice(s: seq<AlertEvent>, i: nat, j: nat)
    requires i < j < |s| && s[i] == s[j]
    ensures multiset(s)[s[i]] >= 2
  {
    assert s == s[..j] + [s[j]] + s[j + 1..];
    assert s[i] in s[..j];
    assert s[..j][i] == s[i];
    assert multiset(s) == multiset(s[..j]) + multiset{s[j]} + multiset(s[j + 1..]);
  }

  lemma {:induction false} AtMostOnce(s: seq<AlertEvent>, e: AlertEvent)
    requires forall i, j :: 0 <= i < j < |s| ==> s[i].id != s[j].id
    ensures multiset(s)[e] <= 1
  {
    if s != [] {
      var n := |s| - 1;
      assert s == s[..n] + [s[n]];
      AtMostOnce(s[..n], e);
      if e == s[n] {
        assert e !in s[..n];
      }
    }
  }

  ghost predicate IsDisplay(m: map<Id, AlertEvent>, es: seq<AlertEvent>) {
    && Sorted(es) && DistinctRules(es)
    && forall e :: e in es <==> e.id in m && m[e.id] == e
  }

  lemma SortedIsDisplay(m: map<Id, AlertEvent>, found: seq<AlertEvent>)
    requires ActiveOk(m)
    requires forall e :: e in found <==> e.id in m && m[e.id] == e
    requires forall i, j :: 0 <= i < j < |found| ==> found[i].id != found[j].id
    ensures IsDisplay(m, Sort(found))
  {
    SortSorts(found);
    SortPermutes(found);
    SameElements(found, Sort(found));
  }

  lemma {:induction false} ListAll(m: map<Id, AlertEvent>) returns (es: seq<AlertEvent>)
    requires ActiveOk(m)
    ensures forall e :: e in es <==> e.id in m && m[e.id] == e
    ensures forall i, j :: 0 <= i < j < |es| ==> es[i].id != es[j].id
    decreases |m|
  {
    es := [];
    if m != map[] {
      var k :| k in m;
      Erased(m, k);
      var rest := ListAll(Erase(m, k));
      es := rest + [m[k]];
      ListedWith(m, k, rest);
    }
  }

  lemma ListedWith(m: map<Id, AlertEvent>, k: Id, rest: seq<AlertEvent>)
    requires ActiveOk(m) && k in m
    requires forall e :: e in rest <==> e.id in Erase(m, k) && Erase(m, k)[e.id] == e
    requires forall i, j :: 0 <= i < j < |rest| ==> rest[i].id != rest[j].id
    ensures forall e :: e in rest + [m[k]] <==> e.id in m && m[e.id] == e
    ensures forall i, j :: 0 <= i < j < |rest| + 1 ==> (rest + [m[k]])[i].id != (rest + [m[k]])[j].id
  {
    forall i | 0 <= i < |rest|
      ensures rest[i].id != m[k].id
    {
      assert rest[i] in rest;
    }
  }

  /** The one list that displays the table. */
  ghost function DisplayOf(m: map<Id, AlertEvent>): (es: seq<AlertEvent>)
    requires ActiveOk(m)
    ensures IsDisplay(m, es)
    ensures forall es' :: IsDisplay(m, es') ==> es' == es
  {
    DisplayExists(m);
    var es :| IsDisplay(m, es) && forall es' :: IsDisplay(m, es') ==> es' == es;
    es
  }

  lemma DisplayExists(m: map<Id, AlertEvent>)
    requires ActiveOk(m)
    ensures exists es :: IsDisplay(m, es) && forall es' :: IsDisplay(m, es') ==> es' == es
  {
    var found := ListAll(m);
    SortedIsDisplay(m, found);
    var es := Sort(found);
    forall es' | IsDisplay(m, es')
      ensures es' == es
    {
      DisplayIsUnique(es', es);
    }
  }

  function OfService(m: map<Id, AlertEvent>, id: Id): map<Id, AlertEvent> {
    map k | k in m && m[k].serviceId == id :: m[k]
  }

  /** The resolved alerts of a service, in order. */
  function Own(es: seq<AlertEvent>, id: Id): seq<AlertEvent> {
    if es == [] then []
    else Own(es[..|es| - 1], id) + if es[|es| - 1].serviceId == id then [es[|es| - 1]] else []
  }

  lemma {:induction false} OwnBelong(es: seq<AlertEvent>, id: Id)
    ensures forall e :: e in Own(es, id) <==> e in es && e.serviceId == id
  {
    if es != [] {
      var n := |es| - 1;
      OwnBelong(es[..n], id);
      assert forall e :: e in es <==> e in es[..n] || e == es[n];
    }
  }

  /** Between them, a service's alerts and the others' are all of them. */
  lemma {:induction false} OwnAndOthers(es: seq<AlertEvent>, id: Id)
    ensures multiset(es) == multiset(Own(es, id)) + multiset(Others(es, id))
  {
    if es != [] {
      var n := |es| - 1;
      OwnAndOthers(es[..n], id);
      LastApart(es);
    }
  }
}

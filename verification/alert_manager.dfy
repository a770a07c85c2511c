/**
 The alert manager's own code.
 */
module AlertManagerCode {
  import opened Common
  import opened ControlTypes
  import opened Alerts
  import opened AlertManagement
  import opened AlertDisplay

  class AlertManager {
    const recentResolvedCapacity: nat
    var activeAlerts: map<Id, AlertEvent>
    var recentResolvedAlerts: seq<AlertEvent>
    ghost var s: Store

    ghost predicate Ties()
      reads this
    {
      recentResolvedCapacity > 0 && activeAlerts == s.active && recentResolvedAlerts == s.resolved
    }

    ghost predicate Valid()
      reads this
    {
      Ties() && StoreOk(s, recentResolvedCapacity)
    }

    constructor (capacity: nat)
      ensures Valid() && s == EmptyStore
      ensures recentResolvedCapacity == if capacity == 0 then 1 else capacity
    {
      recentResolvedCapacity := if capacity == 0 then 1 else capacity;
      activeAlerts, recentResolvedAlerts, s := map[], [], EmptyStore;
    }

    method PushResolved(e: AlertEvent)
      requires recentResolvedCapacity > 0 && |recentResolvedAlerts| <= recentResolvedCapacity
      modifies this`recentResolvedAlerts
      ensures recentResolvedAlerts == LastOf(old(recentResolvedAlerts) + [e], recentResolvedCapacity)
    {
      recentResolvedAlerts := recentResolvedAlerts + [e];
      while |recentResolvedAlerts| > recentResolvedCapacity
        invariant |recentResolvedAlerts| >= recentResolvedCapacity ||
                  recentResolvedAlerts == old(recentResolvedAlerts) + [e]
        invariant |recentResolvedAlerts| <= |old(recentResolvedAlerts)| + 1
        invariant var all := old(recentResolvedAlerts) + [e];
          recentResolvedAlerts == all[|all| - |recentResolvedAlerts|..]
      {
        recentResolvedAlerts := recentResolvedAlerts[1..];
      }
    }

    method ApplyEvaluations(evaluations: seq<Evaluation>) returns (update: Update)
      requires Valid()
      modifies this
      ensures Valid() && s == ApplyAll(old(s), evaluations, recentResolvedCapacity)
      ensures update == Report(old(s), evaluations, recentResolvedCapacity)
    {
      update := Update([], [], [], 0);
      var i := 0;
      while i < |evaluations|
        invariant 0 <= i <= |evaluations|
        invariant Valid() && s == ApplyAll(old(s), evaluations[..i], recentResolvedCapacity)
        invariant update == Report(old(s), evaluations[..i], recentResolvedCapacity)
      {
        ApplyKeepsOk(s, evaluations[i], recentResolvedCapacity);
        update := ApplyOne(evaluations[i], update);
        assert evaluations[..i + 1][..i] == evaluations[..i];
        i := i + 1;
      }
      assert evaluations[..i] == evaluations;
    }

    /** One round of the loop. Two of its checks never reject a valid evaluation: that of
        the id and that of a new alert. */
    method ApplyOne(x: Evaluation, before: Update) returns (update: Update)
      requires Ties() && |recentResolvedAlerts| <= recentResolvedCapacity
      modifies this
      ensures Ties() && s == Apply(old(s), x, recentResolvedCapacity)
      ensures update == Reported(before, OutcomeIn(old(s), x))
    {
      ghost var after := Apply(s, x, recentResolvedCapacity);
      update := before;
      if !x.Valid() {
        return update.(ignored := update.ignored + 1);
      }
      var key := MakeKey(x.serviceId, x.ruleId);
      KeyIsValidEventId(x.serviceId, x.ruleId);
      if x.firing {
        if key !in activeAlerts {
          var e := Opened(x);
          assert e.Valid();
          activeAlerts := activeAlerts[key := e];
          s := after;
          return update.(created := update.created + [e]);
        }
        var e := Again(activeAlerts[key], x);
        activeAlerts := activeAlerts[key := e];
        if !e.Valid() {
          activeAlerts := Erase(activeAlerts, key);
          s := after;
          assert activeAlerts == s.active;
          return update.(ignored := update.ignored + 1);
        }
        s := after;
        return update.(updated := update.updated + [e]);
      }
      if key !in activeAlerts {
        return;
      }
      var e := Closed(activeAlerts[key], x);
      activeAlerts := Erase(activeAlerts, key);
      if !e.Valid() {
        s := after;
        return update.(ignored := update.ignored + 1);
      }
      PushResolved(e);
      s := after;
      return update.(resolved := update.resolved + [e]);
    }

    /** The alerts of a table, in the order in which it happens to be walked. */
    static method List(table: map<Id, AlertEvent>) returns (found: seq<AlertEvent>)
      requires ActiveOk(table)
      ensures IsDisplay(table, Sort(found))
    {
      found := [];
      var rest := table.Keys;
      while rest != {}
        invariant rest <= table.Keys
        invariant forall e :: e in found <==> e.id in table && e.id !in rest && table[e.id] == e
        invariant forall i, j :: 0 <= i < j < |found| ==> found[i].id != found[j].id
        decreases |rest|
      {
        var k :| k in rest;
        assert forall i :: 0 <= i < |found| ==> found[i] in found;
        found := found + [table[k]];
        rest := rest - {k};
      }
      SortedIsDisplay(table, found);
    }

    method GetActiveAlerts() returns (result: seq<AlertEvent>)
      requires Valid()
      ensures result == DisplayOf(activeAlerts)
    {
      result := List(activeAlerts);
      result := Sort(result);
    }

    /** The service's active alerts, and on demand its resolved ones among them. Only with
        resolved ones can alerts be displayed in more than one order. */
    method GetAlertsForService(id: Id, includeResolved: bool) returns (result: seq<AlertEvent>)
      requires Valid()
      ensures !includeResolved ==> result == DisplayOf(OfService(activeAlerts, id))
      ensures Sorted(result)
      ensures multiset(result) == multiset(DisplayOf(OfService(activeAlerts, id))) +
              if includeResolved then multiset(Own(recentResolvedAlerts, id)) else multiset{}
    {
      result := List(OfService(activeAlerts, id));
      ghost var active := result;
      SortPermutes(active);
      if includeResolved {
        result := AppendOwn(result, recentResolvedAlerts, id);
      }
      SortSorts(result);
      SortPermutes(result);
      result := Sort(result);
    }

    static method AppendOwn(found: seq<AlertEvent>, resolved: seq<AlertEvent>, id: Id) returns (result: seq<AlertEvent>)
      ensures multiset(result) == multiset(found) + multiset(Own(resolved, id))
    {
      result := found;
      var i := 0;
      while i < |resolved|
        invariant 0 <= i <= |resolved|
        invariant result == found + Own(resolved[..i], id)
      {
        assert resolved[..i + 1][..i] == resolved[..i];
        if resolved[i].serviceId == id {
          result := result + [resolved[i]];
        }
        i := i + 1;
      }
      assert resolved[..i] == resolved;
    }

    /** Acknowledges the active alert with this id, or else the first resolved one. */
    method AcknowledgeAndGet(id: Id) returns (alert: Option<AlertEvent>)
      requires Ties()
      modifies this
      ensures Ties() && s == Acknowledge(old(s), id)
      ensures id in old(s).active ==> alert == Some(s.active[id]) && alert.value.acknowledged
      ensures id !in old(s).active ==> (alert.Some? <==> exists i :: 0 <= i < |s.resolved| && s.resolved[i].id == id)
      ensures id !in old(s).active && alert.Some? ==>
        alert.value in s.resolved && alert.value.id == id && alert.value.acknowledged
    {
      ghost var after := Acknowledge(s, id);
      if id in activeAlerts {
        activeAlerts := activeAlerts[id := activeAlerts[id].(acknowledged := true)];
        s := after;
        return Some(activeAlerts[id]);
      }
      var i := 0;
      while i < |recentResolvedAlerts|
        invariant 0 <= i <= |recentResolvedAlerts|
        invariant forall j :: 0 <= j < i ==> recentResolvedAlerts[j].id != id
      {
        if recentResolvedAlerts[i].id == id {
          var e := recentResolvedAlerts[i].(acknowledged := true);
          recentResolvedAlerts := recentResolvedAlerts[i := e];
          s := after;
          assert s.resolved[i] == e;
          return Some(e);
        }
        i := i + 1;
      }
      return None;
    }

    method ForgetService(id: Id)
      requires Valid()
      modifies this
      ensures Valid() && s == Forget(old(s), id)
    {
      ForgetKeepsOk(s, id, recentResolvedCapacity);
      ForgetIn(id);
    }

    method ForgetIn(id: Id)
      requires Ties()
      modifies this
      ensures Ties() && s == Forget(old(s), id)
    {
      activeAlerts := OthersActive(activeAlerts, id);
      recentResolvedAlerts := ResolvedOfOthers(id);
      s := Forget(s, id);
    }

    method ResolvedOfOthers(id: Id) returns (kept: seq<AlertEvent>)
      ensures kept == Others(recentResolvedAlerts, id)
    {
      kept := [];
      var i := 0;
      while i < |recentResolvedAlerts|
        invariant 0 <= i <= |recentResolvedAlerts|
        invariant kept == Others(recentResolvedAlerts[..i], id)
      {
        assert recentResolvedAlerts[..i + 1][..i] == recentResolvedAlerts[..i];
        if recentResolvedAlerts[i].serviceId != id {
          kept := kept + [recentResolvedAlerts[i]];
        }
        i := i + 1;
      }
      assert recentResolvedAlerts[..i] == recentResolvedAlerts;
    }
  }
}

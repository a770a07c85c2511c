/**
 The control loop's own code: `CheckOnce` composed of the four components. The registry's
 list, the collected metrics and what the supervisors answer are given with the round.
 */
module MonitorCode {
  import opened Common
  import opened ControlTypes
  import opened Health
  import opened Alerts
  import opened AlertManagement
  import opened AlertDisplay
  import opened MonitorModel
  import AlertManagerCode
  import Recovery
  import RecoveryCode

  class HealthMonitor {
    const checker: HealthChecker
    const evaluator: AlertEvaluator
    const manager: AlertManagerCode.AlertManager
    const recovery: RecoveryCode.RecoveryManager
    var latestHealth: map<Id, HealthStatus>

    ghost predicate Valid()
      reads this, manager, recovery
    {
      manager.Valid() && recovery.Valid()
    }

    ghost function Settings(): Options {
      Options(manager.recentResolvedCapacity, recovery.recentEventCapacity, recovery.suppressEventCooldownSeconds)
    }

    ghost function Memory(): State
      reads this, checker, evaluator, manager, recovery
    {
      State(
        checker.consecutiveFailures, evaluator.ruleStates, manager.s, recovery.m, recovery.recentEvents, latestHealth)
    }

    constructor (resolvedCapacity: nat, eventCapacity: nat, cooldown: nat)
      ensures Valid() && Memory() == InitialState
      ensures fresh(checker) && fresh(evaluator) && fresh(manager) && fresh(recovery)
    {
      checker := new HealthChecker();
      evaluator := new AlertEvaluator();
      manager := new AlertManagerCode.AlertManager(resolvedCapacity);
      recovery := new RecoveryCode.RecoveryManager(eventCapacity, cooldown);
      latestHealth := map[];
    }

    /** The first loop: health and alert conditions of every service. */
    method ExamineServices(services: seq<Service>, now: Time)
      returns (nextHealth: map<Id, HealthStatus>, evaluations: seq<Evaluation>)
      modifies checker, evaluator
      ensures Examined(checker.consecutiveFailures, evaluator.ruleStates, nextHealth, evaluations) ==
              ExamineAll(
                Examined(old(checker.consecutiveFailures), old(evaluator.ruleStates), map[], []), services, now)
    {
      nextHealth, evaluations := map[], [];
      ghost var start := Examined(checker.consecutiveFailures, evaluator.ruleStates, map[], []);
      var i := 0;
      while i < |services|
        invariant 0 <= i <= |services|
        invariant Examined(checker.consecutiveFailures, evaluator.ruleStates, nextHealth, evaluations) ==
                  ExamineAll(start, services[..i], now)
      {
        var service := services[i];
        assert services[..i + 1][..i] == services[..i];
        i := i + 1;
        if !service.supervised {
          nextHealth := nextHealth[service.Id() := Unsupervised(service.Id(), now)];
          continue;
        }
        var status := checker.Check(service.definition, service.status, now);
        nextHealth := nextHealth[service.Id() := status];
        var found := evaluator.Evaluate(service.definition, service.metrics, status.state, now);
        evaluations := evaluations + found;
      }
      assert services[..i] == services;
    }

    /** The second loop: recovery of every service. */
    method RecoverServices(services: seq<Service>, nextHealth: map<Id, HealthStatus>, now: Time)
      returns (operations: seq<Recovery.Operation>)
      requires Valid() && forall i :: 0 <= i < |services| ==> services[i].Id() in nextHealth
      modifies recovery
      ensures Valid()
      ensures Recovering(recovery.m, recovery.recentEvents, operations) ==
              RecoverAll(Recovering(old(recovery.m), old(recovery.recentEvents), []), services, manager.s.active,
                         nextHealth, now, Settings())
    {
      operations := [];
      ghost var start := Recovering(recovery.m, recovery.recentEvents, []);
      var i := 0;
      while i < |services|
        invariant 0 <= i <= |services| && Valid()
        invariant Recovering(recovery.m, recovery.recentEvents, operations) ==
                  RecoverAll(start, services[..i], manager.s.active, nextHealth, now, Settings())
      {
        assert services[..i + 1][..i] == services[..i];
        var operation := RecoverService(services[i], nextHealth[services[i].Id()], now);
        operations := operations + [operation];
        i := i + 1;
      }
      assert services[..i] == services;
    }

    method RecoverService(service: Service, health: HealthStatus, now: Time) returns (operation: Recovery.Operation)
      requires Valid()
      modifies recovery
      ensures Valid()
      ensures forall operations :: (
        Recovering(recovery.m, recovery.recentEvents, operations + [operation]) ==
        Recover(Recovering(old(recovery.m), old(recovery.recentEvents), operations), service, manager.s.active,
                health, now, Settings()))
    {
      if !service.supervised {
        return Recovery.NoOperation;
      }
      var alerts := manager.GetAlertsForService(service.Id(), false);
      var events;
      events, operation := recovery.EvaluateAndRecover(
        Recovery.Call(service.definition, health, alerts, now, service.current, service.succeeded, service.error));
    }

    /** The order in which a table happens to be walked. */
    static method TableOrder(ids: set<Id>) returns (order: seq<Id>)
      ensures Enumerates(order, ids)
    {
      order := [];
      ghost var done: set<Id> := {};
      var rest := ids;
      while rest != {}
        invariant done + rest == ids && done !! rest && Enumerates(order, done)
        decreases |rest|
      {
        var id :| id in rest;
        EnumeratesMore(order, done, id);
        rest := rest - {id};
        done := done + {id};
        order := order + [id];
      }
    }

    /** The last step: services of the previous round that were not listed are forgotten. */
    method ForgetMissing(order: seq<Id>, seen: set<Id>)
      requires Valid()
      modifies checker, evaluator, manager, recovery
      ensures Valid() && Memory() == ForgetUnseen(old(Memory()), order, seen)
    {
      var i := 0;
      while i < |order|
        invariant 0 <= i <= |order| && Valid()
        invariant Memory() == ForgetUnseen(old(Memory()), order[..i], seen)
      {
        assert order[..i + 1][..i] == order[..i];
        if order[i] !in seen {
          ForgetService(order[i]);
        }
        i := i + 1;
      }
      assert order[..i] == order;
    }

    method ForgetService(id: Id)
      requires Valid()
      modifies checker, evaluator, manager, recovery
      ensures Valid() && Memory() == ForgetOne(old(Memory()), id)
    {
      checker.ForgetService(id);
      evaluator.ForgetService(id);
      manager.ForgetService(id);
      recovery.ForgetService(id);
    }

    method CheckOnce(round: Round) returns (operations: seq<Recovery.Operation>, ghost order: seq<Id>)
      requires Valid()
      modifies this, checker, evaluator, manager, recovery
      ensures Valid() && Enumerates(order, old(latestHealth).Keys)
      ensures Memory() == Checked(old(Memory()), round, order, Settings())
      ensures operations == RecoveredIn(old(Memory()), round, Settings()).operations
    {
      var now := if round.clock < 0 then 0 else round.clock;
      ghost var before := Memory();
      ExaminedNext(Start(before), round.services, now);
      var nextHealth, evaluations := ExamineServices(round.services, now);
      var update := manager.ApplyEvaluations(evaluations);
      operations := RecoverServices(round.services, nextHealth, now);
      var table := TableOrder(latestHealth.Keys);
      ForgetMissing(table, SeenIds(round.services));
      order := table;
      latestHealth := nextHealth;
    }
  }

  lemma EnumeratesMore(order: seq<Id>, ids: set<Id>, id: Id)
    requires Enumerates(order, ids) && id !in ids
    ensures Enumerates(order + [id], ids + {id})
  {
  }
}

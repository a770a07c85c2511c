/**
 The sampler's account of CPU time. Percentages are real numbers.
 */
module Metrics {
  import opened Common
  import opened ControlTypes

  datatype RawStats = RawStats(cpuTime: nat, identity: nat, rssBytes: nat, threadCount: nat, fdCount: nat)

  datatype Capacity = Capacity(monotonicTime: nat, cpuCount: nat)

  datatype Baseline = Baseline(pid: int, identity: nat, cpuTime: nat, monotonicTime: nat, cpuCount: nat)

  /** The readings of one sample. */
  datatype Reading = Reading(pid: int, stats: RawStats, capacity: Capacity, at: Time)
  {
    /** What the sampler rejects without touching its baselines. */
    predicate Accepted() {
      pid > 0 && at >= 0 && capacity.monotonicTime > 0 && capacity.cpuCount > 0
    }

    function ToBaseline(): Baseline {
      Baseline(pid, stats.identity, stats.cpuTime, capacity.monotonicTime, capacity.cpuCount)
    }
  }

  datatype SampleError = InvalidServiceId | InvalidPid | InvalidTime | InvalidMonotonicTime | InvalidCpuCount

  datatype SampleResult = Sampled(metrics: ServiceMetrics) | Rejected(error: SampleError)

  /** Both readings are of the same run of a process on the same machine, in order. */
  predicate Comparable(b: Baseline, r: Reading) {
    && b.pid == r.pid && b.identity == r.stats.identity && b.cpuCount == r.capacity.cpuCount
    && r.stats.cpuTime >= b.cpuTime && r.capacity.monotonicTime > b.monotonicTime
  }

  function Percent(b: Baseline, r: Reading): real
    requires r.Accepted() && Comparable(b, r)
  {
    PositiveProduct((r.capacity.monotonicTime - b.monotonicTime) as real, r.capacity.cpuCount as real);
    (r.stats.cpuTime - b.cpuTime) as real * 100.0
      / ((r.capacity.monotonicTime - b.monotonicTime) as real * r.capacity.cpuCount as real)
  }

  lemma PositiveProduct(x: real, y: real)
    requires x > 0.0 && y > 0.0
    ensures x * y > 0.0
  {
  }

  /** The CPU value of a sample against the previous baseline. */
  function CpuValue(b: Option<Baseline>, r: Reading): (p: Option<real>)
    requires r.Accepted()
    ensures p.Some? ==> 0.0 <= p.value <= 100.0
  {
    if b.None? || !Comparable(b.value, r) then None
    else
      PercentIsNotNegative(b.value, r);
      if Percent(b.value, r) <= 100.0 then Some(Percent(b.value, r)) else None
  }

  /** When a value is reported, and what it says: the same process on the same number of CPUs,
      with no counter gone back and the clock advanced, has used no more than all of them, and
      the value is the share it has used. */
  lemma CpuValueIs(b: Baseline, r: Reading)
    requires r.Accepted()
    ensures var used := r.stats.cpuTime - b.cpuTime;
            var wall := r.capacity.monotonicTime - b.monotonicTime;
            var p := CpuValue(Some(b), r);
      && (p.Some? <==>
            && b.pid == r.pid && b.identity == r.stats.identity && b.cpuCount == r.capacity.cpuCount
            && used >= 0 && wall > 0 && used as real <= wall as real * r.capacity.cpuCount as real)
      && (p.Some? ==> p.value * (wall as real * r.capacity.cpuCount as real) == used as real * 100.0)
  {
    if Comparable(b, r) {
      var capacity := (r.capacity.monotonicTime - b.monotonicTime) as real * r.capacity.cpuCount as real;
      var used := (r.stats.cpuTime - b.cpuTime) as real;
      PositiveProduct((r.capacity.monotonicTime - b.monotonicTime) as real, r.capacity.cpuCount as real);
      assert Percent(b, r) == used * 100.0 / capacity;
      ShareAtMost(used, capacity);
    }
  }

  lemma ShareAtMost(x: real, y: real)
    requires y > 0.0
    ensures x * 100.0 / y <= 100.0 <==> x <= y
    ensures x * 100.0 / y * y == x * 100.0
  {
    var q := x * 100.0 / y;
    assert q * y == x * 100.0;
    if q <= 100.0 {
      OrderedProduct(q, 100.0, y);
    } else {
      assert q * y > 100.0 * y by { assert (q - 100.0) * y > 0.0 by { PositiveProduct(q - 100.0, y); } }
    }
  }

  lemma OrderedProduct(p: real, q: real, y: real)
    requires p <= q && y > 0.0
    ensures p * y <= q * y
  {
  }

  lemma PercentIsNotNegative(b: Baseline, r: Reading)
    requires r.Accepted() && Comparable(b, r)
    ensures Percent(b, r) >= 0.0
  {
    var x := (r.stats.cpuTime - b.cpuTime) as real * 100.0;
    var y := (r.capacity.monotonicTime - b.monotonicTime) as real * r.capacity.cpuCount as real;
    PositiveProduct((r.capacity.monotonicTime - b.monotonicTime) as real, r.capacity.cpuCount as real);
    QuotientIsNotNegative(x, y);
  }

  lemma QuotientIsNotNegative(x: real, y: real)
    requires x >= 0.0 && y > 0.0
    ensures x / y >= 0.0
  {
  }

  class MetricsSampler {
    var baselines: map<Id, Baseline>

    constructor ()
      ensures baselines == map[]
    {
      baselines := map[];
    }

    method Sample(id: Id, r: Reading) returns (result: SampleResult)
      modifies this
      ensures result.Sampled? <==> ValidServiceId(id) && r.Accepted()
      ensures result.Sampled? ==>
        && baselines == old(baselines)[id := r.ToBaseline()]
        && var previous := if id in old(baselines) then Some(old(baselines)[id]) else None;
           result.metrics == ServiceMetrics(
             true, match CpuValue(previous, r) case None => None case Some(p) => Some(Finite(p)),
             Some(r.stats.rssBytes), Some(r.stats.threadCount), Some(r.stats.fdCount))
      ensures result.Rejected? ==> baselines == old(baselines)
      ensures result.Sampled? ==>
        && result.metrics.available && result.metrics.rssBytes == Some(r.stats.rssBytes)
        && result.metrics.threadCount == Some(r.stats.threadCount) && result.metrics.fdCount == Some(r.stats.fdCount)
        && baselines == old(baselines)[id := Baseline(
             r.pid, r.stats.identity, r.stats.cpuTime, r.capacity.monotonicTime, r.capacity.cpuCount)]
      ensures result.Sampled? <==>
        ValidServiceId(id) && r.pid > 0 && r.at >= 0 && r.capacity.monotonicTime > 0 && r.capacity.cpuCount > 0
    {
      if !ValidServiceId(id) {
        return Rejected(InvalidServiceId);
      }
      if r.pid <= 0 {
        return Rejected(InvalidPid);
      }
      if r.at < 0 {
        return Rejected(InvalidTime);
      }
      if r.capacity.monotonicTime == 0 {
        return Rejected(InvalidMonotonicTime);
      }
      if r.capacity.cpuCount == 0 {
        return Rejected(InvalidCpuCount);
      }
      var metrics := ServiceMetrics(
        true, None, Some(r.stats.rssBytes), Some(r.stats.threadCount), Some(r.stats.fdCount));
      var current := Baseline(
        r.pid, r.stats.identity, r.stats.cpuTime, r.capacity.monotonicTime, r.capacity.cpuCount);
      if id !in baselines {
        baselines := baselines[id := current];
        return Sampled(metrics);
      }
      var previous := baselines[id];
      if previous.pid != r.pid || previous.identity != r.stats.identity || previous.cpuCount != r.capacity.cpuCount ||
         r.stats.cpuTime < previous.cpuTime || r.capacity.monotonicTime <= previous.monotonicTime
      {
        baselines := baselines[id := current];
        return Sampled(metrics);
      }
      baselines := baselines[id := current];
      var percent := Percent(previous, r);
      PercentIsNotNegative(previous, r);
      if percent < 0.0 || percent > 100.0 {
        return Sampled(metrics);
      }
      return Sampled(metrics.(cpuPercent := Some(Finite(percent))));
    }

    method ForgetService(id: Id)
      modifies this
      ensures baselines == Erase(old(baselines), id)
    {
      baselines := Erase(baselines, id);
    }
  }

  // The account of CPU time

  /** The CPU time that a sample's value stands for. */
  function Accounted(b: Baseline, r: Reading): real
    requires r.Accepted() && CpuValue(Some(b), r).Some?
  {
    var wall := (r.capacity.monotonicTime - b.monotonicTime) as real;
    CpuValue(Some(b), r).value * wall * r.capacity.cpuCount as real / 100.0
  }

  /** Consecutive samples of one service, all of which report a CPU value. */
  predicate AllReport(b: Baseline, rs: seq<Reading>)
    decreases |rs|
  {
    rs == [] || (rs[0].Accepted() && CpuValue(Some(b), rs[0]).Some? && AllReport(rs[0].ToBaseline(), rs[1..]))
  }

  function Total(b: Baseline, rs: seq<Reading>): real
    requires AllReport(b, rs)
    decreases |rs|
  {
    if rs == [] then 0.0 else Accounted(b, rs[0]) + Total(rs[0].ToBaseline(), rs[1..])
  }

  lemma AccountedIsDifference(b: Baseline, r: Reading)
    requires r.Accepted() && CpuValue(Some(b), r).Some?
    ensures Accounted(b, r) == (r.stats.cpuTime - b.cpuTime) as real
  {
    var x := (r.stats.cpuTime - b.cpuTime) as real;
    var w, n := (r.capacity.monotonicTime - b.monotonicTime) as real, r.capacity.cpuCount as real;
    PositiveProduct(w, n);
    assert CpuValue(Some(b), r).value == x * 100.0 / (w * n);
    Cancel(x, w, n);
  }

  lemma Cancel(x: real, w: real, n: real)
    requires w > 0.0 && n > 0.0 && w * n > 0.0
    ensures x * 100.0 / (w * n) * w * n / 100.0 == x
  {
    var p := x * 100.0 / (w * n);
    assert p * w * n == p * (w * n);
    assert p * (w * n) == x * 100.0;
  }

  /** Over any run of such samples the reported values account for exactly the CPU time that
      passed between the first baseline and the last sample. */
  lemma {:induction false} CpuAccountTelescopes(b: Baseline, rs: seq<Reading>)
    requires AllReport(b, rs)
    ensures Total(b, rs) == if rs == [] then 0.0 else (rs[|rs| - 1].stats.cpuTime - b.cpuTime) as real
    decreases |rs|
  {
    if rs != [] {
      AccountedIsDifference(b, rs[0]);
      CpuAccountTelescopes(rs[0].ToBaseline(), rs[1..]);
    }
  }
}

/**
 Exact 64-bit arithmetic: sums and tick conversion that report overflow instead of wrapping.
 */
module TickConversion {
  import opened Common

  predicate Fits(n: int) { 0 <= n <= UINT64_MAX }

  /** Succeeds exactly when the sum fits, and then returns it. */
  function AddWithoutOverflow(left: int, right: int): (sum: Option<int>)
    requires Fits(left) && Fits(right)
    ensures sum.Some? <==> Fits(left + right)
    ensures sum.Some? ==> sum.value - right == left
  {
    if left > UINT64_MAX - right then None else Some(left + right)
  }

  datatype Timebase = Timebase(numer: nat, denom: nat)
  {
    predicate Valid() { numer <= UINT32_MAX && denom <= UINT32_MAX }
  }

  function Scaled(ticks: nat, t: Timebase): nat
    requires t.denom > 0
  {
    ticks * t.numer / t.denom
  }

  /** Rounding may be done on the remainder alone. */
  lemma SplitScaling(ticks: nat, t: Timebase)
    requires t.denom > 0
    ensures Scaled(ticks, t) == ticks / t.denom * t.numer + ticks % t.denom * t.numer / t.denom
  {
    var whole, rest := ticks / t.denom, ticks % t.denom;
    assert ticks * t.numer == whole * t.numer * t.denom + rest * t.numer by {
      assert ticks == whole * t.denom + rest;
      Distribute(whole, t.denom, rest, t.numer);
    }
    DivideMultiple(whole * t.numer, t.denom, rest * t.numer);
  }

  lemma Distribute(a: int, b: int, c: int, n: int)
    ensures (a * b + c) * n == a * n * b + c * n
  {
    assert (a * b + c) * n == a * b * n + c * n;
    assert a * b * n == a * (b * n) == a * (n * b) == a * n * b;
  }

  lemma DivideMultiple(q: int, d: int, r: int)
    requires d > 0 && r >= 0
    ensures (q * d + r) / d == q + r / d
  {
    var s := r / d;
    assert r == s * d + r % d;
    assert q * d + r == (q + s) * d + r % d;
    QuotientIs(q * d + r, d, q + s, r % d);
  }

  lemma QuotientIs(n: int, d: int, q: int, r: int)
    requires d > 0 && n == q * d + r && 0 <= r < d
    ensures n / d == q
  {
    var q', r' := n / d, n % d;
    assert n == q' * d + r';
    assert (q' - q) * d == r - r' by {
      assert (q' - q) * d == q' * d - q * d;
    }
    BoundedMultiple(q' - q, d);
  }

  lemma BoundedMultiple(k: int, d: int)
    requires d > 0
    ensures -d < k * d < d ==> k == 0
  {
    if k >= 1 {
      MulMonotone(1, k, d);
    } else if k <= -1 {
      MulMonotone(k, -1, d);
    }
  }

  lemma MulMonotone(a: int, b: int, c: int)
    requires a <= b && c >= 0
    ensures a * c <= b * c
  {
  }

  /** The guard before the first product: it may be formed exactly when it fits. */
  lemma ProductFits(whole: nat, numer: nat)
    requires numer > 0
    ensures whole > UINT64_MAX / numer <==> whole * numer > UINT64_MAX
  {
    var m := UINT64_MAX / numer;
    assert m * numer <= UINT64_MAX < (m + 1) * numer by {
      assert UINT64_MAX == m * numer + UINT64_MAX % numer;
      assert (m + 1) * numer == m * numer + numer;
    }
    if whole > m {
      MulMonotone(m + 1, whole, numer);
    } else {
      MulMonotone(whole, m, numer);
    }
  }

  /** The second product is of a 32-bit remainder and a 32-bit factor. */
  lemma SmallProductFits(rest: nat, t: Timebase)
    requires t.Valid() && rest < t.denom
    ensures Fits(rest * t.numer)
  {
    MulMonotone(rest, UINT32_MAX, t.numer);
    MulMonotone(t.numer, UINT32_MAX, UINT32_MAX);
  }

  /** Every intermediate value of the conversion fits in 64 bits, and the guards fail exactly
      when the result does not. */
  lemma IntermediatesFit(ticks: nat, t: Timebase)
    requires Fits(ticks) && t.Valid() && t.numer > 0 && t.denom > 0
    ensures var whole, rest := ticks / t.denom, ticks % t.denom;
      && whole >= 0 && Fits(rest * t.numer) && 0 <= rest * t.numer / t.denom
      && (whole <= UINT64_MAX / t.numer ==> Fits(whole * t.numer))
      && (whole > UINT64_MAX / t.numer ==> whole * t.numer > UINT64_MAX)
      && Scaled(ticks, t) == whole * t.numer + rest * t.numer / t.denom
  {
    var whole, rest := ticks / t.denom, ticks % t.denom;
    SplitScaling(ticks, t);
    ProductFits(whole, t.numer);
    SmallProductFits(rest, t);
    NonNegative(rest * t.numer, t.denom);
    MulMonotone(0, whole, t.numer);
  }

  lemma NonNegative(n: nat, d: nat)
    requires d > 0
    ensures n / d >= 0
  {
  }

  /** The exact floor of ticks * numer / denom, for every 64-bit tick count, or nothing if it
      does not fit in 64 bits; every intermediate value fits. */
  function ConvertMachTicksToNanoseconds(machTicks: nat, timebase: Timebase): (nanoseconds: Option<nat>)
    requires Fits(machTicks) && timebase.Valid()
    ensures nanoseconds.Some? <==>
      timebase.numer > 0 && timebase.denom > 0 && Fits(Scaled(machTicks, timebase))
    ensures nanoseconds.Some? ==> nanoseconds.value == Scaled(machTicks, timebase)
  {
    if timebase.numer == 0 || timebase.denom == 0 then None
    else
      var whole := machTicks / timebase.denom;
      var rest := machTicks % timebase.denom;
      IntermediatesFit(machTicks, timebase);
      if whole > UINT64_MAX / timebase.numer then None
      else
        var wholeNanoseconds := whole * timebase.numer;
        var fraction := rest * timebase.numer / timebase.denom;
        if fraction > UINT64_MAX - wholeNanoseconds then None else Some(wholeNanoseconds + fraction)
  }

  /** More ticks are never fewer nanoseconds. */
  lemma ScalingIsMonotone(a: nat, b: nat, t: Timebase)
    requires t.denom > 0 && a <= b
    ensures Scaled(a, t) <= Scaled(b, t)
  {
    MulMonotone(a, b, t.numer);
    DivideMonotone(a * t.numer, b * t.numer, t.denom);
  }

  lemma DivideMonotone(m: int, n: int, d: int)
    requires d > 0 && m <= n
    ensures m / d <= n / d
  {
    var p, q := m / d, n / d;
    assert (q + 1) * d == q * d + d;
    assert m == p * d + m % d && n == q * d + n % d;
    if p > q {
      MulMonotone(q + 1, p, d);
    }
  }

  /** The value is the floor: the largest whole number of nanoseconds not above the exact
      quotient. */
  lemma ScaledIsFloor(ticks: nat, t: Timebase, n: nat)
    requires t.denom > 0
    ensures n == Scaled(ticks, t) <==> n * t.denom <= ticks * t.numer < (n + 1) * t.denom
  {
    var x := ticks * t.numer;
    var q := x / t.denom;
    assert x == q * t.denom + x % t.denom;
    assert (q + 1) * t.denom == q * t.denom + t.denom;
    if n < q {
      MulMonotone(n + 1, q, t.denom);
    } else if n > q {
      MulMonotone(q + 1, n, t.denom);
    }
  }
}

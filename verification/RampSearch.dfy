/**
 * The two step-count searches of the ramp segment encoder: the direct scan
 * `findBestRamp`, which the encoder uses for every sloped segment, and the
 * integer-ratio search `findBestRatio`, an alternative the encoder does not call.
 */
module RampSearch {
  import opened Wrappers
  import opened Numeric

  // ---------------------------------------------------------------------
  // findBestRamp: direct scan over candidate step counts
  // ---------------------------------------------------------------------

  /**
   * The error the scan assigns to `n` steps for a ramp of height `voltage`
   * and length `time`: the product of the final-voltage and final-time errors
   * of the rounded step sizes, plus half the area of one step.
   */
  function TotalError(voltage: real, time: real, dV: real, dt: real, n: int): (e: real)
    requires dV > 0.0 && dt > 0.0 && n > 0
    ensures voltage >= 0.0 && time >= 0.0 ==> e >= 0.0
  {
    var l := Round(voltage / dV / n as real);
    var m := Round(time / dt / n as real);
    var voltErr := Abs(voltage - l as real * n as real * dV);
    var timeErr := Abs(time - m as real * n as real * dt);
    var stepError := dt * dV * l as real * m as real / 2.0;
    assert voltage >= 0.0 && time >= 0.0 ==> l >= 0 && m >= 0 && stepError >= 0.0;
    voltErr * timeErr + stepError
  }

  /** A step count in [lo, hi] whose error is least: the first entry of numpy's argsort. */
  function BestStepCount(voltage: real, time: real, dV: real, dt: real, lo: int, hi: int): (n: int)
    requires dV > 0.0 && dt > 0.0 && 0 < lo <= hi
    ensures lo <= n <= hi
    ensures forall k :: lo <= k <= hi ==>
              TotalError(voltage, time, dV, dt, n) <= TotalError(voltage, time, dV, dt, k)
    decreases hi - lo
  {
    if lo == hi then lo
    else
      var rest := BestStepCount(voltage, time, dV, dt, lo + 1, hi);
      if TotalError(voltage, time, dV, dt, lo) <= TotalError(voltage, time, dV, dt, rest) then lo else rest
  }

  /** The exclusive upper end of numpy's `arange(minN, max(min(v, t), 1) + 1)`. */
  function ScanStop(voltage: real, time: real, dV: real, dt: real): real
    requires dV > 0.0 && dt > 0.0
  {
    Max(Min(voltage / dV, time / dt), 1.0) + 1.0
  }

  /** A longer time never shrinks the scanned range. */
  lemma ScanStopGrows(voltage: real, time: real, longer: real, dV: real, dt: real)
    requires dV > 0.0 && dt > 0.0 && time <= longer
    ensures ScanStop(voltage, time, dV, dt) <= ScanStop(voltage, longer, dV, dt)
  {
    DivMono(time, longer, dt);
  }

  /**
   * findBestRamp: the step count in [minN, ScanStop) with least TotalError.
   * An empty range makes the source index an empty argsort, which raises.
   */
  function FindBestRamp(voltage: real, time: real, dV: real, dt: real, minN: int): (r: Result<int, ()>)
    requires dV > 0.0 && dt > 0.0 && minN >= 1
    ensures r.Ok? <==> minN as real < ScanStop(voltage, time, dV, dt)
    ensures r.Ok? ==> minN <= r.value && (r.value as real) < ScanStop(voltage, time, dV, dt)
    ensures r.Ok? ==> forall k :: minN <= k && (k as real) < ScanStop(voltage, time, dV, dt) ==>
              TotalError(voltage, time, dV, dt, r.value) <= TotalError(voltage, time, dV, dt, k)
  {
    var stop := ScanStop(voltage, time, dV, dt);
    var top := Ceil(stop) - 1;
    BelowCeil(minN, stop);
    if minN > top then Err(())
    else
      var n := BestStepCount(voltage, time, dV, dt, minN, top);
      ScanCoversRange(voltage, time, dV, dt, minN, n);
      Ok(n)
  }

  /** Every integer below ScanStop is at most Ceil(ScanStop) - 1, so BestStepCount saw it. */
  lemma ScanCoversRange(voltage: real, time: real, dV: real, dt: real, minN: int, n: int)
    requires dV > 0.0 && dt > 0.0 && 0 < minN <= n <= Ceil(ScanStop(voltage, time, dV, dt)) - 1
    requires forall k :: minN <= k <= Ceil(ScanStop(voltage, time, dV, dt)) - 1 ==>
               TotalError(voltage, time, dV, dt, n) <= TotalError(voltage, time, dV, dt, k)
    ensures (n as real) < ScanStop(voltage, time, dV, dt)
    ensures forall k :: minN <= k && (k as real) < ScanStop(voltage, time, dV, dt) ==>
              TotalError(voltage, time, dV, dt, n) <= TotalError(voltage, time, dV, dt, k)
  {
    var stop := ScanStop(voltage, time, dV, dt);
    BelowCeil(n, stop);
    forall k | minN <= k && (k as real) < stop
      ensures TotalError(voltage, time, dV, dt, n) <= TotalError(voltage, time, dV, dt, k)
    {
      BelowCeil(k, stop);
    }
  }

  // ---------------------------------------------------------------------
  // findBestRatio: integer-ratio search
  // ---------------------------------------------------------------------

  /** Why findBestRatio raises instead of returning. */
  datatype RatioError =
    | DivisionByZero       // r == 0: 1/r
    | UnboundedRecursion   // r < 0: the r < 1 branch calls itself forever
    | UnboundPrev          // integer r: `prev` is read before any assignment

  /** The largest fraction with denominator b that lies strictly below r. */
  function BestBelow(r: real, b: int): real
    requires b >= 1
  {
    NumBelow(r, b) as real / b as real
  }

  /** The largest numerator a with a / b < r. */
  function NumBelow(r: real, b: int): int
    requires b >= 1
  {
    Ceil(r * b as real) - 1
  }

  /** The numerator findBestRatio tries first for denominator b: int(a * b / (b - 1)). */
  function StartNumerator(a: int, b: int): int
    requires b >= 2
  {
    Trunc(a as real * b as real / (b - 1) as real)
  }

  /** The first numerator tried for denominator b once the scan has reached b. */
  function FirstNumerator(r: real, b: int): int
    requires b >= 2
  {
    StartNumerator(NumBelow(r, b - 1), b)
  }

  /** BestBelow(r, b) is below r, and no fraction a/b below r exceeds it. */
  lemma BestBelowIsBest(r: real, a: int, b: int)
    requires b >= 1
    ensures BestBelow(r, b) < r
    ensures a as real / b as real < r ==> a as real / b as real <= BestBelow(r, b)
  {
    var c := Ceil(r * b as real);
    var bb := b as real;
    assert (c - 1) as real < r * bb;
    DivLess((c - 1) as real, r, bb);
    if a as real / bb < r {
      MulLess(a as real, r, bb);
      BelowCeil(a, r * bb);
      assert a <= c - 1;
      assert a as real <= (c - 1) as real;
      DivMono(a as real, (c - 1) as real, bb);
    }
  }

  lemma CeilFromBracket(k: int, x: real)
    requires (k - 1) as real < x <= k as real
    ensures Ceil(x) == k
  {
  }

  /**
   * The first numerator tried for denominator b, int(a * b / (b - 1)), lies
   * strictly below r * b when a / (b - 1) lies below r.
   */
  lemma StartBelow(r: real, a: int, b: int)
    requires b >= 2 && a >= 0 && (a as real) < r * (b - 1) as real
    ensures StartNumerator(a, b) as real < r * b as real
  {
    var bm := (b - 1) as real;
    var q := a as real / bm;
    assert a as real == q * bm;
    DivLess(a as real, r, bm);
    assert a as real * b as real / bm == q * b as real;
    assert q * b as real < r * b as real;
  }

  /** A numerator whose fraction is below r lies below ceil(r * b): the inner loop's bound. */
  lemma StepBelowCeil(r: real, b: int, a: int)
    requires b >= 1 && a as real / b as real < r
    ensures a < Ceil(r * b as real)
  {
    MulLess(a as real, r, b as real);
    BelowCeil(a, r * b as real);
  }

  /** Where the inner loop stops, one numerator past the best fraction below r. */
  lemma StopAboveBest(r: real, b: int, a: int)
    requires b >= 1 && (a - 1) as real / b as real < r <= a as real / b as real
    ensures a == NumBelow(r, b) + 1
    ensures (a - 1) as real / b as real == BestBelow(r, b)
  {
    MulLess((a - 1) as real, r, b as real);
    MulAtMost(a as real, r, b as real);
    CeilFromBracket(a, r * b as real);
  }

  /**
   * The inner while loop of findBestRatio: from the first numerator tried for
   * denominator b, step the numerator up until numerator / b reaches r.
   * `ran` says whether the body ran at least once (only then is `prev` set).
   */
  method RaiseNumerator(r: real, b: int, startingA: int) returns (next: int, prev: real, ran: bool)
    requires b >= 1
    ensures ran <==> startingA as real / b as real < r
    ensures !ran ==> next == startingA
    ensures ran ==> next == NumBelow(r, b) + 1 && prev == BestBelow(r, b)
  {
    next := startingA;
    prev := 0.0;
    ran := false;
    var current := next as real / b as real;
    while current < r
      invariant current == next as real / b as real
      invariant ran <==> next != startingA
      invariant ran ==> prev == (next - 1) as real / b as real && prev < r
      invariant ran ==> startingA as real / b as real < r
      decreases Ceil(r * b as real) - next
    {
      StepBelowCeil(r, b, next);
      next := next + 1;
      prev := current;
      ran := true;
      current := next as real / b as real;
    }
    if ran {
      StopAboveBest(r, b, next);
    }
  }

  /**
   * findBestRatio for r >= 1: returns (int(r), 1) when r exceeds A, and
   * otherwise scans the denominators below B.
   */
  method FindBestRatioFromOne(r: real, A: int, B: int) returns (res: Result<(int, int), RatioError>, ghost stop: int)
    requires r >= 1.0
    ensures r > A as real ==> res == Ok((Floor(r), 1))
    ensures r <= A as real && IsInteger(r) ==>
              res == if B > 2 && 2 * Floor(r) <= A then Err(UnboundPrev) else Ok((Floor(r), 1))
    ensures r <= A as real && !IsInteger(r) ==>
              res.Ok? && 1 <= res.value.1 && (res.value.1 == 1 || res.value.1 < B)
              && Floor(r) as real <= res.value.0 as real / res.value.1 as real < r
              && 2 <= stop && (stop < B ==> FirstNumerator(r, stop) > A)
              && forall b :: 1 <= b < stop ==> BestBelow(r, b) <= res.value.0 as real / res.value.1 as real
  {
    var b := 1;
    var a := Trunc(r);
    stop := 2;
    if r > A as real {
      return Ok((a, b)), stop;
    }
    if IsInteger(r) {
      res := ScanDenominatorsIntegral(r, A, B);
    } else {
      res, stop := ScanDenominators(r, A, B);
    }
  }

  /**
   * The scan of findBestRatio on an integer r never gets past its first
   * denominator, b = 2: either the starting numerator 2 * int(r) exceeds A
   * and the scan breaks, or the inner loop does not run (2 * r / 2 == r) and
   * `prev` is read before it was ever assigned.
   */
  method ScanDenominatorsIntegral(r: real, A: int, B: int) returns (res: Result<(int, int), RatioError>)
    requires r >= 1.0 && IsInteger(r)
    ensures res == if B > 2 && 2 * Floor(r) <= A then Err(UnboundPrev) else Ok((Floor(r), 1))
  {
    var a := Trunc(r);
    var b := 2;
    if b < B {
      var startingA := StartNumerator(a, b);
      assert startingA == 2 * a;
      if startingA <= A {
        var next, p, ran := RaiseNumerator(r, b, startingA);
        assert !ran;
        return Err(UnboundPrev);
      }
    }
    return Ok((a, 1));
  }

  /**
   * The scan of findBestRatio on a non-integer r >= 1: for each denominator b
   * the inner loop finds the largest fraction below r, and the largest of
   * those is kept.
   */
  method ScanDenominators(r: real, A: int, B: int) returns (res: Result<(int, int), RatioError>, ghost stop: int)
    requires r >= 1.0 && !IsInteger(r)
    ensures res.Ok? && 1 <= res.value.1 && (res.value.1 == 1 || res.value.1 < B)
    ensures Floor(r) as real <= res.value.0 as real / res.value.1 as real < r
    ensures 2 <= stop && (stop < B ==> FirstNumerator(r, stop) > A)
    ensures forall b :: 1 <= b < stop ==> BestBelow(r, b) <= res.value.0 as real / res.value.1 as real
  {
    var a := Trunc(r);
    var best: real := a as real;
    var bestA, bestB := a, 1;
    var prev: real := 0.0;
    var prevBound := false;
    CeilOfNonInteger(r);
    var b := 2;
    while b < B
      invariant 2 <= b && (b <= B || b == 2)
      invariant a == NumBelow(r, b - 1) && a >= 0
      invariant 1 <= bestB < b && best == bestA as real / bestB as real
      invariant Floor(r) as real <= best < r
      invariant forall k :: 1 <= k < b ==> BestBelow(r, k) <= best
    {
      var startingA := StartNumerator(a, b);
      if startingA > A {
        break;
      }
      StartBelow(r, a, b);
      DivLess(startingA as real, r, b as real);
      var next, p, ran := RaiseNumerator(r, b, startingA);
      if ran {
        prev, prevBound := p, true;
      }
      startingA := next;
      a := startingA - 1;
      if !prevBound {
        return Err(UnboundPrev), b;
      }
      BestBelowIsBest(r, 0, b);
      assert prev == a as real / b as real;
      if prev >= best {
        best := prev;
        bestA := a;
        bestB := b;
      }
      b := b + 1;
    }
    stop := b;
    return Ok((bestA, bestB)), stop;
  }

  /**
   * a / b is what findBestRatio's scan keeps for r >= 1: b is 1 or a scanned
   * denominator below B, a / b lies in [int(r), r), the scan stopped at
   * `stop` (at B, or where the first numerator exceeds A), and no
   * denominator it scanned has a larger fraction below r.
   */
  predicate BestOfScan(r: real, A: int, B: int, a: int, b: int, stop: int) {
    && 1 <= b && (b == 1 || b < B)
    && Floor(r) as real <= a as real / b as real < r
    && 2 <= stop && (stop < B ==> FirstNumerator(r, stop) > A)
    && forall k :: 1 <= k < stop ==> BestBelow(r, k) <= a as real / b as real
  }

  /**
   * findBestRatio: approximates r by a fraction a / b with a bounded by A and
   * b by B. For r < 1 it approximates 1 / r with the roles of A and B
   * swapped and swaps the result back.
   */
  method FindBestRatio(r: real, A: int, B: int) returns (res: Result<(int, int), RatioError>, ghost stop: int)
    ensures r == 0.0 ==> res == Err(DivisionByZero)
    ensures r < 0.0 ==> res == Err(UnboundedRecursion)
    ensures r >= 1.0 && r > A as real ==> res == Ok((Floor(r), 1))
    ensures r >= 1.0 && r <= A as real && IsInteger(r) ==>
              res == if B > 2 && 2 * Floor(r) <= A then Err(UnboundPrev) else Ok((Floor(r), 1))
    ensures r >= 1.0 && r <= A as real && !IsInteger(r) ==>
              res.Ok? && BestOfScan(r, A, B, res.value.0, res.value.1, stop)
    ensures 0.0 < r < 1.0 && 1.0 / r > B as real ==> res == Ok((1, Floor(1.0 / r)))
    ensures 0.0 < r < 1.0 && 1.0 / r <= B as real && IsInteger(1.0 / r) ==>
              res == if A > 2 && 2 * Floor(1.0 / r) <= B then Err(UnboundPrev) else Ok((1, Floor(1.0 / r)))
    ensures 0.0 < r < 1.0 && 1.0 / r <= B as real && !IsInteger(1.0 / r) ==>
              res.Ok? && BestOfScan(1.0 / r, B, A, res.value.1, res.value.0, stop)
  {
    if r < 1.0 {
      if r == 0.0 {
        return Err(DivisionByZero), 2;
      }
      if r < 0.0 {
        return Err(UnboundedRecursion), 2;
      }
      assert 1.0 / r >= 1.0 by {
        DivMono(r, 1.0, r);
        assert r / r == 1.0;
      }
      var swapped;
      swapped, stop := FindBestRatioFromOne(1.0 / r, B, A);
      match swapped {
        case Ok((bestB, bestA)) => return Ok((bestA, bestB)), stop;
        case Err(e) => return Err(e), stop;
      }
    }
    res, stop := FindBestRatioFromOne(r, A, B);
  }
}

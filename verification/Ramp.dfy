/**
 * The ramp segment table of the ramp hardware module: `set_value` turns
 * (x, y) breakpoints (times and output values) into nOfSegments slots of
 * (startPoint, stepIncrease, timeStep, nOfSteps), and `get_value` turns the
 * slots back into breakpoints. A slot with nOfSteps == 0 is unused.
 *
 * The register encoding of each field (fixed point, bit width) is not part
 * of this model: the table holds the real values handed to the registers.
 */
module Ramp {
  import opened Wrappers
  import opened Numeric
  import RampSearch

  /** Longest single step of a flat segment, in seconds (just under 2^24 clock cycles). */
  const MaxStepTime: real := 0.10
  /** The smallest step count findBestRamp is asked to consider. */
  const MinSteps: int := 2

  datatype Config = Config(
    nOfSegments: nat,
    timeRegistersBitSize: nat,
    smallestStepIncrease: real,
    smallestTimeStep: real)

  predicate ValidConfig(cfg: Config) {
    cfg.nOfSegments >= 1 && cfg.smallestStepIncrease > 0.0 && cfg.smallestTimeStep > 0.0
  }

  /** The configuration of the ramp module: 8 slots, 24-bit times, 2^-13 and 3 clock cycles of 8 ns. */
  const DefaultConfig := Config(8, 24, 1.0 / 8192.0, 0.000000024)

  datatype RampError =
    | TooManySegments   // more than nOfSegments + 1 breakpoints
    | MissingEdge       // fewer values than times: y[i + 1] does not exist
    | EmptyStepRange    // findBestRamp had no step count to choose from
    | ZeroStepCount     // a flat segment of non-positive length gets 0 steps; int() of a non-finite time raises

  /** One slot of the table. */
  datatype Segment = Segment(startPoint: real, stepIncrease: real, timeStep: real, nOfSteps: int)

  /** The content of a slot the encoder does not use. */
  const Unused := Segment(0.0, 0.0, 0.0, 0)

  /** The output at the end of a slot: startPoint + stepIncrease * nOfSteps. */
  function EndValue(s: Segment): real {
    s.startPoint + s.stepIncrease * s.nOfSteps as real
  }

  /** The time a slot lasts: timeStep * nOfSteps. */
  function Duration(s: Segment): real {
    s.timeStep * s.nOfSteps as real
  }

  /** The segment lengths x[i + 1] - x[i]. */
  function Durations(x: seq<real>): (d: seq<real>)
    ensures |d| == if |x| == 0 then 0 else |x| - 1
    ensures forall i :: 0 <= i < |d| ==> d[i] == x[i + 1] - x[i]
  {
    if |x| <= 1 then [] else seq(|x| - 1, i requires 0 <= i < |x| - 1 => x[i + 1] - x[i])
  }

  // ---------------------------------------------------------------------
  // One segment
  // ---------------------------------------------------------------------

  /**
   * The step count of one segment: ceil(T / 0.10) for a flat segment,
   * findBestRamp's choice for a sloped one.
   */
  function StepCount(cfg: Config, startValue: real, endValue: real, rampTime: real): (r: Result<int, RampError>)
    requires ValidConfig(cfg)
    ensures startValue == endValue ==> r == Ok(Ceil(rampTime / MaxStepTime))
    ensures startValue != endValue ==>
              (r.Ok? <==> MinSteps as real < RampSearch.ScanStop(Abs(endValue - startValue), rampTime,
                                                                 cfg.smallestStepIncrease, cfg.smallestTimeStep))
    ensures startValue != endValue && r.Ok? ==> r.value >= MinSteps
    ensures startValue != endValue && r.Ok? ==>
              RampSearch.FindBestRamp(Abs(endValue - startValue), rampTime, cfg.smallestStepIncrease,
                                      cfg.smallestTimeStep, MinSteps) == Ok(r.value)
  {
    if startValue == endValue then
      Ok(Ceil(rampTime / MaxStepTime))
    else
      match RampSearch.FindBestRamp(Abs(endValue - startValue), rampTime,
                                    cfg.smallestStepIncrease, cfg.smallestTimeStep, MinSteps)
      case Ok(n) => Ok(n)
      case Err(_) => Err(EmptyStepRange)
  }

  /**
   * The slot written for the segment from startValue to endValue lasting
   * rampTime: it starts at startValue, ends exactly at endValue and lasts
   * exactly rampTime; a flat segment has a zero increment.
   */
  function EncodeSegment(cfg: Config, startValue: real, endValue: real, rampTime: real): (r: Result<Segment, RampError>)
    requires ValidConfig(cfg)
    ensures r.Ok? ==> r.value.startPoint == startValue && r.value.nOfSteps != 0
    ensures r.Ok? ==> EndValue(r.value) == endValue && Duration(r.value) == rampTime
    ensures r.Ok? && startValue == endValue ==>
              r.value.stepIncrease == 0.0 && r.value.nOfSteps == Ceil(rampTime / MaxStepTime)
    ensures r.Ok? && startValue != endValue ==> r.value.nOfSteps >= MinSteps
    ensures r.Ok? && startValue != endValue ==>
              RampSearch.FindBestRamp(Abs(endValue - startValue), rampTime, cfg.smallestStepIncrease,
                                      cfg.smallestTimeStep, MinSteps) == Ok(r.value.nOfSteps)
    ensures r.Err? ==> r.error == ZeroStepCount || r.error == EmptyStepRange
    ensures r == Err(ZeroStepCount) <==> startValue == endValue && Ceil(rampTime / MaxStepTime) == 0
    ensures r == Err(EmptyStepRange) <==>
              startValue != endValue &&
              !(MinSteps as real < RampSearch.ScanStop(Abs(endValue - startValue), rampTime,
                                                       cfg.smallestStepIncrease, cfg.smallestTimeStep))
  {
    var n :- StepCount(cfg, startValue, endValue, rampTime);
    if n == 0 then Err(ZeroStepCount)
    else Ok(SplitSegment(startValue, endValue, rampTime, n))
  }

  /**
   * The slot for n steps from startValue to endValue over rampTime: the
   * increment (endValue - startValue) / n, 0 for a flat segment, and the
   * step time rampTime / n.
   */
  function SplitSegment(startValue: real, endValue: real, rampTime: real, n: int): (s: Segment)
    requires n != 0
    ensures s.startPoint == startValue && s.nOfSteps == n
    ensures EndValue(s) == endValue && Duration(s) == rampTime
    ensures startValue == endValue ==> s.stepIncrease == 0.0
  {
    var nn := n as real;
    var increment := if startValue == endValue then 0.0 else (endValue - startValue) / nn;
    assert increment * nn == endValue - startValue;
    assert rampTime / nn * nn == rampTime;
    Segment(startValue, increment, rampTime / nn, n)
  }

  /**
   * The time lost to quantising a segment's step time to multiples of
   * smallestTimeStep: rampTime - int(rampTime / n / dt) * dt * n.
   */
  function Residual(cfg: Config, rampTime: real, n: int): real
    requires ValidConfig(cfg) && n != 0
  {
    rampTime - ActualTiming(cfg, rampTime, n)
  }

  /** The length the registers give a segment of n steps: int(rampTime / n / dt) * dt * n. */
  function ActualTiming(cfg: Config, rampTime: real, n: int): real
    requires ValidConfig(cfg) && n != 0
  {
    Trunc(rampTime / n as real / cfg.smallestTimeStep) as real * cfg.smallestTimeStep * n as real
  }

  /** For a segment of non-negative length, the residual lies in [0, n * smallestTimeStep). */
  lemma ResidualBounds(cfg: Config, rampTime: real, n: int)
    requires ValidConfig(cfg) && n > 0 && rampTime >= 0.0
    ensures 0.0 <= Residual(cfg, rampTime, n) < n as real * cfg.smallestTimeStep
  {
    var q := rampTime / n as real / cfg.smallestTimeStep;
    QuantisationLoss(rampTime, n as real, cfg.smallestTimeStep, Trunc(q) as real);
  }

  /** Cutting t / n / dt down to f, with f <= t / n / dt < f + 1, loses less than n * dt of t. */
  lemma QuantisationLoss(t: real, n: real, dt: real, f: real)
    requires n > 0.0 && dt > 0.0 && f <= t / n / dt < f + 1.0
    ensures 0.0 <= t - f * dt * n < n * dt
  {
    var w := n * dt;
    assert t / n / dt == t / w;
    MulAtMost(t, f, w);
    MulLess(t, f + 1.0, w);
    Bracket(t, w, f);
    assert f * dt * n == f * w;
  }

  // ---------------------------------------------------------------------
  // The whole table
  // ---------------------------------------------------------------------

  /** The state of the encoder's loop: the slots filled so far and the time carried to the last segment. */
  datatype Progress = Progress(segments: seq<Segment>, carry: real)

  /**
   * The first i iterations of the encoder's loop over the segment lengths
   * `times`. Each segment but the last adds its residual to the carry; the
   * last segment lasts times[last] plus the carry.
   */
  function EncodePrefix(cfg: Config, y: seq<real>, times: seq<real>, i: nat): (r: Result<Progress, RampError>)
    requires ValidConfig(cfg) && i <= |times|
    ensures r.Ok? ==> |r.value.segments| == i
    ensures r.Err? ==> r.error != TooManySegments
    ensures i > 0 && r.Ok? ==> i < |y|
  {
    if i == 0 then Ok(Progress([], 0.0))
    else
      var p :- EncodePrefix(cfg, y, times, i - 1);
      var j := i - 1;
      if j + 1 >= |y| then Err(MissingEdge)
      else
        var last := |times| - 1;
        var rampTime := if j == last then times[j] + p.carry else times[j];
        var seg :- EncodeSegment(cfg, y[j], y[j + 1], rampTime);
        var carry := if j != last then p.carry + Residual(cfg, rampTime, seg.nOfSteps) else p.carry;
        Ok(Progress(p.segments + [seg], carry))
  }

  /**
   * set_value as a function: the full table of nOfSegments slots, the used
   * ones first and the rest Unused, or the error the source raises before
   * writing any register.
   */
  function Encode(cfg: Config, x: seq<real>, y: seq<real>): (r: Result<seq<Segment>, RampError>)
    requires ValidConfig(cfg)
    ensures |x| > cfg.nOfSegments + 1 ==> r == Err(TooManySegments)
    ensures r.Ok? ==> |r.value| == cfg.nOfSegments
  {
    if |x| > cfg.nOfSegments + 1 then Err(TooManySegments)
    else
      var times := Durations(x);
      var p :- EncodePrefix(cfg, y, times, |times|);
      Ok(p.segments + seq(cfg.nOfSegments - |times|, _ => Unused))
  }

  /** The sum of the residuals of the given slots, segment lengths taken from `times`. */
  function CarryOver(cfg: Config, times: seq<real>, segs: seq<Segment>): real
    requires ValidConfig(cfg) && |segs| <= |times|
    requires forall j :: 0 <= j < |segs| ==> segs[j].nOfSteps != 0
  {
    if segs == [] then 0.0
    else
      var k := |segs| - 1;
      CarryOver(cfg, times, segs[..k]) + Residual(cfg, times[k], segs[k].nOfSteps)
  }

  /** An error of the loop is final: later iterations do not run. */
  lemma {:induction false} ErrorPersists(cfg: Config, y: seq<real>, times: seq<real>, i: nat, k: nat)
    requires ValidConfig(cfg) && i <= k <= |times| && EncodePrefix(cfg, y, times, i).Err?
    ensures EncodePrefix(cfg, y, times, k) == EncodePrefix(cfg, y, times, i)
    decreases k - i
  {
    if i < k {
      ErrorPersists(cfg, y, times, i, k - 1);
    }
  }

  /** One iteration of the loop, given the slot it computes. */
  lemma EncodePrefixStep(cfg: Config, y: seq<real>, times: seq<real>, i: nat, p: Progress, rampTime: real,
                         seg: Result<Segment, RampError>)
    requires ValidConfig(cfg) && i < |times| && i + 1 < |y| && EncodePrefix(cfg, y, times, i) == Ok(p)
    requires rampTime == if i == |times| - 1 then times[i] + p.carry else times[i]
    requires seg == EncodeSegment(cfg, y[i], y[i + 1], rampTime)
    ensures seg.Err? ==> EncodePrefix(cfg, y, times, i + 1) == Err(seg.error)
    ensures seg.Ok? ==>
              EncodePrefix(cfg, y, times, i + 1) ==
              Ok(Progress(p.segments + [seg.value],
                          if i != |times| - 1 then p.carry + Residual(cfg, rampTime, seg.value.nOfSteps) else p.carry))
  {
  }

  /** Later iterations only append: the first k slots after i iterations are those after k. */
  lemma {:induction false} EncodePrefixGrows(cfg: Config, y: seq<real>, times: seq<real>, k: nat, i: nat)
    requires ValidConfig(cfg) && k <= i <= |times| && EncodePrefix(cfg, y, times, i).Ok?
    ensures EncodePrefix(cfg, y, times, k).Ok?
    ensures EncodePrefix(cfg, y, times, k).value.segments == EncodePrefix(cfg, y, times, i).value.segments[..k]
    decreases i - k
  {
    if k < i {
      EncodePrefixGrows(cfg, y, times, k, i - 1);
      var q := EncodePrefix(cfg, y, times, i - 1).value.segments;
      var p := EncodePrefix(cfg, y, times, i).value.segments;
      assert p[..i - 1] == q;
      assert p[..k] == q[..k];
    } else {
      assert EncodePrefix(cfg, y, times, i).value.segments[..k] == EncodePrefix(cfg, y, times, i).value.segments;
    }
  }

  /**
   * Before the last segment, the loop's carry is the sum of the residuals
   * of the slots filled so far, each of which has a non-zero step count.
   */
  lemma {:induction false} EncodePrefixCarry(cfg: Config, y: seq<real>, times: seq<real>, i: nat)
    requires ValidConfig(cfg) && i < |times| && EncodePrefix(cfg, y, times, i).Ok?
    ensures var p := EncodePrefix(cfg, y, times, i).value;
            && (forall j :: 0 <= j < i ==> p.segments[j].nOfSteps != 0)
            && p.carry == CarryOver(cfg, times, p.segments)
  {
    if i > 0 {
      EncodePrefixCarry(cfg, y, times, i - 1);
      var q := EncodePrefix(cfg, y, times, i - 1).value;
      var p := EncodePrefix(cfg, y, times, i).value;
      assert p.segments[..i - 1] == q.segments;
    }
  }

  /**
   * The length the encoder gives the segment after the slots `done`: the
   * last segment also gets the carry of the others.
   */
  function SegmentTime(cfg: Config, times: seq<real>, done: seq<Segment>): real
    requires ValidConfig(cfg) && |done| < |times|
    requires forall h :: 0 <= h < |done| ==> done[h].nOfSteps != 0
  {
    var j := |done|;
    if j == |times| - 1 then times[j] + CarryOver(cfg, times, done) else times[j]
  }

  /** Iteration j of the loop encodes segment j over the SegmentTime of the slots before it. */
  lemma EncodePrefixLast(cfg: Config, y: seq<real>, times: seq<real>, j: nat)
    requires ValidConfig(cfg) && j < |times| && EncodePrefix(cfg, y, times, j + 1).Ok?
    ensures var p := EncodePrefix(cfg, y, times, j + 1).value.segments;
            && j + 1 < |y|
            && (forall h :: 0 <= h <= j ==> p[h].nOfSteps != 0)
            && EncodeSegment(cfg, y[j], y[j + 1], SegmentTime(cfg, times, p[..j])) == Ok(p[j])
  {
    var p := EncodePrefix(cfg, y, times, j + 1).value.segments;
    var q := EncodePrefix(cfg, y, times, j).value;
    EncodePrefixCarry(cfg, y, times, j);
    assert p == q.segments + [p[j]];
    assert p[..j] == q.segments;
  }

  /** A slot fact about a prefix p carries over to any sequence that starts with p. */
  lemma SlotOfLongerPrefix(cfg: Config, y: seq<real>, times: seq<real>, j: nat, p: seq<Segment>, segs: seq<Segment>)
    requires ValidConfig(cfg) && j < |times| && j + 1 < |y| && |p| == j + 1 && j < |segs| && segs[..j + 1] == p
    requires forall h :: 0 <= h <= j ==> p[h].nOfSteps != 0
    requires EncodeSegment(cfg, y[j], y[j + 1], SegmentTime(cfg, times, p[..j])) == Ok(p[j])
    ensures forall h :: 0 <= h <= j ==> segs[h].nOfSteps != 0
    ensures EncodeSegment(cfg, y[j], y[j + 1], SegmentTime(cfg, times, segs[..j])) == Ok(segs[j])
  {
    assert segs[..j] == p[..j];
    assert segs[j] == p[j];
  }

  /** Slot j of the loop's output encodes the segment from y[j] to y[j + 1] over its SegmentTime. */
  lemma EncodePrefixSlot(cfg: Config, y: seq<real>, times: seq<real>, i: nat, j: nat)
    requires ValidConfig(cfg) && j < i <= |times| && EncodePrefix(cfg, y, times, i).Ok?
    ensures var segs := EncodePrefix(cfg, y, times, i).value.segments;
            && j + 1 < |y|
            && (forall h :: 0 <= h <= j ==> segs[h].nOfSteps != 0)
            && EncodeSegment(cfg, y[j], y[j + 1], SegmentTime(cfg, times, segs[..j])) == Ok(segs[j])
  {
    EncodePrefixGrows(cfg, y, times, j + 1, i);
    EncodePrefixLast(cfg, y, times, j);
    SlotOfLongerPrefix(cfg, y, times, j, EncodePrefix(cfg, y, times, j + 1).value.segments,
                       EncodePrefix(cfg, y, times, i).value.segments);
  }

  /** The table of a successful Encode: the loop's slots, then Unused ones. */
  lemma EncodeLayout(cfg: Config, x: seq<real>, y: seq<real>)
    requires ValidConfig(cfg) && Encode(cfg, x, y).Ok?
    ensures var times := Durations(x); var t := Encode(cfg, x, y).value;
            && |times| <= cfg.nOfSegments
            && EncodePrefix(cfg, y, times, |times|).Ok?
            && t[..|times|] == EncodePrefix(cfg, y, times, |times|).value.segments
            && forall j :: |times| <= j < cfg.nOfSegments ==> t[j] == Unused
  {
  }

  // ---------------------------------------------------------------------
  // Properties of the encoder, one slot at a time
  // ---------------------------------------------------------------------

  /**
   * A used slot j starts at y[j], ends at y[j + 1] (consecutive slots join),
   * has a non-zero step count, and lasts x[j + 1] - x[j], plus the carried
   * residuals when it is the last used slot. A flat segment gets a zero
   * increment and ceil(T / 0.10) steps; a sloped one gets findBestRamp's
   * count, at least 2.
   */
  lemma EncodeUsedSlot(cfg: Config, x: seq<real>, y: seq<real>, j: nat)
    requires ValidConfig(cfg) && Encode(cfg, x, y).Ok? && j + 1 < |x|
    ensures var t := Encode(cfg, x, y).value;
            && j < cfg.nOfSegments && j + 1 < |y|
            && (forall h :: 0 <= h <= j ==> t[h].nOfSteps != 0)
            && t[j].startPoint == y[j]
            && EndValue(t[j]) == y[j + 1]
            && (j + 2 < |x| ==> Duration(t[j]) == x[j + 1] - x[j])
            && (j + 2 == |x| ==> Duration(t[j]) == x[j + 1] - x[j] + CarryOver(cfg, Durations(x), t[..j]))
            && (y[j] == y[j + 1] ==>
                  t[j].stepIncrease == 0.0 && t[j].nOfSteps == Ceil(Duration(t[j]) / MaxStepTime))
            && (y[j] != y[j + 1] ==> t[j].nOfSteps >= MinSteps)
            && (y[j] != y[j + 1] ==>
                  RampSearch.FindBestRamp(Abs(y[j + 1] - y[j]), Duration(t[j]), cfg.smallestStepIncrease,
                                          cfg.smallestTimeStep, MinSteps) == Ok(t[j].nOfSteps))
  {
    var times := Durations(x);
    var t := Encode(cfg, x, y).value;
    EncodeLayout(cfg, x, y);
    var segs := EncodePrefix(cfg, y, times, |times|).value.segments;
    EncodePrefixSlot(cfg, y, times, |times|, j);
    assert t[j] == segs[j];
    assert t[..j] == segs[..j];
    var seg := EncodeSegment(cfg, y[j], y[j + 1], SegmentTime(cfg, times, segs[..j]));
    assert seg.Ok? && seg.value == t[j];
  }

  /** Slots from |x| - 1 on keep all four fields at zero: nOfSteps == 0 marks them unused. */
  lemma EncodeUnusedSlot(cfg: Config, x: seq<real>, y: seq<real>, j: nat)
    requires ValidConfig(cfg) && Encode(cfg, x, y).Ok? && j + 1 >= |x| && j < cfg.nOfSegments
    ensures Encode(cfg, x, y).value[j] == Unused
  {
    EncodeLayout(cfg, x, y);
  }

  // ---------------------------------------------------------------------
  // When set_value succeeds
  // ---------------------------------------------------------------------

  /**
   * Breakpoints set_value accepts: at most nOfSegments + 1 of them, a value
   * for each, strictly increasing times, and for each sloped segment a
   * non-empty findBestRamp range at its nominal length.
   */
  predicate Encodable(cfg: Config, x: seq<real>, y: seq<real>)
    requires ValidConfig(cfg)
  {
    && |x| <= cfg.nOfSegments + 1 && |y| >= |x|
    && forall j :: 0 <= j < |x| - 1 ==> SegmentEncodable(cfg, y[j], y[j + 1], x[j + 1] - x[j])
  }

  /** A segment of positive length, sloped ones with at least MinSteps to choose from. */
  predicate SegmentEncodable(cfg: Config, startValue: real, endValue: real, rampTime: real)
    requires ValidConfig(cfg)
  {
    && rampTime > 0.0
    && (startValue != endValue ==>
          MinSteps as real < RampSearch.ScanStop(Abs(endValue - startValue), rampTime,
                                                 cfg.smallestStepIncrease, cfg.smallestTimeStep))
  }

  /** An encodable segment stays encodable when it is lengthened, and gets a positive step count. */
  lemma SegmentSucceeds(cfg: Config, startValue: real, endValue: real, rampTime: real, longer: real)
    requires ValidConfig(cfg) && SegmentEncodable(cfg, startValue, endValue, rampTime) && rampTime <= longer
    ensures EncodeSegment(cfg, startValue, endValue, longer).Ok?
    ensures EncodeSegment(cfg, startValue, endValue, longer).value.nOfSteps > 0
  {
    if startValue == endValue {
      assert longer / MaxStepTime > 0.0;
    } else {
      RampSearch.ScanStopGrows(Abs(endValue - startValue), rampTime, longer,
                               cfg.smallestStepIncrease, cfg.smallestTimeStep);
    }
  }

  /** On encodable segment lengths every iteration succeeds, and the carry stays non-negative. */
  lemma {:induction false} EncodePrefixSucceeds(cfg: Config, y: seq<real>, times: seq<real>, i: nat)
    requires ValidConfig(cfg) && i <= |times|
    requires |times| == 0 || |times| < |y|
    requires forall j :: 0 <= j < |times| ==> SegmentEncodable(cfg, y[j], y[j + 1], times[j])
    ensures EncodePrefix(cfg, y, times, i).Ok? && EncodePrefix(cfg, y, times, i).value.carry >= 0.0
  {
    if i > 0 {
      var j := i - 1;
      EncodePrefixSucceeds(cfg, y, times, j);
      var p := EncodePrefix(cfg, y, times, j).value;
      var rampTime := if j == |times| - 1 then times[j] + p.carry else times[j];
      SegmentSucceeds(cfg, y[j], y[j + 1], times[j], rampTime);
      var seg := EncodeSegment(cfg, y[j], y[j + 1], rampTime);
      if j != |times| - 1 {
        ResidualBounds(cfg, rampTime, seg.value.nOfSteps);
      }
      EncodePrefixStep(cfg, y, times, j, p, rampTime, seg);
    }
  }

  /** set_value succeeds on every encodable input. */
  lemma EncodeSucceeds(cfg: Config, x: seq<real>, y: seq<real>)
    requires ValidConfig(cfg) && Encodable(cfg, x, y)
    ensures Encode(cfg, x, y).Ok?
  {
    var times := Durations(x);
    EncodePrefixSucceeds(cfg, y, times, |times|);
  }

  /**
   * For breakpoints with non-decreasing times, the time carried to the last
   * segment is non-negative and less than smallestTimeStep times the steps
   * of the segments it comes from.
   */
  lemma {:induction false} CarryOverBounds(cfg: Config, times: seq<real>, segs: seq<Segment>)
    requires ValidConfig(cfg) && |segs| <= |times|
    requires forall j :: 0 <= j < |segs| ==> segs[j].nOfSteps > 0 && times[j] >= 0.0
    ensures 0.0 <= CarryOver(cfg, times, segs) <= TotalSteps(segs) as real * cfg.smallestTimeStep
    ensures segs != [] ==> CarryOver(cfg, times, segs) < TotalSteps(segs) as real * cfg.smallestTimeStep
  {
    if segs != [] {
      var k := |segs| - 1;
      CarryOverBounds(cfg, times, segs[..k]);
      ResidualBounds(cfg, times[k], segs[k].nOfSteps);
      SlotBound(CarryOver(cfg, times, segs[..k]), Residual(cfg, times[k], segs[k].nOfSteps),
                CarryOver(cfg, times, segs), TotalSteps(segs[..k]) as real, segs[k].nOfSteps as real,
                TotalSteps(segs) as real, cfg.smallestTimeStep);
    }
  }

  /** A carry of at most m steps plus a residual below n steps is below m + n steps. */
  lemma SlotBound(before: real, r: real, carry: real, m: real, n: real, total: real, dt: real)
    requires 0.0 <= before <= m * dt && 0.0 <= r < n * dt && carry == before + r && total == m + n
    ensures 0.0 <= carry < total * dt && carry <= total * dt
  {
    Distribute(m, n, dt);
  }

  /** The number of steps in the given slots. */
  function TotalSteps(segs: seq<Segment>): int {
    if segs == [] then 0 else TotalSteps(segs[..|segs| - 1]) + segs[|segs| - 1].nOfSteps
  }

  // ---------------------------------------------------------------------
  // Reading the table back
  // ---------------------------------------------------------------------

  /** The index of the first unused slot (nOfSteps == 0), or |segs| when every slot is used. */
  function FirstUnused(segs: seq<Segment>): (k: nat)
    ensures k <= |segs|
    ensures k < |segs| ==> segs[k].nOfSteps == 0
    ensures forall j :: 0 <= j < k ==> segs[j].nOfSteps != 0
  {
    if segs == [] then 0
    else if segs[0].nOfSteps == 0 then 0
    else 1 + FirstUnused(segs[1..])
  }

  /** The time at which slot k starts: the sum of the durations of slots 0 .. k - 1. */
  function Elapsed(segs: seq<Segment>, k: nat): real
    requires k <= |segs|
  {
    if k == 0 then 0.0 else Elapsed(segs, k - 1) + Duration(segs[k - 1])
  }

  /**
   * get_value as the source writes it: times are the cumulative durations
   * and values the start points, both cut after index(first zero step) + 1
   * entries, or after nOfSegments entries when no slot is unused.
   */
  function DecodeAsWritten(segs: seq<Segment>): (r: (seq<real>, seq<real>))
    requires |segs| >= 1
    ensures |r.0| == |r.1| == if FirstUnused(segs) < |segs| then FirstUnused(segs) + 1 else |segs|
    ensures forall j :: 0 <= j < |r.0| ==> r.0[j] == Elapsed(segs, j)
    ensures forall j :: 0 <= j < |r.1| ==> r.1[j] == segs[j].startPoint
  {
    var n := |segs|;
    var first := FirstUnused(segs);
    var keep := if first < n then first + 1 else n;
    var xs := seq(n + 1, j requires 0 <= j <= n => Elapsed(segs, j));
    var ys := seq(n, j requires 0 <= j < n => segs[j].startPoint) + [EndValue(segs[n - 1])];
    (xs[..keep], ys[..keep])
  }

  /**
   * get_value as intended: the breakpoints 0 .. k of the k used slots, the
   * last value being where the last used slot ends.
   */
  function Decode(segs: seq<Segment>): (r: (seq<real>, seq<real>))
    requires |segs| >= 1
    ensures |r.0| == |r.1| == FirstUnused(segs) + 1
    ensures r.0[0] == 0.0
    ensures forall j :: 0 <= j < FirstUnused(segs) ==>
              r.0[j + 1] - r.0[j] == Duration(segs[j]) && r.1[j] == segs[j].startPoint
    ensures FirstUnused(segs) > 0 ==> r.1[FirstUnused(segs)] == EndValue(segs[FirstUnused(segs) - 1])
  {
    var k := FirstUnused(segs);
    var xs := seq(k + 1, j requires 0 <= j <= k => Elapsed(segs, j));
    var ys := if k == 0 then [segs[0].startPoint]
              else seq(k, j requires 0 <= j < k => segs[j].startPoint) + [EndValue(segs[k - 1])];
    (xs, ys)
  }

  /**
   * The facts about an encoded table that reading it back relies on: slots
   * 0 .. |x| - 2 are used, start at y[j], end at y[j + 1] and last
   * x[j + 1] - x[j], the last of them `carry` longer; the rest are Unused.
   */
  ghost predicate Joins(x: seq<real>, y: seq<real>, t: seq<Segment>, carry: real) {
    && 2 <= |x| <= |t| + 1 && |x| <= |y|
    && (forall j :: 0 <= j < |x| - 1 ==> t[j].nOfSteps != 0 && t[j].startPoint == y[j] && EndValue(t[j]) == y[j + 1])
    && (forall j :: 0 <= j < |x| - 2 ==> Duration(t[j]) == x[j + 1] - x[j])
    && Duration(t[|x| - 2]) == x[|x| - 1] - x[|x| - 2] + carry
    && (forall j :: |x| - 1 <= j < |t| ==> t[j] == Unused)
  }

  /** Every successful encoding of 2 or more breakpoints joins them, carrying the residuals to the end. */
  lemma EncodeJoins(cfg: Config, x: seq<real>, y: seq<real>)
    requires ValidConfig(cfg) && Encode(cfg, x, y).Ok? && |x| >= 2
    ensures var t := Encode(cfg, x, y).value;
            && (forall j :: 0 <= j < |x| - 2 ==> t[j].nOfSteps != 0)
            && Joins(x, y, t, CarryOver(cfg, Durations(x), t[..|x| - 2]))
  {
    var t := Encode(cfg, x, y).value;
    EncodeUsedSlot(cfg, x, y, |x| - 2);
    forall j | 0 <= j < |x| - 1
      ensures t[j].nOfSteps != 0 && t[j].startPoint == y[j] && EndValue(t[j]) == y[j + 1]
      ensures j < |x| - 2 ==> Duration(t[j]) == x[j + 1] - x[j]
    {
      EncodeUsedSlot(cfg, x, y, j);
    }
    forall j | |x| - 1 <= j < |t|
      ensures t[j] == Unused
    {
      EncodeUnusedSlot(cfg, x, y, j);
    }
  }

  /** A joined table uses exactly |x| - 1 slots. */
  lemma JoinedSlots(x: seq<real>, y: seq<real>, t: seq<Segment>, carry: real)
    requires Joins(x, y, t, carry)
    ensures FirstUnused(t) == |x| - 1
  {
    if |x| - 1 < |t| {
      assert t[|x| - 1] == Unused;
    }
  }

  /** In a joined table, slot k starts at x[k] - x[0] for every k before the last used slot. */
  lemma {:induction false} JoinedElapsed(x: seq<real>, y: seq<real>, t: seq<Segment>, carry: real, k: nat)
    requires Joins(x, y, t, carry) && k + 1 < |x|
    ensures Elapsed(t, k) == x[k] - x[0]
  {
    if k > 0 {
      JoinedElapsed(x, y, t, carry, k - 1);
    }
  }

  /** Reading back a joined table gives back the breakpoints, the last time `carry` late. */
  lemma DecodeJoined(x: seq<real>, y: seq<real>, t: seq<Segment>, carry: real)
    requires Joins(x, y, t, carry)
    ensures var d := Decode(t);
            && d.1 == y[..|x|]
            && |d.0| == |x|
            && (forall j :: 0 <= j < |x| - 1 ==> d.0[j] == x[j] - x[0])
            && d.0[|x| - 1] == x[|x| - 1] - x[0] + carry
  {
    JoinedSlots(x, y, t, carry);
    JoinedValues(x, y, t, carry);
    JoinedTimes(x, y, t, carry);
  }

  /** The values read back from a joined table are y[0 .. |x| - 1]. */
  lemma JoinedValues(x: seq<real>, y: seq<real>, t: seq<Segment>, carry: real)
    requires Joins(x, y, t, carry) && FirstUnused(t) == |x| - 1
    ensures Decode(t).1 == y[..|x|]
  {
    var ys := Decode(t).1;
    var m := |x| - 1;
    forall j | 0 <= j <= m
      ensures ys[j] == y[j]
    {
      if j < m {
        assert ys[j] == t[j].startPoint;
      } else {
        assert ys[m] == EndValue(t[m - 1]);
      }
    }
  }

  /** The times read back from a joined table are x shifted to start at 0, the last one `carry` late. */
  lemma JoinedTimes(x: seq<real>, y: seq<real>, t: seq<Segment>, carry: real)
    requires Joins(x, y, t, carry) && FirstUnused(t) == |x| - 1
    ensures var xs := Decode(t).0;
            && |xs| == |x|
            && (forall j :: 0 <= j < |x| - 1 ==> xs[j] == x[j] - x[0])
            && xs[|x| - 1] == x[|x| - 1] - x[0] + carry
  {
    var xs := Decode(t).0;
    var m := |x| - 1;
    forall j | 0 <= j < m
      ensures xs[j] == x[j] - x[0]
    {
      JoinedElapsed(x, y, t, carry, j);
    }
    JoinedElapsed(x, y, t, carry, m - 1);
    assert xs[m] == xs[m - 1] + Duration(t[m - 1]);
  }

  /**
   * Round trip: decoding an encoded table returns the |x| breakpoints, the
   * values exactly and the times shifted to start at 0, the last one
   * delayed by the time carried over from the other segments.
   */
  lemma DecodeEncode(cfg: Config, x: seq<real>, y: seq<real>)
    requires ValidConfig(cfg) && Encode(cfg, x, y).Ok? && |x| >= 2
    ensures var t := Encode(cfg, x, y).value; var d := Decode(t);
            && (forall j :: 0 <= j < |x| - 2 ==> t[j].nOfSteps != 0)
            && d.1 == y[..|x|]
            && |d.0| == |x|
            && (forall j :: 0 <= j < |x| - 1 ==> d.0[j] == x[j] - x[0])
            && d.0[|x| - 1] == x[|x| - 1] - x[0] + CarryOver(cfg, Durations(x), t[..|x| - 2])
  {
    var t := Encode(cfg, x, y).value;
    EncodeJoins(cfg, x, y);
    DecodeJoined(x, y, t, CarryOver(cfg, Durations(x), t[..|x| - 2]));
  }

  /**
   * What the source's get_value returns for a joined table: with a slot to
   * spare, the last value read back is the unused slot's start point 0
   * instead of y[|x| - 1]; with every slot used, the last breakpoint is lost.
   */
  lemma DecodeAsWrittenLosesEnd(x: seq<real>, y: seq<real>, t: seq<Segment>, carry: real)
    requires Joins(x, y, t, carry)
    ensures var d := DecodeAsWritten(t);
            && (|x| <= |t| ==> |d.1| == |x| && d.1[|x| - 1] == 0.0)
            && (|x| == |t| + 1 ==> |d.0| == |x| - 1)
  {
    JoinedSlots(x, y, t, carry);
  }

  /** A one-segment hold at 0.5 V for 1 s: the source reads back [0.5, 0.0], the corrected decoder [0.5, 0.5]. */
  lemma FlatHoldReadBack()
    ensures Encode(DefaultConfig, [0.0, 1.0], [0.5, 0.5]).Ok?
    ensures DecodeAsWritten(Encode(DefaultConfig, [0.0, 1.0], [0.5, 0.5]).value) == ([0.0, 1.0], [0.5, 0.0])
    ensures Decode(Encode(DefaultConfig, [0.0, 1.0], [0.5, 0.5]).value) == ([0.0, 1.0], [0.5, 0.5])
  {
    var cfg := DefaultConfig;
    var x, y := [0.0, 1.0], [0.5, 0.5];
    assert Durations(x) == [1.0];
    assert Ceil(1.0 / MaxStepTime) == 10;
    var seg := Segment(0.5, 0.0, 0.1, 10);
    assert EncodeSegment(cfg, 0.5, 0.5, 1.0 + 0.0) == Ok(seg);
    assert EncodePrefix(cfg, y, [1.0], 0) == Ok(Progress([], 0.0));
    assert EncodeSegment(cfg, y[0], y[1], [1.0][0] + 0.0) == Ok(seg);
    assert [] + [seg] == [seg];
    assert EncodePrefix(cfg, y, [1.0], 1) == Ok(Progress([seg], 0.0));
    var t := [seg] + seq(7, _ => Unused);
    assert Encode(cfg, x, y) == Ok(t);
    assert FirstUnused(t[1..]) == 0;
    assert FirstUnused(t) == 1;
    assert Elapsed(t, 1) == 1.0;
    var d := Decode(t);
    assert d.0 == [0.0, 1.0];
    assert d.1 == [0.5, 0.5];
    var w := DecodeAsWritten(t);
    assert w.0 == [0.0, 1.0];
    assert w.1 == [0.5, 0.0];
  }

  // ---------------------------------------------------------------------
  // The register-backed descriptor
  // ---------------------------------------------------------------------

  /**
   * The rampFunction descriptor with the contents of its four register
   * arrays (startPoints, stepIncreases, timeSteps, nOfSteps), slot by slot.
   */
  class RampFunction {
    const cfg: Config
    var slots: seq<Segment>

    ghost predicate Valid()
      reads this
    {
      ValidConfig(cfg) && |slots| == cfg.nOfSegments
    }

    /**
     * The module over the registers as they stand: __init__ writes no
     * register, so the initial table is a parameter.
     */
    constructor (cfg: Config, slots: seq<Segment>)
      requires ValidConfig(cfg) && |slots| == cfg.nOfSegments
      ensures Valid() && this.cfg == cfg && this.slots == slots
    {
      this.cfg := cfg;
      this.slots := slots;
    }

    /**
     * get_value as intended: the reading with the last breakpoint corrected
     * (Decode), not the source's slice, which DecodeAsWritten models.
     */
    function GetValue(): (xy: (seq<real>, seq<real>))
      requires Valid()
      reads this
      ensures |xy.0| == |xy.1| == FirstUnused(slots) + 1 && xy.0[0] == 0.0
      ensures forall j :: 0 <= j < FirstUnused(slots) ==>
                xy.0[j + 1] - xy.0[j] == Duration(slots[j]) && xy.1[j] == slots[j].startPoint
      ensures FirstUnused(slots) > 0 ==> xy.1[FirstUnused(slots)] == EndValue(slots[FirstUnused(slots) - 1])
    {
      Decode(slots)
    }

    /**
     * set_value: the registers are written only when the whole table could
     * be computed; on an error they keep their contents.
     */
    method SetValue(x: seq<real>, y: seq<real>) returns (err: Option<RampError>)
      requires Valid()
      modifies this
      ensures Valid()
      ensures Encode(cfg, x, y).Ok? ==> err == None && slots == Encode(cfg, x, y).value
      ensures Encode(cfg, x, y).Err? ==> err == Some(Encode(cfg, x, y).error) && slots == old(slots)
    {
      var table := BuildTable(cfg, x, y);
      if table.Err? {
        return Some(table.error);
      }
      slots := table.value;
      return None;
    }
  }

  /**
   * The arithmetic of one iteration of set_value's loop: the step count,
   * increment and step time of one segment, raising where the source does.
   * EncodeSegment is its specification; this method keeps the statement order
   * of the loop body (flat branch, findBestRamp, the divisions) that FillSlot runs.
   */
  method SegmentFor(cfg: Config, startValue: real, endValue: real, rampTime: real) returns (r: Result<Segment, RampError>)
    requires ValidConfig(cfg)
    ensures r == EncodeSegment(cfg, startValue, endValue, rampTime)
  {
    var valueIncrementer: real;
    var nOfSteps: int;
    if startValue == endValue {
      valueIncrementer := 0.0;
      nOfSteps := Ceil(rampTime / MaxStepTime);
    } else {
      var found := RampSearch.FindBestRamp(Abs(endValue - startValue), rampTime,
                                           cfg.smallestStepIncrease, cfg.smallestTimeStep, MinSteps);
      if found.Err? {
        return Err(EmptyStepRange);
      }
      nOfSteps := found.value;
      valueIncrementer := (endValue - startValue) / nOfSteps as real;
    }
    if nOfSteps == 0 {
      return Err(ZeroStepCount);
    }
    return Ok(Segment(startValue, valueIncrementer, rampTime / nOfSteps as real, nOfSteps));
  }

  /**
   * set_value's loop: the zeroed table of nOfSegments slots (the source's
   * four lists, one entry per slot) filled slot by slot, each segment's
   * quantisation residual added to the last entry of the array of segment
   * lengths.
   */
  method BuildTable(cfg: Config, x: seq<real>, y: seq<real>) returns (r: Result<seq<Segment>, RampError>)
    requires ValidConfig(cfg)
    ensures r == Encode(cfg, x, y)
  {
    if |x| > cfg.nOfSegments + 1 {
      return Err(TooManySegments);
    }
    var d := Durations(x);
    r := FillSlots(cfg, y, d);
  }

  method FillSlots(cfg: Config, y: seq<real>, d: seq<real>) returns (r: Result<seq<Segment>, RampError>)
    requires ValidConfig(cfg) && |d| <= cfg.nOfSegments
    ensures EncodePrefix(cfg, y, d, |d|).Err? ==> r == Err(EncodePrefix(cfg, y, d, |d|).error)
    ensures EncodePrefix(cfg, y, d, |d|).Ok? ==>
              r == Ok(EncodePrefix(cfg, y, d, |d|).value.segments + seq(cfg.nOfSegments - |d|, _ => Unused))
  {
    var times := d;
    var n := cfg.nOfSegments;
    var table := new Segment[n](_ => Unused);
    ghost var segs: seq<Segment> := [];
    ghost var carry := 0.0;
    for i := 0 to |times|
      invariant |times| == |d|
      invariant FillState(cfg, y, d, i, times, segs, carry)
      invariant forall j :: 0 <= j < i ==> table[j] == segs[j]
      invariant forall j :: i <= j < n ==> table[j] == Unused
    {
      var seg;
      seg, times, segs, carry := FillSlot(cfg, y, d, i, times, segs, carry);
      if seg.Err? {
        return Err(seg.error);
      }
      table[i] := seg.value;
    }
    assert table[..] == segs + seq(n - |d|, _ => Unused);
    return Ok(table[..]);
  }

  /**
   * The state of set_value's loop after i iterations: the slots and carry
   * of the first i segments, and the `times` buffer equal to the segment
   * lengths except that the last one has grown by the carry.
   */
  ghost predicate FillState(cfg: Config, y: seq<real>, d: seq<real>, i: nat,
                            times: seq<real>, segs: seq<Segment>, carry: real)
    requires ValidConfig(cfg)
  {
    && i <= |d| == |times|
    && EncodePrefix(cfg, y, d, i) == Ok(Progress(segs, carry))
    && (forall j :: 0 <= j < |d| - 1 ==> times[j] == d[j])
    && (|d| > 0 ==> times[|d| - 1] == d[|d| - 1] + carry)
  }

  /**
   * Iteration i of set_value's loop: the slot of segment i, with the
   * residual of its step time added to the last entry of `times` unless it
   * is the last segment; the first error of the loop stops it.
   */
  method FillSlot(cfg: Config, y: seq<real>, d: seq<real>, i: nat, times: seq<real>,
                  ghost segs: seq<Segment>, ghost carry: real)
    returns (seg: Result<Segment, RampError>, times': seq<real>, ghost segs': seq<Segment>, ghost carry': real)
    requires ValidConfig(cfg) && i < |d| && FillState(cfg, y, d, i, times, segs, carry)
    ensures seg.Err? ==> EncodePrefix(cfg, y, d, |d|) == Err(seg.error)
    ensures seg.Ok? ==> segs' == segs + [seg.value] && FillState(cfg, y, d, i + 1, times', segs', carry')
  {
    times', segs', carry' := times, segs, carry;
    if i + 1 >= |y| {
      ErrorPersists(cfg, y, d, i + 1, |d|);
      return Err(MissingEdge), times', segs', carry';
    }
    var last := |times| - 1;
    var rampTime := times[i];
    seg := SegmentFor(cfg, y[i], y[i + 1], rampTime);
    EncodePrefixStep(cfg, y, d, i, Progress(segs, carry), rampTime, seg);
    if seg.Err? {
      ErrorPersists(cfg, y, d, i + 1, |d|);
      return;
    }
    var nOfSteps := seg.value.nOfSteps;
    var actualTiming := ActualTiming(cfg, rampTime, nOfSteps);
    if i != last {
      times' := times[last := times[last] + (rampTime - actualTiming)];
      carry' := carry + (rampTime - actualTiming);
    }
    segs' := segs + [seg.value];
  }
}

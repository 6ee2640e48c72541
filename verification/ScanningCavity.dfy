/**
 * The arithmetic and the small state rules of the scanning-cavity
 * software module: the scan's voltage edges, the conversion between peak
 * times and PID setpoints, the rescaling of peak ranges when the scan
 * span changes, the overlap test against the two main peaks, a peak's
 * active/paused state and range writes, and the lists of used peaks and
 * Red Pitayas.
 */
module ScanningCavity {
  import opened Wrappers
  import opened Numeric

  /** Secondary peaks per Red Pitaya; a secondary peak's index runs from 2. */
  const SecondaryPeaks: nat := 4

  // ---------------------------------------------------------------------
  // Scan edges (rampVoltageEdge)
  // ---------------------------------------------------------------------

  /** The asg amplitude and offset that put the scan between low and high. */
  function AmpOffsFromLowHigh(low: real, high: real): (ao: (real, real))
    ensures ao.0 >= 0.0 <==> low <= high
  {
    (0.5 * (high - low), 0.5 * (high + low))
  }

  /** The scan's low and high edges for an asg amplitude and offset; the inverse of AmpOffsFromLowHigh. */
  function LowHighFromAmpOffs(amp: real, offs: real): (lh: (real, real))
    ensures lh.0 <= lh.1 <==> amp >= 0.0
    ensures AmpOffsFromLowHigh(lh.0, lh.1) == (amp, offs)
  {
    (offs - amp, offs + amp)
  }

  /** Converting edges to amplitude and offset and back gives the edges again. */
  lemma LowHighRoundTrip(low: real, high: real)
    ensures var ao := AmpOffsFromLowHigh(low, high);
            LowHighFromAmpOffs(ao.0, ao.1) == (low, high)
  {
  }

  /** An edge as read back from the asg. */
  function GetEdge(isLowerEdge: bool, amp: real, offs: real): real {
    var lh := LowHighFromAmpOffs(amp, offs);
    if isLowerEdge then lh.0 else lh.1
  }

  /** A lower edge is clamped to at most the upper edge, an upper edge to at least the lower one. */
  function ValidateEdge(isLowerEdge: bool, value: real, otherEdge: real): (v: real)
    ensures isLowerEdge ==> v <= otherEdge && (value <= otherEdge ==> v == value) && (value > otherEdge ==> v == otherEdge)
    ensures !isLowerEdge ==> v >= otherEdge && (value >= otherEdge ==> v == value) && (value < otherEdge ==> v == otherEdge)
  {
    if isLowerEdge then Min(value, otherEdge) else Max(value, otherEdge)
  }

  /** Writing an edge: validate it against the other edge, then set the asg from the two edges. */
  function SetEdge(isLowerEdge: bool, value: real, amp: real, offs: real): (ao: (real, real)) {
    var other := GetEdge(!isLowerEdge, amp, offs);
    var v := ValidateEdge(isLowerEdge, value, other);
    if isLowerEdge then AmpOffsFromLowHigh(v, other) else AmpOffsFromLowHigh(other, v)
  }

  /**
   * After an edge write the edge reads back as the clamped value, the
   * other edge is unchanged, and low <= high holds whatever was written.
   */
  lemma SetEdgeKeepsOrder(isLowerEdge: bool, value: real, amp: real, offs: real)
    ensures var ao := SetEdge(isLowerEdge, value, amp, offs);
            && GetEdge(isLowerEdge, ao.0, ao.1) == ValidateEdge(isLowerEdge, value, GetEdge(!isLowerEdge, amp, offs))
            && GetEdge(!isLowerEdge, ao.0, ao.1) == GetEdge(!isLowerEdge, amp, offs)
            && GetEdge(true, ao.0, ao.1) <= GetEdge(false, ao.0, ao.1)
  {
    var other := GetEdge(!isLowerEdge, amp, offs);
    var v := ValidateEdge(isLowerEdge, value, other);
    if isLowerEdge {
      LowHighRoundTrip(v, other);
    } else {
      LowHighRoundTrip(other, v);
    }
  }

  // ---------------------------------------------------------------------
  // Peak setpoints (peakSetpoint)
  // ---------------------------------------------------------------------

  datatype SetpointError = ZeroDuration  // the scan duration divides the time

  /** A peak is normalised between the main peaks when it is secondary and its normalizeIndex flag is set. */
  predicate Normalised(index: nat, normalizeIndex: bool) {
    index >= 2 && normalizeIndex
  }

  /**
   * The PID setpoint in [-1, 1] for a peak time: relative to the main
   * peaks' times L and R for a normalised peak (0 when they coincide),
   * relative to the scan duration otherwise.
   */
  function SetpointFromTime(index: nat, normalizeIndex: bool, time: real, l: real, r: real, duration: real)
    : (sp: Result<real, SetpointError>)
    ensures sp.Err? <==> !Normalised(index, normalizeIndex) && duration == 0.0
    ensures Normalised(index, normalizeIndex) && r == l ==> sp == Ok(0.0)
  {
    if Normalised(index, normalizeIndex) then
      if r != l then Ok((time - l) / (r - l) * 2.0 - 1.0) else Ok(0.0)
    else if duration == 0.0 then Err(ZeroDuration)
    else Ok(time / duration * 2.0 - 1.0)
  }

  /** The peak time a PID setpoint stands for. */
  function TimeFromSetpoint(index: nat, normalizeIndex: bool, setpoint: real, l: real, r: real, duration: real): real {
    var normalised := (setpoint + 1.0) * 0.5;
    if Normalised(index, normalizeIndex) then l + (r - l) * normalised else normalised * duration
  }

  /**
   * Reading the time back after writing it gives the time written, except
   * for a normalised peak whose main peaks coincide: that reads back L.
   */
  lemma SetpointRoundTrip(index: nat, normalizeIndex: bool, time: real, l: real, r: real, duration: real)
    requires SetpointFromTime(index, normalizeIndex, time, l, r, duration).Ok?
    ensures var sp := SetpointFromTime(index, normalizeIndex, time, l, r, duration).value;
            var back := TimeFromSetpoint(index, normalizeIndex, sp, l, r, duration);
            && (Normalised(index, normalizeIndex) && r == l ==> back == l)
            && (!(Normalised(index, normalizeIndex) && r == l) ==> back == time)
  {
    if Normalised(index, normalizeIndex) {
      if r != l {
        var q := (time - l) / (r - l);
        assert q * (r - l) == time - l;
        assert ((q * 2.0 - 1.0) + 1.0) * 0.5 == q;
      }
    } else {
      var q := time / duration;
      assert q * duration == time;
      assert ((q * 2.0 - 1.0) + 1.0) * 0.5 == q;
    }
  }

  // ---------------------------------------------------------------------
  // Autoscale (autoScaleRampVoltageEdge)
  // ---------------------------------------------------------------------

  /**
   * A numpy float division. A non-zero divisor gives the exact quotient; the
   * divisor v3 - v2 of equal voltages is +0.0, which gives +inf or -inf by
   * the sign of the dividend, and nan for 0 / 0.
   */
  datatype Quotient = Finite(value: real) | PosInf | NegInf | NotANumber

  function Divide(n: real, d: real): (q: Quotient)
    ensures d != 0.0 ==> q == Finite(n / d)
    ensures d == 0.0 ==> (q == PosInf <==> n > 0.0) && (q == NegInf <==> n < 0.0) && (q == NotANumber <==> n == 0.0)
  {
    if d != 0.0 then Finite(n / d) else if n > 0.0 then PosInf else if n < 0.0 then NegInf else NotANumber
  }

  /** np.clip(q, 0, 1): an infinity goes to the bound on its side, nan stays nan (None). */
  function ClipUnit(q: Quotient): (c: Option<real>)
    ensures c.None? <==> q == NotANumber
    ensures c.Some? ==> 0.0 <= c.value <= 1.0
    ensures q.Finite? ==> c == Some(Clip(q.value, 0.0, 1.0))
    ensures q == PosInf ==> c == Some(1.0)
    ensures q == NegInf ==> c == Some(0.0)
  {
    match q
    case Finite(v) => Some(Clip(v, 0.0, 1.0))
    case PosInf => Some(1.0)
    case NegInf => Some(0.0)
    case NotANumber => None
  }

  /**
   * A peak at fraction a of a scan from v0 to v1 sits at this fraction of a
   * scan from v2 to v3. A scan of zero span gives an infinite fraction, or
   * nan when the peak's voltage is that of the scan.
   */
  function RescaledRatio(v0: real, v1: real, v2: real, v3: real, a: real): (r: Quotient)
    ensures v3 != v2 ==> r.Finite?
    ensures v3 == v2 ==> (r == NotANumber <==> v0 + a * (v1 - v0) == v2)
  {
    Divide(v0 - v2 + a * (v1 - v0), v3 - v2)
  }

  /** The peak's voltage is the same on the new scan as on the old one. */
  lemma RescaledRatioKeepsVoltage(v0: real, v1: real, v2: real, v3: real, a: real)
    requires v3 != v2
    ensures v2 + RescaledRatio(v0, v1, v2, v3, a).value * (v3 - v2) == v0 + a * (v1 - v0)
  {
    var n := v0 - v2 + a * (v1 - v0);
    var d := v3 - v2;
    assert n / d * d == n;
  }

  /** With the span unchanged, a peak keeps its fraction. */
  lemma RescaledRatioSameSpan(v0: real, v1: real, a: real)
    requires v1 != v0
    ensures RescaledRatio(v0, v1, v0, v1, a) == Finite(a)
  {
    var q := RescaledRatio(v0, v1, v0, v1, a).value;
    RescaledRatioKeepsVoltage(v0, v1, v0, v1, a);
    CancelFactor(q, a, v1 - v0);
  }

  /** A nonzero factor cancels. */
  lemma CancelFactor(q: real, a: real, d: real)
    requires d != 0.0 && q * d == a * d
    ensures q == a
  {
    assert (q - a) * d == 0.0;
  }

  /**
   * A peak time rescaled to the new scan, clipped to [0, 1] and scaled back
   * by T; None where the fraction is nan.
   */
  function RescaledTime(v0: real, v1: real, v2: real, v3: real, time: real, duration: real): (t: Option<real>)
    requires duration != 0.0
    ensures t.None? <==> RescaledRatio(v0, v1, v2, v3, time / duration) == NotANumber
    ensures v3 != v2 ==> t.Some?
    ensures t.Some? && duration > 0.0 ==> 0.0 <= t.value <= duration
  {
    ScaledTime(RescaledRatio(v0, v1, v2, v3, time / duration), duration)
  }

  /** np.clip(q, 0, 1) * T; None where q is nan. */
  function ScaledTime(q: Quotient, duration: real): (t: Option<real>)
    ensures t.None? <==> q == NotANumber
    ensures t.Some? && duration > 0.0 ==> 0.0 <= t.value <= duration
  {
    if q == NotANumber then None
    else
      var c := ClipUnit(q).value;
      ScaleUnit(c, duration);
      Some(c * duration)
  }

  /** A fraction in [0, 1] of a positive T lies in [0, T]. */
  lemma ScaleUnit(c: real, duration: real)
    requires 0.0 <= c <= 1.0
    ensures duration > 0.0 ==> 0.0 <= c * duration <= duration
  {
    if duration > 0.0 {
      assert c * duration <= 1.0 * duration;
    }
  }

  /** The time a peak edge moves to when the edge moves from currentValue to value. */
  function EdgeTime(isLowerEdge: bool, currentValue: real, otherValue: real, value: real,
                    time: real, duration: real): Option<real>
    requires duration != 0.0
  {
    var v0 := if isLowerEdge then currentValue else otherValue;
    var v1 := if isLowerEdge then otherValue else currentValue;
    var v2 := if isLowerEdge then value else otherValue;
    var v3 := if isLowerEdge then otherValue else value;
    RescaledTime(v0, v1, v2, v3, time, duration)
  }

  /** No peak edge meets nan. */
  predicate AllRescaled(isLowerEdge: bool, currentValue: real, otherValue: real, value: real,
                        ranges: seq<(real, real)>, duration: real)
    requires duration != 0.0
  {
    forall i :: 0 <= i < |ranges| ==>
      EdgeTime(isLowerEdge, currentValue, otherValue, value, ranges[i].0, duration).Some? &&
      EdgeTime(isLowerEdge, currentValue, otherValue, value, ranges[i].1, duration).Some?
  }

  /**
   * The new ranges of the used peaks when an edge moves from currentValue
   * to value while the other edge stays at otherValue. None where the scan
   * duration is zero or a peak edge's fraction is nan; an empty new span
   * otherwise sends each edge to 0 or T (AutoscaleLowerOntoUpper,
   * AutoscaleUpperOntoLower).
   */
  function Autoscale(isLowerEdge: bool, currentValue: real, otherValue: real, value: real,
                     ranges: seq<(real, real)>, duration: real): (r: Option<seq<(real, real)>>)
    ensures r.Some? <==> duration != 0.0 && AllRescaled(isLowerEdge, currentValue, otherValue, value, ranges, duration)
    ensures duration != 0.0 && value != otherValue ==> r.Some?
    ensures r.Some? ==> |r.value| == |ranges|
    ensures r.Some? && duration > 0.0 ==>
              forall i :: 0 <= i < |ranges| ==> 0.0 <= r.value[i].0 <= duration && 0.0 <= r.value[i].1 <= duration
  {
    if duration == 0.0 || !AllRescaled(isLowerEdge, currentValue, otherValue, value, ranges, duration) then None
    else
      Some(seq(|ranges|, i requires 0 <= i < |ranges| =>
        (EdgeTime(isLowerEdge, currentValue, otherValue, value, ranges[i].0, duration).value,
         EdgeTime(isLowerEdge, currentValue, otherValue, value, ranges[i].1, duration).value)))
  }

  /** Rewriting an edge with its current value leaves every range inside [0, T] where it was. */
  lemma AutoscaleSameEdge(isLowerEdge: bool, currentValue: real, otherValue: real,
                          ranges: seq<(real, real)>, duration: real)
    requires currentValue != otherValue && duration > 0.0
    requires forall i :: 0 <= i < |ranges| ==> 0.0 <= ranges[i].0 <= duration && 0.0 <= ranges[i].1 <= duration
    ensures Autoscale(isLowerEdge, currentValue, otherValue, currentValue, ranges, duration) == Some(ranges)
  {
    var v0 := if isLowerEdge then currentValue else otherValue;
    var v1 := if isLowerEdge then otherValue else currentValue;
    var r := Autoscale(isLowerEdge, currentValue, otherValue, currentValue, ranges, duration).value;
    forall i | 0 <= i < |ranges|
      ensures r[i] == ranges[i]
    {
      SameTime(v0, v1, ranges[i].0, duration);
      SameTime(v0, v1, ranges[i].1, duration);
    }
    assert r == ranges;
  }

  /**
   * Moving the lower edge v0 onto the upper edge v1 (the clamp of
   * ValidateEdge does this for any value at or above it): the fraction of
   * a time before T is -inf and clips to 0, one after T is +inf and clips to T.
   */
  lemma CollapseLower(v0: real, v1: real, time: real, duration: real)
    requires v0 < v1 && duration > 0.0 && time != duration
    ensures RescaledTime(v0, v1, v1, v1, time, duration) == Some(if time < duration then 0.0 else duration)
  {
    var a := time / duration;
    assert v0 - v1 + a * (v1 - v0) == (v1 - v0) * (a - 1.0);
    if time < duration {
      DivLess(time, 1.0, duration);
    } else {
      DivMono(duration, time, duration);
      assert duration / duration == 1.0;
      assert a * duration == time;
    }
    ProductSign(v1 - v0, a - 1.0);
  }

  /** A positive factor keeps the sign of the other. */
  lemma ProductSign(p: real, q: real)
    requires p > 0.0
    ensures q < 0.0 ==> p * q < 0.0
    ensures q > 0.0 ==> p * q > 0.0
  {
  }

  /**
   * Moving the upper edge v1 onto the lower edge v0: the fraction of a
   * positive time is +inf and clips to T, that of a negative time -inf and
   * clips to 0.
   */
  lemma CollapseUpper(v0: real, v1: real, time: real, duration: real)
    requires v0 < v1 && duration > 0.0 && time != 0.0
    ensures RescaledTime(v0, v1, v0, v0, time, duration) == Some(if time > 0.0 then duration else 0.0)
  {
    var a := time / duration;
    assert v0 - v0 + a * (v1 - v0) == (v1 - v0) * a;
    ProductSign(v1 - v0, a);
  }

  /**
   * Writing the lower edge onto the upper one: every peak edge before T
   * goes to 0 and every one after T to T. An edge exactly at T gives nan.
   */
  lemma AutoscaleLowerOntoUpper(currentValue: real, otherValue: real, ranges: seq<(real, real)>, duration: real)
    requires currentValue < otherValue && duration > 0.0
    requires forall i :: 0 <= i < |ranges| ==> ranges[i].0 != duration && ranges[i].1 != duration
    ensures var r := Autoscale(true, currentValue, otherValue, otherValue, ranges, duration);
            && r.Some? && |r.value| == |ranges|
            && forall i :: 0 <= i < |ranges| ==>
                 r.value[i] == (if ranges[i].0 < duration then 0.0 else duration,
                                if ranges[i].1 < duration then 0.0 else duration)
  {
    forall i | 0 <= i < |ranges|
      ensures EdgeTime(true, currentValue, otherValue, otherValue, ranges[i].0, duration)
              == Some(if ranges[i].0 < duration then 0.0 else duration)
      ensures EdgeTime(true, currentValue, otherValue, otherValue, ranges[i].1, duration)
              == Some(if ranges[i].1 < duration then 0.0 else duration)
    {
      CollapseLower(currentValue, otherValue, ranges[i].0, duration);
      CollapseLower(currentValue, otherValue, ranges[i].1, duration);
    }
  }

  /**
   * Writing the upper edge onto the lower one: every peak edge after 0
   * goes to T and every one before 0 to 0. An edge exactly at 0 gives nan.
   */
  lemma AutoscaleUpperOntoLower(currentValue: real, otherValue: real, ranges: seq<(real, real)>, duration: real)
    requires otherValue < currentValue && duration > 0.0
    requires forall i :: 0 <= i < |ranges| ==> ranges[i].0 != 0.0 && ranges[i].1 != 0.0
    ensures var r := Autoscale(false, currentValue, otherValue, otherValue, ranges, duration);
            && r.Some? && |r.value| == |ranges|
            && forall i :: 0 <= i < |ranges| ==>
                 r.value[i] == (if ranges[i].0 > 0.0 then duration else 0.0,
                                if ranges[i].1 > 0.0 then duration else 0.0)
  {
    forall i | 0 <= i < |ranges|
      ensures EdgeTime(false, currentValue, otherValue, otherValue, ranges[i].0, duration)
              == Some(if ranges[i].0 > 0.0 then duration else 0.0)
      ensures EdgeTime(false, currentValue, otherValue, otherValue, ranges[i].1, duration)
              == Some(if ranges[i].1 > 0.0 then duration else 0.0)
    {
      CollapseUpper(otherValue, currentValue, ranges[i].0, duration);
      CollapseUpper(otherValue, currentValue, ranges[i].1, duration);
    }
  }

  /** A time inside [0, T] is a fraction in [0, 1] of T. */
  lemma UnitRatio(time: real, duration: real)
    requires duration > 0.0 && 0.0 <= time <= duration
    ensures 0.0 <= time / duration <= 1.0
  {
    DivMono(0.0, time, duration);
    DivMono(time, duration, duration);
    assert duration / duration == 1.0;
  }

  /** A time inside [0, T] is unchanged by a rescale that keeps the span. */
  lemma SameTime(v0: real, v1: real, time: real, duration: real)
    requires v1 != v0 && duration > 0.0 && 0.0 <= time <= duration
    ensures RescaledTime(v0, v1, v0, v1, time, duration) == Some(time)
  {
    var a := time / duration;
    RescaledRatioSameSpan(v0, v1, a);
    UnitRatio(time, duration);
    assert Clip(a, 0.0, 1.0) == a;
    assert RescaledRatio(v0, v1, v0, v1, time / duration) == Finite(a);
    var t := RescaledTime(v0, v1, v0, v1, time, duration);
    assert t.Some?;
    assert t.value == Clip(a, 0.0, 1.0) * duration;
    assert a * duration == time;
    assert t.value == time;
  }

  // ---------------------------------------------------------------------
  // Overlap with the main peaks
  // ---------------------------------------------------------------------

  /** The source's test: exactly one of "left0 < right1" and "right0 <= left1" holds. */
  predicate AreIntersecting(left0: real, right0: real, left1: real, right1: real) {
    (left0 < right1) != (right0 <= left1)
  }

  /** For a non-empty first range and a well-formed second, the test is the usual open-interval overlap. */
  lemma AreIntersectingIsOverlap(left0: real, right0: real, left1: real, right1: real)
    requires left0 < right0 && left1 <= right1
    ensures AreIntersecting(left0, right0, left1, right1) <==> left0 < right1 && left1 < right0
  {
  }

  /**
   * A secondary peak overlaps the main peaks when its range meets both
   * main ranges. Main peaks never overlap, and neither does a secondary
   * peak that is not normalised when the normalisation check is asked for.
   */
  function IsOverlappingWithMainPeaks(index: nat, normalizeIndex: bool, checkNormalised: bool,
                                      range: (real, real), mainL: (real, real), mainR: (real, real)): (b: bool)
    ensures b ==> index >= 2 && (!checkNormalised || normalizeIndex)
    ensures index >= 2 && (!checkNormalised || normalizeIndex) &&
            range.0 < range.1 && mainL.0 <= mainL.1 && mainR.0 <= mainR.1 ==>
              (b <==> range.0 < mainL.1 && mainL.0 < range.1 && range.0 < mainR.1 && mainR.0 < range.1)
  {
    if index < 2 || (checkNormalised && !normalizeIndex) then false
    else AreIntersecting(range.0, range.1, mainL.0, mainL.1) && AreIntersecting(range.0, range.1, mainR.0, mainR.1)
  }

  // ---------------------------------------------------------------------
  // A peak's state
  // ---------------------------------------------------------------------

  /** The select value of `active`: a flag, or "always_active". */
  datatype Activity = AlwaysActive | Active(on: bool)

  /** A peak's activity as a flag, "always_active" counting as on. */
  predicate IsOn(a: Activity) {
    a.AlwaysActive? || a.on
  }

  /** The activity setActiveAndPaused derives from the enabling flags. */
  function ActivityFor(alwaysActive: bool, enabled: bool, inCurrentPeakGroup: bool): (a: Activity)
    ensures IsOn(a) <==> alwaysActive || (enabled && inCurrentPeakGroup)
  {
    if alwaysActive then AlwaysActive else Active(enabled && inCurrentPeakGroup)
  }

  /**
   * The ranges a peak shows after each of the two writes of
   * setLeftAndRight: the right edge first when the current right edge is
   * below the new left edge, the left edge first otherwise.
   */
  function RangeWrites(left: real, right: real, newLeft: real, newRight: real): (states: seq<(real, real)>)
    ensures |states| == 2 && states[1] == (newLeft, newRight)
  {
    if right < newLeft then [(left, newRight), (newLeft, newRight)]
    else [(newLeft, right), (newLeft, newRight)]
  }

  /** Moving one well-formed range to another, no intermediate range has its edges crossed. */
  lemma RangeWritesNeverCross(left: real, right: real, newLeft: real, newRight: real)
    requires left <= right && newLeft <= newRight
    ensures forall s :: s in RangeWrites(left, right, newLeft, newRight) ==> s.0 <= s.1
  {
    var states := RangeWrites(left, right, newLeft, newRight);
    assert states[0].0 <= states[0].1;
    assert states == [states[0], states[1]];
  }

  type Pitaya = string

  /** A peak's identity: two peaks are equal when they share Red Pitaya and index. */
  datatype PeakId = PeakId(pitaya: Pitaya, index: nat)

  class Peak {
    const id: PeakId
    var normalizeIndex: bool
    var left: real
    var right: real
    /** The ranges the hardware shows after each write of left or right, oldest first. */
    ghost var rangeHistory: seq<(real, real)>
    var alwaysActive: bool
    var enabled: bool
    var inCurrentPeakGroup: bool
    var locking: bool
    var active: Activity
    var paused: bool

    /** __init__: the identity and both edges are given; the flags are register- and
      * property-backed in the hardware, so their initial values are parameters too. */
    constructor (id: PeakId, left: real, right: real, normalizeIndex: bool, alwaysActive: bool,
                 enabled: bool, inCurrentPeakGroup: bool, locking: bool, active: Activity, paused: bool)
      ensures this.id == id && this.left == left && this.right == right && rangeHistory == []
      ensures this.normalizeIndex == normalizeIndex && this.alwaysActive == alwaysActive
      ensures this.enabled == enabled && this.inCurrentPeakGroup == inCurrentPeakGroup
      ensures this.locking == locking && this.active == active && this.paused == paused
    {
      this.id := id;
      this.left := left;
      this.right := right;
      rangeHistory := [];
      this.normalizeIndex := normalizeIndex;
      this.alwaysActive := alwaysActive;
      this.enabled := enabled;
      this.inCurrentPeakGroup := inCurrentPeakGroup;
      this.locking := locking;
      this.active := active;
      this.paused := paused;
    }

    /** setLeftAndRight: both edges written, in the order RangeWrites gives. */
    method SetLeftAndRight(newLeft: real, newRight: real)
      modifies this
      ensures left == newLeft && right == newRight
      ensures rangeHistory == old(rangeHistory) + RangeWrites(old(left), old(right), newLeft, newRight)
      ensures normalizeIndex == old(normalizeIndex) && active == old(active) && paused == old(paused)
      ensures alwaysActive == old(alwaysActive) && enabled == old(enabled)
      ensures inCurrentPeakGroup == old(inCurrentPeakGroup) && locking == old(locking)
    {
      if right < newLeft {
        right := newRight;
        rangeHistory := rangeHistory + [(left, right)];
        left := newLeft;
        rangeHistory := rangeHistory + [(left, right)];
      } else {
        left := newLeft;
        rangeHistory := rangeHistory + [(left, right)];
        right := newRight;
        rangeHistory := rangeHistory + [(left, right)];
      }
    }

    /**
     * setActiveAndPaused: `active` takes the derived activity unless the
     * peak overlaps the main peaks (then the write is refused and the old
     * activity stays); `paused` is set when the peak is not both on and
     * locking.
     */
    method SetActiveAndPaused(mainL: (real, real), mainR: (real, real))
      modifies this
      ensures IsOverlappingWithMainPeaks(id.index, normalizeIndex, true, (left, right), mainL, mainR) ==> active == old(active)
      ensures !IsOverlappingWithMainPeaks(id.index, normalizeIndex, true, (left, right), mainL, mainR) ==>
                active == ActivityFor(alwaysActive, enabled, inCurrentPeakGroup)
      ensures paused == !(IsOn(active) && locking)
      ensures left == old(left) && right == old(right) && rangeHistory == old(rangeHistory)
      ensures normalizeIndex == old(normalizeIndex) && alwaysActive == old(alwaysActive) && enabled == old(enabled)
      ensures inCurrentPeakGroup == old(inCurrentPeakGroup) && locking == old(locking)
    {
      var activity := if alwaysActive then AlwaysActive else Active(enabled && inCurrentPeakGroup);
      if !IsOverlappingWithMainPeaks(id.index, normalizeIndex, true, (left, right), mainL, mainR) {
        active := activity;
      }
      var activeBoolean := if active.Active? then active.on else true;
      paused := !(activeBoolean && locking);
    }
  }

  // ---------------------------------------------------------------------
  // Used peaks and Red Pitayas
  // ---------------------------------------------------------------------

  datatype CavityError =
    | PitayaAlreadyUsed
    | PeakAlreadyUsed
    | NotInList  // list.remove of an absent element

  predicate NoDup<T(==)>(s: seq<T>) {
    forall i, j :: 0 <= i < j < |s| ==> s[i] != s[j]
  }

  /** Python's list.remove: the list without the first occurrence of x. */
  function RemoveFirst<T(==)>(s: seq<T>, x: T): (r: seq<T>)
    requires x in s
    ensures |r| == |s| - 1
    ensures multiset(r) == multiset(s) - multiset{x}
  {
    assert s == [s[0]] + s[1..];
    if s[0] == x then s[1..]
    else
      [s[0]] + RemoveFirst(s[1..], x)
  }

  /** Removing from a list without duplicates removes x altogether and keeps the rest free of duplicates. */
  lemma {:induction false} RemoveFirstNoDup<T>(s: seq<T>, x: T)
    requires x in s && NoDup(s)
    ensures x !in RemoveFirst(s, x) && NoDup(RemoveFirst(s, x))
    ensures forall y :: y in RemoveFirst(s, x) <==> y in s && y != x
  {
    var r := RemoveFirst(s, x);
    forall y
      ensures y in r <==> y in s && y != x
    {
      assert y in r <==> y in multiset(r);
      assert y in s <==> y in multiset(s);
      if y != x {
        assert multiset(r)[y] == multiset(s)[y];
      } else {
        NoDupCount(s, x);
        assert multiset(r)[x] == 0;
      }
    }
    forall y
      ensures multiset(r)[y] <= 1
    {
      NoDupCount(s, y);
    }
    CountNoDup(r);
  }

  /** In a list without duplicates every element occurs once. */
  lemma {:induction false} NoDupCount<T>(s: seq<T>, y: T)
    requires NoDup(s)
    ensures multiset(s)[y] <= 1
  {
    if s != [] {
      assert s == [s[0]] + s[1..];
      NoDupCount(s[1..], y);
      if s[0] == y {
        assert y !in s[1..];
      }
    }
  }

  /** A list in which every element occurs at most once has no duplicates. */
  lemma {:induction false} CountNoDup<T>(s: seq<T>)
    requires forall y :: multiset(s)[y] <= 1
    ensures NoDup(s)
  {
    if s != [] {
      var rest := s[1..];
      assert s == [s[0]] + rest;
      forall y
        ensures multiset(rest)[y] <= 1
      {
        assert multiset(s)[y] == multiset([s[0]])[y] + multiset(rest)[y];
      }
      CountNoDup(rest);
      assert multiset(rest)[s[0]] == 0 by {
        assert multiset(s)[s[0]] == 1 + multiset(rest)[s[0]];
      }
      forall i, j | 0 <= i < j < |s|
        ensures s[i] != s[j]
      {
        if i == 0 {
          assert s[j] in rest;
        } else {
          assert s[i] == rest[i - 1] && s[j] == rest[j - 1];
        }
      }
    }
  }

  /** The secondary peaks of one Red Pitaya: indices 2 up to 2 + count - 1. */
  function SecondaryPeaksOf(pitaya: Pitaya, count: nat): (ps: seq<PeakId>)
    ensures |ps| == count && NoDup(ps)
    ensures forall p :: p in ps <==> p.pitaya == pitaya && 2 <= p.index < 2 + count
  {
    var ps := seq(count, i requires 0 <= i => PeakId(pitaya, i + 2));
    assert forall p :: p in ps ==> p == ps[p.index - 2];
    assert forall p: PeakId :: p.pitaya == pitaya && 2 <= p.index < 2 + count ==> ps[p.index - 2] == p;
    ps
  }

  class Cavity {
    var usedPeaks: seq<PeakId>
    var secondaryPeaks: seq<PeakId>
    var usedPitayas: seq<Pitaya>
    var secondaryPitayas: seq<Pitaya>

    /**
     * No peak or Red Pitaya is listed twice, every used peak belongs to a
     * used Red Pitaya, and every secondary peak is a used peak.
     */
    ghost predicate Valid()
      reads this
    {
      && NoDup(usedPeaks) && NoDup(usedPitayas) && NoDup(secondaryPeaks)
      && (forall p :: p in usedPeaks ==> p.pitaya in usedPitayas)
      && (forall p :: p in secondaryPeaks ==> p in usedPeaks)
    }

    /** The module set up on its main Red Pitaya: the two main peaks and two secondary peaks on it. */
    constructor (mainPitaya: Pitaya)
      ensures Valid()
      ensures usedPitayas == [mainPitaya] && secondaryPitayas == []
      ensures usedPeaks == [PeakId(mainPitaya, 0), PeakId(mainPitaya, 1)] + SecondaryPeaksOf(mainPitaya, SecondaryPeaks - 2)
      ensures secondaryPeaks == SecondaryPeaksOf(mainPitaya, SecondaryPeaks - 2)
    {
      var main := [PeakId(mainPitaya, 0), PeakId(mainPitaya, 1)];
      var secondary := SecondaryPeaksOf(mainPitaya, SecondaryPeaks - 2);
      var all := main + secondary;
      forall i, j | 0 <= i < j < |all|
        ensures all[i] != all[j]
      {
        if i < 2 <= j {
          assert all[j] in secondary;
        }
      }
      usedPeaks := all;
      secondaryPeaks := secondary;
      usedPitayas := [mainPitaya];
      secondaryPitayas := [];
    }

    /** addSecondaryPeak: refuses a peak already used, else appends it to both lists. */
    method AddSecondaryPeak(p: PeakId) returns (err: Option<CavityError>)
      requires Valid() && p.pitaya in usedPitayas
      modifies this
      ensures Valid()
      ensures p in old(usedPeaks) ==> err == Some(PeakAlreadyUsed) && usedPeaks == old(usedPeaks) && secondaryPeaks == old(secondaryPeaks)
      ensures p !in old(usedPeaks) ==> err == None && usedPeaks == old(usedPeaks) + [p] && secondaryPeaks == old(secondaryPeaks) + [p]
      ensures usedPitayas == old(usedPitayas) && secondaryPitayas == old(secondaryPitayas)
    {
      if p in usedPeaks {
        return Some(PeakAlreadyUsed);
      }
      usedPeaks := usedPeaks + [p];
      secondaryPeaks := secondaryPeaks + [p];
      AppendKeepsNoDup(old(usedPeaks), p);
      AppendKeepsNoDup(old(secondaryPeaks), p);
      return None;
    }

    /**
     * addPitaya: refuses a Red Pitaya already used; otherwise records it
     * and adds its four secondary peaks, none of which can already be used.
     */
    method AddPitaya(pitaya: Pitaya) returns (err: Option<CavityError>)
      requires Valid()
      modifies this
      ensures Valid()
      ensures pitaya in old(usedPitayas) ==>
                err == Some(PitayaAlreadyUsed) && usedPitayas == old(usedPitayas) && secondaryPitayas == old(secondaryPitayas)
                && usedPeaks == old(usedPeaks) && secondaryPeaks == old(secondaryPeaks)
      ensures pitaya !in old(usedPitayas) ==>
                err == None && usedPitayas == old(usedPitayas) + [pitaya] && secondaryPitayas == old(secondaryPitayas) + [pitaya]
                && usedPeaks == old(usedPeaks) + SecondaryPeaksOf(pitaya, SecondaryPeaks)
                && secondaryPeaks == old(secondaryPeaks) + SecondaryPeaksOf(pitaya, SecondaryPeaks)
    {
      if pitaya in usedPitayas {
        return Some(PitayaAlreadyUsed);
      }
      AppendKeepsNoDup(usedPitayas, pitaya);
      usedPitayas := usedPitayas + [pitaya];
      secondaryPitayas := secondaryPitayas + [pitaya];
      for i := 0 to SecondaryPeaks
        invariant Valid()
        invariant usedPitayas == old(usedPitayas) + [pitaya] && secondaryPitayas == old(secondaryPitayas) + [pitaya]
        invariant usedPeaks == old(usedPeaks) + SecondaryPeaksOf(pitaya, i)
        invariant secondaryPeaks == old(secondaryPeaks) + SecondaryPeaksOf(pitaya, i)
      {
        var p := PeakId(pitaya, i + 2);
        assert p !in usedPeaks;
        var e := AddSecondaryPeak(p);
        assert SecondaryPeaksOf(pitaya, i + 1) == SecondaryPeaksOf(pitaya, i) + [p];
      }
      return None;
    }

    /**
     * removeSecondaryPeak: removes the peak from the used peaks, then from
     * the secondary peaks; each removal fails on an absent peak, the second
     * one after the first has taken effect.
     */
    method RemoveSecondaryPeak(p: PeakId) returns (err: Option<CavityError>)
      requires Valid()
      modifies this
      ensures Valid()
      ensures p !in old(usedPeaks) ==> err == Some(NotInList) && usedPeaks == old(usedPeaks) && secondaryPeaks == old(secondaryPeaks)
      ensures p in old(usedPeaks) ==> usedPeaks == RemoveFirst(old(usedPeaks), p) && p !in usedPeaks
      ensures p in old(usedPeaks) && p !in old(secondaryPeaks) ==> err == Some(NotInList) && secondaryPeaks == old(secondaryPeaks)
      ensures p in old(secondaryPeaks) ==> err == None && secondaryPeaks == RemoveFirst(old(secondaryPeaks), p) && p !in secondaryPeaks
      ensures usedPitayas == old(usedPitayas) && secondaryPitayas == old(secondaryPitayas)
    {
      if p !in usedPeaks {
        return Some(NotInList);
      }
      RemoveFirstNoDup(usedPeaks, p);
      usedPeaks := RemoveFirst(usedPeaks, p);
      if p !in secondaryPeaks {
        return Some(NotInList);
      }
      RemoveFirstNoDup(secondaryPeaks, p);
      secondaryPeaks := RemoveFirst(secondaryPeaks, p);
      return None;
    }
  }

  /** Appending an element not yet present keeps a list free of duplicates. */
  lemma AppendKeepsNoDup<T>(s: seq<T>, x: T)
    requires NoDup(s) && x !in s
    ensures NoDup(s + [x])
  {
    forall i, j | 0 <= i < j < |s + [x]|
      ensures (s + [x])[i] != (s + [x])[j]
    {
      if j == |s| {
        assert (s + [x])[i] == s[i];
      }
    }
  }
}

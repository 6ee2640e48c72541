/**
 * The segmented function of the linearizer module: calibration points
 * (x, y) become nOfSegments triples (s, q, m) — start input, start output
 * and slope of each linear piece — with unused slots marked by s == -1.
 * The fixed-point register encoding of s, q and m is not part of this model.
 */
module Linearizer {
  import opened Wrappers

  /** The start input written into unused slots. */
  const Sentinel: real := -1.0
  /** The number of slots of the linearizer module. */
  const DefaultSegments: nat := 8

  /** The three register arrays, slot by slot. */
  datatype Table = Table(s: seq<real>, q: seq<real>, m: seq<real>)

  datatype LinearizerError =
    | TooManySegments  // more than nOfSegments + 1 points
    | ShapeMismatch    // x and y of different lengths (numpy would broadcast a one-entry side)

  /** The number of pieces between |x| points. */
  function Pieces(k: nat): nat {
    if k == 0 then 0 else k - 1
  }

  /** The slope of the piece from (x0, y0) to (x1, y1); a zero-width piece gets slope 0. */
  function Slope(x0: real, x1: real, y0: real, y1: real): (m: real)
    ensures x1 != x0 ==> y0 + m * (x1 - x0) == y1
  {
    if x1 == x0 then 0.0
    else
      var m := (y1 - y0) / (x1 - x0);
      assert m * (x1 - x0) == y1 - y0;
      m
  }

  /** segmentedCoefficient: piece i starts at (x[i], y[i]) with the slope towards (x[i + 1], y[i + 1]). */
  function SegmentedCoefficient(x: seq<real>, y: seq<real>): (t: Table)
    requires |x| == |y|
    ensures |t.s| == |t.q| == |t.m| == Pieces(|x|)
    ensures t.s == x[..Pieces(|x|)] && t.q == y[..Pieces(|x|)]
    ensures forall i :: 0 <= i < Pieces(|x|) ==> t.m[i] == Slope(x[i], x[i + 1], y[i], y[i + 1])
  {
    var k := Pieces(|x|);
    Table(x[..k], y[..k], seq(k, i requires 0 <= i < k => Slope(x[i], x[i + 1], y[i], y[i + 1])))
  }

  /** Consecutive pieces join: where x[j] differs from x[j - 1], piece j - 1 reaches y[j] at x[j]. */
  lemma PiecesJoin(x: seq<real>, y: seq<real>, j: nat)
    requires |x| == |y| && 1 <= j < |x| && x[j] != x[j - 1]
    ensures var t := SegmentedCoefficient(x, y);
            t.q[j - 1] + t.m[j - 1] * (x[j] - x[j - 1]) == y[j]
  {
    var t := SegmentedCoefficient(x, y);
    var m := Slope(x[j - 1], x[j], y[j - 1], y[j]);
    var w := x[j] - x[j - 1];
    assert y[j - 1] + m * w == y[j];
    assert t.m[j - 1] == m && t.q[j - 1] == y[j - 1];
  }

  /**
   * set_value: the pieces of (x, y) followed by padding slots
   * (s, q, m) == (-1, 0, 0), nOfSegments slots in all.
   */
  function Encode(nOfSegments: nat, x: seq<real>, y: seq<real>): (r: Result<Table, LinearizerError>)
    ensures |x| > nOfSegments + 1 ==> r == Err(TooManySegments)
    ensures |x| <= nOfSegments + 1 && |x| != |y| ==> r == Err(ShapeMismatch)
    ensures r.Ok? <==> |x| <= nOfSegments + 1 && |x| == |y|
    ensures r.Ok? ==> |r.value.s| == |r.value.q| == |r.value.m| == nOfSegments
    ensures r.Ok? ==> var c := SegmentedCoefficient(x, y);
              && r.value.s[..Pieces(|x|)] == c.s && r.value.q[..Pieces(|x|)] == c.q && r.value.m[..Pieces(|x|)] == c.m
              && forall i :: Pieces(|x|) <= i < nOfSegments ==>
                   r.value.s[i] == Sentinel && r.value.q[i] == 0.0 && r.value.m[i] == 0.0
  {
    if |x| > nOfSegments + 1 then Err(TooManySegments)
    else if |x| != |y| then Err(ShapeMismatch)
    else
      var c := SegmentedCoefficient(x, y);
      var pad := nOfSegments - |c.m|;
      var t := Table(c.s + seq(pad, _ => Sentinel), c.q + seq(pad, _ => 0.0), c.m + seq(pad, _ => 0.0));
      assert t.s[..Pieces(|x|)] == c.s && t.q[..Pieces(|x|)] == c.q && t.m[..Pieces(|x|)] == c.m;
      Ok(t)
  }

  /**
   * The number of slots get_value keeps: up to and including the last slot
   * whose start is not the sentinel, or 1 when every start is the sentinel.
   */
  function ListEnd(s: seq<real>): (k: nat)
    ensures 1 <= k && (k <= |s| || k == 1)
    ensures forall j :: k <= j < |s| ==> s[j] == Sentinel
    ensures k == 1 || s[k - 1] != Sentinel
  {
    if |s| <= 1 then 1
    else if s[|s| - 1] != Sentinel then |s|
    else ListEnd(s[..|s| - 1])
  }

  /**
   * get_value: the kept starts followed by the input 1, and the kept start
   * outputs followed by the last kept piece evaluated at 1.
   */
  function Decode(t: Table): (xy: (seq<real>, seq<real>))
    requires 1 <= |t.s| == |t.q| == |t.m|
    ensures var k := ListEnd(t.s);
            && |xy.0| == |xy.1| == k + 1
            && xy.0 == t.s[..k] + [1.0] && xy.1[..k] == t.q[..k]
            && xy.1[k] == t.q[k - 1] + t.m[k - 1] * (1.0 - t.s[k - 1])
  {
    var k := ListEnd(t.s);
    var xs := t.s[..k] + [1.0];
    var ys := t.q[..k] + [t.q[k - 1] + t.m[k - 1] * (xs[k] - xs[k - 1])];
    assert ys[..k] == t.q[..k];
    (xs, ys)
  }

  /** Strictly increasing inputs. */
  predicate Increasing(x: seq<real>) {
    forall i :: 0 <= i < |x| - 1 ==> x[i] < x[i + 1]
  }

  /** Every point after the first of an increasing sequence starting at or above -1 is above -1. */
  lemma {:induction false} IncreasingAboveSentinel(x: seq<real>, i: nat)
    requires Increasing(x) && |x| >= 1 && x[0] >= Sentinel && 1 <= i < |x|
    ensures x[i] > Sentinel
  {
    if i > 1 {
      IncreasingAboveSentinel(x, i - 1);
    }
  }

  /**
   * Round trip: 2 to nOfSegments + 1 points read back unchanged when the
   * last input is 1, the last piece has non-zero width, and its start is
   * not the sentinel -1 (which get_value would take for padding) unless it
   * is the only piece.
   */
  lemma DecodeEncode(nOfSegments: nat, x: seq<real>, y: seq<real>)
    requires 2 <= |x| <= nOfSegments + 1 && |y| == |x|
    requires x[|x| - 1] == 1.0 && x[|x| - 2] != 1.0
    requires |x| == 2 || x[|x| - 2] != Sentinel
    ensures Encode(nOfSegments, x, y).Ok?
    ensures Decode(Encode(nOfSegments, x, y).value) == (x, y)
  {
    var t := Encode(nOfSegments, x, y).value;
    var k := |x| - 1;
    assert t.m[k - 1] == Slope(x[k - 1], x[k], y[k - 1], y[k]);
    assert t.s[..k] == x[..k] && t.q[..k] == y[..k];
    DecodeTable(t, x, y, k);
  }

  /**
   * Strictly increasing inputs from at least -1 up to exactly 1 meet the
   * conditions of the round trip, so they read back unchanged.
   */
  lemma DecodeEncodeIncreasing(nOfSegments: nat, x: seq<real>, y: seq<real>)
    requires 2 <= |x| <= nOfSegments + 1 && |y| == |x|
    requires Increasing(x) && x[0] >= Sentinel && x[|x| - 1] == 1.0
    ensures Encode(nOfSegments, x, y).Ok?
    ensures Decode(Encode(nOfSegments, x, y).value) == (x, y)
  {
    var k := |x| - 1;
    assert x[k - 1] < x[k];
    if k >= 2 {
      IncreasingAboveSentinel(x, k - 1);
    }
    DecodeEncode(nOfSegments, x, y);
  }

  /** Whatever the points, the inputs read back end at 1: a last input other than 1 does not read back. */
  lemma DecodeEndsAtOne(nOfSegments: nat, x: seq<real>, y: seq<real>)
    requires nOfSegments >= 1 && Encode(nOfSegments, x, y).Ok?
    ensures var xs := Decode(Encode(nOfSegments, x, y).value).0;
            |xs| >= 2 && xs[|xs| - 1] == 1.0
  {
  }

  /**
   * A table whose first |x| - 1 slots start at x and y, whose last used
   * piece reaches y[|x| - 1] at input 1 and whose other slots are padding
   * reads back as (x, y).
   */
  lemma DecodeTable(t: Table, x: seq<real>, y: seq<real>, k: nat)
    requires 1 <= k && |x| == |y| == k + 1 && k <= |t.s| == |t.q| == |t.m|
    requires t.s[..k] == x[..k] && t.q[..k] == y[..k]
    requires forall j :: k <= j < |t.s| ==> t.s[j] == Sentinel
    requires k == 1 || x[k - 1] != Sentinel
    requires x[k] == 1.0
    requires x[k - 1] != x[k] && t.m[k - 1] == Slope(x[k - 1], x[k], y[k - 1], y[k])
    ensures Decode(t) == (x, y)
  {
    assert t.q[k - 1] == y[k - 1];
    assert t.s[k - 1] == x[k - 1];
    KeepsPieces(t.s, k);
    var d := Decode(t);
    assert d.0 == x by {
      assert x == x[..k] + [x[k]];
    }
    assert d.1 == y by {
      assert 1.0 - t.s[k - 1] == x[k] - x[k - 1];
      assert d.1[k] == y[k];
      assert y == y[..k] + [y[k]];
      assert d.1 == d.1[..k] + [d.1[k]];
    }
  }

  /** ListEnd finds the k pieces when slot k - 1 holds a start other than the sentinel (or k == 1) and all later slots hold the sentinel. */
  lemma KeepsPieces(s: seq<real>, k: nat)
    requires 1 <= k <= |s| && (k == 1 || s[k - 1] != Sentinel)
    requires forall j :: k <= j < |s| ==> s[j] == Sentinel
    ensures ListEnd(s) == k
  {
  }

  /**
   * An input of -1 after the first point is read back as padding: the
   * points [-2, -1, 1] come back as [-2, 1].
   */
  lemma SentinelInputIsPadding()
    ensures Encode(DefaultSegments, [-2.0, -1.0, 1.0], [0.0, 0.5, 1.0]).Ok?
    ensures Decode(Encode(DefaultSegments, [-2.0, -1.0, 1.0], [0.0, 0.5, 1.0]).value).0 == [-2.0, 1.0]
  {
    var t := Encode(DefaultSegments, [-2.0, -1.0, 1.0], [0.0, 0.5, 1.0]).value;
    assert t.s[1] == Sentinel;
    assert t.s[0] == -2.0;
    assert ListEnd(t.s) == 1;
  }

  /** With at most one point every slot is padding, and the table reads back as ([-1, 1], [0, 0]). */
  lemma DecodeEmpty(nOfSegments: nat, x: seq<real>, y: seq<real>)
    requires nOfSegments >= 1 && |x| <= 1 && |y| == |x|
    ensures Encode(nOfSegments, x, y).Ok?
    ensures Decode(Encode(nOfSegments, x, y).value) == ([Sentinel, 1.0], [0.0, 0.0])
  {
    var t := Encode(nOfSegments, x, y).value;
    assert Pieces(|x|) == 0;
    DecodePadding(t);
  }

  /** A table of padding slots only reads back as ([-1, 1], [0, 0]). */
  lemma DecodePadding(t: Table)
    requires 1 <= |t.s| == |t.q| == |t.m|
    requires forall i :: 0 <= i < |t.s| ==> t.s[i] == Sentinel && t.q[i] == 0.0 && t.m[i] == 0.0
    ensures Decode(t) == ([Sentinel, 1.0], [0.0, 0.0])
  {
    KeepsPieces(t.s, 1);
    var d := Decode(t);
    assert d.0 == [t.s[0], 1.0];
    assert d.1 == [t.q[0], t.q[0] + t.m[0] * (1.0 - t.s[0])];
  }
}

/**
 * The AmsNouveau hardware module: the PWM output's linearizer table and
 * ramp table, written register by register. The register file is a map
 * from register names to the values last written; the fixed-point
 * conversion each register applies on write is not part of this model.
 */
module Ams {
  import opened Wrappers
  import opened Numeric
  import Linearizer

  /** The ramp table's slot count (ramp_nOfSegments). */
  const RampSegments: nat := 8
  /** Longest single step of a flat segment, in seconds. */
  const MaxStepTime: real := 0.10
  /** One least significant bit of the 8-bit ramp start value: 1.8 V over 255 levels. */
  const Lsb: real := 1.8 / 255.0

  /** The module's registers; setLLinearizer and setRamp write all but four of them. */
  datatype Reg =
    | AdcSelect
    | StaticValue
    | RampAdcTriggerValue
    | RampAdcTriggerEdge
    | LinearizerX(i: nat)
    | LinearizerQ(i: nat)
    | LinearizerM(i: nat)
    | UseLinearizer
    | RampStartValue(i: nat)
    | RampValueStepIncrementer(i: nat)
    | RampTimePerStep(i: nat)
    | RampNumberOfStep(i: nat)
    | TriggerPin
    | RampIdleConfig
    | RampUseMultiTriggers
    | RampNumberOfUsedRamps
    | OutputSource
    | RampTriggerType

  /** A register value: a number, a count, a flag or a named option. */
  datatype Value = Num(r: real) | Count(n: int) | Flag(b: bool) | Choice(name: string)

  datatype AmsError =
    | SizeMismatch     // the edges are not one more than the durations
    | TooManySamples   // more durations than ramp slots
    | ZeroSteps(i: nat) // slot i gets 0 steps: the step time divides by zero

  // ---------------------------------------------------------------------
  // Linearizer
  // ---------------------------------------------------------------------

  /** The table t written to the first `count` linearizer slots of regs, slot by slot. */
  function LinearizerWrites(regs: map<Reg, Value>, t: Linearizer.Table, count: nat): map<Reg, Value>
    requires count <= |t.s| && count <= |t.q| && count <= |t.m|
  {
    if count == 0 then regs
    else
      var i := count - 1;
      LinearizerWrites(regs, t, i)[LinearizerX(i) := Num(t.s[i])][LinearizerQ(i) := Num(t.q[i])][LinearizerM(i) := Num(t.m[i])]
  }

  /** A linearizer register of a slot below count. */
  predicate IsLinearizerSlot(k: Reg, count: nat) {
    (k.LinearizerX? || k.LinearizerQ? || k.LinearizerM?) && k.i < count
  }

  /** After writing `count` linearizer slots, slot i < count holds (s[i], q[i], m[i]). */
  lemma {:induction false} LinearizerWritesSlot(regs: map<Reg, Value>, t: Linearizer.Table, count: nat, i: nat)
    requires count <= |t.s| && count <= |t.q| && count <= |t.m| && i < count
    ensures var w := LinearizerWrites(regs, t, count);
            && LinearizerX(i) in w && w[LinearizerX(i)] == Num(t.s[i])
            && LinearizerQ(i) in w && w[LinearizerQ(i)] == Num(t.q[i])
            && LinearizerM(i) in w && w[LinearizerM(i)] == Num(t.m[i])
  {
    if i < count - 1 {
      LinearizerWritesSlot(regs, t, count - 1, i);
    }
  }

  /** Writing `count` linearizer slots leaves every other register as it was. */
  lemma {:induction false} LinearizerWritesOther(regs: map<Reg, Value>, t: Linearizer.Table, count: nat, k: Reg)
    requires count <= |t.s| && count <= |t.q| && count <= |t.m| && !IsLinearizerSlot(k, count)
    ensures var w := LinearizerWrites(regs, t, count);
            && (k in w <==> k in regs) && (k in regs ==> w[k] == regs[k])
  {
    if count > 0 {
      LinearizerWritesOther(regs, t, count - 1, k);
    }
  }

  // ---------------------------------------------------------------------
  // Ramp
  // ---------------------------------------------------------------------

  /** The four ramp registers of one slot. */
  datatype Slot = Slot(startValue: real, incrementer: int, timePerStep: real, numberOfStep: int)

  /**
   * The step count of a ramp slot: ceil(d / 0.10) when flat; otherwise
   * incrementer * int((end - start) * 255 / 1.8), the number of 1-LSB steps
   * that fit in the rise or fall.
   */
  function StepCount(startValue: real, endValue: real, duration: real): (n: int)
    ensures startValue == endValue ==> n == Ceil(duration / MaxStepTime)
    ensures startValue != endValue ==> n == Floor(Abs(endValue - startValue) * 255.0 / 1.8)
  {
    if startValue == endValue then Ceil(duration / MaxStepTime)
    else Incrementer(startValue, endValue) * Trunc((endValue - startValue) * 255.0 / 1.8)
  }

  /** The step incrementer: 0 when flat, +1 when rising, -1 when falling. */
  function Incrementer(startValue: real, endValue: real): (inc: int)
    ensures inc == 0 <==> startValue == endValue
    ensures inc == 1 <==> startValue < endValue
    ensures inc == -1 <==> endValue < startValue
  {
    if startValue == endValue then 0 else if startValue < endValue then 1 else -1
  }

  /** The registers of one ramp slot, or the slot's division by zero. */
  function RampSlot(i: nat, startValue: real, endValue: real, duration: real): (r: Result<Slot, AmsError>)
    ensures r.Err? <==> StepCount(startValue, endValue, duration) == 0
    ensures r.Err? ==> r.error == ZeroSteps(i)
    ensures r.Ok? ==> r.value.startValue == startValue && r.value.numberOfStep == StepCount(startValue, endValue, duration)
    ensures r.Ok? ==> r.value.incrementer == Incrementer(startValue, endValue)
    ensures r.Ok? ==> r.value.timePerStep == duration / r.value.numberOfStep as real
  {
    var n := StepCount(startValue, endValue, duration);
    if n == 0 then Err(ZeroSteps(i))
    else Ok(Slot(startValue, Incrementer(startValue, endValue), duration / n as real, n))
  }

  /** The slot's steps add up to its duration. */
  lemma RampSlotDuration(i: nat, startValue: real, endValue: real, duration: real)
    requires RampSlot(i, startValue, endValue, duration).Ok?
    ensures var s := RampSlot(i, startValue, endValue, duration).value;
            s.timePerStep * s.numberOfStep as real == duration
  {
    var s := RampSlot(i, startValue, endValue, duration).value;
    var n := s.numberOfStep as real;
    assert n != 0.0;
    assert duration / n * n == duration;
  }

  /**
   * A sloped slot's step count is never negative, and it is zero exactly
   * when the edges are less than one LSB (1.8 / 255 V) apart.
   */
  lemma SlopedStepCount(startValue: real, endValue: real, duration: real)
    requires startValue != endValue
    ensures StepCount(startValue, endValue, duration) >= 0
    ensures StepCount(startValue, endValue, duration) == 0 <==> Abs(endValue - startValue) < Lsb
  {
    var u := (endValue - startValue) * 255.0 / 1.8;
    assert Abs(endValue - startValue) < Lsb <==> Abs(u) < 1.0;
  }

  /**
   * A sloped slot, stepping by one LSB per step, ends less than one LSB
   * short of its end edge and never overshoots it.
   */
  lemma SlopedSlotReachesEdge(i: nat, startValue: real, endValue: real, duration: real)
    requires startValue != endValue && RampSlot(i, startValue, endValue, duration).Ok?
    ensures var s := RampSlot(i, startValue, endValue, duration).value;
            var reached := startValue + (s.incrementer * s.numberOfStep) as real * Lsb;
            && s.numberOfStep >= 1
            && Abs(endValue - reached) < Lsb
            && (startValue < endValue ==> startValue < reached <= endValue)
            && (endValue < startValue ==> endValue <= reached < startValue)
  {
    var u := (endValue - startValue) * 255.0 / 1.8;
    var t := Trunc(u);
    SlopedStepCount(startValue, endValue, duration);
    var s := RampSlot(i, startValue, endValue, duration).value;
    var inc := Incrementer(startValue, endValue);
    assert inc * inc == 1;
    assert s.incrementer * s.numberOfStep == t;
    assert endValue - startValue == u * Lsb;
  }

  /** A flat slot takes ceil(d / 0.10) steps; it fails only for a duration in (-0.10, 0]. */
  lemma FlatSlot(i: nat, value: real, duration: real)
    ensures RampSlot(i, value, value, duration).Ok? <==> !(-MaxStepTime < duration <= 0.0)
    ensures RampSlot(i, value, value, duration).Ok? ==>
              RampSlot(i, value, value, duration).value.incrementer == 0
              && RampSlot(i, value, value, duration).value.numberOfStep == Ceil(duration / MaxStepTime)
  {
    var q := duration / MaxStepTime;
    assert duration <= 0.0 <==> q <= 0.0;
    assert -MaxStepTime < duration <==> -1.0 < q;
  }

  /** The index of the first slot whose step count is zero, or |durations| if there is none. */
  function FirstZeroSlot(edges: seq<real>, durations: seq<real>, from: nat): (k: nat)
    requires |edges| == |durations| + 1 && from <= |durations|
    ensures from <= k <= |durations|
    ensures forall j :: from <= j < k ==> RampSlot(j, edges[j], edges[j + 1], durations[j]).Ok?
    ensures k < |durations| ==> RampSlot(k, edges[k], edges[k + 1], durations[k]).Err?
    decreases |durations| - from
  {
    if from == |durations| then from
    else if RampSlot(from, edges[from], edges[from + 1], durations[from]).Err? then from
    else FirstZeroSlot(edges, durations, from + 1)
  }

  /** The registers of slots 0 .. count - 1, every one of which has a nonzero step count. */
  function PlannedSlots(edges: seq<real>, durations: seq<real>, count: nat): (slots: seq<Slot>)
    requires |edges| == |durations| + 1 && count <= |durations|
    requires forall j :: 0 <= j < count ==> RampSlot(j, edges[j], edges[j + 1], durations[j]).Ok?
    ensures |slots| == count
    ensures forall j :: 0 <= j < count ==> slots[j] == RampSlot(j, edges[j], edges[j + 1], durations[j]).value
  {
    if count == 0 then []
    else PlannedSlots(edges, durations, count - 1) + [RampSlot(count - 1, edges[count - 1], edges[count], durations[count - 1]).value]
  }

  /** The slots written to regs, slot j to the registers of ramp slot j. */
  function RampWrites(regs: map<Reg, Value>, slots: seq<Slot>): map<Reg, Value>
  {
    if slots == [] then regs
    else
      var i := |slots| - 1;
      var s := slots[i];
      RampWrites(regs, slots[..i])
        [RampStartValue(i) := Num(s.startValue)]
        [RampValueStepIncrementer(i) := Count(s.incrementer)]
        [RampTimePerStep(i) := Num(s.timePerStep)]
        [RampNumberOfStep(i) := Count(s.numberOfStep)]
  }

  /** Writing one slot more is writing its four registers after the others. */
  lemma RampWritesAppend(regs: map<Reg, Value>, slots: seq<Slot>, s: Slot)
    ensures var i := |slots|;
            RampWrites(regs, slots + [s])
            == RampWrites(regs, slots)
                 [RampStartValue(i) := Num(s.startValue)]
                 [RampValueStepIncrementer(i) := Count(s.incrementer)]
                 [RampTimePerStep(i) := Num(s.timePerStep)]
                 [RampNumberOfStep(i) := Count(s.numberOfStep)]
  {
    assert (slots + [s])[..|slots|] == slots;
  }

  /** A ramp slot register of a slot below count. */
  predicate IsRampSlot(k: Reg, count: nat) {
    (k.RampStartValue? || k.RampValueStepIncrementer? || k.RampTimePerStep? || k.RampNumberOfStep?) && k.i < count
  }

  /** After writing the slots, ramp slot i holds slots[i]. */
  lemma {:induction false} RampWritesSlot(regs: map<Reg, Value>, slots: seq<Slot>, i: nat)
    requires i < |slots|
    ensures var w := RampWrites(regs, slots);
            && RampStartValue(i) in w && w[RampStartValue(i)] == Num(slots[i].startValue)
            && RampValueStepIncrementer(i) in w && w[RampValueStepIncrementer(i)] == Count(slots[i].incrementer)
            && RampTimePerStep(i) in w && w[RampTimePerStep(i)] == Num(slots[i].timePerStep)
            && RampNumberOfStep(i) in w && w[RampNumberOfStep(i)] == Count(slots[i].numberOfStep)
  {
    var last := |slots| - 1;
    if i < last {
      RampWritesSlot(regs, slots[..last], i);
    }
  }

  /**
   * Writing the slots leaves every other register as it was, the slots
   * from |slots| on included: unused slots are not cleared.
   */
  lemma {:induction false} RampWritesOther(regs: map<Reg, Value>, slots: seq<Slot>, k: Reg)
    requires !IsRampSlot(k, |slots|)
    ensures var w := RampWrites(regs, slots);
            && (k in w <==> k in regs) && (k in regs ==> w[k] == regs[k])
  {
    if slots != [] {
      RampWritesOther(regs, slots[..|slots| - 1], k);
    }
  }

  /** The registers setRamp writes after the slots. */
  predicate IsControl(k: Reg) {
    k.TriggerPin? || k.RampIdleConfig? || k.RampUseMultiTriggers? || k.RampNumberOfUsedRamps? || k.OutputSource? || k.RampTriggerType?
  }

  /** The control registers setRamp writes after the slots. */
  function RampControl(regs: map<Reg, Value>, enable: bool, count: nat, triggerPin: string,
                       triggerType: string, idleConfig: string, useMultiTriggers: bool): (w: map<Reg, Value>)
    ensures w.Keys == regs.Keys + {TriggerPin, RampIdleConfig, RampUseMultiTriggers, RampNumberOfUsedRamps, RampTriggerType}
                      + (if enable then {OutputSource} else {})
    ensures w[TriggerPin] == Choice(triggerPin) && w[RampIdleConfig] == Choice(idleConfig)
    ensures w[RampUseMultiTriggers] == Flag(useMultiTriggers) && w[RampNumberOfUsedRamps] == Count(count)
    ensures w[RampTriggerType] == Choice(triggerType)
    ensures enable ==> w[OutputSource] == Choice("ramp")
    ensures !enable ==> (OutputSource in w <==> OutputSource in regs) && (OutputSource in regs ==> w[OutputSource] == regs[OutputSource])
    ensures forall k :: k in regs && !IsControl(k) ==> w[k] == regs[k]
  {
    var r := regs[TriggerPin := Choice(triggerPin)][RampIdleConfig := Choice(idleConfig)]
                 [RampUseMultiTriggers := Flag(useMultiTriggers)][RampNumberOfUsedRamps := Count(count)];
    var r := if enable then r[OutputSource := Choice("ramp")] else r;
    r[RampTriggerType := Choice(triggerType)]
  }

  // ---------------------------------------------------------------------
  // The module
  // ---------------------------------------------------------------------

  class AmsNouveau {
    /** The register file: the value last written to each register. */
    var regs: map<Reg, Value>
    /** Messages logged at error level. */
    var errorLog: seq<string>
    /** The linearizer slot count setLLinearizer writes (not defined by the module itself). */
    const filterMaxCoefficients: nat

    constructor (filterMaxCoefficients: nat, regs: map<Reg, Value>)
      ensures this.filterMaxCoefficients == filterMaxCoefficients && this.regs == regs && errorLog == []
    {
      this.filterMaxCoefficients := filterMaxCoefficients;
      this.regs := regs;
      errorLog := [];
    }

    /**
     * setLLinearizer: with too many points or x and y of different lengths,
     * log an error and write nothing; otherwise write every slot of the
     * padded table, then the enable flag.
     */
    method SetLLinearizer(enable: bool, x: seq<real>, y: seq<real>)
      modifies this
      ensures Linearizer.Encode(filterMaxCoefficients, x, y).Err? ==>
                regs == old(regs) && |errorLog| == |old(errorLog)| + 1 && errorLog[..|old(errorLog)|] == old(errorLog)
      ensures Linearizer.Encode(filterMaxCoefficients, x, y).Ok? ==>
                errorLog == old(errorLog)
                && regs == LinearizerWrites(old(regs), Linearizer.Encode(filterMaxCoefficients, x, y).value,
                                            filterMaxCoefficients)[UseLinearizer := Flag(enable)]
    {
      if |x| > filterMaxCoefficients + 1 || |y| != |x| {
        errorLog := errorLog + ["incorrect number of coefficients"];
        return;
      }
      var encoded := Linearizer.Encode(filterMaxCoefficients, x, y);
      var written := WriteLinearizer(regs, encoded.value, filterMaxCoefficients);
      regs := written[UseLinearizer := Flag(enable)];
    }

    /**
     * setRamp: size errors raise before any write; a slot with zero steps
     * raises after the slots before it are written; otherwise every slot is
     * written, then the control registers.
     */
    method SetRamp(enable: bool, edges: seq<real>, durations: seq<real>, triggerPin: string,
                   triggerType: string, idleConfig: string, useMultiTriggers: bool) returns (err: Option<AmsError>)
      modifies this
      ensures errorLog == old(errorLog)
      ensures |durations| != |edges| - 1 ==> err == Some(SizeMismatch) && regs == old(regs)
      ensures |durations| == |edges| - 1 && |durations| > RampSegments ==> err == Some(TooManySamples) && regs == old(regs)
      ensures |durations| == |edges| - 1 && |durations| <= RampSegments ==>
                var k := FirstZeroSlot(edges, durations, 0);
                && (k < |durations| ==> err == Some(ZeroSteps(k)) && regs == RampWrites(old(regs), PlannedSlots(edges, durations, k)))
                && (k == |durations| ==>
                      err == None
                      && regs == RampControl(RampWrites(old(regs), PlannedSlots(edges, durations, k)), enable, |durations|,
                                             triggerPin, triggerType, idleConfig, useMultiTriggers))
    {
      if |durations| != |edges| - 1 {
        return Some(SizeMismatch);
      }
      if |durations| > RampSegments {
        return Some(TooManySamples);
      }
      var written;
      written, err := WriteRampSlots(regs, edges, durations);
      regs := written;
      if err.Some? {
        return;
      }
      regs := RampControl(regs, enable, |durations|, triggerPin, triggerType, idleConfig, useMultiTriggers);
    }
  }

  /** The loop of setLLinearizer: slots 0 .. count - 1 of the table, one after the other. */
  method WriteLinearizer(regs: map<Reg, Value>, t: Linearizer.Table, count: nat) returns (w: map<Reg, Value>)
    requires count <= |t.s| && count <= |t.q| && count <= |t.m|
    ensures w == LinearizerWrites(regs, t, count)
  {
    w := regs;
    for i := 0 to count
      invariant w == LinearizerWrites(regs, t, i)
    {
      w := w[LinearizerX(i) := Num(t.s[i])];
      w := w[LinearizerQ(i) := Num(t.q[i])];
      w := w[LinearizerM(i) := Num(t.m[i])];
    }
  }

  /**
   * The loop of setRamp: each slot's registers in turn, stopping with
   * ZeroSteps at the first slot whose step count is zero.
   */
  method WriteRampSlots(regs: map<Reg, Value>, edges: seq<real>, durations: seq<real>) returns (w: map<Reg, Value>, err: Option<AmsError>)
    requires |edges| == |durations| + 1
    ensures var k := FirstZeroSlot(edges, durations, 0);
            && w == RampWrites(regs, PlannedSlots(edges, durations, k))
            && (err.Some? <==> k < |durations|)
            && (err.Some? ==> err == Some(ZeroSteps(k)))
  {
    w := regs;
    for i := 0 to |durations|
      invariant SlotsWritten(regs, edges, durations, i, w)
    {
      var next, stop := WriteSlot(regs, edges, durations, i, w);
      if stop.Some? {
        return w, stop;
      }
      w := next;
    }
    FirstZeroNone(edges, durations, 0);
    err := None;
  }

  /** The loop invariant of setRamp: slots 0 .. i - 1 succeeded and are written. */
  ghost predicate SlotsWritten(regs: map<Reg, Value>, edges: seq<real>, durations: seq<real>, i: nat, w: map<Reg, Value>) {
    && |edges| == |durations| + 1 && i <= |durations|
    && (forall j :: 0 <= j < i ==> RampSlot(j, edges[j], edges[j + 1], durations[j]).Ok?)
    && w == RampWrites(regs, PlannedSlots(edges, durations, i))
  }

  /**
   * Slot i of setRamp's loop: its four registers are written, or, when its
   * step count is zero, nothing is and slot i is the first failing one.
   */
  method WriteSlot(regs: map<Reg, Value>, edges: seq<real>, durations: seq<real>, i: nat, w: map<Reg, Value>)
    returns (next: map<Reg, Value>, stop: Option<AmsError>)
    requires i < |durations| && SlotsWritten(regs, edges, durations, i, w)
    ensures stop.Some? ==> FirstZeroSlot(edges, durations, 0) == i && stop == Some(ZeroSteps(i))
    ensures stop.None? ==> SlotsWritten(regs, edges, durations, i + 1, next)
  {
    var slot := PlanSlot(i, edges[i], edges[i + 1], durations[i]);
    if slot.Err? {
      FirstZeroAt(edges, durations, 0, i);
      return w, Some(slot.error);
    }
    var s := slot.value;
    RampWritesAppend(regs, PlannedSlots(edges, durations, i), s);
    next := w[RampStartValue(i) := Num(s.startValue)];
    next := next[RampValueStepIncrementer(i) := Count(s.incrementer)];
    next := next[RampTimePerStep(i) := Num(s.timePerStep)];
    next := next[RampNumberOfStep(i) := Count(s.numberOfStep)];
    stop := None;
  }

  /**
   * One iteration of setRamp's loop: the slot's incrementer, step count and step time.
   * RampSlot is its specification; this method keeps the loop body's statements
   * in their order for WriteSlot, which writes the registers one by one.
   */
  method PlanSlot(i: nat, startValue: real, endValue: real, rampTime: real) returns (r: Result<Slot, AmsError>)
    ensures r == RampSlot(i, startValue, endValue, rampTime)
  {
    var valueIncrementer: int;
    var nOfSteps: int;
    if startValue == endValue {
      valueIncrementer := 0;
      nOfSteps := Ceil(rampTime / MaxStepTime);
    } else {
      valueIncrementer := if startValue < endValue then 1 else -1;
      nOfSteps := valueIncrementer * Trunc((endValue - startValue) * 255.0 / 1.8);
    }
    if nOfSteps == 0 {
      return Err(ZeroSteps(i));
    }
    var stepTime := rampTime / nOfSteps as real;
    return Ok(Slot(startValue, valueIncrementer, stepTime, nOfSteps));
  }

  /** With every slot from `from` on succeeding, there is no failing slot. */
  lemma {:induction false} FirstZeroNone(edges: seq<real>, durations: seq<real>, from: nat)
    requires |edges| == |durations| + 1 && from <= |durations|
    requires forall j :: from <= j < |durations| ==> RampSlot(j, edges[j], edges[j + 1], durations[j]).Ok?
    ensures FirstZeroSlot(edges, durations, from) == |durations|
    decreases |durations| - from
  {
    if from < |durations| {
      FirstZeroNone(edges, durations, from + 1);
    }
  }

  /** The first failing slot found from `from` is i when every slot in [from, i) succeeds and slot i fails. */
  lemma {:induction false} FirstZeroAt(edges: seq<real>, durations: seq<real>, from: nat, i: nat)
    requires |edges| == |durations| + 1 && from <= i < |durations|
    requires forall j :: from <= j < i ==> RampSlot(j, edges[j], edges[j + 1], durations[j]).Ok?
    requires RampSlot(i, edges[i], edges[i + 1], durations[i]).Err?
    ensures FirstZeroSlot(edges, durations, from) == i
    decreases i - from
  {
    if from < i {
      FirstZeroAt(edges, durations, from + 1, i);
    }
  }
}

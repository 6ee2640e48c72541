/**
 * Where the register fields of the ramp table, the linearizer table and
 * the AmsNouveau module sit in the FPGA's 32-bit words, and which of them
 * share bits.
 */
module Layout {
  import Ams

  const WordBits: nat := 32

  /** A register field: `bits` bits from bit `startBit` on, in the word at byte offset `address`. */
  datatype Field = Field(address: int, startBit: nat, bits: nat)

  /** The field lies inside one 32-bit word. */
  predicate FitsWord(f: Field) {
    1 <= f.bits && f.startBit + f.bits <= WordBits
  }

  /** The two fields share at least one bit of one word. */
  predicate Overlap(f: Field, g: Field) {
    f.address == g.address && f.startBit < g.startBit + g.bits && g.startBit < f.startBit + f.bits
  }

  // ---------------------------------------------------------------------
  // rampFunction
  // ---------------------------------------------------------------------

  /** The four register arrays of the ramp table. */
  datatype RampArray = StartPoints | StepIncreases | TimeSteps | NOfSteps

  /** Slot i of a ramp array: three words per slot at a stride of 0xC from 0x104. */
  function RampField(a: RampArray, i: nat, timeBits: nat): Field {
    match a
    case StartPoints => Field(0x104 + 0xC * i, 0, 14)
    case StepIncreases => Field(0x104 + 0xC * i, 14, 14)
    case TimeSteps => Field(0x108 + 0xC * i, 0, timeBits)
    case NOfSteps => Field(0x10C + 0xC * i, 0, 14)
  }

  /**
   * For any slot count and any time-register width up to a word, every
   * ramp field fits its word and no two distinct fields share a bit.
   */
  lemma RampLayoutDisjoint(timeBits: nat, a: RampArray, i: nat, b: RampArray, j: nat)
    requires 1 <= timeBits <= WordBits
    ensures FitsWord(RampField(a, i, timeBits))
    ensures (a, i) != (b, j) ==> !Overlap(RampField(a, i, timeBits), RampField(b, j, timeBits))
  {
  }

  // ---------------------------------------------------------------------
  // segmentedFunction
  // ---------------------------------------------------------------------

  /** The three register arrays of the linearizer table. */
  datatype LinearizerArray = EdgePoints | Offsets | Slopes

  /** Slot i of a linearizer array: two words per slot at a stride of 8 from 0x100. */
  function LinearizerField(a: LinearizerArray, i: nat, coefficientBits: nat): Field {
    match a
    case EdgePoints => Field(0x100 + 8 * i, 0, 14)
    case Offsets => Field(0x100 + 8 * i, 14, 14)
    case Slopes => Field(0x104 + 8 * i, 0, coefficientBits)
  }

  /** For any slope width up to a word, the linearizer fields fit and are pairwise disjoint. */
  lemma LinearizerLayoutDisjoint(coefficientBits: nat, a: LinearizerArray, i: nat, b: LinearizerArray, j: nat)
    requires 1 <= coefficientBits <= WordBits
    ensures FitsWord(LinearizerField(a, i, coefficientBits))
    ensures (a, i) != (b, j) ==> !Overlap(LinearizerField(a, i, coefficientBits), LinearizerField(b, j, coefficientBits))
  {
  }

  // ---------------------------------------------------------------------
  // AmsNouveau
  // ---------------------------------------------------------------------

  /** The registers of an AmsNouveau module with 8 linearizer and 8 ramp slots. */
  predicate IsAmsReg(r: Ams.Reg) {
    (r.LinearizerX? || r.LinearizerQ? || r.LinearizerM? || r.RampStartValue? || r.RampValueStepIncrementer?
     || r.RampTimePerStep? || r.RampNumberOfStep?) ==> r.i < 8
  }

  /**
   * The AmsNouveau fields as declared. The width of the digital-pin
   * register is not part of this model, so it is a parameter.
   */
  function AmsFieldAsWritten(r: Ams.Reg, pinBits: nat): Field {
    match r
    case OutputSource => Field(0x20, 0, 2)
    case AdcSelect => Field(0x20, 2, 1)
    case UseLinearizer => Field(0x20, 3, 1)
    case TriggerPin => Field(0x20, 4, pinBits)
    case StaticValue => Field(0x20, 16, 8)
    case LinearizerX(i) => Field(0x40 + 4 * i, 0, 8)
    case LinearizerQ(i) => Field(0x40 + 4 * i, 8, 8)
    case LinearizerM(i) => Field(0x40 + 4 * i, 16, 16)
    case RampTriggerType => Field(0x60, 0, 2)
    case RampIdleConfig => Field(0x60, 2, 2)
    case RampAdcTriggerValue => Field(0x20, 4, 14)
    case RampAdcTriggerEdge => Field(0x60, 18, 1)
    case RampUseMultiTriggers => Field(0x60, 19, 1)
    case RampNumberOfUsedRamps => Field(0x60, 20, 10)
    case RampStartValue(i) => Field(0x70 + 8 * i, 0, 8)
    case RampValueStepIncrementer(i) => Field(0x70 + 8 * i, 8, 8)
    case RampTimePerStep(i) => Field(0x74 + 8 * i, 0, 24)
    case RampNumberOfStep(i) => Field(0x74 + 8 * i, 24, 8)
  }

  /**
   * As declared, the ramp's ADC trigger value (word 0x20, bits 4..17)
   * shares bits 16 and 17 with the static output value and bit 4 with the
   * trigger pin: writing one of them changes another.
   */
  lemma TriggerValueOverlapsAsWritten(pinBits: nat)
    requires pinBits >= 1
    ensures Overlap(AmsFieldAsWritten(Ams.RampAdcTriggerValue, pinBits), AmsFieldAsWritten(Ams.StaticValue, pinBits))
    ensures Overlap(AmsFieldAsWritten(Ams.RampAdcTriggerValue, pinBits), AmsFieldAsWritten(Ams.TriggerPin, pinBits))
  {
  }

  /** The AmsNouveau fields with the ADC trigger value in the ramp control word 0x60, bits 4..17. */
  function AmsField(r: Ams.Reg, pinBits: nat): (f: Field)
    ensures r != Ams.RampAdcTriggerValue ==> f == AmsFieldAsWritten(r, pinBits)
  {
    if r == Ams.RampAdcTriggerValue then Field(0x60, 4, 14) else AmsFieldAsWritten(r, pinBits)
  }

  /**
   * With the trigger value in word 0x60, and a digital-pin field that ends
   * below the static value, every AmsNouveau field fits its word and no
   * two distinct fields share a bit.
   */
  lemma AmsLayoutDisjoint(pinBits: nat, r: Ams.Reg, s: Ams.Reg)
    requires 1 <= pinBits <= 12 && IsAmsReg(r) && IsAmsReg(s)
    ensures FitsWord(AmsField(r, pinBits))
    ensures r != s ==> !Overlap(AmsField(r, pinBits), AmsField(s, pinBits))
  {
  }
}

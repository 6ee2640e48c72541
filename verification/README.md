# pyrpl custom-FPGA helpers, modelled in Dafny

This project models the parts of the pyrpl fork for custom Red Pitaya
firmware that turn user-level settings into register contents. It also
models the bookkeeping of the scanning-cavity lock.

- **Ramp table** (`Ramp`, `RampSearch`): `rampFunction.set_value` turns
  breakpoints `(x, y)` into up to `nOfSegments` ramp slots. Each slot has
  a start point, a step increase, a step time and a step count. Step
  counts of sloped segments come from `findBestRamp`. The rounding loss of
  every step time is carried to the last segment. `get_value` reads the
  table back. `findBestRatio`, the integer-ratio search, is modelled with
  its while loop and its error paths.
- **Linearizer table** (`Linearizer`): `segmentedFunction` stores a
  piecewise-linear map as slots `(s, q, m)`, padded with `(-1, 0, 0)`,
  and reads it back.
- **AmsNouveau** (`Ams`): `setLLinearizer` and `setRamp` write the PWM
  module's linearizer and ramp registers. The register file is a map from
  register names to the last written value, held by a class and updated in
  place. `Layout` gives the bit fields of all three register layouts.
- **Scanning cavity** (`ScanningCavity`):
  - the lower and upper scan edges, kept as amplitude and offset;
  - the peak setpoint conversion between time and normalised units;
  - the autoscaling of peak ranges when a scan edge moves;
  - the overlap test against the main peaks;
  - the peak's `setLeftAndRight` and `setActiveAndPaused`;
  - the cavity's lists of used peaks and Red Pitayas.
- **Greedy clique cover** (`GraphCalculator`): `greedy_clique_partition`
  covers every node by maximal cliques. networkx's `find_cliques` is a
  parameter. It is constrained only by its contract: it lists exactly the
  maximal cliques of the subgraph it is given.

Python floats are modelled as `real` and Python `int()` as truncation
(`Numeric.Trunc`). An exception raised by the source becomes the `Err` or
`Some(error)` value of a `Result` or `Option`.

## Model

| member | source | states |
|---|---|---|
| RampSearch.TotalError | pyrpl/hardware_modules/ramp.py:105-111 | the error of n steps is non-negative for a non-negative height and length |
| RampSearch.ScanStopGrows | pyrpl/hardware_modules/ramp.py:104 | a longer ramp never shrinks findBestRamp's range of step counts |
| RampSearch.BestStepCount | pyrpl/hardware_modules/ramp.py:104-112 | the chosen count lies in [lo, hi] and its total error is no larger than that of any count in [lo, hi] |
| RampSearch.FindBestRamp | pyrpl/hardware_modules/ramp.py:98-112 | succeeds exactly when numpy's `arange(minN, max(min(v, t), 1) + 1)` is non-empty; the result lies in that range and minimises the total error over all of it |
| RampSearch.ScanCoversRange | pyrpl/hardware_modules/ramp.py:104 | every integer count below the arange stop is at most ceil(stop) - 1, so a minimum over [minN, ceil(stop) - 1] is a minimum over the whole arange |
| RampSearch.BestBelowIsBest | pyrpl/hardware_modules/ramp.py:85-90 | the value the inner loop leaves in `prev` is below r, and no fraction a/b below r is larger |
| RampSearch.StartBelow | pyrpl/hardware_modules/ramp.py:82 | when a/(b-1) is below r, the first numerator int(a*b/(b-1)) tried for b is also below r*b |
| RampSearch.RaiseNumerator | pyrpl/hardware_modules/ramp.py:85-90 | the inner while loop runs iff the starting fraction is below r; it then stops at the first numerator reaching r, with `prev` the best fraction below r |
| RampSearch.FindBestRatioFromOne | pyrpl/hardware_modules/ramp.py:74-95 | for r >= 1: r above A gives (int(r), 1); an integer r leaves `prev` unbound when the scan runs; a non-integer r gives a fraction in [floor(r), r) |
| RampSearch.ScanDenominatorsIntegral | pyrpl/hardware_modules/ramp.py:78-95 | for integer r, the scan fails with `prev` unbound exactly when B > 2 and 2r <= A; otherwise the result is (r, 1) |
| RampSearch.ScanDenominators | pyrpl/hardware_modules/ramp.py:78-95 | for non-integer r the result a/b lies in [floor(r), r), its b is 1 or below B, and it is at least the best fraction below r for every denominator the scan reached |
| RampSearch.FindBestRatio | pyrpl/hardware_modules/ramp.py:70-95 | r == 0 divides by zero; r < 0 recurses forever; r > A gives (int(r), 1); an integer r fails on the unbound prev when B > 2 and 2r <= A, and gives (r, 1) otherwise; any other r gets a fraction in [int(r), r) with b equal to 1 or below B, at least as large as the best fraction below r of every denominator scanned; for 0 < r < 1 the same cases hold for 1/r with A and B and the result swapped |
| Ramp.Durations | pyrpl/hardware_modules/ramp.py:119 | one duration per pair of consecutive breakpoints, each the difference of their times |
| Ramp.StepCount | pyrpl/hardware_modules/ramp.py:131-138 | a flat segment gets ceil(T / 0.10) steps; a sloped one fails exactly when findBestRamp's range is empty and otherwise gets the count `RampSearch.FindBestRamp` returns for its height and length, at least 2 |
| Ramp.EncodeSegment | pyrpl/hardware_modules/ramp.py:128-141 | a slot starts at the segment's start value, ends exactly at its end value and lasts exactly its time; a flat one has a zero increment and ceil(T / 0.10) steps, a sloped one findBestRamp's count; it fails with ZeroStepCount exactly when flat with ceil(T / 0.10) == 0, and with EmptyStepRange exactly when sloped with an empty findBestRamp range |
| Ramp.SegmentSucceeds | pyrpl/hardware_modules/ramp.py:128-141 | a segment of positive length, sloped ones with a non-empty findBestRamp range, is encoded with a positive step count, also when lengthened by the carry |
| Ramp.SplitSegment | pyrpl/hardware_modules/ramp.py:139-141 | start + increment * n == end and stepTime * n == T, with increment 0 for a flat segment |
| Ramp.ResidualBounds | pyrpl/hardware_modules/ramp.py:143 | the time lost to quantising the step time is non-negative and below n * smallestTimeStep |
| Ramp.Encode | pyrpl/hardware_modules/ramp.py:114-127 | more than nOfSegments + 1 points fails with "too many segments"; success gives exactly nOfSegments slots |
| Ramp.EncodePrefix | pyrpl/hardware_modules/ramp.py:127-145 | i successful iterations of the segment loop fill i slots and have read y[i]; the loop never raises the size error (the carry is stated by `Ramp.EncodePrefixCarry`) |
| Ramp.EncodePrefixSucceeds | pyrpl/hardware_modules/ramp.py:127-145 | on encodable segment lengths every iteration succeeds and the carry stays non-negative |
| Ramp.EncodeSucceeds | pyrpl/hardware_modules/ramp.py:114-158 | set_value succeeds on at most nOfSegments + 1 points with a value each, strictly increasing times and, for each sloped segment, a non-empty findBestRamp range |
| Ramp.EncodePrefixCarry | pyrpl/hardware_modules/ramp.py:143-145 | after i segments the time carried to the last one is the sum of the residuals of the segments before it |
| Ramp.EncodeLayout | pyrpl/hardware_modules/ramp.py:122-127 | the table is the slots of the |x| - 1 segments followed by all-zero slots |
| Ramp.EncodeUsedSlot | pyrpl/hardware_modules/ramp.py:127-158 | slot j starts at y[j] and ends at y[j+1]; it lasts x[j+1] - x[j], plus the carried residuals for the last segment; a flat one has increment 0 and ceil(T / 0.10) steps; a sloped one has the count `RampSearch.FindBestRamp` gives for its height and length |
| Ramp.EncodeUnusedSlot | pyrpl/hardware_modules/ramp.py:122-125 | slots from |x| - 1 on stay all zero, marking them unused |
| Ramp.CarryOverBounds | pyrpl/hardware_modules/ramp.py:143-145 | the carried time is non-negative and below smallestTimeStep times the steps it comes from |
| Ramp.FirstUnused | pyrpl/hardware_modules/ramp.py:51-54 | the index of the first slot with zero steps, or the slot count; every earlier slot is used |
| Ramp.DecodeAsWritten | pyrpl/hardware_modules/ramp.py:45-67 | get_value as written: cumulative times and start points, cut after index(0) + 1 entries, or after nOfSegments entries when no slot is unused |
| Ramp.Decode | pyrpl/hardware_modules/ramp.py:45-67 | get_value as intended: one breakpoint per used slot plus the end of the last one; times are cumulative durations, values are start points, and the last value is where the last used slot ends |
| Ramp.JoinedSlots | pyrpl/hardware_modules/ramp.py:51-54 | for an encoded table, the first unused slot is at |x| - 1 |
| Ramp.JoinedElapsed | pyrpl/hardware_modules/ramp.py:64-65 | the cumulative time up to slot k of an encoded table is x[k] - x[0] |
| Ramp.EncodeJoins | pyrpl/hardware_modules/ramp.py:127-158 | an encoded table joins the breakpoints, with the residual time carried to the last segment |
| Ramp.DecodeJoined | pyrpl/hardware_modules/ramp.py:45-67 | reading a joined table back returns the values exactly and the times relative to x[0] |
| Ramp.DecodeEncode | pyrpl/hardware_modules/ramp.py:114-163 | round trip: reading back a written table returns y exactly and x shifted to start at 0, the last time delayed by the carried residuals |
| Ramp.DecodeAsWrittenLosesEnd | pyrpl/hardware_modules/ramp.py:64-67 | as written, a table with a spare slot reads back 0 as its last value, and a full table loses its last breakpoint |
| Ramp.FlatHoldReadBack | pyrpl/hardware_modules/ramp.py:64-67 | holding 0.5 V for one second reads back as values [0.5, 0.0] as written, and [0.5, 0.5] as intended |
| Ramp.RampFunction.constructor | pyrpl/hardware_modules/ramp.py:9-43 | the module over the given configuration and the registers' current table of nOfSegments slots; nothing is written |
| Ramp.RampFunction.GetValue | pyrpl/hardware_modules/ramp.py:45-67 | get_value as intended, not as written (see Findings): one time and one value per used slot plus one, the first time 0, each time step the duration of its slot, each value the slot's start point, and the last value where the last used slot ends |
| Ramp.RampFunction.SetValue | pyrpl/hardware_modules/ramp.py:114-163 | on success the slots become the encoded table; on an error they are unchanged and the error is returned |
| Ramp.SegmentFor | pyrpl/hardware_modules/ramp.py:128-141 | the loop body's branches compute EncodeSegment |
| Ramp.BuildTable | pyrpl/hardware_modules/ramp.py:114-127 | the imperative set_value computes Encode |
| Ramp.FillSlots | pyrpl/hardware_modules/ramp.py:127-158 | the segment loop with its carried residual computes the encoded prefix, or stops at its first error |
| Ramp.FillSlot | pyrpl/hardware_modules/ramp.py:128-158 | one iteration appends the slot the encoder defines and updates the carry and the last segment's time, or returns the loop's first error |
| Linearizer.Slope | pyrpl/hardware_modules/linearizer.py:41 | a piece of non-zero width reaches y1 at x1 |
| Linearizer.SegmentedCoefficient | pyrpl/hardware_modules/linearizer.py:29-44 | |x| - 1 pieces; piece i starts at (x[i], y[i]) with the slope towards (x[i+1], y[i+1]) |
| Linearizer.PiecesJoin | pyrpl/hardware_modules/linearizer.py:29-44 | consecutive pieces join: piece j - 1 reaches y[j] at x[j] |
| Linearizer.Encode | pyrpl/hardware_modules/linearizer.py:61-74 | fails on more than nOfSegments + 1 points; x and y of different lengths give ShapeMismatch (see Left out); otherwise nOfSegments slots, the pieces followed by (-1, 0, 0) padding |
| Linearizer.ListEnd | pyrpl/hardware_modules/linearizer.py:50-53 | keeps up to and including the last start that is not -1, or 1 slot when every start is -1 |
| Linearizer.Decode | pyrpl/hardware_modules/linearizer.py:46-59 | the kept starts followed by input 1; the kept outputs followed by the last kept piece evaluated at 1 |
| Linearizer.IncreasingAboveSentinel | pyrpl/hardware_modules/linearizer.py:50-51 | increasing inputs starting at or above -1 are above -1 after the first, so they are never taken for padding |
| Linearizer.DecodeEncode | pyrpl/hardware_modules/linearizer.py:46-74 | round trip: 2 to nOfSegments + 1 points read back unchanged when the last input is 1, the last piece has non-zero width and, with 3 or more points, its start is not -1 |
| Linearizer.DecodeEncodeIncreasing | pyrpl/hardware_modules/linearizer.py:46-74 | strictly increasing points from at least -1 to exactly 1 read back unchanged |
| Linearizer.DecodeEndsAtOne | pyrpl/hardware_modules/linearizer.py:57 | the inputs read back always end at 1, so a last input other than 1 does not read back |
| Linearizer.DecodeTable | pyrpl/hardware_modules/linearizer.py:46-59 | a table holding the pieces of (x, y) followed by padding reads back as (x, y) |
| Linearizer.KeepsPieces | pyrpl/hardware_modules/linearizer.py:50-56 | padding after pieces whose last start is not -1 is cut off exactly |
| Linearizer.SentinelInputIsPadding | pyrpl/hardware_modules/linearizer.py:50-53 | a start equal to -1 in the last piece is taken for padding, so those points do not read back |
| Linearizer.DecodeEmpty | pyrpl/hardware_modules/linearizer.py:50-53 | a table of padding only reads back as one piece |
| Ams.LinearizerWritesSlot | pyrpl/hardware_modules/ams.py:100-103 | after the write loop, slot i holds (s[i], q[i], m[i]) |
| Ams.LinearizerWritesOther | pyrpl/hardware_modules/ams.py:100-103 | the write loop leaves every other register unchanged |
| Ams.StepCount | pyrpl/hardware_modules/ams.py:119-125 | a flat slot gets ceil(d / 0.10) steps; a sloped one the number of whole 1.8/255 V levels in its height, whichever way it goes |
| Ams.Incrementer | pyrpl/hardware_modules/ams.py:119-124 | the incrementer is 0 iff the segment is flat, 1 iff it rises and -1 iff it falls |
| Ams.RampSlot | pyrpl/hardware_modules/ams.py:115-131 | a slot fails iff its step count is 0; otherwise it holds the start value, the step count, the incrementer and duration / count |
| Ams.RampSlotDuration | pyrpl/hardware_modules/ams.py:127 | step time times step count is the segment's duration |
| Ams.SlopedStepCount | pyrpl/hardware_modules/ams.py:123-125 | a sloped segment's count is non-negative, and 0 iff the edges are less than one 8-bit level (1.8 V / 255) apart |
| Ams.SlopedSlotReachesEdge | pyrpl/hardware_modules/ams.py:123-127 | a sloped slot ends within one level of its end edge without passing it |
| Ams.FlatSlot | pyrpl/hardware_modules/ams.py:119-122 | a flat slot fails iff -0.10 < duration <= 0; otherwise it has increment 0 and ceil(duration / 0.10) steps |
| Ams.FirstZeroSlot | pyrpl/hardware_modules/ams.py:115-131 | the first slot at or after `from` that fails, or the duration count |
| Ams.PlannedSlots | pyrpl/hardware_modules/ams.py:115-131 | the first `count` slots, each the value of RampSlot |
| Ams.RampWritesAppend | pyrpl/hardware_modules/ams.py:128-131 | writing one more slot extends the register writes of the earlier slots |
| Ams.RampWritesSlot | pyrpl/hardware_modules/ams.py:128-131 | after the write loop, slot i's four registers hold slot i |
| Ams.RampWritesOther | pyrpl/hardware_modules/ams.py:128-131 | the write loop leaves every other register unchanged, including slots it did not reach |
| Ams.RampControl | pyrpl/hardware_modules/ams.py:135-141 | trigger pin, idle configuration, multi-trigger flag, used-ramp count and trigger type are written; output source becomes "ramp" iff enabled and stays as it was otherwise; nothing else changes |
| Ams.AmsNouveau.constructor | pyrpl/hardware_modules/ams.py:31-34 | the module starts from the given registers and an empty error log |
| Ams.AmsNouveau.SetLLinearizer | pyrpl/hardware_modules/ams.py:72-105 | a bad coefficient count logs one error and writes nothing; otherwise the padded pieces and the enable flag are written |
| Ams.AmsNouveau.SetRamp | pyrpl/hardware_modules/ams.py:107-141 | size errors write nothing; a zero-step slot k stops after writing slots 0..k-1; otherwise all slots and then the control registers are written |
| Ams.WriteLinearizer | pyrpl/hardware_modules/ams.py:100-103 | the write loop computes LinearizerWrites |
| Ams.WriteRampSlots | pyrpl/hardware_modules/ams.py:115-131 | the slot loop writes the slots before the first failing one and reports it |
| Ams.WriteSlot | pyrpl/hardware_modules/ams.py:116-131 | one slot: its four registers are written after the earlier slots, or, when its step count is zero, it is the first failing slot |
| Ams.PlanSlot | pyrpl/hardware_modules/ams.py:116-127 | the branch code computes RampSlot |
| Ams.FirstZeroNone | pyrpl/hardware_modules/ams.py:115-131 | if no slot from `from` on fails, the first failing slot is the duration count |
| Ams.FirstZeroAt | pyrpl/hardware_modules/ams.py:115-131 | if slots from..i-1 succeed and slot i fails, i is the first failing slot |
| Layout.RampLayoutDisjoint | pyrpl/hardware_modules/ramp.py:15-41 | the four ramp arrays' fields fit 32-bit words and no two distinct fields share a bit (time registers up to 32 bits) |
| Layout.LinearizerLayoutDisjoint | pyrpl/hardware_modules/linearizer.py:10-24 | the three linearizer arrays' fields fit 32-bit words and do not share bits |
| Layout.TriggerValueOverlapsAsWritten | pyrpl/hardware_modules/ams.py:42-57 | as declared, the ADC trigger value shares bits with the static value and the trigger pin |
| Layout.AmsField | pyrpl/hardware_modules/ams.py:36-70 | the declared layout with the ADC trigger value moved to the ramp control word |
| Layout.AmsLayoutDisjoint | pyrpl/hardware_modules/ams.py:36-70 | in the corrected layout every AmsNouveau field fits its word and no two share a bit |
| ScanningCavity.AmpOffsFromLowHigh | pyrpl/software_modules/scanningCavity.py:250-251 | the amplitude is non-negative iff low <= high |
| ScanningCavity.LowHighFromAmpOffs | pyrpl/software_modules/scanningCavity.py:247-248 | the edges are ordered iff the amplitude is non-negative, and converting back gives (amp, offs) |
| ScanningCavity.LowHighRoundTrip | pyrpl/software_modules/scanningCavity.py:246-251 | converting edges to amplitude/offset and back returns the edges |
| ScanningCavity.ValidateEdge | pyrpl/software_modules/scanningCavity.py:240-245 | a lower edge is clamped to at most the upper one, an upper edge to at least the lower one |
| ScanningCavity.SetEdgeKeepsOrder | pyrpl/software_modules/scanningCavity.py:240-266 | after a validated write the edge reads back as the validated value, the other edge is unchanged, and low <= high still holds |
| ScanningCavity.SetpointFromTime | pyrpl/software_modules/scanningCavity.py:102-118 | fails (division by zero) iff the peak is not normalised and the duration is 0; a normalised peak with equal main peaks gets setpoint 0 |
| ScanningCavity.SetpointRoundTrip | pyrpl/software_modules/scanningCavity.py:95-118 | writing a time and reading it back returns it, except that a normalised peak with coinciding main peaks reads back their position |
| ScanningCavity.Divide | pyrpl/software_modules/scanningCavity.py:297 | numpy's float division: exact by a non-zero divisor; by the +0.0 of equal voltages +inf, -inf or nan as the dividend is positive, negative or zero |
| ScanningCavity.ClipUnit | pyrpl/software_modules/scanningCavity.py:298 | `np.clip(q, 0, 1)`: a finite q clipped into [0, 1], +inf to 1, -inf to 0, nan stays nan |
| ScanningCavity.RescaledRatio | pyrpl/software_modules/scanningCavity.py:286-297 | finite whenever the new span is non-empty; for an empty span nan exactly when the peak's voltage equals the scan's, infinite otherwise |
| ScanningCavity.RescaledRatioKeepsVoltage | pyrpl/software_modules/scanningCavity.py:273-297 | the rescaled ratio maps to the same voltage in the new scan as the old ratio in the old scan |
| ScanningCavity.RescaledRatioSameSpan | pyrpl/software_modules/scanningCavity.py:286-297 | an unchanged span leaves the ratio unchanged |
| ScanningCavity.ScaledTime | pyrpl/software_modules/scanningCavity.py:298 | `np.clip(q, 0, 1) * T`: undefined exactly when q is nan, and within [0, T] for T > 0 |
| ScanningCavity.RescaledTime | pyrpl/software_modules/scanningCavity.py:296-298 | undefined exactly when the fraction is nan, always defined for a non-empty new span, and clipped into [0, T] for T > 0 |
| ScanningCavity.Autoscale | pyrpl/software_modules/scanningCavity.py:288-300 | undefined iff T == 0 or some peak edge's fraction is nan; always defined when the new span is non-empty; otherwise one clipped range in [0, T] per used peak |
| ScanningCavity.CollapseLower | pyrpl/software_modules/scanningCavity.py:294-298 | with the lower edge moved onto the upper one, a time before T goes to 0 and one after T to T |
| ScanningCavity.CollapseUpper | pyrpl/software_modules/scanningCavity.py:294-298 | with the upper edge moved onto the lower one, a positive time goes to T and a negative one to 0 |
| ScanningCavity.AutoscaleLowerOntoUpper | pyrpl/software_modules/scanningCavity.py:288-300 | a lower edge written at or above the upper one (clamped onto it) sends every peak edge before T to 0 and every one after T to T |
| ScanningCavity.AutoscaleUpperOntoLower | pyrpl/software_modules/scanningCavity.py:288-300 | an upper edge written at or below the lower one (clamped onto it) sends every positive peak edge to T and every negative one to 0 |
| ScanningCavity.AutoscaleSameEdge | pyrpl/software_modules/scanningCavity.py:288-300 | rewriting an edge with its current value keeps every range in [0, T] unchanged |
| ScanningCavity.SameTime | pyrpl/software_modules/scanningCavity.py:296-298 | a time in [0, T] survives normalising, an unchanged span and clipping |
| ScanningCavity.AreIntersectingIsOverlap | pyrpl/software_modules/scanningCavity.py:487-490 | for non-empty ranges, the xor test holds iff the ranges overlap |
| ScanningCavity.IsOverlappingWithMainPeaks | pyrpl/software_modules/scanningCavity.py:482-492 | only a secondary peak, normalised when that is asked for, can overlap; for ordered ranges it overlaps iff its range meets the open ranges of both main peaks |
| ScanningCavity.ActivityFor | pyrpl/software_modules/scanningCavity.py:479-480 | the peak is on iff it is always active, or enabled and in the current peak group |
| ScanningCavity.RangeWrites | pyrpl/software_modules/scanningCavity.py:471-477 | two states, the second being the new range |
| ScanningCavity.RangeWritesNeverCross | pyrpl/software_modules/scanningCavity.py:471-477 | starting from an ordered range and writing an ordered one, no intermediate state has left > right |
| ScanningCavity.Peak.constructor | pyrpl/software_modules/scanningCavity.py:414-420 | a new peak with its identity (Red Pitaya, index), its range and the flags it is given, with no range writes yet |
| ScanningCavity.Peak.SetLeftAndRight | pyrpl/software_modules/scanningCavity.py:471-477 | both edges take the new values in the order RangeWrites gives; nothing else changes |
| ScanningCavity.Peak.SetActiveAndPaused | pyrpl/software_modules/scanningCavity.py:478-492 | active becomes the derived activity unless the peak overlaps the main peaks (then it is kept); paused iff not both on and locking |
| ScanningCavity.RemoveFirst | pyrpl/software_modules/scanningCavity.py:659-661 | list.remove: one element shorter, the same elements minus one x |
| ScanningCavity.RemoveFirstNoDup | pyrpl/software_modules/scanningCavity.py:659-661 | removing from a duplicate-free list keeps it duplicate-free and removes x entirely |
| ScanningCavity.SecondaryPeaksOf | pyrpl/software_modules/scanningCavity.py:640-649 | `count` distinct peaks of one Red Pitaya, with indices 2 .. count + 1 |
| ScanningCavity.Cavity.constructor | pyrpl/software_modules/scanningCavity.py:620-642 | the main Red Pitaya brings main peaks 0 and 1 and secondary peaks 2 and 3 |
| ScanningCavity.Cavity.AddSecondaryPeak | pyrpl/software_modules/scanningCavity.py:654-658 | a used peak is refused and nothing changes; otherwise it is appended to used and secondary peaks |
| ScanningCavity.Cavity.AddPitaya | pyrpl/software_modules/scanningCavity.py:643-649 | a used Red Pitaya is refused; otherwise it is recorded and its four secondary peaks are appended |
| ScanningCavity.Cavity.RemoveSecondaryPeak | pyrpl/software_modules/scanningCavity.py:659-661 | a peak not in use fails with nothing removed; otherwise it leaves the used list, and then the secondary list or fails there |
| ScanningCavity.AppendKeepsNoDup | pyrpl/software_modules/scanningCavity.py:655-658 | appending an absent element keeps a list duplicate-free |
| GraphCalculator.ExtendToMaximal | pyrpl/graphCalculator.py:5-8 | every non-empty clique of a node set lies in a maximal clique of it |
| GraphCalculator.InInitialClique | pyrpl/graphCalculator.py:29-30 | a maximal clique of the remaining nodes lies in some initial maximal clique |
| GraphCalculator.Largest | pyrpl/graphCalculator.py:28 | max by length: an element of maximal size |
| GraphCalculator.FirstSuperset | pyrpl/graphCalculator.py:30 | a listed superset of the clique, or none iff no listed set contains it |
| GraphCalculator.ChoiceStep | pyrpl/graphCalculator.py:22-30 | while nodes remain, find_cliques is non-empty, the largest clique is non-empty and inside them, and an initial clique contains it |
| GraphCalculator.CoverStep | pyrpl/graphCalculator.py:31-34 | after one round every removed node is covered and the remaining set shrinks |
| GraphCalculator.GreedyRound | pyrpl/graphCalculator.py:21-34 | one round keeps every recorded set among the initial maximal cliques, every removed node covered and no more sets plus remaining nodes than nodes, and removes at least one node |
| GraphCalculator.GreedyCliquePartition | pyrpl/graphCalculator.py:4-36 | every node is covered; every returned set is a maximal clique of the whole graph; at most one set per node; the empty graph gives none |
| GraphCalculator.InitialCliquesMaximal | pyrpl/graphCalculator.py:24-30 | sets drawn from the initial maximal cliques are maximal cliques of the graph |

Definitions that only compute a value are listed through the lemmas that
state their properties:
- `Ramp.Residual` and `Ramp.ActualTiming` (ramp.py:143) are covered by `Ramp.ResidualBounds` and `Ramp.CarryOverBounds`.
- `Ramp.Encodable` and `Ramp.SegmentEncodable` are covered by `Ramp.EncodeSucceeds`.
- `ScanningCavity.SetEdge` (scanningCavity.py:253-260) is covered by `ScanningCavity.SetEdgeKeepsOrder`.
- `ScanningCavity.TimeFromSetpoint` (scanningCavity.py:95-101) is covered by `ScanningCavity.SetpointRoundTrip`.
- `ScanningCavity.AreIntersecting` (scanningCavity.py:487-490) is covered by `ScanningCavity.AreIntersectingIsOverlap`.

## Left out

- Fixed-point quantisation of register writes is not modelled. This covers `FloatRegister`, `GainRegister` and `IntRegister` norms, bit widths and saturation. Registers hold the real or integer value written.
- numpy division by zero is not modelled. A linearizer piece of zero width gets slope 0 (`Linearizer.Slope`) where numpy gives inf or nan.
- Ams.RampSlot: a flat AMS slot with 0 steps is reported as `ZeroSteps`. numpy would instead write nan or inf (the count is a numpy float). A sloped slot with 0 steps raises ZeroDivisionError, as modelled.
- Numeric.Round rounds ties upward, while numpy rounds them to even. `findBestRamp`'s choice can differ only on exact ties.
- RampSearch.FindBestRamp: among equal total errors the model returns the smallest count. numpy's argsort is not stable, so it may pick another.
- GraphCalculator.FirstSuperset: the model takes the first initial clique containing the chosen clique. The source takes Python's `max` over such cliques, which find_cliques returns as lists, so it picks the lexicographically largest list. Both are maximal cliques containing the chosen clique, and every ensures of GreedyCliquePartition holds for either choice.
- GraphCalculator.GreedyCliquePartition: the order in which find_cliques lists cliques is not modelled. Any order meeting its contract is allowed.
- Ams.AmsNouveau.SetLLinearizer: `_filterMaxCoefficients` is a constructor parameter. Above 8, the source writes attributes that are not registers, while the model writes register keys for every slot.
- Layout.AmsLayoutDisjoint: the width of the digital-pin register is defined outside these files. It is a parameter, assumed to end below bit 16.
- Hardware side effects are not modelled: arming the scope, setting `hk.input1`, and the expansion-pin writes of `activatePeakProperty`. Neither are the Qt widgets, signal launchers or asynchronous acquisition.
- The cavity constructor loops over the remaining Red Pitayas. That loop is not modelled: it calls `Cavity.AddPitaya` once per Red Pitaya.
- The min/max validation of the base `FloatProperty` is not modelled. Nor is the write of a validated edge to the asg, which `ScanningCavity.SetEdge` gives as a value.
- ScanningCavity.Autoscale: the new ranges are returned as values. Applying them with `setLeftAndRight` is `Peak.SetLeftAndRight`. The `autoscale_peaks` switch is left to the caller. A negative duration puts the ranges in [T, 0]; the model computes that case the same way but states no bounds for it. A zero duration, which the scope's durations never give, is None, while numpy would divide the ranges by zero. A peak edge whose fraction is nan (0 / 0: an edge exactly at T when the lower edge meets the upper one, exactly at 0 in the other case) makes the whole result None, where numpy would write nan for that edge and go on.
- Linearizer.DecodeEncode is stated for the points that read back. The last input is always read back as 1 (`Linearizer.DecodeEndsAtOne`), and a last start of -1 is taken for padding (`Linearizer.SentinelInputIsPadding`).
- Linearizer.Encode: x and y of different lengths become the ShapeMismatch error. numpy has no such check: it broadcasts `(d - c) / (b - a)` when one side has a single entry, raises otherwise, and may then write register arrays of different lengths. The model does not follow that broadcasting.
- Ramp.EncodePrefixCarry, Ramp.FillSlot: when every x is a Python int, numpy gives `times` an integer dtype (ramp.py:119). `times[-1] += rampTime - actualTiming` (ramp.py:145) then truncates the sum toward zero, so the carried residual is lost. The model always carries the exact real residual, as a float `times` does.
- Ramp: numpy arrays are modelled as sequences, and the `times` buffer updated in place as a value carried through the loop.

## Findings

| source | as written | input that shows it | evidently intended | confidence | as-written member | corrected member |
|---|---|---|---|---|---|---|
| pyrpl/hardware_modules/ramp.py:51-67 | `get_value` cuts times and values after `nOfSteps.index(0) + 1` entries. The last value is then the unused slot's start point 0. With every slot used, the cut drops the final breakpoint. | a flat hold x = [0, 1], y = [0.5, 0.5] reads back y = [0.5, 0.0] | the last value is where the last used slot ends (start + increase * steps), and a full table returns nOfSegments + 1 points | not executed | Ramp.DecodeAsWritten, Ramp.DecodeAsWrittenLosesEnd, Ramp.FlatHoldReadBack | Ramp.Decode, Ramp.DecodeEncode |
| pyrpl/hardware_modules/ams.py:42-57 | `ramp_ADC_triggerValue` is declared in word 0x20, bits 4..17. That range overlaps `TriggerPin` (bit 4 on) and `staticValue` (bits 16..23). | writing a trigger value of 1.0 changes bits 16 and 17 of the static PWM value | the trigger value belongs to the ramp control word 0x60, whose bits 4..17 lie free between the idle configuration and the trigger edge | not executed | Layout.AmsFieldAsWritten, Layout.TriggerValueOverlapsAsWritten | Layout.AmsField, Layout.AmsLayoutDisjoint |

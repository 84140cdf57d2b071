# PC814 zero-crossing detector: a Dafny model

The PC814 library uses an optocoupler and a timer input-capture channel to
detect the zero crossings of an AC line. This project models its two
computational layers.

- **Single-channel capture processor (PC814.c).** A `pc814_handle_t`, modelled
  as the class `Capture.Handle`, is updated once per captured edge. The update
  proceeds as follows:
  - form the tick delta from the previous capture;
  - convert it to a period in microseconds and a frequency in hertz;
  - classify the sample against the expected frequency and the tolerance;
  - overwrite the `data` snapshot and update the cumulative statistics;
  - run the callback.

  The pure arithmetic (uint32_t wrap-around, the tick-delta rule, the two
  truncating divisions and the tolerance test) lives in `CaptureMath`. The two
  phase utilities with their `while` normalisation loops live in `PhaseUtils`.
- **Three-phase layer (PC814_ThreePhase.c).** A `pc814_threephase_t`, modelled
  as the class `ThreePhase.ThreePhaseSystem`, turns three channel snapshots
  into a phase relationship: crossing times, pairwise angles and frequencies.
  It then classifies that relationship as sequence ABC or ACB. Pure functions
  over the relationship give the swap advice, the correction message, the
  synchronisation test and the imbalance.

## How the model is shaped

- **Integers.** `uint32_t` is the subset type `u32` (0 ≤ x < 2^32). Every `++`
  and `+=` on a counter is written out with its wrap-around (`Inc`, `Add32`).
- **The 32-bit product is kept.** `ticks * 1000000UL` is a 32-bit product on the
  32-bit target, and the model keeps that wrap (`PeriodUs`). With a 1 MHz
  timer only deltas of up to 4294 ticks convert exactly; the 10000 ticks of a
  50 Hz half-cycle read as 1410 µs (`CaptureMath.PeriodWrapExample`).
- **Port function pointers become arguments.**
  - The capture value, the timer frequency and the clock are `Option<u32>`
    arguments, where `None` stands for a NULL function pointer.
  - The user callback is the flag `callbackSet`. Whether it ran is the `fired`
    result of `ProcessCapture`.
- **Three-phase inputs.** The three channel handles of the three-phase layer are
  replaced by the three `pc814_read_data` results handed to `Process`. `None`
  means the read failed.
- **Floats become reals.** `float` angles, tolerances and frequency extremes are
  `real`, so results are exact, not rounded.
- **Ghost history.** Each handle keeps a ghost history: the valid periods, their
  frequencies and the number of invalid edges since `pc814_init` or
  `pc814_reset_statistics`. The class invariant `Valid()` ties the uint32_t
  counters, the accumulator, the average and the minimum/maximum to that
  history.
- **Getters.** The read-only getters of both classes are plain functions:
  - `Handle.ReadData`, `GetStatistics`, `IsDataValid`, `GetPeriodUs`,
    `GetFrequency`, `GetCount`, `GetTimeSinceZc`, `IsNewZc`, `GetHalfPeriodUs`
    and `GetQuarterPeriodUs`;
  - `ThreePhaseSystem.GetDetectedSequence`, `IsSequenceCorrect`,
    `GetPhaseAngle`, `GetPhaseFrequency`, `GetSwapRecommendation`,
    `GetCorrectionMessage`, `IsSynchronized` and `GetImbalance`.

  What they promise is stated by the lemmas listed below, or by the pure
  functions they delegate to.

### Where the code and its description differ (the model follows the code)

- **Tick delta.** The code comment at PC814.c:105 says the branch handles
  timer overflow, but the overflow branch (PC814.c:106) is one tick short:
  0xFFFFFFF0 → 0x10 gives 31 rather than 32, and an unchanged capture gives
  0xFFFFFFFF.
- **Reset.** PC814.h:183 documents `pc814_reset` as resetting the handle and
  the statistics, but PC814.c:256-270 leaves the statistics alone; only
  `pc814_reset_statistics` clears them (`Handle.Reset`, `Handle.ResetStatistics`).
- **New crossing.** PC814.h:250 promises true when a new zero-crossing
  occurred. The plain count comparison at PC814.c:422 misses the edge that
  wraps the count from 0xFFFFFFFF to 0, and after a reset the count restarts
  at 0, so a caller holding count N misses the next N edges
  (`Handle.NewZcIsCountIncrease`, `Handle.ProcessCapture`, `Handle.Reset`).
- **Average period.** The `uint32_t` accumulator (PC814.c:149) wraps after
  2^32 µs of valid periods, about 71.6 minutes at 50 Hz; from then on the
  stored average is no longer the mean and can fall below the minimum (see
  Findings).
- **Imbalance.** PC814_ThreePhase.h:177 documents a percentage of 0 to 100,
  but the mean deviation from 120° over angles in [0, 360) gives values in
  [0, 200): three angles of 0° give 100 and three of 300° give 150
  (`MeasureExamples`).
- **Message buffer.** PC814_ThreePhase.h:152 asks for at least 128 bytes,
  while PC814_ThreePhase.c checks for 64 and every message fits in 64.
- **Classifier.** ABC is described as 120° between neighbours and ACB as
  240°. `is_angle_120` accepts angles near 240° as well, so a fully reversed
  rotation (240, 240, 240) and the pattern (240, 240, 120) are both classified
  ABC.
- **First pass.** `pc814_threephase_process` detects the sequence before it
  sets `relationship.valid`. The first successful pass after init or reset
  therefore stores sequence ERROR.

## Model

| member | source | states |
|---|---|---|
| CaptureMath.TickDelta | PC814.c:100-107 | above the previous capture the delta is the plain difference; otherwise last + delta + 1 ≡ current (mod 2^32), one tick short of modular subtraction |
| CaptureMath.TickDeltaModular | PC814.c:102-107 | the delta is (current − last) mod 2^32 off the overflow branch and (current − last − 1) mod 2^32 on it |
| CaptureMath.TickDeltaWrapExamples | PC814.c:102-107 | 0xFFFFFFF0 → 0x10 measures 31 ticks where 32 elapsed; equal captures measure 0xFFFFFFFF |
| CaptureMath.PeriodUsQuotient | PC814.c:110 | the period is the truncated quotient of the 32-bit-wrapped tick product by the timer frequency, and the exact quotient whenever the product fits in 32 bits |
| CaptureMath.PeriodWrapExample | PC814.c:110 | at 1 MHz, 4294 ticks convert to 4294 µs, but 10000 and 20000 ticks convert to 1410 and 2820 µs |
| CaptureMath.FrequencyHzQuotient | PC814.c:113 | the frequency is the largest f with f · period ≤ 1000000 |
| CaptureMath.ZeroPeriodFromWrap | PC814.c:110-113 | the non-zero delta 4295 at 1 MHz converts to period 0, which the frequency division then divides by |
| CaptureMath.PeriodUs | PC814.c:110 | stated by PeriodUsQuotient and PeriodWrapExample |
| CaptureMath.FrequencyHz | PC814.c:113 | stated by FrequencyHzQuotient |
| CaptureMath.ValidateFrequencyPercent | PC814.c:25-35 | a frequency is valid iff it and the expected value are non-zero and \|freq − expected\| · 100 ≤ tolerance · expected |
| CaptureMath.ValidateFrequencyExamples | PC814.c:25-35 | with 50 Hz expected and 5 % tolerance, 52 Hz is valid, 54 Hz is not, and a zero frequency or zero expectation is never valid |
| CaptureMath.ValidateFrequency | PC814.c:25-35 | stated by ValidateFrequencyPercent and ValidateFrequencyExamples |
| CaptureMath.Count32IsMod | PC814.c:128-129 | a uint32_t counter incremented n times from 0 holds n mod 2^32 |
| CaptureMath.Count32Add | PC814.c:126-158 | counts of two disjoint kinds of edges add up, with uint32_t wrap, to the count of both |
| CaptureMath.Sum32IsMod | PC814.c:149 | the uint32_t period accumulator holds the true sum of the added periods mod 2^32 |
| CaptureMath.QuotientIsDiv | PC814.c:152 | the average-period quotient is truncating integer division |
| PhaseUtils.Wrap360 | PC814.c:324-329 | the normalised angle lies in [0, 360) |
| PhaseUtils.PhaseAngle | PC814.c:307-332 | the phase angle of a time offset lies in [0, 360) |
| PhaseUtils.CalcPhaseAngle | PC814.c:307-332 | the two normalisation loops compute exactly the angle reduced by whole turns into [0, 360); a zero line frequency or period gives 0 |
| PhaseUtils.TimeForPhase | PC814.c:335-356 | the time offset of an angle is below the period, and 0 for a zero line frequency |
| PhaseUtils.CalcTimeForPhase | PC814.c:335-356 | the loops normalise the angle into [0, 360) by whole turns before it is scaled to the period and truncated |
| PhaseUtils.PhaseRoundTrip | PC814.c:307-356 | angle → time offset → angle never overshoots and loses less than one microsecond's worth of angle (360 / period) |
| Capture.ValidEdgeConsistent | PC814.c:126-154 | a valid edge keeps counters, accumulator, average and min/max of periods and frequencies consistent with the history extended by that edge |
| Capture.InvalidEdgeConsistent | PC814.c:155-158 | an invalid edge counts one more invalid and total edge and leaves min, max, average and accumulator alone |
| Capture.ZeroConsistent | PC814.c:54-56 | zeroed statistics, accumulator and count describe an empty history |
| Capture.TotalIsValidPlusInvalid | PC814.c:126-158 | total = valid + invalid (with uint32_t wrap), and the valid count equals the average's divisor period_count |
| Capture.RunningAverage | PC814.c:149-152 | until the accumulator wraps (2^32 µs of valid periods, about 71.6 minutes at 50 Hz), the average is the truncated mean of the valid periods and lies between the minimum and maximum |
| Capture.TrueMeanPeriod | PC814.c:149-152 | stated by MeanWithinRange and AverageFallsBelowMin |
| Capture.MeanWithinRange | PC814.c:149-152 | the mean of the unwrapped sum always lies between the minimum and the maximum period, however long the history |
| Capture.AverageFallsBelowMin | PC814.c:149-152 | with 214749 valid periods of 20000 µs the wrapped accumulator gives a stored average of 0, below the minimum 20000, while the true mean is 20000 |
| Capture.OnValidEdge | PC814.c:127-154 | the statistics after a valid edge; stated by ValidEdgeConsistent and RecordValid |
| Capture.OnInvalidEdge | PC814.c:155-158 | the statistics after an invalid edge; stated by InvalidEdgeConsistent |
| Capture.Handle.constructor | PC814.h:88-102 | a zero-filled handle is uninitialised and satisfies the invariant |
| Capture.Handle.Init | PC814.c:38-71 | every field is cleared, the defaults (50 Hz, 5 %) and the pull and edge choices are installed, no callback, handle initialised; the history is empty |
| Capture.Handle.ProcessCapture | PC814.c:74-170 | uninitialised → NOT_INITIALIZED, a missing or zero capture or timer frequency → ERROR, both changing nothing; the first edge only remembers capture and time; later edges measure the delta (refusing a zero period); accepted calls remember the capture; against the count read before the call, is_new_zc reports a measured edge unless it wrapped the count, and reports nothing after any other call; the invariant is kept |
| Capture.Handle.MeasureEdge | PC814.c:110-163 | the snapshot gets period, frequency, time, count + 1 and the validity verdict; a valid edge extends the history and its statistics, an invalid one only its counters; the callback fires iff set and valid |
| Capture.Handle.RecordValid | PC814.c:127-154 | the valid-edge statistics update: accumulator and count advance with wrap, statistics follow, the period and frequency join the history |
| Capture.Handle.Reset | PC814.c:256-270 | forgets the previous capture and zeroes count and valid; statistics, configuration and the rest of the snapshot stay; afterwards no crossing is new, whatever count the caller holds |
| Capture.Handle.ResetStatistics | PC814.c:370-379 | statistics, accumulator and count are zero and the history restarts empty |
| Capture.Handle.SetExpectedFrequency | PC814.c:231-236 | 50 and 60 Hz are installed; any other value leaves the expected frequency unchanged |
| Capture.Handle.SetFrequencyTolerance | PC814.c:239-244 | a tolerance in (0, 50] is installed; any other leaves it unchanged |
| Capture.Handle.SetCallback | PC814.c:273-278 | the callback flag becomes the argument |
| Capture.Handle.ReadDataAfterInit | PC814.c:173-181 | reading the snapshot fails with ERROR exactly before init and otherwise returns it as stored |
| Capture.Handle.StatisticsAfterInit | PC814.c:359-367 | reading the statistics fails with ERROR exactly before init and otherwise returns them as stored |
| Capture.Handle.ValidSampleGetters | PC814.c:184-199 | period and frequency getters are non-zero exactly when the sample is valid, and the frequency is the one derived from the period |
| Capture.Handle.FractionGetters | PC814.c:426-443 | half and quarter periods are the truncated halves and quarters of the reported period, and 0 when it is |
| Capture.Handle.TimeSinceZcBounds | PC814.c:211-228 | 0 without a clock or before init or when the clock reads below the timestamp; otherwise timestamp + elapsed = now |
| Capture.Handle.NewZcIsCountIncrease | PC814.c:416-423 | before init nothing is new; against the count remembered before an edge, an edge that advanced the count is reported unless it wrapped the count from 0xFFFFFFFF to 0; an unchanged count reports nothing; after a reset (count 0) nothing is new whatever count the caller holds |
| Capture.Handle.StatisticsInvariant | PC814.c:126-158 | on every reachable handle: total = valid + invalid, valid = period_count, min ≤ every valid period ≤ max, and (until the accumulator wraps, about 71.6 minutes at 50 Hz) min ≤ average = mean ≤ max |
| Capture.Handle.ReadData | PC814.c:173-181 | stated by ReadDataAfterInit |
| Capture.Handle.GetStatistics | PC814.c:359-367 | stated by StatisticsAfterInit |
| Capture.Handle.IsDataValid | PC814.c:247-253 | stated by ReadDataAfterInit and ValidSampleGetters |
| Capture.Handle.GetPeriodUs | PC814.c:193-199 | stated by ValidSampleGetters and FractionGetters |
| Capture.Handle.GetFrequency | PC814.c:184-190 | stated by ValidSampleGetters |
| Capture.Handle.GetCount | PC814.c:202-208 | stated by NewZcIsCountIncrease |
| Capture.Handle.GetTimeSinceZc | PC814.c:211-228 | stated by TimeSinceZcBounds |
| Capture.Handle.IsNewZc | PC814.c:416-423 | stated by NewZcIsCountIncrease, ProcessCapture and Reset |
| Capture.Handle.GetHalfPeriodUs | PC814.c:426-433 | stated by FractionGetters |
| Capture.Handle.GetQuarterPeriodUs | PC814.c:436-443 | stated by FractionGetters |
| ThreePhase.TimeDiff | PC814_ThreePhase.c:33-39 | both branches compute (t2 − t1) mod 2^32 |
| ThreePhase.PhaseAngleAsWritten | PC814_ThreePhase.c:25-56 | the angle lies in [0, 360), is 0 for a zero period, and is the modular time difference reduced modulo the period, as a fraction of 360° |
| ThreePhase.PhaseAngleAsWrittenNotAntisymmetric | PC814_ThreePhase.c:34-45 | crossings at 1000 and 14333 µs with a 20000 µs period read 240° forward but about 251° backward, not 120° |
| ThreePhase.SignedDiff | PC814_ThreePhase.c:33-39 | the time difference as a signed 32-bit offset, congruent to t2 − t1 mod 2^32 |
| ThreePhase.PhaseAngleBetween | PC814_ThreePhase.c:25-56 | the corrected angle lies in [0, 360), is 0 for a zero period, and is the signed offset reduced modulo the period as a fraction of 360° |
| ThreePhase.PhaseAngleAntisymmetric | PC814_ThreePhase.c:25-56 | with the corrected angle, the two directed angles between a pair of crossings add up to 360° or are both 0 |
| ThreePhase.PhaseAngleOfOffset | PC814_ThreePhase.c:25-56 | for crossings less than 2^31 µs apart the corrected angle depends only on their true offset modulo the period |
| ThreePhase.IsAngle120 | PC814_ThreePhase.c:59-70 | true iff the angle is within the tolerance of 120° or, on the circle, of 240° |
| ThreePhase.IsAngle240 | PC814_ThreePhase.c:73-84 | true iff within the tolerance of 240° on the circle and not of 120°; it always implies IsAngle120 |
| ThreePhase.DetectSequence | PC814_ThreePhase.c:156-195 | never UNKNOWN; ERROR for an invalid relationship; ABC iff valid and all three angles pass IsAngle120; ACB iff valid, not ABC, and either AB or BC is near 240° with CA near 120° or both AB and BC are near 240°; ERROR in every other case |
| ThreePhase.ClassifierExamples | PC814_ThreePhase.c:156-195 | (120,120,120), (240,240,240) and (240,240,120) are ABC; (240,0,120) and (240,240,0) are ACB; (90,90,90) is ERROR |
| ThreePhase.ReversedRotationReadsABC | PC814_ThreePhase.c:59-70 | a valid relationship with all angles 240° is ABC for every non-negative tolerance |
| ThreePhase.MeanPeriod | PC814_ThreePhase.c:136 | the uint32_t sum of the three periods, wrapped, truncated by 3; the true truncated mean while the sum fits |
| ThreePhase.Relate | PC814_ThreePhase.c:127-145 | the relationship carries the three crossing times and frequencies, is marked valid, and its three angles are the (corrected) angles A→B, B→C, C→A over the mean period, each in [0, 360) |
| ThreePhase.RelateAsWritten | PC814_ThreePhase.c:127-145 | the relationship exactly as the C builds it: the same as Relate except that the three angles come from calculate_phase_angle as written |
| ThreePhase.AsWrittenAgreesForward | PC814_ThreePhase.c:34-35 | for a forward offset below 2^31 the corrected and the as-written angle are equal, so the correction only changes backward offsets |
| ThreePhase.CorrectWiringReadsErrorAsWritten | PC814_ThreePhase.c:139-147 | crossings 1000, 7667, 14333 µs with 20000 µs periods classify ABC with the corrected angles and ERROR as written |
| ThreePhase.PhaseAngleOf | PC814_ThreePhase.c:228-260 | 0 for an invalid relationship or the same phase; A→B, B→C and C→A return the stored angle; every result lies in [0, 360) (the reverse directions are given by PhaseAngleReverse) |
| ThreePhase.PhaseAngleReverse | PC814_ThreePhase.c:247-256 | reading a pair of phases in both directions gives angles that add to 360° or are both 0 |
| ThreePhase.PhaseFrequencyOf | PC814_ThreePhase.c:263-280 | 0 for an invalid relationship; otherwise the stored frequency of the phase asked for |
| ThreePhase.SwapRecommendation | PC814_ThreePhase.c:283-330 | ERROR with no flags iff the relationship is invalid; ACB sets only B–C; ABC sets none; for ERROR the first match of AB+CA near 120 (swap B–C), BC+CA (swap A–B), AB+BC (swap C–A) decides, else no flag; so at most one flag is ever set |
| ThreePhase.CorrectionMessage | PC814_ThreePhase.c:333-368 | a buffer below 64 bytes gives ERROR; an invalid relationship gives ERROR with "cannot determine"; ABC and ACB get their fixed messages; any other sequence gets the message of the single recommended flag, or "check all connections" when none is set; the all-phases message is never chosen; every message fits the buffer |
| ThreePhase.FirstPassAdvice | PC814_ThreePhase.c:307-327 | a correctly wired system whose stored sequence is still ERROR is advised to swap B and C; angles near neither 120° nor 240° give "check all connections" |
| ThreePhase.Synchronized | PC814_ThreePhase.c:379-398 | true iff the relationship is valid and every pair of the three frequencies is at most 1 Hz apart |
| ThreePhase.Imbalance | PC814_ThreePhase.c:401-423 | −1 when invalid; otherwise in [0, 200), and 0 iff all angles are exactly 120° |
| ThreePhase.MeasureExamples | PC814_ThreePhase.c:379-423 | 50/50/51 Hz are synchronised, 50/50/52 Hz and an invalid relationship are not; angles (130,120,110) give 50/9 %, three 0° angles give 100 and three 300° angles give 150, beyond the documented 0-100 |
| ThreePhase.ThreePhaseSystem.SequenceCorrectNeedsMeasurement | PC814_ThreePhase.c:207-213 | after init the sequence reads correct only with a measured (valid) relationship; without one detection answers ERROR |
| ThreePhase.ThreePhaseSystem.constructor | PC814_ThreePhase.h:55-64 | a zero-filled structure is uninitialised and its sequence reads ABC |
| ThreePhase.ThreePhaseSystem.Init | PC814_ThreePhase.c:87-105 | sequence UNKNOWN, zero relationship, default 10° tolerance, initialised; the invariant holds |
| ThreePhase.ThreePhaseSystem.Process | PC814_ThreePhase.c:108-153 | OK iff initialised and all three snapshots were read and valid, else ERROR with nothing changed; on OK the relationship is rebuilt exactly as the C builds it (RelateAsWritten, with calculate_phase_angle as written) and marked valid, the sequence is classified with the old validity flag (so the first pass stores ERROR, later passes store what GetDetectedSequence answers), and the update time is A's crossing; valid ⇔ sequence ≠ UNKNOWN is kept |
| ThreePhase.ThreePhaseSystem.Reset | PC814_ThreePhase.c:426-435 | sequence UNKNOWN and zero relationship; the tolerance stays |
| ThreePhase.ThreePhaseSystem.SetTolerance | PC814_ThreePhase.c:371-376 | a tolerance in (0, 30] is installed; any other leaves it unchanged |
| ThreePhase.ThreePhaseSystem.GetDetectedSequence | PC814_ThreePhase.c:156-195 | detection on the current state; stated by DetectSequence and by Process |
| ThreePhase.ThreePhaseSystem.IsSequenceCorrect | PC814_ThreePhase.c:207-213 | the stored sequence is ABC; stated by SequenceCorrectNeedsMeasurement |
| ThreePhase.ThreePhaseSystem.GetPhaseAngle | PC814_ThreePhase.c:228-260 | stated by PhaseAngleOf and PhaseAngleReverse on the stored relationship |
| ThreePhase.ThreePhaseSystem.GetPhaseFrequency | PC814_ThreePhase.c:263-280 | stated by PhaseFrequencyOf on the stored relationship |
| ThreePhase.ThreePhaseSystem.GetSwapRecommendation | PC814_ThreePhase.c:283-330 | stated by SwapRecommendation on the stored relationship, sequence and tolerance |
| ThreePhase.ThreePhaseSystem.GetCorrectionMessage | PC814_ThreePhase.c:333-368 | stated by CorrectionMessage on the stored state |
| ThreePhase.ThreePhaseSystem.IsSynchronized | PC814_ThreePhase.c:379-398 | stated by Synchronized on the stored relationship |
| ThreePhase.ThreePhaseSystem.GetImbalance | PC814_ThreePhase.c:401-423 | stated by Imbalance on the stored relationship |

## Left out

- NULL handle, port, buffer and output pointers are not modelled; every call gets a real object.
- Port calls are not modelled:
  - the GPIO pull-up and pull-down calls of `pc814_init`;
  - `timer_reset_capture` in `pc814_reset`;
  - `pc814_start` and `pc814_stop` (PC814.c:281-304).

  They are foreign hardware calls with no effect on the modelled state.
- `pc814_wait_for_zc` (PC814.c:382-413) is not modelled. It busy-waits for an interrupt to change the count or for an external clock to pass a deadline.
- Concurrency is not modelled. This covers torn reads between the capture interrupt and the polling reader. The callback body is not modelled either; only whether it ran.
- `avg_frequency_hz` (PC814.c:153) is not modelled. It is float division with no bearing on the integer state.
- Float rounding is not modelled. This covers the float percentage in `validate_frequency`, the `(float)` frequency extremes, `fmodf`, and the `(uint32_t)` cast of a float product. Angles, tolerances and frequency extremes are exact reals. The float `while` loops of the phase utilities, which may stop making progress on huge floats, terminate over the reals.
- `pc814_threephase_get_sequence` and `pc814_threephase_get_relationship` are not modelled separately. They are plain field reads of `sequence` and `relationship`.
- `strncpy` and NUL termination are not modelled. `CorrectionMessage` returns the chosen string and proves it fits the buffer.
- Capture.Handle.ProcessCapture: when a non-zero tick delta converts to a zero period, the C code divides by zero (see Findings). The model refuses that edge with ERROR and leaves the handle unchanged.
- ThreePhase.Relate: builds the three angles with the corrected `PhaseAngleBetween` (signed offset) where PC814_ThreePhase.c:139-144 calls `calculate_phase_angle`; `Relate` is the corrected half of the PC814_ThreePhase.c:34-45 Findings row, while `RelateAsWritten`, which `ThreePhaseSystem.Process` stores, is the relationship as written.
- Capture.RunningAverage: states the average only while the sum of the valid periods stays below 2^32 µs (about 71.6 minutes of valid edges, whatever the line frequency); beyond that the stored average is the wrapped sum over the count, which AverageFallsBelowMin shows leaving the range.
- Capture.Handle.StatisticsInvariant: the same restriction for the average; the counter and range clauses hold without it.
- CaptureMath.PeriodUs, CaptureMath.FrequencyHz and CaptureMath.ValidateFrequency carry no `ensures` of their own; the lemmas named in their rows state them.
- The getters of both classes carry no `ensures` of their own; the lemmas and pure functions named in their rows state them.

## Findings

| source | as written | input that shows it | evidently intended | confidence | as-written member | corrected member |
|---|---|---|---|---|---|---|
| PC814.c:110-113 | `freq_hz = 1000000UL / period_us` with no guard, after a 32-bit product that can wrap to below one timer-microsecond | previous capture 1, current capture 4296, timer 1 MHz: delta 4295, wrapped product 32704, period 0, division by zero | an edge whose period converts to 0 is rejected instead of divided by | not executed | CaptureMath.ZeroPeriodFromWrap | Capture.Handle.ProcessCapture |
| PC814.c:149-152 | `period_sum += period_us` in a `uint32_t`, then `avg_period_us = period_sum / period_count` | 214749 valid periods of 20000 µs (about 71.6 minutes at 50 Hz): the sum 4294980000 wraps to 12704 and the stored average is 0, below the minimum 20000 | the average is the mean of the valid periods and lies between their minimum and maximum | not executed | Capture.AverageFallsBelowMin | Capture.MeanWithinRange |
| PC814_ThreePhase.c:34-45 | a numerically earlier second crossing is treated as a clock wrap, and the 2^32-based difference is then reduced modulo the period, although 2^32 is not a multiple of the period | crossings at 14333 and 1000 µs, period 20000 µs: 13963 µs (about 251°) instead of 6667 µs (120°); the C→A angle takes this branch whenever C crossed after A; crossings 1000, 7667, 14333 µs of a correctly wired 50 Hz system then classify ERROR (CorrectWiringReadsErrorAsWritten) | the difference is a signed offset, so the angle from C back to A is the complement of the angle from A to C | not executed | ThreePhase.PhaseAngleAsWrittenNotAntisymmetric | ThreePhase.PhaseAngleAntisymmetric |

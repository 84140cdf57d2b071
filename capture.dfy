/**
 * The single-channel capture processor of PC814.c: one handle per
 * optocoupler channel, updated once per captured edge. The port's function
 * pointers become arguments: `Option` values whose `None` stands for a NULL
 * pointer. The user callback becomes the `callbackSet` flag and the `fired`
 * result of ProcessCapture.
 */
module Capture {
  import opened Wrappers
  import opened CaptureMath

  /** pc814_status_t */
  datatype Status = Ok | Error | NotInitialized | InvalidParam

  /** pc814_pull_t */
  datatype Pull = PullUp | PullDown

  /** pc814_edge_t */
  datatype Edge = EdgeRising | EdgeFalling

  /** pc814_data_t: the snapshot of the latest edge. */
  datatype Data = Data(periodUs: u32, frequencyHz: u32, timestampUs: u32, count: u32, valid: bool)

  /** pc814_statistics_t, without the floating-point average frequency. */
  datatype Statistics = Statistics(
    totalZcCount: u32,
    validZcCount: u32,
    invalidZcCount: u32,
    minPeriodUs: u32,
    maxPeriodUs: u32,
    avgPeriodUs: u32,
    minFrequencyHz: real,
    maxFrequencyHz: real)

  const ZeroData := Data(0, 0, 0, 0, false)
  const ZeroStatistics := Statistics(0, 0, 0, 0, 0, 0, 0.0, 0.0)

  /** PC814_DEFAULT_FREQ and PC814_DEFAULT_TOLERANCE */
  const DefaultFrequency: u32 := 50
  const DefaultTolerance: real := 5.0

  /** The capture and timer-frequency port functions exist and returned non-zero values. */
  predicate Accepted(capture: Option<u32>, timerFreq: Option<u32>) {
    capture.Some? && timerFreq.Some? && capture.value != 0 && timerFreq.value != 0
  }

  /** get_time_us, or 0 when the port has none (PC814.c:93-96). */
  function TimeOf(now: Option<u32>): u32 {
    if now.Some? then now.value else 0
  }

  /** `avg` is the truncated quotient `sum / count` whenever the count is non-zero. */
  ghost predicate AverageOf(avg: u32, sum: u32, count: u32) {
    count != 0 ==> avg == Quotient(sum, count)
  }

  /** The snapshot's frequency is always derived from its period, and a valid snapshot has one. */
  ghost predicate SnapshotConsistent(d: Data) {
    && (d.periodUs == 0 ==> d.frequencyHz == 0)
    && (d.periodUs != 0 ==> d.frequencyHz == FrequencyHz(d.periodUs))
    && (d.valid ==> d.frequencyHz != 0)
  }

  /**
   * The uint32_t counters and the period accumulator agree, modulo 2^32, with
   * `periods` (the valid periods) and `invalid` (the number of invalid edges).
   */
  ghost predicate CountersConsistent(st: Statistics, sum: u32, count: u32, periods: seq<u32>, invalid: nat) {
    && count == Count32(|periods|)
    && st.validZcCount == count
    && st.invalidZcCount == Count32(invalid)
    && st.totalZcCount == Count32(|periods| + invalid)
    && sum == Sum32(periods)
    && AverageOf(st.avgPeriodUs, sum, count)
    && (periods == [] ==> st.avgPeriodUs == 0)
  }

  /** The minimum and maximum period bracket every valid period; a zero minimum means "none yet". */
  ghost predicate PeriodRange(st: Statistics, periods: seq<u32>) {
    && (st.minPeriodUs == 0 <==> periods == [])
    && (periods == [] ==> st.maxPeriodUs == 0)
    && forall i :: 0 <= i < |periods| ==> 0 < periods[i] && st.minPeriodUs <= periods[i] <= st.maxPeriodUs
  }

  /** The same for the frequencies, kept as float (here real) in the statistics. */
  ghost predicate FrequencyRange(st: Statistics, freqs: seq<u32>) {
    && (st.minFrequencyHz == 0.0 <==> freqs == [])
    && (freqs == [] ==> st.maxFrequencyHz == 0.0)
    && forall i :: 0 <= i < |freqs| ==>
         0 < freqs[i] && st.minFrequencyHz <= freqs[i] as real <= st.maxFrequencyHz
  }

  /**
   * The statistics after a valid edge of period `p` and frequency `f`, given
   * the accumulator and count already advanced to `sum` and `count`
   * (PC814.c:127-154).
   */
  function OnValidEdge(st: Statistics, sum: u32, count: u32, p: u32, f: u32): Statistics {
    st.(totalZcCount := Inc(st.totalZcCount),
        validZcCount := Inc(st.validZcCount),
        minPeriodUs := if st.minPeriodUs == 0 || p < st.minPeriodUs then p else st.minPeriodUs,
        maxPeriodUs := if p > st.maxPeriodUs then p else st.maxPeriodUs,
        minFrequencyHz := if st.minFrequencyHz == 0.0 || (f as real) < st.minFrequencyHz
                          then f as real else st.minFrequencyHz,
        maxFrequencyHz := if f as real > st.maxFrequencyHz then f as real else st.maxFrequencyHz,
        avgPeriodUs := if count > 0 then sum / count else st.avgPeriodUs)
  }

  /** The statistics after an invalid edge (PC814.c:128, 156-157). */
  function OnInvalidEdge(st: Statistics): Statistics {
    st.(totalZcCount := Inc(st.totalZcCount), invalidZcCount := Inc(st.invalidZcCount))
  }

  /** A valid edge keeps counters, accumulator, average and both ranges consistent with the history. */
  lemma ValidEdgeConsistent(st: Statistics, sum: u32, count: u32, periods: seq<u32>, freqs: seq<u32>,
                            invalid: nat, p: u32, f: u32)
    requires CountersConsistent(st, sum, count, periods, invalid)
    requires PeriodRange(st, periods) && FrequencyRange(st, freqs)
    requires p != 0 && f != 0
    ensures var st' := OnValidEdge(st, Add32(sum, p), Inc(count), p, f);
            && CountersConsistent(st', Add32(sum, p), Inc(count), periods + [p], invalid)
            && PeriodRange(st', periods + [p])
            && FrequencyRange(st', freqs + [f])
  {
    assert (periods + [p])[..|periods|] == periods;
    assert |periods + [p]| + invalid - 1 == |periods| + invalid;
    if Inc(count) > 0 {
      QuotientIsDiv(Add32(sum, p), Inc(count));
    }
  }

  /** An invalid edge keeps the counters consistent and leaves both ranges alone. */
  lemma InvalidEdgeConsistent(st: Statistics, sum: u32, count: u32, periods: seq<u32>, freqs: seq<u32>, invalid: nat)
    requires CountersConsistent(st, sum, count, periods, invalid)
    requires PeriodRange(st, periods) && FrequencyRange(st, freqs)
    ensures CountersConsistent(OnInvalidEdge(st), sum, count, periods, invalid + 1)
    ensures PeriodRange(OnInvalidEdge(st), periods) && FrequencyRange(OnInvalidEdge(st), freqs)
  {
  }

  /** Zeroed statistics are consistent with an empty history. */
  lemma ZeroConsistent()
    ensures SnapshotConsistent(ZeroData)
    ensures CountersConsistent(ZeroStatistics, 0, 0, [], 0)
    ensures PeriodRange(ZeroStatistics, []) && FrequencyRange(ZeroStatistics, [])
  {
  }

  /**
   * Every edge that formed a delta is counted as valid or invalid, so the
   * total is their sum (modulo 2^32), and the valid count is the divisor of
   * the average.
   */
  lemma TotalIsValidPlusInvalid(st: Statistics, sum: u32, count: u32, periods: seq<u32>, invalid: nat)
    requires CountersConsistent(st, sum, count, periods, invalid)
    ensures st.totalZcCount == Add32(st.validZcCount, st.invalidZcCount)
    ensures st.validZcCount == count
  {
    Count32Add(|periods|, invalid);
  }

  /**
   * While the accumulator has not wrapped, the average period is the true
   * mean of the valid periods, truncated, and lies between the minimum and
   * the maximum.
   */
  lemma RunningAverage(st: Statistics, sum: u32, count: u32, periods: seq<u32>, invalid: nat)
    requires CountersConsistent(st, sum, count, periods, invalid) && PeriodRange(st, periods)
    requires periods != [] && Sum(periods) < U32
    ensures st.avgPeriodUs == Sum(periods) / |periods|
    ensures st.minPeriodUs <= st.avgPeriodUs <= st.maxPeriodUs
  {
    var n := |periods|;
    SumBracketed(periods, 1, 0xFFFF_FFFF);
    assert n < U32;
    Count32IsMod(n);
    assert count == n;
    Sum32IsMod(periods);
    assert sum == Sum(periods);
    QuotientIsDiv(sum, count);
    assert st.avgPeriodUs == Sum(periods) / n;
    SumBracketed(periods, st.minPeriodUs, st.maxPeriodUs);
    DivBracketed(Sum(periods), |periods|, st.minPeriodUs, st.maxPeriodUs);
  }

  /**
   * The mean the statistics are meant to report: the unwrapped sum of the
   * valid periods over their number.
   */
  function TrueMeanPeriod(periods: seq<u32>): nat
    requires periods != []
  {
    Sum(periods) / |periods|
  }

  /** The true mean always lies between the minimum and the maximum period, however long the history. */
  lemma MeanWithinRange(st: Statistics, periods: seq<u32>)
    requires PeriodRange(st, periods) && periods != []
    ensures st.minPeriodUs <= TrueMeanPeriod(periods) <= st.maxPeriodUs
  {
    SumBracketed(periods, st.minPeriodUs, st.maxPeriodUs);
    DivBracketed(Sum(periods), |periods|, st.minPeriodUs, st.maxPeriodUs);
  }

  /**
   * Once the uint32_t accumulator wraps, the stored average leaves the range:
   * 214749 valid periods of 20000 us (2^32 us, about 71.6 minutes, at 50 Hz)
   * sum to 4294980000, which wraps to 12704, and 12704 / 214749 is 0.
   */
  lemma AverageFallsBelowMin(st: Statistics, sum: u32, count: u32, periods: seq<u32>, invalid: nat)
    requires CountersConsistent(st, sum, count, periods, invalid) && PeriodRange(st, periods)
    requires |periods| == 214749 && forall i :: 0 <= i < |periods| ==> periods[i] == 20000
    ensures st.avgPeriodUs == 0 < st.minPeriodUs
    ensures TrueMeanPeriod(periods) == 20000
  {
    SumBracketed(periods, 20000, 20000);
    assert Sum(periods) == 4294980000;
    Sum32IsMod(periods);
    assert sum == 12704;
    Count32IsMod(214749);
    assert count == 214749;
    QuotientIsDiv(sum, count);
    assert periods[0] == 20000;
  }

  /** pc814_handle_t */
  class Handle {
    var pullConfig: Pull
    var edgeType: Edge
    var data: Data
    var lastCaptureTime: u32
    var lastCaptureValue: u32
    var initialized: bool
    var expectedFrequency: u32
    var frequencyTolerance: real
    var callbackSet: bool
    var statistics: Statistics
    var periodSum: u32
    var periodCount: u32

    /** Periods and frequencies of the valid edges since pc814_init or pc814_reset_statistics. */
    ghost var validPeriods: seq<u32>
    ghost var validFrequencies: seq<u32>
    /** Number of invalid edges over the same span. */
    ghost var invalidEdges: nat

    ghost predicate Valid()
      reads this
    {
      && ConfigValid()
      && |validFrequencies| == |validPeriods|
      && CountersConsistent(statistics, periodSum, periodCount, validPeriods, invalidEdges)
      && PeriodRange(statistics, validPeriods)
      && FrequencyRange(statistics, validFrequencies)
    }

    /** The configuration and the snapshot are in range, whatever the statistics hold. */
    ghost predicate ConfigValid()
      reads this
    {
      && expectedFrequency in {0, 50, 60}
      && 0.0 <= frequencyTolerance <= 50.0
      && SnapshotConsistent(data)
    }

    /** A zero-filled handle, as a static pc814_handle_t is before pc814_init. */
    constructor ()
      ensures Valid() && !initialized
      ensures data == ZeroData && statistics == ZeroStatistics
      ensures lastCaptureValue == 0 && periodSum == 0 && periodCount == 0
    {
      pullConfig, edgeType := PullUp, EdgeRising;
      data := ZeroData;
      lastCaptureTime, lastCaptureValue := 0, 0;
      initialized := false;
      expectedFrequency, frequencyTolerance := 0, 0.0;
      callbackSet := false;
      statistics := ZeroStatistics;
      periodSum, periodCount := 0, 0;
      validPeriods, validFrequencies, invalidEdges := [], [], 0;
      ZeroConsistent();
    }

    /** pc814_init: clears everything, installs the defaults and marks the handle initialised. */
    method Init(pull: Pull, edge: Edge)
      modifies this
      ensures Valid() && initialized
      ensures pullConfig == pull && edgeType == edge
      ensures data == ZeroData && statistics == ZeroStatistics
      ensures lastCaptureValue == 0 && lastCaptureTime == 0 && periodSum == 0 && periodCount == 0
      ensures expectedFrequency == DefaultFrequency && frequencyTolerance == DefaultTolerance
      ensures !callbackSet
      ensures validPeriods == [] && invalidEdges == 0
    {
      pullConfig, edgeType, data, lastCaptureTime, lastCaptureValue :=
        pull, edge, ZeroData, 0, 0;
      expectedFrequency, frequencyTolerance, callbackSet := DefaultFrequency, DefaultTolerance, false;
      ResetStatistics();
      initialized := true;
    }

    /**
     * pc814_process_capture. `capture`, `timerFreq` and `now` are what the
     * port's timer_get_capture_value, timer_get_frequency and get_time_us
     * return (None: the pointer is NULL). `fired` says whether the callback
     * ran. A delta that converts to a zero period is refused with Error
     * instead of being divided by.
     */
    method ProcessCapture(capture: Option<u32>, timerFreq: Option<u32>, now: Option<u32>)
      returns (s: Status, fired: bool)
      requires Valid()
      modifies this`data, this`statistics, this`periodSum, this`periodCount,
               this`lastCaptureValue, this`lastCaptureTime,
               this`validPeriods, this`validFrequencies, this`invalidEdges
      ensures Valid()
      // rejected calls
      ensures !initialized ==> s == NotInitialized
      ensures initialized && !Accepted(capture, timerFreq) ==> s == Error
      ensures s != Ok ==> !fired && unchanged(this)
      // accepted calls remember this capture
      ensures s == Ok ==> lastCaptureValue == capture.value && lastCaptureTime == TimeOf(now)
      // first edge: nothing to measure yet
      ensures initialized && Accepted(capture, timerFreq) && old(lastCaptureValue) == 0 ==>
                s == Ok && !fired && data == old(data) && statistics == old(statistics)
                && periodSum == old(periodSum) && periodCount == old(periodCount)
                && validPeriods == old(validPeriods) && validFrequencies == old(validFrequencies)
                && invalidEdges == old(invalidEdges)
      // later edges
      ensures initialized && Accepted(capture, timerFreq) && old(lastCaptureValue) != 0 ==>
                var p := PeriodUs(TickDelta(old(lastCaptureValue), capture.value), timerFreq.value);
                (p == 0 ==> s == Error) && (p != 0 ==> s == Ok)
      // is_new_zc against the count read before the call: a measured edge is
      // reported unless it wraps the count; any other call reports nothing
      ensures s == Ok && old(lastCaptureValue) != 0 ==>
                (IsNewZc(old(GetCount())) <==> old(data.count) != 0xFFFF_FFFF)
      ensures s != Ok || old(lastCaptureValue) == 0 ==> !IsNewZc(old(GetCount()))
      ensures s == Ok && old(lastCaptureValue) != 0 ==>
                MeasuredEdge(PeriodUs(TickDelta(old(lastCaptureValue), capture.value), timerFreq.value),
                             TimeOf(now), old(data), old(statistics), old(periodSum), old(periodCount),
                             old(validPeriods), old(validFrequencies), old(invalidEdges), fired)
    {
      if !initialized {
        return NotInitialized, false;
      }
      if capture.None? || timerFreq.None? {
        return Error, false;
      }
      var currentCapture, freq := capture.value, timerFreq.value;
      if currentCapture == 0 || freq == 0 {
        return Error, false;
      }
      var currentTime := TimeOf(now);
      fired := false;
      if lastCaptureValue != 0 {
        var ticks := TickDelta(lastCaptureValue, currentCapture);
        var periodUs := PeriodUs(ticks, freq);
        if periodUs == 0 {
          return Error, false;
        }
        fired := MeasureEdge(periodUs, currentTime);
      }
      lastCaptureValue, lastCaptureTime := currentCapture, currentTime;
      s := Ok;
    }

    /**
     * The new snapshot, statistics and history after an edge of period `p`
     * measured at `time`, from the old ones; `fired` is the callback.
     * Every delta edge overwrites the snapshot and counts one more edge; only
     * a valid one reaches the period statistics.
     */
    ghost predicate MeasuredEdge(p: u32, time: u32, data0: Data, st0: Statistics, sum0: u32, count0: u32,
                                 periods0: seq<u32>, freqs0: seq<u32>, invalid0: nat, fired: bool)
      requires p != 0
      reads this
    {
      var f := FrequencyHz(p);
      var v := ValidateFrequency(f, expectedFrequency, frequencyTolerance);
      && data == Data(p, f, time, Inc(data0.count), v)
      && fired == (callbackSet && v)
      && (v ==>
            && validPeriods == periods0 + [p]
            && validFrequencies == freqs0 + [f]
            && invalidEdges == invalid0
            && periodSum == Add32(sum0, p)
            && periodCount == Inc(count0)
            && statistics == OnValidEdge(st0, periodSum, periodCount, p, f))
      && (!v ==>
            && validPeriods == periods0
            && validFrequencies == freqs0
            && invalidEdges == invalid0 + 1
            && periodSum == sum0 && periodCount == count0
            && statistics == OnInvalidEdge(st0))
    }

    /** The part of pc814_process_capture that uses a non-zero period (PC814.c:113-163). */
    method MeasureEdge(periodUs: u32, currentTime: u32) returns (fired: bool)
      requires Valid() && periodUs != 0
      modifies this`data, this`statistics, this`periodSum, this`periodCount,
               this`validPeriods, this`validFrequencies, this`invalidEdges
      ensures Valid()
      ensures MeasuredEdge(periodUs, currentTime, old(data), old(statistics), old(periodSum), old(periodCount),
                           old(validPeriods), old(validFrequencies), old(invalidEdges), fired)
    {
      var freqHz := FrequencyHz(periodUs);
      var freqValid := ValidateFrequency(freqHz, expectedFrequency, frequencyTolerance);
      data := Data(periodUs, freqHz, currentTime, Inc(data.count), freqValid);
      if freqValid {
        RecordValid(periodUs, freqHz);
      } else {
        InvalidEdgeConsistent(statistics, periodSum, periodCount, validPeriods, validFrequencies, invalidEdges);
        statistics, invalidEdges := OnInvalidEdge(statistics), invalidEdges + 1;
      }
      fired := callbackSet && freqValid;
    }

    /** The statistics update of a valid edge (PC814.c:127-154). */
    method RecordValid(periodUs: u32, freqHz: u32)
      requires Valid() && periodUs != 0 && freqHz != 0
      modifies this`statistics, this`periodSum, this`periodCount, this`validPeriods, this`validFrequencies
      ensures Valid()
      ensures validPeriods == old(validPeriods) + [periodUs]
      ensures validFrequencies == old(validFrequencies) + [freqHz]
      ensures periodSum == Add32(old(periodSum), periodUs)
      ensures periodCount == Inc(old(periodCount))
      ensures statistics == OnValidEdge(old(statistics), periodSum, periodCount, periodUs, freqHz)
    {
      var st := statistics;
      st := st.(totalZcCount := Inc(st.totalZcCount), validZcCount := Inc(st.validZcCount));
      if st.minPeriodUs == 0 || periodUs < st.minPeriodUs {
        st := st.(minPeriodUs := periodUs);
      }
      if periodUs > st.maxPeriodUs {
        st := st.(maxPeriodUs := periodUs);
      }
      var freqFloat := freqHz as real;
      if st.minFrequencyHz == 0.0 || freqFloat < st.minFrequencyHz {
        st := st.(minFrequencyHz := freqFloat);
      }
      if freqFloat > st.maxFrequencyHz {
        st := st.(maxFrequencyHz := freqFloat);
      }
      var sum, count := Add32(periodSum, periodUs), Inc(periodCount);
      if count > 0 {
        QuotientIsDiv(sum, count);
        st := st.(avgPeriodUs := sum / count);
      }
      assert st == OnValidEdge(statistics, sum, count, periodUs, freqHz);
      ValidEdgeConsistent(statistics, periodSum, periodCount, validPeriods, validFrequencies,
                          invalidEdges, periodUs, freqHz);
      statistics, periodSum, periodCount := st, sum, count;
      validPeriods := validPeriods + [periodUs];
      validFrequencies := validFrequencies + [freqHz];
    }

    /**
     * pc814_reset: forgets the previous edge and clears the edge count and the
     * validity flag; the rest of the snapshot, the statistics and the
     * configuration stay.
     */
    method Reset()
      requires Valid()
      modifies this`lastCaptureValue, this`lastCaptureTime, this`data
      ensures Valid()
      ensures lastCaptureValue == 0 && lastCaptureTime == 0
      ensures data == old(data).(count := 0, valid := false)
      ensures forall lastCount: u32 :: !IsNewZc(lastCount)
    {
      lastCaptureValue := 0;
      lastCaptureTime := 0;
      data := data.(count := 0, valid := false);
    }

    /** pc814_reset_statistics: zeroes the statistics, the accumulator and the count; the history starts afresh. */
    method ResetStatistics()
      requires ConfigValid()
      modifies this`statistics, this`periodSum, this`periodCount,
               this`validPeriods, this`validFrequencies, this`invalidEdges
      ensures Valid()
      ensures statistics == ZeroStatistics && periodSum == 0 && periodCount == 0
      ensures validPeriods == [] && validFrequencies == [] && invalidEdges == 0
    {
      statistics := ZeroStatistics;
      periodSum, periodCount := 0, 0;
      validPeriods, validFrequencies, invalidEdges := [], [], 0;
      ZeroConsistent();
    }

    /** pc814_set_expected_frequency: only 50 and 60 Hz are accepted; anything else is ignored. */
    method SetExpectedFrequency(freq: u32)
      requires Valid()
      modifies this`expectedFrequency
      ensures Valid()
      ensures freq == 50 || freq == 60 ==> expectedFrequency == freq
      ensures freq != 50 && freq != 60 ==> expectedFrequency == old(expectedFrequency)
    {
      if freq == 50 || freq == 60 {
        expectedFrequency := freq;
      }
    }

    /** pc814_set_frequency_tolerance: only a tolerance in (0, 50] percent is accepted. */
    method SetFrequencyTolerance(tolerance: real)
      requires Valid()
      modifies this`frequencyTolerance
      ensures Valid()
      ensures 0.0 < tolerance <= 50.0 ==> frequencyTolerance == tolerance
      ensures !(0.0 < tolerance <= 50.0) ==> frequencyTolerance == old(frequencyTolerance)
    {
      if tolerance > 0.0 && tolerance <= 50.0 {
        frequencyTolerance := tolerance;
      }
    }

    /** pc814_set_callback: installs (`installed`) or removes the callback. */
    method SetCallback(installed: bool)
      requires Valid()
      modifies this`callbackSet
      ensures Valid() && callbackSet == installed
    {
      callbackSet := installed;
    }

    /** pc814_read_data: a copy of the snapshot, or Error before pc814_init. */
    function ReadData(): (Status, Data)
      reads this
    {
      if !initialized then (Error, ZeroData) else (Ok, data)
    }

    /** pc814_get_statistics: a copy of the statistics, or Error before pc814_init. */
    function GetStatistics(): (Status, Statistics)
      reads this
    {
      if !initialized then (Error, ZeroStatistics) else (Ok, statistics)
    }

    /** pc814_is_data_valid */
    function IsDataValid(): bool
      reads this
    {
      initialized && data.valid
    }

    /** pc814_get_period_us */
    function GetPeriodUs(): u32
      reads this
    {
      if !initialized || !data.valid then 0 else data.periodUs
    }

    /** pc814_get_frequency */
    function GetFrequency(): u32
      reads this
    {
      if !initialized || !data.valid then 0 else data.frequencyHz
    }

    /** pc814_get_count */
    function GetCount(): u32
      reads this
    {
      if !initialized then 0 else data.count
    }

    /**
     * pc814_get_time_since_zc; `now` is what get_time_us returns (None: no
     * clock). A clock that has wrapped below the timestamp reads as 0.
     */
    function GetTimeSinceZc(now: Option<u32>): u32
      reads this
    {
      if !initialized || now.None? then 0
      else if now.value < data.timestampUs then 0
      else now.value - data.timestampUs
    }

    /** pc814_is_new_zc: a plain comparison, without wrap-around handling. */
    function IsNewZc(lastCount: u32): bool
      reads this
    {
      initialized && data.count > lastCount
    }

    /** pc814_get_half_period_us */
    function GetHalfPeriodUs(): u32
      reads this
    {
      if !initialized || !data.valid then 0 else data.periodUs / 2
    }

    /** pc814_get_quarter_period_us */
    function GetQuarterPeriodUs(): u32
      reads this
    {
      if !initialized || !data.valid then 0 else data.periodUs / 4
    }

    /** pc814_read_data fails with Error exactly before pc814_init and afterwards returns the snapshot as stored. */
    lemma ReadDataAfterInit()
      ensures ReadData().0 == Ok <==> initialized
      ensures ReadData().0 != Ok ==> ReadData().0 == Error
      ensures initialized ==> ReadData().1 == data
      ensures IsDataValid() ==> ReadData() == (Ok, data) && data.valid
    {
    }

    /** pc814_get_statistics fails with Error exactly before pc814_init and afterwards returns the statistics as stored. */
    lemma StatisticsAfterInit()
      ensures GetStatistics().0 == Ok <==> initialized
      ensures GetStatistics().0 != Ok ==> GetStatistics().0 == Error
      ensures initialized ==> GetStatistics().1 == statistics
    {
    }

    /**
     * The period and frequency getters report a sample exactly when it is
     * valid, and the reported frequency is always the one of the reported
     * period.
     */
    lemma ValidSampleGetters()
      requires Valid()
      ensures GetPeriodUs() != 0 <==> IsDataValid()
      ensures GetFrequency() != 0 <==> IsDataValid()
      ensures GetFrequency() != 0 ==> GetFrequency() == FrequencyHz(GetPeriodUs())
    {
    }

    /** Half and quarter periods are the truncated fractions of the reported period, and 0 with it. */
    lemma FractionGetters()
      ensures 2 * GetHalfPeriodUs() <= GetPeriodUs() < 2 * GetHalfPeriodUs() + 2
      ensures 4 * GetQuarterPeriodUs() <= GetPeriodUs() < 4 * GetQuarterPeriodUs() + 4
      ensures GetPeriodUs() == 0 ==> GetHalfPeriodUs() == 0 && GetQuarterPeriodUs() == 0
    {
    }

    /** The elapsed time since the last delta edge never exceeds the clock reading. */
    lemma TimeSinceZcBounds(now: Option<u32>)
      ensures now.None? || !initialized ==> GetTimeSinceZc(now) == 0
      ensures now.Some? && initialized && now.value >= data.timestampUs ==>
                data.timestampUs + GetTimeSinceZc(now) == now.value
      ensures now.Some? && now.value < data.timestampUs ==> GetTimeSinceZc(now) == 0
    {
    }

    /**
     * is_new_zc against a remembered count: before init nothing is new; an
     * edge that advanced the count by one is reported, except the one that
     * wraps it from 0xFFFFFFFF to 0; a count left alone reports nothing; and
     * after a reset (count 0) nothing is new, whatever count the caller holds.
     */
    lemma NewZcIsCountIncrease(lastCount: u32)
      ensures IsNewZc(lastCount) <==> initialized && GetCount() > lastCount
      ensures !initialized ==> !IsNewZc(lastCount) && GetCount() == 0
      ensures initialized && data.count == Inc(lastCount) ==> (IsNewZc(lastCount) <==> lastCount != 0xFFFF_FFFF)
      ensures data.count == lastCount ==> !IsNewZc(lastCount)
      ensures data.count == 0 ==> !IsNewZc(lastCount)
    {
    }

    /**
     * The handle-level statistics invariant: every delta edge was counted as
     * valid or invalid, the valid count is the number of averaged periods and,
     * until the accumulator wraps, the average is the mean of the valid
     * periods and lies between their minimum and maximum.
     */
    lemma StatisticsInvariant()
      requires Valid()
      ensures statistics.totalZcCount == Add32(statistics.validZcCount, statistics.invalidZcCount)
      ensures statistics.validZcCount == periodCount
      ensures validPeriods != [] && Sum(validPeriods) < U32 ==>
                && statistics.avgPeriodUs == Sum(validPeriods) / |validPeriods|
                && statistics.minPeriodUs <= statistics.avgPeriodUs <= statistics.maxPeriodUs
      ensures forall i :: 0 <= i < |validPeriods| ==>
                statistics.minPeriodUs <= validPeriods[i] <= statistics.maxPeriodUs
    {
      TotalIsValidPlusInvalid(statistics, periodSum, periodCount, validPeriods, invalidEdges);
      if validPeriods != [] && Sum(validPeriods) < U32 {
        RunningAverage(statistics, periodSum, periodCount, validPeriods, invalidEdges);
      }
    }
  }
}

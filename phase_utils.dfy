/**
 * The two stateless phase utilities of PC814.c: phase angle of a time offset
 * and time offset of a phase angle. The C code works in float; here the angles
 * are `real`, so the results are exact and only their ranges and the round
 * trip between the two are stated.
 */
module PhaseUtils {
  import opened CaptureMath

  /** `x` reduced into [0, 360) by whole turns. */
  function Wrap360(x: real): (r: real)
    ensures 0.0 <= r < 360.0
  {
    x - 360.0 * (x / 360.0).Floor as real
  }

  /** The reduction is unique: a value in [0, 360) that differs from `x` by whole turns is `Wrap360(x)`. */
  lemma Wrap360Unique(x: real, turns: int)
    requires 0.0 <= x - 360.0 * turns as real < 360.0
    ensures Wrap360(x) == x - 360.0 * turns as real
  {
    var f := (x / 360.0).Floor;
    assert turns as real <= x / 360.0 < turns as real + 1.0;
    assert f == turns;
  }

  /** pc814_calc_phase_angle (PC814.c:307-332), over reals. */
  function PhaseAngle(timeOffsetUs: u32, lineFreq: u32): (phase: real)
    ensures 0.0 <= phase < 360.0
  {
    if lineFreq == 0 then 0.0
    else
      var periodUs := 1000000 / lineFreq;
      if periodUs == 0 then 0.0
      else Wrap360((timeOffsetUs as real / periodUs as real) * 360.0)
  }

  /** pc814_calc_time_for_phase (PC814.c:335-356), over reals; the cast to uint32_t truncates. */
  function TimeForPhase(phaseDeg: real, lineFreq: u32): (timeOffset: u32)
    ensures lineFreq == 0 || 1000000 / lineFreq == 0 ==> timeOffset == 0
    ensures lineFreq != 0 && 1000000 / lineFreq != 0 ==> timeOffset < 1000000 / lineFreq
  {
    if lineFreq == 0 then 0
    else
      var periodUs := 1000000 / lineFreq;
      ScaledFraction(Wrap360(phaseDeg), 360.0, periodUs);
      ((Wrap360(phaseDeg) / 360.0) * periodUs as real).Floor
  }

  /**
   * Normalises with the two `while` loops of PC814.c:324-329: subtract whole
   * turns while at or above 360, add them while below 0.
   */
  method CalcPhaseAngle(timeOffsetUs: u32, lineFreq: u32) returns (phase: real)
    ensures phase == PhaseAngle(timeOffsetUs, lineFreq)
  {
    if lineFreq == 0 {
      return 0.0;
    }
    var periodUs := 1000000 / lineFreq;
    if periodUs == 0 {
      return 0.0;
    }
    phase := (timeOffsetUs as real / periodUs as real) * 360.0;
    ghost var raw, turns := phase, 0;
    while phase >= 360.0
      invariant phase == raw - 360.0 * turns as real
      decreases phase.Floor
    {
      phase := phase - 360.0;
      turns := turns + 1;
    }
    while phase < 0.0
      invariant phase == raw - 360.0 * turns as real
      invariant phase < 360.0
      decreases (-phase).Floor
    {
      phase := phase + 360.0;
      turns := turns - 1;
    }
    Wrap360Unique(raw, turns);
  }

  /** Normalises the angle with the loops of PC814.c:342-347, then takes that fraction of the period. */
  method CalcTimeForPhase(phaseDeg: real, lineFreq: u32) returns (timeOffset: u32)
    ensures timeOffset == TimeForPhase(phaseDeg, lineFreq)
  {
    if lineFreq == 0 {
      return 0;
    }
    var phase := phaseDeg;
    ghost var turns := 0;
    while phase >= 360.0
      invariant phase == phaseDeg - 360.0 * turns as real
      decreases phase.Floor
    {
      phase := phase - 360.0;
      turns := turns + 1;
    }
    while phase < 0.0
      invariant phase == phaseDeg - 360.0 * turns as real
      invariant phase < 360.0
      decreases (-phase).Floor
    {
      phase := phase + 360.0;
      turns := turns - 1;
    }
    Wrap360Unique(phaseDeg, turns);
    var periodUs := 1000000 / lineFreq;
    ScaledFraction(phase, 360.0, periodUs);
    timeOffset := ((phase / 360.0) * periodUs as real).Floor;
  }

  /** Scaling by 360 / p keeps a one-unit bracket as a bracket of width 360 / p. */
  lemma ScaleBracket(t: real, x: real, p: real)
    requires p >= 1.0 && t <= x < t + 1.0
    ensures (t / p) * 360.0 <= (x / p) * 360.0 < (t / p) * 360.0 + 360.0 / p
  {
    assert x / p < (t + 1.0) / p;
    assert (t + 1.0) / p * 360.0 == (t / p) * 360.0 + 360.0 / p;
  }

  /**
   * Round trip: converting an angle to a time offset and back loses less than
   * one microsecond's worth of angle, and never overshoots.
   */
  lemma PhaseRoundTrip(angle: real, lineFreq: u32)
    requires 0.0 <= angle < 360.0
    requires 0 < lineFreq <= 1000000
    ensures var periodUs := 1000000 / lineFreq;
            var back := PhaseAngle(TimeForPhase(angle, lineFreq), lineFreq);
            back <= angle < back + 360.0 / periodUs as real
  {
    var periodUs := 1000000 / lineFreq;
    var p := periodUs as real;
    assert p >= 1.0;
    Wrap360Unique(angle, 0);
    var x := (angle / 360.0) * p;
    var t := TimeForPhase(angle, lineFreq);
    assert t == x.Floor;
    var raw := (t as real / p) * 360.0;
    assert 0.0 <= raw < 360.0 by {
      assert t < periodUs;
      assert t as real / p < 1.0;
    }
    Wrap360Unique(raw, 0);
    assert PhaseAngle(t, lineFreq) == raw;
    assert angle == (x / p) * 360.0;
    ScaleBracket(t as real, x, p);
  }
}

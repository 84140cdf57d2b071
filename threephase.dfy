/**
 * The three-phase layer of PC814_ThreePhase.c: three channel snapshots become
 * a phase relationship (zero-crossing times, pairwise angles, frequencies),
 * which is classified as sequence ABC or ACB and turned into wiring advice.
 * Angles are `real` here where the C code uses float.
 */
module ThreePhase {
  import opened Wrappers
  import opened CaptureMath
  import opened Capture

  /** pc814_sequence_t; a zero-filled structure reads as SequenceABC. */
  datatype Sequence = SequenceABC | SequenceACB | SequenceUnknown | SequenceError

  /** pc814_phase_id_t */
  datatype PhaseId = PhaseA | PhaseB | PhaseC

  /** pc814_phase_relationship_t */
  datatype Relationship = Relationship(
    aZcTime: u32, bZcTime: u32, cZcTime: u32,
    abAngle: real, bcAngle: real, caAngle: real,
    aFreq: u32, bFreq: u32, cFreq: u32,
    valid: bool)

  const ZeroRelationship := Relationship(0, 0, 0, 0.0, 0.0, 0.0, 0, 0, 0, false)

  /** The three flags written by pc814_threephase_get_swap_recommendation. */
  datatype Swaps = Swaps(ab: bool, bc: bool, ca: bool)

  const NoSwaps := Swaps(false, false, false)

  /** PC814_DEFAULT_SEQUENCE_TOLERANCE, in degrees */
  const DefaultSequenceTolerance: real := 10.0

  const CannotDetermineMessage := "Error: Cannot determine phase correction"
  const CorrectMessage := "Phase sequence is CORRECT (ABC)"
  const AllPhasesMessage := "Error: All phases need correction - check connections"
  const SwapABMessage := "SWAP phases A and B to correct sequence"
  const SwapBCMessage := "SWAP phases B and C to correct sequence"
  const SwapCAMessage := "SWAP phases C and A to correct sequence"
  const CheckAllMessage := "Phase sequence error - check all connections"

  function AbsReal(x: real): real {
    if x < 0.0 then -x else x
  }

  /** Distance between two directions on the circle of degrees, for directions in [0, 360). */
  function CircularDistance(x: real, y: real): (d: real)
    ensures AbsReal(x - y) <= 360.0 ==> 0.0 <= d <= 180.0
    ensures d <= AbsReal(x - y)
  {
    if AbsReal(x - y) > 180.0 then 360.0 - AbsReal(x - y) else AbsReal(x - y)
  }

  predicate AnglesInRange(rel: Relationship) {
    && 0.0 <= rel.abAngle < 360.0
    && 0.0 <= rel.bcAngle < 360.0
    && 0.0 <= rel.caAngle < 360.0
  }

  /** The time difference of calculate_phase_angle: the second branch assumes the clock wrapped. */
  function TimeDiff(t1: u32, t2: u32): (d: u32)
    ensures d == (t2 - t1) % U32
  {
    if t2 >= t1 then t2 - t1 else (0xFFFF_FFFF - t1) + t2 + 1
  }

  /**
   * calculate_phase_angle (PC814_ThreePhase.c:25-56) as written: the modular
   * difference reduced modulo the period, as a fraction of 360 degrees. The
   * result is already in [0, 360), so the fmodf and `+= 360` normalisation of
   * the C code never applies.
   */
  function PhaseAngleAsWritten(t1: u32, t2: u32, periodUs: u32): (angle: real)
    ensures 0.0 <= angle < 360.0
    ensures periodUs == 0 ==> angle == 0.0
    ensures periodUs != 0 ==> angle * periodUs as real == (TimeDiff(t1, t2) % periodUs) as real * 360.0
  {
    if periodUs == 0 then 0.0
    else
      ScaledFraction((TimeDiff(t1, t2) % periodUs) as real, periodUs as real, 360);
      ((TimeDiff(t1, t2) % periodUs) as real / periodUs as real) * 360.0
  }

  /**
   * The time difference read as a signed 32-bit value: a second crossing that
   * is numerically earlier than the first is a negative offset, unless the
   * difference is 2^31 or more (a clock wrap).
   */
  function SignedDiff(t1: u32, t2: u32): (d: int)
    ensures -0x8000_0000 <= d < 0x8000_0000
    ensures (d - (t2 - t1)) % U32 == 0
  {
    var m := TimeDiff(t1, t2);
    if m < 0x8000_0000 then m else m - U32
  }

  /**
   * The phase angle from the crossing at `t1` to the crossing at `t2`: the
   * signed offset reduced modulo the period. This is the angle the rest of
   * the model uses.
   */
  function PhaseAngleBetween(t1: u32, t2: u32, periodUs: u32): (angle: real)
    ensures 0.0 <= angle < 360.0
    ensures periodUs == 0 ==> angle == 0.0
    ensures periodUs != 0 ==> angle * periodUs as real == (SignedDiff(t1, t2) % periodUs) as real * 360.0
  {
    if periodUs == 0 then 0.0
    else
      ScaledFraction((SignedDiff(t1, t2) % periodUs) as real, periodUs as real, 360);
      ((SignedDiff(t1, t2) % periodUs) as real / periodUs as real) * 360.0
  }

  /** Opposite offsets have remainders that are both zero or add up to the period. */
  lemma OppositeOffsets(a: int, p: int)
    requires p > 0
    ensures (a % p == 0 && (-a) % p == 0) || a % p + (-a) % p == p
  {
    var q, r := a / p, a % p;
    assert a == p * q + r;
    if r == 0 {
      assert -a == p * (-q) + 0;
      DivModUnique(-a, p, -q, 0);
    } else {
      assert -a == p * (-q - 1) + (p - r);
      DivModUnique(-a, p, -q - 1, p - r);
    }
  }

  /**
   * Swapping the two crossings gives the complementary angle: the two
   * directed angles between a pair of phases add up to 360 degrees (or are
   * both 0).
   */
  lemma PhaseAngleAntisymmetric(t1: u32, t2: u32, periodUs: u32)
    requires periodUs != 0 && TimeDiff(t1, t2) != 0x8000_0000
    ensures var x, y := PhaseAngleBetween(t1, t2, periodUs), PhaseAngleBetween(t2, t1, periodUs);
            (x == 0.0 && y == 0.0) || x + y == 360.0
  {
    var d1, d2 := SignedDiff(t1, t2), SignedDiff(t2, t1);
    SignedDiffAntisymmetric(t1, t2);
    OppositeOffsets(d1, periodUs);
    var x, y := PhaseAngleBetween(t1, t2, periodUs), PhaseAngleBetween(t2, t1, periodUs);
    assert x * periodUs as real == (d1 % periodUs) as real * 360.0;
    assert y * periodUs as real == (d2 % periodUs) as real * 360.0;
    TurnsAddUp(x, y, d1 % periodUs, d2 % periodUs, periodUs);
  }

  lemma SignedDiffAntisymmetric(t1: u32, t2: u32)
    requires TimeDiff(t1, t2) != 0x8000_0000
    ensures SignedDiff(t2, t1) == -SignedDiff(t1, t2)
  {
  }

  /** Two angles measuring remainders that are both zero or fill the period make a whole turn or nothing. */
  lemma TurnsAddUp(x: real, y: real, r1: int, r2: int, p: int)
    requires p > 0 && x * p as real == r1 as real * 360.0 && y * p as real == r2 as real * 360.0
    requires (r1 == 0 && r2 == 0) || r1 + r2 == p
    ensures (x == 0.0 && y == 0.0) || x + y == 360.0
  {
    var P := p as real;
    assert x == r1 as real * 360.0 / P;
    assert y == r2 as real * 360.0 / P;
    if r1 + r2 == p {
      assert r1 as real + r2 as real == P;
      assert x + y == (r1 as real + r2 as real) * 360.0 / P;
    }
  }

  /** Between two crossings less than half the clock range apart, the angle depends only on their true offset. */
  lemma PhaseAngleOfOffset(t1: u32, t2: u32, periodUs: u32)
    requires periodUs != 0 && -0x8000_0000 <= t2 - t1 < 0x8000_0000
    ensures PhaseAngleBetween(t1, t2, periodUs) * periodUs as real == ((t2 - t1) % periodUs) as real * 360.0
  {
  }

  /**
   * The as-written angle is not antisymmetric: with a 20000 us period and
   * crossings at 1000 and 14333 us, the forward offset is 13333 us (about
   * 240 degrees) but the backward one goes through 2^32, which is not a
   * multiple of the period, and reads 13963 us (about 251 degrees) instead of
   * the 6667 us (about 120 degrees) of the corrected angle.
   */
  lemma PhaseAngleAsWrittenNotAntisymmetric()
    ensures PhaseAngleAsWritten(1000, 14333, 20000) * 20000.0 == 13333.0 * 360.0
    ensures PhaseAngleAsWritten(14333, 1000, 20000) * 20000.0 == 13963.0 * 360.0
    ensures PhaseAngleBetween(14333, 1000, 20000) * 20000.0 == 6667.0 * 360.0
    ensures PhaseAngleAsWritten(1000, 14333, 20000) + PhaseAngleAsWritten(14333, 1000, 20000) != 360.0
  {
    assert TimeDiff(14333, 1000) == 0xFFFF_FFFF - 14333 + 1001;
    assert SignedDiff(14333, 1000) == -13333;
  }

  /** is_angle_120: within the tolerance of 120 degrees, or (on the circle) of 240 degrees. */
  function IsAngle120(angle: real, tolerance: real): (r: bool)
    ensures 0.0 <= angle < 360.0 && tolerance <= 60.0 ==>
              (r <==> CircularDistance(angle, 120.0) <= tolerance || CircularDistance(angle, 240.0) <= tolerance)
  {
    var diff120 := AbsReal(angle - 120.0);
    var diff240 := if AbsReal(angle - 240.0) > 180.0 then 360.0 - AbsReal(angle - 240.0) else AbsReal(angle - 240.0);
    diff120 <= tolerance || diff240 <= tolerance
  }

  /** is_angle_240: near 240 degrees and not near 120 degrees; so it always implies IsAngle120. */
  function IsAngle240(angle: real, tolerance: real): (r: bool)
    ensures r ==> IsAngle120(angle, tolerance)
    ensures 0.0 <= angle < 360.0 && tolerance <= 60.0 ==>
              (r <==> CircularDistance(angle, 240.0) <= tolerance && CircularDistance(angle, 120.0) > tolerance)
  {
    var diff240 := if AbsReal(angle - 240.0) > 180.0 then 360.0 - AbsReal(angle - 240.0) else AbsReal(angle - 240.0);
    var diff120 := AbsReal(angle - 120.0);
    diff240 <= tolerance && diff120 > tolerance
  }

  /** Every angle of the relationship passes is_angle_120. */
  predicate AllNear120(rel: Relationship, tolerance: real) {
    IsAngle120(rel.abAngle, tolerance) && IsAngle120(rel.bcAngle, tolerance) && IsAngle120(rel.caAngle, tolerance)
  }

  /**
   * The two reverse-rotation tests of detect_sequence: A to B or B to C near
   * 240 degrees with C to A near 120, or both A to B and B to C near 240.
   */
  predicate ReversedPattern(rel: Relationship, tolerance: real) {
    var ab240, bc240 := IsAngle240(rel.abAngle, tolerance), IsAngle240(rel.bcAngle, tolerance);
    ((ab240 || bc240) && IsAngle120(rel.caAngle, tolerance)) || (ab240 && bc240)
  }

  /**
   * pc814_threephase_detect_sequence. It never answers Unknown, answers Error
   * for an invalid relationship, and answers ABC exactly when every angle is
   * near 120 or 240 degrees, so a reversed rotation can read as ABC.
   */
  function DetectSequence(rel: Relationship, tolerance: real): (r: Sequence)
    ensures r != SequenceUnknown
    ensures !rel.valid ==> r == SequenceError
    ensures r == SequenceABC <==>
              rel.valid && IsAngle120(rel.abAngle, tolerance) && IsAngle120(rel.bcAngle, tolerance)
              && IsAngle120(rel.caAngle, tolerance)
    ensures r == SequenceACB <==>
              rel.valid && !AllNear120(rel, tolerance) && ReversedPattern(rel, tolerance)
    ensures r == SequenceError <==>
              !rel.valid || (!AllNear120(rel, tolerance) && !ReversedPattern(rel, tolerance))
  {
    if !rel.valid then SequenceError
    else
      var ab120, bc120, ca120 :=
        IsAngle120(rel.abAngle, tolerance), IsAngle120(rel.bcAngle, tolerance), IsAngle120(rel.caAngle, tolerance);
      if ab120 && bc120 && ca120 then SequenceABC
      else
        var ab240, bc240 := IsAngle240(rel.abAngle, tolerance), IsAngle240(rel.bcAngle, tolerance);
        if (ab240 || bc240) && ca120 then SequenceACB
        else if ab240 && bc240 then SequenceACB
        else SequenceError
  }

  /** Angles of a relationship that is valid. */
  function WithAngles(ab: real, bc: real, ca: real): Relationship {
    ZeroRelationship.(abAngle := ab, bcAngle := bc, caAngle := ca, valid := true)
  }

  /**
   * A reversed rotation (every angle 240 degrees) and the ACB pattern
   * (240, 240, 120) are both classified ABC; (240, 0, 120) and (240, 240, 0)
   * are ACB.
   */
  lemma ClassifierExamples()
    ensures DetectSequence(WithAngles(120.0, 120.0, 120.0), 10.0) == SequenceABC
    ensures DetectSequence(WithAngles(240.0, 240.0, 240.0), 10.0) == SequenceABC
    ensures DetectSequence(WithAngles(240.0, 240.0, 120.0), 10.0) == SequenceABC
    ensures DetectSequence(WithAngles(240.0, 0.0, 120.0), 10.0) == SequenceACB
    ensures DetectSequence(WithAngles(240.0, 240.0, 0.0), 10.0) == SequenceACB
    ensures DetectSequence(WithAngles(90.0, 90.0, 90.0), 10.0) == SequenceError
  {
  }

  /** Every valid relationship whose angles are all 240 degrees reads as ABC, whatever the tolerance. */
  lemma ReversedRotationReadsABC(rel: Relationship, tolerance: real)
    requires rel.valid && rel.abAngle == 240.0 && rel.bcAngle == 240.0 && rel.caAngle == 240.0
    requires tolerance >= 0.0
    ensures DetectSequence(rel, tolerance) == SequenceABC
  {
    assert IsAngle120(240.0, tolerance);
  }

  /** The channel snapshot was read and is valid (PC814_ThreePhase.c:117-125). */
  predicate Usable(d: Option<Data>) {
    d.Some? && d.value.valid
  }

  /**
   * The average period of PC814_ThreePhase.c:136: the uint32_t sum of the
   * three periods, truncated by 3. It is the true mean while the sum fits.
   */
  function MeanPeriod(a: Data, b: Data, c: Data): (p: u32)
    ensures a.periodUs + b.periodUs + c.periodUs < U32 ==> p == (a.periodUs + b.periodUs + c.periodUs) / 3
    ensures p == ((a.periodUs + b.periodUs + c.periodUs) % U32) / 3
  {
    Add32(Add32(a.periodUs, b.periodUs), c.periodUs) / 3
  }

  /**
   * The relationship pc814_threephase_process builds from three snapshots: the
   * crossing times, the frequencies, and the angles over the mean of the three
   * periods (a uint32_t sum, truncated by 3).
   */
  function Relate(a: Data, b: Data, c: Data): (rel: Relationship)
    ensures rel.valid && AnglesInRange(rel)
    ensures rel.aZcTime == a.timestampUs && rel.bZcTime == b.timestampUs && rel.cZcTime == c.timestampUs
    ensures rel.aFreq == a.frequencyHz && rel.bFreq == b.frequencyHz && rel.cFreq == c.frequencyHz
    ensures var p := MeanPeriod(a, b, c);
            && rel.abAngle == PhaseAngleBetween(a.timestampUs, b.timestampUs, p)
            && rel.bcAngle == PhaseAngleBetween(b.timestampUs, c.timestampUs, p)
            && rel.caAngle == PhaseAngleBetween(c.timestampUs, a.timestampUs, p)
  {
    var avgPeriod := MeanPeriod(a, b, c);
    Relationship(
      a.timestampUs, b.timestampUs, c.timestampUs,
      PhaseAngleBetween(a.timestampUs, b.timestampUs, avgPeriod),
      PhaseAngleBetween(b.timestampUs, c.timestampUs, avgPeriod),
      PhaseAngleBetween(c.timestampUs, a.timestampUs, avgPeriod),
      a.frequencyHz, b.frequencyHz, c.frequencyHz,
      true)
  }

  /** The relationship as PC814_ThreePhase.c:127-145 builds it, with calculate_phase_angle as written. */
  function RelateAsWritten(a: Data, b: Data, c: Data): (rel: Relationship)
    ensures rel.valid && AnglesInRange(rel)
    ensures rel == Relate(a, b, c).(abAngle := rel.abAngle, bcAngle := rel.bcAngle, caAngle := rel.caAngle)
    ensures var p := MeanPeriod(a, b, c);
            && rel.abAngle == PhaseAngleAsWritten(a.timestampUs, b.timestampUs, p)
            && rel.bcAngle == PhaseAngleAsWritten(b.timestampUs, c.timestampUs, p)
            && rel.caAngle == PhaseAngleAsWritten(c.timestampUs, a.timestampUs, p)
  {
    var avgPeriod := MeanPeriod(a, b, c);
    Relationship(
      a.timestampUs, b.timestampUs, c.timestampUs,
      PhaseAngleAsWritten(a.timestampUs, b.timestampUs, avgPeriod),
      PhaseAngleAsWritten(b.timestampUs, c.timestampUs, avgPeriod),
      PhaseAngleAsWritten(c.timestampUs, a.timestampUs, avgPeriod),
      a.frequencyHz, b.frequencyHz, c.frequencyHz,
      true)
  }

  /** For a forward offset below 2^31 the corrected angle and the as-written one coincide. */
  lemma AsWrittenAgreesForward(t1: u32, t2: u32, periodUs: u32)
    requires t1 <= t2 && t2 - t1 < 0x8000_0000
    ensures PhaseAngleBetween(t1, t2, periodUs) == PhaseAngleAsWritten(t1, t2, periodUs)
  {
    assert SignedDiff(t1, t2) == TimeDiff(t1, t2) == t2 - t1;
  }

  /**
   * A correctly wired 50 Hz system, crossings 1000, 7667 and 14333 us with
   * 20000 us periods: with the corrected angle all three angles are near 120
   * degrees and the sequence is ABC; as written the C to A angle reads about
   * 251 degrees and the sequence is Error.
   */
  lemma CorrectWiringReadsErrorAsWritten()
    ensures var a, b, c := Data(20000, 50, 1000, 1, true), Data(20000, 50, 7667, 1, true),
                           Data(20000, 50, 14333, 1, true);
            && DetectSequence(Relate(a, b, c), 10.0) == SequenceABC
            && DetectSequence(RelateAsWritten(a, b, c), 10.0) == SequenceError
  {
    var a, b, c := Data(20000, 50, 1000, 1, true), Data(20000, 50, 7667, 1, true), Data(20000, 50, 14333, 1, true);
    assert MeanPeriod(a, b, c) == 20000;
    assert SignedDiff(14333, 1000) == -13333;
    assert TimeDiff(14333, 1000) % 20000 == 13963;
    var rel, aw := Relate(a, b, c), RelateAsWritten(a, b, c);
    assert rel.abAngle * 20000.0 == 6667.0 * 360.0;
    assert rel.bcAngle * 20000.0 == 6666.0 * 360.0;
    assert rel.caAngle * 20000.0 == 6667.0 * 360.0;
    assert aw.abAngle == rel.abAngle && aw.bcAngle == rel.bcAngle;
    assert aw.caAngle * 20000.0 == 13963.0 * 360.0;
  }

  /**
   * pc814_threephase_get_phase_angle over a relationship: the stored angle in
   * the forward direction, its complement in the reverse direction, 0 for the
   * same phase or an invalid relationship.
   */
  function PhaseAngleOf(rel: Relationship, phase1: PhaseId, phase2: PhaseId): (r: real)
    ensures !rel.valid || phase1 == phase2 ==> r == 0.0
    ensures AnglesInRange(rel) ==> 0.0 <= r < 360.0
    ensures rel.valid && phase1 == PhaseA && phase2 == PhaseB ==> r == rel.abAngle
    ensures rel.valid && phase1 == PhaseB && phase2 == PhaseC ==> r == rel.bcAngle
    ensures rel.valid && phase1 == PhaseC && phase2 == PhaseA ==> r == rel.caAngle
  {
    if !rel.valid || phase1 == phase2 then 0.0
    else match (phase1, phase2)
      case (PhaseA, PhaseB) => rel.abAngle
      case (PhaseB, PhaseC) => rel.bcAngle
      case (PhaseC, PhaseA) => rel.caAngle
      case (PhaseB, PhaseA) => if rel.abAngle > 0.0 then 360.0 - rel.abAngle else 0.0
      case (PhaseC, PhaseB) => if rel.bcAngle > 0.0 then 360.0 - rel.bcAngle else 0.0
      case (PhaseA, PhaseC) => if rel.caAngle > 0.0 then 360.0 - rel.caAngle else 0.0
      case _ => 0.0
  }

  /** Reading a pair in both directions gives angles that add up to a whole turn, or both 0. */
  lemma PhaseAngleReverse(rel: Relationship, phase1: PhaseId, phase2: PhaseId)
    requires rel.valid && phase1 != phase2 && AnglesInRange(rel)
    ensures var x, y := PhaseAngleOf(rel, phase1, phase2), PhaseAngleOf(rel, phase2, phase1);
            (x == 0.0 && y == 0.0) || x + y == 360.0
  {
  }

  /** pc814_threephase_get_phase_frequency over a relationship. */
  function PhaseFrequencyOf(rel: Relationship, phase: PhaseId): (r: u32)
    ensures !rel.valid ==> r == 0
    ensures rel.valid && phase == PhaseA ==> r == rel.aFreq
    ensures rel.valid && phase == PhaseB ==> r == rel.bFreq
    ensures rel.valid && phase == PhaseC ==> r == rel.cFreq
  {
    if !rel.valid then 0
    else match phase
      case PhaseA => rel.aFreq
      case PhaseB => rel.bFreq
      case PhaseC => rel.cFreq
  }

  predicate AtMostOne(s: Swaps) {
    (s.ab ==> !s.bc && !s.ca) && (s.bc ==> !s.ca)
  }

  /**
   * pc814_threephase_get_swap_recommendation: flags cleared, then Error for an
   * invalid relationship; B and C for ACB; for an Error sequence the first
   * matching pair of near-120 angles decides one flag.
   */
  function SwapRecommendation(rel: Relationship, sequence: Sequence, tolerance: real): (r: (Status, Swaps))
    ensures r.0 == Ok || r.0 == Error
    ensures r.0 == Error <==> !rel.valid
    ensures r.0 == Error ==> r.1 == NoSwaps
    ensures AtMostOne(r.1)
    ensures rel.valid && sequence == SequenceACB ==> r.1 == Swaps(false, true, false)
    ensures sequence == SequenceABC || sequence == SequenceUnknown ==> r.1 == NoSwaps
    // the decision chain for an Error sequence
    ensures rel.valid && sequence == SequenceError ==>
              var ab, bc, ca :=
                IsAngle120(rel.abAngle, tolerance), IsAngle120(rel.bcAngle, tolerance), IsAngle120(rel.caAngle, tolerance);
              && (ab && ca ==> r.1 == Swaps(false, true, false))
              && (!(ab && ca) && bc && ca ==> r.1 == Swaps(true, false, false))
              && (!(ab && ca) && !(bc && ca) && ab && bc ==> r.1 == Swaps(false, false, true))
              && (!(ab && ca) && !(bc && ca) && !(ab && bc) ==> r.1 == NoSwaps)
  {
    if !rel.valid then (Error, NoSwaps)
    else if sequence == SequenceACB then (Ok, Swaps(false, true, false))
    else if sequence == SequenceError then
      var ab120, bc120, ca120 :=
        IsAngle120(rel.abAngle, tolerance), IsAngle120(rel.bcAngle, tolerance), IsAngle120(rel.caAngle, tolerance);
      if ab120 && ca120 then (Ok, Swaps(false, true, false))
      else if bc120 && ca120 then (Ok, Swaps(true, false, false))
      else if ab120 && bc120 then (Ok, Swaps(false, false, true))
      else (Ok, NoSwaps)
    else (Ok, NoSwaps)
  }

  /**
   * pc814_threephase_get_correction_message: the message chosen for a buffer of
   * `maxLen` bytes (None: the buffer is left alone). Every message fits, so
   * strncpy never truncates; the all-phases message is never chosen because
   * the recommendation sets at most one flag.
   */
  function CorrectionMessage(rel: Relationship, sequence: Sequence, tolerance: real, maxLen: u32)
    : (r: (Status, Option<string>))
    ensures maxLen < 64 ==> r == (Error, None)
    ensures maxLen >= 64 ==> r.1.Some? && |r.1.value| < maxLen
    ensures maxLen >= 64 ==> (r.0 == Ok <==> rel.valid)
    ensures r.1 != Some(AllPhasesMessage)
    ensures maxLen >= 64 && rel.valid && sequence == SequenceABC ==> r == (Ok, Some(CorrectMessage))
    ensures maxLen >= 64 && rel.valid && sequence == SequenceACB ==> r == (Ok, Some(SwapBCMessage))
    ensures maxLen >= 64 && !rel.valid ==> r == (Error, Some(CannotDetermineMessage))
    // any other sequence: the message follows the recommended flag
    ensures maxLen >= 64 && rel.valid && sequence != SequenceABC ==>
              var sw := SwapRecommendation(rel, sequence, tolerance).1;
              && (sw == NoSwaps ==> r == (Ok, Some(CheckAllMessage)))
              && (sw.ab ==> r == (Ok, Some(SwapABMessage)))
              && (sw.bc ==> r == (Ok, Some(SwapBCMessage)))
              && (sw.ca ==> r == (Ok, Some(SwapCAMessage)))
  {
    if maxLen < 64 then (Error, None)
    else
      var (st, sw) := SwapRecommendation(rel, sequence, tolerance);
      if st != Ok then (Error, Some(CannotDetermineMessage))
      else if sequence == SequenceABC then (Ok, Some(CorrectMessage))
      else if sw.ab && sw.bc && sw.ca then (Ok, Some(AllPhasesMessage))
      else if sw.ab then (Ok, Some(SwapABMessage))
      else if sw.bc then (Ok, Some(SwapBCMessage))
      else if sw.ca then (Ok, Some(SwapCAMessage))
      else (Ok, Some(CheckAllMessage))
  }

  /**
   * A correctly wired system on its first successful pass stores sequence
   * Error (see ThreePhaseSystem.Process), and is then advised to swap B and C.
   */
  lemma FirstPassAdvice()
    ensures SwapRecommendation(WithAngles(120.0, 120.0, 120.0), SequenceError, 10.0) == (Ok, Swaps(false, true, false))
    ensures CorrectionMessage(WithAngles(120.0, 120.0, 120.0), SequenceError, 10.0, 64) == (Ok, Some(SwapBCMessage))
    ensures CorrectionMessage(WithAngles(90.0, 90.0, 90.0), SequenceError, 10.0, 64) == (Ok, Some(CheckAllMessage))
  {
  }

  /** pc814_threephase_is_synchronized: every pair of frequencies is at most 1 Hz apart. */
  function Synchronized(rel: Relationship): (r: bool)
    ensures r <==> rel.valid && Abs(rel.aFreq - rel.bFreq) <= 1 && Abs(rel.bFreq - rel.cFreq) <= 1
                   && Abs(rel.aFreq - rel.cFreq) <= 1
  {
    if !rel.valid then false
    else
      var maxAB := if rel.aFreq > rel.bFreq then rel.aFreq else rel.bFreq;
      var maxFreq := if maxAB > rel.cFreq then maxAB else rel.cFreq;
      var minAB := if rel.aFreq < rel.bFreq then rel.aFreq else rel.bFreq;
      var minFreq := if minAB < rel.cFreq then minAB else rel.cFreq;
      maxFreq - minFreq <= 1
  }

  /**
   * pc814_threephase_get_imbalance: the mean deviation of the three angles
   * from 120 degrees, as a percentage of 120; -1 for an invalid relationship.
   */
  function Imbalance(rel: Relationship): (r: real)
    ensures !rel.valid ==> r == -1.0
    ensures rel.valid ==> (r == 0.0 <==> rel.abAngle == 120.0 && rel.bcAngle == 120.0 && rel.caAngle == 120.0)
    ensures rel.valid && AnglesInRange(rel) ==> 0.0 <= r < 200.0
  {
    if !rel.valid then -1.0
    else
      var avgDev := (AbsReal(rel.abAngle - 120.0) + AbsReal(rel.bcAngle - 120.0) + AbsReal(rel.caAngle - 120.0)) / 3.0;
      (avgDev / 120.0) * 100.0
  }

  /** Synchronisation allows a 1 Hz spread and no more; 10 degrees of mean deviation are 50/9 percent. */
  lemma MeasureExamples()
    ensures Synchronized(ZeroRelationship.(aFreq := 50, bFreq := 50, cFreq := 51, valid := true))
    ensures !Synchronized(ZeroRelationship.(aFreq := 50, bFreq := 50, cFreq := 52, valid := true))
    ensures !Synchronized(ZeroRelationship.(aFreq := 50, bFreq := 50, cFreq := 50))
    ensures Imbalance(WithAngles(130.0, 120.0, 110.0)) == 50.0 / 9.0
    ensures Imbalance(WithAngles(0.0, 0.0, 0.0)) == 100.0
    ensures Imbalance(WithAngles(300.0, 300.0, 300.0)) == 150.0
  {
  }

  /** pc814_threephase_t; the three channel handles are replaced by the snapshots given to Process. */
  class ThreePhaseSystem {
    var sequence: Sequence
    var relationship: Relationship
    var lastUpdateTime: u32
    var sequenceTolerance: real
    var initialized: bool

    /**
     * Angles stay in [0, 360), the tolerance in [0, 30], and once initialised
     * the relationship is valid exactly when a sequence has been decided.
     */
    ghost predicate Valid()
      reads this
    {
      && AnglesInRange(relationship)
      && 0.0 <= sequenceTolerance <= 30.0
      && (initialized ==> sequenceTolerance > 0.0 && (relationship.valid <==> sequence != SequenceUnknown))
    }

    /** A zero-filled structure before pc814_threephase_init: its sequence field reads as ABC. */
    constructor ()
      ensures Valid() && !initialized
      ensures sequence == SequenceABC && relationship == ZeroRelationship
      ensures lastUpdateTime == 0 && sequenceTolerance == 0.0
    {
      sequence, relationship := SequenceABC, ZeroRelationship;
      lastUpdateTime, sequenceTolerance, initialized := 0, 0.0, false;
    }

    /** pc814_threephase_init */
    method Init()
      modifies this
      ensures Valid() && initialized
      ensures sequence == SequenceUnknown && relationship == ZeroRelationship
      ensures lastUpdateTime == 0 && sequenceTolerance == DefaultSequenceTolerance
    {
      sequence, relationship := SequenceUnknown, ZeroRelationship;
      lastUpdateTime, sequenceTolerance, initialized := 0, DefaultSequenceTolerance, true;
    }

    /**
     * pc814_threephase_process. `a`, `b` and `c` are what pc814_read_data gives
     * for the three channels (None: the read failed). The angles are those of
     * calculate_phase_angle as written (RelateAsWritten). The sequence is detected
     * while the relationship still carries its old validity flag, so the first
     * success after init or reset always stores Error.
     */
    method Process(a: Option<Data>, b: Option<Data>, c: Option<Data>) returns (s: Status)
      requires Valid()
      modifies this`sequence, this`relationship, this`lastUpdateTime
      ensures Valid()
      ensures s == Ok || s == Error
      ensures s == Ok <==> initialized && Usable(a) && Usable(b) && Usable(c)
      ensures s == Error ==> unchanged(this)
      ensures s == Ok ==>
                && relationship == RelateAsWritten(a.value, b.value, c.value)
                && sequence == DetectSequence(relationship.(valid := old(relationship.valid)), sequenceTolerance)
                && lastUpdateTime == a.value.timestampUs
      ensures s == Ok && !old(relationship.valid) ==> sequence == SequenceError
      ensures s == Ok && old(relationship.valid) ==> sequence == GetDetectedSequence()
      ensures s == Ok && old(relationship.valid) ==>
                (sequence == SequenceABC <==>
                   IsAngle120(relationship.abAngle, sequenceTolerance)
                   && IsAngle120(relationship.bcAngle, sequenceTolerance)
                   && IsAngle120(relationship.caAngle, sequenceTolerance))
    {
      if !initialized {
        return Error;
      }
      if !Usable(a) || !Usable(b) || !Usable(c) {
        return Error;
      }
      var rel := RelateAsWritten(a.value, b.value, c.value);
      var detected := DetectSequence(rel.(valid := relationship.valid), sequenceTolerance);
      relationship, sequence, lastUpdateTime := rel, detected, a.value.timestampUs;
      s := Ok;
    }

    /** pc814_threephase_reset: forgets the relationship and the sequence; the tolerance stays. */
    method Reset()
      requires Valid()
      modifies this`sequence, this`relationship
      ensures Valid()
      ensures sequence == SequenceUnknown && relationship == ZeroRelationship
    {
      sequence, relationship := SequenceUnknown, ZeroRelationship;
    }

    /** pc814_threephase_set_tolerance: only (0, 30] degrees is accepted. */
    method SetTolerance(tolerance: real)
      requires Valid()
      modifies this`sequenceTolerance
      ensures Valid()
      ensures 0.0 < tolerance <= 30.0 ==> sequenceTolerance == tolerance
      ensures !(0.0 < tolerance <= 30.0) ==> sequenceTolerance == old(sequenceTolerance)
    {
      if tolerance > 0.0 && tolerance <= 30.0 {
        sequenceTolerance := tolerance;
      }
    }

    /** pc814_threephase_detect_sequence on the current state. */
    function GetDetectedSequence(): Sequence
      reads this
    {
      DetectSequence(relationship, sequenceTolerance)
    }

    /** pc814_threephase_is_sequence_correct */
    function IsSequenceCorrect(): bool
      reads this
    {
      sequence == SequenceABC
    }

    /** pc814_threephase_get_phase_angle */
    function GetPhaseAngle(phase1: PhaseId, phase2: PhaseId): real
      reads this
    {
      PhaseAngleOf(relationship, phase1, phase2)
    }

    /** pc814_threephase_get_phase_frequency */
    function GetPhaseFrequency(phase: PhaseId): u32
      reads this
    {
      PhaseFrequencyOf(relationship, phase)
    }

    /** pc814_threephase_get_swap_recommendation */
    function GetSwapRecommendation(): (Status, Swaps)
      reads this
    {
      SwapRecommendation(relationship, sequence, sequenceTolerance)
    }

    /** pc814_threephase_get_correction_message */
    function GetCorrectionMessage(maxLen: u32): (Status, Option<string>)
      reads this
    {
      CorrectionMessage(relationship, sequence, sequenceTolerance, maxLen)
    }

    /** pc814_threephase_is_synchronized */
    function IsSynchronized(): bool
      reads this
    {
      Synchronized(relationship)
    }

    /** pc814_threephase_get_imbalance */
    function GetImbalance(): real
      reads this
    {
      Imbalance(relationship)
    }

    /**
     * Once initialised, the stored sequence reads correct only when a
     * relationship has been measured; without one, detection answers Error.
     */
    lemma SequenceCorrectNeedsMeasurement()
      requires Valid() && initialized
      ensures IsSequenceCorrect() ==> relationship.valid
      ensures !relationship.valid ==> !IsSequenceCorrect() && GetDetectedSequence() == SequenceError
    {
    }
  }
}

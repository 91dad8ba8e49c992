/**
 * The intake pivot's per-cycle closed-loop rule, shared by both intake subsystems: hold the
 * lower (extended) or upper (retracted) encoder target, with an arbitrary feedforward that
 * depends on the pivot angle. The angle in degrees is computed from the pivot encoder by
 * `PivotAngleAsWritten` (the getter as written; `PivotAngle` is the intended one); its cosine
 * is taken by a cosine function in degrees, a parameter constrained by `IsDegreeCosine`.
 */
module IntakePivot {
  import opened Wrappers
  import opened Numerics

  /** A command for the pivot motor controller. */
  datatype PivotCommand =
    | Position(target: real, feedForward: Option<real>)  // closed-loop encoder target
    | PercentOutput(output: real)                         // open loop

  const PIVOT_STEP: int := 50
  const INITIAL_UPPER_TARGET: real := 0.0
  const INITIAL_LOWER_TARGET: real := 2200.0
  /** Below this angle from vertical (degrees) the extended pivot is held without feedforward. */
  const FEEDFORWARD_FREE_ANGLE: real := 35.0
  const EXTENDED_FEEDFORWARD: real := -0.3
  const RETRACTED_FEEDFORWARD_GAIN: real := -0.05

  /** Encoder counts per turn of the pivot. */
  const COUNTS_PER_TURN: int := 7540

  /**
   * The angle getter as written: the encoder position divided by 7540 in `Int` arithmetic,
   * so the fraction of a turn is dropped before it is scaled to degrees.
   */
  function PivotAngleAsWritten(position: int): (angle: real)
    ensures WholeTurns(angle - 90.0)
    ensures 0 <= position ==> angle <= 90.0
    ensures position <= 0 ==> angle >= 90.0
  {
    WholeTurnsOfMultiple(-IntDiv(position, COUNTS_PER_TURN));
    90.0 - 360.0 * IntDiv(position, COUNTS_PER_TURN) as real
  }

  /** As written, the angle only changes every whole turn and is never under 90 degrees in size. */
  lemma AsWrittenAngleWholeTurns(position: int)
    ensures -COUNTS_PER_TURN < position < COUNTS_PER_TURN ==> PivotAngleAsWritten(position) == 90.0
    ensures Abs(PivotAngleAsWritten(position)) >= 90.0
  {
    var q := IntDiv(position, COUNTS_PER_TURN);
    assert q == 0 || q >= 1 || q <= -1;
  }

  /** Hence, as written, the extended hold never drops its feedforward. */
  lemma AsWrittenHoldAlwaysPushes(position: int, cos: real -> real, upper: real, lower: real)
    ensures HoldCommand(true, PivotAngleAsWritten(position), cos, upper, lower).feedForward
         == Some(EXTENDED_FEEDFORWARD)
  {
    AsWrittenAngleWholeTurns(position);
  }

  /** `d` degrees is a whole number of turns. */
  predicate WholeTurns(d: real)
  {
    (d / 360.0).Floor as real == d / 360.0
  }

  /**
   * What the robot's cosine of an angle in degrees promises here: 1 at 0 degrees, 0 at 90 degrees,
   * values in [-1, 1], and the same value for angles a whole number of turns apart.
   */
  ghost predicate IsDegreeCosine(cos: real -> real)
  {
    && cos(0.0) == 1.0
    && cos(90.0) == 0.0
    && (forall a :: -1.0 <= cos(a) <= 1.0)
    && (forall a, b :: WholeTurns(a - b) ==> cos(a) == cos(b))
  }

  /** As written, the retracted hold's cosine feedforward is always 0, wherever the pivot is. */
  lemma AsWrittenRetractedHoldIsFree(position: int, cos: real -> real, upper: real, lower: real)
    requires IsDegreeCosine(cos)
    ensures HoldCommand(false, PivotAngleAsWritten(position), cos, upper, lower).feedForward == Some(0.0)
  {
    var turns := -IntDiv(position, COUNTS_PER_TURN);
    var angle := PivotAngleAsWritten(position);
    assert angle - 90.0 == 360.0 * turns as real;
    WholeTurnsOfMultiple(turns);
    assert cos(angle) == cos(90.0);
  }

  /** A whole multiple of 360 degrees is a whole number of turns. */
  lemma WholeTurnsOfMultiple(turns: int)
    ensures WholeTurns(360.0 * turns as real)
  {
    assert 360.0 * turns as real / 360.0 == turns as real;
  }

  /**
   * An angle brought into (-180, 180] degrees by whole turns, as a rotation type that
   * normalizes its angle would hold it.
   */
  function NormalizedDegrees(a: real): (n: real)
    ensures -180.0 < n <= 180.0
    ensures WholeTurns(a - n)
  {
    var turns := ((180.0 - a) / 360.0).Floor;
    WholeTurnsOfMultiple(-turns);
    a + 360.0 * turns as real
  }

  /** Normalized, the getter as written reads 90 degrees at every position. */
  lemma NormalizedAsWrittenIsQuarterTurn(position: int)
    ensures NormalizedDegrees(PivotAngleAsWritten(position)) == 90.0
  {
    var q := IntDiv(position, COUNTS_PER_TURN);
    var a := PivotAngleAsWritten(position);
    assert (180.0 - a) / 360.0 == q as real + 0.25;
    assert ((180.0 - a) / 360.0).Floor == q;
  }

  /** The angle getter as evidently intended: 90 degrees less the turns the encoder has made. */
  function PivotAngle(position: int): (angle: real)
    ensures (90.0 - angle) * COUNTS_PER_TURN as real == 360.0 * position as real
    ensures position == 0 ==> angle == 90.0
  {
    90.0 - 360.0 * (position as real) / (COUNTS_PER_TURN as real)
  }

  /** Both getters give the same angle on whole turns. */
  lemma AnglesAgreeOnWholeTurns(turns: int)
    ensures PivotAngle(turns * COUNTS_PER_TURN) == PivotAngleAsWritten(turns * COUNTS_PER_TURN)
  {
    assert IntDiv(turns * COUNTS_PER_TURN, COUNTS_PER_TURN) == turns;
  }

  /** The angle falls by 360 degrees per turn: a higher position is a lower angle. */
  lemma PivotAngleDecreasing(p: int, q: int)
    requires p < q
    ensures PivotAngle(q) < PivotAngle(p)
  {
  }

  /** The extended hold goes without feedforward exactly for positions 1152 to 2618. */
  lemma FeedForwardFreePositions(position: int)
    ensures Abs(PivotAngle(position)) < FEEDFORWARD_FREE_ANGLE <==> 1152 <= position <= 2618
  {
  }

  /**
   * With the intended getter the retracted hold's feedforward does vary: a quarter turn
   * (1885 counts) reads 0 degrees, where the hold pushes with the full -0.05.
   */
  lemma RetractedHoldPushesAtQuarterTurn(cos: real -> real, upper: real, lower: real)
    requires IsDegreeCosine(cos)
    ensures PivotAngle(1885) == 0.0
    ensures HoldCommand(false, PivotAngle(1885), cos, upper, lower).feedForward == Some(RETRACTED_FEEDFORWARD_GAIN)
  {
  }

  /** In particular the extended target of 2200 counts is held without feedforward. */
  lemma ExtendedTargetHeldFree(cos: real -> real, upper: real, lower: real)
    ensures HoldCommand(true, PivotAngle(2200), cos, upper, lower).feedForward == None
  {
    FeedForwardFreePositions(2200);
  }

  /** The closed-loop gain slot selected for a pivot position: 1 when extended, 0 when retracted. */
  function ProfileSlot(extended: bool): (slot: nat)
    ensures slot == 1 <==> extended
    ensures slot == 0 <==> !extended
  {
    if extended then 1 else 0
  }

  /**
   * The position hold: extended holds the lower target, with no feedforward while the angle is
   * within 35 degrees and -0.3 beyond; retracted holds the upper target with `-0.05` times the cosine of that same angle.
   */
  function HoldCommand(extended: bool, angleDegrees: real, cos: real -> real, upper: real, lower: real): (c: PivotCommand)
    ensures c.Position?
    ensures extended ==> c.target == lower
    ensures extended ==> (c.feedForward.None? <==> Abs(angleDegrees) < FEEDFORWARD_FREE_ANGLE)
    ensures extended && c.feedForward.Some? ==> c.feedForward.value == EXTENDED_FEEDFORWARD
    ensures !extended ==> c.target == upper && c.feedForward == Some(RETRACTED_FEEDFORWARD_GAIN * cos(angleDegrees))
  {
    if extended then
      if Abs(angleDegrees) < FEEDFORWARD_FREE_ANGLE then Position(lower, None)
      else Position(lower, Some(EXTENDED_FEEDFORWARD))
    else Position(upper, Some(RETRACTED_FEEDFORWARD_GAIN * cos(angleDegrees)))
  }

  /** Whatever the angle, the hold's feedforward never exceeds 0.3 of the bus voltage. */
  lemma HoldFeedForwardBounded(extended: bool, angleDegrees: real, cos: real -> real, upper: real, lower: real)
    requires IsDegreeCosine(cos)
    ensures var c := HoldCommand(extended, angleDegrees, cos, upper, lower);
      c.feedForward.Some? ==> Abs(c.feedForward.value) <= 0.3
    ensures !extended ==> Abs(HoldCommand(extended, angleDegrees, cos, upper, lower).feedForward.value) <= 0.05
  {
    if !extended {
      var c := cos(angleDegrees);
      assert -1.0 <= c <= 1.0;
      assert Abs(RETRACTED_FEEDFORWARD_GAIN * c) == 0.05 * Abs(c);
    }
  }
}

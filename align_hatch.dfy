/**
 * The hatch-slide alignment command, run every cycle: under manual control the operator's
 * speed drives the slide; otherwise, with the pivot extended, under 50 degrees and its
 * velocity below 50 (a signed test), the slide is sent to the vision target's sideways offset
 * shifted 6 in into the slide's frame, but only when that lies on the slide's 0 to 11 in travel.
 */
module AlignHatch {
  import opened Wrappers
  import opened Units
  import opened Actuators
  import opened PivotIntake
  import opened IntakePivot
  import Numerics

  const SLIDE_OFFSET: Length := Inches(6.0)
  const SLIDE_MIN_INCHES: real := 0.0
  const SLIDE_MAX_INCHES: real := 11.0
  const MAX_ALIGN_ANGLE_DEGREES: real := 50.0
  const MAX_ALIGN_PIVOT_VELOCITY: real := 50.0

  /** The pivot is down and settled enough to trust vision. */
  predicate PivotReady(pivotState: PivotPosition, angleDegrees: real, pivotVelocity: real)
  {
    pivotState == Extended && angleDegrees < MAX_ALIGN_ANGLE_DEGREES && pivotVelocity < MAX_ALIGN_PIVOT_VELOCITY
  }

  /** The slide command of one cycle, if any. */
  function Execute(
    sliderOperatorControl: bool, slideSpeed: real,
    pivotState: PivotPosition, angleDegrees: real, pivotVelocity: real,
    targetX: Option<Length>): (command: Option<SrxCommand>)
    ensures sliderOperatorControl ==> command == Some(DutyCycle(slideSpeed))
    ensures !sliderOperatorControl && !PivotReady(pivotState, angleDegrees, pivotVelocity) ==> command == None
    ensures !sliderOperatorControl && targetX.None? ==> command == None
    ensures !sliderOperatorControl && command.Some? ==>
      && PivotReady(pivotState, angleDegrees, pivotVelocity)
      && targetX.Some?
      && command.value.PositionSetpoint?
      && InchesOf(command.value.target) == InchesOf(targetX.value) + 6.0
      && SLIDE_MIN_INCHES <= InchesOf(command.value.target) <= SLIDE_MAX_INCHES
    ensures (!sliderOperatorControl && PivotReady(pivotState, angleDegrees, pivotVelocity) && targetX.Some?
      && SLIDE_MIN_INCHES <= InchesOf(targetX.value) + 6.0 <= SLIDE_MAX_INCHES) ==> command.Some?
  {
    if sliderOperatorControl then Some(DutyCycle(slideSpeed))
    else if PivotReady(pivotState, angleDegrees, pivotVelocity) then
      match targetX
      case None => None
      case Some(dist) =>
        var transformedDist := Plus(dist, SLIDE_OFFSET);
        if SLIDE_MIN_INCHES <= InchesOf(transformedDist) <= SLIDE_MAX_INCHES then Some(PositionSetpoint(transformedDist))
        else None
    else None
  }

  /** Under manual control the pivot and the vision target have no influence. */
  lemma ManualIgnoresVision(
    slideSpeed: real,
    pivotState: PivotPosition, angleDegrees: real, pivotVelocity: real, targetX: Option<Length>,
    otherState: PivotPosition, otherAngle: real, otherVelocity: real, otherTargetX: Option<Length>)
    ensures Execute(true, slideSpeed, pivotState, angleDegrees, pivotVelocity, targetX)
         == Execute(true, slideSpeed, otherState, otherAngle, otherVelocity, otherTargetX)
  {
  }

  /** The target offsets that get commanded are exactly those from -6 in to 5 in. */
  lemma CommandedOffsets(targetX: Length)
    ensures Execute(false, 0.0, Extended, 0.0, 0.0, Some(targetX)).Some?
        <==> -6.0 <= InchesOf(targetX) <= 5.0
  {
  }

  /**
   * As written the angle getter drops the fraction of a turn, so the angle test passes only
   * from a whole turn (7540 counts) on.
   */
  lemma AsWrittenReadyFromWholeTurn(pivotState: PivotPosition, position: int, pivotVelocity: real)
    ensures PivotReady(pivotState, PivotAngleAsWritten(position), pivotVelocity)
        <==> pivotState == Extended && position >= COUNTS_PER_TURN && pivotVelocity < MAX_ALIGN_PIVOT_VELOCITY
  {
    var q := Numerics.IntDiv(position, COUNTS_PER_TURN);
    assert q >= 1 <==> position >= COUNTS_PER_TURN;
  }

  /**
   * If the rotation type normalizes the as-written angle into (-180, 180] degrees, it reads
   * 90 degrees and the alignment never starts.
   */
  lemma NormalizedAsWrittenNeverReady(pivotState: PivotPosition, position: int, pivotVelocity: real)
    ensures !PivotReady(pivotState, NormalizedDegrees(PivotAngleAsWritten(position)), pivotVelocity)
  {
    NormalizedAsWrittenIsQuarterTurn(position);
  }

  /** With the intended getter the pivot is low enough from 838 counts on. */
  lemma ReadyFromPosition(pivotState: PivotPosition, position: int, pivotVelocity: real)
    ensures PivotReady(pivotState, PivotAngle(position), pivotVelocity)
        <==> pivotState == Extended && position >= 838 && pivotVelocity < MAX_ALIGN_PIVOT_VELOCITY
  {
  }
}

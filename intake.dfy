/**
 * The combined intake subsystem: roller, pivot and slide on one object. Assigning the pivot
 * position reselects the pivot's gain slot; each cycle the pivot holds its target unless the
 * operator has the intake in overdrive, in which case no pivot command is sent at all.
 */
module PivotIntake {
  import opened Wrappers
  import opened Units
  import opened Actuators
  import opened IntakePivot

  datatype PivotPosition = Extended | Retracted

  class Intake {
    var overdrive: bool
    var upperTarget: real
    var lowerTarget: real
    var pivotState: PivotPosition
    /** The last gain slot selected on the pivot controller, none before the first assignment. */
    var selectedSlot: Option<nat>

    constructor ()
      ensures !overdrive && pivotState == Retracted && selectedSlot == None
      ensures upperTarget == INITIAL_UPPER_TARGET && lowerTarget == INITIAL_LOWER_TARGET
    {
      overdrive := false;
      upperTarget := INITIAL_UPPER_TARGET;
      lowerTarget := INITIAL_LOWER_TARGET;
      pivotState := Retracted;
      selectedSlot := None;
    }

    /** Every assignment of the pivot position notifies the observer, which selects the slot. */
    method SetPivotState(position: PivotPosition)
      modifies this
      ensures pivotState == position && selectedSlot == Some(ProfileSlot(position == Extended))
      ensures overdrive == old(overdrive)
      ensures upperTarget == old(upperTarget) && lowerTarget == old(lowerTarget)
    {
      pivotState := position;
      match position
      case Extended => selectedSlot := Some(1);
      case Retracted => selectedSlot := Some(0);
    }

    method SetOverdrive(value: bool)
      modifies this
      ensures overdrive == value
      ensures pivotState == old(pivotState) && selectedSlot == old(selectedSlot)
      ensures upperTarget == old(upperTarget) && lowerTarget == old(lowerTarget)
    {
      overdrive := value;
    }

    /**
     * One cycle's pivot command: nothing in overdrive, otherwise the position hold.
     * `angleDegrees` is the angle getter's reading of the encoder (modelled by
     * `PivotAngleAsWritten`; `PivotAngle` is the intended getter), and `cos` is the cosine
     * in degrees that the retracted hold applies to that same reading.
     */
    method Periodic(angleDegrees: real, cos: real -> real) returns (pivot: Option<PivotCommand>)
      ensures pivot.None? <==> overdrive
      ensures pivot.Some? ==>
        pivot.value == HoldCommand(pivotState == Extended, angleDegrees, cos, upperTarget, lowerTarget)
    {
      pivot := None;
      if !overdrive {
        match pivotState
        case Retracted =>
          pivot := Some(Position(upperTarget, Some(RETRACTED_FEEDFORWARD_GAIN * cos(angleDegrees))));
        case Extended =>
          if Numerics.Abs(angleDegrees) < FEEDFORWARD_FREE_ANGLE {
            pivot := Some(Position(lowerTarget, None));
          } else {
            pivot := Some(Position(lowerTarget, Some(EXTENDED_FEEDFORWARD)));
          }
      }
    }

    /** The roller's percent output. */
    method Set(speed: real) returns (roller: real)
      ensures roller == speed
    {
      roller := speed;
    }

    /** Assigning the slide position issues a closed-loop slide command to that length. */
    method SetSlidePosition(value: Length) returns (slide: SrxCommand)
      ensures slide.PositionSetpoint? && slide.target == value
    {
      slide := PositionSetpoint(value);
    }

    /** Manual slide control issues an open-loop slide command. */
    method SetSlide(speed: real) returns (slide: SrxCommand)
      ensures slide.DutyCycle? && slide.output == speed
    {
      slide := DutyCycle(speed);
    }
  }

  /** Extending during overdrive changes the slot, but the pivot stays uncommanded. */
  method ExtendInOverdrive(angleDegrees: real, cos: real -> real) returns (slot: Option<nat>, pivot: Option<PivotCommand>)
    ensures slot == Some(1) && pivot == None
  {
    var intake := new Intake();
    intake.SetOverdrive(true);
    intake.SetPivotState(Extended);
    slot := intake.selectedSlot;
    pivot := intake.Periodic(angleDegrees, cos);
  }

  /**
   * A fresh intake, its encoder zeroed at start-up, reads 90 degrees and so holds the upper
   * target 0 with a cosine feedforward of 0.
   */
  method FirstCycleHoldsRetracted(cos: real -> real) returns (pivot: Option<PivotCommand>)
    requires IsDegreeCosine(cos)
    ensures pivot == Some(Position(0.0, Some(0.0)))
  {
    var intake := new Intake();
    assert PivotAngleAsWritten(0) == 90.0;
    pivot := intake.Periodic(PivotAngleAsWritten(0), cos);
  }
}

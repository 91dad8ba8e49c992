/**
 * The intake subsystem of the split design: a roller and an angled pivot. Setters store the
 * operator's demands; each cycle the pivot either runs open loop (overdrive) or holds its
 * position target, and the roller always gets its stored speed.
 */
module SplitIntake {
  import opened Wrappers
  import opened IntakePivot

  class Intake {
    var intakeSpeed: real
    var pivotSpeed: real
    var pivotExtended: bool
    var intakeOverdrive: bool
    var upperTarget: real
    var lowerTarget: real
    /** The last gain slot selected on the pivot controller, none before the first selection. */
    var selectedSlot: Option<nat>

    constructor ()
      ensures intakeSpeed == 0.0 && pivotSpeed == 0.0
      ensures !pivotExtended && !intakeOverdrive
      ensures upperTarget == INITIAL_UPPER_TARGET && lowerTarget == INITIAL_LOWER_TARGET
      ensures selectedSlot == None
    {
      intakeSpeed := 0.0;
      pivotSpeed := 0.0;
      pivotExtended := false;
      intakeOverdrive := false;
      upperTarget := INITIAL_UPPER_TARGET;
      lowerTarget := INITIAL_LOWER_TARGET;
      selectedSlot := None;
    }

    function Extended(): bool
      reads this
    {
      pivotExtended
    }

    /** Assigning `extended` selects the matching gain slot and stores the flag. */
    method SetExtended(value: bool)
      modifies this
      ensures Extended() == value && selectedSlot == Some(ProfileSlot(value))
      ensures intakeSpeed == old(intakeSpeed) && pivotSpeed == old(pivotSpeed)
      ensures intakeOverdrive == old(intakeOverdrive)
      ensures upperTarget == old(upperTarget) && lowerTarget == old(lowerTarget)
    {
      if value {
        selectedSlot := Some(1);
      } else {
        selectedSlot := Some(0);
      }
      pivotExtended := value;
    }

    method SetIntakeOverdrive(overdrive: bool)
      modifies this
      ensures intakeOverdrive == overdrive
      ensures intakeSpeed == old(intakeSpeed) && pivotSpeed == old(pivotSpeed)
      ensures pivotExtended == old(pivotExtended) && selectedSlot == old(selectedSlot)
      ensures upperTarget == old(upperTarget) && lowerTarget == old(lowerTarget)
    {
      intakeOverdrive := overdrive;
    }

    method SetDutyCycle(speed: real)
      modifies this
      ensures intakeSpeed == speed
      ensures pivotSpeed == old(pivotSpeed) && intakeOverdrive == old(intakeOverdrive)
      ensures pivotExtended == old(pivotExtended) && selectedSlot == old(selectedSlot)
      ensures upperTarget == old(upperTarget) && lowerTarget == old(lowerTarget)
    {
      intakeSpeed := speed;
    }

    method SetPivotDutyCycle(value: real)
      modifies this
      ensures pivotSpeed == value
      ensures intakeSpeed == old(intakeSpeed) && intakeOverdrive == old(intakeOverdrive)
      ensures pivotExtended == old(pivotExtended) && selectedSlot == old(selectedSlot)
      ensures upperTarget == old(upperTarget) && lowerTarget == old(lowerTarget)
    {
      pivotSpeed := value;
    }

    /**
     * One cycle: the pivot command and the roller's percent output. In overdrive the pivot runs
     * open loop at the stored pivot speed; otherwise it holds its target. `angleDegrees` is
     * the angle getter's reading of the encoder (modelled by `PivotAngleAsWritten`;
     * `PivotAngle` is the intended getter), and `cos` is the cosine in degrees that the
     * retracted hold applies to that same reading.
     */
    method Periodic(angleDegrees: real, cos: real -> real) returns (pivot: PivotCommand, roller: real)
      ensures intakeOverdrive <==> pivot.PercentOutput?
      ensures intakeOverdrive ==> pivot.output == pivotSpeed
      ensures !intakeOverdrive ==>
        pivot == HoldCommand(pivotExtended, angleDegrees, cos, upperTarget, lowerTarget)
      ensures roller == intakeSpeed
    {
      if !intakeOverdrive {
        if pivotExtended {
          if Numerics.Abs(angleDegrees) < FEEDFORWARD_FREE_ANGLE {
            pivot := Position(lowerTarget, None);
          } else {
            pivot := Position(lowerTarget, Some(EXTENDED_FEEDFORWARD));
          }
        } else {
          pivot := Position(upperTarget, Some(RETRACTED_FEEDFORWARD_GAIN * cos(angleDegrees)));
        }
      } else {
        pivot := PercentOutput(pivotSpeed);
      }
      roller := intakeSpeed;
    }
  }

  /** The roller speed set last is what every later cycle sends, overdrive or not. */
  method RollerFollowsLastSetting(first: real, second: real, overdrive: bool, extended: bool, angleDegrees: real, cos: real -> real)
    returns (roller: real)
    ensures roller == second
  {
    var intake := new Intake();
    intake.SetDutyCycle(first);
    intake.SetIntakeOverdrive(overdrive);
    intake.SetExtended(extended);
    intake.SetDutyCycle(second);
    var pivot;
    pivot, roller := intake.Periodic(angleDegrees, cos);
  }
}

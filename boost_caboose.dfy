/**
 * The climber ("boost caboose"): a lift motor driven open loop at a stored demand, and a
 * double-acting piston on a solenoid that the operator sets or toggles. `pistonState` is the
 * subsystem's own record of whether the piston is commanded forward.
 */
module Climber {

  datatype SolenoidValue = Off | Forward | Reverse

  /** The direction a toggle commands: forward from off or reverse, reverse from forward. */
  function Toggled(current: SolenoidValue): (next: SolenoidValue)
    ensures next == Forward <==> current != Forward
    ensures next != Off
  {
    match current
    case Off => Forward
    case Reverse => Forward
    case Forward => Reverse
  }

  class BoostCaboose {
    var demand: real
    var pistonState: bool
    /** The value last commanded to the solenoid, which is what reading it back returns. */
    var solenoid: SolenoidValue

    /** The record says "forward" exactly when the solenoid is commanded forward. */
    ghost predicate PistonTracksSolenoid()
      reads this
    {
      pistonState == (solenoid == Forward)
    }

    constructor ()
      ensures demand == 0.0 && !pistonState && solenoid == Off
      ensures PistonTracksSolenoid()
    {
      demand := 0.0;
      pistonState := false;
      solenoid := Off;
    }

    /** `set(percent)`: stores the lift demand only. */
    method SetDemand(percent: real)
      modifies this
      ensures demand == percent
      ensures pistonState == old(pistonState) && solenoid == old(solenoid)
    {
      demand := percent;
    }

    /** `set(dir)`: records whether the piston goes forward and commands the solenoid. */
    method SetDirection(dir: SolenoidValue)
      modifies this
      ensures pistonState == (dir == Forward) && solenoid == dir
      ensures PistonTracksSolenoid()
      ensures demand == old(demand)
    {
      pistonState := dir == Forward;
      solenoid := dir;
    }

    /**
     * `toggle` as written: commands the toggled direction through `set(dir)`, which already
     * records it, and then negates the record once more.
     */
    method Toggle()
      modifies this
      ensures solenoid == Toggled(old(solenoid))
      ensures pistonState == (solenoid != Forward)
      ensures !PistonTracksSolenoid()
      ensures demand == old(demand)
    {
      match solenoid {
        case Off => SetDirection(Forward);
        case Reverse => SetDirection(Forward);
        case Forward => SetDirection(Reverse);
      }
      pistonState := !pistonState;
    }

    /** `toggle` as evidently intended: the record from `set(dir)` is kept. */
    method ToggleTracked()
      modifies this
      ensures solenoid == Toggled(old(solenoid))
      ensures PistonTracksSolenoid()
      ensures old(PistonTracksSolenoid()) && old(solenoid) != Off ==> pistonState == !old(pistonState)
      ensures demand == old(demand)
    {
      match solenoid {
        case Off => SetDirection(Forward);
        case Reverse => SetDirection(Forward);
        case Forward => SetDirection(Reverse);
      }
    }

    /** One cycle: the lift motor's duty cycle, the stored demand. */
    method Periodic() returns (lift: real)
      ensures lift == demand
    {
      lift := demand;
    }
  }

  /** The first toggle after start-up drives the piston forward but records it as not forward. */
  method ToggleAfterStartup() returns (solenoid: SolenoidValue, piston: bool)
    ensures solenoid == Forward && !piston
  {
    var climber := new BoostCaboose();
    climber.Toggle();
    solenoid, piston := climber.solenoid, climber.pistonState;
  }

  /** With the corrected toggle, two toggles from start-up end reversed and recorded so. */
  method TrackedToggleTwice() returns (solenoid: SolenoidValue, piston: bool)
    ensures solenoid == Reverse && !piston
  {
    var climber := new BoostCaboose();
    climber.ToggleTracked();
    climber.ToggleTracked();
    solenoid, piston := climber.solenoid, climber.pistonState;
  }
}

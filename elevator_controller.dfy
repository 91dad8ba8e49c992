/**
 * The elevator's state-space control wrapper: it holds the last control output `u` (one
 * voltage), the reference `r` (position, velocity) and the measurement `y` (position,
 * velocity), all in SI units. Each update optionally samples the motion profile into the
 * reference and hands the raw measurement and the reference to the controller. The observer's
 * estimate is kept but never stepped: its correct and predict calls are disabled.
 */
module Elevator {
  import opened Wrappers
  import opened Units

  /** One sample of the trapezoidal profile: position in m and velocity in m/s. */
  datatype ProfileState = ProfileState(x: real, v: real)

  /** The controller's law: the next output voltage from the measurement and the reference. */
  type ControlLaw = (seq<real>, seq<real>) -> real

  class ElevatorController {
    var u: seq<real>
    var reference: seq<real>
    var y: seq<real>
    /** The observer's state estimate (position, velocity). */
    var xHat: seq<real>
    /** The profile as a function of the match time in seconds. */
    var motionProfile: Option<real -> ProfileState>

    ghost predicate Valid()
      reads this
    {
      |u| == 1 && |reference| == 2 && |y| == 2 && |xHat| == 2
    }

    constructor (estimate: seq<real>)
      requires |estimate| == 2
      ensures Valid()
      ensures u == [0.0] && reference == [0.0, 0.0] && y == [0.0, 0.0]
      ensures xHat == estimate && motionProfile == None
    {
      u := [0.0];
      reference := [0.0, 0.0];
      y := [0.0, 0.0];
      xHat := estimate;
      motionProfile := None;
    }

    function Voltage(): real
      reads this
      requires Valid()
    {
      u[0]
    }

    function Position(): Length
      reads this
      requires Valid()
    {
      Length(xHat[0])
    }

    function Velocity(): Velocity
      reads this
      requires Valid()
    {
      Units.Velocity(xHat[1])
    }

    function MeasuredPosition(): Length
      reads this
      requires Valid()
    {
      Length(y[0])
    }

    function MeasuredVelocity(): Velocity
      reads this
      requires Valid()
    {
      Units.Velocity(y[1])
    }

    /** Writes the measured position; the measured velocity is untouched. */
    method SetMeasuredPosition(value: Length)
      requires Valid()
      modifies this
      ensures Valid()
      ensures MeasuredPosition() == value && MeasuredVelocity() == old(MeasuredVelocity())
      ensures u == old(u) && reference == old(reference) && xHat == old(xHat)
      ensures motionProfile == old(motionProfile)
    {
      y := y[0 := value.meters];
    }

    /** Writes the measured velocity; the measured position is untouched. */
    method SetMeasuredVelocity(value: Velocity)
      requires Valid()
      modifies this
      ensures Valid()
      ensures MeasuredVelocity() == value && MeasuredPosition() == old(MeasuredPosition())
      ensures u == old(u) && reference == old(reference) && xHat == old(xHat)
      ensures motionProfile == old(motionProfile)
    {
      y := y[1 := value.metersPerSecond];
    }

    method SetMotionProfile(profile: Option<real -> ProfileState>)
      requires Valid()
      modifies this
      ensures Valid()
      ensures motionProfile == profile
      ensures u == old(u) && reference == old(reference) && y == old(y) && xHat == old(xHat)
    {
      motionProfile := profile;
    }

    /**
     * One control step at match time `now`: without a profile the reference stays as it was;
     * with one it becomes the profile's sample. The controller sees the raw measurement.
     */
    method Update(now: real, law: ControlLaw)
      requires Valid()
      modifies this
      ensures Valid()
      ensures old(motionProfile).None? ==> reference == old(reference)
      ensures old(motionProfile).Some? ==>
        reference == [old(motionProfile).value(now).x, old(motionProfile).value(now).v]
      ensures u == [law(old(y), reference)]
      ensures y == old(y) && xHat == old(xHat) && motionProfile == old(motionProfile)
      ensures Position() == old(Position()) && Velocity() == old(Velocity())
    {
      if motionProfile.Some? {
        var data := motionProfile.value(now);
        reference := [data.x, data.v];
      }
      u := [law(y, reference)];
    }
  }

  /**
   * A fresh controller given one measurement and no profile drives toward the zero
   * reference: the voltage is the law applied to the raw measurement and (0, 0).
   */
  method FirstVoltage(estimate: seq<real>, position: Length, velocity: Velocity, now: real, law: ControlLaw)
    returns (voltage: real)
    requires |estimate| == 2
    ensures voltage == law([position.meters, velocity.metersPerSecond], [0.0, 0.0])
  {
    var c := new ElevatorController(estimate);
    c.SetMeasuredPosition(position);
    c.SetMeasuredVelocity(velocity);
    c.Update(now, law);
    assert c.y == [position.meters, velocity.metersPerSecond];
    voltage := c.Voltage();
  }

  /** With a profile, the reference after an update depends only on the profile and the time. */
  method ProfileSetsReference(estimate: seq<real>, profile: real -> ProfileState, now: real, law: ControlLaw)
    returns (position: real, velocity: real)
    requires |estimate| == 2
    ensures position == profile(now).x && velocity == profile(now).v
  {
    var c := new ElevatorController(estimate);
    c.SetMotionProfile(Some(profile));
    c.Update(now, law);
    position, velocity := c.reference[0], c.reference[1];
  }
}

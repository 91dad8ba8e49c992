/**
 * The shared step of the trajectory-following commands: turn the follower's chassis state
 * (linear and angular velocity) into left and right wheel velocities for a differential drive,
 * plus an arbitrary feedforward per side made of a static-friction term and, once a previous
 * wheel state is remembered, an acceleration term.
 */
module PathKinematics {
  import opened Wrappers
  import opened Numerics
  import opened Units

  /** Linear velocity in m/s and angular velocity in rad/s. */
  datatype ChassisState = ChassisState(linear: real, angular: real)

  /** Left and right wheel velocities in m/s. */
  datatype WheelState = WheelState(left: real, right: real)

  datatype MotorCommands = MotorCommands(leftVel: Velocity, rightVel: Velocity, leftAff: real, rightAff: real)

  const DRIVETRAIN_WHEELBASE: Length := Feet(3.9)
  const DT_LEFT_KA: real := 0.02
  const DT_RIGHT_KA: real := 0.027
  const DT_LEFT_KS: real := 0.091
  const DT_RIGHT_KS: real := 0.089

  /** The wheel speeds whose mean is the linear velocity and whose difference is the turn. */
  function InverseKinematics(state: ChassisState, wheelBase: Length): (w: WheelState)
    ensures (w.left + w.right) / 2.0 == state.linear
    ensures w.right - w.left == wheelBase.meters * state.angular
    ensures state.angular == 0.0 ==> w.left == w.right == state.linear
  {
    var left := (-wheelBase.meters * state.angular + 2.0 * state.linear) / 2.0;
    var right := (wheelBase.meters * state.angular + 2.0 * state.linear) / 2.0;
    WheelState(left, right)
  }

  /** The reverse map: the chassis motion that a pair of wheel speeds produces. */
  function ForwardKinematics(w: WheelState, wheelBase: Length): ChassisState
    requires wheelBase.meters != 0.0
  {
    ChassisState((w.left + w.right) / 2.0, (w.right - w.left) / wheelBase.meters)
  }

  lemma ForwardInverse(state: ChassisState, wheelBase: Length)
    requires wheelBase.meters != 0.0
    ensures ForwardKinematics(InverseKinematics(state, wheelBase), wheelBase) == state
  {
    var w := InverseKinematics(state, wheelBase);
    assert (w.right - w.left) / wheelBase.meters == state.angular;
  }

  lemma InverseForward(w: WheelState, wheelBase: Length)
    requires wheelBase.meters != 0.0
    ensures InverseKinematics(ForwardKinematics(w, wheelBase), wheelBase) == w
  {
    var state := ForwardKinematics(w, wheelBase);
    assert wheelBase.meters * state.angular == w.right - w.left;
  }

  /**
   * One side's feedforward: the static term `ks * sign(v)`, plus `ka` times the acceleration
   * from the previous speed over `dt` when there is a previous speed.
   */
  function Feedforward(ks: real, ka: real, v: real, previous: Option<real>, dt: real): (aff: real)
    requires previous.Some? ==> dt != 0.0
    ensures v == 0.0 && (previous.None? || previous.value == 0.0) ==> aff == 0.0
    ensures previous.None? || previous.value == v ==> aff * v == ks * Abs(v)
    ensures previous.Some? ==> (aff - ks * Sign(v)) * dt == ka * (v - previous.value)
  {
    var staticTerm := ks * Sign(v);
    if previous.None? then staticTerm else staticTerm + ka * ((v - previous.value) / dt)
  }

  class PathKinematicsHelper {
    /** The wheel state of the previous update, none before the first. */
    var lastState: Option<WheelState>

    constructor ()
      ensures lastState == None
    {
      lastState := None;
    }

    /**
     * Converts the follower's chassis state to wheel commands. `dt` is what the delta-time
     * helper returns when it is called, which happens only once a previous state exists: on
     * the second update it is measured from the helper's initial state, not from the first one.
     */
    method Update(state: ChassisState, dt: real) returns (c: MotorCommands)
      requires lastState.Some? ==> dt != 0.0
      modifies this
      ensures var w := InverseKinematics(state, DRIVETRAIN_WHEELBASE);
        && lastState == Some(w)
        && c.leftVel == FeetPerSecond(w.left) && c.rightVel == FeetPerSecond(w.right)
        && c.leftAff == Feedforward(DT_LEFT_KS, DT_LEFT_KA, w.left, if old(lastState).Some? then Some(old(lastState).value.left) else None, dt)
        && c.rightAff == Feedforward(DT_RIGHT_KS, DT_RIGHT_KA, w.right, if old(lastState).Some? then Some(old(lastState).value.right) else None, dt)
    {
      var wheelState := InverseKinematics(state, DRIVETRAIN_WHEELBASE);
      var leftAff := DT_LEFT_KS * Sign(wheelState.left);
      var rightAff := DT_RIGHT_KS * Sign(wheelState.right);
      if lastState.Some? {
        var accelLeft := (wheelState.left - lastState.value.left) / dt;
        var accelRight := (wheelState.right - lastState.value.right) / dt;
        leftAff := leftAff + DT_LEFT_KA * accelLeft;
        rightAff := rightAff + DT_RIGHT_KA * accelRight;
      }
      lastState := Some(wheelState);
      c := MotorCommands(FeetPerSecond(wheelState.left), FeetPerSecond(wheelState.right), leftAff, rightAff);
    }
  }

  /**
   * The first update after construction carries only the static-friction terms; a repeat of
   * the same chassis state adds no acceleration either.
   */
  method FirstThenRepeatedUpdate(state: ChassisState, dt: real) returns (first: MotorCommands, second: MotorCommands)
    requires dt != 0.0
    ensures var w := InverseKinematics(state, DRIVETRAIN_WHEELBASE);
      && first.leftAff == second.leftAff == DT_LEFT_KS * Sign(w.left)
      && first.rightAff == second.rightAff == DT_RIGHT_KS * Sign(w.right)
  {
    var helper := new PathKinematicsHelper();
    first := helper.Update(state, dt);
    second := helper.Update(state, dt);
  }

  /** The commanded velocities are the metre-per-second numbers re-read as feet per second. */
  lemma VelocityIsRereadAsFeet(state: ChassisState, w: WheelState, c: MotorCommands)
    requires w == InverseKinematics(state, DRIVETRAIN_WHEELBASE)
    requires c.leftVel == FeetPerSecond(w.left) && c.rightVel == FeetPerSecond(w.right)
    ensures c.leftVel.metersPerSecond == METERS_PER_FOOT * w.left
    ensures c.rightVel.metersPerSecond == METERS_PER_FOOT * w.right
    ensures c.leftVel.metersPerSecond + c.rightVel.metersPerSecond == 2.0 * METERS_PER_FOOT * state.linear
  {
    assert w.left + w.right == 2.0 * state.linear;
  }
}

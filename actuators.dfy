/**
 * Commands issued to the smart motor controllers that drive the elevator and the intake slide.
 * The model records a command instead of performing the hardware call.
 */
module Actuators {
  import opened Units

  datatype SrxCommand =
    | DutyCycle(output: real)           // open-loop percent output
    | PositionSetpoint(target: Length)  // closed-loop (motion-profiled) position
}

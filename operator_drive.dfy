/**
 * The drivetrain's teleoperated command, run every cycle: the operator's speed is halved while
 * the elevator is above half its travel, then sent through curvature drive (quick-turn when
 * standing still) and to the auxiliary gearbox, or only to the auxiliary gearbox.
 */
module OperatorDrive {
  import opened Units
  import opened ElevatorPositions

  datatype DriveCommand =
    | CurvatureDrive(speed: real, turn: real, quickTurn: bool)
    | SetAux(output: real)

  const SLOW_FACTOR: real := 0.5

  predicate ShouldSlow(elevatorPosition: Length)
  {
    elevatorPosition.meters > MAX_HEIGHT.meters / 2.0
  }

  /** The commands of one cycle, in the order they are issued. */
  function Execute(elevatorPosition: Length, driveSpeed: real, driveTurn: real, onlyAux: bool, usingAux: bool)
    : (commands: seq<DriveCommand>)
    ensures var speed := if ShouldSlow(elevatorPosition) then driveSpeed * SLOW_FACTOR else driveSpeed;
      && (onlyAux ==> commands == [SetAux(speed)])
      && (!onlyAux ==> |commands| == 2 && commands[0] == CurvatureDrive(speed, driveTurn, speed == 0.0))
      && (!onlyAux && usingAux ==> commands[1] == SetAux(speed))
      && (!onlyAux && !usingAux ==> commands[1] == SetAux(0.0))
  {
    var shouldSlow := ShouldSlow(elevatorPosition);
    var turn := driveTurn;
    var speed := if shouldSlow then driveSpeed * SLOW_FACTOR else driveSpeed;
    if !onlyAux then
      [CurvatureDrive(speed, turn, speed == 0.0)] + (if usingAux then [SetAux(speed)] else [SetAux(0.0)])
    else [SetAux(speed)]
  }

  /** The speed is halved exactly above 15.5 in, and the turn is never scaled. */
  lemma SlowAboveHalfHeight(elevatorPosition: Length, driveSpeed: real, driveTurn: real, usingAux: bool)
    requires driveSpeed != 0.0
    ensures var c := Execute(elevatorPosition, driveSpeed, driveTurn, false, usingAux)[0];
      && c.turn == driveTurn
      && (c.speed == driveSpeed / 2.0 <==> InchesOf(elevatorPosition) > 15.5)
      && (c.speed == driveSpeed <==> InchesOf(elevatorPosition) <= 15.5)
  {
    assert ShouldSlow(elevatorPosition) <==> InchesOf(elevatorPosition) > 15.5;
  }

  /** Curvature drive turns in place exactly when the (possibly halved) speed is zero. */
  lemma QuickTurnIffStopped(elevatorPosition: Length, driveSpeed: real, driveTurn: real, usingAux: bool)
    ensures Execute(elevatorPosition, driveSpeed, driveTurn, false, usingAux)[0].quickTurn <==> driveSpeed == 0.0
  {
  }
}

/**
 * The command that moves the elevator to a length: it sends one position set-point when it
 * starts and registers two finish conditions, "within 0.8 in of the target" and the constant
 * `instant` flag. The preset heights are those of the elevator's first stage.
 */
module ElevatorPositions {
  import opened Numerics
  import opened Units
  import opened Actuators

  const MAX_HEIGHT: Length := Inches(31.0)
  const TOLERANCE_INCHES: real := 0.8

  datatype Preset =
    | LowRocketCargoHatch
    | MidRocketCargoHatch
    | HighRocketCargoHatch
    | CargoShipHatch
    | PortalIntake
    | Minimum

  function PresetInches(p: Preset): real
  {
    match p
    case LowRocketCargoHatch => 3.73
    case MidRocketCargoHatch => 19.1
    case HighRocketCargoHatch => 30.4
    case CargoShipHatch => 1.5
    case PortalIntake => 2.4
    case Minimum => 1.1
  }

  function PresetLength(p: Preset): (l: Length)
    ensures InchesOf(l) == PresetInches(p)
  {
    Inches(PresetInches(p))
  }

  /** Every preset lies on the elevator's travel, the lowest at `Minimum`. */
  lemma PresetsWithinTravel(p: Preset)
    ensures InchesOf(PresetLength(Minimum)) <= InchesOf(PresetLength(p)) < InchesOf(MAX_HEIGHT)
    ensures 0.0 < PresetLength(p).meters < MAX_HEIGHT.meters
  {
    assert PresetLength(p).meters == PresetInches(p) * METERS_PER_INCH;
  }

  /** The rocket presets climb from low to mid to high. */
  lemma RocketPresetsOrdered()
    ensures PresetLength(LowRocketCargoHatch).meters < PresetLength(MidRocketCargoHatch).meters
    ensures PresetLength(MidRocketCargoHatch).meters < PresetLength(HighRocketCargoHatch).meters
  {
    assert PresetLength(LowRocketCargoHatch).meters == 3.73 * METERS_PER_INCH;
    assert PresetLength(MidRocketCargoHatch).meters == 19.1 * METERS_PER_INCH;
    assert PresetLength(HighRocketCargoHatch).meters == 30.4 * METERS_PER_INCH;
  }

  datatype SetElevatorPositionCommand = SetElevatorPositionCommand(position: Length, instant: bool)

  /** The preset form of the constructor: the length form applied to the preset's length. */
  function FromPreset(pos: Preset, instant: bool): (c: SetElevatorPositionCommand)
    ensures InchesOf(c.position) == PresetInches(pos) && c.instant == instant
  {
    SetElevatorPositionCommand(PresetLength(pos), instant)
  }

  /** The first finish condition: strictly within the tolerance of the target. */
  function AtTarget(elevatorPosition: Length, target: Length): (done: bool)
    ensures done <==> target.meters - TOLERANCE_INCHES * METERS_PER_INCH < elevatorPosition.meters < target.meters + TOLERANCE_INCHES * METERS_PER_INCH
  {
    Abs(InchesOf(Minus(elevatorPosition, target))) < TOLERANCE_INCHES
  }

  /** The registered finish conditions, in registration order, at this elevator position. */
  function FinishConditions(c: SetElevatorPositionCommand, elevatorPosition: Length): (conditions: seq<bool>)
    ensures |conditions| == 2
    ensures conditions[0] == AtTarget(elevatorPosition, c.position)
    ensures conditions[1] == c.instant
  {
    [AtTarget(elevatorPosition, c.position), c.instant]
  }

  /** An error of exactly the tolerance does not count as arrived. */
  lemma ToleranceIsStrict(target: Length)
    ensures !AtTarget(Plus(target, Inches(TOLERANCE_INCHES)), target)
    ensures !AtTarget(Minus(target, Inches(TOLERANCE_INCHES)), target)
  {
  }

  /** Starting the command issues exactly one position set-point, to the target. */
  function Initialize(c: SetElevatorPositionCommand): (commands: seq<SrxCommand>)
    ensures |commands| == 1 && commands[0].PositionSetpoint? && commands[0].target == c.position
  {
    [PositionSetpoint(c.position)]
  }
}

/**
 * The hatch slide as a two-level state machine: the setters record the wanted control mode and
 * a demand (a duty cycle, or a position in metres); each cycle sends the command matching the
 * wanted mode, if any, and then makes it the current mode.
 */
module Slide {
  import opened Wrappers
  import opened Units
  import opened Actuators

  datatype State = OpenLoop | MotionMagic | Nothing

  class SlideIntake {
    var currentState: State
    var wantedState: State
    var demand: real

    constructor ()
      ensures currentState == Nothing && wantedState == Nothing && demand == 0.0
    {
      currentState := Nothing;
      wantedState := Nothing;
      demand := 0.0;
    }

    method SetDutyCycle(dutyCycle: real)
      modifies this
      ensures wantedState == OpenLoop && demand == dutyCycle
      ensures currentState == old(currentState)
    {
      wantedState := OpenLoop;
      demand := dutyCycle;
    }

    method SetPosition(position: Length)
      modifies this
      ensures wantedState == MotionMagic && demand == position.meters
      ensures currentState == old(currentState)
    {
      wantedState := MotionMagic;
      demand := position.meters;
    }

    /** One cycle: the command for the wanted mode (none for `Nothing`), then current := wanted. */
    method Periodic() returns (command: Option<SrxCommand>)
      modifies this
      ensures command.None? <==> old(wantedState) == Nothing
      ensures old(wantedState) == OpenLoop ==> command == Some(DutyCycle(old(demand)))
      ensures old(wantedState) == MotionMagic ==> command == Some(PositionSetpoint(Length(old(demand))))
      ensures currentState == wantedState == old(wantedState) && demand == old(demand)
    {
      command := None;
      match wantedState {
        case OpenLoop =>
          command := Some(DutyCycle(demand));
        case MotionMagic =>
          command := Some(PositionSetpoint(Length(demand)));
        case Nothing =>
      }
      if currentState != wantedState {
        currentState := wantedState;
      }
    }
  }

  /** A position request survives until the next cycle, which commands exactly that length. */
  method PositionRoundTrip(position: Length) returns (command: Option<SrxCommand>, state: State)
    ensures command == Some(PositionSetpoint(position)) && state == MotionMagic
  {
    var slide := new SlideIntake();
    var idle := slide.Periodic();
    slide.SetPosition(position);
    command := slide.Periodic();
    state := slide.currentState;
  }

  /** Before any request, cycles send nothing and the mode stays `Nothing`. */
  method IdleUntilRequested() returns (command: Option<SrxCommand>, state: State)
    ensures command == None && state == Nothing
  {
    var slide := new SlideIntake();
    command := slide.Periodic();
    command := slide.Periodic();
    state := slide.currentState;
  }
}

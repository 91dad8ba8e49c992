/**
 * The elevator's default teleoperated command: a nonzero (already deadbanded) stick drives the
 * elevator open loop; when the stick returns to zero the elevator is told once to hold where it
 * is, and then left alone until the stick moves again.
 */
module OperatorElevator {
  import opened Wrappers
  import opened Units
  import opened Actuators

  /** The latch after a sequence of stick readings: set exactly when the last one was zero. */
  ghost predicate Latched(sticks: seq<real>)
  {
    |sticks| > 0 && sticks[|sticks| - 1] == 0.0
  }

  /** Cycle `i` of the readings issues the hold: a zero stick while the latch is clear. */
  ghost predicate HoldsAt(sticks: seq<real>, i: int)
    requires 0 <= i < |sticks|
  {
    sticks[i] == 0.0 && !Latched(sticks[..i])
  }

  class OperatorElevatorCommand {
    /** The source's `set` flag: a hold has been issued since the stick last moved. */
    var latched: bool
    /** The stick readings of the cycles run so far. */
    ghost var sticks: seq<real>

    ghost predicate Valid()
      reads this
    {
      latched == Latched(sticks)
    }

    constructor ()
      ensures Valid() && !latched && sticks == []
    {
      latched := false;
      sticks := [];
    }

    /** One cycle with stick reading `speed` while the elevator is at `position`. */
    method Execute(speed: real, position: Length) returns (command: Option<SrxCommand>)
      requires Valid()
      modifies this
      ensures Valid() && sticks == old(sticks) + [speed]
      ensures speed != 0.0 ==> command == Some(DutyCycle(speed)) && !latched
      ensures speed == 0.0 && !old(latched) ==> command == Some(PositionSetpoint(position)) && latched
      ensures speed == 0.0 && old(latched) ==> command == None && latched
      ensures (command.Some? && command.value.PositionSetpoint?) <==> HoldsAt(sticks, |sticks| - 1)
    {
      if speed != 0.0 {
        command := Some(DutyCycle(speed));
        latched := false;
      } else {
        command := None;
        if !latched {
          command := Some(PositionSetpoint(position));
          latched := true;
        }
      }
      sticks := sticks + [speed];
      assert sticks[..|sticks| - 1] == old(sticks);
    }
  }

  /** The hold is issued exactly on the first zero reading of a run of zeros. */
  lemma HoldExactlyAtRunStart(sticks: seq<real>, i: int)
    requires 0 <= i < |sticks|
    ensures HoldsAt(sticks, i) <==> sticks[i] == 0.0 && (i == 0 || sticks[i - 1] != 0.0)
  {
    if i > 0 {
      assert sticks[..i][i - 1] == sticks[i - 1];
    }
  }

  /** A run of zero readings from `i` through `j` holds at `i` and at no later cycle of the run. */
  lemma OneHoldPerRun(sticks: seq<real>, i: int, j: int)
    requires 0 <= i <= j < |sticks|
    requires i == 0 || sticks[i - 1] != 0.0
    requires forall k :: i <= k <= j ==> sticks[k] == 0.0
    ensures HoldsAt(sticks, i)
    ensures forall k :: i < k <= j ==> !HoldsAt(sticks, k)
  {
    HoldExactlyAtRunStart(sticks, i);
    forall k | i < k <= j
      ensures !HoldsAt(sticks, k)
    {
      HoldExactlyAtRunStart(sticks, k);
    }
  }

  /** Letting go of the stick, then keeping it at zero, holds only once. */
  method ReleaseThenRest(speed: real, first: Length, second: Length)
    returns (c1: Option<SrxCommand>, c2: Option<SrxCommand>, c3: Option<SrxCommand>)
    requires speed != 0.0
    ensures c1 == Some(DutyCycle(speed)) && c2 == Some(PositionSetpoint(first)) && c3 == None
  {
    var command := new OperatorElevatorCommand();
    c1 := command.Execute(speed, first);
    c2 := command.Execute(0.0, first);
    c3 := command.Execute(0.0, second);
  }
}

# FRC 4069 Offseason 2019 robot: a Dafny model of its decision logic

This project models the parts of Team 4069's 2019 off-season robot that do more than call into
libraries, and proves what they do:

- the evicting sample filter (`RingBuffer`): a list of at most `size` samples, newest first,
  with a running sum for the mean and a sorted copy for the median;
- the vision receiver (`VisionSystem`): the median-filtered target offsets, the target
  distance, and emptying both filters when the camera is unplugged;
- the drivetrain's path-following helper (`PathKinematicsHelper`): differential-drive inverse
  kinematics and the static-friction and acceleration feedforward, which needs the previous
  wheel state;
- the elevator controller wrapper (`ElevatorController`): how the reference, the measurement
  and the voltage are moved around an opaque control law and an optional motion profile;
- the per-cycle rules of the mechanisms: the hatch slide's wanted/current state machine, both
  versions of the intake pivot's hold command, the climber's solenoid toggle, the elevator
  stick's "hold once" latch, the elevator set-point tolerance, the hatch-alignment range gate,
  and the drive slow-down and auxiliary-gearbox routing;
- the two loggers: the on-robot elevator logger's three lock-step lists, and the off-board
  telemetry recorder with its field control-word decoder and its "autonomous has ended" latch;
- the camera-side tape detector: the strip model, the sort by rectangle centre, the matching of
  adjacent rectangles by their angle windows, the choice of pixel corners, and the per-pair
  report.

Each Kotlin object whose fields the source updates in place is a `class` with those fields and
`modifies` clauses. Code that only computes is a `function`. Loops in the source are `while`/`for`
loops with invariants. Physical quantities are `real`: `Units.Length` holds metres like the
library's `SIUnit`, and `Units.Inches`/`Units.Feet` are its conversions. Library numerics are
function-typed parameters constrained by ghost predicates: `hypot`, `sqrt`, the pose solver, the
elevator's control law and its motion profile. The clock becomes the inputs `now` and `dt`.
Hardware reads that the rules depend on are inputs: the pivot velocity, and the elevator and
slide positions. The pivot angle itself is the intake's getter applied to the pivot encoder
position: the mechanism rules take its value. `IntakePivot.PivotAngleAsWritten` models the getter
as written, and `IntakePivot.PivotAngle` is the evidently intended version (see "## Findings").
The retracted hold takes the cosine of that same angle through a cosine-in-degrees parameter,
constrained by `IntakePivot.IsDegreeCosine` (1 at 0 degrees, 0 at 90 degrees, within [-1, 1],
and equal on angles whole turns apart). Commands sent to motor controllers are values
(`Actuators.SrxCommand`, `IntakePivot.PivotCommand`, `OperatorDrive.DriveCommand`) that the operations
return.

Three behaviours of the source look unintended; they are under "## Findings". In
each case the as-written behaviour is modelled and exhibited, and a corrected member is proved
to have the intended property.

## Model

| member | source | states |
|---|---|---|
| Numerics.Truncate | data-logger/main.py:15 | Python's `int()` on a number rounds toward zero: the result lies within 1 of the input, on the input's side of zero |
| TelemetryLogger.ModeOfWord | data-logger/main.py:16-23 | the mode is "disabled" iff the enabled bit is clear; "auto" iff enabled and auto set; "test" iff enabled, not auto, test set; "teleop" iff enabled with neither |
| TelemetryLogger.TranslateControlWord | data-logger/main.py:14-23 | the word is truncated first; the result is always one of the four mode names |
| TelemetryLogger.OnlyLowBitsMatter | data-logger/main.py:6-11 | only the enabled, auto and test bits (the low three) decide the mode; the e-stop, FMS and driver-station bits do not |
| TelemetryLogger.ControlWordExamples | data-logger/main.py:14-23 | concrete words with the driver station and field attached decode to disabled, auto (also with test set), test and teleop |
| TelemetryLogger.IntOf | data-logger/main.py:15 | the value converts to a number exactly when it is a number or a boolean; other network-table kinds raise |
| TelemetryLogger.Logger.constructor | data-logger/main.py:27-30 | no data, not finalized, empty mode |
| TelemetryLogger.Logger.ValueChanged | data-logger/main.py:32-40 | a control word sets the mode to its decoding and latches "finalized" exactly on an auto to disabled change; a drivetrain value is appended only while not finalized; other keys change nothing; a word that cannot be converted changes nothing and is reported |
| TelemetryLogger.FinalizedStays | data-logger/main.py:35-36 | once auto has been followed by disabled, every longer mode history keeps the latch set: it is never reset |
| TelemetryLogger.RecordAutonomous | data-logger/main.py:32-40 | telemetry seen during autonomous is kept, and telemetry after autonomous ends is dropped |
| ElevatorLogging.DataLogger.constructor | src/main/java/frc/team4069/robot/util/DataLogger.kt:10-14 | three empty lists, logging disabled |
| ElevatorLogging.DataLogger.SetEnabled | src/main/java/frc/team4069/robot/util/DataLogger.kt:14 | only the enabled flag changes |
| ElevatorLogging.DataLogger.Append | src/main/java/frc/team4069/robot/util/DataLogger.kt:22-28 | disabled: nothing changes; enabled: each list grows by exactly its entry at its end; the lists always have equal length, row i holding the i-th recorded call |
| ElevatorLogging.EnableThenAppend | src/main/java/frc/team4069/robot/util/DataLogger.kt:14-28 | an append before enabling leaves nothing; the first one after is recorded |
| RingBuffers.SumConcat | src/main/java/frc/team4069/robot/util/RingBuffer.kt:9 | the sum of a concatenation is the sum of the parts, which is what keeps the running sum right across an eviction |
| RingBuffers.Mean | src/main/java/frc/team4069/robot/util/RingBuffer.kt:13-19 | 0 for no samples; otherwise the value whose product with the count is the sum |
| RingBuffers.Window | src/main/java/frc/team4069/robot/util/RingBuffer.kt:40-49 | the contents after a history of adds: the last min(count, size) samples, newest first |
| RingBuffers.WindowPush | src/main/java/frc/team4069/robot/util/RingBuffer.kt:41-48 | one more add puts the sample at the front and, when full, drops the oldest, keeping the others in order |
| RingBuffers.WindowKeepsLastN | src/main/java/frc/team4069/robot/util/RingBuffer.kt:40-49 | two histories that agree on their last `size` samples give the same contents |
| RingBuffers.Insert | src/main/java/frc/team4069/robot/util/RingBuffer.kt:27 | one insertion step of the copy's sort: the same samples plus the new one |
| RingBuffers.InsertSorted | src/main/java/frc/team4069/robot/util/RingBuffer.kt:27 | inserting into a sorted list keeps it sorted |
| RingBuffers.SortedCopy | src/main/java/frc/team4069/robot/util/RingBuffer.kt:26-27 | the sorted copy is sorted and a permutation of the contents |
| RingBuffers.SortedPermutationUnique | src/main/java/frc/team4069/robot/util/RingBuffer.kt:26-27 | two sorted permutations of the same samples are equal, so the median does not depend on which sort produced it |
| RingBuffers.RingBuffer.constructor | src/main/java/frc/team4069/robot/util/RingBuffer.kt:5-10 | empty, sum 0, the given capacity |
| RingBuffers.RingBuffer.Add | src/main/java/frc/team4069/robot/util/RingBuffer.kt:40-49 | the count becomes min(old + 1, size); the new sample is at index 0 followed by the old contents minus the oldest when full; the sum stays the sum of the contents and the contents stay the window of the history |
| RingBuffers.RingBuffer.Clear | src/main/java/frc/team4069/robot/util/RingBuffer.kt:51-55 | contents, count and sum become empty and zero |
| RingBuffers.RingBuffer.Average | src/main/java/frc/team4069/robot/util/RingBuffer.kt:13-19 | the mean of the contents, 0 when empty |
| RingBuffers.RingBuffer.Median | src/main/java/frc/team4069/robot/util/RingBuffer.kt:21-37 | 0 when empty; otherwise the middle of any sorted permutation of the contents (the middle value for an odd count, the mean of the two middle values for an even count); the contents are not changed |
| RingBuffers.AverageAfterOverflow | src/main/java/frc/team4069/robot/util/RingBuffer.kt:40-49 | after four adds to a capacity-3 buffer the oldest sample no longer counts toward the average |
| RingBuffers.FromSamples | src/main/java/frc/team4069/robot/util/RingBuffer.kt:40-49 | adding samples one by one in a loop gives a buffer whose history is those samples |
| RingBuffers.MedianOfEvenCount | src/main/java/frc/team4069/robot/util/RingBuffer.kt:31-33 | an even count gives the mean of the two middle values |
| RingBuffers.MedianOfOddCount | src/main/java/frc/team4069/robot/util/RingBuffer.kt:34 | an odd count gives the middle value, whatever the insertion order |
| Vision.VisionSystem.constructor | src/main/java/frc/team4069/robot/vision/VisionSystem.kt:23-24 | two fresh, empty filters of capacity 5 |
| Vision.VisionSystem.TargetX | src/main/java/frc/team4069/robot/vision/VisionSystem.kt:39-46 | none exactly when the x filter is empty; otherwise its median read as inches |
| Vision.VisionSystem.TargetZ | src/main/java/frc/team4069/robot/vision/VisionSystem.kt:48-55 | none exactly when the z filter is empty; otherwise its median read as inches |
| Vision.VisionSystem.TargetDistance | src/main/java/frc/team4069/robot/vision/VisionSystem.kt:31-37 | none exactly when either offset is none; otherwise the Euclidean norm of the two |
| Vision.VisionSystem.ReceiveSample | src/main/java/frc/team4069/robot/vision/Jevois.kt:78-82 | a camera message adds one sample to each filter |
| Vision.VisionSystem.MarkUnplugged | src/main/java/frc/team4069/robot/vision/VisionSystem.kt:62-65 | both filters are emptied, so both offsets (and so the distance) are none |
| Vision.VisionSystem.OnlyLastFiveSamplesCount | src/main/java/frc/team4069/robot/vision/VisionSystem.kt:23-24 | two receivers whose last five samples agree report the same targets |
| Units.Inches | src/main/java/frc/team4069/robot/vision/VisionSystem.kt:44 | a length made from inches reads back as the same number of inches |
| Units.Plus | src/main/java/frc/team4069/robot/commands/intake/AlignHatchIntakeCommand.kt:16 | adding lengths adds their inch readings |
| PathKinematics.InverseKinematics | src/main/java/frc/team4069/robot/util/PathKinematicsHelper.kt:49-56 | the wheels' mean is the linear speed; their difference is wheelbase times angular speed; no rotation gives equal wheels |
| PathKinematics.ForwardInverse | src/main/java/frc/team4069/robot/util/PathKinematicsHelper.kt:49-56 | forward kinematics undoes inverse kinematics for a nonzero wheelbase |
| PathKinematics.InverseForward | src/main/java/frc/team4069/robot/util/PathKinematicsHelper.kt:49-56 | inverse kinematics undoes forward kinematics for a nonzero wheelbase |
| PathKinematics.Feedforward | src/main/java/frc/team4069/robot/util/PathKinematicsHelper.kt:28-38 | without a previous state (or with an unchanged one) the term is kS * sign(v), so zero velocity gives zero; with one, kA times the velocity change over dt is added |
| PathKinematics.PathKinematicsHelper.constructor | src/main/java/frc/team4069/robot/util/PathKinematicsHelper.kt:20 | no previous wheel state |
| PathKinematics.PathKinematicsHelper.Update | src/main/java/frc/team4069/robot/util/PathKinematicsHelper.kt:23-47 | the wheel speeds are the inverse kinematics with the 3.9 ft wheelbase; each side's feedforward uses that side's constants and the previous state when there is one; the previous state becomes this call's |
| PathKinematics.FirstThenRepeatedUpdate | src/main/java/frc/team4069/robot/util/PathKinematicsHelper.kt:28-39 | the first update after construction carries only the kS terms, and so does an immediate repeat of the same state |
| PathKinematics.VelocityIsRereadAsFeet | src/main/java/frc/team4069/robot/util/PathKinematicsHelper.kt:41-46 | the returned velocities are the metre-based wheel speeds re-read as feet per second, so the value sent is 0.3048 times the metre-based wheel speed |
| Elevator.ElevatorController.constructor | src/main/java/frc/team4069/robot/control/elevator/ElevatorController.kt:18-21 | u, reference and y start as zero vectors of sizes 1, 2 and 2; no profile |
| Elevator.ElevatorController.SetMeasuredPosition | src/main/java/frc/team4069/robot/control/elevator/ElevatorController.kt:27-31 | writes only the measured position |
| Elevator.ElevatorController.SetMeasuredVelocity | src/main/java/frc/team4069/robot/control/elevator/ElevatorController.kt:33-37 | writes only the measured velocity |
| Elevator.ElevatorController.SetMotionProfile | src/main/java/frc/team4069/robot/control/elevator/ElevatorController.kt:39 | stores the profile only |
| Elevator.ElevatorController.Update | src/main/java/frc/team4069/robot/control/elevator/ElevatorController.kt:41-59 | no profile: reference kept; a profile: reference is its sample at `now`; u is the law applied to the raw measurement; the estimate (position, velocity) is unchanged |
| Elevator.FirstVoltage | src/main/java/frc/team4069/robot/control/elevator/ElevatorController.kt:23 | the voltage is u[0]: from a fresh controller, the law applied to the measurement and the zero reference |
| Elevator.ProfileSetsReference | src/main/java/frc/team4069/robot/control/elevator/ElevatorController.kt:44-51 | with a profile the reference is the profile's position and velocity at `now` |
| Slide.SlideIntake.constructor | src/main/java/frc/team4069/robot/subsystems/intake/SlideIntake.kt:25-26 | both states start as Nothing |
| Slide.SlideIntake.SetDutyCycle | src/main/java/frc/team4069/robot/subsystems/intake/SlideIntake.kt:72-75 | wants open loop at the duty cycle; current state untouched |
| Slide.SlideIntake.SetPosition | src/main/java/frc/team4069/robot/subsystems/intake/SlideIntake.kt:77-80 | wants motion magic at the position in metres; current state untouched |
| Slide.SlideIntake.Periodic | src/main/java/frc/team4069/robot/subsystems/intake/SlideIntake.kt:55-70 | no command exactly when nothing is wanted; open loop gives the duty cycle, motion magic the position; the current state becomes the wanted one |
| Slide.PositionRoundTrip | src/main/java/frc/team4069/robot/subsystems/intake/SlideIntake.kt:66-79 | a requested position comes back out as the same length after the metre round trip |
| Slide.IdleUntilRequested | src/main/java/frc/team4069/robot/subsystems/intake/SlideIntake.kt:25-26 | a fresh slide issues nothing |
| IntakePivot.ProfileSlot | src/main/java/frc/team4069/robot/subsystems/Intake.kt:37-46 | slot 1 exactly when extended, slot 0 exactly when retracted |
| IntakePivot.HoldCommand | src/main/java/frc/team4069/robot/subsystems/Intake.kt:91-101 | always a position command; extended: lower target, no feedforward iff the angle is under 35 degrees, otherwise -0.3; retracted: upper target with -0.05 times the cosine of that same angle |
| Numerics.IntDiv | src/main/java/frc/team4069/robot/subsystems/Intake.kt:80 | Kotlin's `Int` division by a positive divisor: the quotient rounded toward zero, with the remainder on the dividend's side and smaller than the divisor |
| IntakePivot.PivotAngleAsWritten | src/main/java/frc/team4069/robot/subsystems/Intake.kt:79-80 | the position is divided by 7540 in `Int` arithmetic before it is scaled, so the angle is 90 degrees less a whole number of turns: at most 90 for positions from zero up, at least 90 below zero |
| IntakePivot.PivotAngle | src/main/java/frc/team4069/robot/subsystems/Intake.kt:79-80 | the intended getter: 90 degrees less 360 degrees per 7540 counts, with the fraction of a turn kept (90 degrees at position 0) |
| IntakePivot.NormalizedDegrees | src/main/java/frc/team4069/robot/subsystems/Intake.kt:80 | an angle brought into (-180, 180] degrees by whole turns, for the case that the getter's rotation type normalizes |
| IntakePivot.NormalizedAsWrittenIsQuarterTurn | src/main/java/frc/team4069/robot/subsystems/Intake.kt:79-80 | normalized, the getter as written reads 90 degrees at every position |
| IntakePivot.AsWrittenAngleWholeTurns | src/main/java/frc/team4069/robot/subsystems/Intake.kt:79-80 | as written, the angle is 90 degrees for every position within one turn of zero and never under 90 degrees in size |
| IntakePivot.AsWrittenHoldAlwaysPushes | src/main/java/frc/team4069/robot/subsystems/Intake.kt:79-100 | as written, the extended hold adds the -0.3 feedforward at every encoder position |
| IntakePivot.AsWrittenRetractedHoldIsFree | src/main/java/frc/team4069/robot/subsystems/Intake.kt:79-94 | as written, the retracted hold's cosine feedforward is 0 at every encoder position, since every reading is a whole number of turns from 90 degrees |
| IntakePivot.RetractedHoldPushesAtQuarterTurn | src/main/java/frc/team4069/robot/subsystems/Intake.kt:92-94 | with the intended getter, a quarter turn (1885 counts) reads 0 degrees, where the retracted hold pushes with the full -0.05 |
| IntakePivot.AnglesAgreeOnWholeTurns | src/main/java/frc/team4069/robot/subsystems/intake/Intake.kt:61-62 | the intended and the as-written getters agree on whole turns |
| IntakePivot.PivotAngleDecreasing | src/main/java/frc/team4069/robot/subsystems/Intake.kt:80 | the intended angle falls as the encoder position rises |
| IntakePivot.FeedForwardFreePositions | src/main/java/frc/team4069/robot/subsystems/Intake.kt:95-100 | with the intended getter, the extended hold has no feedforward exactly for positions 1152 to 2618 |
| IntakePivot.ExtendedTargetHeldFree | src/main/java/frc/team4069/robot/subsystems/Intake.kt:95-100 | with the intended getter, the pivot is held at its 2200-count extended target without feedforward |
| IntakePivot.HoldFeedForwardBounded | src/main/java/frc/team4069/robot/subsystems/Intake.kt:93-99 | for any cosine in degrees, the feedforward never exceeds 0.3 in size, and 0.05 when retracted |
| PivotIntake.Intake.constructor | src/main/java/frc/team4069/robot/subsystems/Intake.kt:30-37 | not overdrive, retracted, targets 0 and 2200 |
| PivotIntake.Intake.SetPivotState | src/main/java/frc/team4069/robot/subsystems/Intake.kt:37-46 | the state is stored and its profile slot selected; nothing else changes |
| PivotIntake.Intake.SetOverdrive | src/main/java/frc/team4069/robot/subsystems/Intake.kt:30 | only the overdrive flag changes |
| PivotIntake.Intake.Periodic | src/main/java/frc/team4069/robot/subsystems/Intake.kt:88-104 | no pivot command exactly in overdrive; otherwise the hold command for the stored state and targets, its retracted feedforward -0.05 times the cosine of the angle given |
| PivotIntake.Intake.Set | src/main/java/frc/team4069/robot/subsystems/Intake.kt:106-108 | the roller gets the given speed |
| PivotIntake.Intake.SetSlidePosition | src/main/java/frc/team4069/robot/subsystems/Intake.kt:110-114 | a slide position command with the given length |
| PivotIntake.Intake.SetSlide | src/main/java/frc/team4069/robot/subsystems/Intake.kt:129-131 | a slide duty-cycle command with the given speed |
| PivotIntake.ExtendInOverdrive | src/main/java/frc/team4069/robot/subsystems/Intake.kt:37-46 | extending in overdrive selects slot 1 and commands nothing |
| PivotIntake.FirstCycleHoldsRetracted | src/main/java/frc/team4069/robot/subsystems/Intake.kt:92-94 | a fresh intake, its encoder zeroed at start-up, reads 90 degrees and holds the upper target 0 with a feedforward of exactly 0 |
| SplitIntake.Intake.constructor | src/main/java/frc/team4069/robot/subsystems/intake/Intake.kt:27-30 | speeds 0, retracted, no overdrive, targets 0 and 2200 |
| SplitIntake.Intake.SetExtended | src/main/java/frc/team4069/robot/subsystems/intake/Intake.kt:32-42 | the getter returns the stored flag, and its profile slot is selected; nothing else changes |
| SplitIntake.Intake.SetIntakeOverdrive | src/main/java/frc/team4069/robot/subsystems/intake/Intake.kt:44-46 | only stores the flag |
| SplitIntake.Intake.SetDutyCycle | src/main/java/frc/team4069/robot/subsystems/intake/Intake.kt:93-95 | only stores the roller speed |
| SplitIntake.Intake.SetPivotDutyCycle | src/main/java/frc/team4069/robot/subsystems/intake/Intake.kt:97-99 | only stores the pivot speed |
| SplitIntake.Intake.Periodic | src/main/java/frc/team4069/robot/subsystems/intake/Intake.kt:69-91 | percent output of the pivot speed exactly in overdrive, otherwise the hold command, its retracted feedforward -0.05 times the cosine of the angle given; the roller always gets its speed |
| SplitIntake.RollerFollowsLastSetting | src/main/java/frc/team4069/robot/subsystems/intake/Intake.kt:90-95 | the roller runs at the last speed set, whatever the overdrive and pivot state |
| Climber.Toggled | src/main/java/frc/team4069/robot/subsystems/BoostCaboose.kt:53-56 | a toggle commands forward exactly from off or reverse, and never off |
| Climber.BoostCaboose.constructor | src/main/java/frc/team4069/robot/subsystems/BoostCaboose.kt:71-72 | demand 0, piston recorded as not forward, solenoid off |
| Climber.BoostCaboose.SetDemand | src/main/java/frc/team4069/robot/subsystems/BoostCaboose.kt:35-37 | only the demand changes |
| Climber.BoostCaboose.SetDirection | src/main/java/frc/team4069/robot/subsystems/BoostCaboose.kt:39-43 | records whether the direction is forward and commands it; the record then matches the solenoid |
| Climber.BoostCaboose.Toggle | src/main/java/frc/team4069/robot/subsystems/BoostCaboose.kt:52-58 | as written: commands the toggled direction, and then the record disagrees with the solenoid |
| Climber.BoostCaboose.ToggleTracked | src/main/java/frc/team4069/robot/subsystems/BoostCaboose.kt:52-58 | corrected: commands the toggled direction, the record matches it, and it flips the record whenever the piston was already driven |
| Climber.BoostCaboose.Periodic | src/main/java/frc/team4069/robot/subsystems/BoostCaboose.kt:45-50 | the lift gets the stored demand |
| Climber.ToggleAfterStartup | src/main/java/frc/team4069/robot/subsystems/BoostCaboose.kt:57 | the first toggle drives the piston forward and records it as not forward |
| Climber.TrackedToggleTwice | src/main/java/frc/team4069/robot/subsystems/BoostCaboose.kt:52-58 | with the corrected toggle, two toggles end reversed and recorded so |
| OperatorElevator.OperatorElevatorCommand.constructor | src/main/java/frc/team4069/robot/commands/elevator/OperatorElevatorCommand.kt:9 | the latch starts open |
| OperatorElevator.OperatorElevatorCommand.Execute | src/main/java/frc/team4069/robot/commands/elevator/OperatorElevatorCommand.kt:11-24 | a moving stick drives at its speed and opens the latch; a still stick holds the current position once and closes it; a still stick on a closed latch issues nothing; a hold is issued exactly on the cycles where the stick history holds |
| OperatorElevator.HoldExactlyAtRunStart | src/main/java/frc/team4069/robot/commands/elevator/OperatorElevatorCommand.kt:14-22 | a hold is issued exactly on the first cycle of each run of still-stick cycles |
| OperatorElevator.OneHoldPerRun | src/main/java/frc/team4069/robot/commands/elevator/OperatorElevatorCommand.kt:14-22 | each run of still-stick cycles issues exactly one hold, at its start |
| OperatorElevator.ReleaseThenRest | src/main/java/frc/team4069/robot/commands/elevator/OperatorElevatorCommand.kt:11-24 | drive, then a hold at the first resting position, then nothing |
| ElevatorPositions.PresetLength | src/main/java/frc/team4069/robot/subsystems/Elevator.kt:96-103 | each preset's length in inches |
| ElevatorPositions.PresetsWithinTravel | src/main/java/frc/team4069/robot/subsystems/Elevator.kt:25-103 | every preset lies between the minimum preset and the 31 in travel |
| ElevatorPositions.RocketPresetsOrdered | src/main/java/frc/team4069/robot/subsystems/Elevator.kt:97-99 | low, mid and high rocket presets are strictly increasing |
| ElevatorPositions.FromPreset | src/main/java/frc/team4069/robot/commands/elevator/SetElevatorPositionCommand.kt:10 | the preset constructor gives the preset's length and keeps `instant` |
| ElevatorPositions.AtTarget | src/main/java/frc/team4069/robot/commands/elevator/SetElevatorPositionCommand.kt:13-15 | done exactly when the position is strictly within 0.8 in of the target |
| ElevatorPositions.FinishConditions | src/main/java/frc/team4069/robot/commands/elevator/SetElevatorPositionCommand.kt:13-17 | two conditions: at target, and the constant `instant` |
| ElevatorPositions.ToleranceIsStrict | src/main/java/frc/team4069/robot/commands/elevator/SetElevatorPositionCommand.kt:13-15 | an error of exactly 0.8 in, either way, is not done |
| ElevatorPositions.Initialize | src/main/java/frc/team4069/robot/commands/elevator/SetElevatorPositionCommand.kt:20-22 | exactly one position command, with the target |
| AlignHatch.Execute | src/main/java/frc/team4069/robot/commands/intake/AlignHatchIntakeCommand.kt:10-24 | manual control: the slide speed only; otherwise nothing unless extended, under 50 degrees and with a velocity below 50 (a signed test), with a target; the setpoint is the target plus 6 in and is issued exactly when it lies in [0, 11] in |
| AlignHatch.AsWrittenReadyFromWholeTurn | src/main/java/frc/team4069/robot/commands/intake/AlignHatchIntakeCommand.kt:14 | as written, and with the angle not normalized, the pivot passes the alignment test only from 7540 encoder counts (a whole turn) on |
| AlignHatch.NormalizedAsWrittenNeverReady | src/main/java/frc/team4069/robot/commands/intake/AlignHatchIntakeCommand.kt:14 | as written, and with the angle normalized into (-180, 180] degrees, the pivot never passes the alignment test |
| AlignHatch.ReadyFromPosition | src/main/java/frc/team4069/robot/commands/intake/AlignHatchIntakeCommand.kt:14 | with the intended getter, the pivot passes the alignment test exactly from 838 counts on, extended and with a velocity below 50 |
| AlignHatch.ManualIgnoresVision | src/main/java/frc/team4069/robot/commands/intake/AlignHatchIntakeCommand.kt:11-12 | under manual control the pivot and vision have no influence |
| AlignHatch.CommandedOffsets | src/main/java/frc/team4069/robot/commands/intake/AlignHatchIntakeCommand.kt:16-21 | the target offsets that get commanded are exactly those from -6 in to 5 in |
| OperatorDrive.Execute | src/main/java/frc/team4069/robot/commands/drive/OperatorDriveCommand.kt:9-26 | speed halved above half travel; not aux-only: curvature drive with quick turn iff speed is zero, then aux with the speed or 0; aux-only: aux with the speed alone |
| OperatorDrive.SlowAboveHalfHeight | src/main/java/frc/team4069/robot/commands/drive/OperatorDriveCommand.kt:11-13 | the speed is halved exactly above 15.5 in, and the turn is never scaled |
| OperatorDrive.QuickTurnIffStopped | src/main/java/frc/team4069/robot/commands/drive/OperatorDriveCommand.kt:16 | quick turn exactly when the operator's speed is zero |
| TapeDetection.RightStrip | jevois/TapeDetector.py:34-46 | the right strip model has four corners |
| TapeDetection.Mirror | jevois/TapeDetector.py:47 | the mirror has as many points, each with x negated |
| TapeDetection.StripCorners | jevois/TapeDetector.py:30-47 | the step-by-step corner walk builds the right strip, and the left strip is its mirror |
| TapeDetection.RightStripIsRectangle | jevois/TapeDetector.py:9-14 | for a unit rotation the strip is a 2 in by 5.5 in rectangle: opposite sides equal, adjacent sides perpendicular |
| TapeDetection.InsertBy | jevois/TapeDetector.py:70 | one insertion step: the same elements plus the new one, which goes ahead of elements with an equal centre |
| TapeDetection.InsertBySorted | jevois/TapeDetector.py:70 | inserting into a list sorted by centre keeps it sorted |
| TapeDetection.SortByCentre | jevois/TapeDetector.py:70 | sorted by centre (x, then y) and a permutation of the input |
| TapeDetection.InsertByKeepsTies | jevois/TapeDetector.py:70 | inserting puts the new element ahead of every element with its centre and keeps their order |
| TapeDetection.SortByCentreIsStable | jevois/TapeDetector.py:70 | the sort is stable like Python's: for every centre, the elements centred there keep their input order |
| TapeDetection.ExampleTiesKeepOrder | jevois/TapeDetector.py:70-96 | a left strip and a right strip with the same centre stay in input order and still pair at index 0 |
| TapeDetection.RectsOf | jevois/TapeDetector.py:69 | one rectangle per contour, in order |
| TapeDetection.SortCommutesWithRects | jevois/TapeDetector.py:69-70 | sorting contours by their rectangles and then taking the rectangles equals sorting the rectangles |
| TapeDetection.AngleWindowsOnReals | jevois/TapeDetector.py:91-93 | the truncated-angle windows are the real intervals (-80, -40] and (-40, -10] |
| TapeDetection.PairsBelowAreThePairs | jevois/TapeDetector.py:84-96 | the indices below n are strictly increasing and are exactly those where a left strip is followed by a right strip |
| TapeDetection.FindTapePairs | jevois/TapeDetector.py:84-96 | the pairing loop returns the index list of all adjacent left/right pairs |
| TapeDetection.PairIndicesAreThePairs | jevois/TapeDetector.py:84-96 | every index passes both windows, is below the last rectangle, the list is increasing and contains every pair; fewer than two rectangles give none |
| TapeDetection.FirstPairFirst | jevois/TapeDetector.py:99-100 | the index used is the first adjacent pair |
| TapeDetection.MeanPosition | jevois/TapeDetector.py:101-102 | the mean pixel position is the midpoint of the two centres |
| TapeDetection.ArgMinIsFirstLeast | jevois/TapeDetector.py:177-179 | Python's `min` with a key: the least key, and the first such point |
| TapeDetection.ArgMaxIsFirstGreatest | jevois/TapeDetector.py:177-179 | Python's `max` with a key: the greatest key, and the first such point |
| TapeDetection.PixelCorners | jevois/TapeDetector.py:174-185 | four pixel corners |
| TapeDetection.PixelCornersChoice | jevois/TapeDetector.py:177-185 | the two tops ordered by x (the first contour's on a tie), then the leftmost of the two contours' leftmost points, then the rightmost of their rightmost points |
| TapeDetection.CornersSpanThePair | jevois/TapeDetector.py:177-185 | every point of either contour lies between corner 2 and corner 3 in x |
| TapeDetection.ComputeOutputValues | jevois/TapeDetector.py:146-155 | returns (dist, x, z) with dist the non-negative root of x squared plus z squared |
| TapeDetection.PairReport | jevois/TapeDetector.py:116-142 | a report exists exactly when the pose solve succeeds on the pixel corners, and then holds its distance, offsets and mean pixel position |
| TapeDetection.DistanceLoop | jevois/TapeDetector.py:99-143 | runs min(pairs, 4) times, always on the first pair, with one report per round when the solve succeeds |
| TapeDetection.Copies | jevois/TapeDetector.py:99-100 | n copies of one value |
| TapeDetection.ProcessAsWritten | jevois/TapeDetector.py:63-144 | as written: the pair index found among the sorted rectangles is used on the unsorted contour list; the reports are that many copies of the report of the first pair's sorted rectangles with unsorted contours at the same indices, or none when the solver fails or there is no pair |
| TapeDetection.Process | jevois/TapeDetector.py:63-144 | corrected: the contours themselves are sorted with their rectangles; every iteration chooses the first pair of the sorted contours, a left strip followed by a right strip from the frame, and the reports are that many copies of this pair's report when the solver succeeds on its corners, none when it fails |
| TapeDetection.FirstPairInFrame | jevois/TapeDetector.py:70-115 | with the contours sorted, the first pair found is two contours of the frame, a left strip followed by a right strip |
| TapeDetection.SortedContours | jevois/TapeDetector.py:69-70 | sorting keeps the contours well formed and from the input, and their rectangles are the sorted rectangles |
| TapeDetection.ExampleSortOrder | jevois/TapeDetector.py:70 | the three example rectangles sort by x |
| TapeDetection.ExampleFramePairs | jevois/TapeDetector.py:84-96 | in the sorted example the only pair is at index 0 |
| TapeDetection.AsWrittenPicksWrongContour | jevois/TapeDetector.py:115 | on that frame the as-written process chooses contours that pass neither angle window |

## Left out

- RingBuffers.RingBuffer.constructor: requires a capacity of at least 1; with capacity 0 the
  source's `add` reads index -1 and throws, and the model does not represent that exception.
- PathKinematics.PathKinematicsHelper.Update: requires `dt != 0` once a previous state exists.
  The source then divides by zero in floating point and gets an infinite or NaN feedforward.
  Dafny's `real` has no such values.
- Floating point in general: every physical value is an exact `real`, so rounding, NaN and
  infinity are not modelled.
- Library calls are parameters or inputs, not models. These are `hypot`, `sqrt`, the cosine and
  sine of the strip's 14.5 degree rotation, the elevator's control law, its motion
  profile and the `DeltaTime` clock. Their library (SaturnLibrary) is not part of this model.
- AlignHatch.AsWrittenReadyFromWholeTurn: takes the as-written angle 90 - 360k degrees unnormalized.
  The getter returns the library's `Rotation2d`, which is not part of this model. If it
  normalizes into (-180, 180], the angle is always 90 degrees and the test never passes; that
  case is AlignHatch.NormalizedAsWrittenNeverReady. The other consequences hold either way,
  since 90 - 360k and 90 are whole turns apart.
- The camera library's `solvePnP` and `cornerSubPix` are folded into one `solve` parameter.
  That parameter maps the four pixel corners to an optional translation.
- The tape detector's eight-point target assembly is folded into `solve` as well. That assembly
  adds the extra outside samples (jevois/TapeDetector.py:21-27 and 128-134).
- The tape detector's `_rodrigues_to_euler` is left out: its result is not used in any report.
- Camera calibration loading, contour finding, drawing and the serial output of the camera
  script are I/O.
- Contours of different sizes packed into one array, with NumPy's behaviour on that, are not
  modelled.
- Jevois.kt's serial polling and JSON decoding are I/O. A decoded message is
  `Vision.VisionSystem.ReceiveSample` with its two numbers; the unplug detection only calls
  `MarkUnplugged`.
- The elevator logger's CSV writing and the telemetry recorder's network-table connection
  loop are file and network I/O, and so is the recorder's `print(value)` of each kept
  drivetrain value (data-logger/main.py:39).
- ElevatorPositions.FromPreset: the `instant = false` default argument of both constructors
  (SetElevatorPositionCommand.kt:8, 10) has no member of its own; a caller that omits it is
  `FromPreset(pos, false)`, or the record built with `instant` false.
- TelemetryLogger.IntOf: a string value that Python's `int()` would parse as a number is modelled
  as an error like every other string.
- ElevatorPositions.FinishConditions: how the command framework combines the two conditions is
  library behaviour; the model returns both.
- Elevator.ElevatorController.constructor: the observer's initial estimate is a parameter. The
  observer's `correct`/`predict` calls are disabled in the source, so the estimate never changes.
- Elevator.ElevatorController: `u` is a fresh copy in the model, so aliasing between the
  controller's output matrix and the field is not captured.
- Climber.BoostCaboose.constructor: the solenoid is taken to read back `Off` before its first
  command, as the hardware default.
- Hardware reads (the pivot encoder position, pivot velocity, elevator and slide positions) are
  inputs. The cosine is a parameter: any function meeting `IntakePivot.IsDegreeCosine`. Telemetry fields written only for dashboards are left out, as are the
  `SmartDashboard` calls.
- Concurrency: each call is taken to run to completion on its own. In the source,
  `Jevois.serialEvent` adds to both filters on the serial listener's thread
  (src/main/java/frc/team4069/robot/vision/Jevois.kt:60-82), `dispose` empties them
  (Jevois.kt:94) from the coroutine launched at Jevois.kt:22, and the robot loop reads the offsets
  (AlignHatchIntakeCommand.kt:15). `RingBuffer` has no locking, so a median may see a
  half-finished add, and the two offsets may come from different messages; neither is modelled.
- The delta-time helper's first call: `dt` is an input. The source first calls the helper on
  the second update, so that `dt` is measured from the helper's initial state, which is not
  part of this model. If that first call returns 0, `dt != 0` excludes every second update.
- OI.kt's button bindings, the drive routines and the thin one-call commands only sequence
  library calls. They are not part of this model.

## Findings

| source | as written | input that shows it | evidently intended | confidence | as-written member | corrected member |
|---|---|---|---|---|---|---|
| src/main/java/frc/team4069/robot/subsystems/BoostCaboose.kt:57 | `toggle` commands the new direction through `set(dir)`, which already records `pistonState`, and then negates the record again | the first toggle after start-up: the solenoid goes forward while `pistonState` says not forward | `pistonState` reflects the direction just commanded | high (follows from the code alone; not executed) | Climber.ToggleAfterStartup | Climber.BoostCaboose.ToggleTracked |
| jevois/TapeDetector.py:115 | the pair index is found among the sorted rectangles but used to pick from the unsorted contour list | contours in the order C (x=300, angle 0), A (x=100, angle -60), B (x=200, angle -20): the sorted rectangles pair at index 0 (A, B), but contours 0 and 1 are C and A | the contours are indexed in the same sorted order as the rectangles | medium (depends on the contour order OpenCV returns; not executed) | TapeDetection.AsWrittenPicksWrongContour | TapeDetection.Process |
| src/main/java/frc/team4069/robot/subsystems/Intake.kt:80 | the angle getter divides the encoder position by 7540 before scaling it to degrees; with the position an `Int` that division truncates, so the angle is 90 - 360k degrees (the same getter is at src/main/java/frc/team4069/robot/subsystems/intake/Intake.kt:62) | every position from 0 to 7539, the 2200-count extended target among them, reads 90 degrees: the extended hold always adds the -0.3 feedforward, the retracted hold's cosine feedforward is always 0 (IntakePivot.AsWrittenRetractedHoldIsFree), and the alignment's under-50-degrees test fails below 7540 counts (never passes, if `Rotation2d` normalizes: AlignHatch.NormalizedAsWrittenNeverReady) | the fraction of a turn is kept, 90 - 360 * position / 7540 degrees, so the extended target reads about -15 degrees and is held without feedforward, and the retracted hold's feedforward varies with the angle (IntakePivot.RetractedHoldPushesAtQuarterTurn) | medium (depends on the motor controller library returning the position as `Int`; not executed) | IntakePivot.AsWrittenHoldAlwaysPushes | IntakePivot.ExtendedTargetHeldFree |

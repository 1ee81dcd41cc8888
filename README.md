# rmc-core-2018-2019 control core in Dafny

This project models the sequential core of the control software of a
mining robot (msoermc/rmc-core-2018-2019). It proves properties of that
model. The core covered is:

- the mechatronics loop:
  - the controller, with its commands and its cycle counter;
  - the drive train, the intake (bucket ladder) and the dumper;
  - the older material-handling bucket ladder and dumper;
- the life flags and the command sender;
- the motor-controller layer:
  - groups that remember their last speed;
  - groups that carry an inversion flag;
  - the inversion, dual-limit and flag decorators;
- the shared telemetry cells and their snapshots, including the
  digital-input monitor that copies a pin into a limit flag;
- the older drive trains under `src/control`, `src/operations`,
  `src/drive_train` and `src/subsystems`, with their `RobotView` and
  `RobotController` front ends;
- the driver-station text protocol:
  - `parse_message` with its per-command parsers;
  - the generic `MessageParser` registry with its command parsers, their
    `to_string` and `execute`;
  - `rebuild_message`;
- the 12-byte frame that `ArduinoMessage::new` builds for the motor board.

How the model is built:

- **Objects.** Objects whose fields the source updates in place are Dafny
  classes. Shared `Arc` cells are heap objects, so aliasing is visible.
- **Methods.** Each method is specified against a pure function on a view
  datatype (`View() == Spec(old(View()), ...)`). The properties the source
  promises are lemmas about those functions.
- **Pure code.** Parsers, frame encoding and command dispatch are functions.
- **Speeds.** Speeds are `real`.
- **Robot rates.** `DIGGING_RATE`, `MH_ACTUATOR_RATE`, `DUMPING_RATE` and
  `DUMPER_RESET_RATE` are fixed constants whose values are left open, so
  every property holds for all of them.
- **Panics.** A source `panic!`, a failed index or a failed `unwrap` the
  model needs to show is an explicit `Panicked` outcome.
- **Channel unwraps.** An `unwrap` on a channel send is a precondition
  that the receiver is connected.

## Model

| member | source | states |
|---|---|---|
| MotorState.GlobalMotorState.constructor | src/motor_controllers/mod.rs:28-32 | a new motor state cell reads 0 |
| MotorState.GlobalMotorState.SetSpeed | src/motor_controllers/mod.rs:38-44 | `get_speed` after `set_speed(v)` returns v |
| MotorState.GlobalMotorState.GetCurrentState | src/motor_controllers/mod.rs:34-36 | the snapshot's speed equals `get_speed()` at the call |
| MotorState.InstanceRoundTrip | src/motor_controllers/mod.rs:52-61 | a `MotorStateInstance` returns the speed it was built from |
| Life.GlobalLifeState.constructor | src/status/life.rs:10-14 | the robot starts alive |
| Life.GlobalLifeState.Kill | src/status/life.rs:20-22 | after `kill`, `is_alive` is false, whatever it was |
| Life.GlobalLifeState.Revive | src/status/life.rs:24-26 | after `revive`, `is_alive` is true, whatever it was |
| Life.GlobalLifeState.GetCurrentState | src/status/life.rs:28-30 | the snapshot's life equals `is_alive()` at the call |
| DriveTrainState.GlobalDriveTrainState.constructor | src/mechatronics/drive_train/state.rs:17-25 | initial state: disabled, four fresh, separate motor cells at 0 |
| DriveTrainState.GlobalDriveTrainState.SetEnabled | src/mechatronics/drive_train/state.rs:27-33 | `get_enabled` returns what `set_enabled` stored |
| DriveTrainState.GlobalDriveTrainState.GetCurrentState | src/mechatronics/drive_train/state.rs:51-59 | the snapshot copies `enabled` and the four speeds, each from its own cell |
| DriveTrainState.CellGettersDistinct | src/mechatronics/drive_train/state.rs:35-49 | `get_left`/`get_right` are the front cells, and the four getters hand out distinct cells |
| DumperState.GlobalDumperState.constructor | src/mechatronics/dumper/state.rs:14-19 | a new dumper state is disabled, with its motor at 0 and neither limit tripped |
| DumperState.GlobalDumperState.GetCurrentState | src/mechatronics/dumper/state.rs:21-26 | the snapshot copies `enabled` and the motor speed |
| DumperState.GlobalDumperState.SetEnabled | src/mechatronics/dumper/state.rs:28-34 | `get_enabled` returns what `set_enabled` stored |
| MaterialDumperState.ActionCodesDistinct | src/mechatronics/material_handling/dumper/state.rs:5-7 | running, resetting and stopped have distinct codes |
| MaterialDumperState.GlobalDumperState.constructor | src/mechatronics/material_handling/dumper/state.rs:15-20 | a new state is stopped and disabled |
| MaterialDumperState.GlobalDumperState.GetCurrentState | src/mechatronics/material_handling/dumper/state.rs:22-27 | the snapshot copies the action and the flag |
| MaterialDumperState.GlobalDumperState.SetAction | src/mechatronics/material_handling/dumper/state.rs:29-31 | sets the action and leaves the flag alone |
| MaterialDumperState.GlobalDumperState.SetEnabled | src/mechatronics/material_handling/dumper/state.rs:33-35 | sets the flag and leaves the action alone |
| IntakeState.GlobalIntakeState.constructor | src/mechatronics/bucket_ladder/state/mod.rs:20-28 | initial state: disabled, digger and actuator at 0, no limit switch tripped |
| IntakeState.GlobalIntakeState.GetCurrentState | src/mechatronics/bucket_ladder/state/mod.rs:30-38 | the snapshot copies both limit snapshots, both motor speeds and `enabled` |
| IntakeState.GlobalIntakeState.SetEnabled | src/mechatronics/bucket_ladder/state/mod.rs:40-42 | `get_enabled` returns what `set_enabled` stored |
| IntakeState.WriteThroughGetter | src/mechatronics/bucket_ladder/state/mod.rs:52-58 | a speed written through the `get_digger` cell is the next snapshot's digger speed; the actuator is unchanged |
| LimitState.GlobalLimitState.constructor | src/mechatronics/bucket_ladder/state/limit.rs:11-16 | neither switch starts tripped; the two cells are separate |
| LimitState.GlobalLimitState.GetCurrentState | src/mechatronics/bucket_ladder/state/limit.rs:18-23 | the snapshot copies both switches |
| LimitState.GlobalLimitState.SetUpper | src/mechatronics/bucket_ladder/state/limit.rs:25-27 | sets the upper switch only |
| LimitState.GlobalLimitState.SetLower | src/mechatronics/bucket_ladder/state/limit.rs:29-31 | sets the lower switch only |
| RobotState.GlobalRobotState.constructor | src/status/robot_state.rs:20-27 | at launch: alive, all three subsystems disabled, every motor at 0 |
| RobotState.GlobalRobotState.GetCurrentState | src/status/robot_state.rs:45-52 | the robot snapshot is the four parts' own snapshots |
| DigitalInput.DigitalInputMonitor.constructor | src/sensors/digital.rs:32-38 | keeps the flag it updates and its default |
| DigitalInput.DigitalInputMonitor.Init | src/sensors/digital.rs:16-22 | `init` stores the reading, or the default when the input yields nothing |
| DigitalInput.DigitalInputMonitor.Run | src/sensors/digital.rs:24-28 | `run` stores the reading; with no reading the flag keeps its value |
| Mechatronics.CodeRoundTrip | src/mechatronics/mod.rs:18-25 | decoding inverts encoding; exactly the codes 0 and 1 decode |
| Mechatronics.GlobalLifeStatus.constructor | src/mechatronics/mod.rs:33-37 | a new status is Alive |
| Mechatronics.GlobalLifeStatus.GetStatus | src/mechatronics/mod.rs:39-41 | `get_status` decodes the stored code without panicking |
| Mechatronics.IsAliveMatchesStatus | src/mechatronics/mod.rs:39-45 | `is_alive` holds exactly when `get_status` is Alive |
| Mechatronics.GlobalLifeStatus.Kill | src/mechatronics/mod.rs:47-49 | the status becomes Dead |
| Mechatronics.GlobalLifeStatus.Revive | src/mechatronics/mod.rs:51-53 | the status becomes Alive |
| Mechatronics.Create | src/mechatronics/mod.rs:207-227 | Ok exactly when both speeds lie in [-1, 1]; the message carries them unchanged |
| Mechatronics.MechatronicsMessageSender.constructor | src/mechatronics/mod.rs:87-92 | keeps its channel and life status |
| Mechatronics.MechatronicsMessageSender.Revive | src/mechatronics/mod.rs:95-97 | sets the status Alive; sends nothing |
| Mechatronics.MechatronicsMessageSender.Kill | src/mechatronics/mod.rs:100-110 | sends brake, stop digging, stop dumper, freeze height; sets Dead; sends the four again |
| Mechatronics.MechatronicsMessageSender.Drive | src/mechatronics/mod.rs:117-126 | Ok exactly when both speeds are in range; then one Drive with both speeds is sent, otherwise nothing |
| Mechatronics.MechatronicsMessageSender.Brake | src/mechatronics/mod.rs:129-131 | appends exactly Brake; both connection flags unchanged |
| Mechatronics.MechatronicsMessageSender.EnableDriveTrain | src/mechatronics/mod.rs:134-136 | appends exactly EnableDrive; both connection flags unchanged |
| Mechatronics.MechatronicsMessageSender.DisableDriveTrain | src/mechatronics/mod.rs:139-141 | appends exactly DisableDrive; both connection flags unchanged |
| Mechatronics.MechatronicsMessageSender.DisableDumper | src/mechatronics/mod.rs:143-145 | appends exactly DisableDumper; both connection flags unchanged |
| Mechatronics.MechatronicsMessageSender.EnableDumper | src/mechatronics/mod.rs:147-149 | appends exactly EnableDumper; both connection flags unchanged |
| Mechatronics.MechatronicsMessageSender.Dump | src/mechatronics/mod.rs:151-153 | appends exactly Dump; both connection flags unchanged |
| Mechatronics.MechatronicsMessageSender.ResetDumper | src/mechatronics/mod.rs:155-157 | appends exactly ResetDumper; both connection flags unchanged |
| Mechatronics.MechatronicsMessageSender.StopDumper | src/mechatronics/mod.rs:159-161 | appends exactly StopDumper; both connection flags unchanged |
| Mechatronics.MechatronicsMessageSender.EnableLadder | src/mechatronics/mod.rs:163-165 | appends exactly EnableBucketLadder; both connection flags unchanged |
| Mechatronics.MechatronicsMessageSender.DisableLadder | src/mechatronics/mod.rs:167-169 | appends exactly DisableBucketLadder; both connection flags unchanged |
| Mechatronics.MechatronicsMessageSender.Dig | src/mechatronics/mod.rs:171-173 | appends exactly Dig; both connection flags unchanged |
| Mechatronics.MechatronicsMessageSender.StopDigger | src/mechatronics/mod.rs:175-177 | appends exactly StopDigging; both connection flags unchanged |
| Mechatronics.MechatronicsMessageSender.RaiseLadder | src/mechatronics/mod.rs:179-181 | appends exactly RaiseDigger; both connection flags unchanged |
| Mechatronics.MechatronicsMessageSender.LowerLadder | src/mechatronics/mod.rs:183-185 | appends exactly LowerDigger; both connection flags unchanged |
| Mechatronics.MechatronicsMessageSender.FreezeLadderHeight | src/mechatronics/mod.rs:187-189 | appends exactly FreezeDiggerHeight; both connection flags unchanged |
| Mechatronics.MechatronicsMessageSender.SendCommand | src/mechatronics/mod.rs:192-194 | appends the command to the channel; both connection flags unchanged |
| DeviceMotors.DeviceMotor.constructor | src/devices/motor_controllers/mod.rs:3-20 | a new motor reports through its cell and is not inverted |
| DeviceMotors.DeviceMotor.SetSpeed | src/devices/motor_controllers/mod.rs:7 | the cell holds the commanded speed; the direction is unchanged |
| DeviceMotors.DeviceMotor.Stop | src/devices/motor_controllers/mod.rs:11 | the cell holds 0 |
| DeviceMotors.DeviceMotor.Invert | src/devices/motor_controllers/mod.rs:15-19 | `is_inverted` flips; the cell is unchanged |
| LastSpeedGroup.SetAndStopReadBack | src/devices/motor_controllers/motor_group/mod.rs:23-31 | after `set_speed(s)` every member and the remembered speed are s; after `stop`, 0 |
| LastSpeedGroup.InvertTwiceRestores | src/devices/motor_controllers/motor_group/mod.rs:33-36 | two inversions restore the remembered speed and every member's direction |
| LastSpeedGroup.MaintainLastIdempotent | src/devices/motor_controllers/motor_group/mod.rs:38-40 | `maintain_last` keeps the remembered speed, settles the members on it, and is idempotent |
| LastSpeedGroup.MotorGroup.View | src/devices/motor_controllers/motor_group/mod.rs:10-13 | the view has one speed and one direction per member |
| LastSpeedGroup.MotorGroup.constructor | src/devices/motor_controllers/motor_group/mod.rs:16-21 | given motors none of which appears twice, a new group remembers 0 and is valid |
| LastSpeedGroup.MotorGroup.SetSpeed | src/devices/motor_controllers/motor_group/mod.rs:23-26 | the new view is `SetSpeedSpec` of the old one |
| LastSpeedGroup.MotorGroup.Stop | src/devices/motor_controllers/motor_group/mod.rs:28-31 | the new view is `StopSpec` of the old one |
| LastSpeedGroup.MotorGroup.Invert | src/devices/motor_controllers/motor_group/mod.rs:33-36 | the new view is `InvertSpec` of the old one |
| LastSpeedGroup.MotorGroup.MaintainLast | src/devices/motor_controllers/motor_group/mod.rs:38-40 | the new view is `MaintainLastSpec` of the old one |
| LastSpeedGroup.MotorGroup.GetStates | src/devices/motor_controllers/motor_group/mod.rs:42-48 | one state cell per motor, in group order |
| InvertibleGroup.InvertTwiceRestores | src/devices/motor_controllers/motor_group.rs:21-27 | inverting twice restores the group flag and every member's direction; speeds are untouched |
| InvertibleGroup.MotorGroup.View | src/devices/motor_controllers/motor_group.rs:3-6 | the view has one speed and one direction per member |
| InvertibleGroup.MotorGroup.constructor | src/devices/motor_controllers/motor_group.rs:35-40 | a new group is not inverted |
| InvertibleGroup.MotorGroup.SetSpeed | src/devices/motor_controllers/motor_group.rs:9-13 | every member gets the same speed; directions are unchanged |
| InvertibleGroup.MotorGroup.Stop | src/devices/motor_controllers/motor_group.rs:15-19 | every member is stopped |
| InvertibleGroup.MotorGroup.Invert | src/devices/motor_controllers/motor_group.rs:21-27 | the group flag toggles and every member is inverted |
| InvertibleGroup.InvertTwice | src/devices/motor_controllers/motor_group.rs:29-31 | `is_inverted` after two `invert` calls equals its value before them |
| Motors.StateOf | src/motor_controllers/decorators/inversion.rs:17-19 | a decorator reports its wrapped motor's cell; a group reports its own |
| Motors.StopZeroesEveryCell | src/motor_controllers/mod.rs:16-17 | after `stop`, every state cell the motor owns reads 0 |
| Motors.GroupStateReadsBack | src/motor_controllers/motor_group.rs:12-18 | a group's own cell reads back exactly the speed it was set to |
| Motors.GroupStateReadsZeroAfterStop | src/motor_controllers/motor_group.rs:20-26 | a group's own cell reads 0 after `stop` |
| Motors.GroupForwardsToMembers | src/motor_controllers/motor_group.rs:12-18 | every member receives the group's speed, in member order |
| Motors.InversionForwardsNegation | src/motor_controllers/decorators/inversion.rs:9-15 | an inverted motor forwards the negated speed; two inversions forward the original |
| Motors.InvertedHardwareReadsBack | src/devices/motor_controllers/decorators/inversion.rs:9-15 | an inverted hardware motor reads back the negated speed, and 0 after stop |
| Motors.DualLimitPassesFreeDirection | src/motor_controllers/decorators/dual_limit.rs:16-23 | a speed pointing away from a tripped limit is forwarded unchanged |
| Motors.DualLimitBlocksTrippedDirection | src/motor_controllers/decorators/dual_limit.rs:16-27 | 0, positive-at-upper and negative-at-lower stop the wrapped motor instead |
| Motors.FlagPassesWhileClear | src/devices/motor_controllers/decorators/limit.rs:14-20 | while the flag is clear the speed is forwarded |
| Motors.FlagBlocksWhileSet | src/devices/motor_controllers/decorators/limit.rs:14-24 | while the flag is set, `set_speed` stops the wrapped motor |
| Motors.SetSpeed | src/motor_controllers/mod.rs:10-14 | every cell the motor owns ends with its last write; cells it does not own are untouched |
| Motors.Stop | src/motor_controllers/mod.rs:16-17 | every cell the motor owns ends with its last write, which is 0 |
| Motors.StopAndSettle | src/motor_controllers/mod.rs:16-17 | after `stop` every owned cell reads 0 and no other cell changes |
| MechDriveTrain.BrakeStops | src/mechatronics/drive_train/mod.rs:51-54 | `brake` stops both sides, remembering 0, and changes nothing else |
| MechDriveTrain.DriveGate | src/mechatronics/drive_train/mod.rs:40-48 | the sides run at the requested speeds exactly when enabled and alive; otherwise `drive` brakes |
| MechDriveTrain.DriveWhileDeadStopped | src/mechatronics/drive_train/mod.rs:40-48 | after a kill, `drive` leaves every speed at 0, even while enabled |
| MechDriveTrain.EnableDisable | src/mechatronics/drive_train/mod.rs:57-65 | `enable` leaves the speeds alone; `disable` clears the flag and brakes |
| MechDriveTrain.RunCycleMaintains | src/mechatronics/drive_train/mod.rs:31-37 | `run_cycle` re-applies the remembered speeds when enabled and alive, and brakes otherwise |
| MechDriveTrain.RunCycleAfterDriveKeeps | src/mechatronics/drive_train/mod.rs:31-48 | a cycle right after an enabled, alive `drive` changes nothing |
| MechDriveTrain.DriveTrain.constructor | src/mechatronics/drive_train/mod.rs:21-28 | takes two separate groups, the life and the shared state |
| MechDriveTrain.DriveTrain.RunCycle | src/mechatronics/drive_train/mod.rs:31-37 | the new view is `RunCycleSpec` of the old one and the life |
| MechDriveTrain.DriveTrain.Drive | src/mechatronics/drive_train/mod.rs:40-48 | the new view is `DriveSpec` of the old one, the life and the speeds |
| MechDriveTrain.DriveTrain.Brake | src/mechatronics/drive_train/mod.rs:51-54 | the new view is `BrakeSpec` of the old one |
| MechDriveTrain.DriveTrain.Enable | src/mechatronics/drive_train/mod.rs:57-59 | the new view is `EnableSpec` of the old one |
| MechDriveTrain.DriveTrain.Disable | src/mechatronics/drive_train/mod.rs:62-65 | the new view is `DisableSpec` of the old one |
| MechDriveTrain.DriveTrain.GetMotorStates | src/mechatronics/drive_train/mod.rs:67-71 | the left group's cells, then the right group's |
| MechDriveTrain.DriveTrain.MaintainLast | src/mechatronics/drive_train/mod.rs:73-76 | both groups re-apply their remembered speed |
| Intake.DigWhenEnabled | src/mechatronics/bucket_ladder/mod.rs:68-78 | an enabled, alive intake digs at `DIGGING_RATE` and reverses at its negation |
| Intake.DigBlocked | src/mechatronics/bucket_ladder/mod.rs:46-78 | after `disable` or while dead, `dig` and `reverse` leave the ladder where it was (0 after `disable`) |
| Intake.DigIgnoresSharedFlag | src/mechatronics/bucket_ladder/mod.rs:68-91 | digging reads the cache, not the shared flag |
| Intake.ActuatorUngated | src/mechatronics/bucket_ladder/mod.rs:53-66 | raise and lower ignore both flags and life, and only move the actuator |
| Intake.Intake.constructor | src/mechatronics/bucket_ladder/mod.rs:29-39 | the cache starts as a copy of the shared flag, and the actuator as Stopped |
| Intake.Intake.Enable | src/mechatronics/bucket_ladder/mod.rs:41-44 | the new view is `EnableSpec` of the old one |
| Intake.Intake.Disable | src/mechatronics/bucket_ladder/mod.rs:46-51 | the new view is `DisableSpec` of the old one |
| Intake.Intake.Raise | src/mechatronics/bucket_ladder/mod.rs:53-56 | the new view is `RaiseSpec` of the old one |
| Intake.Intake.Lower | src/mechatronics/bucket_ladder/mod.rs:58-61 | the new view is `LowerSpec` of the old one |
| Intake.Intake.StopActuators | src/mechatronics/bucket_ladder/mod.rs:63-66 | the new view is `StopActuatorsSpec` of the old one |
| Intake.Intake.Dig | src/mechatronics/bucket_ladder/mod.rs:68-72 | the new view is `DigSpec` of the old one and the life |
| Intake.Intake.Reverse | src/mechatronics/bucket_ladder/mod.rs:74-78 | the new view is `ReverseSpec` of the old one and the life |
| Intake.Intake.StopDigging | src/mechatronics/bucket_ladder/mod.rs:80-82 | the new view is `StopDiggingSpec` of the old one |
| Intake.Intake.RunCycle | src/mechatronics/bucket_ladder/mod.rs:84-86 | a cycle changes nothing |
| Dumper.RunCycleStopsAtLimit | src/mechatronics/dumper/mod.rs:65-81 | a cycle stops the motor exactly when enabled and moving into a tripped limit; otherwise it changes nothing |
| Dumper.DisabledStaysStill | src/mechatronics/dumper/mod.rs:40-58 | after `disable`, `dump` and `reset` leave the motor at 0, whatever the switches and life |
| Dumper.LimitsGuardMoves | src/mechatronics/dumper/mod.rs:46-58 | a tripped limit blocks the move toward it; a clear one lets an enabled, alive dumper move |
| Dumper.DeadDumpingKeepsRunning | src/mechatronics/dumper/mod.rs:65-81 | the cycle ignores life: a dead dumping dumper keeps its motor running until the limit trips |
| Dumper.Dumper.constructor | src/mechatronics/dumper/mod.rs:24-33 | the local flag copies the shared one; the action starts as Stopped |
| Dumper.Dumper.Enable | src/mechatronics/dumper/mod.rs:35-38 | the new view is `EnableSpec` of the old one |
| Dumper.Dumper.Disable | src/mechatronics/dumper/mod.rs:40-44 | the new view is `DisableSpec` of the old one |
| Dumper.Dumper.Dump | src/mechatronics/dumper/mod.rs:46-51 | the new view is `DumpSpec` of the old one and the life |
| Dumper.Dumper.Reset | src/mechatronics/dumper/mod.rs:53-58 | the new view is `ResetSpec` of the old one and the life |
| Dumper.Dumper.Stop | src/mechatronics/dumper/mod.rs:60-63 | the new view is `StopSpec` of the old one |
| Dumper.Dumper.RunCycle | src/mechatronics/dumper/mod.rs:65-81 | the new view is `RunCycleSpec` of the old one |
| MaterialBucketLadder.RefusedMoveStops | src/mechatronics/material_handling/bucket_ladder/mod.rs:50-80 | without enabled and life, `raise`, `lower` and `dig` set their action to Stopped and stop their group |
| MaterialBucketLadder.DisableRests | src/mechatronics/material_handling/bucket_ladder/mod.rs:44-48 | `disable` leaves the ladder at rest |
| MaterialBucketLadder.DeadCycleCollapses | src/mechatronics/material_handling/bucket_ladder/mod.rs:87-98 | one dead or disabled cycle brings the ladder to rest, and later cycles keep it there |
| MaterialBucketLadder.BucketLadder.constructor | src/mechatronics/material_handling/bucket_ladder/mod.rs:29-38 | a new ladder is enabled and at a standstill |
| MaterialBucketLadder.BucketLadder.Enable | src/mechatronics/material_handling/bucket_ladder/mod.rs:40-42 | the new view is `EnableSpec` of the old one |
| MaterialBucketLadder.BucketLadder.Disable | src/mechatronics/material_handling/bucket_ladder/mod.rs:44-48 | the new view is `DisableSpec` of the old one |
| MaterialBucketLadder.BucketLadder.Raise | src/mechatronics/material_handling/bucket_ladder/mod.rs:50-57 | the new view is `RaiseSpec` of the old one and the life |
| MaterialBucketLadder.BucketLadder.Lower | src/mechatronics/material_handling/bucket_ladder/mod.rs:59-66 | the new view is `LowerSpec` of the old one and the life |
| MaterialBucketLadder.BucketLadder.StopActuators | src/mechatronics/material_handling/bucket_ladder/mod.rs:68-71 | the new view is `StopActuatorsSpec` of the old one |
| MaterialBucketLadder.BucketLadder.Dig | src/mechatronics/material_handling/bucket_ladder/mod.rs:73-80 | the new view is `DigSpec` of the old one and the life |
| MaterialBucketLadder.BucketLadder.StopDigging | src/mechatronics/material_handling/bucket_ladder/mod.rs:82-85 | the new view is `StopDiggingSpec` of the old one |
| MaterialBucketLadder.BucketLadder.RunCycle | src/mechatronics/material_handling/bucket_ladder/mod.rs:87-98 | the new view is `RunCycleSpec` of the old one and the life |
| MaterialDumper.DisableStops | src/mechatronics/material_handling/dumper/mod.rs:35-52 | `disable` stops the motors; afterwards `dump` and `reset` change nothing until `enable` |
| MaterialDumper.DeadCycleKeepsAction | src/mechatronics/material_handling/dumper/mod.rs:59-65 | while dead a cycle clears no Dumping or Resetting action, and the motors keep their last command |
| MaterialDumper.RunCycleIdempotent | src/mechatronics/material_handling/dumper/mod.rs:59-65 | a second cycle changes nothing the first did not |
| MaterialDumper.Dumper.constructor | src/mechatronics/material_handling/dumper/mod.rs:22-29 | a new dumper is enabled and Stopped |
| MaterialDumper.Dumper.Enable | src/mechatronics/material_handling/dumper/mod.rs:31-33 | the new view is `EnableSpec` of the old one |
| MaterialDumper.Dumper.Disable | src/mechatronics/material_handling/dumper/mod.rs:35-38 | the new view is `DisableSpec` of the old one |
| MaterialDumper.Dumper.Dump | src/mechatronics/material_handling/dumper/mod.rs:40-45 | the new view is `DumpSpec` of the old one and the life |
| MaterialDumper.Dumper.Reset | src/mechatronics/material_handling/dumper/mod.rs:47-52 | the new view is `ResetSpec` of the old one and the life |
| MaterialDumper.Dumper.Stop | src/mechatronics/material_handling/dumper/mod.rs:54-57 | the new view is `StopSpec` of the old one |
| MaterialDumper.Dumper.RunCycle | src/mechatronics/material_handling/dumper/mod.rs:59-65 | the new view is `RunCycleSpec` of the old one and the life |
| Commands.ExecuteKeepsCycles | src/mechatronics/commands/mod.rs:9-138 | no command touches the cycle counter |
| Commands.KillStopsEverything | src/mechatronics/commands/mod.rs:10-16 | after a kill the robot is dead and every motor still; no enabled flag changes |
| Commands.ReviveOnlyLife | src/mechatronics/commands/mod.rs:33-35 | revive sets life only |
| Commands.KillThenReviveStill | src/mechatronics/commands/mod.rs:10-35 | after kill then revive the robot is alive and still stands still |
| Commands.ModeSwitchEnablesExactlyOne | src/mechatronics/commands/mod.rs:41-65 | after a mode switch exactly one subsystem is enabled, and the two disabled ones are still |
| Commands.DriveForwardsSpeeds | src/mechatronics/commands/mod.rs:25-27 | an enabled, alive drive train runs each side at its own requested speed |
| Commands.SingleActionTouchesOne | src/mechatronics/commands/mod.rs:70-138 | a single-action command changes its own subsystem only, not even life |
| Commands.GenerateDriveCommand | src/mechatronics/commands/mod.rs:147-154 | a drive command exactly when both speeds lie in [-1, 1], carrying them unchanged |
| Commands.OutOfRangeRefused | src/mechatronics/commands/mod.rs:147-154 | out-of-range pairs are refused and the ends of the interval are accepted |
| Controller.NextCycle | src/mechatronics/controller.rs:46 | the `usize` counter stays in range, counts up by one, and wraps to 0 at the top |
| Controller.InitDisablesAll | src/mechatronics/controller.rs:30-35 | after `init` nothing is enabled and every motor is still |
| Controller.RunCountsOne | src/mechatronics/controller.rs:37-49 | a run with an empty queue only cycles; every run counts exactly one cycle |
| Controller.KilledRunStaysStill | src/mechatronics/controller.rs:37-49 | after a run receiving kill the robot is dead and still through any number of later runs receiving nothing; after a further run receiving revive it is alive and still through any number of such runs |
| Controller.QuietRunKeepsRest | src/mechatronics/controller.rs:37-49 | a robot at rest (every motor still, the dumper stopped) stays at rest, with its life unchanged, through a run receiving nothing |
| Controller.QuietRunsKeepRest | src/mechatronics/controller.rs:37-49 | the same through any number of runs receiving nothing |
| Controller.RobotController.constructor | src/mechatronics/controller.rs:53-63 | given subsystems that share `life`, own disjoint objects and do not hold the receiver, the new controller keeps them and is valid |
| Controller.RobotController.Init | src/mechatronics/controller.rs:30-35 | the new view is `InitSpec` of the old one |
| Controller.RobotController.Run | src/mechatronics/controller.rs:37-49 | the new view is `RunSpec` of the old one and the oldest pending command, which is taken from the channel |
| Controller.RobotController.Receive | src/mechatronics/controller.rs:38-40 | `try_recv` yields the oldest pending command, if any |
| Controller.RobotController.CycleSubsystems | src/mechatronics/controller.rs:42-44 | the drive train, dumper and intake cycle, in that order |
| Controller.RobotController.HandleMessage | src/mechatronics/controller.rs:81-83 | the new view is `ExecuteSpec` of the old one and the command |
| Controller.Execute | src/mechatronics/commands/mod.rs:9-138 | each command's calls on the subsystems, in source order, with the effect `ExecuteSpec` states |
| Control.Create | src/control/mod.rs:117-128 | a message exactly when both speeds lie in [-1, 1], else the range warning |
| Control.RobotView.constructor | src/control/mod.rs:46-51 | keeps the channel and the life lock |
| Control.RobotView.Revive | src/control/mod.rs:54-56 | writes Alive through the lock; a poisoned lock gives a fatal record |
| Control.RobotView.Kill | src/control/mod.rs:59-61 | writes Dead through the lock; a poisoned lock gives a fatal record |
| Control.RobotView.Drive | src/control/mod.rs:68-72 | out-of-range speeds give the warning and send nothing; otherwise one Drive is sent |
| Control.RobotView.Brake | src/control/mod.rs:75-77 | Ok exactly when the receiver is connected, and then Brake is queued; otherwise the fatal send record; both connection flags unchanged |
| Control.RobotView.EnableDriveTrain | src/control/mod.rs:80-82 | Ok exactly when the receiver is connected, and then Enable is queued; otherwise the fatal send record; both connection flags unchanged |
| Control.RobotView.DisableDriveTrain | src/control/mod.rs:85-87 | Ok exactly when the receiver is connected, and then Disable is queued; otherwise the fatal send record; both connection flags unchanged |
| Control.RobotView.SendCommand | src/control/mod.rs:89-94 | Ok exactly when the channel accepted the command, otherwise a fatal record |
| Control.RobotView.ChangeLifeStatus | src/control/mod.rs:96-104 | a sound lock takes the status; a poisoned one refuses with a fatal record and keeps its value |
| ControlDriveTrain.DriveOutcomes | src/control/drive_train.rs:46-81 | alive and enabled sets both speeds; disabled or dead stops both |
| ControlDriveTrain.KillReviveStaysStill | src/control/drive_train.rs:193-214 | after a dead cycle the sides are still, and stay still through any number of further cycles, dead or revived, until a new `drive` |
| ControlDriveTrain.StillThroughCycles | src/control/drive_train.rs:27-43 | a still drive train stays still through any number of cycles, and its flag does not change |
| ControlDriveTrain.DisableEnableDrive | src/control/drive_train.rs:397-420 | after `disable`, `drive` keeps the sides still; after `enable`, `drive(1, 1)` runs both at 1 |
| ControlDriveTrain.DriveTrain.constructor | src/control/drive_train.rs:17-24 | a new drive train is enabled |
| ControlDriveTrain.DriveTrain.RunCycle | src/control/drive_train.rs:27-43 | the new view is `RunCycleSpec`; the result is Ok exactly when neither group failed, else both groups' failures, left first; a sound life lock is required only when the flag is set, where the source reads it |
| ControlDriveTrain.DriveTrain.Drive | src/control/drive_train.rs:46-81 | the new view is `DriveSpec`; the result collects the groups' failures |
| ControlDriveTrain.DriveTrain.DriveCombinedGuard | src/control/drive_train/mod.rs:49-74 | the combined guard has the same effect and result as the nested one |
| ControlDriveTrain.DriveTrain.Brake | src/control/drive_train.rs:84-99 | both sides stop; the result collects the groups' failures |
| ControlDriveTrain.DriveTrain.Enable | src/control/drive_train.rs:102-104 | sets the flag only |
| ControlDriveTrain.DriveTrain.Disable | src/control/drive_train.rs:107-110 | clears the flag and brakes, reporting the brake's result |
| ControlDriveTrain.DriveTrain.MaintainLast | src/control/drive_train.rs:112-126 | both sides re-apply their remembered speed; the result collects the groups' failures |
| ControlController.DispatchMatchesCommand | src/control/controller.rs:26-56 | Drive forwards its speeds, Brake brakes, Enable only sets the flag, Disable clears it and brakes |
| ControlController.RobotController.constructor | src/control/controller.rs:60-70 | keeps its receiver, drive train and life, with nothing logged |
| ControlController.RobotController.Run | src/control/controller.rs:26-56 | takes at most one command; logs its failures, then cycles and logs the cycle's; the drive train's view follows `RunSpec`; a sound life lock is required only when the command or the cycle reads it |
| ControlController.RobotController.Dispatch | src/control/controller.rs:28-42 | the drive train's view follows the command's `CommandSpec`; the errors are the drive train's failures, none for `Enable`; a sound life lock is required only for `Drive` |
| ControlController.RobotController.Log | src/control/controller.rs:26-56 | every error goes to the log, in order |
| ChannelDriveTrain.GroupLogs | src/drive_train/mod.rs:115-137 | one record per failing group, left first |
| ChannelDriveTrain.DeadRunStops | src/drive_train/mod.rs:63-77 | a run while life is false leaves both sides still, whatever arrived |
| ChannelDriveTrain.DisableThenDrive | src/drive_train/mod.rs:98-146 | after Disable, Drive(1, 1) stops both sides; after Enable, it sets both to 1 |
| ChannelDriveTrain.DisconnectLogsFatal | src/drive_train/mod.rs:63-110 | a disconnected channel is logged once per run, as one fatal record, and changes nothing else |
| ChannelDriveTrain.DriveTrain.constructor | src/drive_train/mod.rs:86-95 | a new drive train is enabled, with nothing logged |
| ChannelDriveTrain.DriveTrain.Run | src/drive_train/mod.rs:63-77 | the new view is `RunSpec` and the new log entries are `RunLogs` of what was received |
| ChannelDriveTrain.DriveTrain.HandleNewCommand | src/drive_train/mod.rs:98-105 | the new view is `HandleSpec`; the log gains `CommandLogs` |
| ChannelDriveTrain.DriveTrain.HandleCommandChannelDisconnect | src/drive_train/mod.rs:107-110 | logs one fatal record |
| ChannelDriveTrain.DriveTrain.Drive | src/drive_train/mod.rs:115-127 | alive and enabled sets both sides; otherwise stops them; logs the groups' failures |
| ChannelDriveTrain.DriveTrain.Stop | src/drive_train/mod.rs:129-137 | both sides stop; logs the groups' failures |
| ChannelDriveTrain.DriveTrain.Enable | src/drive_train/mod.rs:139-141 | sets the flag only |
| ChannelDriveTrain.DriveTrain.Disable | src/drive_train/mod.rs:143-146 | clears the flag and stops |
| ChannelDriveTrain.DriveTrain.Kill | src/drive_train/mod.rs:148-150 | stops both sides |
| OperationsDriveTrain.UngatedDriveUntilCycle | src/operations/drive_train.rs:23-58 | an ungated `drive` runs the sides even when disabled or dead, and the next cycle brakes them |
| OperationsDriveTrain.UngatedAgreesWhenPermitted | src/operations/drive_train.rs:43-58 | when alive and enabled, the ungated and the gated drive agree |
| OperationsDriveTrain.DriveTrain.constructor | src/operations/drive_train.rs:14-21 | a new drive train is enabled |
| OperationsDriveTrain.DriveTrain.RunCycle | src/operations/drive_train.rs:23-41 | gated by the flag and then life; a sound life lock is required only when the flag is set, where the source reads it; the result collects the groups' failures |
| OperationsDriveTrain.DriveTrain.Drive | src/operations/drive_train.rs:43-58 | sets both sides with no gate; the result collects the groups' failures |
| OperationsDriveTrain.DriveTrain.Stop | src/operations/drive_train.rs:60-75 | both sides stop; the result collects the groups' failures |
| OperationsDriveTrain.DriveTrain.Enable | src/operations/drive_train.rs:77-79 | sets the flag only |
| OperationsDriveTrain.DriveTrain.Disable | src/operations/drive_train.rs:81-84 | clears the flag and stops |
| OperationsDriveTrain.DriveTrain.MaintainLast | src/operations/drive_train.rs:86-100 | both sides re-apply their remembered speed |
| RobotControl.NewAsWritten | src/robot_control/mod.rs:81-87 | as written: panics exactly when both speeds are in range |
| RobotControl.NewAsWrittenInverted | src/robot_control/mod.rs:81-87 | (0.5, 0.5) panics and (2, 0) builds a message |
| RobotControl.New | src/robot_control/mod.rs:81-87 | corrected: a message exactly when both speeds lie in [-1, 1], carrying them |
| RobotControl.NewAsWrittenIsComplement | src/robot_control/mod.rs:81-87 | the two forms disagree on every input |
| RobotControl.RobotView.constructor | src/robot_control/mod.rs:24-27 | stands for the struct literal (the source has no `new`): keeps the channel and the life lock |
| RobotControl.RobotView.Revive | src/robot_control/mod.rs:30-32 | writes Alive through the lock; a poisoned lock gives a fatal record |
| RobotControl.RobotView.Kill | src/robot_control/mod.rs:34-36 | writes Dead through the lock; a poisoned lock gives a fatal record |
| RobotControl.RobotView.Drive | src/robot_control/mod.rs:38-42 | corrected: out-of-range speeds panic before anything is sent; otherwise one Drive is sent |
| RobotControl.RobotView.DriveAsWritten | src/robot_control/mod.rs:38-42 | as written: a pair in range panics before anything is sent; any other pair is sent as one Drive |
| RobotControl.RobotView.Brake | src/robot_control/mod.rs:44-46 | Ok exactly when the receiver is connected, and then Brake is queued; otherwise the fatal send record; both connection flags unchanged |
| RobotControl.RobotView.EnableDriveTrain | src/robot_control/mod.rs:48-50 | Ok exactly when the receiver is connected, and then Enable is queued; otherwise the fatal send record; both connection flags unchanged |
| RobotControl.RobotView.DisableDriveTrain | src/robot_control/mod.rs:52-54 | Ok exactly when the receiver is connected, and then Disable is queued; otherwise the fatal send record; both connection flags unchanged |
| RobotControl.RobotView.SendCommand | src/robot_control/mod.rs:56-61 | Ok exactly when the channel accepted the command, else a fatal record |
| RobotControl.RobotView.ChangeLifeStatus | src/robot_control/mod.rs:63-71 | a sound lock takes the status; a poisoned one refuses with a fatal record |
| SubsystemsDriveTrain.SideEvents | src/subsystems/drive_train.rs:96-105 | the front motor is always called, the back one only if the front succeeded |
| SubsystemsDriveTrain.InversionFacts | src/subsystems/drive_train.rs:96-113 | stopping is setting 0, which inversion leaves alone; inverting twice changes nothing |
| SubsystemsDriveTrain.TankSide.constructor | src/subsystems/drive_train.rs:88-92 | a new side is not inverted |
| SubsystemsDriveTrain.TankSide.SetSpeed | src/subsystems/drive_train.rs:96-105 | sends the (possibly negated) speed to the front, then to the back only if the front took it |
| SubsystemsDriveTrain.TankSide.Stop | src/subsystems/drive_train.rs:107-109 | `stop` is `set_speed(0)` |
| SubsystemsDriveTrain.TankSide.Invert | src/subsystems/drive_train.rs:111-117 | `is_inverted` flips |
| SubsystemsDriveTrain.DriveTrain.constructor | src/subsystems/drive_train.rs:76-84 | a new drive train is enabled over its two sides |
| SubsystemsDriveTrain.DriveTrain.Enable | src/subsystems/drive_train.rs:38-40 | `is_enabled` becomes true |
| SubsystemsDriveTrain.DriveTrain.Disable | src/subsystems/drive_train.rs:43-45 | `is_enabled` becomes false |
| SubsystemsDriveTrain.DriveTrain.Drive | src/subsystems/drive_train.rs:60-73 | right side first, then left; panics with "not implemented" if either side fails; each motor ends at its side's (possibly negated) speed unless it or the front motor before it failed |
| SubsystemsDriveTrain.RightSideFirst | src/subsystems/drive_train.rs:60-73 | the first motor `drive` calls is the right front motor |
| FallibleGroup.Collected | src/control/drive_train.rs:46-81 | Ok exactly when no error was collected; an Err carries the errors |
| FallibleGroup.MaintainAfterSetOrStop | src/control/drive_train.rs:112-126 | re-applying the remembered speed after a set or a stop changes nothing |
| FallibleGroup.Reported | src/control/drive_train.rs:46-81 | a group call is Err exactly when its motors report a failure |
| FallibleGroup.MotorGroup.constructor | src/control/drive_train.rs:17-24 | a new group remembers 0 and keeps its fault |
| FallibleGroup.MotorGroup.SetSpeed | src/control/drive_train.rs:46-81 | remembers and applies the speed; reports the fault |
| FallibleGroup.MotorGroup.Stop | src/control/drive_train.rs:84-99 | remembers and applies 0; reports the fault |
| FallibleGroup.MotorGroup.MaintainLast | src/control/drive_train.rs:112-126 | re-applies the remembered speed; reports the fault |
| Text.TokenLength | src/comms/parsing.rs:32-46 | the run of non-whitespace that starts a string |
| Text.SplitWhitespace | src/comms/parsing.rs:32-33 | no contract of its own: the maximal whitespace-free runs; `SplitYieldsTokens`, `SplitJoin` and `SplitEmptyIffBlank` state its properties |
| Text.Trim | src/comms/parsing.rs:32-33 | no contract of its own: `trim_end` then `trim_start`; `TrimToken` states that a field from the split is unchanged |
| Text.RebuildMessage | src/comms/parsing.rs:17-19 | no contract of its own: the fold with its leading whitespace trimmed; `RebuildIsJoin` and `RebuildRoundTrip` state its properties |
| Text.TrimEnd | src/comms/driver_station/parsing.rs:20-49 | a prefix with no trailing whitespace |
| Text.TrimEach | src/comms/parsing.rs:32-46 | `.map(str::trim)` keeps the field count |
| Text.SplitYieldsTokens | src/comms/parsing.rs:32-46 | every field `split_whitespace` yields is non-empty and has no whitespace |
| Text.TrimToken | src/comms/parsing.rs:32-46 | `trim` leaves such a field unchanged |
| Text.TrimEachTokens | src/comms/parsing.rs:32-46 | trimming split fields changes none of them |
| Text.SplitJoin | src/comms/parsing.rs:17-19 | splitting the single-spaced join of tokens gives the tokens back |
| Text.RebuildIsJoin | src/comms/parsing.rs:17-19 | for whitespace-free fields `rebuild_message` is the single-spaced join |
| Text.RebuildRoundTrip | src/comms/parsing.rs:17-46 | rebuild after split and split after rebuild are round trips |
| Text.SplitAfterTrimEnd | src/comms/driver_station/parsing.rs:20-49 | trimming the end first does not change the fields |
| Text.SplitEmptyIffBlank | src/comms/parsing.rs:32-46 | no fields exactly when the message is all whitespace |
| CommsParsing.MessageParser.constructor | src/comms/parsing.rs:55-59 | a new parser has no readers |
| CommsParsing.MessageParser.Parse | src/comms/parsing.rs:32-46 | a blank message is the empty error; an unregistered id is the unknown error; a registered one is read from all the fields, id included |
| CommsParsing.MessageParser.AddReader | src/comms/parsing.rs:49-53 | stores the reader under its id either way; panics exactly when the id was already registered |
| CommsParsing.NewParserKnowsNothing | src/comms/parsing.rs:32-59 | a new parser finds every non-blank message unknown |
| Reading.StoredFunctionsApplied | src/comms/reading.rs:9-37 | `accept` runs the handler given to `new`, and `read` the reader given to `new` |
| Reading.Command.Accept | src/comms/reading.rs:9-13 | no contract of its own: applies the stored handler, as `StoredFunctionsApplied` states |
| Reading.CommandReader.Read | src/comms/reading.rs:27-31 | no contract of its own: applies the stored reader, as `StoredFunctionsApplied` states |
| Reading.Parser.constructor | src/comms/reading.rs:61-65 | a new parser has no readers |
| Reading.Parser.Parse | src/comms/reading.rs:45-58 | blank gives the empty error, unregistered gives unknown, registered gives the reader's result on all the fields |
| Reading.Parser.AddReader | src/comms/reading.rs:67-71 | stores the reader; panics exactly on a duplicate id |
| DsParsing.ParseDriveCommand | src/comms/driver_station/parsing.rs:52-83 | Ok exactly for three fields, two numbers, neither above 1; wrong counts and each bad number give their own error |
| DsParsing.ParseEnableCommand | src/comms/driver_station/parsing.rs:85-93 | Ok exactly for two fields naming a subsystem |
| DsParsing.ParseDisableCommand | src/comms/driver_station/parsing.rs:95-103 | Ok exactly for two fields naming a subsystem |
| DsParsing.ParseSubsystem | src/comms/driver_station/parsing.rs:105-110 | only "drive_train" names a subsystem |
| DsParsing.ParseReviveCommand | src/comms/driver_station/parsing.rs:112-119 | Ok exactly for one field |
| DsParsing.ParseKillCommand | src/comms/driver_station/parsing.rs:121-128 | Ok exactly for one field |
| DsParsing.ParseBrakeCommand | src/comms/driver_station/parsing.rs:130-137 | Ok exactly for one field |
| DsParsing.ParseMessage | src/comms/driver_station/parsing.rs:20-49 | no contract of its own: trims the end, splits and dispatches; `EmptyMessage`, `UnknownCommand` and `AcceptedMessages` state its results |
| DsParsing.Dispatch | src/comms/driver_station/parsing.rs:31-48 | no contract of its own: the `match` on the first field; `DispatchEmpty` and `DispatchAccepted` state its results |
| DsParsing.EmptyMessage | src/comms/driver_station/parsing.rs:20-49 | a message is refused with the empty-message warning exactly when it is blank |
| DsParsing.UnknownCommand | src/comms/driver_station/parsing.rs:20-49 | an unknown first field is refused, quoting the message without its trailing whitespace |
| DsParsing.AcceptedMessages | src/comms/driver_station/parsing.rs:20-137 | the exact field lists each message accepts |
| DsParsing.DriveLine | src/comms/driver_station/parsing.rs:52-83 | "drive a b" with two numbers at most 1 gives their drive message |
| DsParsing.DriveSpellings | src/comms/driver_station/parsing.rs:144-171 | "drive 1 -1", "drive 1.0 -1.0" and the mixed forms all give Drive(1, -1) |
| DsParsing.DriveBoundOneSided | src/comms/driver_station/parsing.rs:52-83 | values below -1 pass: only the upper bound is tested |
| DsParsing.SplitsAs | src/comms/driver_station/parsing.rs:20-49 | a single-spaced line of tokens splits back into them |
| DsDriveCommand.ParseAsWritten | src/comms/driver_station/parsing/mod.rs:29-42 | as written: fewer than two fields panic, and both speeds come from `args[1]` |
| DsDriveCommand.ParseAsWrittenDropsRight | src/comms/driver_station/parsing/mod.rs:29-42 | "drive 0.5 -0.5" gives Drive(0.5, 0.5), and a lone "drive" panics |
| DsDriveCommand.Parse | src/comms/driver_station/parsing/mod.rs:29-42 | corrected: three fields, each speed from its own field, neither above 1 |
| DsDriveCommand.ParseAgreesWithParseMessage | src/comms/driver_station/parsing/mod.rs:25-42 | the corrected parser agrees with the one `parse_message` uses on every field list |
| DsDriveCommand.GetCommand | src/comms/driver_station/parsing/mod.rs:25-27 | no contract of its own: the id "drive" |
| DsCommands.ExecuteInjective | src/comms/driver_station/commands/kill_command.rs:19-21 | different commands make different interface calls; kill kills, brake sends Stop, revive sends Revive |
| DsCommands.Execute | src/comms/driver_station/commands/drive_command.rs:21-23 | no contract of its own: the interface call each command's `execute` makes; `ExecuteInjective` states that the calls tell the commands apart |
| DsCommands.ToString | src/comms/driver_station/commands/drive_command.rs:15-17 | no contract of its own: the line each command's `to_string` prints; `SplitToString` and `ToStringRoundTrip` state its properties |
| DsCommands.ParseDrive | src/comms/driver_station/commands/drive_command.rs:38-62 | Ok exactly for three fields of two numbers, with no range check; each kind of bad input has its own error |
| DsCommands.InvalidArgumentsDistinct | src/comms/driver_station/commands/drive_command.rs:38-62 | the three invalid-number errors are distinct |
| DsCommands.ParseSubsystemFieldAsWritten | src/comms/driver_station/commands/enable_command.rs:45-52 | as written: panics exactly when there are fewer than two fields |
| DsCommands.ParseEnableAsWritten | src/comms/driver_station/commands/enable_command.rs:45-52 | as written: panics exactly on fewer than two fields, and otherwise answers as the corrected parser does |
| DsCommands.ParseDisableAsWritten | src/comms/driver_station/commands/disable_command.rs:45-52 | as written: panics exactly on fewer than two fields, and otherwise answers as the corrected parser does |
| DsCommands.LoneTogglePanics | src/comms/driver_station/commands/enable_command.rs:45-52 | a lone "enable" or "disable" panics as written, and gives the wrong-count error when corrected |
| DsCommands.ParseSubsystemField | src/comms/driver_station/commands/enable_command.rs:45-52 | corrected: exactly two fields, the second naming the subsystem |
| DsCommands.SubsystemFieldAgrees | src/comms/driver_station/commands/disable_command.rs:45-52 | wherever the as-written step does not panic, the corrected one gives the same result |
| DsCommands.ParseEnable | src/comms/driver_station/commands/enable_command.rs:45-52 | corrected: Ok exactly for two fields naming a subsystem, carrying it |
| DsCommands.ParseDisable | src/comms/driver_station/commands/disable_command.rs:45-52 | corrected: Ok exactly for two fields naming a subsystem, carrying it |
| DsCommands.ParseNullary | src/comms/driver_station/commands/kill_command.rs:38-44 | for kill, revive and brake: Ok exactly for at most one field, else a wrong count |
| DsCommands.Apply | src/comms/driver_station/commands/mod.rs:17-28 | no contract of its own: each parser kind runs its parser; `RegistryDispatch` and `ReadPrintedFields` state the results |
| DsCommands.ApplyAsWritten | src/comms/driver_station/commands/mod.rs:17-28 | as written: panics exactly for the enable and disable parsers on fewer than two fields, and otherwise gives what `Apply` gives |
| DsCommands.RegistryIds | src/comms/driver_station/commands/mod.rs:17-28 | the registry holds exactly the six ids |
| DsCommands.RegistryEntries | src/comms/driver_station/commands/mod.rs:17-28 | each of the six ids stores its own parser kind |
| DsCommands.CreateCommandParser | src/comms/driver_station/commands/mod.rs:17-28 | registers the six parsers without panicking |
| DsCommands.RegistryDispatch | src/comms/driver_station/commands/mod.rs:17-28 | corrected parsers: any first field but the six ids is unknown; each id runs its own parser |
| DsCommands.SplitToString | src/comms/driver_station/commands/drive_command.rs:15-17 | `to_string` prints its fields single-spaced |
| DsCommands.ReadPrintedFields | src/comms/driver_station/commands/enable_command.rs:16-18 | the parser under the first printed field reads the printed fields back |
| DsCommands.ToStringRoundTrip | src/comms/driver_station/commands/drive_command.rs:15-62 | parsing what `to_string` prints gives the command back, for every command |
| DsCommands.DriveExamples | src/comms/driver_station/commands/drive_command.rs:77-92 | the test inputs ["drive", "1", ".5"] and ["drive", "-1", "-.5"] give their drive commands |
| Arduino.BigEndian | src/arduino.rs:21-26 | the high and low bytes recompose the payload |
| Arduino.Checksum | src/arduino.rs:19-20 | no contract of its own: the low byte of the `u32` sum; `ChecksumDetectsLowByteChange` and `ChecksumBlindToHighBytes` state what it detects |
| Arduino.ReadBigEndian | src/arduino.rs:21-26 | the value's high and low bytes are the inputs |
| Arduino.BigEndianRoundTrip | src/arduino.rs:21-26 | splitting and reading back are inverse, both ways |
| Arduino.New | src/arduino.rs:18-39 | 12 bytes: 0x0A ×3, then 0x0D at 3, 6 and 9; the checksum at 4; the command at 5; both payloads big-endian at 7-8 and 10-11 |
| Arduino.Decode | src/arduino.rs:27-36 | a frame decodes only when its framing bytes are right, yielding its command byte |
| Arduino.DecodeNew | src/arduino.rs:18-39 | every frame `new` builds decodes to its inputs |
| Arduino.NewDecode | src/arduino.rs:18-39 | every frame that decodes is the one `new` builds from its decoding |
| Arduino.NewInjective | src/arduino.rs:12-39 | frames are equal exactly when their inputs are |
| Arduino.ChecksumDetectsLowByteChange | src/arduino.rs:19-20 | in any frame that decodes, overwriting the checksum, the command or a payload's low byte with another value makes the frame fail to decode |
| Arduino.ChecksumBlindToHighBytes | src/arduino.rs:19-20 | overwriting a payload's high byte in a built frame gives exactly the frame `new` builds for the changed payload, so the checksum cannot see it |

## Left out

- Concurrency: threads, `yield_now` loops and atomic orderings. Each model is one sequential caller.
- Lock poisoning: a read of a poisoned `RwLock` that the source unwraps panics; the model requires a sound lock exactly where the source reads it, and models the error where the source matches on it (the life writes of both `RobotView`s).
- ControlDriveTrain.DriveTrain.RunCycle, ControlDriveTrain.DriveTrain.Drive, ControlDriveTrain.DriveTrain.DriveCombinedGuard, OperationsDriveTrain.DriveTrain.RunCycle, ControlController.RobotController.Run, ControlController.RobotController.Dispatch, ChannelDriveTrain.DriveTrain.Run, ChannelDriveTrain.DriveTrain.HandleNewCommand and ChannelDriveTrain.DriveTrain.Drive: the panic on a poisoned life lock is not modelled; each requires a sound lock on the paths that read it.
- RobotControl.RobotView.Drive: the corrected operation; the source's `drive` calls the inverted `new`, which `RobotView.DriveAsWritten` models (see Findings).
- DsCommands.ParseEnable: the corrected parser; the source's panics on a lone field, which `ParseEnableAsWritten` models (see Findings).
- DsCommands.ParseDisable: the corrected parser; the source's panics on a lone field, which `ParseDisableAsWritten` models (see Findings).
- DsCommands.RegistryDispatch: states the registry over the corrected enable and disable parsers, so a lone "enable" is a wrong count where the source panics; `ApplyAsWritten` states exactly where the as-written parsers differ.
- Intake limit type: src/mechatronics/bucket_ladder/state/mod.rs types `left_limits` and `right_limits` as `actuator::GlobalActuatorLimitState`, which actuator.rs does not define (it defines `GlobalActuatorState`, a motor cell). The model uses limit.rs's `GlobalLimitState`, with its upper and lower flags.
- Subsystems drive-train motors: a `SubsystemsDriveTrain.Motor` has a fixed fault, so it fails every call or none. The source's boxed motor may fail any single call; since `drive` calls each motor at most once, no property depends on the fault staying fixed across calls.
- Robot state intake type: src/status/robot_state.rs imports the material-handling `GlobalIntakeState`, whose `new` takes three arguments, yet calls it with none. The model uses the mechatronics bucket-ladder state, whose `new` takes none.
- Logging: log text and timestamps. A log record keeps only its severity and description.
- Wrong-argument-count records: `get_wrong_arg_count_log` is not part of this model, so such a record keeps only its subject and the two counts.
- Number handling: float parsing (`str::parse::<f32>`), float formatting and subsystem `from_str`/`to_string` are function parameters.
- Floating point: f32 rounding, NaN and infinities are not modelled, and speeds are reals. `parse_message`'s `> 1.0` test lets NaN through, which the model does not show.
- Robot rates: the four rate constants are robot configuration whose values are not part of this model. Every property holds for all values.
- Subsystems' motors: `Box<dyn MotorController>` is modelled as the state cell the motor reports through. The drivers are hardware.
- Fallible motor group: the `MotorGroup` whose calls return `Result`, used by the older drive trains, is not part of this model. It is modelled from its call sites, as a group that remembers its speed and reports a fixed fault.
- Mechatronics.MechatronicsMessageSender.SendCommand: a send to a disconnected receiver unwraps and panics; the model requires a connected receiver instead of modelling that panic.
- Revive in the channel drive train: `DriveTrainCommand` in src/drive_train/mod.rs has no `Revive` variant, though revive_command.rs sends one. The model keeps the four variants of the enum and gives the driver-station commands their own `DriveTrainMessage`.
- Life type mismatch: the material-handling bucket ladder imports `GlobalLifeStatus` from src/mechatronics/mod.rs. The model follows that import. The mechatronics drive train (src/mechatronics/drive_train/mod.rs) types `robot_status` as `crate::status::life::GlobalLifeStatus`, which src/status/life.rs does not define. The model gives it life.rs's `GlobalLifeState`, as the drive train's own tests build it.
- Dumper limit flags: src/mechatronics/dumper/state.rs has no upper and lower limit flags, but the dumper reads them. The model adds them to the dumper state.
- Cycle counter width: the counter is taken as a 64-bit `usize`.
- Subsystems drive train, sides: `get_left_side`/`get_right_side` are `unimplemented!()`, so the sides are given to the constructor.
- Subsystems drive train, other calls: `init`, `run` and `if_disabled` are `unimplemented!()` and are not modelled.
- Interface results: `execute` unwraps the interface's results; the model records the call it makes.
- Command registry types: src/comms/driver_station/commands/mod.rs names `reading::Parser`, but its parsers implement the `CommandParser` of src/comms/parsing.rs. The registry is therefore built on `CommsParsing.MessageParser`.
- Command handlers: a `Command` handler's effect on the interface is modelled as a transform of an interface value.
- Arduino I/O: `ArduinoMotor::set_speed`, `Arduino::new`, `run`, `read_data` and the serial port are I/O and are not modelled.
- `Arduino.Decode`: the source has no decoder. It is the receiving side's reading of the frame, there to state the round trip.

## Findings

| source | as written | input that shows it | evidently intended | confidence | as-written member | corrected member |
|---|---|---|---|---|---|---|
| src/robot_control/mod.rs:81-87 | `DriveCommandMessage::new` panics when both speeds pass the range check, and builds a message otherwise | (0.5, 0.5) panics; (2.0, 0.0) builds a message | panic only when a speed lies outside [-1, 1] | not executed | RobotControl.NewAsWritten | RobotControl.New |
| src/comms/driver_station/parsing/mod.rs:29-42 | `DriveCommand::parse` reads the right speed from `args[1]` again and never checks the field count | ["drive", "0.5", "-0.5"] gives Drive(0.5, 0.5); ["drive"] panics on `args[1]` | exactly three fields, the right speed from `args[2]` | not executed | DsDriveCommand.ParseAsWritten | DsDriveCommand.Parse |
| src/comms/driver_station/commands/enable_command.rs:45-52 | the enable and disable parsers only refuse more than two fields, so one field reaches `args[1]` | ["enable"] and ["disable"] panic | fewer than two fields give the wrong-count error | not executed | DsCommands.ParseSubsystemFieldAsWritten | DsCommands.ParseSubsystemField |

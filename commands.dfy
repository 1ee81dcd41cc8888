/**
 * The robot commands of src/mechatronics/commands/mod.rs and what executing
 * each does to the controller's subsystems, stated on a view of the whole
 * controller.
 */
module Commands {
  import opened Shared
  import LastSpeedGroup
  import MechDriveTrain
  import Dumper
  import Intake

  /** Every command the factory can build; `Drive` carries its two speeds. */
  datatype RobotCommand =
    | Kill
    | Drive(left: real, right: real)
    | Revive
    | DriveSwitch
    | IntakeSwitch
    | DumperSwitch
    | Brake
    | Dig
    | StopDigger
    | Dump
    | StopDumper
    | ResetDumper
    | StopActuators
    | RaiseActuators
    | LowerActuators

  /** What the controller shows: life, the three subsystems and the cycle counter. */
  datatype ControllerView = ControllerView(
    alive: bool,
    drive: MechDriveTrain.DriveView,
    dumper: Dumper.DumperView,
    intake: Intake.IntakeView,
    cycles: nat)

  /** The effect of `execute` for each command, in the order its body runs. */
  function ExecuteSpec(v: ControllerView, c: RobotCommand): ControllerView
  {
    match c
    case Kill =>
      v.(alive := false,
         dumper := Dumper.StopSpec(v.dumper),
         drive := MechDriveTrain.BrakeSpec(v.drive),
         intake := Intake.StopDiggingSpec(Intake.StopActuatorsSpec(v.intake)))
    case Drive(l, r) => v.(drive := MechDriveTrain.DriveSpec(v.drive, v.alive, l, r))
    case Revive => v.(alive := true)
    case DriveSwitch =>
      v.(intake := Intake.DisableSpec(v.intake), dumper := Dumper.DisableSpec(v.dumper), drive := MechDriveTrain.EnableSpec(v.drive))
    case IntakeSwitch =>
      v.(dumper := Dumper.DisableSpec(v.dumper), drive := MechDriveTrain.DisableSpec(v.drive), intake := Intake.EnableSpec(v.intake))
    case DumperSwitch =>
      v.(drive := MechDriveTrain.DisableSpec(v.drive), intake := Intake.DisableSpec(v.intake), dumper := Dumper.EnableSpec(v.dumper))
    case Brake => v.(drive := MechDriveTrain.BrakeSpec(v.drive))
    case Dig => v.(intake := Intake.DigSpec(v.intake, v.alive))
    case StopDigger => v.(intake := Intake.StopDiggingSpec(v.intake))
    case Dump => v.(dumper := Dumper.DumpSpec(v.dumper, v.alive))
    case StopDumper => v.(dumper := Dumper.StopSpec(v.dumper))
    case ResetDumper => v.(dumper := Dumper.ResetSpec(v.dumper, v.alive))
    case StopActuators => v.(intake := Intake.StopActuatorsSpec(v.intake))
    case RaiseActuators => v.(intake := Intake.RaiseSpec(v.intake))
    case LowerActuators => v.(intake := Intake.LowerSpec(v.intake))
  }

  /** No command touches the cycle counter. */
  lemma ExecuteKeepsCycles(v: ControllerView, c: RobotCommand)
    ensures ExecuteSpec(v, c).cycles == v.cycles
  {
  }

  /** Every motor of the robot is still. */
  ghost predicate AllStill(v: ControllerView)
  {
    MechDriveTrain.Braked(v.drive) && v.dumper.speed == 0.0 && v.intake.ladder == 0.0 && v.intake.actuator == 0.0
  }

  /** Each subsystem's enabled flags, shared and cached. */
  function Flags(v: ControllerView): (bool, bool, bool, bool, bool)
  {
    (v.drive.enabled, v.dumper.sharedEnabled, v.dumper.enabled, v.intake.enabled, v.intake.enabledCache)
  }

  /** After a kill the robot is dead and every motor is still, but no enabled flag has changed. */
  lemma KillStopsEverything(v: ControllerView)
    ensures !ExecuteSpec(v, Kill).alive && AllStill(ExecuteSpec(v, Kill))
    ensures Flags(ExecuteSpec(v, Kill)) == Flags(v) && ExecuteSpec(v, Kill).cycles == v.cycles
  {
    MechDriveTrain.BrakeStops(v.drive);
  }

  /** Revive only sets life; no subsystem is touched, so nothing resumes moving. */
  lemma ReviveOnlyLife(v: ControllerView)
    ensures ExecuteSpec(v, Revive) == v.(alive := true)
  {
  }

  /** After a kill and a revive, the robot is alive and still stands still. */
  lemma KillThenReviveStill(v: ControllerView)
    ensures ExecuteSpec(ExecuteSpec(v, Kill), Revive).alive && AllStill(ExecuteSpec(ExecuteSpec(v, Kill), Revive))
  {
    KillStopsEverything(v);
  }

  /** Exactly one of drive train, intake and dumper is enabled after a mode switch, and the two disabled ones are still. */
  lemma ModeSwitchEnablesExactlyOne(v: ControllerView)
    ensures var w := ExecuteSpec(v, DriveSwitch);
      w.drive.enabled && !w.intake.enabled && !w.intake.enabledCache && !w.dumper.sharedEnabled && !w.dumper.enabled
      && w.intake.ladder == 0.0 && w.intake.actuator == 0.0 && w.dumper.speed == 0.0 && w.drive.left == v.drive.left && w.drive.right == v.drive.right
    ensures var w := ExecuteSpec(v, IntakeSwitch);
      !w.drive.enabled && w.intake.enabled && w.intake.enabledCache && !w.dumper.sharedEnabled && !w.dumper.enabled
      && MechDriveTrain.Braked(w.drive) && w.dumper.speed == 0.0
    ensures var w := ExecuteSpec(v, DumperSwitch);
      !w.drive.enabled && !w.intake.enabled && !w.intake.enabledCache && w.dumper.sharedEnabled && w.dumper.enabled
      && MechDriveTrain.Braked(w.drive) && w.intake.ladder == 0.0 && w.intake.actuator == 0.0
  {
    MechDriveTrain.EnableDisable(v.drive);
  }

  /** `DriveCommand` passes its speeds on unchanged: an enabled, alive drive train runs each side at its own speed. */
  lemma DriveForwardsSpeeds(v: ControllerView, l: real, r: real)
    requires v.drive.enabled && v.alive
    ensures var w := ExecuteSpec(v, Drive(l, r));
      LastSpeedGroup.Settled(w.drive.left) && w.drive.left.oldSpeed == l
      && LastSpeedGroup.Settled(w.drive.right) && w.drive.right.oldSpeed == r
      && w.(drive := v.drive) == v
  {
    MechDriveTrain.DriveGate(v.drive, v.alive, l, r);
  }

  /** The subsystem a single-action command works on, or none for the others. */
  datatype Target = DriveTrainTarget | IntakeTarget | DumperTarget | NoTarget

  function TargetOf(c: RobotCommand): Target
  {
    match c
    case Brake => DriveTrainTarget
    case Dig | StopDigger | StopActuators | RaiseActuators | LowerActuators => IntakeTarget
    case Dump | StopDumper | ResetDumper => DumperTarget
    case _ => NoTarget
  }

  /** A single-action command changes its own subsystem and nothing else, not even life. */
  lemma SingleActionTouchesOne(v: ControllerView, c: RobotCommand)
    requires TargetOf(c) != NoTarget
    ensures TargetOf(c) == DriveTrainTarget ==> ExecuteSpec(v, c).(drive := v.drive) == v
    ensures TargetOf(c) == IntakeTarget ==> ExecuteSpec(v, c).(intake := v.intake) == v
    ensures TargetOf(c) == DumperTarget ==> ExecuteSpec(v, c).(dumper := v.dumper) == v
  {
  }

  /** True when `x` lies in the closed interval [-1, 1]. */
  predicate InRange(x: real)
  {
    -1.0 <= x <= 1.0
  }

  /** `generate_drive_command`: a drive command exactly when both speeds are in [-1, 1], carrying them unchanged. */
  function GenerateDriveCommand(left: real, right: real): (r: Option<RobotCommand>)
    ensures r.Some? <==> (-1.0 <= left <= 1.0 && -1.0 <= right <= 1.0)
    ensures r.Some? ==> r.value == Drive(left, right)
  {
    if InRange(left) && InRange(right) then Some(Drive(left, right)) else None
  }

  /** Out-of-range pairs are refused and the extremes of the interval are accepted: fixed instances of `GenerateDriveCommand`'s contract, as the source's tests check them. */
  lemma OutOfRangeRefused()
    ensures GenerateDriveCommand(2.0, 1.0).None? && GenerateDriveCommand(-2.0, 1.0).None?
    ensures GenerateDriveCommand(1.0, -2.0).None? && GenerateDriveCommand(2.0, -2.0).None?
    ensures GenerateDriveCommand(1.0, -1.0) == Some(Drive(1.0, -1.0))
  {
  }
}

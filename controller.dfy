/**
 * The mechatronics controller loop of src/mechatronics/controller.rs and the
 * `execute` bodies of src/mechatronics/commands/mod.rs that run on it.
 */
module Controller {
  import opened Shared
  import opened MotorState
  import Channels
  import Life
  import MechDriveTrain
  import Dumper
  import Intake
  import opened Commands

  /** The cycle counter is a `usize`, taken here as 64 bits wide; `fetch_add` wraps around. */
  const USIZE_MODULUS: nat := 0x1_0000_0000_0000_0000

  function NextCycle(n: nat): (r: nat)
    ensures n < USIZE_MODULUS ==> r < USIZE_MODULUS
    ensures n + 1 < USIZE_MODULUS ==> r == n + 1
    ensures n + 1 == USIZE_MODULUS ==> r == 0
  {
    (n + 1) % USIZE_MODULUS
  }

  /** `init`: disable the drive train, the dumper and the intake. */
  function InitSpec(v: ControllerView): ControllerView
  {
    v.(drive := MechDriveTrain.DisableSpec(v.drive), dumper := Dumper.DisableSpec(v.dumper), intake := Intake.DisableSpec(v.intake))
  }

  /** The subsystem cycles, in order drive train, dumper, intake. */
  function CycleSpec(v: ControllerView): ControllerView
  {
    v.(drive := MechDriveTrain.RunCycleSpec(v.drive, v.alive), dumper := Dumper.RunCycleSpec(v.dumper))
  }

  /** `run`: handle the command received, if any, then cycle every subsystem and count the cycle. */
  function RunSpec(v: ControllerView, received: Option<RobotCommand>): ControllerView
  {
    var handled := if received.Some? then ExecuteSpec(v, received.value) else v;
    CycleSpec(handled).(cycles := NextCycle(v.cycles))
  }

  /** After `init` nothing is enabled and every motor is still. */
  lemma InitDisablesAll(v: ControllerView)
    ensures var w := InitSpec(v);
      !w.drive.enabled && !w.dumper.sharedEnabled && !w.dumper.enabled && !w.intake.enabled && !w.intake.enabledCache
      && AllStill(w) && w.alive == v.alive
  {
    MechDriveTrain.EnableDisable(v.drive);
  }

  /** A run with an empty queue only cycles; every run counts exactly one cycle. */
  lemma RunCountsOne(v: ControllerView, received: Option<RobotCommand>)
    requires v.cycles + 1 < USIZE_MODULUS
    ensures RunSpec(v, received).cycles == v.cycles + 1
    ensures RunSpec(v, None) == CycleSpec(v).(cycles := v.cycles + 1)
  {
  }

  /** `n` runs in a row that receive no command. */
  function QuietRuns(v: ControllerView, n: nat): ControllerView
    decreases n
  {
    if n == 0 then v else QuietRuns(RunSpec(v, None), n - 1)
  }

  /** Every motor still, the drive train remembering 0 and the dumper stopped: nothing a cycle restarts. */
  ghost predicate AtRest(v: ControllerView)
  {
    AllStill(v) && v.dumper.action == Dumper.Stopped
  }

  /** A run that receives nothing keeps a robot at rest, and keeps its life. */
  lemma QuietRunKeepsRest(v: ControllerView)
    requires AtRest(v)
    ensures AtRest(RunSpec(v, None)) && RunSpec(v, None).alive == v.alive
  {
    MechDriveTrain.RunCycleMaintains(v.drive, v.alive);
  }

  /** At rest through any number of runs that receive nothing. */
  lemma {:induction false} QuietRunsKeepRest(v: ControllerView, n: nat)
    requires AtRest(v)
    ensures AtRest(QuietRuns(v, n)) && QuietRuns(v, n).alive == v.alive
    decreases n
  {
    if n > 0 {
      QuietRunKeepsRest(v);
      QuietRunsKeepRest(RunSpec(v, None), n - 1);
    }
  }

  /**
   * A run that receives a kill leaves the robot dead and still, and it stays
   * so through any number of later runs that receive nothing; a run that then
   * receives a revive brings it back to life, still, and it stays still
   * through any number of such runs after that.
   */
  lemma KilledRunStaysStill(v: ControllerView, n: nat)
    ensures var w := QuietRuns(RunSpec(v, Some(Kill)), n); AllStill(w) && !w.alive
    ensures var w := QuietRuns(RunSpec(RunSpec(v, Some(Kill)), Some(Revive)), n); AllStill(w) && w.alive
  {
    KillStopsEverything(v);
    var k := ExecuteSpec(v, Kill);
    MechDriveTrain.RunCycleMaintains(k.drive, k.alive);
    var killed := RunSpec(v, Some(Kill));
    QuietRunsKeepRest(killed, n);
    var revived := ExecuteSpec(killed, Revive);
    MechDriveTrain.RunCycleMaintains(revived.drive, revived.alive);
    QuietRunsKeepRest(RunSpec(killed, Some(Revive)), n);
  }

  class RobotController {
    const commandReceiver: Channels.Channel<RobotCommand>
    const driveTrain: MechDriveTrain.DriveTrain
    const dumper: Dumper.Dumper
    const intake: Intake.Intake
    const life: Life.GlobalLifeState
    var cycles: nat

    /** All subsystems share the controller's life, and no object belongs to two subsystems. */
    ghost predicate Valid()
    {
      driveTrain.Valid() && intake.Valid()
      && driveTrain.life == life && dumper.life == life && intake.life == life
      && Others() !! driveTrain.Repr()
      && dumper.Repr() !! intake.Repr() && {dumper.state.upperLimit, dumper.state.lowerLimit} !! intake.Repr()
      && commandReceiver !in Repr()
    }

    /** Everything outside the drive train that the view reads. */
    ghost function Others(): set<object>
    {
      {this, life, dumper, dumper.state, dumper.motors, dumper.state.upperLimit, dumper.state.lowerLimit,
       intake, intake.state, intake.ladder, intake.actuator}
    }

    ghost function Repr(): set<object>
    {
      {this, life, driveTrain, dumper, dumper.state.upperLimit, dumper.state.lowerLimit}
      + driveTrain.Repr() + dumper.Repr() + intake.Repr()
    }

    ghost function View(): ControllerView
      reads Repr()
    {
      ControllerView(life.life, driveTrain.View(), dumper.View(), intake.View(), cycles)
    }

    constructor (commandReceiver: Channels.Channel<RobotCommand>, driveTrain: MechDriveTrain.DriveTrain,
                 dumper: Dumper.Dumper, intake: Intake.Intake, life: Life.GlobalLifeState, cycles: nat)
      requires driveTrain.Valid() && intake.Valid()
      requires driveTrain.life == life && dumper.life == life && intake.life == life
      requires {life, dumper, dumper.state, dumper.motors, dumper.state.upperLimit, dumper.state.lowerLimit,
                intake, intake.state, intake.ladder, intake.actuator} !! driveTrain.Repr()
      requires dumper.Repr() !! intake.Repr() && {dumper.state.upperLimit, dumper.state.lowerLimit} !! intake.Repr()
      requires commandReceiver !in {life, driveTrain, dumper, dumper.state.upperLimit, dumper.state.lowerLimit}
                                   + driveTrain.Repr() + dumper.Repr() + intake.Repr()
      ensures Valid()
      ensures this.commandReceiver == commandReceiver && this.driveTrain == driveTrain && this.dumper == dumper
      ensures this.intake == intake && this.life == life && this.cycles == cycles
    {
      this.commandReceiver := commandReceiver;
      this.driveTrain := driveTrain;
      this.dumper := dumper;
      this.intake := intake;
      this.life := life;
      this.cycles := cycles;
    }

    /** `init`: disable the drive train, the dumper and the intake. */
    method Init()
      requires Valid()
      modifies Repr()
      ensures View() == InitSpec(old(View()))
    {
      DisableDriveTrain();
      DisableDumper();
      DisableIntake();
    }

    method Run()
      requires Valid()
      modifies Repr(), commandReceiver
      ensures commandReceiver.queue == if old(commandReceiver.queue) == [] then [] else old(commandReceiver.queue)[1..]
      ensures View() == RunSpec(old(View()), if old(commandReceiver.queue) == [] then None else Some(old(commandReceiver.queue)[0]))
    {
      ghost var v0 := View();
      var received := Receive();
      ghost var rest := commandReceiver.queue;
      if received.Some? {
        HandleMessage(received.value);
        ExecuteKeepsCycles(v0, received.value);
      }
      CycleSubsystems();
      CountCycle();
      assert commandReceiver.queue == rest;
    }

    /** `try_recv` on the command channel: the oldest pending command, if any; nothing the view shows changes. */
    method Receive() returns (received: Option<RobotCommand>)
      requires Valid()
      modifies commandReceiver
      ensures received == if old(commandReceiver.queue) == [] then None else Some(old(commandReceiver.queue)[0])
      ensures commandReceiver.queue == if old(commandReceiver.queue) == [] then [] else old(commandReceiver.queue)[1..]
      ensures View() == old(View())
    {
      var message := commandReceiver.TryRecv();
      received := if message.Ok? then Some(message.value) else None;
    }

    /** The subsystem cycles of `run`, in order drive train, dumper, intake. */
    method CycleSubsystems()
      requires Valid()
      modifies Repr()
      ensures View() == CycleSpec(old(View()))
    {
      CycleDriveTrain();
      CycleDumper();
      intake.RunCycle();
    }

    method HandleMessage(command: RobotCommand)
      requires Valid()
      modifies Repr()
      ensures View() == ExecuteSpec(old(View()), command)
    {
      Execute(command, this);
    }

    method CountCycle()
      modifies this
      ensures View() == old(View()).(cycles := NextCycle(old(cycles)))
    {
      cycles := NextCycle(cycles);
    }

    // One method per subsystem call the commands make through the controller's
    // getters, each stating that only that subsystem's part of the view changes.

    method KillLife()
      requires Valid()
      modifies Repr()
      ensures View() == old(View()).(alive := false)
    {
      life.Kill();
    }

    method ReviveLife()
      requires Valid()
      modifies Repr()
      ensures View() == old(View()).(alive := true)
    {
      life.Revive();
    }

    method DriveDriveTrain(leftSpeed: real, rightSpeed: real)
      requires Valid()
      modifies Repr()
      ensures View() == old(View()).(drive := MechDriveTrain.DriveSpec(old(View()).drive, old(View()).alive, leftSpeed, rightSpeed))
    {
      driveTrain.Drive(leftSpeed, rightSpeed);
    }

    method BrakeDriveTrain()
      requires Valid()
      modifies Repr()
      ensures View() == old(View()).(drive := MechDriveTrain.BrakeSpec(old(View()).drive))
    {
      driveTrain.Brake();
    }

    method EnableDriveTrain()
      requires Valid()
      modifies Repr()
      ensures View() == old(View()).(drive := MechDriveTrain.EnableSpec(old(View()).drive))
    {
      driveTrain.Enable();
    }

    method DisableDriveTrain()
      requires Valid()
      modifies Repr()
      ensures View() == old(View()).(drive := MechDriveTrain.DisableSpec(old(View()).drive))
    {
      driveTrain.Disable();
    }

    method CycleDriveTrain()
      requires Valid()
      modifies Repr()
      ensures View() == old(View()).(drive := MechDriveTrain.RunCycleSpec(old(View()).drive, old(View()).alive))
    {
      driveTrain.RunCycle();
    }

    method EnableDumper()
      requires Valid()
      modifies Repr()
      ensures View() == old(View()).(dumper := Dumper.EnableSpec(old(View()).dumper))
    {
      ghost var dv, iv := driveTrain.View(), intake.View();
      dumper.Enable();
      assert driveTrain.View() == dv && intake.View() == iv;
    }

    method DisableDumper()
      requires Valid()
      modifies Repr()
      ensures View() == old(View()).(dumper := Dumper.DisableSpec(old(View()).dumper))
    {
      ghost var dv, iv := driveTrain.View(), intake.View();
      dumper.Disable();
      assert driveTrain.View() == dv && intake.View() == iv;
    }

    method DumpDumper()
      requires Valid()
      modifies Repr()
      ensures View() == old(View()).(dumper := Dumper.DumpSpec(old(View()).dumper, old(View()).alive))
    {
      ghost var dv, iv := driveTrain.View(), intake.View();
      dumper.Dump();
      assert driveTrain.View() == dv && intake.View() == iv;
    }

    method ResetDumper()
      requires Valid()
      modifies Repr()
      ensures View() == old(View()).(dumper := Dumper.ResetSpec(old(View()).dumper, old(View()).alive))
    {
      ghost var dv, iv := driveTrain.View(), intake.View();
      dumper.Reset();
      assert driveTrain.View() == dv && intake.View() == iv;
    }

    method StopDumper()
      requires Valid()
      modifies Repr()
      ensures View() == old(View()).(dumper := Dumper.StopSpec(old(View()).dumper))
    {
      ghost var dv, iv := driveTrain.View(), intake.View();
      dumper.Stop();
      assert driveTrain.View() == dv && intake.View() == iv;
    }

    method CycleDumper()
      requires Valid()
      modifies Repr()
      ensures View() == old(View()).(dumper := Dumper.RunCycleSpec(old(View()).dumper))
    {
      ghost var dv, iv := driveTrain.View(), intake.View();
      dumper.RunCycle();
      assert driveTrain.View() == dv && intake.View() == iv;
    }

    method EnableIntake()
      requires Valid()
      modifies Repr()
      ensures View() == old(View()).(intake := Intake.EnableSpec(old(View()).intake))
    {
      intake.Enable();
    }

    method DisableIntake()
      requires Valid()
      modifies Repr()
      ensures View() == old(View()).(intake := Intake.DisableSpec(old(View()).intake))
    {
      intake.Disable();
    }

    method DigIntake()
      requires Valid()
      modifies Repr()
      ensures View() == old(View()).(intake := Intake.DigSpec(old(View()).intake, old(View()).alive))
    {
      intake.Dig();
    }

    method StopIntakeDigging()
      requires Valid()
      modifies Repr()
      ensures View() == old(View()).(intake := Intake.StopDiggingSpec(old(View()).intake))
    {
      intake.StopDigging();
    }

    method RaiseIntake()
      requires Valid()
      modifies Repr()
      ensures View() == old(View()).(intake := Intake.RaiseSpec(old(View()).intake))
    {
      intake.Raise();
    }

    method LowerIntake()
      requires Valid()
      modifies Repr()
      ensures View() == old(View()).(intake := Intake.LowerSpec(old(View()).intake))
    {
      intake.Lower();
    }

    method StopIntakeActuators()
      requires Valid()
      modifies Repr()
      ensures View() == old(View()).(intake := Intake.StopActuatorsSpec(old(View()).intake))
    {
      intake.StopActuators();
    }

    function GetDriveTrain(): MechDriveTrain.DriveTrain
    {
      driveTrain
    }

    function GetDumper(): Dumper.Dumper
    {
      dumper
    }

    function GetIntake(): Intake.Intake
    {
      intake
    }

    function GetLife(): Life.GlobalLifeState
    {
      life
    }
  }

  /** `RobotCommand::execute`: each command's calls on the controller's subsystems, in source order. */
  method Execute(command: RobotCommand, controller: RobotController)
    requires controller.Valid()
    modifies controller.Repr()
    ensures controller.View() == ExecuteSpec(old(controller.View()), command)
  {
    match command
    case Kill =>
      controller.KillLife();
      controller.StopDumper();
      controller.BrakeDriveTrain();
      controller.StopIntakeActuators();
      controller.StopIntakeDigging();
    case Drive(l, r) => controller.DriveDriveTrain(l, r);
    case Revive => controller.ReviveLife();
    case DriveSwitch =>
      controller.DisableIntake();
      controller.DisableDumper();
      controller.EnableDriveTrain();
    case IntakeSwitch =>
      controller.DisableDumper();
      controller.DisableDriveTrain();
      controller.EnableIntake();
    case DumperSwitch =>
      controller.DisableDriveTrain();
      controller.DisableIntake();
      controller.EnableDumper();
    case Brake => controller.BrakeDriveTrain();
    case Dig => controller.DigIntake();
    case StopDigger => controller.StopIntakeDigging();
    case Dump => controller.DumpDumper();
    case StopDumper => controller.StopDumper();
    case ResetDumper => controller.ResetDumper();
    case StopActuators => controller.StopIntakeActuators();
    case RaiseActuators => controller.RaiseIntake();
    case LowerActuators => controller.LowerIntake();
  }
}

/**
 * The older control layer of src/control/mod.rs: a `RobotView` that other
 * threads use to send drive-train commands to the controller and to write
 * the robot's life status, with the range check on drive speeds.
 */
module Control {
  import opened Shared
  import opened Logging
  import Channels

  datatype RobotLifeStatus = Alive | Dead

  datatype DriveCommandMessage = DriveCommandMessage(leftSpeed: real, rightSpeed: real)

  datatype RobotControllerCommand = Drive(message: DriveCommandMessage) | Brake | Enable | Disable

  const RANGE_WARNING: string := "Error in creating a DriveCommandMessage: left speed and right speed must be in range [-1, 1]!"
  const SEND_FAILURE: string := "Failed to send message to RobotController!"
  const LIFE_FAILURE: string := "Failed to revive robot!"

  /** `check_speed`: the closed interval [-1, 1]. */
  predicate CheckSpeed(speed: real)
  {
    speed <= 1.0 && speed >= -1.0
  }

  /** `DriveCommandMessage::create`: a message exactly when both speeds are in range, else a warning. */
  function Create(leftSpeed: real, rightSpeed: real): (r: Result<DriveCommandMessage, LogData>)
    ensures r.Ok? <==> -1.0 <= leftSpeed <= 1.0 && -1.0 <= rightSpeed <= 1.0
    ensures r.Ok? ==> r.value.leftSpeed == leftSpeed && r.value.rightSpeed == rightSpeed
    ensures r.Err? ==> r.error == LogData(Warning, RANGE_WARNING)
  {
    if !(CheckSpeed(leftSpeed) && CheckSpeed(rightSpeed)) then Err(LogData(Warning, RANGE_WARNING))
    else Ok(DriveCommandMessage(leftSpeed, rightSpeed))
  }

  class RobotView {
    const channel: Channels.Channel<RobotControllerCommand>
    const robotLifeStatus: RwLock<RobotLifeStatus>

    constructor (channel: Channels.Channel<RobotControllerCommand>, robotLifeStatus: RwLock<RobotLifeStatus>)
      ensures this.channel == channel && this.robotLifeStatus == robotLifeStatus
    {
      this.channel := channel;
      this.robotLifeStatus := robotLifeStatus;
    }

    method Revive() returns (r: Result<(), LogData>)
      modifies robotLifeStatus
      ensures r.Ok? <==> !old(robotLifeStatus.poisoned)
      ensures robotLifeStatus.value == if r.Ok? then Alive else old(robotLifeStatus.value)
      ensures r.Err? ==> r.error == LogData(Fatal, LIFE_FAILURE)
      ensures robotLifeStatus.poisoned == old(robotLifeStatus.poisoned)
    {
      r := ChangeLifeStatus(Alive);
    }

    method Kill() returns (r: Result<(), LogData>)
      modifies robotLifeStatus
      ensures r.Ok? <==> !old(robotLifeStatus.poisoned)
      ensures robotLifeStatus.value == if r.Ok? then Dead else old(robotLifeStatus.value)
      ensures r.Err? ==> r.error == LogData(Fatal, LIFE_FAILURE)
      ensures robotLifeStatus.poisoned == old(robotLifeStatus.poisoned)
    {
      r := ChangeLifeStatus(Dead);
    }

    /** Out-of-range speeds are refused with the warning and nothing is sent. */
    method Drive(left: real, right: real) returns (r: Result<(), LogData>)
      modifies channel
      ensures !(CheckSpeed(left) && CheckSpeed(right)) ==>
        r == Err(LogData(Warning, RANGE_WARNING)) && channel.queue == old(channel.queue)
      ensures CheckSpeed(left) && CheckSpeed(right) ==>
        (r.Ok? <==> old(channel.receiverConnected))
        && channel.queue == if r.Ok? then old(channel.queue) + [RobotControllerCommand.Drive(DriveCommandMessage(left, right))] else old(channel.queue)
      ensures channel.receiverConnected == old(channel.receiverConnected) && channel.sendersConnected == old(channel.sendersConnected)
    {
      var command := Create(left, right);
      if command.Err? {
        return Err(command.error);
      }
      r := SendCommand(RobotControllerCommand.Drive(command.value));
    }

    method Brake() returns (r: Result<(), LogData>)
      modifies channel
      ensures r.Ok? <==> old(channel.receiverConnected)
      ensures r.Err? ==> r.error == LogData(Fatal, SEND_FAILURE)
      ensures channel.queue == if r.Ok? then old(channel.queue) + [RobotControllerCommand.Brake] else old(channel.queue)
      ensures channel.receiverConnected == old(channel.receiverConnected) && channel.sendersConnected == old(channel.sendersConnected)
    {
      r := SendCommand(RobotControllerCommand.Brake);
    }

    method EnableDriveTrain() returns (r: Result<(), LogData>)
      modifies channel
      ensures r.Ok? <==> old(channel.receiverConnected)
      ensures r.Err? ==> r.error == LogData(Fatal, SEND_FAILURE)
      ensures channel.queue == if r.Ok? then old(channel.queue) + [RobotControllerCommand.Enable] else old(channel.queue)
      ensures channel.receiverConnected == old(channel.receiverConnected) && channel.sendersConnected == old(channel.sendersConnected)
    {
      r := SendCommand(RobotControllerCommand.Enable);
    }

    method DisableDriveTrain() returns (r: Result<(), LogData>)
      modifies channel
      ensures r.Ok? <==> old(channel.receiverConnected)
      ensures r.Err? ==> r.error == LogData(Fatal, SEND_FAILURE)
      ensures channel.queue == if r.Ok? then old(channel.queue) + [RobotControllerCommand.Disable] else old(channel.queue)
      ensures channel.receiverConnected == old(channel.receiverConnected) && channel.sendersConnected == old(channel.sendersConnected)
    {
      r := SendCommand(RobotControllerCommand.Disable);
    }

    /** Ok exactly when the channel accepted the command; otherwise a fatal record. */
    method SendCommand(command: RobotControllerCommand) returns (r: Result<(), LogData>)
      modifies channel
      ensures r.Ok? <==> old(channel.receiverConnected)
      ensures r.Err? ==> r.error == LogData(Fatal, SEND_FAILURE)
      ensures channel.queue == if r.Ok? then old(channel.queue) + [command] else old(channel.queue)
      ensures channel.receiverConnected == old(channel.receiverConnected) && channel.sendersConnected == old(channel.sendersConnected)
    {
      var sent := channel.Send(command);
      if sent {
        r := Ok(());
      } else {
        r := Err(LogData(Fatal, SEND_FAILURE));
      }
    }

    /** Write `status` through the lock; a poisoned lock refuses with a fatal record. */
    method ChangeLifeStatus(status: RobotLifeStatus) returns (r: Result<(), LogData>)
      modifies robotLifeStatus
      ensures r.Ok? <==> !old(robotLifeStatus.poisoned)
      ensures robotLifeStatus.value == if r.Ok? then status else old(robotLifeStatus.value)
      ensures r.Err? ==> r.error == LogData(Fatal, LIFE_FAILURE)
      ensures robotLifeStatus.poisoned == old(robotLifeStatus.poisoned)
    {
      if !robotLifeStatus.poisoned {
        robotLifeStatus.value := status;
        r := Ok(());
      } else {
        r := Err(LogData(Fatal, LIFE_FAILURE));
      }
    }
  }
}

/**
 * The drive train of src/control/drive_train.rs (and its near-copy
 * src/control/drive_train/mod.rs, which differs in the failure type, covered
 * here by the type parameter `F`, and in the shape of the guard of `drive`).
 * Every operation collects the failures of the left group, then of the right
 * group, and succeeds exactly when there are none.
 */
module ControlDriveTrain {
  import opened Shared
  import opened FallibleGroup
  import Control

  datatype DriveView = DriveView(enabled: bool, left: SideView, right: SideView)

  function BrakeSpec(v: DriveView): DriveView
  {
    v.(left := StopSpec(), right := StopSpec())
  }

  /** `drive`: set both sides when alive and enabled, stop both otherwise. */
  function DriveSpec(v: DriveView, alive: bool, l: real, r: real): DriveView
  {
    if alive && v.enabled then v.(left := SetSpeedSpec(l), right := SetSpeedSpec(r)) else BrakeSpec(v)
  }

  function EnableSpec(v: DriveView): DriveView
  {
    v.(enabled := true)
  }

  function DisableSpec(v: DriveView): DriveView
  {
    BrakeSpec(v.(enabled := false))
  }

  function RunCycleSpec(v: DriveView, alive: bool): DriveView
  {
    if v.enabled && alive then v.(left := MaintainLastSpec(v.left), right := MaintainLastSpec(v.right)) else BrakeSpec(v)
  }

  /** Every motor still, remembering 0. */
  predicate Still(v: DriveView)
  {
    v.left == StopSpec() && v.right == StopSpec()
  }

  /** `drive` has three outcomes: alive and enabled sets both speeds; alive but disabled, or dead, stops both. */
  lemma DriveOutcomes(v: DriveView, alive: bool, l: real, r: real)
    ensures alive && v.enabled ==> DriveSpec(v, alive, l, r).left.speed == l && DriveSpec(v, alive, l, r).right.speed == r
    ensures alive && !v.enabled ==> Still(DriveSpec(v, alive, l, r))
    ensures !alive ==> Still(DriveSpec(v, alive, l, r))
    ensures DriveSpec(v, alive, l, r).enabled == v.enabled
  {
  }

  /** `n` cycles in a row with the same life and no command between them. */
  function Cycles(v: DriveView, alive: bool, n: nat): DriveView
    decreases n
  {
    if n == 0 then v else Cycles(RunCycleSpec(v, alive), alive, n - 1)
  }

  /** A still drive train stays still through any number of cycles; the flag does not change. */
  lemma {:induction false} StillThroughCycles(v: DriveView, alive: bool, n: nat)
    requires Still(v)
    ensures Still(Cycles(v, alive, n)) && Cycles(v, alive, n).enabled == v.enabled
    decreases n
  {
    if n > 0 {
      MaintainAfterSetOrStop(0.0);
      StillThroughCycles(RunCycleSpec(v, alive), alive, n - 1);
    }
  }

  /**
   * After a cycle while dead, the sides stay still through any number of
   * further cycles, dead or revived, until a new `drive`.
   */
  lemma KillReviveStaysStill(v: DriveView, n: nat)
    ensures Still(RunCycleSpec(v, false))
    ensures Still(Cycles(RunCycleSpec(v, false), false, n))
    ensures Still(Cycles(RunCycleSpec(v, false), true, n))
  {
    StillThroughCycles(RunCycleSpec(v, false), false, n);
    StillThroughCycles(RunCycleSpec(v, false), true, n);
  }

  /** After `disable`, `drive` keeps the sides still; after `enable`, `drive(1, 1)` runs both at 1. */
  lemma DisableEnableDrive(v: DriveView)
    ensures Still(DriveSpec(DisableSpec(v), true, 1.0, 1.0))
    ensures DriveSpec(EnableSpec(v), true, 1.0, 1.0).left.speed == 1.0 && DriveSpec(EnableSpec(v), true, 1.0, 1.0).right.speed == 1.0
  {
  }

  class DriveTrain<F> {
    var isEnabled: bool
    const left: MotorGroup<seq<F>>
    const right: MotorGroup<seq<F>>
    const robotStatus: RwLock<Control.RobotLifeStatus>

    ghost predicate Valid()
    {
      left != right
    }

    function View(): DriveView
      reads this, left, right
    {
      DriveView(isEnabled, left.View(), right.View())
    }

    /** What an operation on both sides reports: the left group's failures, then the right group's. */
    function Failures(): seq<F>
      reads left, right
    {
      ErrorsOf(Reported(left.fault)) + ErrorsOf(Reported(right.fault))
    }

    function Alive(): bool
      reads robotStatus
    {
      robotStatus.value == Control.Alive
    }

    /** A new drive train is enabled. */
    constructor (left: MotorGroup<seq<F>>, right: MotorGroup<seq<F>>, robotStatus: RwLock<Control.RobotLifeStatus>)
      ensures this.left == left && this.right == right && this.robotStatus == robotStatus && isEnabled
    {
      isEnabled := true;
      this.left := left;
      this.right := right;
      this.robotStatus := robotStatus;
    }

    /** The life lock is read only once the flag passed, and reading a poisoned lock panics. */
    method RunCycle() returns (r: Result<(), seq<F>>)
      requires Valid() && (isEnabled ==> !robotStatus.poisoned)
      modifies left, right
      ensures View() == RunCycleSpec(old(View()), Alive())
      ensures r == Collected(old(Failures())) && left.fault == old(left.fault) && right.fault == old(right.fault)
    {
      var errors: seq<F> := [];
      if isEnabled && robotStatus.value == Control.Alive {
        var res := MaintainLast();
        if res.Err? {
          errors := errors + res.error;
        }
      } else {
        var res := Brake();
        if res.Err? {
          errors := errors + res.error;
        }
      }
      assert errors == old(Failures());
      r := Collected(errors);
    }

    /** `drive` of src/control/drive_train.rs: life is tested first, then the flag. */
    method Drive(leftSpeed: real, rightSpeed: real) returns (r: Result<(), seq<F>>)
      requires Valid() && !robotStatus.poisoned
      modifies left, right
      ensures View() == DriveSpec(old(View()), Alive(), leftSpeed, rightSpeed)
      ensures r == Collected(old(Failures())) && left.fault == old(left.fault) && right.fault == old(right.fault)
    {
      var errors: seq<F> := [];
      if robotStatus.value == Control.Alive {
        if isEnabled {
          var a := left.SetSpeed(leftSpeed);
          if a.Err? {
            errors := errors + a.error;
          }
          var b := right.SetSpeed(rightSpeed);
          if b.Err? {
            errors := errors + b.error;
          }
        } else {
          var a := left.Stop();
          if a.Err? {
            errors := errors + a.error;
          }
          var b := right.Stop();
          if b.Err? {
            errors := errors + b.error;
          }
        }
      } else {
        var a := left.Stop();
        if a.Err? {
          errors := errors + a.error;
        }
        var b := right.Stop();
        if b.Err? {
          errors := errors + b.error;
        }
      }
      assert errors == old(Failures());
      r := Collected(errors);
    }

    /** `drive` of src/control/drive_train/mod.rs: one combined guard, the same effect. */
    method DriveCombinedGuard(leftSpeed: real, rightSpeed: real) returns (r: Result<(), seq<F>>)
      requires Valid() && !robotStatus.poisoned
      modifies left, right
      ensures View() == DriveSpec(old(View()), Alive(), leftSpeed, rightSpeed)
      ensures r == Collected(old(Failures())) && left.fault == old(left.fault) && right.fault == old(right.fault)
    {
      var errors: seq<F> := [];
      if robotStatus.value == Control.Alive && isEnabled {
        var a := left.SetSpeed(leftSpeed);
        if a.Err? {
          errors := errors + a.error;
        }
        var b := right.SetSpeed(rightSpeed);
        if b.Err? {
          errors := errors + b.error;
        }
      } else {
        var a := left.Stop();
        if a.Err? {
          errors := errors + a.error;
        }
        var b := right.Stop();
        if b.Err? {
          errors := errors + b.error;
        }
      }
      assert errors == old(Failures());
      r := Collected(errors);
    }

    method Brake() returns (r: Result<(), seq<F>>)
      requires Valid()
      modifies left, right
      ensures View() == BrakeSpec(old(View()))
      ensures r == Collected(old(Failures())) && left.fault == old(left.fault) && right.fault == old(right.fault)
    {
      var errors: seq<F> := [];
      var a := left.Stop();
      if a.Err? {
        errors := errors + a.error;
      }
      var b := right.Stop();
      if b.Err? {
        errors := errors + b.error;
      }
      assert errors == old(Failures());
      r := Collected(errors);
    }

    method Enable()
      modifies this
      ensures View() == EnableSpec(old(View()))
    {
      isEnabled := true;
    }

    method Disable() returns (r: Result<(), seq<F>>)
      requires Valid()
      modifies this, left, right
      ensures View() == DisableSpec(old(View()))
      ensures r == Collected(old(Failures())) && left.fault == old(left.fault) && right.fault == old(right.fault)
    {
      isEnabled := false;
      r := Brake();
    }

    method MaintainLast() returns (r: Result<(), seq<F>>)
      requires Valid()
      modifies left, right
      ensures View() == old(View()).(left := MaintainLastSpec(old(View()).left), right := MaintainLastSpec(old(View()).right))
      ensures r == Collected(old(Failures())) && left.fault == old(left.fault) && right.fault == old(right.fault)
    {
      var errors: seq<F> := [];
      var a := left.MaintainLast();
      if a.Err? {
        errors := errors + a.error;
      }
      var b := right.MaintainLast();
      if b.Err? {
        errors := errors + b.error;
      }
      assert errors == old(Failures());
      r := Collected(errors);
    }
  }
}

/**
 * The controller loop of src/control/controller.rs: at most one command per
 * run, its failures logged one by one, then a drive-train cycle whose
 * failures are logged too.
 */
module ControlController {
  import opened Shared
  import opened FallibleGroup
  import Channels
  import Control
  import opened ControlDriveTrain

  /** The effect of one command on the drive train. */
  function CommandSpec(v: DriveView, alive: bool, c: Control.RobotControllerCommand): DriveView
  {
    match c
    case Drive(m) => DriveSpec(v, alive, m.leftSpeed, m.rightSpeed)
    case Brake => BrakeSpec(v)
    case Enable => EnableSpec(v)
    case Disable => DisableSpec(v)
  }

  /** What a command logs: the drive train's failures, except `Enable`, which is always Ok. */
  function CommandFailures<F>(c: Control.RobotControllerCommand, failures: seq<F>): seq<F>
  {
    if c.Enable? then [] else failures
  }

  /** A run: the received command, if any, then a cycle. */
  function RunSpec(v: DriveView, alive: bool, received: Option<Control.RobotControllerCommand>): DriveView
  {
    RunCycleSpec(if received.Some? then CommandSpec(v, alive, received.value) else v, alive)
  }

  /**
   * Whether a run that receives `received` reads the life lock: `drive` always
   * reads it, and the cycle reads it when the drive train is then enabled.
   */
  predicate ReadsLife(v: DriveView, received: Option<Control.RobotControllerCommand>)
  {
    (received.Some? && received.value.Drive?)
    || (if received.Some? then CommandSpec(v, true, received.value) else v).enabled
  }

  /** Drive forwards its speeds, Brake brakes, Enable only sets the flag, Disable clears it and brakes. */
  lemma DispatchMatchesCommand(v: DriveView, alive: bool, l: real, r: real)
    ensures CommandSpec(v, alive, Control.Drive(Control.DriveCommandMessage(l, r))) == DriveSpec(v, alive, l, r)
    ensures Still(CommandSpec(v, alive, Control.Brake)) && CommandSpec(v, alive, Control.Brake).enabled == v.enabled
    ensures CommandSpec(v, alive, Control.Enable) == v.(enabled := true)
    ensures Still(CommandSpec(v, alive, Control.Disable)) && !CommandSpec(v, alive, Control.Disable).enabled
  {
  }

  class RobotController<F> {
    const commandReceiver: Channels.Channel<Control.RobotControllerCommand>
    const driveTrain: DriveTrain<F>
    const lifeStatus: RwLock<Control.RobotLifeStatus>
    /** The failures handed to the log, in order. */
    var logged: seq<F>

    constructor (commandReceiver: Channels.Channel<Control.RobotControllerCommand>, driveTrain: DriveTrain<F>, lifeStatus: RwLock<Control.RobotLifeStatus>)
      ensures this.commandReceiver == commandReceiver && this.driveTrain == driveTrain && this.lifeStatus == lifeStatus
      ensures logged == []
    {
      this.commandReceiver := commandReceiver;
      this.driveTrain := driveTrain;
      this.lifeStatus := lifeStatus;
      logged := [];
    }

    /** Takes at most one command, logs its failures, cycles the drive train and logs the cycle's failures. */
    method Run()
      requires driveTrain.Valid()
      requires ReadsLife(driveTrain.View(), if commandReceiver.queue == [] then None else Some(commandReceiver.queue[0]))
        ==> !driveTrain.robotStatus.poisoned
      modifies this, commandReceiver, driveTrain, driveTrain.left, driveTrain.right
      ensures commandReceiver.queue == if old(commandReceiver.queue) == [] then [] else old(commandReceiver.queue)[1..]
      ensures driveTrain.View() == RunSpec(old(driveTrain.View()), driveTrain.Alive(),
        if old(commandReceiver.queue) == [] then None else Some(old(commandReceiver.queue)[0]))
      ensures logged == old(logged)
        + (if old(commandReceiver.queue) == [] then [] else CommandFailures(old(commandReceiver.queue)[0], old(driveTrain.Failures())))
        + old(driveTrain.Failures())
    {
      ghost var failures, v0, logged0 := driveTrain.Failures(), driveTrain.View(), logged;
      ghost var received := if commandReceiver.queue == [] then None else Some(commandReceiver.queue[0]);
      var message := commandReceiver.TryRecv();
      assert message.Ok? <==> received.Some?;
      if message.Ok? {
        var res := Dispatch(message.value);
        if res.Err? {
          Log(res.error);
        }
      }
      ghost var v1 := driveTrain.View();
      assert v1 == if received.Some? then CommandSpec(v0, driveTrain.Alive(), received.value) else v0;
      assert logged == logged0 + if received.Some? then CommandFailures(received.value, failures) else [];
      assert driveTrain.Failures() == failures;
      var cycle := driveTrain.RunCycle();
      if cycle.Err? {
        Log(cycle.error);
      }
      assert driveTrain.View() == RunCycleSpec(v1, driveTrain.Alive());
    }

    /** The `match` of `run`: hand one command to the drive train; `Enable` always succeeds. Only `drive` reads the life lock. */
    method Dispatch(c: Control.RobotControllerCommand) returns (res: Result<(), seq<F>>)
      requires driveTrain.Valid() && (c.Drive? ==> !driveTrain.robotStatus.poisoned)
      modifies driveTrain, driveTrain.left, driveTrain.right
      ensures driveTrain.View() == CommandSpec(old(driveTrain.View()), driveTrain.Alive(), c)
      ensures ErrorsOf(res) == CommandFailures(c, old(driveTrain.Failures()))
      ensures driveTrain.Failures() == old(driveTrain.Failures())
    {
      match c {
        case Drive(m) => res := driveTrain.Drive(m.leftSpeed, m.rightSpeed);
        case Brake => res := driveTrain.Brake();
        case Enable => driveTrain.Enable(); res := Ok(());
        case Disable => res := driveTrain.Disable();
      }
    }

    /** `for error in errors { accept_log(error) }`. */
    method Log(errors: seq<F>)
      modifies this
      ensures logged == old(logged) + errors
    {
      var i := 0;
      while i < |errors|
        invariant 0 <= i <= |errors|
        invariant logged == old(logged) + errors[..i]
      {
        logged := logged + [errors[i]];
        i := i + 1;
      }
      assert errors[..i] == errors;
    }
  }
}

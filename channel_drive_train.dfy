/**
 * The channel-driven drive train of src/drive_train/mod.rs: each run takes
 * at most one `DriveTrainCommand` from its receiver, and stops both sides
 * whenever the shared life flag is false. Group failures go to the log
 * sender, one record per failing group.
 */
module ChannelDriveTrain {
  import opened Shared
  import opened Logging
  import opened FallibleGroup
  import Channels
  import opened ControlDriveTrain

  datatype DriveTrainCommand = Drive(left: real, right: real) | Stop | Enable | Disable

  const DISCONNECTED: string := "DriveTrain command channel disconnected!"

  /** `handle_new_command`: Drive, Enable, Disable and Stop each go to their own operation. */
  function HandleSpec(v: DriveView, alive: bool, c: DriveTrainCommand): DriveView
  {
    match c
    case Drive(l, r) => DriveSpec(v, alive, l, r)
    case Stop => BrakeSpec(v)
    case Enable => EnableSpec(v)
    case Disable => DisableSpec(v)
  }

  /** A run: the received command, if any, then a stop when life is false. */
  function RunSpec(v: DriveView, alive: bool, received: Option<DriveTrainCommand>): DriveView
  {
    var handled := if received.Some? then HandleSpec(v, alive, received.value) else v;
    if !alive then BrakeSpec(handled) else handled
  }

  /** The records one operation on both sides sends: the left group's failure, then the right group's. */
  function GroupLogs(left: Option<LogData>, right: Option<LogData>): (r: seq<LogData>)
    ensures |r| <= 2
    ensures r == [] <==> left.None? && right.None?
  {
    (if left.Some? then [left.value] else []) + (if right.Some? then [right.value] else [])
  }

  /** What a command logs: nothing for Enable, the groups' failures for the others. */
  function CommandLogs(c: DriveTrainCommand, left: Option<LogData>, right: Option<LogData>): seq<LogData>
  {
    if c.Enable? then [] else GroupLogs(left, right)
  }

  /** What one run logs, given what it received, whether the channel was disconnected, and life. */
  function RunLogs(received: Option<DriveTrainCommand>, disconnected: bool, alive: bool, left: Option<LogData>, right: Option<LogData>): seq<LogData>
  {
    (if received.Some? then CommandLogs(received.value, left, right)
     else if disconnected then [LogData(Fatal, DISCONNECTED)] else [])
    + (if !alive then GroupLogs(left, right) else [])
  }

  /** A run while life is false leaves both sides still, whatever command arrived. */
  lemma DeadRunStops(v: DriveView, received: Option<DriveTrainCommand>)
    ensures Still(RunSpec(v, false, received))
  {
  }

  /** After Disable, Drive(1, 1) stops both sides; after Enable, it sets both to 1. */
  lemma DisableThenDrive(v: DriveView)
    ensures Still(HandleSpec(HandleSpec(v, true, Disable), true, Drive(1.0, 1.0)))
    ensures HandleSpec(HandleSpec(v, true, Enable), true, Drive(1.0, 1.0)).left == SetSpeedSpec(1.0)
    ensures HandleSpec(HandleSpec(v, true, Enable), true, Drive(1.0, 1.0)).right == SetSpeedSpec(1.0)
  {
  }

  /** A disconnected channel is reported once per run, as one fatal record, and changes nothing else. */
  lemma DisconnectLogsFatal(v: DriveView, left: Option<LogData>, right: Option<LogData>)
    ensures RunSpec(v, true, None) == v
    ensures RunLogs(None, true, true, left, right) == [LogData(Fatal, DISCONNECTED)]
    ensures RunLogs(None, false, true, left, right) == []
  {
  }

  class DriveTrain {
    var isEnabled: bool
    const commandReceiver: Channels.Channel<DriveTrainCommand>
    const left: MotorGroup<LogData>
    const right: MotorGroup<LogData>
    const isAlive: RwLock<bool>
    /** The records sent to the log sender, in order. */
    var log: seq<LogData>

    ghost predicate Valid()
    {
      left != right
    }

    function View(): DriveView
      reads this, left, right
    {
      DriveView(isEnabled, left.View(), right.View())
    }

    /** A new drive train is enabled. */
    constructor (commandReceiver: Channels.Channel<DriveTrainCommand>, left: MotorGroup<LogData>, right: MotorGroup<LogData>, robotLife: RwLock<bool>)
      ensures isEnabled && log == []
      ensures this.commandReceiver == commandReceiver && this.left == left && this.right == right && isAlive == robotLife
    {
      isEnabled := true;
      this.commandReceiver := commandReceiver;
      this.left := left;
      this.right := right;
      isAlive := robotLife;
      log := [];
    }

    /** `run` always reads the life lock at its end, and reading a poisoned lock panics. */
    method Run()
      requires Valid() && !isAlive.poisoned
      modifies this, commandReceiver, left, right
      ensures commandReceiver.queue == if old(commandReceiver.queue) == [] then [] else old(commandReceiver.queue)[1..]
      ensures View() == RunSpec(old(View()), isAlive.value,
        if old(commandReceiver.queue) == [] then None else Some(old(commandReceiver.queue)[0]))
      ensures log == old(log) + RunLogs(if old(commandReceiver.queue) == [] then None else Some(old(commandReceiver.queue)[0]),
        !old(commandReceiver.sendersConnected), isAlive.value, left.fault, right.fault)
      ensures left.fault == old(left.fault) && right.fault == old(right.fault)
    {
      var message := commandReceiver.TryRecv();
      match message {
        case Ok(command) => HandleNewCommand(command);
        case Err(Disconnected) => HandleCommandChannelDisconnect();
        case Err(Empty) =>
      }
      if !isAlive.value {
        Kill();
      }
    }

    /** Only `drive` reads the life lock. */
    method HandleNewCommand(command: DriveTrainCommand)
      requires Valid() && (command.Drive? ==> !isAlive.poisoned)
      modifies this, left, right
      ensures View() == HandleSpec(old(View()), isAlive.value, command)
      ensures log == old(log) + CommandLogs(command, left.fault, right.fault)
      ensures left.fault == old(left.fault) && right.fault == old(right.fault)
    {
      match command {
        case Drive(l, r) => Drive(l, r);
        case Enable => Enable();
        case Disable => Disable();
        case Stop => Stop();
      }
    }

    method HandleCommandChannelDisconnect()
      modifies this
      ensures log == old(log) + [LogData(Fatal, DISCONNECTED)]
      ensures isEnabled == old(isEnabled)
    {
      log := log + [LogData(Fatal, DISCONNECTED)];
    }

    method Drive(leftSpeed: real, rightSpeed: real)
      requires Valid() && !isAlive.poisoned
      modifies this, left, right
      ensures View() == DriveSpec(old(View()), isAlive.value, leftSpeed, rightSpeed)
      ensures log == old(log) + GroupLogs(left.fault, right.fault)
      ensures left.fault == old(left.fault) && right.fault == old(right.fault)
    {
      if isAlive.value && isEnabled {
        var a := left.SetSpeed(leftSpeed);
        if a.Err? {
          log := log + [a.error];
        }
        var b := right.SetSpeed(rightSpeed);
        if b.Err? {
          log := log + [b.error];
        }
      } else {
        Stop();
      }
    }

    method Stop()
      requires Valid()
      modifies this, left, right
      ensures View() == BrakeSpec(old(View()))
      ensures log == old(log) + GroupLogs(left.fault, right.fault)
      ensures left.fault == old(left.fault) && right.fault == old(right.fault)
    {
      var a := left.Stop();
      if a.Err? {
        log := log + [a.error];
      }
      var b := right.Stop();
      if b.Err? {
        log := log + [b.error];
      }
    }

    method Enable()
      modifies this
      ensures View() == EnableSpec(old(View())) && log == old(log)
    {
      isEnabled := true;
    }

    method Disable()
      requires Valid()
      modifies this, left, right
      ensures View() == DisableSpec(old(View()))
      ensures log == old(log) + GroupLogs(left.fault, right.fault)
      ensures left.fault == old(left.fault) && right.fault == old(right.fault)
    {
      isEnabled := false;
      Stop();
    }

    method Kill()
      requires Valid()
      modifies this, left, right
      ensures View() == BrakeSpec(old(View()))
      ensures log == old(log) + GroupLogs(left.fault, right.fault)
      ensures left.fault == old(left.fault) && right.fault == old(right.fault)
    {
      Stop();
    }
  }
}

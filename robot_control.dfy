/**
 * The control layer of src/robot_control/mod.rs, a near-copy of the one in
 * src/control: a `RobotView` that sends drive-train commands and writes the
 * shared life status. Its `DriveCommandMessage::new` is written with its
 * range test the wrong way round; `NewAsWritten` keeps that form and `New`
 * is the intended check. `RobotView.DriveAsWritten` is `drive` as written;
 * `RobotView.Drive` is the same operation on the intended check.
 */
module RobotControl {
  import opened Shared
  import opened Logging
  import Channels

  datatype RobotLifeStatus = Alive | Dead

  datatype DriveCommandMessage = DriveCommandMessage(leftSpeed: real, rightSpeed: real)

  datatype RobotControllerCommand = Drive(message: DriveCommandMessage) | Brake | Enable | Disable

  const RANGE_PANIC: string := "Error in creating a DriveCommandMessage: left speed and right speed must be in range [-1, 1]!"
  const SEND_FAILURE: string := "Failed to send message to RobotController!"
  const LIFE_FAILURE: string := "Failed to revive robot!"

  predicate InRange(speed: real)
  {
    speed <= 1.0 && speed >= -1.0
  }

  /** `DriveCommandMessage::new` as written: it panics when both speeds are in range and builds a message otherwise. */
  function NewAsWritten(leftSpeed: real, rightSpeed: real): (r: Outcome<DriveCommandMessage>)
    ensures r.Panicked? <==> InRange(leftSpeed) && InRange(rightSpeed)
    ensures r.Done? ==> r.value == DriveCommandMessage(leftSpeed, rightSpeed)
  {
    if (leftSpeed <= 1.0) && (leftSpeed >= -1.0) && (rightSpeed <= 1.0) && (rightSpeed >= -1.0) then Panicked(RANGE_PANIC)
    else Done(DriveCommandMessage(leftSpeed, rightSpeed))
  }

  /** The as-written guard panics on a valid pair and lets an out-of-range pair through: two instances of `NewAsWritten`'s contract that show the inverted test. */
  lemma NewAsWrittenInverted()
    ensures NewAsWritten(0.5, 0.5).Panicked?
    ensures NewAsWritten(2.0, 0.0) == Done(DriveCommandMessage(2.0, 0.0))
  {
  }

  /** The check its panic message describes: a message exactly when both speeds lie in [-1, 1]. */
  function New(leftSpeed: real, rightSpeed: real): (r: Outcome<DriveCommandMessage>)
    ensures r.Done? <==> -1.0 <= leftSpeed <= 1.0 && -1.0 <= rightSpeed <= 1.0
    ensures r.Done? ==> r.value.leftSpeed == leftSpeed && r.value.rightSpeed == rightSpeed
    ensures r.Panicked? ==> r.message == RANGE_PANIC
  {
    if !(InRange(leftSpeed) && InRange(rightSpeed)) then Panicked(RANGE_PANIC)
    else Done(DriveCommandMessage(leftSpeed, rightSpeed))
  }

  /** The two forms disagree on every input: each panics exactly where the other builds a message. */
  lemma NewAsWrittenIsComplement(leftSpeed: real, rightSpeed: real)
    ensures New(leftSpeed, rightSpeed).Done? <==> NewAsWritten(leftSpeed, rightSpeed).Panicked?
  {
  }

  class RobotView {
    const channel: Channels.Channel<RobotControllerCommand>
    const robotLifeStatus: RwLock<RobotLifeStatus>

    constructor (channel: Channels.Channel<RobotControllerCommand>, robotLifeStatus: RwLock<RobotLifeStatus>)
      ensures this.channel == channel && this.robotLifeStatus == robotLifeStatus
    {
      this.channel := channel;
      this.robotLifeStatus := robotLifeStatus;
    }

    method Revive() returns (r: Result<(), LogData>)
      modifies robotLifeStatus
      ensures r.Ok? <==> !old(robotLifeStatus.poisoned)
      ensures robotLifeStatus.value == if r.Ok? then Alive else old(robotLifeStatus.value)
      ensures r.Err? ==> r.error == LogData(Fatal, LIFE_FAILURE)
      ensures robotLifeStatus.poisoned == old(robotLifeStatus.poisoned)
    {
      r := ChangeLifeStatus(Alive);
    }

    method Kill() returns (r: Result<(), LogData>)
      modifies robotLifeStatus
      ensures r.Ok? <==> !old(robotLifeStatus.poisoned)
      ensures robotLifeStatus.value == if r.Ok? then Dead else old(robotLifeStatus.value)
      ensures r.Err? ==> r.error == LogData(Fatal, LIFE_FAILURE)
      ensures robotLifeStatus.poisoned == old(robotLifeStatus.poisoned)
    {
      r := ChangeLifeStatus(Dead);
    }

    /** Builds the message with the corrected check: out of range panics before anything is sent. */
    method Drive(left: real, right: real) returns (r: Outcome<Result<(), LogData>>)
      modifies channel
      ensures r.Panicked? <==> !(InRange(left) && InRange(right))
      ensures r.Panicked? ==> r.message == RANGE_PANIC && channel.queue == old(channel.queue)
      ensures r.Done? ==> (r.value.Ok? <==> old(channel.receiverConnected))
      ensures r.Done? ==> channel.queue == if r.value.Ok? then old(channel.queue) + [RobotControllerCommand.Drive(DriveCommandMessage(left, right))] else old(channel.queue)
      ensures channel.receiverConnected == old(channel.receiverConnected) && channel.sendersConnected == old(channel.sendersConnected)
    {
      var command := New(left, right);
      if command.Panicked? {
        return Panicked(command.message);
      }
      var sent := SendCommand(RobotControllerCommand.Drive(command.value));
      r := Done(sent);
    }

    /** `drive` as written, on the inverted `new`: a pair in range panics, and any other pair is sent. */
    method DriveAsWritten(left: real, right: real) returns (r: Outcome<Result<(), LogData>>)
      modifies channel
      ensures r.Panicked? <==> InRange(left) && InRange(right)
      ensures r.Panicked? ==> r.message == RANGE_PANIC && channel.queue == old(channel.queue)
      ensures r.Done? ==> (r.value.Ok? <==> old(channel.receiverConnected))
      ensures r.Done? ==> channel.queue == if r.value.Ok? then old(channel.queue) + [RobotControllerCommand.Drive(DriveCommandMessage(left, right))] else old(channel.queue)
      ensures channel.receiverConnected == old(channel.receiverConnected) && channel.sendersConnected == old(channel.sendersConnected)
    {
      var command := NewAsWritten(left, right);
      if command.Panicked? {
        return Panicked(command.message);
      }
      var sent := SendCommand(RobotControllerCommand.Drive(command.value));
      r := Done(sent);
    }

    method Brake() returns (r: Result<(), LogData>)
      modifies channel
      ensures r.Ok? <==> old(channel.receiverConnected)
      ensures r.Err? ==> r.error == LogData(Fatal, SEND_FAILURE)
      ensures channel.queue == if r.Ok? then old(channel.queue) + [RobotControllerCommand.Brake] else old(channel.queue)
      ensures channel.receiverConnected == old(channel.receiverConnected) && channel.sendersConnected == old(channel.sendersConnected)
    {
      r := SendCommand(RobotControllerCommand.Brake);
    }

    method EnableDriveTrain() returns (r: Result<(), LogData>)
      modifies channel
      ensures r.Ok? <==> old(channel.receiverConnected)
      ensures r.Err? ==> r.error == LogData(Fatal, SEND_FAILURE)
      ensures channel.queue == if r.Ok? then old(channel.queue) + [RobotControllerCommand.Enable] else old(channel.queue)
      ensures channel.receiverConnected == old(channel.receiverConnected) && channel.sendersConnected == old(channel.sendersConnected)
    {
      r := SendCommand(RobotControllerCommand.Enable);
    }

    method DisableDriveTrain() returns (r: Result<(), LogData>)
      modifies channel
      ensures r.Ok? <==> old(channel.receiverConnected)
      ensures r.Err? ==> r.error == LogData(Fatal, SEND_FAILURE)
      ensures channel.queue == if r.Ok? then old(channel.queue) + [RobotControllerCommand.Disable] else old(channel.queue)
      ensures channel.receiverConnected == old(channel.receiverConnected) && channel.sendersConnected == old(channel.sendersConnected)
    {
      r := SendCommand(RobotControllerCommand.Disable);
    }

    method SendCommand(command: RobotControllerCommand) returns (r: Result<(), LogData>)
      modifies channel
      ensures r.Ok? <==> old(channel.receiverConnected)
      ensures r.Err? ==> r.error == LogData(Fatal, SEND_FAILURE)
      ensures channel.queue == if r.Ok? then old(channel.queue) + [command] else old(channel.queue)
      ensures channel.receiverConnected == old(channel.receiverConnected) && channel.sendersConnected == old(channel.sendersConnected)
    {
      var sent := channel.Send(command);
      if sent {
        r := Ok(());
      } else {
        r := Err(LogData(Fatal, SEND_FAILURE));
      }
    }

    method ChangeLifeStatus(status: RobotLifeStatus) returns (r: Result<(), LogData>)
      modifies robotLifeStatus
      ensures r.Ok? <==> !old(robotLifeStatus.poisoned)
      ensures robotLifeStatus.value == if r.Ok? then status else old(robotLifeStatus.value)
      ensures r.Err? ==> r.error == LogData(Fatal, LIFE_FAILURE)
      ensures robotLifeStatus.poisoned == old(robotLifeStatus.poisoned)
    {
      if !robotLifeStatus.poisoned {
        robotLifeStatus.value := status;
        r := Ok(());
      } else {
        r := Err(LogData(Fatal, LIFE_FAILURE));
      }
    }
  }
}

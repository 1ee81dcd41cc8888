/**
 * src/mechatronics/mod.rs: the encoded life status, the command messages the
 * outside world sends to the mechatronics thread, and the sender that turns
 * API calls into those messages.
 */
module Mechatronics {
  import opened Shared
  import opened Channels

  datatype RobotLifeStatus = Alive | Dead

  /** The discriminants `Alive = 0`, `Dead = 1`. */
  function Code(s: RobotLifeStatus): nat
  {
    match s
    case Alive => 0
    case Dead => 1
  }

  /** `FromPrimitive::from_usize`: the status with that discriminant, if any. */
  function FromPrimitive(n: nat): Option<RobotLifeStatus>
  {
    if n == 0 then Some(Alive) else if n == 1 then Some(Dead) else None
  }

  /** Decoding inverts encoding, and exactly the codes 0 and 1 decode. */
  lemma CodeRoundTrip(s: RobotLifeStatus, n: nat)
    ensures FromPrimitive(Code(s)) == Some(s)
    ensures FromPrimitive(n).Some? <==> n < 2
    ensures FromPrimitive(n).Some? ==> Code(FromPrimitive(n).value) == n
  {
  }

  /** `GlobalLifeStatus`: the life status stored as its discriminant. */
  class GlobalLifeStatus {
    var status: nat

    /** Only valid discriminants are ever stored, so decoding never panics. */
    ghost predicate Valid()
      reads this
    {
      FromPrimitive(status).Some?
    }

    /** A new status is Alive. */
    constructor ()
      ensures Valid() && status == Code(Alive)
    {
      status := Code(Alive);
    }

    /** `get_status`: the decoded stored code. */
    function GetStatus(): (r: RobotLifeStatus)
      requires Valid()
      reads this
      ensures Code(r) == status
    {
      FromPrimitive(status).value
    }

    /** `is_alive`: the stored code is Alive's. */
    function IsAlive(): bool
      reads this
    {
      status == Code(Alive)
    }

    method Kill()
      modifies this
      ensures Valid() && status == Code(Dead)
    {
      status := Code(Dead);
    }

    method Revive()
      modifies this
      ensures Valid() && status == Code(Alive)
    {
      status := Code(Alive);
    }
  }

  /** `is_alive` holds exactly when `get_status` decodes Alive. */
  lemma IsAliveMatchesStatus(l: GlobalLifeStatus)
    requires l.Valid()
    ensures l.IsAlive() <==> l.GetStatus() == Alive
  {
  }

  /** A drive request whose speeds were checked on creation. */
  datatype DriveCommandMessage = DriveCommandMessage(leftSpeed: real, rightSpeed: real)
  {
    function GetLeftSpeed(): real
    {
      leftSpeed
    }

    function GetRightSpeed(): real
    {
      rightSpeed
    }
  }

  function CheckSpeed(speed: real): bool
  {
    speed <= 1.0 && speed >= -1.0
  }

  /** `DriveCommandMessage::create`: a message exactly when both speeds lie in [-1, 1], carrying them unchanged. */
  function Create(leftSpeed: real, rightSpeed: real): (r: Result<DriveCommandMessage, ()>)
    ensures r.Ok? <==> -1.0 <= leftSpeed <= 1.0 && -1.0 <= rightSpeed <= 1.0
    ensures r.Ok? ==> r.value.GetLeftSpeed() == leftSpeed && r.value.GetRightSpeed() == rightSpeed
  {
    if !(CheckSpeed(leftSpeed) && CheckSpeed(rightSpeed)) then Err(()) else Ok(DriveCommandMessage(leftSpeed, rightSpeed))
  }

  datatype MechatronicsCommand =
    | Drive(message: DriveCommandMessage)
    | Brake
    | EnableDrive
    | DisableDrive
    | EnableDumper
    | DisableDumper
    | EnableBucketLadder
    | DisableBucketLadder
    | Dump
    | ResetDumper
    | StopDumper
    | Dig
    | StopDigging
    | RaiseDigger
    | LowerDigger
    | FreezeDiggerHeight

  /** The four commands a kill sends on each side of the status change. */
  const KillBurst: seq<MechatronicsCommand> := [Brake, StopDigging, StopDumper, FreezeDiggerHeight]

  /**
   * `MechatronicsMessageSender`. Sending unwraps the channel's result, so a
   * send to a channel whose receiver is gone panics: every sending method
   * requires a connected receiver.
   */
  class MechatronicsMessageSender {
    const channel: Channel<MechatronicsCommand>
    const robotLifeStatus: GlobalLifeStatus

    constructor (channel: Channel<MechatronicsCommand>, robotLifeStatus: GlobalLifeStatus)
      ensures this.channel == channel && this.robotLifeStatus == robotLifeStatus
    {
      this.channel := channel;
      this.robotLifeStatus := robotLifeStatus;
    }

    /** Sets the status Alive and sends nothing. */
    method Revive()
      modifies robotLifeStatus
      ensures robotLifeStatus.Valid() && robotLifeStatus.GetStatus() == Alive
    {
      robotLifeStatus.Revive();
    }

    /** Sends the kill burst, stores Dead, then sends the burst again. */
    method Kill()
      requires channel.receiverConnected
      modifies channel, robotLifeStatus
      ensures channel.queue == old(channel.queue) + KillBurst + KillBurst
      ensures channel.receiverConnected && channel.sendersConnected == old(channel.sendersConnected)
      ensures robotLifeStatus.Valid() && robotLifeStatus.GetStatus() == Dead
    {
      Brake();
      StopDigger();
      StopDumper();
      FreezeLadderHeight();
      robotLifeStatus.Kill();
      Brake();
      StopDigger();
      StopDumper();
      FreezeLadderHeight();
    }

    /** Sends one Drive carrying both speeds when both lie in [-1, 1]; otherwise fails and sends nothing. */
    method Drive(left: real, right: real) returns (r: Result<(), ()>)
      requires CheckSpeed(left) && CheckSpeed(right) ==> channel.receiverConnected
      modifies channel
      ensures r.Ok? <==> -1.0 <= left <= 1.0 && -1.0 <= right <= 1.0
      ensures channel.queue == if r.Ok? then old(channel.queue) + [MechatronicsCommand.Drive(DriveCommandMessage(left, right))] else old(channel.queue)
      ensures channel.receiverConnected == old(channel.receiverConnected) && channel.sendersConnected == old(channel.sendersConnected)
    {
      var command := Create(left, right);
      if command.Err? {
        return Err(());
      }
      SendCommand(MechatronicsCommand.Drive(command.value));
      return Ok(());
    }

    method Brake()
      requires channel.receiverConnected
      modifies channel
      ensures channel.queue == old(channel.queue) + [MechatronicsCommand.Brake] && channel.receiverConnected && channel.sendersConnected == old(channel.sendersConnected)
    {
      SendCommand(MechatronicsCommand.Brake);
    }

    method EnableDriveTrain()
      requires channel.receiverConnected
      modifies channel
      ensures channel.queue == old(channel.queue) + [EnableDrive] && channel.receiverConnected && channel.sendersConnected == old(channel.sendersConnected)
    {
      SendCommand(EnableDrive);
    }

    method DisableDriveTrain()
      requires channel.receiverConnected
      modifies channel
      ensures channel.queue == old(channel.queue) + [DisableDrive] && channel.receiverConnected && channel.sendersConnected == old(channel.sendersConnected)
    {
      SendCommand(DisableDrive);
    }

    method DisableDumper()
      requires channel.receiverConnected
      modifies channel
      ensures channel.queue == old(channel.queue) + [MechatronicsCommand.DisableDumper] && channel.receiverConnected && channel.sendersConnected == old(channel.sendersConnected)
    {
      SendCommand(MechatronicsCommand.DisableDumper);
    }

    method EnableDumper()
      requires channel.receiverConnected
      modifies channel
      ensures channel.queue == old(channel.queue) + [MechatronicsCommand.EnableDumper] && channel.receiverConnected && channel.sendersConnected == old(channel.sendersConnected)
    {
      SendCommand(MechatronicsCommand.EnableDumper);
    }

    method Dump()
      requires channel.receiverConnected
      modifies channel
      ensures channel.queue == old(channel.queue) + [MechatronicsCommand.Dump] && channel.receiverConnected && channel.sendersConnected == old(channel.sendersConnected)
    {
      SendCommand(MechatronicsCommand.Dump);
    }

    method ResetDumper()
      requires channel.receiverConnected
      modifies channel
      ensures channel.queue == old(channel.queue) + [MechatronicsCommand.ResetDumper] && channel.receiverConnected && channel.sendersConnected == old(channel.sendersConnected)
    {
      SendCommand(MechatronicsCommand.ResetDumper);
    }

    method StopDumper()
      requires channel.receiverConnected
      modifies channel
      ensures channel.queue == old(channel.queue) + [MechatronicsCommand.StopDumper] && channel.receiverConnected && channel.sendersConnected == old(channel.sendersConnected)
    {
      SendCommand(MechatronicsCommand.StopDumper);
    }

    method EnableLadder()
      requires channel.receiverConnected
      modifies channel
      ensures channel.queue == old(channel.queue) + [EnableBucketLadder] && channel.receiverConnected && channel.sendersConnected == old(channel.sendersConnected)
    {
      SendCommand(EnableBucketLadder);
    }

    method DisableLadder()
      requires channel.receiverConnected
      modifies channel
      ensures channel.queue == old(channel.queue) + [DisableBucketLadder] && channel.receiverConnected && channel.sendersConnected == old(channel.sendersConnected)
    {
      SendCommand(DisableBucketLadder);
    }

    method Dig()
      requires channel.receiverConnected
      modifies channel
      ensures channel.queue == old(channel.queue) + [MechatronicsCommand.Dig] && channel.receiverConnected && channel.sendersConnected == old(channel.sendersConnected)
    {
      SendCommand(MechatronicsCommand.Dig);
    }

    method StopDigger()
      requires channel.receiverConnected
      modifies channel
      ensures channel.queue == old(channel.queue) + [StopDigging] && channel.receiverConnected && channel.sendersConnected == old(channel.sendersConnected)
    {
      SendCommand(StopDigging);
    }

    method RaiseLadder()
      requires channel.receiverConnected
      modifies channel
      ensures channel.queue == old(channel.queue) + [RaiseDigger] && channel.receiverConnected && channel.sendersConnected == old(channel.sendersConnected)
    {
      SendCommand(RaiseDigger);
    }

    method LowerLadder()
      requires channel.receiverConnected
      modifies channel
      ensures channel.queue == old(channel.queue) + [LowerDigger] && channel.receiverConnected && channel.sendersConnected == old(channel.sendersConnected)
    {
      SendCommand(LowerDigger);
    }

    method FreezeLadderHeight()
      requires channel.receiverConnected
      modifies channel
      ensures channel.queue == old(channel.queue) + [FreezeDiggerHeight] && channel.receiverConnected && channel.sendersConnected == old(channel.sendersConnected)
    {
      SendCommand(FreezeDiggerHeight);
    }

    method SendCommand(command: MechatronicsCommand)
      requires channel.receiverConnected
      modifies channel
      ensures channel.queue == old(channel.queue) + [command] && channel.receiverConnected && channel.sendersConnected == old(channel.sendersConnected)
    {
      var ok := channel.Send(command);
    }
  }
}

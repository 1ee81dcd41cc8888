/**
 * The whole-robot telemetry of src/status/robot_state.rs: the shared life,
 * drive, dumper and intake parts, and the snapshot composed of theirs.
 */
module RobotState {
  import opened MotorState
  import opened LimitState
  import Life
  import DriveTrainState
  import MaterialDumperState
  import IntakeState

  datatype RobotStateInstance = RobotStateInstance(
    life: Life.LifeStateInstance,
    drive: DriveTrainState.DriveTrainStateInstance,
    dumper: MaterialDumperState.DumperStateInstance,
    intake: IntakeState.IntakeStateInstance)

  /** What a freshly started robot reports. */
  function LaunchSnapshot(): RobotStateInstance
  {
    var still := MotorStateInstance(0.0);
    var open := ActuatorStateInstance(false, false);
    RobotStateInstance(
      Life.LifeStateInstance(true),
      DriveTrainState.DriveTrainStateInstance(false, still, still, still, still),
      MaterialDumperState.DumperStateInstance(MaterialDumperState.DUMPER_STOPPED, false),
      IntakeState.IntakeStateInstance(open, open, still, still, false))
  }

  class GlobalRobotState {
    const life: Life.GlobalLifeState
    const drive: DriveTrainState.GlobalDriveTrainState
    const dumper: MaterialDumperState.GlobalDumperState
    const intake: IntakeState.GlobalIntakeState

    ghost function Repr(): set<object>
    {
      {life, drive, dumper, intake, drive.frontLeft, drive.rearLeft, drive.frontRight, drive.rearRight,
       intake.actuator, intake.digger, intake.leftLimits.upper, intake.leftLimits.lower,
       intake.rightLimits.upper, intake.rightLimits.lower}
    }

    /** Fresh parts; at launch the snapshot shows life alive, all three subsystems disabled and every motor at 0. */
    constructor ()
      ensures fresh(life) && fresh(drive) && fresh(dumper) && fresh(intake)
      ensures drive.Valid() && intake.Valid()
      ensures GetCurrentState() == LaunchSnapshot()
    {
      life := new Life.GlobalLifeState();
      drive := new DriveTrainState.GlobalDriveTrainState();
      dumper := new MaterialDumperState.GlobalDumperState();
      intake := new IntakeState.GlobalIntakeState();
    }

    /** The getters hand out the shared parts themselves. */
    function GetLife(): Life.GlobalLifeState
    {
      life
    }

    function GetDrive(): DriveTrainState.GlobalDriveTrainState
    {
      drive
    }

    function GetDumper(): MaterialDumperState.GlobalDumperState
    {
      dumper
    }

    function GetIntake(): IntakeState.GlobalIntakeState
    {
      intake
    }

    /** The composition of the four parts' own snapshots. */
    function GetCurrentState(): (r: RobotStateInstance)
      reads Repr()
      ensures r.life == life.GetCurrentState() && r.drive == drive.GetCurrentState()
      ensures r.dumper == dumper.GetCurrentState() && r.intake == intake.GetCurrentState()
    {
      RobotStateInstance(life.GetCurrentState(), drive.GetCurrentState(), dumper.GetCurrentState(), intake.GetCurrentState())
    }
  }
}

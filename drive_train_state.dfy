/** The drive train's shared telemetry of src/mechatronics/drive_train/state.rs. */
module DriveTrainState {
  import opened MotorState

  class GlobalDriveTrainState {
    var enabled: bool
    const frontLeft: GlobalMotorState
    const rearLeft: GlobalMotorState
    const frontRight: GlobalMotorState
    const rearRight: GlobalMotorState

    /** The four motor cells are separate. */
    ghost predicate Valid()
    {
      frontLeft != rearLeft && frontLeft != frontRight && frontLeft != rearRight
      && rearLeft != frontRight && rearLeft != rearRight && frontRight != rearRight
    }

    /** A new state is disabled, with four fresh cells at 0. */
    constructor ()
      ensures Valid() && !GetEnabled()
      ensures fresh(frontLeft) && fresh(rearLeft) && fresh(frontRight) && fresh(rearRight)
      ensures frontLeft.speed == 0.0 && rearLeft.speed == 0.0 && frontRight.speed == 0.0 && rearRight.speed == 0.0
    {
      enabled := false;
      frontLeft := new GlobalMotorState();
      rearLeft := new GlobalMotorState();
      frontRight := new GlobalMotorState();
      rearRight := new GlobalMotorState();
    }

    function GetEnabled(): bool
      reads this
    {
      enabled
    }

    method SetEnabled(b: bool)
      modifies this
      ensures GetEnabled() == b
    {
      enabled := b;
    }

    /** `get_left` hands out the front-left cell. */
    function GetLeft(): GlobalMotorState
    {
      frontLeft
    }

    /** `get_right` hands out the front-right cell. */
    function GetRight(): GlobalMotorState
    {
      frontRight
    }

    function GetRearLeft(): GlobalMotorState
    {
      rearLeft
    }

    function GetRearRight(): GlobalMotorState
    {
      rearRight
    }

    /** The snapshot copies `enabled` and the four speeds, front-left, front-right, rear-left, rear-right. */
    function GetCurrentState(): (r: DriveTrainStateInstance)
      reads this, frontLeft, rearLeft, frontRight, rearRight
      ensures r.GetEnabled() == GetEnabled()
      ensures r.frontLeft.GetSpeed() == frontLeft.GetSpeed() && r.frontRight.GetSpeed() == frontRight.GetSpeed()
      ensures r.rearLeft.GetSpeed() == rearLeft.GetSpeed() && r.rearRight.GetSpeed() == rearRight.GetSpeed()
    {
      DriveTrainStateInstance(enabled, frontLeft.GetCurrentState(), frontRight.GetCurrentState(), rearLeft.GetCurrentState(), rearRight.GetCurrentState())
    }
  }

  /** The getters hand out four distinct cells, the front ones as left and right. */
  lemma CellGettersDistinct(s: GlobalDriveTrainState)
    requires s.Valid()
    ensures s.GetLeft() == s.frontLeft && s.GetRight() == s.frontRight
    ensures s.GetRearLeft() != s.GetLeft() && s.GetRearRight() != s.GetRight()
    ensures s.GetLeft() != s.GetRight()
  {
  }

  datatype DriveTrainStateInstance = DriveTrainStateInstance(
    enabled: bool,
    frontLeft: MotorStateInstance,
    frontRight: MotorStateInstance,
    rearLeft: MotorStateInstance,
    rearRight: MotorStateInstance)
  {
    function GetEnabled(): bool
    {
      enabled
    }
  }
}

/**
 * The dumper's shared state of src/mechatronics/dumper/state.rs: its enabled
 * flag and motor cell, plus the upper and lower limit-switch flags that the
 * dumper reads through `get_upper_limit` / `get_lower_limit`.
 */
module DumperState {
  import opened Shared
  import opened MotorState

  class GlobalDumperState {
    var enabled: bool
    const motor: GlobalMotorState
    const upperLimit: Flag
    const lowerLimit: Flag

    /** A new state is disabled with its motor at 0 and neither limit tripped. */
    constructor ()
      ensures !GetEnabled() && fresh(motor) && motor.speed == 0.0
      ensures fresh(upperLimit) && fresh(lowerLimit) && !upperLimit.value && !lowerLimit.value
    {
      enabled := false;
      motor := new GlobalMotorState();
      upperLimit := new Flag(false);
      lowerLimit := new Flag(false);
    }

    /** The snapshot copies `enabled` and the motor's speed at the call. */
    function GetCurrentState(): (r: DumperStateInstance)
      reads this, motor
      ensures r.GetEnabled() == GetEnabled() && r.motor.GetSpeed() == motor.GetSpeed()
    {
      DumperStateInstance(enabled, motor.GetCurrentState())
    }

    method SetEnabled(b: bool)
      modifies this
      ensures GetEnabled() == b
    {
      enabled := b;
    }

    function GetEnabled(): bool
      reads this
    {
      enabled
    }

    function GetMotor(): GlobalMotorState
    {
      motor
    }

    function GetUpperLimit(): Flag
    {
      upperLimit
    }

    function GetLowerLimit(): Flag
    {
      lowerLimit
    }
  }

  datatype DumperStateInstance = DumperStateInstance(enabled: bool, motor: MotorStateInstance)
  {
    function GetEnabled(): bool
    {
      enabled
    }
  }
}

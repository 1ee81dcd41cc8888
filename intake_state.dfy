/**
 * The intake's shared state of src/mechatronics/bucket_ladder/state/mod.rs:
 * the limit switches of the left and right actuators, the actuator and
 * digger motor cells, and the enabled flag.
 */
module IntakeState {
  import opened MotorState
  import opened LimitState

  class GlobalIntakeState {
    const leftLimits: GlobalLimitState
    const rightLimits: GlobalLimitState
    const actuator: GlobalMotorState
    const digger: GlobalMotorState
    var enabled: bool

    ghost predicate Valid()
    {
      actuator != digger && leftLimits != rightLimits && leftLimits.Valid() && rightLimits.Valid()
    }

    /** A new state is disabled, with the digger and actuator at 0 and no limit tripped. */
    constructor ()
      ensures Valid() && !GetEnabled()
      ensures fresh(actuator) && fresh(digger) && actuator.speed == 0.0 && digger.speed == 0.0
      ensures fresh(leftLimits) && fresh(rightLimits)
      ensures fresh(leftLimits.upper) && fresh(leftLimits.lower) && fresh(rightLimits.upper) && fresh(rightLimits.lower)
      ensures !leftLimits.upper.value && !leftLimits.lower.value && !rightLimits.upper.value && !rightLimits.lower.value
    {
      leftLimits := new GlobalLimitState();
      rightLimits := new GlobalLimitState();
      actuator := new GlobalMotorState();
      digger := new GlobalMotorState();
      enabled := false;
    }

    /** The snapshot copies both limit snapshots, both motor snapshots and `enabled`. */
    function GetCurrentState(): (r: IntakeStateInstance)
      reads this, actuator, digger, leftLimits.upper, leftLimits.lower, rightLimits.upper, rightLimits.lower
      ensures r.GetLeftActuator() == leftLimits.GetCurrentState() && r.GetRightActuator() == rightLimits.GetCurrentState()
      ensures r.GetActuator().GetSpeed() == actuator.GetSpeed() && r.GetDigger().GetSpeed() == digger.GetSpeed()
      ensures r.GetEnabled() == GetEnabled()
    {
      IntakeStateInstance(
        leftLimits.GetCurrentState(),
        rightLimits.GetCurrentState(),
        actuator.GetCurrentState(),
        digger.GetCurrentState(),
        enabled)
    }

    method SetEnabled(b: bool)
      modifies this
      ensures GetEnabled() == b
    {
      enabled := b;
    }

    /** The getters hand out the shared cells themselves, so a write through one is seen by all. */
    function GetLeftActuator(): GlobalLimitState
    {
      leftLimits
    }

    function GetRightActuator(): GlobalLimitState
    {
      rightLimits
    }

    function GetDigger(): GlobalMotorState
    {
      digger
    }

    function GetActuator(): GlobalMotorState
    {
      actuator
    }

    function GetEnabled(): bool
      reads this
    {
      enabled
    }
  }

  /** A speed written through `get_digger()` is what the next snapshot shows for the digger. */
  method WriteThroughGetter(s: GlobalIntakeState, v: real)
    requires s.Valid()
    modifies s.GetDigger()
    ensures s.GetCurrentState().GetDigger().GetSpeed() == v
    ensures s.GetCurrentState().GetActuator() == old(s.GetCurrentState().GetActuator())
  {
    s.GetDigger().SetSpeed(v);
  }

  datatype IntakeStateInstance = IntakeStateInstance(
    leftLimits: ActuatorStateInstance,
    rightLimits: ActuatorStateInstance,
    actuator: MotorStateInstance,
    digger: MotorStateInstance,
    enabled: bool)
  {
    function GetLeftActuator(): ActuatorStateInstance
    {
      leftLimits
    }

    function GetRightActuator(): ActuatorStateInstance
    {
      rightLimits
    }

    function GetActuator(): MotorStateInstance
    {
      actuator
    }

    function GetDigger(): MotorStateInstance
    {
      digger
    }

    function GetEnabled(): bool
    {
      enabled
    }
  }
}

/**
 * A motor controller behind the `MotorController` interface of
 * src/devices/motor_controllers (set_speed, stop, invert, is_inverted).
 * The driver itself is hardware; what the model keeps of it is the shared
 * state cell it stores every commanded speed in (stop stores 0) and its
 * direction-inversion flag, which `invert` toggles.
 */
module DeviceMotors {
  import opened MotorState

  class DeviceMotor {
    const state: GlobalMotorState
    var inverted: bool

    constructor (state: GlobalMotorState)
      ensures this.state == state && !inverted
    {
      this.state := state;
      inverted := false;
    }

    method SetSpeed(s: real)
      modifies state
      ensures state.speed == s
    {
      state.speed := s;
    }

    method Stop()
      modifies state
      ensures state.speed == 0.0
    {
      state.speed := 0.0;
    }

    method Invert()
      modifies this
      ensures inverted == !old(inverted)
    {
      inverted := !inverted;
    }

    function IsInverted(): bool
      reads this
    {
      inverted
    }
  }
}

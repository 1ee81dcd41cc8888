/** The shared speed cell a motor controller reports through, and its snapshot. */
module MotorState {
  /** `GlobalMotorState`: the last speed the owning motor was told to run at. */
  class GlobalMotorState {
    var speed: real

    /** A new cell reads 0. */
    constructor ()
      ensures speed == 0.0
    {
      speed := 0.0;
    }

    function GetSpeed(): real
      reads this
    {
      speed
    }

    method SetSpeed(value: real)
      modifies this
      ensures GetSpeed() == value
    {
      speed := value;
    }

    /** The snapshot carries the speed the cell holds at the moment of the call. */
    function GetCurrentState(): (r: MotorStateInstance)
      reads this
      ensures r.GetSpeed() == GetSpeed()
    {
      MotorStateInstance(speed)
    }
  }

  /** `MotorStateInstance`: an immutable copy of a motor's speed. */
  datatype MotorStateInstance = MotorStateInstance(speed: real)
  {
    function GetSpeed(): real
    {
      speed
    }
  }

  /** A snapshot hands back the speed it was built from. */
  lemma InstanceRoundTrip(v: real)
    ensures MotorStateInstance(v).GetSpeed() == v
  {
  }
}

/** The robot's shared life flag of src/status/life.rs and its snapshot. */
module Life {
  /** `GlobalLifeState`: true while the robot may move. */
  class GlobalLifeState {
    var life: bool

    /** The robot starts alive. */
    constructor ()
      ensures IsAlive()
    {
      life := true;
    }

    function IsAlive(): bool
      reads this
    {
      life
    }

    /** Stores a constant, so it is idempotent. */
    method Kill()
      modifies this
      ensures !IsAlive()
    {
      life := false;
    }

    /** Stores a constant whatever the prior state, so it is idempotent. */
    method Revive()
      modifies this
      ensures IsAlive()
    {
      life := true;
    }

    /** The snapshot's `life` is `is_alive()` at the moment of the call. */
    function GetCurrentState(): (r: LifeStateInstance)
      reads this
      ensures r.GetLife() == IsAlive()
    {
      LifeStateInstance(life)
    }
  }

  datatype LifeStateInstance = LifeStateInstance(life: bool)
  {
    function GetLife(): bool
    {
      life
    }
  }
}

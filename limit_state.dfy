/** The upper/lower limit-switch cells of src/mechatronics/bucket_ladder/state/limit.rs. */
module LimitState {
  import opened Shared

  class GlobalLimitState {
    const upper: Flag
    const lower: Flag

    /** The two switches are separate cells. */
    ghost predicate Valid()
    {
      upper != lower
    }

    /** Neither switch starts tripped. */
    constructor ()
      ensures Valid() && fresh(upper) && fresh(lower)
      ensures !upper.value && !lower.value
    {
      upper := new Flag(false);
      lower := new Flag(false);
    }

    /** The snapshot copies both switches. */
    function GetCurrentState(): (r: ActuatorStateInstance)
      reads upper, lower
      ensures r.GetUpper() == upper.value && r.GetLower() == lower.value
    {
      ActuatorStateInstance(upper.value, lower.value)
    }

    /** Changes the upper switch only. */
    method SetUpper(v: bool)
      requires Valid()
      modifies upper
      ensures GetUpper().value == v && GetLower().value == old(GetLower().value)
    {
      upper.Store(v);
    }

    /** Changes the lower switch only. */
    method SetLower(v: bool)
      requires Valid()
      modifies lower
      ensures GetLower().value == v && GetUpper().value == old(GetUpper().value)
    {
      lower.Store(v);
    }

    /** The shared cell itself, not a copy. */
    function GetUpper(): Flag
    {
      upper
    }

    function GetLower(): Flag
    {
      lower
    }
  }

  datatype ActuatorStateInstance = ActuatorStateInstance(upper: bool, lower: bool)
  {
    function GetUpper(): bool
    {
      upper
    }

    function GetLower(): bool
    {
      lower
    }
  }
}

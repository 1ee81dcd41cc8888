/** The older dumper state of src/mechatronics/material_handling/dumper/state.rs: an action code and an enabled flag. */
module MaterialDumperState {
  const DUMPER_RUNNING: nat := 1
  const DUMPER_RESETTING: nat := 2
  const DUMPER_STOPPED: nat := 0

  /** The three action codes are distinct. */
  lemma ActionCodesDistinct()
    ensures DUMPER_RUNNING != DUMPER_RESETTING && DUMPER_RUNNING != DUMPER_STOPPED && DUMPER_RESETTING != DUMPER_STOPPED
  {
  }

  class GlobalDumperState {
    var action: nat
    var enabled: bool

    /** A new state is stopped and disabled. */
    constructor ()
      ensures GetAction() == DUMPER_STOPPED && !GetEnabled()
    {
      action := DUMPER_STOPPED;
      enabled := false;
    }

    /** The snapshot copies the action and the flag. */
    function GetCurrentState(): (r: DumperStateInstance)
      reads this
      ensures r.GetAction() == GetAction() && r.GetEnabled() == GetEnabled()
    {
      DumperStateInstance(action, enabled)
    }

    method SetAction(a: nat)
      modifies this
      ensures GetAction() == a && GetEnabled() == old(GetEnabled())
    {
      action := a;
    }

    method SetEnabled(b: bool)
      modifies this
      ensures GetEnabled() == b && GetAction() == old(GetAction())
    {
      enabled := b;
    }

    function GetAction(): nat
      reads this
    {
      action
    }

    function GetEnabled(): bool
      reads this
    {
      enabled
    }
  }

  datatype DumperStateInstance = DumperStateInstance(action: nat, enabled: bool)
  {
    function GetAction(): nat
    {
      action
    }

    function GetEnabled(): bool
    {
      enabled
    }
  }
}

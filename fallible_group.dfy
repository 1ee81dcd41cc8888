/**
 * The motor group as the older drive trains under src/control,
 * src/operations and src/drive_train use it: it remembers the last speed it
 * was set to, and every call reports whether its motors failed. Whether the
 * hardware fails is not something the model decides, so each group carries
 * the failure its motors currently report (`fault`), which no call changes.
 */
module FallibleGroup {
  import opened Shared

  /** The remembered speed and the speed the motors were last told. */
  datatype SideView = SideView(oldSpeed: real, speed: real)

  function SetSpeedSpec(s: real): SideView
  {
    SideView(s, s)
  }

  function StopSpec(): SideView
  {
    SideView(0.0, 0.0)
  }

  function MaintainLastSpec(v: SideView): SideView
  {
    SideView(v.oldSpeed, v.oldSpeed)
  }

  /** The failures in the result of one call: none when it succeeded. */
  function ErrorsOf<F>(r: Result<(), seq<F>>): seq<F>
  {
    if r.Err? then r.error else []
  }

  /** The `errors.is_empty()` test that ends every drive-train operation. */
  function Collected<F>(errors: seq<F>): (r: Result<(), seq<F>>)
    ensures r.Ok? <==> errors == []
    ensures ErrorsOf(r) == errors
  {
    if errors == [] then Ok(()) else Err(errors)
  }

  /** Re-applying the remembered speed after a set or a stop changes nothing. */
  lemma MaintainAfterSetOrStop(s: real)
    ensures MaintainLastSpec(SetSpeedSpec(s)) == SetSpeedSpec(s)
    ensures MaintainLastSpec(StopSpec()) == StopSpec()
    ensures MaintainLastSpec(MaintainLastSpec(SideView(s, 0.0))) == MaintainLastSpec(SideView(s, 0.0))
  {
  }

  /** What a call on a group reports, given the failure its motors report: Err exactly when there is one. */
  function Reported<E>(fault: Option<E>): (r: Result<(), E>)
    ensures r.Ok? <==> fault.None?
    ensures r.Err? ==> r.error == fault.value
  {
    if fault.Some? then Err(fault.value) else Ok(())
  }

  class MotorGroup<E> {
    var oldSpeed: real
    var speed: real
    var fault: Option<E>

    function View(): SideView
      reads this
    {
      SideView(oldSpeed, speed)
    }

    constructor (fault: Option<E>)
      ensures View() == SideView(0.0, 0.0) && this.fault == fault
    {
      oldSpeed := 0.0;
      speed := 0.0;
      this.fault := fault;
    }

    method SetSpeed(s: real) returns (r: Result<(), E>)
      modifies this
      ensures View() == SetSpeedSpec(s) && fault == old(fault) && r == Reported(fault)
    {
      oldSpeed := s;
      speed := s;
      r := Reported(fault);
    }

    method Stop() returns (r: Result<(), E>)
      modifies this
      ensures View() == StopSpec() && fault == old(fault) && r == Reported(fault)
    {
      oldSpeed := 0.0;
      speed := 0.0;
      r := Reported(fault);
    }

    method MaintainLast() returns (r: Result<(), E>)
      modifies this
      ensures View() == MaintainLastSpec(old(View())) && fault == old(fault) && r == Reported(fault)
    {
      speed := oldSpeed;
      r := Reported(fault);
    }
  }
}

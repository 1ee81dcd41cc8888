/**
 * The drive train of src/operations/drive_train.rs: `drive` sets both sides
 * with no enabled or life check, while `run_cycle` is gated and stops the
 * sides unless the drive train is enabled and alive.
 */
module OperationsDriveTrain {
  import opened Shared
  import opened FallibleGroup
  import opened ControlDriveTrain

  function UngatedDriveSpec(v: DriveView, l: real, r: real): DriveView
  {
    v.(left := SetSpeedSpec(l), right := SetSpeedSpec(r))
  }

  /**
   * `drive` obeys a disabled or dead robot only until the next cycle: it sets
   * the speeds regardless, and the following `run_cycle` stops them.
   */
  lemma UngatedDriveUntilCycle(v: DriveView, alive: bool, l: real, r: real)
    ensures UngatedDriveSpec(v, l, r).left.speed == l && UngatedDriveSpec(v, l, r).right.speed == r
    ensures !(v.enabled && alive) ==> Still(RunCycleSpec(UngatedDriveSpec(v, l, r), alive))
    ensures v.enabled && alive ==> RunCycleSpec(UngatedDriveSpec(v, l, r), alive) == UngatedDriveSpec(v, l, r)
  {
    MaintainAfterSetOrStop(l);
    MaintainAfterSetOrStop(r);
  }

  /** Where the robot is alive and enabled, the ungated and the gated drive agree. */
  lemma UngatedAgreesWhenPermitted(v: DriveView, alive: bool, l: real, r: real)
    ensures alive && v.enabled ==> UngatedDriveSpec(v, l, r) == DriveSpec(v, alive, l, r)
    ensures !(alive && v.enabled) ==> DriveSpec(v, alive, l, r) == BrakeSpec(v)
  {
  }

  class DriveTrain<F> {
    var isEnabled: bool
    const left: MotorGroup<seq<F>>
    const right: MotorGroup<seq<F>>
    const isAlive: RwLock<bool>

    ghost predicate Valid()
    {
      left != right
    }

    function View(): DriveView
      reads this, left, right
    {
      DriveView(isEnabled, left.View(), right.View())
    }

    function Failures(): seq<F>
      reads left, right
    {
      ErrorsOf(Reported(left.fault)) + ErrorsOf(Reported(right.fault))
    }

    /** A new drive train is enabled. */
    constructor (left: MotorGroup<seq<F>>, right: MotorGroup<seq<F>>, robotLife: RwLock<bool>)
      ensures isEnabled && this.left == left && this.right == right && isAlive == robotLife
    {
      isEnabled := true;
      this.left := left;
      this.right := right;
      isAlive := robotLife;
    }

    /** The life lock is read only once the flag passed; reading a poisoned lock panics with "Drive train failed to read life". */
    method RunCycle() returns (r: Result<(), seq<F>>)
      requires Valid() && (isEnabled ==> !isAlive.poisoned)
      modifies left, right
      ensures View() == RunCycleSpec(old(View()), isAlive.value)
      ensures r == Collected(old(Failures())) && left.fault == old(left.fault) && right.fault == old(right.fault)
    {
      var errors: seq<F> := [];
      if isEnabled && isAlive.value {
        var res := MaintainLast();
        if res.Err? {
          errors := errors + res.error;
        }
      } else {
        var res := Stop();
        if res.Err? {
          errors := errors + res.error;
        }
      }
      assert errors == old(Failures());
      r := Collected(errors);
    }

    method Drive(leftSpeed: real, rightSpeed: real) returns (r: Result<(), seq<F>>)
      requires Valid()
      modifies left, right
      ensures View() == UngatedDriveSpec(old(View()), leftSpeed, rightSpeed)
      ensures r == Collected(old(Failures())) && left.fault == old(left.fault) && right.fault == old(right.fault)
    {
      var errors: seq<F> := [];
      var a := left.SetSpeed(leftSpeed);
      if a.Err? {
        errors := errors + a.error;
      }
      var b := right.SetSpeed(rightSpeed);
      if b.Err? {
        errors := errors + b.error;
      }
      assert errors == old(Failures());
      r := Collected(errors);
    }

    method Stop() returns (r: Result<(), seq<F>>)
      requires Valid()
      modifies left, right
      ensures View() == BrakeSpec(old(View()))
      ensures r == Collected(old(Failures())) && left.fault == old(left.fault) && right.fault == old(right.fault)
    {
      var errors: seq<F> := [];
      var a := left.Stop();
      if a.Err? {
        errors := errors + a.error;
      }
      var b := right.Stop();
      if b.Err? {
        errors := errors + b.error;
      }
      assert errors == old(Failures());
      r := Collected(errors);
    }

    method Enable()
      modifies this
      ensures View() == EnableSpec(old(View()))
    {
      isEnabled := true;
    }

    method Disable() returns (r: Result<(), seq<F>>)
      requires Valid()
      modifies this, left, right
      ensures View() == DisableSpec(old(View()))
      ensures r == Collected(old(Failures())) && left.fault == old(left.fault) && right.fault == old(right.fault)
    {
      isEnabled := false;
      r := Stop();
    }

    method MaintainLast() returns (r: Result<(), seq<F>>)
      requires Valid()
      modifies left, right
      ensures View() == old(View()).(left := MaintainLastSpec(old(View()).left), right := MaintainLastSpec(old(View()).right))
      ensures r == Collected(old(Failures())) && left.fault == old(left.fault) && right.fault == old(right.fault)
    {
      var errors: seq<F> := [];
      var a := left.MaintainLast();
      if a.Err? {
        errors := errors + a.error;
      }
      var b := right.MaintainLast();
      if b.Err? {
        errors := errors + b.error;
      }
      assert errors == old(Failures());
      r := Collected(errors);
    }
  }
}

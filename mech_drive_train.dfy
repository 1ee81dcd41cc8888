/**
 * The drive train of src/mechatronics/drive_train/mod.rs: a left and a right
 * motor group that remember their last speed, gated by the shared `enabled`
 * flag and the robot's life.
 */
module MechDriveTrain {
  import opened MotorState
  import LastSpeedGroup
  import Life
  import DriveTrainState

  /** What the drive train shows: the shared flag and both groups. */
  datatype DriveView = DriveView(enabled: bool, left: LastSpeedGroup.GroupView, right: LastSpeedGroup.GroupView)

  /** Both sides stopped, remembering 0. */
  ghost predicate Braked(v: DriveView)
  {
    LastSpeedGroup.Settled(v.left) && v.left.oldSpeed == 0.0
    && LastSpeedGroup.Settled(v.right) && v.right.oldSpeed == 0.0
  }

  /** `brake`: stop both sides. */
  function BrakeSpec(v: DriveView): DriveView
  {
    v.(left := LastSpeedGroup.StopSpec(v.left), right := LastSpeedGroup.StopSpec(v.right))
  }

  /** `drive`: set the sides when enabled and alive, stop them otherwise. */
  function DriveSpec(v: DriveView, alive: bool, l: real, r: real): DriveView
  {
    if v.enabled && alive then
      v.(left := LastSpeedGroup.SetSpeedSpec(v.left, l), right := LastSpeedGroup.SetSpeedSpec(v.right, r))
    else
      BrakeSpec(v)
  }

  /** `enable`: set the flag only. */
  function EnableSpec(v: DriveView): DriveView
  {
    v.(enabled := true)
  }

  /** `disable`: clear the flag, then brake. */
  function DisableSpec(v: DriveView): DriveView
  {
    BrakeSpec(v.(enabled := false))
  }

  /** `run_cycle`: re-apply each side's last speed when enabled and alive, brake otherwise. */
  function RunCycleSpec(v: DriveView, alive: bool): DriveView
  {
    if v.enabled && alive then
      v.(left := LastSpeedGroup.MaintainLastSpec(v.left), right := LastSpeedGroup.MaintainLastSpec(v.right))
    else
      BrakeSpec(v)
  }

  /** `brake` leaves both sides stopped and changes nothing else. */
  lemma BrakeStops(v: DriveView)
    ensures Braked(BrakeSpec(v)) && BrakeSpec(v).enabled == v.enabled
    ensures |BrakeSpec(v).left.speeds| == |v.left.speeds| && |BrakeSpec(v).right.speeds| == |v.right.speeds|
  {
    LastSpeedGroup.SetAndStopReadBack(v.left, 0.0);
    LastSpeedGroup.SetAndStopReadBack(v.right, 0.0);
  }

  /** `drive` runs the sides at the requested speeds exactly when enabled and alive, and otherwise brakes. */
  lemma DriveGate(v: DriveView, alive: bool, l: real, r: real)
    ensures v.enabled && alive ==>
      LastSpeedGroup.Settled(DriveSpec(v, alive, l, r).left) && DriveSpec(v, alive, l, r).left.oldSpeed == l
      && LastSpeedGroup.Settled(DriveSpec(v, alive, l, r).right) && DriveSpec(v, alive, l, r).right.oldSpeed == r
    ensures !(v.enabled && alive) ==> Braked(DriveSpec(v, alive, l, r))
    ensures DriveSpec(v, alive, l, r).enabled == v.enabled
  {
    LastSpeedGroup.SetAndStopReadBack(v.left, l);
    LastSpeedGroup.SetAndStopReadBack(v.right, r);
  }

  /** A drive request after kill leaves every speed at 0, even while enabled. */
  lemma DriveWhileDeadStopped(v: DriveView, l: real, r: real)
    ensures Braked(DriveSpec(v, false, l, r))
    ensures forall i :: 0 <= i < |v.left.speeds| ==> DriveSpec(v, false, l, r).left.speeds[i] == 0.0
  {
    BrakeStops(v);
  }

  /** `enable` leaves the motor speeds alone; `disable` clears the flag and brakes. */
  lemma EnableDisable(v: DriveView)
    ensures EnableSpec(v).enabled && EnableSpec(v).left == v.left && EnableSpec(v).right == v.right
    ensures !DisableSpec(v).enabled && Braked(DisableSpec(v))
  {
    BrakeStops(v.(enabled := false));
  }

  /** `run_cycle` re-applies the remembered speeds when enabled and alive, and brakes otherwise. */
  lemma RunCycleMaintains(v: DriveView, alive: bool)
    ensures v.enabled && alive ==>
      LastSpeedGroup.Settled(RunCycleSpec(v, alive).left) && RunCycleSpec(v, alive).left.oldSpeed == v.left.oldSpeed
      && LastSpeedGroup.Settled(RunCycleSpec(v, alive).right) && RunCycleSpec(v, alive).right.oldSpeed == v.right.oldSpeed
    ensures !(v.enabled && alive) ==> Braked(RunCycleSpec(v, alive))
  {
    LastSpeedGroup.MaintainLastIdempotent(v.left);
    LastSpeedGroup.MaintainLastIdempotent(v.right);
    BrakeStops(v);
  }

  /** A cycle right after an enabled, alive `drive` changes nothing: the drive keeps going. */
  lemma RunCycleAfterDriveKeeps(v: DriveView, l: real, r: real)
    requires v.enabled
    ensures RunCycleSpec(DriveSpec(v, true, l, r), true) == DriveSpec(v, true, l, r)
  {
    var d := DriveSpec(v, true, l, r);
    LastSpeedGroup.SetAndStopReadBack(v.left, l);
    LastSpeedGroup.SetAndStopReadBack(v.right, r);
    LastSpeedGroup.MaintainLastIdempotent(d.left);
    LastSpeedGroup.MaintainLastIdempotent(d.right);
  }

  class DriveTrain {
    const state: DriveTrainState.GlobalDriveTrainState
    const left: LastSpeedGroup.MotorGroup
    const right: LastSpeedGroup.MotorGroup
    const life: Life.GlobalLifeState

    /** The two sides are separate groups over separate motors. */
    ghost predicate Valid()
    {
      left != right && left.Valid() && right.Valid()
      && left.States() !! right.States() && left.Members() !! right.Members()
    }

    /** Everything a motor command may change. */
    ghost function Motors(): set<object>
    {
      {left, right} + left.States() + right.States()
    }

    ghost function Repr(): set<object>
    {
      {state} + Motors() + left.Members() + right.Members()
    }

    ghost function View(): DriveView
      reads state, left, right, left.Members(), left.States(), right.Members(), right.States()
    {
      DriveView(state.enabled, left.View(), right.View())
    }

    constructor (left: LastSpeedGroup.MotorGroup, right: LastSpeedGroup.MotorGroup, life: Life.GlobalLifeState, state: DriveTrainState.GlobalDriveTrainState)
      ensures this.left == left && this.right == right && this.life == life && this.state == state
    {
      this.state := state;
      this.left := left;
      this.right := right;
      this.life := life;
    }

    method RunCycle()
      requires Valid()
      modifies Motors()
      ensures View() == RunCycleSpec(old(View()), life.IsAlive())
    {
      if state.GetEnabled() && life.IsAlive() {
        MaintainLast();
      } else {
        Brake();
      }
    }

    method Drive(leftSpeed: real, rightSpeed: real)
      requires Valid()
      modifies Motors()
      ensures View() == DriveSpec(old(View()), life.IsAlive(), leftSpeed, rightSpeed)
    {
      if state.GetEnabled() && life.IsAlive() {
        left.SetSpeed(leftSpeed);
        right.SetSpeed(rightSpeed);
      } else {
        left.Stop();
        right.Stop();
      }
    }

    method Brake()
      requires Valid()
      modifies Motors()
      ensures View() == BrakeSpec(old(View()))
    {
      left.Stop();
      right.Stop();
    }

    method Enable()
      modifies state
      ensures View() == EnableSpec(old(View()))
    {
      state.SetEnabled(true);
    }

    method Disable()
      requires Valid()
      modifies state, Motors()
      ensures View() == DisableSpec(old(View()))
    {
      state.SetEnabled(false);
      Brake();
    }

    /** The left group's state cells followed by the right group's, each in group order. */
    function GetMotorStates(): (r: seq<GlobalMotorState>)
      ensures |r| == |left.motors| + |right.motors|
      ensures forall i :: 0 <= i < |left.motors| ==> r[i] == left.motors[i].state
      ensures forall j :: 0 <= j < |right.motors| ==> r[|left.motors| + j] == right.motors[j].state
    {
      left.GetStates() + right.GetStates()
    }

    method MaintainLast()
      requires Valid()
      modifies Motors()
      ensures View() == old(View()).(left := LastSpeedGroup.MaintainLastSpec(old(View()).left), right := LastSpeedGroup.MaintainLastSpec(old(View()).right))
    {
      left.MaintainLast();
      right.MaintainLast();
    }
  }
}

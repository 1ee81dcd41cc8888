/**
 * The `MotorGroup` of src/devices/motor_controllers/motor_group/mod.rs: a
 * vector of motors driven together that remembers the last speed it was set
 * to (`old_speed`), so that a drive train can re-apply it every cycle.
 */
module LastSpeedGroup {
  import opened Shared
  import opened MotorState
  import opened DeviceMotors

  /** What a group and its members show: the remembered speed, and each member's speed and inversion. */
  datatype GroupView = GroupView(oldSpeed: real, speeds: seq<real>, inverted: seq<bool>)

  ghost predicate WellFormed(v: GroupView)
  {
    |v.speeds| == |v.inverted|
  }

  /** `set_speed`: remember `s` and run every member at `s`. */
  function SetSpeedSpec(v: GroupView, s: real): GroupView
  {
    v.(oldSpeed := s, speeds := Fill(|v.speeds|, s))
  }

  /** `stop`: remember 0 and stop every member. */
  function StopSpec(v: GroupView): GroupView
  {
    v.(oldSpeed := 0.0, speeds := Fill(|v.speeds|, 0.0))
  }

  /** `invert`: negate the remembered speed and flip every member's direction. */
  function InvertSpec(v: GroupView): GroupView
  {
    v.(oldSpeed := -v.oldSpeed, inverted := seq(|v.inverted|, i requires 0 <= i < |v.inverted| => !v.inverted[i]))
  }

  /** `maintain_last`: set the group to the speed it remembers. */
  function MaintainLastSpec(v: GroupView): GroupView
  {
    SetSpeedSpec(v, v.oldSpeed)
  }

  /** Every member runs at the remembered speed. */
  ghost predicate Settled(v: GroupView)
  {
    forall i :: 0 <= i < |v.speeds| ==> v.speeds[i] == v.oldSpeed
  }

  /** After `set_speed(s)` every member reads back `s`, and after `stop` every member reads 0. */
  lemma SetAndStopReadBack(v: GroupView, s: real)
    ensures Settled(SetSpeedSpec(v, s)) && SetSpeedSpec(v, s).oldSpeed == s
    ensures Settled(StopSpec(v)) && StopSpec(v).oldSpeed == 0.0
    ensures forall i :: 0 <= i < |v.speeds| ==> StopSpec(SetSpeedSpec(v, s)).speeds[i] == 0.0
  {
  }

  /** Two inversions restore the remembered speed and every member's direction. */
  lemma InvertTwiceRestores(v: GroupView)
    ensures InvertSpec(InvertSpec(v)) == v
  {
    var w := InvertSpec(InvertSpec(v));
    assert w.inverted == v.inverted;
  }

  /** `maintain_last` keeps the remembered speed, settles the members on it and is idempotent. */
  lemma MaintainLastIdempotent(v: GroupView)
    ensures MaintainLastSpec(v).oldSpeed == v.oldSpeed
    ensures Settled(MaintainLastSpec(v))
    ensures MaintainLastSpec(MaintainLastSpec(v)) == MaintainLastSpec(v)
    ensures Settled(v) ==> MaintainLastSpec(v).speeds == v.speeds
  {
    var w := MaintainLastSpec(v);
    if Settled(v) {
      assert w.speeds == v.speeds;
    }
  }

  class MotorGroup {
    const motors: seq<DeviceMotor>
    var oldSpeed: real

    /** The group owns its motors: no motor appears twice. */
    ghost predicate Valid()
    {
      forall i, j :: 0 <= i < j < |motors| ==> motors[i] != motors[j]
    }

    ghost function States(): set<GlobalMotorState>
    {
      set i | 0 <= i < |motors| :: motors[i].state
    }

    ghost function Members(): set<DeviceMotor>
    {
      set i | 0 <= i < |motors| :: motors[i]
    }

    ghost function View(): (v: GroupView)
      reads this, Members(), States()
      ensures WellFormed(v) && |v.speeds| == |motors|
    {
      GroupView(
        oldSpeed,
        seq(|motors|, i reads this, States() requires 0 <= i < |motors| => motors[i].state.speed),
        seq(|motors|, i reads this, Members() requires 0 <= i < |motors| => motors[i].inverted))
    }

    /** A new group remembers speed 0; a `Vec` of boxes owns each motor once, so none appears twice. */
    constructor (motors: seq<DeviceMotor>)
      requires forall i, j :: 0 <= i < j < |motors| ==> motors[i] != motors[j]
      ensures this.motors == motors && oldSpeed == 0.0 && Valid()
    {
      this.motors := motors;
      oldSpeed := 0.0;
    }

    method SetSpeed(s: real)
      modifies this, States()
      ensures View() == SetSpeedSpec(old(View()), s)
    {
      oldSpeed := s;
      var i := 0;
      while i < |motors|
        invariant 0 <= i <= |motors|
        invariant oldSpeed == s
        invariant forall j :: 0 <= j < i ==> motors[j].state.speed == s
      {
        motors[i].SetSpeed(s);
        i := i + 1;
      }
      assert View().speeds == Fill(|motors|, s);
    }

    method Stop()
      modifies this, States()
      ensures View() == StopSpec(old(View()))
    {
      oldSpeed := 0.0;
      var i := 0;
      while i < |motors|
        invariant 0 <= i <= |motors|
        invariant oldSpeed == 0.0
        invariant forall j :: 0 <= j < i ==> motors[j].state.speed == 0.0
      {
        motors[i].Stop();
        i := i + 1;
      }
      assert View().speeds == Fill(|motors|, 0.0);
    }

    method Invert()
      requires Valid()
      modifies this, Members()
      ensures View() == InvertSpec(old(View()))
    {
      oldSpeed := -oldSpeed;
      var i := 0;
      while i < |motors|
        invariant 0 <= i <= |motors|
        invariant oldSpeed == -old(oldSpeed)
        invariant forall j :: 0 <= j < i ==> motors[j].inverted == !old(motors[j].inverted)
        invariant forall j :: i <= j < |motors| ==> motors[j].inverted == old(motors[j].inverted)
      {
        motors[i].Invert();
        i := i + 1;
      }
      assert View().inverted == InvertSpec(old(View())).inverted;
    }

    method MaintainLast()
      modifies this, States()
      ensures View() == MaintainLastSpec(old(View()))
    {
      SetSpeed(oldSpeed);
    }

    /** One state cell per motor, in group order. */
    function GetStates(): (r: seq<GlobalMotorState>)
      ensures |r| == |motors|
      ensures forall i :: 0 <= i < |motors| ==> r[i] == motors[i].state
    {
      seq(|motors|, i requires 0 <= i < |motors| => motors[i].state)
    }
  }
}

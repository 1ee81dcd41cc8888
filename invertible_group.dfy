/**
 * The `MotorGroup` of src/devices/motor_controllers/motor_group.rs: a vector
 * of motors driven together that also carries its own inversion flag.
 */
module InvertibleGroup {
  import opened Shared
  import opened MotorState
  import opened DeviceMotors

  /** The group's flag, and each member's speed and inversion. */
  datatype GroupView = GroupView(isInverted: bool, speeds: seq<real>, inverted: seq<bool>)

  function SetSpeedSpec(v: GroupView, s: real): GroupView
  {
    v.(speeds := Fill(|v.speeds|, s))
  }

  function StopSpec(v: GroupView): GroupView
  {
    v.(speeds := Fill(|v.speeds|, 0.0))
  }

  function InvertSpec(v: GroupView): GroupView
  {
    v.(isInverted := !v.isInverted, inverted := seq(|v.inverted|, i requires 0 <= i < |v.inverted| => !v.inverted[i]))
  }

  /** Inverting twice restores the group's flag and every member's direction; speeds are never touched. */
  lemma InvertTwiceRestores(v: GroupView)
    ensures InvertSpec(InvertSpec(v)) == v
    ensures InvertSpec(v).speeds == v.speeds && InvertSpec(v).isInverted != v.isInverted
  {
    assert InvertSpec(InvertSpec(v)).inverted == v.inverted;
  }

  class MotorGroup {
    var isInverted: bool
    const motors: seq<DeviceMotor>

    /** The group owns its motors: no motor appears twice. */
    ghost predicate Valid()
    {
      forall i, j :: 0 <= i < j < |motors| ==> motors[i] != motors[j]
    }

    ghost function States(): set<GlobalMotorState>
    {
      set i | 0 <= i < |motors| :: motors[i].state
    }

    ghost function Members(): set<DeviceMotor>
    {
      set i | 0 <= i < |motors| :: motors[i]
    }

    ghost function View(): (v: GroupView)
      reads this, Members(), States()
      ensures |v.speeds| == |v.inverted| == |motors|
    {
      GroupView(
        isInverted,
        seq(|motors|, i reads this, States() requires 0 <= i < |motors| => motors[i].state.speed),
        seq(|motors|, i reads this, Members() requires 0 <= i < |motors| => motors[i].inverted))
    }

    /** A new group is not inverted. */
    constructor (motors: seq<DeviceMotor>)
      ensures this.motors == motors && !isInverted
    {
      this.motors := motors;
      isInverted := false;
    }

    /** Forwards the identical speed to every motor. */
    method SetSpeed(s: real)
      modifies States()
      ensures View() == SetSpeedSpec(old(View()), s)
    {
      var i := 0;
      while i < |motors|
        invariant 0 <= i <= |motors|
        invariant forall j :: 0 <= j < i ==> motors[j].state.speed == s
      {
        motors[i].SetSpeed(s);
        i := i + 1;
      }
      assert View().speeds == Fill(|motors|, s);
    }

    /** Forwards stop to every motor. */
    method Stop()
      modifies States()
      ensures View() == StopSpec(old(View()))
    {
      var i := 0;
      while i < |motors|
        invariant 0 <= i <= |motors|
        invariant forall j :: 0 <= j < i ==> motors[j].state.speed == 0.0
      {
        motors[i].Stop();
        i := i + 1;
      }
      assert View().speeds == Fill(|motors|, 0.0);
    }

    /** Toggles the group's flag, then inverts every motor. */
    method Invert()
      requires Valid()
      modifies this, Members()
      ensures View() == InvertSpec(old(View()))
    {
      isInverted := !IsInverted();
      var i := 0;
      while i < |motors|
        invariant 0 <= i <= |motors|
        invariant isInverted == !old(isInverted)
        invariant forall j :: 0 <= j < i ==> motors[j].inverted == !old(motors[j].inverted)
        invariant forall j :: i <= j < |motors| ==> motors[j].inverted == old(motors[j].inverted)
      {
        motors[i].Invert();
        i := i + 1;
      }
      assert View().inverted == InvertSpec(old(View())).inverted;
    }

    function IsInverted(): bool
      reads this
    {
      isInverted
    }
  }

  /** Two calls of `invert` leave the group's flag as it was. */
  method InvertTwice(g: MotorGroup)
    requires g.Valid()
    modifies g, g.Members()
    ensures g.View() == old(g.View()) && g.IsInverted() == old(g.IsInverted())
  {
    g.Invert();
    g.Invert();
    InvertTwiceRestores(old(g.View()));
  }
}

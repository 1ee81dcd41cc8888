/**
 * The intake of src/mechatronics/bucket_ladder/mod.rs: a bucket-ladder
 * (digger) motor and an actuator motor. The intake keeps a private copy of
 * the shared enabled flag (`enabled_cache`), and only digging is gated.
 */
module Intake {
  import opened MotorState
  import Life
  import IntakeState
  import RobotMap

  datatype ActuatorAction = Rising | Falling | Stopped

  /** What the intake shows: the shared flag, its cache, the actuator action and both motor speeds. */
  datatype IntakeView = IntakeView(enabled: bool, enabledCache: bool, action: ActuatorAction, ladder: real, actuator: real)

  function EnableSpec(v: IntakeView): IntakeView
  {
    v.(enabled := true, enabledCache := true)
  }

  /** `disable`: clear both flags, then stop digging and stop the actuators. */
  function DisableSpec(v: IntakeView): IntakeView
  {
    StopActuatorsSpec(StopDiggingSpec(v.(enabled := false, enabledCache := false)))
  }

  /** `raise`: no enabled, life or limit check. */
  function RaiseSpec(v: IntakeView): IntakeView
  {
    v.(actuator := RobotMap.MH_ACTUATOR_RATE, action := Rising)
  }

  function LowerSpec(v: IntakeView): IntakeView
  {
    v.(actuator := -RobotMap.MH_ACTUATOR_RATE, action := Falling)
  }

  function StopActuatorsSpec(v: IntakeView): IntakeView
  {
    v.(actuator := 0.0, action := Stopped)
  }

  /** `dig`: run the ladder only when the cached flag is set and the robot is alive; otherwise nothing changes. */
  function DigSpec(v: IntakeView, alive: bool): IntakeView
  {
    if v.enabledCache && alive then v.(ladder := RobotMap.DIGGING_RATE) else v
  }

  function ReverseSpec(v: IntakeView, alive: bool): IntakeView
  {
    if v.enabledCache && alive then v.(ladder := -RobotMap.DIGGING_RATE) else v
  }

  function StopDiggingSpec(v: IntakeView): IntakeView
  {
    v.(ladder := 0.0)
  }

  /** An enabled, alive intake digs at the digging rate and reverses at its negation. */
  lemma DigWhenEnabled(v: IntakeView)
    ensures DigSpec(EnableSpec(v), true).ladder == RobotMap.DIGGING_RATE
    ensures ReverseSpec(EnableSpec(v), true).ladder == -RobotMap.DIGGING_RATE
  {
  }

  /** After `disable` or while dead, `dig` and `reverse` keep the ladder where it was: at 0 after `disable`. */
  lemma DigBlocked(v: IntakeView, alive: bool)
    ensures DigSpec(DisableSpec(v), alive).ladder == 0.0 && ReverseSpec(DisableSpec(v), alive).ladder == 0.0
    ensures DigSpec(v, false) == v && ReverseSpec(v, false) == v
    ensures !DisableSpec(v).enabled && DisableSpec(v).actuator == 0.0 && DisableSpec(v).action == Stopped
  {
  }

  /** Digging reads the cache, never the shared flag: a shared flag set behind the intake's back does not start it. */
  lemma DigIgnoresSharedFlag(v: IntakeView, b: bool, alive: bool)
    ensures DigSpec(v.(enabled := b), alive) == DigSpec(v, alive).(enabled := b)
    ensures ReverseSpec(v.(enabled := b), alive) == ReverseSpec(v, alive).(enabled := b)
  {
  }

  /** Raising and lowering ignore both flags and life: they only move the actuator. */
  lemma ActuatorUngated(v: IntakeView)
    ensures RaiseSpec(v).actuator == RobotMap.MH_ACTUATOR_RATE && RaiseSpec(v).action == Rising
    ensures LowerSpec(v).actuator == -RobotMap.MH_ACTUATOR_RATE && LowerSpec(v).action == Falling
    ensures RaiseSpec(v).(actuator := v.actuator, action := v.action) == v
    ensures LowerSpec(v).(actuator := v.actuator, action := v.action) == v
    ensures RaiseSpec(DisableSpec(v)).actuator == RobotMap.MH_ACTUATOR_RATE
  {
  }

  class Intake {
    const actuator: GlobalMotorState
    const ladder: GlobalMotorState
    const state: IntakeState.GlobalIntakeState
    const life: Life.GlobalLifeState
    var enabledCache: bool
    var action: ActuatorAction

    ghost predicate Valid()
    {
      actuator != ladder
    }

    ghost function Repr(): set<object>
    {
      {this, state, actuator, ladder}
    }

    ghost function View(): IntakeView
      reads this, state, actuator, ladder
    {
      IntakeView(state.enabled, enabledCache, action, ladder.speed, actuator.speed)
    }

    /** The cache starts as a copy of the shared flag, and the actuator as Stopped. */
    constructor (ladder: GlobalMotorState, actuator: GlobalMotorState, state: IntakeState.GlobalIntakeState, life: Life.GlobalLifeState)
      ensures this.ladder == ladder && this.actuator == actuator && this.state == state && this.life == life
      ensures enabledCache == state.enabled && action == Stopped
    {
      this.actuator := actuator;
      this.ladder := ladder;
      this.state := state;
      this.life := life;
      enabledCache := state.GetEnabled();
      action := Stopped;
    }

    method Enable()
      modifies this, state
      ensures View() == EnableSpec(old(View()))
    {
      state.SetEnabled(true);
      enabledCache := true;
    }

    method Disable()
      requires Valid()
      modifies Repr()
      ensures View() == DisableSpec(old(View()))
    {
      state.SetEnabled(false);
      enabledCache := false;
      StopDigging();
      StopActuators();
    }

    method Raise()
      requires Valid()
      modifies this, actuator
      ensures View() == RaiseSpec(old(View()))
    {
      actuator.SetSpeed(RobotMap.MH_ACTUATOR_RATE);
      action := Rising;
    }

    method Lower()
      requires Valid()
      modifies this, actuator
      ensures View() == LowerSpec(old(View()))
    {
      actuator.SetSpeed(-RobotMap.MH_ACTUATOR_RATE);
      action := Falling;
    }

    method StopActuators()
      requires Valid()
      modifies this, actuator
      ensures View() == StopActuatorsSpec(old(View()))
    {
      actuator.SetSpeed(0.0);
      action := Stopped;
    }

    method Dig()
      requires Valid()
      modifies ladder
      ensures View() == DigSpec(old(View()), life.IsAlive())
    {
      if IsEnabled() && life.IsAlive() {
        ladder.SetSpeed(RobotMap.DIGGING_RATE);
      }
    }

    method Reverse()
      requires Valid()
      modifies ladder
      ensures View() == ReverseSpec(old(View()), life.IsAlive())
    {
      if IsEnabled() && life.IsAlive() {
        ladder.SetSpeed(-RobotMap.DIGGING_RATE);
      }
    }

    method StopDigging()
      requires Valid()
      modifies ladder
      ensures View() == StopDiggingSpec(old(View()))
    {
      ladder.SetSpeed(0.0);
    }

    /** The intake does nothing on a cycle. */
    method RunCycle()
      ensures View() == old(View())
    {
    }

    function IsEnabled(): bool
      reads this
    {
      enabledCache
    }
  }
}

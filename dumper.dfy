/**
 * The dumper of src/mechatronics/dumper/mod.rs: one motor and an action,
 * guarded by the upper and lower limit switches of the shared dumper state.
 */
module Dumper {
  import opened MotorState
  import Life
  import DumperState
  import RobotMap

  datatype DumperAction = Dumping | Resetting | Stopped

  /**
   * What the dumper shows: the shared and the local enabled flag, the action,
   * the motor speed, and the two limit switches it reads.
   */
  datatype DumperView = DumperView(sharedEnabled: bool, enabled: bool, action: DumperAction, speed: real, upper: bool, lower: bool)

  function EnableSpec(v: DumperView): DumperView
  {
    v.(sharedEnabled := true, enabled := true)
  }

  function DisableSpec(v: DumperView): DumperView
  {
    StopSpec(v.(sharedEnabled := false, enabled := false))
  }

  /** `dump`: only when enabled, the upper limit is clear and the robot is alive; otherwise nothing changes. */
  function DumpSpec(v: DumperView, alive: bool): DumperView
  {
    if v.enabled && !v.upper && alive then v.(speed := RobotMap.DUMPING_RATE, action := Dumping) else v
  }

  /** `reset`: only when enabled, the lower limit is clear and the robot is alive; otherwise nothing changes. */
  function ResetSpec(v: DumperView, alive: bool): DumperView
  {
    if v.enabled && !v.lower && alive then v.(speed := RobotMap.DUMPER_RESET_RATE, action := Resetting) else v
  }

  function StopSpec(v: DumperView): DumperView
  {
    v.(speed := 0.0, action := Stopped)
  }

  /** `run_cycle`: when enabled, stop a dumper that has run into the limit of its direction. Life is not consulted. */
  function RunCycleSpec(v: DumperView): DumperView
  {
    if !v.enabled then v
    else match v.action
      case Dumping => if v.upper then StopSpec(v) else v
      case Resetting => if v.lower then StopSpec(v) else v
      case Stopped => v
  }

  /** A cycle stops the motor exactly when the dumper is enabled and moving into a tripped limit, and otherwise changes nothing. */
  lemma RunCycleStopsAtLimit(v: DumperView)
    ensures RunCycleSpec(v) == (if v.enabled && ((v.action == Dumping && v.upper) || (v.action == Resetting && v.lower)) then StopSpec(v) else v)
    ensures RunCycleSpec(RunCycleSpec(v)) == RunCycleSpec(v)
    ensures RunCycleSpec(v).speed == v.speed || RunCycleSpec(v).speed == 0.0
  {
  }

  /** After `disable`, `dump` and `reset` leave the motor at 0 until `enable`, whatever the switches and life say. */
  lemma DisabledStaysStill(v: DumperView, alive: bool)
    ensures DumpSpec(DisableSpec(v), alive) == DisableSpec(v) && ResetSpec(DisableSpec(v), alive) == DisableSpec(v)
    ensures DisableSpec(v).speed == 0.0 && DisableSpec(v).action == Stopped && !DisableSpec(v).sharedEnabled
    ensures RunCycleSpec(DisableSpec(v)) == DisableSpec(v)
  {
  }

  /** A tripped limit blocks the move towards it; a clear one lets an enabled, alive dumper move. */
  lemma LimitsGuardMoves(v: DumperView)
    ensures v.upper ==> DumpSpec(v, true) == v
    ensures v.lower ==> ResetSpec(v, true) == v
    ensures v.enabled && !v.upper ==> DumpSpec(v, true).speed == RobotMap.DUMPING_RATE && DumpSpec(v, true).action == Dumping
    ensures v.enabled && !v.lower ==> ResetSpec(v, true).speed == RobotMap.DUMPER_RESET_RATE && ResetSpec(v, true).action == Resetting
  {
  }

  /** While dead a dumping dumper keeps its motor running through the cycle unless the limit trips: the cycle ignores life. */
  lemma DeadDumpingKeepsRunning(v: DumperView)
    requires v.enabled && v.action == Dumping && !v.upper
    ensures DumpSpec(v, false) == v && RunCycleSpec(v) == v
  {
  }

  class Dumper {
    const motors: GlobalMotorState
    const state: DumperState.GlobalDumperState
    const life: Life.GlobalLifeState
    var enabled: bool
    var action: DumperAction

    ghost function Repr(): set<object>
    {
      {this, state, motors}
    }

    ghost function View(): DumperView
      reads this, state, motors, state.upperLimit, state.lowerLimit
    {
      DumperView(state.enabled, enabled, action, motors.speed, state.upperLimit.value, state.lowerLimit.value)
    }

    /** The local flag starts as a copy of the shared one, and the action as Stopped. */
    constructor (life: Life.GlobalLifeState, motors: GlobalMotorState, state: DumperState.GlobalDumperState)
      ensures this.life == life && this.motors == motors && this.state == state
      ensures enabled == state.enabled && action == Stopped
    {
      this.motors := motors;
      this.state := state;
      this.life := life;
      enabled := state.GetEnabled();
      action := Stopped;
    }

    method Enable()
      modifies this, state
      ensures View() == EnableSpec(old(View()))
    {
      state.SetEnabled(true);
      enabled := true;
    }

    method Disable()
      modifies Repr()
      ensures View() == DisableSpec(old(View()))
    {
      state.SetEnabled(false);
      enabled := false;
      Stop();
    }

    method Dump()
      modifies this, motors
      ensures View() == DumpSpec(old(View()), life.IsAlive())
    {
      if enabled && !state.GetUpperLimit().value && life.IsAlive() {
        motors.SetSpeed(RobotMap.DUMPING_RATE);
        action := Dumping;
      }
    }

    method Reset()
      modifies this, motors
      ensures View() == ResetSpec(old(View()), life.IsAlive())
    {
      if enabled && !state.GetLowerLimit().value && life.IsAlive() {
        motors.SetSpeed(RobotMap.DUMPER_RESET_RATE);
        action := Resetting;
      }
    }

    method Stop()
      modifies this, motors
      ensures View() == StopSpec(old(View()))
    {
      motors.SetSpeed(0.0);
      action := Stopped;
    }

    method RunCycle()
      modifies this, motors
      ensures View() == RunCycleSpec(old(View()))
    {
      if enabled {
        match action
        case Dumping =>
          if state.GetUpperLimit().value {
            Stop();
          }
        case Resetting =>
          if state.GetLowerLimit().value {
            Stop();
          }
        case Stopped =>
      }
    }
  }
}

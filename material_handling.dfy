/**
 * The older bucket ladder of src/mechatronics/material_handling/bucket_ladder/mod.rs:
 * a digger group and an actuator group, each with a remembered action that
 * `run_cycle` re-issues. Unlike the newer intake, every move is gated by the
 * enabled flag and life, and a refused move becomes a stop.
 */
module MaterialBucketLadder {
  import LastSpeedGroup
  import Mechatronics
  import RobotMap

  datatype ActuatorState = Rising | Lowering | Stopped
  datatype DiggerState = Digging | DiggerStopped

  datatype LadderView = LadderView(
    enabled: bool,
    diggerState: DiggerState,
    actuatorState: ActuatorState,
    digger: LastSpeedGroup.GroupView,
    actuators: LastSpeedGroup.GroupView)

  function EnableSpec(v: LadderView): LadderView
  {
    v.(enabled := true)
  }

  /** `disable`: clear the flag, stop digging, stop the actuators. */
  function DisableSpec(v: LadderView): LadderView
  {
    StopActuatorsSpec(StopDiggingSpec(v.(enabled := false)))
  }

  function StopActuatorsSpec(v: LadderView): LadderView
  {
    v.(actuators := LastSpeedGroup.StopSpec(v.actuators), actuatorState := Stopped)
  }

  function StopDiggingSpec(v: LadderView): LadderView
  {
    v.(digger := LastSpeedGroup.StopSpec(v.digger), diggerState := DiggerStopped)
  }

  /** `raise`: move up when enabled and alive, otherwise stop the actuators. */
  function RaiseSpec(v: LadderView, alive: bool): LadderView
  {
    if v.enabled && alive then v.(actuators := LastSpeedGroup.SetSpeedSpec(v.actuators, RobotMap.MH_ACTUATOR_RATE), actuatorState := Rising)
    else StopActuatorsSpec(v)
  }

  function LowerSpec(v: LadderView, alive: bool): LadderView
  {
    if v.enabled && alive then v.(actuators := LastSpeedGroup.SetSpeedSpec(v.actuators, -RobotMap.MH_ACTUATOR_RATE), actuatorState := Lowering)
    else StopActuatorsSpec(v)
  }

  /** `dig`: dig when enabled and alive, otherwise stop digging. */
  function DigSpec(v: LadderView, alive: bool): LadderView
  {
    if v.enabled && alive then v.(digger := LastSpeedGroup.SetSpeedSpec(v.digger, RobotMap.DIGGING_RATE), diggerState := Digging)
    else StopDiggingSpec(v)
  }

  /** `run_cycle`: re-issue the actuator action, then the digger action. */
  function RunCycleSpec(v: LadderView, alive: bool): LadderView
  {
    var w := match v.actuatorState
      case Rising => RaiseSpec(v, alive)
      case Lowering => LowerSpec(v, alive)
      case Stopped => StopActuatorsSpec(v);
    match w.diggerState
    case Digging => DigSpec(w, alive)
    case DiggerStopped => StopDiggingSpec(w)
  }

  /** Both groups stopped, remembering 0, with both actions Stopped. */
  ghost predicate AtRest(v: LadderView)
  {
    v.diggerState == DiggerStopped && v.actuatorState == Stopped
    && LastSpeedGroup.Settled(v.digger) && v.digger.oldSpeed == 0.0
    && LastSpeedGroup.Settled(v.actuators) && v.actuators.oldSpeed == 0.0
  }

  /** A refused move is a stop: without enabled and life, `raise`, `lower` and `dig` set their action to Stopped. */
  lemma RefusedMoveStops(v: LadderView, alive: bool)
    requires !(v.enabled && alive)
    ensures RaiseSpec(v, alive) == StopActuatorsSpec(v) && LowerSpec(v, alive) == StopActuatorsSpec(v)
    ensures DigSpec(v, alive) == StopDiggingSpec(v)
    ensures LastSpeedGroup.Settled(StopActuatorsSpec(v).actuators) && LastSpeedGroup.Settled(StopDiggingSpec(v).digger)
  {
    LastSpeedGroup.SetAndStopReadBack(v.actuators, 0.0);
    LastSpeedGroup.SetAndStopReadBack(v.digger, 0.0);
  }

  /** `disable` leaves the ladder at rest. */
  lemma DisableRests(v: LadderView)
    ensures AtRest(DisableSpec(v)) && !DisableSpec(v).enabled
  {
    LastSpeedGroup.SetAndStopReadBack(v.actuators, 0.0);
    LastSpeedGroup.SetAndStopReadBack(v.digger, 0.0);
  }

  /** One cycle while dead or disabled brings the ladder to rest, and a later cycle after revival keeps it there. */
  lemma DeadCycleCollapses(v: LadderView, alive: bool, later: bool)
    requires !(v.enabled && alive)
    ensures AtRest(RunCycleSpec(v, alive))
    ensures RunCycleSpec(RunCycleSpec(v, alive), later) == RunCycleSpec(v, alive)
  {
    var w := match v.actuatorState
      case Rising => RaiseSpec(v, alive)
      case Lowering => LowerSpec(v, alive)
      case Stopped => StopActuatorsSpec(v);
    assert w == StopActuatorsSpec(v);
    var r := RunCycleSpec(v, alive);
    assert r == StopDiggingSpec(w);
    LastSpeedGroup.SetAndStopReadBack(v.actuators, 0.0);
    LastSpeedGroup.SetAndStopReadBack(v.digger, 0.0);
    assert AtRest(r);
    LastSpeedGroup.MaintainLastIdempotent(r.actuators);
    LastSpeedGroup.MaintainLastIdempotent(r.digger);
    assert LastSpeedGroup.StopSpec(r.actuators) == r.actuators;
    assert LastSpeedGroup.StopSpec(r.digger) == r.digger;
  }

  class BucketLadder {
    var isEnabled: bool
    const actuators: LastSpeedGroup.MotorGroup
    const digger: LastSpeedGroup.MotorGroup
    var diggerState: DiggerState
    var actuatorState: ActuatorState
    const life: Mechatronics.GlobalLifeStatus

    ghost predicate Valid()
    {
      actuators != digger && actuators.Valid() && digger.Valid()
      && actuators.States() !! digger.States() && actuators.Members() !! digger.Members()
    }

    ghost function Motors(): set<object>
    {
      {this, actuators, digger} + actuators.States() + digger.States()
    }

    ghost function View(): LadderView
      reads this, actuators, digger, actuators.Members(), actuators.States(), digger.Members(), digger.States()
    {
      LadderView(isEnabled, diggerState, actuatorState, digger.View(), actuators.View())
    }

    /** A new ladder is enabled and at a standstill. */
    constructor (digger: LastSpeedGroup.MotorGroup, actuators: LastSpeedGroup.MotorGroup, life: Mechatronics.GlobalLifeStatus)
      ensures this.digger == digger && this.actuators == actuators && this.life == life
      ensures isEnabled && diggerState == DiggerStopped && actuatorState == Stopped
    {
      isEnabled := true;
      this.actuators := actuators;
      this.digger := digger;
      diggerState := DiggerStopped;
      actuatorState := Stopped;
      this.life := life;
    }

    method Enable()
      modifies this
      ensures View() == EnableSpec(old(View()))
    {
      isEnabled := true;
    }

    method Disable()
      requires Valid()
      modifies Motors()
      ensures View() == DisableSpec(old(View()))
    {
      isEnabled := false;
      StopDigging();
      StopActuators();
    }

    method Raise()
      requires Valid()
      modifies Motors()
      ensures View() == RaiseSpec(old(View()), life.IsAlive())
    {
      if isEnabled && life.IsAlive() {
        actuators.SetSpeed(RobotMap.MH_ACTUATOR_RATE);
        actuatorState := Rising;
      } else {
        StopActuators();
      }
    }

    method Lower()
      requires Valid()
      modifies Motors()
      ensures View() == LowerSpec(old(View()), life.IsAlive())
    {
      if isEnabled && life.IsAlive() {
        actuators.SetSpeed(-RobotMap.MH_ACTUATOR_RATE);
        actuatorState := Lowering;
      } else {
        StopActuators();
      }
    }

    method StopActuators()
      requires Valid()
      modifies Motors()
      ensures View() == StopActuatorsSpec(old(View()))
    {
      actuators.Stop();
      actuatorState := Stopped;
    }

    method Dig()
      requires Valid()
      modifies Motors()
      ensures View() == DigSpec(old(View()), life.IsAlive())
    {
      if isEnabled && life.IsAlive() {
        digger.SetSpeed(RobotMap.DIGGING_RATE);
        diggerState := Digging;
      } else {
        StopDigging();
      }
    }

    method StopDigging()
      requires Valid()
      modifies Motors()
      ensures View() == StopDiggingSpec(old(View()))
    {
      digger.Stop();
      diggerState := DiggerStopped;
    }

    method RunCycle()
      requires Valid()
      modifies Motors()
      ensures View() == RunCycleSpec(old(View()), life.IsAlive())
    {
      match actuatorState {
        case Rising => Raise();
        case Lowering => Lower();
        case Stopped => StopActuators();
      }
      match diggerState {
        case Digging => Dig();
        case DiggerStopped => StopDigging();
      }
    }
  }
}

/**
 * The older dumper of src/mechatronics/material_handling/dumper/mod.rs: a
 * motor group and a remembered action that `run_cycle` re-issues, gated by
 * the enabled flag and life but by no limit switch.
 */
module MaterialDumper {
  import LastSpeedGroup
  import Mechatronics
  import RobotMap

  datatype DumperState = Dumping | Resetting | Stopped

  datatype DumperView = DumperView(enabled: bool, state: DumperState, motors: LastSpeedGroup.GroupView)

  function EnableSpec(v: DumperView): DumperView
  {
    v.(enabled := true)
  }

  function DisableSpec(v: DumperView): DumperView
  {
    StopSpec(v.(enabled := false))
  }

  /** `dump`: only when enabled and alive; otherwise nothing changes. */
  function DumpSpec(v: DumperView, alive: bool): DumperView
  {
    if v.enabled && alive then v.(motors := LastSpeedGroup.SetSpeedSpec(v.motors, RobotMap.DUMPING_RATE), state := Dumping) else v
  }

  function ResetSpec(v: DumperView, alive: bool): DumperView
  {
    if v.enabled && alive then v.(motors := LastSpeedGroup.SetSpeedSpec(v.motors, RobotMap.DUMPER_RESET_RATE), state := Resetting) else v
  }

  /** `stop` sets the group to speed 0 and the action to Stopped. */
  function StopSpec(v: DumperView): DumperView
  {
    v.(motors := LastSpeedGroup.SetSpeedSpec(v.motors, 0.0), state := Stopped)
  }

  /** `run_cycle`: re-issue the current action. */
  function RunCycleSpec(v: DumperView, alive: bool): DumperView
  {
    match v.state
    case Dumping => DumpSpec(v, alive)
    case Resetting => ResetSpec(v, alive)
    case Stopped => StopSpec(v)
  }

  /** `disable` stops the motors; afterwards `dump` and `reset` change nothing until `enable`. */
  lemma DisableStops(v: DumperView, alive: bool)
    ensures DisableSpec(v).state == Stopped && LastSpeedGroup.Settled(DisableSpec(v).motors) && DisableSpec(v).motors.oldSpeed == 0.0
    ensures DumpSpec(DisableSpec(v), alive) == DisableSpec(v) && ResetSpec(DisableSpec(v), alive) == DisableSpec(v)
  {
    LastSpeedGroup.SetAndStopReadBack(v.motors, 0.0);
  }

  /** While dead a Dumping or Resetting action is not cleared by a cycle, and the motors keep what they were told. */
  lemma DeadCycleKeepsAction(v: DumperView)
    requires v.state != Stopped
    ensures RunCycleSpec(v, false) == v
  {
  }

  /** Re-issuing is idempotent: a second cycle changes nothing a first did not. */
  lemma RunCycleIdempotent(v: DumperView, alive: bool)
    ensures RunCycleSpec(RunCycleSpec(v, alive), alive) == RunCycleSpec(v, alive)
  {
    var w := RunCycleSpec(v, alive);
    LastSpeedGroup.MaintainLastIdempotent(v.motors);
    match v.state
    case Dumping =>
      if v.enabled && alive {
        LastSpeedGroup.SetAndStopReadBack(v.motors, RobotMap.DUMPING_RATE);
        LastSpeedGroup.MaintainLastIdempotent(w.motors);
        assert LastSpeedGroup.SetSpeedSpec(w.motors, RobotMap.DUMPING_RATE) == LastSpeedGroup.MaintainLastSpec(w.motors);
        assert LastSpeedGroup.MaintainLastSpec(w.motors).speeds == w.motors.speeds;
      }
    case Resetting =>
      if v.enabled && alive {
        LastSpeedGroup.SetAndStopReadBack(v.motors, RobotMap.DUMPER_RESET_RATE);
        LastSpeedGroup.MaintainLastIdempotent(w.motors);
        assert LastSpeedGroup.SetSpeedSpec(w.motors, RobotMap.DUMPER_RESET_RATE) == LastSpeedGroup.MaintainLastSpec(w.motors);
        assert LastSpeedGroup.MaintainLastSpec(w.motors).speeds == w.motors.speeds;
      }
    case Stopped =>
      LastSpeedGroup.SetAndStopReadBack(v.motors, 0.0);
      LastSpeedGroup.MaintainLastIdempotent(w.motors);
      assert LastSpeedGroup.SetSpeedSpec(w.motors, 0.0) == LastSpeedGroup.MaintainLastSpec(w.motors);
      assert LastSpeedGroup.MaintainLastSpec(w.motors).speeds == w.motors.speeds;
  }

  class Dumper {
    var isEnabled: bool
    const motors: LastSpeedGroup.MotorGroup
    var state: DumperState
    const life: Mechatronics.GlobalLifeStatus

    ghost function Motors(): set<object>
    {
      {this, motors} + motors.States()
    }

    ghost function View(): DumperView
      reads this, motors, motors.Members(), motors.States()
    {
      DumperView(isEnabled, state, motors.View())
    }

    /** A new dumper is enabled and Stopped. */
    constructor (life: Mechatronics.GlobalLifeStatus, motors: LastSpeedGroup.MotorGroup)
      ensures this.life == life && this.motors == motors && isEnabled && state == Stopped
    {
      isEnabled := true;
      this.motors := motors;
      state := Stopped;
      this.life := life;
    }

    method Enable()
      modifies this
      ensures View() == EnableSpec(old(View()))
    {
      isEnabled := true;
    }

    method Disable()
      modifies Motors()
      ensures View() == DisableSpec(old(View()))
    {
      isEnabled := false;
      Stop();
    }

    method Dump()
      modifies Motors()
      ensures View() == DumpSpec(old(View()), life.IsAlive())
    {
      if isEnabled && life.IsAlive() {
        motors.SetSpeed(RobotMap.DUMPING_RATE);
        state := Dumping;
      }
    }

    method Reset()
      modifies Motors()
      ensures View() == ResetSpec(old(View()), life.IsAlive())
    {
      if isEnabled && life.IsAlive() {
        motors.SetSpeed(RobotMap.DUMPER_RESET_RATE);
        state := Resetting;
      }
    }

    method Stop()
      modifies Motors()
      ensures View() == StopSpec(old(View()))
    {
      motors.SetSpeed(0.0);
      state := Stopped;
    }

    method RunCycle()
      modifies Motors()
      ensures View() == RunCycleSpec(old(View()), life.IsAlive())
    {
      match state
      case Dumping => Dump();
      case Resetting => Reset();
      case Stopped => Stop();
    }
  }
}

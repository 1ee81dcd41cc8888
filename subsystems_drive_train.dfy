/**
 * The drive train of src/subsystems/drive_train.rs: two tank sides, each a
 * front and a back motor and an inversion flag. Every motor call is recorded
 * in a shared trace, so the order of the calls is part of the state.
 */
module SubsystemsDriveTrain {
  import opened Shared

  /** One `set_speed` call that reached motor `id`. */
  datatype Event = Event(id: nat, speed: real)

  const UNIMPLEMENTED: string := "not implemented"

  /** The speed a side hands to its motors. */
  function Applied(inverted: bool, speed: real): real
  {
    if inverted then -speed else speed
  }

  /** The calls one side's `set_speed` makes: the front, then the back only if the front succeeded. */
  function SideEvents(frontId: nat, frontFails: bool, backId: nat, speed: real): (r: seq<Event>)
    ensures |r| == if frontFails then 1 else 2
    ensures r[0] == Event(frontId, speed)
  {
    [Event(frontId, speed)] + (if frontFails then [] else [Event(backId, speed)])
  }

  /** Stopping is setting 0, which inversion leaves alone; inverting twice changes nothing. */
  lemma InversionFacts(inverted: bool, speed: real)
    ensures Applied(inverted, 0.0) == 0.0
    ensures Applied(!inverted, speed) == -Applied(inverted, speed)
    ensures Applied(!!inverted, speed) == Applied(inverted, speed)
  {
  }

  /** Where the motor calls of every side go. */
  class Trace {
    var events: seq<Event>

    constructor ()
      ensures events == []
    {
      events := [];
    }
  }

  /** A motor behind `Box<MotorController>`: it fails every call or takes every speed. */
  class Motor {
    const id: nat
    const fails: bool
    const trace: Trace
    var speed: real

    constructor (id: nat, fails: bool, trace: Trace)
      ensures this.id == id && this.fails == fails && this.trace == trace && speed == 0.0
    {
      this.id := id;
      this.fails := fails;
      this.trace := trace;
      speed := 0.0;
    }

    method SetSpeed(s: real) returns (r: Result<(), ()>)
      modifies this, trace
      ensures trace.events == old(trace.events) + [Event(id, s)]
      ensures r.Ok? <==> !fails
      ensures speed == if fails then old(speed) else s
    {
      trace.events := trace.events + [Event(id, s)];
      if fails {
        r := Err(());
      } else {
        speed := s;
        r := Ok(());
      }
    }
  }

  class TankSide {
    var isInverted: bool
    const front: Motor
    const back: Motor

    ghost predicate Valid()
    {
      front != back && front.trace == back.trace
    }

    constructor (front: Motor, back: Motor)
      ensures this.front == front && this.back == back && !isInverted
    {
      isInverted := false;
      this.front := front;
      this.back := back;
    }

    /** Sends the (possibly inverted) speed to the front, and to the back only if the front took it. */
    method SetSpeed(newSpeed: real) returns (r: Result<(), ()>)
      requires Valid()
      modifies front, back, front.trace
      ensures front.trace.events == old(front.trace.events) + SideEvents(front.id, front.fails, back.id, Applied(isInverted, newSpeed))
      ensures r.Ok? <==> !front.fails && !back.fails
      ensures front.speed == if front.fails then old(front.speed) else Applied(isInverted, newSpeed)
      ensures back.speed == if front.fails || back.fails then old(back.speed) else Applied(isInverted, newSpeed)
    {
      var potentiallyInvertedSpeed := if IsInverted() then -newSpeed else newSpeed;
      var f := front.SetSpeed(potentiallyInvertedSpeed);
      if f.Err? {
        return f;
      }
      r := back.SetSpeed(potentiallyInvertedSpeed);
    }

    method Stop() returns (r: Result<(), ()>)
      requires Valid()
      modifies front, back, front.trace
      ensures front.trace.events == old(front.trace.events) + SideEvents(front.id, front.fails, back.id, 0.0)
      ensures r.Ok? <==> !front.fails && !back.fails
      ensures front.speed == if front.fails then old(front.speed) else 0.0
      ensures back.speed == if front.fails || back.fails then old(back.speed) else 0.0
    {
      InversionFacts(isInverted, 0.0);
      r := SetSpeed(0.0);
    }

    method Invert()
      modifies this
      ensures isInverted == !old(isInverted)
    {
      isInverted := !IsInverted();
    }

    function IsInverted(): bool
      reads this
    {
      isInverted
    }
  }

  class DriveTrain {
    var isEnabled: bool
    const left: TankSide
    const right: TankSide

    /** Four distinct motors calling into one trace. */
    ghost predicate Valid()
    {
      left != right && left.Valid() && right.Valid()
      && {left.front, left.back} !! {right.front, right.back}
      && left.front.trace == right.front.trace
    }

    /**
     * `new` obtains its sides from `get_left_side` and `get_right_side`, whose
     * bodies are not written yet, so the sides are given here.
     */
    constructor (left: TankSide, right: TankSide)
      ensures isEnabled && this.left == left && this.right == right
    {
      isEnabled := true;
      this.left := left;
      this.right := right;
    }

    method Enable()
      modifies this
      ensures isEnabled
    {
      isEnabled := true;
    }

    method Disable()
      modifies this
      ensures !isEnabled
    {
      isEnabled := false;
    }

    function IsEnabled(): bool
      reads this
    {
      isEnabled
    }

    /**
     * Sets the right side, then the left, whatever the enabled flag says;
     * any failure then reaches `unimplemented!()`, a panic.
     */
    method Drive(leftSpeed: real, rightSpeed: real) returns (r: Outcome<()>)
      requires Valid()
      modifies left.front, left.back, right.front, right.back, left.front.trace
      ensures left.front.trace.events == old(left.front.trace.events)
        + SideEvents(right.front.id, right.front.fails, right.back.id, Applied(right.isInverted, rightSpeed))
        + SideEvents(left.front.id, left.front.fails, left.back.id, Applied(left.isInverted, leftSpeed))
      ensures r.Panicked? <==> right.front.fails || right.back.fails || left.front.fails || left.back.fails
      ensures r.Panicked? ==> r.message == UNIMPLEMENTED
      ensures right.front.speed == if right.front.fails then old(right.front.speed) else Applied(right.isInverted, rightSpeed)
      ensures right.back.speed == if right.front.fails || right.back.fails then old(right.back.speed) else Applied(right.isInverted, rightSpeed)
      ensures left.front.speed == if left.front.fails then old(left.front.speed) else Applied(left.isInverted, leftSpeed)
      ensures left.back.speed == if left.front.fails || left.back.fails then old(left.back.speed) else Applied(left.isInverted, leftSpeed)
    {
      var rightResult := right.SetSpeed(rightSpeed);
      var leftResult := left.SetSpeed(leftSpeed);
      if rightResult.Err? {
        return Panicked(UNIMPLEMENTED);
      }
      if leftResult.Err? {
        return Panicked(UNIMPLEMENTED);
      }
      r := Done(());
    }
  }

  /** The first motor `drive` calls is the right side's front motor. */
  lemma RightSideFirst(rightFront: nat, rightFrontFails: bool, rightBack: nat, leftFront: nat, leftFrontFails: bool, leftBack: nat, l: real, r: real)
    ensures (SideEvents(rightFront, rightFrontFails, rightBack, r) + SideEvents(leftFront, leftFrontFails, leftBack, l))[0] == Event(rightFront, r)
    ensures (SideEvents(rightFront, rightFrontFails, rightBack, r) + SideEvents(leftFront, leftFrontFails, leftBack, l))[if rightFrontFails then 1 else 2] == Event(leftFront, l)
  {
  }
}

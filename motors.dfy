/**
 * The motor-controller layer of src/motor_controllers: the `MotorController`
 * interface (set_speed, stop, get_motor_state) with its decorators
 * (`InvertedMotor`, `DualLimitMotor`, `FlagMotor`) and the `MotorGroup` that
 * owns a state cell of its own.
 *
 * A `Box<dyn MotorController>` is a closed tree of these values. Its leaves
 * are hardware drivers that store every commanded speed in their state cell
 * (stop stores 0). State cells and flags are shared heap objects, so two
 * motors may report through the same cell; the effect of a call is therefore
 * specified as the ordered trace of cell writes it performs, and the value a
 * cell ends with is the last write to it.
 */
module Motors {
  import opened MotorState
  import opened Shared

  datatype Motor =
    | Hardware(state: GlobalMotorState)
    | Inverted(inner: Motor)
    | DualLimit(inner: Motor, upper: Flag, lower: Flag)
    | Flagged(inner: Motor, disabled: Flag)
    | Group(members: seq<Motor>, groupState: GlobalMotorState)

  /** One write of a speed into a state cell. */
  type Write = (GlobalMotorState, real)

  /** Every state cell a motor writes. */
  ghost function Cells(m: Motor): set<GlobalMotorState>
    decreases m
  {
    match m
    case Hardware(c) => {c}
    case Inverted(i) => Cells(i)
    case DualLimit(i, _, _) => Cells(i)
    case Flagged(i, _) => Cells(i)
    case Group(ms, c) => CellsOf(ms) + {c}
  }

  ghost function CellsOf(ms: seq<Motor>): set<GlobalMotorState>
    decreases ms
  {
    if ms == [] then {} else CellsOf(ms[..|ms| - 1]) + Cells(ms[|ms| - 1])
  }

  /** Every flag a motor consults. */
  ghost function Flags(m: Motor): set<Flag>
    decreases m
  {
    match m
    case Hardware(_) => {}
    case Inverted(i) => Flags(i)
    case DualLimit(i, u, l) => Flags(i) + {u, l}
    case Flagged(i, d) => Flags(i) + {d}
    case Group(ms, _) => FlagsOf(ms)
  }

  ghost function FlagsOf(ms: seq<Motor>): set<Flag>
    decreases ms
  {
    if ms == [] then {} else FlagsOf(ms[..|ms| - 1]) + Flags(ms[|ms| - 1])
  }

  /** The writes `set_speed(s)` performs, in order. */
  ghost function Writes(m: Motor, s: real): seq<Write>
    reads Flags(m)
    decreases m
  {
    match m
    case Hardware(c) => [(c, s)]
    case Inverted(i) => Writes(i, -s)
    case DualLimit(i, u, l) =>
      if (s > 0.0 && !u.value) || (s < 0.0 && !l.value) then Writes(i, s) else StopWrites(i)
    case Flagged(i, d) => if d.value then StopWrites(i) else Writes(i, s)
    case Group(ms, c) => WritesOf(ms, s) + [(c, s)]
  }

  ghost function WritesOf(ms: seq<Motor>, s: real): seq<Write>
    reads FlagsOf(ms)
    decreases ms
  {
    if ms == [] then [] else WritesOf(ms[..|ms| - 1], s) + Writes(ms[|ms| - 1], s)
  }

  /** The writes `stop()` performs, in order. */
  ghost function StopWrites(m: Motor): seq<Write>
    decreases m
  {
    match m
    case Hardware(c) => [(c, 0.0)]
    case Inverted(i) => StopWrites(i)
    case DualLimit(i, _, _) => StopWrites(i)
    case Flagged(i, _) => StopWrites(i)
    case Group(ms, c) => StopWritesOf(ms) + [(c, 0.0)]
  }

  ghost function StopWritesOf(ms: seq<Motor>): seq<Write>
    decreases ms
  {
    if ms == [] then [] else StopWritesOf(ms[..|ms| - 1]) + StopWrites(ms[|ms| - 1])
  }

  /** The value cell `c` holds after the writes `t`, starting from `init`. */
  ghost function Final(t: seq<Write>, c: GlobalMotorState, init: real): real
    decreases |t|
  {
    if t == [] then init else Final(t[1..], c, if t[0].0 == c then t[0].1 else init)
  }

  /** `get_motor_state`: a decorator reports its wrapped motor's cell, a group its own. */
  function StateOf(m: Motor): (c: GlobalMotorState)
    ensures c in Cells(m)
    decreases m
  {
    match m
    case Hardware(c) => c
    case Inverted(i) => StateOf(i)
    case DualLimit(i, _, _) => StateOf(i)
    case Flagged(i, _) => StateOf(i)
    case Group(_, c) => c
  }

  // ---------------------------------------------------------------------------
  // Facts about traces

  lemma {:induction false} FinalAppend(a: seq<Write>, b: seq<Write>, c: GlobalMotorState, init: real)
    ensures Final(a + b, c, init) == Final(b, c, Final(a, c, init))
    decreases |a|
  {
    if a != [] {
      var next := if a[0].0 == c then a[0].1 else init;
      assert (a + b)[0] == a[0];
      assert (a + b)[1..] == a[1..] + b;
      calc {
        Final(a + b, c, init);
        Final(a[1..] + b, c, next);
        { FinalAppend(a[1..], b, c, next); }
        Final(b, c, Final(a[1..], c, next));
      }
    } else {
      assert a + b == b;
    }
  }

  /** A cell that no write of a trace names keeps its value. */
  lemma {:induction false} FinalUntouched(t: seq<Write>, c: GlobalMotorState, init: real)
    requires forall k :: 0 <= k < |t| ==> t[k].0 != c
    ensures Final(t, c, init) == init
    decreases |t|
  {
    if t != [] {
      FinalUntouched(t[1..], c, init);
    }
  }

  /** A trace of zero writes, one of which names `c`, leaves `c` at 0. */
  lemma {:induction false} FinalZero(t: seq<Write>, c: GlobalMotorState, init: real, j: nat)
    requires forall k :: 0 <= k < |t| ==> t[k].1 == 0.0
    requires j < |t| && t[j].0 == c
    ensures Final(t, c, init) == 0.0
    decreases |t|
  {
    var next := if t[0].0 == c then t[0].1 else init;
    if j == 0 {
      if 1 < |t| && exists k :: 0 <= k < |t[1..]| && t[1..][k].0 == c {
        var k :| 0 <= k < |t[1..]| && t[1..][k].0 == c;
        FinalZero(t[1..], c, next, k);
      } else {
        FinalUntouched(t[1..], c, next);
      }
    } else {
      FinalZero(t[1..], c, next, j - 1);
    }
  }

  /** Every cell and flag a motor refers to is an allocated object. */
  lemma {:induction false} Allocated(m: Motor)
    ensures forall c :: c in Cells(m) ==> allocated(c)
    ensures forall f :: f in Flags(m) ==> allocated(f)
    decreases m, 1
  {
    match m
    case Hardware(_) =>
    case Inverted(i) => Allocated(i);
    case DualLimit(i, _, _) => Allocated(i);
    case Flagged(i, _) => Allocated(i);
    case Group(ms, _) => AllocatedOf(ms);
  }

  lemma {:induction false} AllocatedOf(ms: seq<Motor>)
    ensures forall c :: c in CellsOf(ms) ==> allocated(c)
    ensures forall f :: f in FlagsOf(ms) ==> allocated(f)
    decreases ms, 0
  {
    if ms != [] {
      AllocatedOf(ms[..|ms| - 1]);
      Allocated(ms[|ms| - 1]);
    }
  }

  lemma {:induction false} CellsOfMember(ms: seq<Motor>, k: nat)
    requires k < |ms|
    ensures Cells(ms[k]) <= CellsOf(ms)
    ensures Flags(ms[k]) <= FlagsOf(ms)
    decreases ms
  {
    if k < |ms| - 1 {
      CellsOfMember(ms[..|ms| - 1], k);
    }
  }

  /** `set_speed` writes only the cells the motor owns, and so does `stop`. */
  lemma {:induction false} WritesWithin(m: Motor, s: real)
    ensures forall k :: 0 <= k < |Writes(m, s)| ==> Writes(m, s)[k].0 in Cells(m)
    ensures forall k :: 0 <= k < |StopWrites(m)| ==> StopWrites(m)[k].0 in Cells(m)
    decreases m, 1
  {
    match m
    case Hardware(_) =>
    case Inverted(i) => WritesWithin(i, -s);
    case DualLimit(i, _, _) => WritesWithin(i, s);
    case Flagged(i, _) => WritesWithin(i, s);
    case Group(ms, c) => WritesOfWithin(ms, s);
  }

  lemma {:induction false} WritesOfWithin(ms: seq<Motor>, s: real)
    ensures forall k :: 0 <= k < |WritesOf(ms, s)| ==> WritesOf(ms, s)[k].0 in CellsOf(ms)
    ensures forall k :: 0 <= k < |StopWritesOf(ms)| ==> StopWritesOf(ms)[k].0 in CellsOf(ms)
    decreases ms, 0
  {
    if ms != [] {
      WritesOfWithin(ms[..|ms| - 1], s);
      WritesWithin(ms[|ms| - 1], s);
    }
  }

  /** `stop` writes only 0, and it writes every cell the motor owns. */
  lemma {:induction false} StopWritesZeroAndCover(m: Motor, c: GlobalMotorState)
    ensures forall k :: 0 <= k < |StopWrites(m)| ==> StopWrites(m)[k].1 == 0.0
    ensures c in Cells(m) ==> exists k :: 0 <= k < |StopWrites(m)| && StopWrites(m)[k].0 == c
    decreases m, 1
  {
    match m
    case Hardware(_) =>
      assert StopWrites(m)[0].0 == m.state;
case Inverted(i) =>
      StopWritesZeroAndCover(i, c);
      assert StopWrites(m) == StopWrites(i);
case DualLimit(i, _, _) =>
      StopWritesZeroAndCover(i, c);
      assert StopWrites(m) == StopWrites(i);
    case Flagged(i, _) =>
      StopWritesZeroAndCover(i, c);
      assert StopWrites(m) == StopWrites(i);
    case Group(ms, g) =>
      StopWritesOfZeroAndCover(ms, c);
      var t := StopWrites(m);
      assert t[|t| - 1].0 == g;
      if c in CellsOf(ms) {
        var k :| 0 <= k < |StopWritesOf(ms)| && StopWritesOf(ms)[k].0 == c;
        assert t[k] == StopWritesOf(ms)[k];
      }
  }

  lemma {:induction false} StopWritesOfZeroAndCover(ms: seq<Motor>, c: GlobalMotorState)
    ensures forall k :: 0 <= k < |StopWritesOf(ms)| ==> StopWritesOf(ms)[k].1 == 0.0
    ensures c in CellsOf(ms) ==> exists k :: 0 <= k < |StopWritesOf(ms)| && StopWritesOf(ms)[k].0 == c
    decreases ms, 0
  {
    if ms != [] {
      var front, last := ms[..|ms| - 1], ms[|ms| - 1];
      StopWritesOfZeroAndCover(front, c);
      StopWritesZeroAndCover(last, c);
      var a, b := StopWritesOf(front), StopWrites(last);
      assert StopWritesOf(ms) == a + b;
      if c in CellsOf(front) {
        var k :| 0 <= k < |a| && a[k].0 == c;
        assert (a + b)[k] == a[k];
      } else if c in Cells(last) {
        var k :| 0 <= k < |b| && b[k].0 == c;
        assert (a + b)[|a| + k] == b[k];
      }
    }
  }

  // ---------------------------------------------------------------------------
  // What the model promises about motors

  /** After `stop`, every state cell of the motor reads 0, whatever it held. */
  lemma StopZeroesEveryCell(m: Motor, c: GlobalMotorState, init: real)
    requires c in Cells(m)
    ensures Final(StopWrites(m), c, init) == 0.0
  {
    StopWritesZeroAndCover(m, c);
    var k :| 0 <= k < |StopWrites(m)| && StopWrites(m)[k].0 == c;
    FinalZero(StopWrites(m), c, init, k);
  }

  /** A group's own cell reads back exactly the speed the group was set to. */
  lemma GroupStateReadsBack(ms: seq<Motor>, g: GlobalMotorState, s: real, init: real)
    ensures Final(Writes(Group(ms, g), s), StateOf(Group(ms, g)), init) == s
  {
    FinalAppend(WritesOf(ms, s), [(g, s)], g, init);
  }

  /** A group's `stop` leaves its own cell at 0. */
  lemma GroupStateReadsZeroAfterStop(ms: seq<Motor>, g: GlobalMotorState, init: real)
    ensures Final(StopWrites(Group(ms, g)), StateOf(Group(ms, g)), init) == 0.0
  {
    FinalAppend(StopWritesOf(ms), [(g, 0.0)], g, init);
  }

  /** Every member of a group receives the group's speed, in member order. */
  lemma GroupForwardsToMembers(ms: seq<Motor>, g: GlobalMotorState, s: real)
    ensures Writes(Group(ms, g), s) == WritesOf(ms, s) + [(g, s)]
    ensures |ms| == 1 ==> WritesOf(ms, s) == Writes(ms[0], s)
  {
  }

  /** An inverted motor forwards the negated speed; one inverted twice forwards the original. */
  lemma InversionForwardsNegation(m: Motor, s: real)
    ensures Writes(Inverted(m), s) == Writes(m, -s)
    ensures Writes(Inverted(Inverted(m)), s) == Writes(m, s)
    ensures StopWrites(Inverted(m)) == StopWrites(m)
    ensures StateOf(Inverted(m)) == StateOf(m)
  {
  }

  /** An inverted hardware motor reads back the negated speed, and 0 after stop. */
  lemma InvertedHardwareReadsBack(c: GlobalMotorState, s: real, init: real)
    ensures Final(Writes(Inverted(Hardware(c)), s), StateOf(Inverted(Hardware(c))), init) == -s
    ensures Final(StopWrites(Inverted(Hardware(c))), StateOf(Inverted(Hardware(c))), init) == 0.0
  {
  }

  /** The dual-limit decorator forwards exactly the speeds that point away from a tripped limit. */
  lemma DualLimitPassesFreeDirection(m: Motor, u: Flag, l: Flag, s: real)
    requires (s > 0.0 && !u.value) || (s < 0.0 && !l.value)
    ensures Writes(DualLimit(m, u, l), s) == Writes(m, s)
  {
  }

  /**
   * Zero, a positive speed with the upper limit tripped and a negative speed
   * with the lower limit tripped all stop the wrapped motor instead: its
   * state cell reads 0.
   */
  lemma DualLimitBlocksTrippedDirection(m: Motor, u: Flag, l: Flag, s: real, init: real)
    requires !((s > 0.0 && !u.value) || (s < 0.0 && !l.value))
    ensures Writes(DualLimit(m, u, l), s) == StopWrites(m)
    ensures Final(Writes(DualLimit(m, u, l), s), StateOf(DualLimit(m, u, l)), init) == 0.0
  {
    StopZeroesEveryCell(m, StateOf(m), init);
  }

  /** The flag decorator forwards the speed while its flag is clear. */
  lemma FlagPassesWhileClear(m: Motor, d: Flag, s: real)
    requires !d.value
    ensures Writes(Flagged(m, d), s) == Writes(m, s)
  {
  }

  /** While the flag is set, `set_speed` stops the wrapped motor: it reads 0. */
  lemma FlagBlocksWhileSet(m: Motor, d: Flag, s: real, init: real)
    requires d.value
    ensures Writes(Flagged(m, d), s) == StopWrites(m)
    ensures Final(Writes(Flagged(m, d), s), StateOf(Flagged(m, d)), init) == 0.0
  {
    StopZeroesEveryCell(m, StateOf(m), init);
  }

  // ---------------------------------------------------------------------------
  // The operations

  /** `set_speed(s)`: every cell the motor owns ends with its last write. */
  method SetSpeed(m: Motor, s: real)
    modifies Cells(m)
    ensures forall c :: c in Cells(m) && old(allocated(c)) ==> c.speed == Final(old(Writes(m, s)), c, old(c.speed))
    decreases m, 1
  {
    match m
    case Hardware(c) =>
      c.speed := s;
    case Inverted(i) =>
      SetSpeed(i, -s);
    case DualLimit(i, u, l) =>
      if (s > 0.0 && !u.value) || (s < 0.0 && !l.value) {
        SetSpeed(i, s);
      } else {
        Stop(m);
      }
    case Flagged(i, d) =>
      if d.value {
        Stop(i);
      } else {
        SetSpeed(i, s);
      }
    case Group(ms, g) =>
      Allocated(m);
      var k := 0;
      while k < |ms|
        invariant 0 <= k <= |ms|
        invariant forall c :: c in Cells(m) && old(allocated(c)) ==> c.speed == Final(old(WritesOf(ms[..k], s)), c, old(c.speed))
        invariant unchanged(Flags(m))
      {
        CellsOfMember(ms, k);
        WritesWithin(ms[k], s);
        ghost var before := old(WritesOf(ms[..k], s));
        assert ms[..k + 1][..k] == ms[..k];
        assert old(WritesOf(ms[..k + 1], s)) == before + old(Writes(ms[k], s));
        assert Writes(ms[k], s) == old(Writes(ms[k], s));
        SetSpeed(ms[k], s);
        forall c | c in Cells(m) && old(allocated(c))
          ensures c.speed == Final(old(WritesOf(ms[..k + 1], s)), c, old(c.speed))
        {
          FinalAppend(before, old(Writes(ms[k], s)), c, old(c.speed));
          if c !in Cells(ms[k]) {
            FinalUntouched(old(Writes(ms[k], s)), c, Final(before, c, old(c.speed)));
          }
        }
        k := k + 1;
      }
      assert ms[..k] == ms;
      g.speed := s;
      forall c | c in Cells(m) && old(allocated(c))
        ensures c.speed == Final(old(Writes(m, s)), c, old(c.speed))
      {
        FinalAppend(old(WritesOf(ms, s)), [(g, s)], c, old(c.speed));
      }
  }

  /** `stop()`: every cell the motor owns ends with its last write, which is 0. */
  method Stop(m: Motor)
    modifies Cells(m)
    ensures forall c :: c in Cells(m) && old(allocated(c)) ==> c.speed == Final(StopWrites(m), c, old(c.speed))
    decreases m, 0
  {
    match m
    case Hardware(c) =>
      c.speed := 0.0;
    case Inverted(i) =>
      Stop(i);
    case DualLimit(i, _, _) =>
      Stop(i);
    case Flagged(i, _) =>
      Stop(i);
    case Group(ms, g) =>
      var k := 0;
      while k < |ms|
        invariant 0 <= k <= |ms|
        invariant forall c :: c in Cells(m) && old(allocated(c)) ==> c.speed == Final(StopWritesOf(ms[..k]), c, old(c.speed))
      {
        CellsOfMember(ms, k);
        WritesWithin(ms[k], 0.0);
        ghost var before := StopWritesOf(ms[..k]);
        assert ms[..k + 1][..k] == ms[..k];
        Stop(ms[k]);
        forall c | c in Cells(m) && old(allocated(c))
          ensures c.speed == Final(StopWritesOf(ms[..k + 1]), c, old(c.speed))
        {
          FinalAppend(before, StopWrites(ms[k]), c, old(c.speed));
          if c !in Cells(ms[k]) {
            FinalUntouched(StopWrites(ms[k]), c, Final(before, c, old(c.speed)));
          }
        }
        k := k + 1;
      }
      assert ms[..k] == ms;
      g.speed := 0.0;
      forall c | c in Cells(m) && old(allocated(c))
        ensures c.speed == Final(StopWrites(m), c, old(c.speed))
      {
        FinalAppend(StopWritesOf(ms), [(g, 0.0)], c, old(c.speed));
      }
  }

  /** After `stop`, every cell of the motor reads 0. */
  method StopAndSettle(m: Motor)
    modifies Cells(m)
    ensures forall c :: c in Cells(m) && old(allocated(c)) ==> c.speed == 0.0
  {
    Allocated(m);
    Stop(m);
    forall c | c in Cells(m) ensures c.speed == 0.0 {
      StopZeroesEveryCell(m, c, old(c.speed));
    }
  }
}

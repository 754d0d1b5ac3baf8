/**
 The "no signal" box: a timer moves it diagonally across the screen, 30 pixels sideways and
 20 up or down a tick, and each direction reverses when the box reaches the edge.
 */
module NoSignalBox {
  import opened Common

  /** One coordinate. `back` is whether it is moving towards 0. */
  datatype Axis = Axis(pos: int, back: bool)

  /** One tick: move by `step`, stop at the edge, and turn round there. */
  function Tick(a: Axis, limit: int, step: int): Axis {
    if a.back then
      var pos := Max(0, a.pos - step);
      Axis(pos, pos != 0)
    else
      var pos := Min(limit, a.pos + step);
      Axis(pos, pos == limit)
  }

  function Ticks(a: Axis, limit: int, step: int, n: nat): Axis {
    if n == 0 then a else Tick(Ticks(a, limit, step, n - 1), limit, step)
  }

  predicate Inside(a: Axis, limit: int) {
    0 <= a.pos <= limit
  }

  /** Rounded-up division. */
  function Ceil(a: nat, step: nat): (c: nat)
    requires step > 0
  {
    (a + step - 1) / step
  }

  lemma CeilBounds(a: nat, step: nat)
    requires step > 0
    ensures a <= Ceil(a, step) * step < a + step
  {
  }

  lemma {:induction false} MulGap(c: nat, d: nat, step: nat)
    ensures c < d ==> c * step + step <= d * step
  {
    if c < d {
      assert d * step == (d - 1) * step + step;
      MulGap(c, d - 1, step);
    }
  }

  lemma CeilMonotone(a: nat, b: nat, step: nat)
    requires a <= b && step > 0
    ensures Ceil(a, step) <= Ceil(b, step)
  {
    CeilBounds(a, step);
    CeilBounds(b, step);
    MulGap(Ceil(b, step), Ceil(a, step), step);
  }

  lemma CeilStep(a: nat, step: nat)
    requires 0 < step < a
    ensures Ceil(a, step) == Ceil(a - step, step) + 1
  {
    var c := Ceil(a - step, step) + 1;
    CeilBounds(a, step);
    CeilBounds(a - step, step);
    assert c * step == Ceil(a - step, step) * step + step;
    MulGap(c, Ceil(a, step), step);
    MulGap(Ceil(a, step), c, step);
  }

  lemma CeilOne(a: nat, step: nat)
    requires a <= step && step > 0
    ensures Max(1, Ceil(a, step)) == 1
  {
    CeilBounds(a, step);
    MulGap(1, Ceil(a, step), step);
  }

  // ---------------------------------------------------------------- one axis

  lemma {:induction false} StaysInside(a: Axis, limit: int, step: int, n: nat)
    requires Inside(a, limit) && step > 0
    ensures Inside(Ticks(a, limit, step, n), limit)
  {
    if n > 0 {
      StaysInside(a, limit, step, n - 1);
    }
  }

  /** The direction changes in a tick exactly when that tick ends at the edge it was heading for. */
  lemma TurnsExactlyAtEdge(a: Axis, limit: int, step: int)
    requires Inside(a, limit) && step > 0
    ensures var t := Tick(a, limit, step);
            && (t.back != a.back <==> t.pos == if a.back then 0 else limit)
            && (t.back != a.back <==> if a.back then a.pos <= step else limit - a.pos <= step)
  {
  }

  /** The room ahead, in the direction of travel. */
  function Distance(a: Axis, limit: int): int {
    if a.back then a.pos else limit - a.pos
  }

  /** How many ticks until the next turn. */
  function ToTurn(a: Axis, limit: int, step: nat): nat
    requires Inside(a, limit) && step > 0
  {
    Max(1, Ceil(Distance(a, limit), step))
  }

  lemma {:induction false} TicksAdd(a: Axis, limit: int, step: int, m: nat, n: nat)
    ensures Ticks(Ticks(a, limit, step, m), limit, step, n) == Ticks(a, limit, step, m + n)
  {
    if n > 0 {
      TicksAdd(a, limit, step, m, n - 1);
    }
  }

  lemma TickFirst(a: Axis, limit: int, step: int, n: nat)
    requires n > 0
    ensures Ticks(a, limit, step, n) == Ticks(Tick(a, limit, step), limit, step, n - 1)
  {
    assert Ticks(a, limit, step, 1) == Tick(Ticks(a, limit, step, 0), limit, step);
    TicksAdd(a, limit, step, 1, n - 1);
  }

  /** Until the turn the coordinate moves a full step every tick. */
  lemma {:induction false} StraightRun(a: Axis, limit: int, step: nat, n: nat)
    requires Inside(a, limit) && step > 0 && n < ToTurn(a, limit, step)
    ensures Ticks(a, limit, step, n) == Axis(if a.back then a.pos - n * step else a.pos + n * step, a.back)
    decreases n
  {
    if n > 0 {
      var d := Distance(a, limit);
      if d <= step {
        CeilOne(d, step);
      } else {
        CeilStep(d, step);
        TickFirst(a, limit, step, n);
        StraightRun(Tick(a, limit, step), limit, step, n - 1);
        assert n * step == (n - 1) * step + step;
      }
    }
  }

  /** The turn is on time, at the edge. */
  lemma {:induction false} TurnOnTime(a: Axis, limit: int, step: nat)
    requires Inside(a, limit) && step > 0
    ensures Ticks(a, limit, step, ToTurn(a, limit, step)) == Axis(if a.back then 0 else limit, !a.back)
    decreases Distance(a, limit)
  {
    var d, next := Distance(a, limit), Tick(a, limit, step);
    TickFirst(a, limit, step, ToTurn(a, limit, step));
    if d <= step {
      CeilOne(d, step);
    } else {
      CeilStep(d, step);
      CeilBounds(d - step, step);
      TurnOnTime(next, limit, step);
    }
  }

  /** From any place inside, the box is at the edge it is heading for within ceil(limit / step) ticks (one tick
      when there is no room at all), and turns neither before nor after. */
  lemma EdgeInTime(a: Axis, limit: int, step: nat)
    requires Inside(a, limit) && step > 0
    ensures 0 < ToTurn(a, limit, step) <= Max(1, Ceil(limit, step))
    ensures Ticks(a, limit, step, ToTurn(a, limit, step)) == Axis(if a.back then 0 else limit, !a.back)
    ensures forall n: nat | n < ToTurn(a, limit, step) :: Ticks(a, limit, step, n).back == a.back
  {
    CeilMonotone(Distance(a, limit), limit, step);
    TurnOnTime(a, limit, step);
    forall n: nat | n < ToTurn(a, limit, step)
      ensures Ticks(a, limit, step, n).back == a.back
    {
      StraightRun(a, limit, step, n);
    }
  }

  function Period(limit: nat, step: nat): nat
    requires step > 0
  {
    2 * Max(1, Ceil(limit, step))
  }

  /** Once at 0, the coordinate is there again, heading away again, after exactly that many ticks and no fewer. */
  lemma PeriodExact(limit: nat, step: nat)
    requires step > 0
    ensures Ticks(Axis(0, false), limit, step, Period(limit, step)) == Axis(0, false)
    ensures forall n: nat | 0 < n < Period(limit, step) :: Ticks(Axis(0, false), limit, step, n) != Axis(0, false)
  {
    var start, turn := Axis(0, false), Axis(limit, true);
    var half := Max(1, Ceil(limit, step));
    EdgeInTime(start, limit, step);
    EdgeInTime(turn, limit, step);
    TicksAdd(start, limit, step, half, half);
    forall n: nat | 0 < n < Period(limit, step)
      ensures Ticks(start, limit, step, n) != start
    {
      if n < half {
        StraightRun(start, limit, step, n);
        MulGap(0, n, step);
      } else {
        TicksAdd(start, limit, step, half, n - half);
        StraightRun(turn, limit, step, n - half);
      }
    }
  }

  /** So the motion repeats for ever after. */
  lemma Periodic(limit: nat, step: nat, n: nat)
    requires step > 0
    ensures Ticks(Axis(0, false), limit, step, n + Period(limit, step)) == Ticks(Axis(0, false), limit, step, n)
  {
    PeriodExact(limit, step);
    TicksAdd(Axis(0, false), limit, step, Period(limit, step), n);
  }

  // ---------------------------------------------------------------- the box

  const STEP_X: nat := 30
  const STEP_Y: nat := 20

  /** The room the box has on a screen of a given size. */
  function RoomX(horRes: nat): int {
    horRes / 5 * 4
  }

  function RoomY(verRes: nat): int {
    verRes / 6 * 5 - 100
  }

  /** The room keeps the box on the screen: a fifth of the width is left to its right, and below it a sixth of the
      height and 100 pixels more. The motion has room upwards and downwards on every screen of 120 lines or more,
      and on none of fewer. */
  lemma RoomOnScreen(horRes: nat, verRes: nat)
    ensures 0 <= RoomX(horRes) && 5 * RoomX(horRes) <= 4 * horRes && RoomX(horRes) <= horRes - horRes / 5
    ensures 6 * (RoomY(verRes) + 100) <= 5 * verRes && RoomY(verRes) <= verRes - verRes / 6 - 100
    ensures 0 <= RoomY(verRes) <==> verRes >= 120
    ensures 4 * horRes < 5 * RoomX(horRes) + 20 && 5 * verRes < 6 * (RoomY(verRes) + 100) + 30
  {
  }

  class Box {
    const horRes: nat
    const verRes: nat
    var x: int
    var y: int
    var leftDir: bool
    var upDir: bool
    var hidden: bool

    ghost predicate Valid()
      reads this
    {
      0 <= x <= RoomX(horRes) && 0 <= y <= RoomY(verRes)
    }

    /** The box starts heading up and left from wherever the page puts it. */
    constructor (hor: nat, ver: nat, x0: int, y0: int)
      requires 0 <= x0 <= RoomX(hor) && 0 <= y0 <= RoomY(ver)
      ensures Valid() && horRes == hor && verRes == ver && x == x0 && y == y0 && leftDir && upDir
    {
      horRes, verRes, x, y, leftDir, upDir, hidden := hor, ver, x0, y0, true, true, false;
    }

    /** With a signal the box is hidden and does not move. */
    method Timer(signalIn: bool)
      requires Valid()
      modifies this
      ensures Valid() && hidden == signalIn
      ensures Axis(x, leftDir) ==
              if signalIn then old(Axis(x, leftDir)) else Tick(old(Axis(x, leftDir)), RoomX(horRes), STEP_X)
      ensures Axis(y, upDir) ==
              if signalIn then old(Axis(y, upDir)) else Tick(old(Axis(y, upDir)), RoomY(verRes), STEP_Y)
    {
      if signalIn {
        hidden := true;
        return;
      }
      hidden := false;
      var h, v := x, y;
      if upDir {
        v := Max(0, v - 20);
        if v == 0 {
          upDir := false;
        }
      } else {
        v := Min(verRes / 6 * 5 - 100, v + 20);
        if v == verRes / 6 * 5 - 100 {
          upDir := true;
        }
      }
      if leftDir {
        h := Max(0, h - 30);
        if h == 0 {
          leftDir := false;
        }
      } else {
        h := Min(horRes / 5 * 4, h + 30);
        if h == horRes / 5 * 4 {
          leftDir := true;
        }
      }
      x, y := h, v;
    }
  }

  /** Both coordinates over a run of timer events, `true` for one with a signal. */
  function RunAxis(a: Axis, limit: int, step: int, signals: seq<bool>): Axis
    decreases |signals|
  {
    if signals == [] then a
    else RunAxis(if signals[0] then a else Tick(a, limit, step), limit, step, signals[1..])
  }

  function Quiet(signals: seq<bool>): nat {
    if signals == [] then 0 else (if signals[0] then 0 else 1) + Quiet(signals[1..])
  }

  /** Signals only pause the motion: where the box is depends on the number of ticks without one. */
  lemma {:induction false} SignalsOnlyPause(a: Axis, limit: int, step: int, signals: seq<bool>)
    ensures RunAxis(a, limit, step, signals) == Ticks(a, limit, step, Quiet(signals))
    decreases |signals|
  {
    if signals != [] {
      var next := if signals[0] then a else Tick(a, limit, step);
      SignalsOnlyPause(next, limit, step, signals[1..]);
      if !signals[0] {
        assert Ticks(a, limit, step, 1) == Tick(Ticks(a, limit, step, 0), limit, step);
        TicksAdd(a, limit, step, 1, Quiet(signals[1..]));
      }
    }
  }
}

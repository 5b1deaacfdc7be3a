/** UsageTrackingDriverDecorator: a driver that forwards every call unchanged
    to the driver it wraps and keeps two running totals, the distance
    travelled by all moves and the distance drawn by the drawing moves, each
    measured from the last position it was sent to.

    `Math.hypot` is not modelled numerically: the decorator is given a
    function `hypot` of the two displacements of which it only knows that it
    is never negative and that it is zero for no displacement. */
module Usage {
  import opened Drivers

  const TwoTo32: int := 0x1_0000_0000

  /** What is known of `Math.hypot`. */
  ghost predicate HypotOk(hypot: (int, int) -> real) {
    (forall dx: int, dy: int :: hypot(dx, dy) >= 0.0) && hypot(0, 0) == 0.0
  }

  /** A value brought into Java's `int` range as `int` arithmetic does, modulo 2^32. */
  function Wrap32(v: int): (w: Int32)
    ensures (w - v) % TwoTo32 == 0
  {
    var m := v % TwoTo32;
    if m > MaxInt32 then m - TwoTo32 else m
  }

  /** The displacement along one axis as `registerMovement` computes it:
      `x - lastX` is a subtraction of two Java `int`s, so it wraps. */
  function WrappedDisplacement(from: Int32, to: Int32): (d: Int32)
    ensures (from + d - to) % TwoTo32 == 0
  {
    Wrap32(to - from)
  }

  /** Moving from `MinInt32` to `MaxInt32` wraps to a displacement of -1,
      which does not lead from the start to the target. */
  lemma WrappedDisplacementOverflows()
    ensures WrappedDisplacement(MinInt32, MaxInt32) == -1
    ensures MinInt32 + WrappedDisplacement(MinInt32, MaxInt32) != MaxInt32
  {
  }

  /** While the true displacement fits in an `int`, the wrapped one is exact. */
  lemma WrappedDisplacementInRange(from: Int32, to: Int32)
    requires MinInt32 <= to - from <= MaxInt32
    ensures WrappedDisplacement(from, to) == Displacement(from, to)
  {
  }

  /** The displacement along one axis, without wrapping: it leads from the
      start to the target. */
  function Displacement(from: Int32, to: Int32): (d: int)
    ensures from + d == to
  {
    to - from
  }

  /** The length of the segment from (x0, y0) to (x1, y1). */
  function Segment(hypot: (int, int) -> real, x0: Int32, y0: Int32, x1: Int32, y1: Int32): (s: real)
    requires HypotOk(hypot)
    ensures s >= 0.0
    ensures x0 == x1 && y0 == y1 ==> s == 0.0
  {
    hypot(Displacement(x0, x1), Displacement(y0, y1))
  }

  /** The decorator's tracking state: the last position and the two totals. */
  datatype Usage = Usage(lastX: Int32, lastY: Int32, travel: real, drawing: real)

  /** The state of a new decorator, and of one just reset. */
  function Fresh(): Usage {
    Usage(0, 0, 0.0, 0.0)
  }

  /** Both totals are non-negative and nothing is drawn without travelling. */
  ghost predicate Sound(u: Usage) {
    0.0 <= u.drawing <= u.travel
  }

  /** The state after one move to (x, y): `registerMovement`, then `updatePosition`. */
  function Moved(u: Usage, hypot: (int, int) -> real, x: Int32, y: Int32, drawing: bool): Usage
    requires HypotOk(hypot)
  {
    var s := Segment(hypot, u.lastX, u.lastY, x, y);
    Usage(x, y, u.travel + s, if drawing then u.drawing + s else u.drawing)
  }

  /** The state after the decorator receives each of `calls`, in order. */
  function Tracked(u: Usage, hypot: (int, int) -> real, calls: seq<Call>): Usage
    requires HypotOk(hypot)
    decreases |calls|
  {
    if calls == [] then u
    else Tracked(Moved(u, hypot, calls[0].x, calls[0].y, calls[0].Draws()), hypot, calls[1..])
  }

  /** One move ends at its target, adds its segment to the travel total, adds
      it to the drawing total only when it draws, and keeps the totals sound. */
  lemma MovedSpec(u: Usage, hypot: (int, int) -> real, x: Int32, y: Int32, drawing: bool)
    requires HypotOk(hypot)
    ensures var v := Moved(u, hypot, x, y, drawing);
      && v.lastX == x && v.lastY == y
      && v.travel == u.travel + Segment(hypot, u.lastX, u.lastY, x, y)
      && v.drawing == u.drawing + (if drawing then Segment(hypot, u.lastX, u.lastY, x, y) else 0.0)
      && v.travel >= u.travel && v.drawing >= u.drawing
      && (Sound(u) ==> Sound(v))
  {
  }

  /** A move to the current position adds nothing to either total. */
  lemma StayingPutAddsNothing(u: Usage, hypot: (int, int) -> real, drawing: bool)
    requires HypotOk(hypot)
    ensures Moved(u, hypot, u.lastX, u.lastY, drawing).travel == u.travel
    ensures Moved(u, hypot, u.lastX, u.lastY, drawing).drawing == u.drawing
  {
  }

  /** Receiving `a + b` is receiving `a`, then `b`. */
  lemma {:induction false} TrackedAppend(u: Usage, hypot: (int, int) -> real, a: seq<Call>, b: seq<Call>)
    requires HypotOk(hypot)
    ensures Tracked(u, hypot, a + b) == Tracked(Tracked(u, hypot, a), hypot, b)
    decreases |a|
  {
    if a == [] {
      assert a + b == b;
    } else {
      assert (a + b)[0] == a[0] && (a + b)[1..] == a[1..] + b;
      TrackedAppend(Moved(u, hypot, a[0].x, a[0].y, a[0].Draws()), hypot, a[1..], b);
    }
  }

  /** Between resets both totals only grow, and they stay sound. */
  lemma {:induction false} TrackedMonotone(u: Usage, hypot: (int, int) -> real, calls: seq<Call>)
    requires HypotOk(hypot)
    ensures Tracked(u, hypot, calls).travel >= u.travel
    ensures Tracked(u, hypot, calls).drawing >= u.drawing
    ensures Sound(u) ==> Sound(Tracked(u, hypot, calls))
    decreases |calls|
  {
    if calls != [] {
      var c := calls[0];
      MovedSpec(u, hypot, c.x, c.y, c.Draws());
      TrackedMonotone(Moved(u, hypot, c.x, c.y, c.Draws()), hypot, calls[1..]);
    }
  }

  /** After any calls, the tracked position is the target of the last one. */
  lemma {:induction false} TrackedEndsAtLastTarget(u: Usage, hypot: (int, int) -> real, calls: seq<Call>)
    requires HypotOk(hypot) && calls != []
    ensures Tracked(u, hypot, calls).lastX == calls[|calls| - 1].x
    ensures Tracked(u, hypot, calls).lastY == calls[|calls| - 1].y
    decreases |calls|
  {
    if |calls| > 1 {
      TrackedEndsAtLastTarget(Moved(u, hypot, calls[0].x, calls[0].y, calls[0].Draws()), hypot, calls[1..]);
    }
  }

  /** Moves that do not draw leave the drawing total as it was. */
  lemma {:induction false} TrackedMovesDrawNothing(u: Usage, hypot: (int, int) -> real, calls: seq<Call>)
    requires HypotOk(hypot)
    requires forall i :: 0 <= i < |calls| ==> calls[i].SetPositionCall?
    ensures Tracked(u, hypot, calls).drawing == u.drawing
    decreases |calls|
  {
    if calls != [] {
      TrackedMovesDrawNothing(Moved(u, hypot, calls[0].x, calls[0].y, calls[0].Draws()), hypot, calls[1..]);
    }
  }

  /** From the origin, drawing to (3, 4) and then moving to (3, 4) travels
      and draws one segment of length hypot(3, 4) and no more; after a reset
      the next segment is measured from the origin again. */
  lemma DrawThenStay(hypot: (int, int) -> real)
    requires HypotOk(hypot) && hypot(3, 4) == 5.0
    ensures Tracked(Fresh(), hypot, [OperateToCall(3, 4), SetPositionCall(3, 4)]) == Usage(3, 4, 5.0, 5.0)
    ensures Moved(Fresh(), hypot, 3, 4, false) == Usage(3, 4, 5.0, 0.0)
  {
    var u1 := Moved(Fresh(), hypot, 3, 4, true);
    assert u1 == Usage(3, 4, 5.0, 5.0);
    StayingPutAddsNothing(u1, hypot, false);
    assert [OperateToCall(3, 4), SetPositionCall(3, 4)][1..] == [SetPositionCall(3, 4)];
  }

  class UsageTrackingDriverDecorator {
    const delegate: Recorder
    const name: string  // the decorator's label
    const hypot: (int, int) -> real

    var lastX: Int32
    var lastY: Int32
    var travelDistance: real
    var drawingDistance: real

    ghost function State(): Usage
      reads this
    {
      Usage(lastX, lastY, travelDistance, drawingDistance)
    }

    ghost predicate Valid()
      reads this
    {
      HypotOk(hypot) && Sound(State())
    }

    constructor (delegate: Recorder, name: string, hypot: (int, int) -> real)
      requires HypotOk(hypot)
      ensures Valid() && State() == Fresh()
      ensures this.delegate == delegate && this.name == name && this.hypot == hypot
    {
      this.delegate := delegate;
      this.name := name;
      this.hypot := hypot;
      lastX, lastY := 0, 0;
      travelDistance, drawingDistance := 0.0, 0.0;
    }

    /** `setPosition`: a move that does not draw, forwarded as it is. */
    method SetPosition(x: Int32, y: Int32)
      requires Valid()
      modifies this, delegate
      ensures Valid()
      ensures State() == Moved(old(State()), hypot, x, y, false)
      ensures delegate.trace == old(delegate.trace) + [SetPositionCall(x, y)]
    {
      MovedSpec(State(), hypot, x, y, false);
      RegisterMovement(x, y, false);
      delegate.SetPosition(x, y);
      UpdatePosition(x, y);
    }

    /** `operateTo`: a move that draws, forwarded as it is. */
    method OperateTo(x: Int32, y: Int32)
      requires Valid()
      modifies this, delegate
      ensures Valid()
      ensures State() == Moved(old(State()), hypot, x, y, true)
      ensures delegate.trace == old(delegate.trace) + [OperateToCall(x, y)]
    {
      MovedSpec(State(), hypot, x, y, true);
      RegisterMovement(x, y, true);
      delegate.OperateTo(x, y);
      UpdatePosition(x, y);
    }

    /** Adds the segment from the last position to (x, y) to the travel
        total, and to the drawing total when the move draws. */
    method RegisterMovement(x: Int32, y: Int32, drawing: bool)
      requires HypotOk(hypot)
      modifies this`travelDistance, this`drawingDistance
      ensures travelDistance == old(travelDistance) + Segment(hypot, lastX, lastY, x, y)
      ensures drawingDistance == old(drawingDistance) + if drawing then Segment(hypot, lastX, lastY, x, y) else 0.0
    {
      var segment := hypot(Displacement(lastX, x), Displacement(lastY, y));
      travelDistance := travelDistance + segment;
      if drawing {
        drawingDistance := drawingDistance + segment;
      }
    }

    method UpdatePosition(x: Int32, y: Int32)
      modifies this`lastX, this`lastY
      ensures lastX == x && lastY == y
    {
      lastX, lastY := x, y;
    }

    method GetTravelDistance() returns (d: real)
      requires Valid()
      ensures d == travelDistance
      ensures 0.0 <= drawingDistance <= d
    {
      d := travelDistance;
    }

    method GetDrawingDistance() returns (d: real)
      requires Valid()
      ensures d == drawingDistance
      ensures 0.0 <= d <= travelDistance
    {
      d := drawingDistance;
    }

    method GetLabel() returns (s: string)
      ensures s == name
    {
      s := name;
    }

    /** `reset`: both totals and the position back to zero; the next segment
        is measured from the origin. The label and the delegate are constant. */
    method Reset()
      requires Valid()
      modifies this
      ensures Valid() && State() == Fresh()
    {
      travelDistance, drawingDistance := 0.0, 0.0;
      lastX, lastY := 0, 0;
    }
  }
}

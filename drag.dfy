/** The drag-rotation state machine of src/main.ts:46-68: a press arms it
    and records the pointer's x coordinate as the anchor, a release disarms
    it, and a move while armed, once an asset is loaded, turns the asset
    about its y axis in proportion to the horizontal distance from the
    anchor and then moves the anchor to the pointer. */
module Drag {

  /** Radians of rotation per pixel of horizontal pointer motion. */
  const Sensitivity: real := 0.01

  /** The three pointer events, each reduced to its `clientX`. */
  datatype Event = Press(x: int) | Release | Move(x: int)

  /** What the handlers read and write: `isDragging`,
      `previousMousePosition.x`, whether `model` is set, and
      `model.rotation.y`. */
  datatype DragState = DragState(dragging: bool, anchorX: int, hasModel: bool, rotationY: real)

  /** The quantity that every event except a press leaves unchanged. */
  function Offset(s: DragState): (o: real) {
    s.rotationY - Sensitivity * s.anchorX as real
  }

  /** One handler run. */
  function Step(s: DragState, e: Event): (r: DragState)
    ensures r.hasModel == s.hasModel
    ensures e.Press? ==> r.dragging && r.anchorX == e.x && r.rotationY == s.rotationY
    ensures e.Release? ==> !r.dragging && r.anchorX == s.anchorX && r.rotationY == s.rotationY
    ensures e.Move? && !(s.dragging && s.hasModel) ==> r == s
    ensures e.Move? && s.dragging && s.hasModel ==>
              r.dragging && r.anchorX == e.x &&
              r.rotationY - s.rotationY == Sensitivity * (e.x - s.anchorX) as real
    ensures !e.Press? ==> Offset(r) == Offset(s)
  {
    match e
    case Press(x) => s.(dragging := true, anchorX := x)
    case Release => s.(dragging := false)
    case Move(x) =>
      if !s.dragging || !s.hasModel then s
      else
        var deltaX := x - s.anchorX;
        s.(rotationY := s.rotationY + deltaX as real * Sensitivity, anchorX := x)
  }

  /** The handlers run one after another, in arrival order. No pointer
      event loads or unloads the asset. */
  function Run(s: DragState, events: seq<Event>): (r: DragState)
    ensures r.hasModel == s.hasModel
    decreases |events|
  {
    if events == [] then s else Run(Step(s, events[0]), events[1..])
  }

  /** The move events for a sequence of pointer positions. */
  function Moves(xs: seq<int>): (evs: seq<Event>)
    ensures |evs| == |xs|
    ensures forall i :: 0 <= i < |xs| ==> evs[i] == Move(xs[i])
  {
    if xs == [] then [] else [Move(xs[0])] + Moves(xs[1..])
  }

  /** The horizontal deltas between successive pointer positions, starting
      from `from`. */
  function Deltas(from: int, xs: seq<int>): (ds: seq<int>)
    ensures |ds| == |xs|
    decreases xs
  {
    if xs == [] then [] else [xs[0] - from] + Deltas(xs[0], xs[1..])
  }

  function Sum(ds: seq<int>): (total: int) {
    if ds == [] then 0 else ds[0] + Sum(ds[1..])
  }

  /** Running a concatenation is running its parts one after the other. */
  lemma {:induction false} RunAppend(s: DragState, a: seq<Event>, b: seq<Event>)
    ensures Run(s, a + b) == Run(Run(s, a), b)
    decreases a
  {
    if a == [] {
      assert a + b == b;
    } else {
      assert (a + b)[0] == a[0];
      assert (a + b)[1..] == a[1..] + b;
      RunAppend(Step(s, a[0]), a[1..], b);
    }
  }

  /** With no press among them, events keep the offset and never load or
      unload the asset. */
  lemma {:induction false} OffsetKept(s: DragState, events: seq<Event>)
    requires forall i :: 0 <= i < |events| ==> !events[i].Press?
    ensures Offset(Run(s, events)) == Offset(s)
    ensures Run(s, events).hasModel == s.hasModel
    decreases events
  {
    if events != [] {
      OffsetKept(Step(s, events[0]), events[1..]);
    }
  }

  /** Moves while dragging with an asset loaded: the machine stays armed and
      the anchor follows the pointer. */
  lemma {:induction false} MovesKeepArmed(s: DragState, xs: seq<int>)
    requires s.dragging && s.hasModel
    ensures var r := Run(s, Moves(xs));
            r.dragging && r.hasModel && r.anchorX == (if xs == [] then s.anchorX else xs[|xs| - 1])
    decreases xs
  {
    if xs != [] {
      assert Moves(xs)[0] == Move(xs[0]);
      assert Moves(xs)[1..] == Moves(xs[1..]);
      MovesKeepArmed(Step(s, Move(xs[0])), xs[1..]);
    }
  }

  /** The successive deltas add up to the distance from the start to the
      last position. */
  lemma {:induction false} DeltasTelescope(from: int, xs: seq<int>)
    requires xs != []
    ensures Sum(Deltas(from, xs)) == xs[|xs| - 1] - from
    decreases xs
  {
    if |xs| > 1 {
      DeltasTelescope(xs[0], xs[1..]);
    }
  }

  /** Moves while dragging with an asset loaded turn the asset by the
      sensitivity times the sum of the deltas, which is the sensitivity
      times the distance from the anchor to the last position, however the
      motion is split into events. */
  lemma DragRotation(s: DragState, xs: seq<int>)
    requires s.dragging && s.hasModel && xs != []
    ensures Run(s, Moves(xs)).rotationY == s.rotationY + Sensitivity * Sum(Deltas(s.anchorX, xs)) as real
    ensures Run(s, Moves(xs)).rotationY == s.rotationY + Sensitivity * (xs[|xs| - 1] - s.anchorX) as real
  {
    MovesKeepArmed(s, xs);
    OffsetKept(s, Moves(xs));
    DeltasTelescope(s.anchorX, xs);
  }

  /** A press at `x0` followed by moves to `xs`, once an asset is loaded,
      leaves the machine armed at the last position with the rotation grown
      by the sensitivity times the distance from `x0` to that position. */
  lemma PressThenDrag(s: DragState, x0: int, xs: seq<int>)
    requires s.hasModel && xs != []
    ensures var r := Run(s, [Press(x0)] + Moves(xs));
            r.dragging && r.anchorX == xs[|xs| - 1] &&
            r.rotationY == s.rotationY + Sensitivity * (xs[|xs| - 1] - x0) as real
  {
    RunAppend(s, [Press(x0)], Moves(xs));
    var armed := Step(s, Press(x0));
    assert Run(s, [Press(x0)]) == armed;
    MovesKeepArmed(armed, xs);
    DragRotation(armed, xs);
  }

  /** Splitting one drag into two runs of moves gives the same state as
      the drag in one piece. This is `RunAppend` specialised to moves; that
      the total rotation depends only on the anchor and the last position,
      not on the intermediate ones, is the second postcondition of
      `DragRotation`. */
  lemma ChunkedDrag(s: DragState, xs: seq<int>, ys: seq<int>)
    ensures Run(Run(s, Moves(xs)), Moves(ys)) == Run(s, Moves(xs + ys))
  {
    RunAppend(s, Moves(xs), Moves(ys));
    assert Moves(xs) + Moves(ys) == Moves(xs + ys);
  }

  /** While the machine is disarmed, or no asset is loaded, moves change
      nothing at all, not even the anchor: after a release every move is
      ignored until the next press. */
  lemma {:induction false} InertMovesIgnored(s: DragState, xs: seq<int>)
    requires !s.dragging || !s.hasModel
    ensures Run(s, Moves(xs)) == s
    decreases xs
  {
    if xs != [] {
      assert Moves(xs)[0] == Move(xs[0]);
      assert Moves(xs)[1..] == Moves(xs[1..]);
      InertMovesIgnored(s, xs[1..]);
    }
  }
}

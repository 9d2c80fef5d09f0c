/**
 The moving-triangle demo: arrow keys shift a small triangle by a fixed step,
 and a key is ignored when the step would push the triangle out of the window.

 Offsets and coordinates are counted in whole units of the step `delta` = 0.2:
 unit n stands for the float n * 0.2, so the window edge 1.0 is unit 5. Counting
 in units makes the clamp exact; float rounding is not modelled.
 */
module MovingTriangle {

  datatype Key = Escape | Right | Left | Up | Down | OtherKey(code: int)

  datatype Action = Press | Release | Repeat

  datatype Colour = Colour(r: real, g: real, b: real)

  /** The callback's globals: accumulated offsets, uniform colour, and the
      window's should-close flag. */
  datatype State = State(dx: int, dy: int, colour: Colour, closing: bool)

  datatype Event = Event(key: Key, action: Action)

  /** The startup values: no offset, red, window open. */
  const Initial: State := State(0, 0, Colour(1.0, 0.0, 0.0), false)

  /** The triangle's vertices (0, 0.2), (-0.2, -0.2), (0.2, -0.2) in step units. */
  const VertexX: seq<int> := [0, -1, 1]
  const VertexY: seq<int> := [1, -1, -1]

  /** The window edge 1.0 in step units. */
  const Edge: int := 5

  /** Every vertex of the triangle, shifted by (dx, dy), lies in [-1, 1] on both axes. */
  predicate InWindow(dx: int, dy: int)
  {
    forall k :: 0 <= k < |VertexX| ==>
      -Edge <= VertexX[k] + dx <= Edge && -Edge <= VertexY[k] + dy <= Edge
  }

  /** The unit displacement an arrow key asks for. */
  function Direction(key: Key): (int, int)
  {
    match key
    case Right => (1, 0)
    case Left => (-1, 0)
    case Up => (0, 1)
    case Down => (0, -1)
    case _ => (0, 0)
  }

  predicate IsArrow(key: Key)
  {
    key.Right? || key.Left? || key.Up? || key.Down?
  }

  /** One call of the key callback. RIGHT adds a step when 0.2 + X <= 0.8,
      LEFT subtracts one when -0.2 + X >= -0.8, and UP and DOWN do the same
      to Y; ESC asks the window to close. */
  function KeyCallback(s: State, key: Key, action: Action): (s': State)
    ensures s'.colour == s.colour
    ensures s'.dx == s.dx || s'.dy == s.dy
    ensures (s'.dx, s'.dy) == (s.dx, s.dy) || (s'.dx - s.dx, s'.dy - s.dy) == Direction(key)
    ensures action != Press || !(IsArrow(key) || key.Escape?) ==> s' == s
    ensures s'.closing <==> s.closing || (key.Escape? && action == Press)
    ensures InWindow(s.dx, s.dy) ==> InWindow(s'.dx, s'.dy)
  {
    if action != Press then s
    else
      match key
      case Escape => s.(closing := true)
      case Right => if 1 + s.dx <= 4 then s.(dx := s.dx + 1) else s
      case Left => if -1 + s.dx >= -4 then s.(dx := s.dx - 1) else s
      case Up => if 1 + s.dy <= 4 then s.(dy := s.dy + 1) else s
      case Down => if -1 + s.dy >= -4 then s.(dy := s.dy - 1) else s
      case OtherKey(_) => s
  }

  /** The window test in terms of the offsets alone: both lie in [-0.8, 0.8]. */
  lemma InWindowIff(dx: int, dy: int)
    ensures InWindow(dx, dy) <==> -4 <= dx <= 4 && -4 <= dy <= 4
  {
    if -4 <= dx <= 4 && -4 <= dy <= 4 {
      forall k | 0 <= k < |VertexX|
        ensures -Edge <= VertexX[k] + dx <= Edge && -Edge <= VertexY[k] + dy <= Edge
      {
        assert -1 <= VertexX[k] <= 1 && -1 <= VertexY[k] <= 1;
      }
    }
    if InWindow(dx, dy) {
      assert VertexX[1] == -1 && VertexX[2] == 1;
      assert VertexY[0] == 1 && VertexY[1] == -1;
    }
  }

  /** The clamp is exact: from a position inside the window, a pressed arrow
      key moves the triangle if and only if the moved triangle is still
      entirely inside the window. */
  lemma ClampIsExact(s: State, key: Key)
    requires InWindow(s.dx, s.dy)
    requires IsArrow(key)
    ensures var s' := KeyCallback(s, key, Press);
            (s'.dx, s'.dy) == (s.dx + Direction(key).0, s.dy + Direction(key).1)
            <==> InWindow(s.dx + Direction(key).0, s.dy + Direction(key).1)
  {
    InWindowIff(s.dx, s.dy);
    InWindowIff(s.dx + Direction(key).0, s.dy + Direction(key).1);
  }

  /** Feeding a sequence of events to the callback, in order. */
  function Run(s: State, events: seq<Event>): State
    decreases |events|
  {
    if events == [] then s
    else Run(KeyCallback(s, events[0].key, events[0].action), events[1..])
  }

  /** However many events arrive, the triangle never leaves the window and its
      colour never changes. */
  lemma {:induction false} RunStaysInWindow(s: State, events: seq<Event>)
    requires InWindow(s.dx, s.dy)
    ensures InWindow(Run(s, events).dx, Run(s, events).dy)
    ensures Run(s, events).colour == s.colour
    decreases |events|
  {
    if events != [] {
      RunStaysInWindow(KeyCallback(s, events[0].key, events[0].action), events[1..]);
    }
  }

  /** The bound is reached: from the start, four RIGHT presses leave the
      triangle touching the right edge (X = 0.8), and a fifth is ignored. */
  lemma RightEdgeReached()
    ensures var p := Event(Right, Press);
            Run(Initial, [p, p, p, p]).dx == 4 && Run(Initial, [p, p, p, p, p]) == Run(Initial, [p, p, p, p])
  {
    var p := Event(Right, Press);
    var s1 := KeyCallback(Initial, Right, Press);
    var s2 := KeyCallback(s1, Right, Press);
    var s3 := KeyCallback(s2, Right, Press);
    var s4 := KeyCallback(s3, Right, Press);
    assert s4.dx == 4 && KeyCallback(s4, Right, Press) == s4;
    assert Run(s4, []) == s4;
    assert Run(s4, [p]) == s4 by { assert [p][1..] == []; }
    assert Run(s3, [p]) == s4 by { assert [p][1..] == []; }
    assert Run(s3, [p, p]) == s4 by { assert [p, p][1..] == [p]; }
    assert Run(s2, [p, p]) == s4 by { assert [p, p][1..] == [p]; }
    assert Run(s2, [p, p, p]) == s4 by { assert [p, p, p][1..] == [p, p]; }
    assert Run(s1, [p, p, p]) == s4 by { assert [p, p, p][1..] == [p, p]; }
    assert Run(s1, [p, p, p, p]) == s4 by { assert [p, p, p, p][1..] == [p, p, p]; }
    assert Run(Initial, [p, p, p, p]) == s4 by { assert [p, p, p, p][1..] == [p, p, p]; }
    assert Run(Initial, [p, p, p, p, p]) == s4 by { assert [p, p, p, p, p][1..] == [p, p, p, p]; }
  }
}

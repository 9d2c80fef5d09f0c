/**
 The circle/segment intersection demo: a circle of 360 points and a fixed
 segment are laid out as flat float buffers, and every chord between
 consecutive circle points is checked against the segment's line.

 Arithmetic is over the reals. Where the program divides by zero, IEEE
 arithmetic yields an infinity or NaN that fails every comparison the loop
 makes, so the model records no intersection there.
 */
module CircleLine {
  import opened Geometry
  import opened Results

  datatype Point = Point(x: real, y: real)

  datatype Segment = Segment(start: Point, end: Point)

  /** The line a*x + b*y + c = 0. */
  datatype Line = Line(a: real, b: real, c: real)

  /** The intersection marker: the stored point and the running count. */
  datatype Marker = Marker(v: Point, nInter: int)

  const CirclePoints: nat := 360
  const CircleFloats: nat := 720
  const CircleRadius: real := 0.5
  const CircleCentreY: real := 0.25

  /** Chords checked: from point i to point i + 1, for i below this bound. */
  const CheckedChords: nat := 359

  /** The segment's buffer as the line object writes it: (0, 0) to (0.85, 0.5). */
  const LineBuffer: seq<real> := [0.0, 0.0, 0.85, 0.5]

  /** The marker buffer holds one point (two floats). */
  const MarkerCapacity: nat := 1

  predicate OnLine(l: Line, p: Point)
  {
    l.a * p.x + l.b * p.y + l.c == 0.0
  }

  predicate InBox(seg: Segment, p: Point)
  {
    seg.start.x <= p.x <= seg.end.x && seg.start.y <= p.y <= seg.end.y
  }

  function Lerp(p1: Point, p2: Point, t: real): Point
  {
    Point((1.0 - t) * p1.x + t * p2.x, (1.0 - t) * p1.y + t * p2.y)
  }

  function PointAt(s: seq<real>, base: int): Point
    requires 0 <= base && base + 2 <= |s|
  {
    Point(s[base], s[base + 1])
  }

  function SegmentOf(line: seq<real>): Segment
    requires |line| == 4
  {
    Segment(PointAt(line, 0), PointAt(line, 2))
  }

  /** Point i of the circle of radius 0.5 centred at (0, 0.25), at i degrees. */
  function CirclePoint(trig: Trig, i: int): Point
  {
    var angle := Angle(i, CirclePoints);
    Point(CircleRadius * trig.cos(angle), CircleCentreY + CircleRadius * trig.sin(angle))
  }

  /** The circle object's constructor: point i goes to floats 2i and 2i + 1. */
  method BuildCircle(trig: Trig) returns (v: seq<real>)
    ensures |v| == CircleFloats
    ensures forall i :: 0 <= i < CirclePoints ==> PointAt(v, 2 * i) == CirclePoint(trig, i)
  {
    var a := new real[CircleFloats];
    for i := 0 to CirclePoints
      invariant forall t :: 0 <= t < i ==> PointAt(a[..], 2 * t) == CirclePoint(trig, t)
    {
      var p := CirclePoint(trig, i);
      a[2 * i] := p.x;
      a[2 * i + 1] := p.y;
    }
    v := a[..];
  }

  /** The line coefficients as the program computes them: the slope
      a = dy/dx, b = -1, and c = b*y1 - a*x1. There is no line for a
      vertical segment (dx = 0). */
  function LineAsWritten(seg: Segment): (r: Option<Line>)
    ensures r.Some? <==> seg.start.x != seg.end.x
  {
    if seg.end.x == seg.start.x then None
    else
      var a := (seg.end.y - seg.start.y) / (seg.end.x - seg.start.x);
      var b := -1.0;
      Some(Line(a, b, b * seg.start.y - a * seg.start.x))
  }

  /** The sign of c is wrong: the computed line passes through either endpoint
      exactly when the segment starts on the x axis. */
  lemma AsWrittenLineThroughEndpointsIff(seg: Segment)
    requires seg.start.x != seg.end.x
    ensures OnLine(LineAsWritten(seg).value, seg.start) <==> seg.start.y == 0.0
    ensures OnLine(LineAsWritten(seg).value, seg.end) <==> seg.start.y == 0.0
  {
    var l := LineAsWritten(seg).value;
    var dx := seg.end.x - seg.start.x;
    assert l.a * dx == seg.end.y - seg.start.y;
    assert l.a * seg.start.x + l.b * seg.start.y + l.c == -2.0 * seg.start.y;
    calc {
      l.a * seg.end.x + l.b * seg.end.y + l.c;
      l.a * dx - seg.end.y - seg.start.y;
      -2.0 * seg.start.y;
    }
  }

  /** A concrete segment that does not start on the x axis: (0, 1) to (1, 2). */
  lemma AsWrittenLineMissesRaisedSegment()
    ensures var seg := Segment(Point(0.0, 1.0), Point(1.0, 2.0));
            LineAsWritten(seg).Some? && !OnLine(LineAsWritten(seg).value, seg.start)
  {
    AsWrittenLineThroughEndpointsIff(Segment(Point(0.0, 1.0), Point(1.0, 2.0)));
  }

  /** The line through the segment, with c = y1 - a*x1. */
  function LineThrough(seg: Segment): (r: Option<Line>)
    ensures r.Some? <==> seg.start.x != seg.end.x
    ensures r.Some? ==> OnLine(r.value, seg.start) && OnLine(r.value, seg.end)
  {
    if seg.end.x == seg.start.x then None
    else
      var dx := seg.end.x - seg.start.x;
      var a := (seg.end.y - seg.start.y) / dx;
      assert a * dx == seg.end.y - seg.start.y;
      Some(Line(a, -1.0, seg.start.y - a * seg.start.x))
  }

  /** For a segment starting on the x axis, which includes the hard-coded
      one, the program's coefficients are those of the line through it. */
  lemma AsWrittenAgreesOnAxisStart(seg: Segment)
    requires seg.start.y == 0.0
    ensures LineAsWritten(seg) == LineThrough(seg)
  {
  }

  /** The hard-coded segment gives c = 0, and both endpoints satisfy
      a*x + b*y + c = 0, as the comment in the program claims. */
  lemma HardCodedSegmentLine()
    ensures var seg := SegmentOf(LineBuffer);
            seg == Segment(Point(0.0, 0.0), Point(0.85, 0.5)) &&
            LineAsWritten(seg).Some? && LineAsWritten(seg).value.c == 0.0 &&
            OnLine(LineAsWritten(seg).value, seg.start) && OnLine(LineAsWritten(seg).value, seg.end)
  {
    LineBufferSegment();
    OriginSegmentLine(0.85, 0.5);
  }

  lemma LineBufferSegment()
    ensures SegmentOf(LineBuffer) == Segment(Point(0.0, 0.0), Point(0.85, 0.5))
  {
  }

  /** A segment from the origin: the program's line has c = 0 and contains
      both endpoints. */
  lemma OriginSegmentLine(x: real, y: real)
    requires x != 0.0
    ensures var seg := Segment(Point(0.0, 0.0), Point(x, y));
            LineAsWritten(seg).Some? && LineAsWritten(seg).value.c == 0.0 &&
            OnLine(LineAsWritten(seg).value, seg.start) && OnLine(LineAsWritten(seg).value, seg.end)
  {
    var a := (y - 0.0) / (x - 0.0);
    assert a * x == y;
  }

  /** The line's value a*x + b*y + c at a point (zero exactly on the line). */
  function Eval(l: Line, p: Point): real
  {
    l.a * p.x + l.b * p.y + l.c
  }

  /** Along a chord the line's value changes linearly. */
  lemma EvalLerp(l: Line, p1: Point, p2: Point, t: real)
    ensures Eval(l, Lerp(p1, p2, t)) == Eval(l, p1) + t * (Eval(l, p2) - Eval(l, p1))
  {
    calc {
      Eval(l, Lerp(p1, p2, t));
      l.a * ((1.0 - t) * p1.x + t * p2.x) + l.b * ((1.0 - t) * p1.y + t * p2.y) + l.c;
      (l.a * p1.x + l.b * p1.y + l.c) + t * (l.a * (p2.x - p1.x) + l.b * (p2.y - p1.y));
    }
  }

  /** The denominator of the loop's division: how fast the line's value
      changes along the chord. */
  function Denom(l: Line, p1: Point, p2: Point): real
  {
    l.a * (p2.x - p1.x) + l.b * (p2.y - p1.y)
  }

  /** t = -(a*x1 + b*y1 + c) / denominator. */
  function Param(l: Line, p1: Point, p2: Point): real
    requires Denom(l, p1, p2) != 0.0
  {
    -1.0 * (l.a * p1.x + l.b * p1.y + l.c) / Denom(l, p1, p2)
  }

  /** The parameter solves Eval(Lerp(p1, p2, t)) = 0, and nothing else does. */
  lemma ParamIsRoot(l: Line, p1: Point, p2: Point, t: real)
    requires Denom(l, p1, p2) != 0.0
    ensures Eval(l, Lerp(p1, p2, t)) == 0.0 <==> t == Param(l, p1, p2)
  {
    EvalDifference(l, p1, p2);
    EvalLerp(l, p1, p2, t);
    var q := Param(l, p1, p2);
    assert q * Denom(l, p1, p2) == -1.0 * Eval(l, p1);
    if Eval(l, Lerp(p1, p2, t)) == 0.0 {
      SolveLinear(Eval(l, p1), Denom(l, p1, p2), t);
    }
  }

  /** One iteration of the loop: the parameter t where the chord p1-p2 meets
      the line, and the point there when t is in [0, 1] and the point lies in
      the segment's bounding box. A chord parallel to the line (zero
      denominator) yields no point. */
  function ChordHit(l: Line, seg: Segment, p1: Point, p2: Point): (r: Option<Point>)
    ensures r.Some? ==> OnLine(l, r.value) && InBox(seg, r.value)
    ensures r.Some? ==> exists t :: 0.0 <= t <= 1.0 && r.value == Lerp(p1, p2, t)
    ensures Denom(l, p1, p2) == 0.0 ==> r.None?
  {
    if Denom(l, p1, p2) == 0.0 then None
    else
      var t := Param(l, p1, p2);
      if 0.0 <= t && t <= 1.0 && InBox(seg, Lerp(p1, p2, t)) then
        ParamIsRoot(l, p1, p2, t);
        Some(Lerp(p1, p2, t))
      else None
  }

  /** Conversely, a point of a non-parallel chord that lies on the line and in
      the box is found: the test misses no crossing. */
  lemma ChordHitComplete(l: Line, seg: Segment, p1: Point, p2: Point, t: real)
    requires Denom(l, p1, p2) != 0.0
    requires 0.0 <= t <= 1.0
    requires OnLine(l, Lerp(p1, p2, t)) && InBox(seg, Lerp(p1, p2, t))
    ensures ChordHit(l, seg, p1, p2) == Some(Lerp(p1, p2, t))
  {
    ParamIsRoot(l, p1, p2, t);
  }

  lemma EvalDifference(l: Line, p1: Point, p2: Point)
    ensures Eval(l, p2) - Eval(l, p1) == Denom(l, p1, p2)
  {
  }

  /** The unique root of e + t*d = 0 for d != 0. */
  lemma SolveLinear(e: real, d: real, t: real)
    requires d != 0.0 && e + t * d == 0.0
    ensures t == -1.0 * e / d
  {
    assert t * d == -1.0 * e;
  }

  /** The chord from circle point i to point i + 1, read from floats 2i .. 2i+3. */
  function HitAt(circle: seq<real>, l: Line, seg: Segment, i: int): Option<Point>
    requires |circle| == CircleFloats && 0 <= i < CheckedChords
  {
    ChordHit(l, seg, PointAt(circle, 2 * i), PointAt(circle, 2 * i + 2))
  }

  /** The number of chords below n that hit. */
  function HitCount(circle: seq<real>, l: Line, seg: Segment, n: nat): nat
    requires |circle| == CircleFloats && n <= CheckedChords
  {
    if n == 0 then 0
    else HitCount(circle, l, seg, n - 1) + (if HitAt(circle, l, seg, n - 1).Some? then 1 else 0)
  }

  /** The hit of the highest-numbered chord below n that hits. */
  function LastHit(circle: seq<real>, l: Line, seg: Segment, n: nat): Option<Point>
    requires |circle| == CircleFloats && n <= CheckedChords
  {
    if n == 0 then None
    else if HitAt(circle, l, seg, n - 1).Some? then HitAt(circle, l, seg, n - 1)
    else LastHit(circle, l, seg, n - 1)
  }

  /** The chords below n that hit, as a set of chord numbers. */
  function HitChords(circle: seq<real>, l: Line, seg: Segment, n: nat): set<int>
    requires |circle| == CircleFloats && n <= CheckedChords
  {
    set i | 0 <= i < n && HitAt(circle, l, seg, i).Some?
  }

  /** The number of true flags among the first n. */
  function CountTrue(b: seq<bool>, n: nat): nat
    requires n <= |b|
  {
    if n == 0 then 0 else CountTrue(b, n - 1) + (if b[n - 1] then 1 else 0)
  }

  /** The positions of the true flags among the first n. */
  function TrueSet(b: seq<bool>, n: nat): set<int>
    requires n <= |b|
  {
    set i | 0 <= i < n && b[i]
  }

  /** Counting the true flags one by one gives the size of their set. */
  lemma {:induction false} CountTrueIsTrueSet(b: seq<bool>, n: nat)
    requires n <= |b|
    ensures CountTrue(b, n) == |TrueSet(b, n)|
  {
    if n > 0 {
      CountTrueIsTrueSet(b, n - 1);
      var before := TrueSet(b, n - 1);
      var added: set<int> := if b[n - 1] then {n - 1} else {};
      assert TrueSet(b, n) == before + added;
      assert n - 1 !in before;
    }
  }

  /** Which of the checked chords hit. */
  function HitFlags(circle: seq<real>, l: Line, seg: Segment): (f: seq<bool>)
    requires |circle| == CircleFloats
    ensures |f| == CheckedChords
    ensures forall i :: 0 <= i < CheckedChords ==> f[i] == HitAt(circle, l, seg, i).Some?
  {
    seq(CheckedChords, i requires 0 <= i < CheckedChords => HitAt(circle, l, seg, i).Some?)
  }

  lemma {:induction false} HitCountCountsFlags(circle: seq<real>, l: Line, seg: Segment, n: nat)
    requires |circle| == CircleFloats && n <= CheckedChords
    ensures HitCount(circle, l, seg, n) == CountTrue(HitFlags(circle, l, seg), n)
  {
    if n > 0 {
      HitCountCountsFlags(circle, l, seg, n - 1);
    }
  }

  /** The running count is the number of distinct hitting chords. */
  lemma HitCountIsHitChords(circle: seq<real>, l: Line, seg: Segment, n: nat)
    requires |circle| == CircleFloats && n <= CheckedChords
    ensures HitCount(circle, l, seg, n) == |HitChords(circle, l, seg, n)|
  {
    var flags := HitFlags(circle, l, seg);
    HitCountCountsFlags(circle, l, seg, n);
    CountTrueIsTrueSet(flags, n);
    assert HitChords(circle, l, seg, n) == TrueSet(flags, n);
  }

  /** There is a last hit exactly when some chord hits, and it is a genuine
      crossing inside the segment's box. */
  lemma {:induction false} LastHitIsHit(circle: seq<real>, l: Line, seg: Segment, n: nat)
    requires |circle| == CircleFloats && n <= CheckedChords
    ensures LastHit(circle, l, seg, n).Some? <==> HitCount(circle, l, seg, n) > 0
    ensures LastHit(circle, l, seg, n).Some? ==>
              OnLine(l, LastHit(circle, l, seg, n).value) && InBox(seg, LastHit(circle, l, seg, n).value)
  {
    if n > 0 {
      LastHitIsHit(circle, l, seg, n - 1);
    }
  }

  /** compute_intersection: for each chord i < 359 a hit overwrites the stored
      point and adds one to the count. The chord from point 359 back to point 0
      is never checked. The count starts from whatever the marker held, and it
      is the number of hitting chords exactly when that was 0. */
  method ComputeIntersection(circle: seq<real>, line: seq<real>, start: Marker) returns (m: Marker)
    requires |circle| == CircleFloats && |line| == 4
    ensures LineThrough(SegmentOf(line)).None? ==> m == start
    ensures LineThrough(SegmentOf(line)).Some? ==>
              var l := LineThrough(SegmentOf(line)).value;
              && m.nInter == start.nInter + |HitChords(circle, l, SegmentOf(line), CheckedChords)|
              && m.v == (match LastHit(circle, l, SegmentOf(line), CheckedChords)
                         case Some(p) => p
                         case None => start.v)
    ensures m.nInter != start.nInter ==>
              var l := LineThrough(SegmentOf(line)).value;
              m.nInter > start.nInter && OnLine(l, m.v) && InBox(SegmentOf(line), m.v)
    ensures LineThrough(SegmentOf(line)).Some? ==>
              (m.nInter == |HitChords(circle, LineThrough(SegmentOf(line)).value, SegmentOf(line), CheckedChords)| <==> start.nInter == 0)
  {
    m := start;
    var seg := SegmentOf(line);
    var maybeLine := LineThrough(seg);
    if maybeLine.None? {
      return;
    }
    var l := maybeLine.value;
    for i := 0 to CheckedChords
      invariant m.nInter == start.nInter + HitCount(circle, l, seg, i)
      invariant m.v == (match LastHit(circle, l, seg, i) case Some(p) => p case None => start.v)
    {
      var p1 := Point(circle[2 * i], circle[2 * i + 1]);
      var p2 := Point(circle[2 * i + 2], circle[2 * i + 3]);
      assert p1 == PointAt(circle, 2 * i) && p2 == PointAt(circle, 2 * i + 2);
      var hit := ChordHit(l, seg, p1, p2);
      if hit.Some? {
        m := m.(v := hit.value, nInter := m.nInter + 1);
      }
    }
    HitCountIsHitChords(circle, l, seg, CheckedChords);
    LastHitIsHit(circle, l, seg, CheckedChords);
  }

  /** compute_intersection on a marker whose count starts at 0, as the unused
      global nInter = 0 does: the count is then the number of hitting chords,
      and render draws a point exactly when some chord hits. */
  method CountIntersections(circle: seq<real>, line: seq<real>, v: Point) returns (m: Marker)
    requires |circle| == CircleFloats && |line| == 4
    ensures LineThrough(SegmentOf(line)).None? ==> m == Marker(v, 0)
    ensures LineThrough(SegmentOf(line)).Some? ==>
              m.nInter == |HitChords(circle, LineThrough(SegmentOf(line)).value, SegmentOf(line), CheckedChords)|
    ensures PointsDrawn(m) == m.nInter
    ensures m.nInter > 0 ==>
              OnLine(LineThrough(SegmentOf(line)).value, m.v) && InBox(SegmentOf(line), m.v)
  {
    m := ComputeIntersection(circle, line, Marker(v, 0));
  }

  /** render draws nInter points from the marker buffer, which holds one:
      the draw stays inside the buffer exactly when at most one hit was counted. */
  function PointsDrawn(m: Marker): (n: nat)
    ensures n <= MarkerCapacity <==> m.nInter <= 1
    ensures n == 0 <==> m.nInter <= 0
  {
    if m.nInter > 0 then m.nInter else 0
  }
}

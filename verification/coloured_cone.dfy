/**
 The colour-cycling cone: the cone object lays out 33 triangles of four-float
 vertices (apex, then two rim points), and each frame draws them one triangle
 at a time, colouring triangle i with entry i mod 6 of a six-colour table.
 */
module ColouredCone {
  import opened Geometry

  /** NUMOFTRIANGLE; the loops run i = 0 .. 32 inclusive, so 33 triangles. */
  const Triangles: nat := 32
  const DrawnTriangles: nat := Triangles + 1

  /** The vertex buffer, (NUMOFTRIANGLE + 1) * 12 floats. */
  const Capacity: nat := (Triangles + 1) * 12

  const Radius: real := 1.0

  /** Red, green, blue, yellow, cyan, magenta, four floats each. */
  const Palette: seq<real> := [
    0.7, 0.0, 0.0, 1.0,
    0.0, 0.7, 0.0, 1.0,
    0.0, 0.0, 0.7, 1.0,
    0.7, 0.7, 0.0, 1.0,
    0.0, 0.7, 0.7, 1.0,
    0.7, 0.0, 0.7, 1.0
  ]

  const Apex: Vec4 := Vec4(0.0, 1.0, 0.0, 1.0)

  /** Rim point j: on the base circle y = -1 at angle 2*pi*j/32. */
  function Rim(trig: Trig, j: int): Vec4
  {
    var angle := Angle(j, Triangles);
    Vec4(Radius * trig.cos(angle), -1.0, Radius * trig.sin(angle), 1.0)
  }

  /** Vertex k of triangle i: the apex, then rim points i and i + 1. */
  function ConeVertex(trig: Trig, i: int, k: int): Vec4
    requires 0 <= k < 3
  {
    if k == 0 then Apex else Rim(trig, i + k - 1)
  }

  /** The four floats of vertex k of triangle i in the buffer. */
  function Slot(v: seq<real>, i: int, k: int): Vec4
    requires 0 <= i && 0 <= k < 3 && 12 * i + 4 * k + 4 <= |v|
  {
    Vec4At(v, 12 * i + 4 * k)
  }

  /** Appending triangle i's twelve floats keeps the earlier slots and makes
      slot (i, k) the k-th group of four. */
  lemma AppendSlots(front: seq<real>, w: seq<real>, i: nat)
    requires |front| == 12 * i && |w| == 12
    ensures forall t, k :: 0 <= t < i && 0 <= k < 3 ==> Slot(front + w, t, k) == Slot(front, t, k)
    ensures forall k :: 0 <= k < 3 ==> Slot(front + w, i, k) == Vec4At(w, 4 * k)
  {
  }

  /** The cone object's constructor. Every float of the buffer is written,
      triangle i at floats 12i .. 12i+11, and consecutive triangles share a rim
      point: the third vertex of triangle i is the second of triangle i + 1. */
  method BuildCone(trig: Trig) returns (v: seq<real>)
    ensures |v| == Capacity
    ensures forall i, k :: 0 <= i < DrawnTriangles && 0 <= k < 3 ==> Slot(v, i, k) == ConeVertex(trig, i, k)
    ensures forall i :: 0 <= i < DrawnTriangles ==> Slot(v, i, 0) == Apex
    ensures forall i, k :: 0 <= i < DrawnTriangles && 1 <= k < 3 ==> Slot(v, i, k).y == -1.0 && Slot(v, i, k).w == 1.0
    ensures forall i :: 0 <= i < DrawnTriangles - 1 ==> Slot(v, i, 2) == Slot(v, i + 1, 1)
  {
    v := [];
    for i := 0 to DrawnTriangles
      invariant |v| == 12 * i
      invariant forall t, k :: 0 <= t < i && 0 <= k < 3 ==> Slot(v, t, k) == ConeVertex(trig, t, k)
    {
      var angle := Angle(i, Triangles);
      var c0, s0 := trig.cos(angle), trig.sin(angle);
      var j := i + 1;
      angle := Angle(j, Triangles);
      var c1, s1 := trig.cos(angle), trig.sin(angle);
      var w := [0.0, 1.0, 0.0, 1.0,
                Radius * c0, -1.0, Radius * s0, 1.0,
                Radius * c1, -1.0, Radius * s1, 1.0];
      AppendSlots(v, w, i);
      v := v + w;
      assert Slot(v, i, 0) == ConeVertex(trig, i, 0);
      assert Slot(v, i, 1) == ConeVertex(trig, i, 1);
      assert Slot(v, i, 2) == ConeVertex(trig, i, 2);
    }
    forall i | 0 <= i < DrawnTriangles - 1
      ensures Slot(v, i, 2) == Slot(v, i + 1, 1)
    {
      assert Slot(v, i, 2) == ConeVertex(trig, i, 2);
      assert Slot(v, i + 1, 1) == ConeVertex(trig, i + 1, 1);
    }
    forall i | 0 <= i < DrawnTriangles
      ensures Slot(v, i, 0) == Apex
    {
      assert Slot(v, i, 0) == ConeVertex(trig, i, 0);
    }
  }

  /** One glDrawArrays(GL_TRIANGLES, first, count) with its uniform colour. */
  datatype DrawCall = DrawCall(colour: Vec4, first: nat, count: nat)

  /** The colour of triangle i: the four floats at 4 * (i % 6) of the table. */
  function TriangleColour(i: nat): Vec4
  {
    Vec4At(Palette, 4 * (i % 6))
  }

  /** The draw loop of render(). Triangle i is drawn from vertex 3i, three
      vertices, which are exactly the floats the constructor wrote for it; the
      last draw ends at vertex 99, the buffer's 396 floats / 4; two
      consecutive draw calls never share a colour, nor do the last call and
      the first. */
  method Render() returns (calls: seq<DrawCall>)
    ensures |calls| == DrawnTriangles
    ensures forall i :: 0 <= i < |calls| ==> calls[i].first * 4 == 12 * i && calls[i].count == 3
    ensures forall i :: 0 <= i < |calls| ==> (calls[i].first + calls[i].count) * 4 <= Capacity
    ensures (calls[|calls| - 1].first + calls[|calls| - 1].count) * 4 == Capacity
    ensures forall i :: 0 <= i < |calls| ==> calls[i].colour == TriangleColour(i)
    ensures forall i {:trigger calls[i]} :: 0 <= i < |calls| ==> calls[i].colour != calls[(i + 1) % |calls|].colour
  {
    calls := [];
    for i := 0 to DrawnTriangles
      invariant |calls| == i
      invariant forall t :: 0 <= t < i ==> calls[t] == DrawCall(TriangleColour(t), 3 * t, 3)
    {
      var c := 4 * (i % 6);
      var colour := Vec4(Palette[c], Palette[c + 1], Palette[c + 2], Palette[c + 3]);
      assert colour == TriangleColour(i);
      calls := calls + [DrawCall(colour, 3 * i, 3)];
    }
    forall i {:trigger calls[i]} | 0 <= i < |calls|
      ensures calls[i].colour != calls[(i + 1) % |calls|].colour
    {
      NeighbourColoursDiffer(i);
      assert calls[(i + 1) % |calls|] == DrawCall(TriangleColour((i + 1) % DrawnTriangles), 3 * ((i + 1) % DrawnTriangles), 3);
    }
  }

  /** Consecutive draw calls i and i + 1 use different entries, and so do the
      last call (triangle 32) and the first. */
  lemma NeighbourColoursDiffer(i: nat)
    requires i < DrawnTriangles
    ensures TriangleColour(i) != TriangleColour((i + 1) % DrawnTriangles)
  {
    var j := (i + 1) % DrawnTriangles;
    assert i % 6 != j % 6;
    PaletteEntriesDistinct(i % 6, j % 6);
  }

  /** Around the ring of 32 wedges, neighbouring wedges get different
      colours, including wedges 31 and 0 where the ring closes. */
  lemma WedgeNeighboursDiffer(i: nat)
    requires i < Triangles
    ensures TriangleColour(i) != TriangleColour((i + 1) % Triangles)
  {
    var j := (i + 1) % Triangles;
    assert i % 6 != j % 6;
    PaletteEntriesDistinct(i % 6, j % 6);
  }

  /** The loops run to NUMOFTRIANGLE inclusive, so triangle 32 has rim
      points 32 and 33, one full turn past triangle 0's. Where cos and sin
      agree after a full turn, triangle 32 is wedge 0 again, drawn over it
      in a different colour. */
  lemma LastTriangleRedrawsFirst(trig: Trig, v: seq<real>)
    requires FullTurnAgrees(trig, 0, Triangles) && FullTurnAgrees(trig, 1, Triangles)
    requires |v| == Capacity
    requires forall i, k :: 0 <= i < DrawnTriangles && 0 <= k < 3 ==> Slot(v, i, k) == ConeVertex(trig, i, k)
    ensures forall k :: 0 <= k < 3 ==> Slot(v, Triangles, k) == Slot(v, 0, k)
    ensures TriangleColour(Triangles) != TriangleColour(0)
  {
    assert Rim(trig, Triangles) == Rim(trig, 0);
    assert Rim(trig, Triangles + 1) == Rim(trig, 1);
    forall k | 0 <= k < 3
      ensures Slot(v, Triangles, k) == Slot(v, 0, k)
    {
      assert Slot(v, Triangles, k) == ConeVertex(trig, Triangles, k);
      assert Slot(v, 0, k) == ConeVertex(trig, 0, k);
    }
    PaletteEntriesDistinct(2, 0);
  }

  lemma PaletteEntriesDistinct(m: nat, n: nat)
    requires m < 6 && n < 6 && m != n
    ensures Vec4At(Palette, 4 * m) != Vec4At(Palette, 4 * n)
  {
  }
}

/**
 The shaded cone: 32 triangles of four-float vertices, a normal per vertex and
 a colour per vertex, rebuilt whenever the shading mode changes. In flat mode
 every vertex of a triangle carries the face normal; in smooth mode the apex
 carries the average of the face normals and each rim point its own radial
 direction.

 The buffers hold what the program writes. Its face normal formula does not
 depend on the radius and is the cross product of the two edges from the apex
 only for radius 1 (FaceNormalAsWritten); FaceNormal is the radius-aware
 cross product. Its apex average runs over 33 faces, the 32 of the cone and
 face 0 again (ApexNormalCountsFaceZeroTwice); CorrectedApexNormal averages
 the 32.
 */
module ShadedCone {
  import opened Geometry

  /** NUMOFTRIANGLE */
  const Triangles: nat := 32

  /** Declared size of each buffer, 33 * 1 * 4 * 3 floats. */
  const Capacity: nat := 396

  /** Floats of the vertex and normal buffers that a rebuild writes. */
  const WrittenFloats: nat := Triangles * 12

  /** The colour loop writes four four-float vertices from float 12i, one more
      than the triangle's three, so the last triangle's writes end at float
      12 * 31 + 15. */
  const WrittenColourFloats: nat := 12 * (Triangles - 1) + 16

  /** glDrawArrays(GL_TRIANGLES, 0, 32*3) */
  const DrawCount: nat := 32 * 3

  const MainColors: seq<real> := [1.0, 0.5, 0.31, 1.0]

  /** calAngle(i) = 2*pi*i / NUMOFTRIANGLE */
  function CalAngle(i: int): Angle
  {
    Angle(i, Triangles)
  }

  const Apex: Vec3 := Vec3(0.0, 1.0, 0.0)

  /** Rim point j on the base circle y = -1. */
  function RimPoint(trig: Trig, radius: real, j: int): Vec3
  {
    Vec3(radius * trig.cos(CalAngle(j)), -1.0, radius * trig.sin(CalAngle(j)))
  }

  /** Vertex k of triangle i: the apex, then rim points i and i + 1, w = 1. */
  function ConeVertex(trig: Trig, radius: real, i: int, k: int): Vec4
    requires 0 <= k < 3
  {
    Extend(if k == 0 then Apex else RimPoint(trig, radius, i + k - 1), 1.0)
  }

  /** The edge from the apex to rim point j. */
  function Edge(trig: Trig, radius: real, j: int): Vec3
  {
    Sub(RimPoint(trig, radius, j), Apex)
  }

  /** The x, y, z the program computes for triangle i's face normal. */
  function FaceNormalAsWritten(trig: Trig, i: int): Vec3
  {
    var c0 := trig.cos(CalAngle(i));
    var s0 := trig.sin(CalAngle(i));
    var c1 := trig.cos(CalAngle(i + 1));
    var s1 := trig.sin(CalAngle(i + 1));
    Vec3(2.0 * (s1 - s0), -1.0 * (c1 * s0 - c0 * s1), 2.0 * (-1.0 * c1 + c0))
  }

  /** The face normal of triangle i: the cross product of the edge to rim
      point i + 1 with the edge to rim point i. */
  function FaceNormal(trig: Trig, radius: real, i: int): (n: Vec3)
    ensures Dot(n, Edge(trig, radius, i)) == 0.0
    ensures Dot(n, Edge(trig, radius, i + 1)) == 0.0
  {
    CrossOrthogonal(Edge(trig, radius, i + 1), Edge(trig, radius, i));
    Cross(Edge(trig, radius, i + 1), Edge(trig, radius, i))
  }

  /** At radius 1 the program's formula is exactly the cross product. */
  lemma AsWrittenIsUnitRadiusFaceNormal(trig: Trig, i: int)
    ensures FaceNormalAsWritten(trig, i) == FaceNormal(trig, 1.0, i)
  {
  }

  /** For any other radius the program's normal tilts away from the face:
      its dot product with the edge to rim point i is 2(r - 1)(c0 s1 - c1 s0),
      where c0 s1 - c1 s0 is the sine of the angle between two neighbouring
      rim points. */
  lemma AsWrittenFaceNormalTilt(trig: Trig, radius: real, i: int)
    ensures var c0 := trig.cos(CalAngle(i));
            var s0 := trig.sin(CalAngle(i));
            var c1 := trig.cos(CalAngle(i + 1));
            var s1 := trig.sin(CalAngle(i + 1));
            Dot(FaceNormalAsWritten(trig, i), Edge(trig, radius, i)) == 2.0 * (radius - 1.0) * (c0 * s1 - c1 * s0)
  {
    var c0 := trig.cos(CalAngle(i));
    var s0 := trig.sin(CalAngle(i));
    var c1 := trig.cos(CalAngle(i + 1));
    var s1 := trig.sin(CalAngle(i + 1));
    calc {
      Dot(FaceNormalAsWritten(trig, i), Edge(trig, radius, i));
      2.0 * (s1 - s0) * (radius * c0) + (-1.0 * (c1 * s0 - c0 * s1)) * (-2.0) + 2.0 * (-1.0 * c1 + c0) * (radius * s0);
      2.0 * (radius - 1.0) * (c0 * s1 - c1 * s0);
    }
  }

  /** Hence, for a radius other than 1 and neighbouring rim points at
      different angles, the program's flat normal is not orthogonal to the face. */
  lemma AsWrittenFaceNormalNotOrthogonal(trig: Trig, radius: real, i: int)
    requires radius != 1.0
    requires trig.cos(CalAngle(i)) * trig.sin(CalAngle(i + 1)) != trig.cos(CalAngle(i + 1)) * trig.sin(CalAngle(i))
    ensures Dot(FaceNormalAsWritten(trig, i), Edge(trig, radius, i)) != 0.0
  {
    AsWrittenFaceNormalTilt(trig, radius, i);
    var d := trig.cos(CalAngle(i)) * trig.sin(CalAngle(i + 1)) - trig.cos(CalAngle(i + 1)) * trig.sin(CalAngle(i));
    ProductNonZero(2.0 * (radius - 1.0), d);
  }

  lemma ProductNonZero(a: real, b: real)
    requires a != 0.0 && b != 0.0
    ensures a * b != 0.0
  {
    if a > 0.0 && b > 0.0 {
      assert a * b > 0.0;
    } else if a > 0.0 {
      assert a * -b > 0.0;
    } else if b > 0.0 {
      assert -a * b > 0.0;
    } else {
      assert -a * -b > 0.0;
    }
  }

  function Add(a: Vec3, b: Vec3): Vec3
  {
    Vec3(a.x + b.x, a.y + b.y, a.z + b.z)
  }

  /** The sum of the program's face normals of triangles 0 .. n-1. */
  function NormalSum(trig: Trig, n: nat): Vec3
  {
    if n == 0 then Vec3(0.0, 0.0, 0.0)
    else Add(NormalSum(trig, n - 1), FaceNormalAsWritten(trig, n - 1))
  }

  /** The x and z parts of the sum telescope: they depend only on the first
      and the last angle. */
  lemma {:induction false} NormalSumTelescopes(trig: Trig, n: nat)
    ensures NormalSum(trig, n).x == 2.0 * (trig.sin(CalAngle(n)) - trig.sin(CalAngle(0)))
    ensures NormalSum(trig, n).z == 2.0 * (trig.cos(CalAngle(0)) - trig.cos(CalAngle(n)))
  {
    if n > 0 {
      NormalSumTelescopes(trig, n - 1);
    }
  }

  /** The smooth apex normal as the program computes it: the loop runs to
      NUMOFTRIANGLE inclusive, so it sums the normals of triangles 0 .. 32
      and divides by 33. */
  function SmoothApexNormal(trig: Trig): Vec3
  {
    var s := NormalSum(trig, Triangles + 1);
    var n := (Triangles + 1) as real;
    Vec3(s.x / n, s.y / n, s.z / n)
  }

  /** The first loop of updateBuffers(), accumulating temp and dividing it.
      Its x and z are fixed by the angles 0 and 33 alone. */
  method AverageNormal(trig: Trig) returns (temp: Vec3)
    ensures temp == SmoothApexNormal(trig)
    ensures temp.x == 2.0 * (trig.sin(CalAngle(Triangles + 1)) - trig.sin(CalAngle(0))) / 33.0
    ensures temp.z == 2.0 * (trig.cos(CalAngle(0)) - trig.cos(CalAngle(Triangles + 1))) / 33.0
  {
    var sx, sy, sz := 0.0, 0.0, 0.0;
    for i := 0 to Triangles + 1
      invariant Vec3(sx, sy, sz) == NormalSum(trig, i)
    {
      var n := FaceNormalAsWritten(trig, i);
      sx := sx + n.x;
      sy := sy + n.y;
      sz := sz + n.z;
    }
    var d := (Triangles + 1) as real;
    temp := Vec3(sx / d, sy / d, sz / d);
    NormalSumTelescopes(trig, Triangles + 1);
  }

  /** Triangle 32 is triangle 0 one full turn later: with cos and sin agreeing
      there, the program's sum is the 32 faces of the cone plus face 0 a
      second time, and the averaged normal leans towards face 0 by a 33rd of
      that face's horizontal part. */
  lemma ApexNormalCountsFaceZeroTwice(trig: Trig)
    requires FullTurnAgrees(trig, 0, Triangles) && FullTurnAgrees(trig, 1, Triangles)
    ensures NormalSum(trig, Triangles + 1) == Add(NormalSum(trig, Triangles), FaceNormalAsWritten(trig, 0))
    ensures SmoothApexNormal(trig).x == FaceNormalAsWritten(trig, 0).x / 33.0
    ensures SmoothApexNormal(trig).z == FaceNormalAsWritten(trig, 0).z / 33.0
    ensures FaceNormalAsWritten(trig, 0).x != 0.0 ==> SmoothApexNormal(trig).x != 0.0
  {
    assert FaceNormalAsWritten(trig, Triangles) == FaceNormalAsWritten(trig, 0);
    NormalSumTelescopes(trig, Triangles + 1);
  }

  /** The average over the cone's 32 faces. */
  function CorrectedApexNormal(trig: Trig): (n: Vec3)
    ensures n.x == 2.0 * (trig.sin(CalAngle(Triangles)) - trig.sin(CalAngle(0))) / 32.0
    ensures n.z == 2.0 * (trig.cos(CalAngle(0)) - trig.cos(CalAngle(Triangles))) / 32.0
  {
    NormalSumTelescopes(trig, Triangles);
    var s := NormalSum(trig, Triangles);
    Vec3(s.x / 32.0, s.y / 32.0, s.z / 32.0)
  }

  /** With cos and sin agreeing after a full turn, the 32-face average has no
      horizontal part: it points straight up the cone's axis. */
  lemma CorrectedApexNormalVertical(trig: Trig)
    requires FullTurnAgrees(trig, 0, Triangles)
    ensures CorrectedApexNormal(trig).x == 0.0 && CorrectedApexNormal(trig).z == 0.0
  {
  }

  /** Normal of vertex k of triangle i. Flat: the face normal at every vertex.
      Smooth: the averaged normal at the apex, and (cos, 0, sin) at each rim
      point. The w component is 1 in both modes. */
  function VertexNormal(trig: Trig, smooth: bool, i: int, k: int): Vec4
    requires 0 <= k < 3
  {
    if !smooth then Extend(FaceNormalAsWritten(trig, i), 1.0)
    else if k == 0 then Extend(SmoothApexNormal(trig), 1.0)
    else
      var a := CalAngle(i + k - 1);
      Vec4(trig.cos(a), 0.0, trig.sin(a), 1.0)
  }

  /** The four floats of vertex k of triangle i in a buffer. */
  function Slot(s: seq<real>, i: int, k: int): Vec4
    requires 0 <= i && 0 <= k < 3 && 12 * i + 4 * k + 4 <= |s|
  {
    Vec4At(s, 12 * i + 4 * k)
  }

  datatype Buffers = Buffers(vertices: seq<real>, normals: seq<real>, colors: seq<real>)

  predicate Sized(b: Buffers)
  {
    |b.vertices| == Capacity && |b.normals| == Capacity && |b.colors| == Capacity
  }

  predicate VerticesLaid(trig: Trig, radius: real, v: seq<real>)
    requires |v| == Capacity
  {
    forall i, k :: 0 <= i < Triangles && 0 <= k < 3 ==> Slot(v, i, k) == ConeVertex(trig, radius, i, k)
  }

  predicate NormalsLaid(trig: Trig, smooth: bool, n: seq<real>)
    requires |n| == Capacity
  {
    forall i, k :: 0 <= i < Triangles && 0 <= k < 3 ==> Slot(n, i, k) == VertexNormal(trig, smooth, i, k)
  }

  /** Every written colour float is component idx mod 4 of the one colour. */
  predicate ColorsLaid(c: seq<real>)
    requires |c| == Capacity
  {
    forall idx :: 0 <= idx < WrittenColourFloats ==> c[idx] == MainColors[idx % 4]
  }

  /** The triangles' slots of a buffer are those of its written prefix. The
      fill methods build the 384 written floats and keep the old tail. */
  lemma SlotsOfPrefix(front: seq<real>, tail: seq<real>)
    requires |front| == WrittenFloats
    ensures forall i, k :: 0 <= i < Triangles && 0 <= k < 3 ==> Slot(front + tail, i, k) == Slot(front, i, k)
  {
  }

  /** Appending triangle i's twelve floats keeps the earlier slots and makes
      slot (i, k) the k-th group of four. */
  lemma AppendSlots(front: seq<real>, w: seq<real>, i: nat)
    requires |front| == 12 * i && |w| == 12
    ensures forall t, k :: 0 <= t < i && 0 <= k < 3 ==> Slot(front + w, t, k) == Slot(front, t, k)
    ensures forall k :: 0 <= k < 3 ==> Slot(front + w, i, k) == Vec4At(w, 4 * k)
  {
  }

  /** The vertex part of the main loop of updateBuffers(). Floats 384 .. 395
      are never written and keep what the buffer held. */
  method FillVertices(trig: Trig, radius: real, prev: seq<real>) returns (v: seq<real>)
    requires |prev| == Capacity
    ensures |v| == Capacity
    ensures VerticesLaid(trig, radius, v)
    ensures v[WrittenFloats..] == prev[WrittenFloats..]
  {
    var front: seq<real> := [];
    for i := 0 to Triangles
      invariant |front| == 12 * i
      invariant forall t, k :: 0 <= t < i && 0 <= k < 3 ==> Slot(front, t, k) == ConeVertex(trig, radius, t, k)
    {
      var c0, s0 := trig.cos(CalAngle(i)), trig.sin(CalAngle(i));
      var c1, s1 := trig.cos(CalAngle(i + 1)), trig.sin(CalAngle(i + 1));
      var w := [0.0, 1.0, 0.0, 1.0,
                radius * c0, -1.0, radius * s0, 1.0,
                radius * c1, -1.0, radius * s1, 1.0];
      AppendSlots(front, w, i);
      front := front + w;
      assert Slot(front, i, 0) == ConeVertex(trig, radius, i, 0);
      assert Slot(front, i, 1) == ConeVertex(trig, radius, i, 1);
      assert Slot(front, i, 2) == ConeVertex(trig, radius, i, 2);
    }
    v := front + prev[WrittenFloats..];
    SlotsOfPrefix(front, prev[WrittenFloats..]);
  }

  /** The normal part of the main loop of updateBuffers(), for either mode. */
  method FillNormals(trig: Trig, smooth: bool, prev: seq<real>) returns (n: seq<real>)
    requires |prev| == Capacity
    ensures |n| == Capacity
    ensures NormalsLaid(trig, smooth, n)
    ensures n[WrittenFloats..] == prev[WrittenFloats..]
  {
    var temp := AverageNormal(trig);
    var front: seq<real> := [];
    for i := 0 to Triangles
      invariant |front| == 12 * i
      invariant forall t, k :: 0 <= t < i && 0 <= k < 3 ==> Slot(front, t, k) == VertexNormal(trig, smooth, t, k)
    {
      var w;
      if !smooth {
        var f := FaceNormalAsWritten(trig, i);
        w := [f.x, f.y, f.z, 1.0,
              f.x, f.y, f.z, 1.0,
              f.x, f.y, f.z, 1.0];
      } else {
        var c0, s0 := trig.cos(CalAngle(i)), trig.sin(CalAngle(i));
        var c1, s1 := trig.cos(CalAngle(i + 1)), trig.sin(CalAngle(i + 1));
        w := [temp.x, temp.y, temp.z, 1.0,
              c0, 0.0, s0, 1.0,
              c1, 0.0, s1, 1.0];
      }
      AppendSlots(front, w, i);
      front := front + w;
      assert Slot(front, i, 0) == VertexNormal(trig, smooth, i, 0);
      assert Slot(front, i, 1) == VertexNormal(trig, smooth, i, 1);
      assert Slot(front, i, 2) == VertexNormal(trig, smooth, i, 2);
    }
    n := front + prev[WrittenFloats..];
    SlotsOfPrefix(front, prev[WrittenFloats..]);
  }

  lemma ColourOffset(i: int, p: int, m: int)
    requires 0 <= i && 0 <= p && 0 <= m < 4
    ensures (12 * i + 4 * p + m) % 4 == m
  {
    assert 12 * i + 4 * p + m == 4 * (3 * i + p) + m;
  }

  /** The colour part of the main loop of updateBuffers(): for each triangle,
      four vertices' worth of colour starting at float 12i. */
  method FillColors(prev: seq<real>) returns (c: seq<real>)
    requires |prev| == Capacity
    ensures |c| == Capacity
    ensures ColorsLaid(c)
    ensures c[WrittenColourFloats..] == prev[WrittenColourFloats..]
  {
    var a := new real[Capacity];
    forall idx | 0 <= idx < Capacity {
      a[idx] := prev[idx];
    }
    var written := 0;
    for i := 0 to Triangles
      invariant written == (if i == 0 then 0 else 12 * i + 4)
      invariant forall idx :: 0 <= idx < written ==> a[idx] == MainColors[idx % 4]
      invariant forall idx :: written <= idx < Capacity ==> a[idx] == prev[idx]
    {
      for p := 0 to 4
        invariant written == (if i == 0 && p == 0 then 0 else if p == 0 then 12 * i + 4 else 12 * i + 4 * p)
        invariant forall idx :: 0 <= idx < written ==> a[idx] == MainColors[idx % 4]
        invariant forall idx :: written <= idx < Capacity ==> a[idx] == prev[idx]
      {
        ColourOffset(i, p, 0);
        ColourOffset(i, p, 1);
        ColourOffset(i, p, 2);
        ColourOffset(i, p, 3);
        a[12 * i + 4 * p + 0] := MainColors[0];
        a[12 * i + 4 * p + 1] := MainColors[1];
        a[12 * i + 4 * p + 2] := MainColors[2];
        a[12 * i + 4 * p + 3] := MainColors[3];
        if written < 12 * i + 4 * p + 4 {
          written := 12 * i + 4 * p + 4;
        }
      }
    }
    c := a[..];
  }

  datatype Cone = Cone(radius: real, smooth: bool, buffers: Buffers)

  /** The buffers hold what a rebuild for the cone's radius and mode writes. */
  predicate Consistent(trig: Trig, c: Cone)
  {
    && Sized(c.buffers)
    && VerticesLaid(trig, c.radius, c.buffers.vertices)
    && NormalsLaid(trig, c.smooth, c.buffers.normals)
    && ColorsLaid(c.buffers.colors)
  }

  /** updateBuffers(): rebuild all three buffers for the cone's radius and
      shading mode; floats past the written ranges keep their old values. */
  method UpdateBuffers(trig: Trig, c: Cone) returns (c': Cone)
    requires Sized(c.buffers)
    ensures c'.radius == c.radius && c'.smooth == c.smooth
    ensures Consistent(trig, c')
    ensures c'.buffers.vertices[WrittenFloats..] == c.buffers.vertices[WrittenFloats..]
    ensures c'.buffers.normals[WrittenFloats..] == c.buffers.normals[WrittenFloats..]
    ensures c'.buffers.colors[WrittenColourFloats..] == c.buffers.colors[WrittenColourFloats..]
  {
    var v := FillVertices(trig, c.radius, c.buffers.vertices);
    var n := FillNormals(trig, c.smooth, c.buffers.normals);
    var col := FillColors(c.buffers.colors);
    c' := c.(buffers := Buffers(v, n, col));
  }

  /** Cone(): radius 1, flat shading, buffers built. `blank` stands for the
      uninitialised contents of the new object's arrays. */
  method NewCone(trig: Trig, blank: Buffers) returns (c: Cone)
    requires Sized(blank)
    ensures c.radius == 1.0 && !c.smooth
    ensures Consistent(trig, c)
  {
    c := UpdateBuffers(trig, Cone(1.0, false, blank));
  }

  /** Two buffers that agree on every vertex slot of the 32 triangles and on
      the unwritten tail are equal. */
  lemma SlotsDetermine(s1: seq<real>, s2: seq<real>)
    requires |s1| == Capacity && |s2| == Capacity
    requires forall i, k :: 0 <= i < Triangles && 0 <= k < 3 ==> Slot(s1, i, k) == Slot(s2, i, k)
    requires s1[WrittenFloats..] == s2[WrittenFloats..]
    ensures s1 == s2
  {
    forall idx | 0 <= idx < Capacity
      ensures s1[idx] == s2[idx]
    {
      if idx < WrittenFloats {
        var i, k, m := idx / 12, (idx % 12) / 4, idx % 4;
        assert idx == 12 * i + 4 * k + m;
        assert Slot(s1, i, k) == Slot(s2, i, k);
      } else {
        assert s1[idx] == s1[WrittenFloats..][idx - WrittenFloats];
      }
    }
  }

  /** Two colour buffers that were both laid out and agree on the unwritten
      tail are equal. */
  lemma ColorsDetermine(c1: seq<real>, c2: seq<real>)
    requires |c1| == Capacity && |c2| == Capacity
    requires ColorsLaid(c1) && ColorsLaid(c2)
    requires c1[WrittenColourFloats..] == c2[WrittenColourFloats..]
    ensures c1 == c2
  {
    forall idx | WrittenColourFloats <= idx < Capacity
      ensures c1[idx] == c2[idx]
    {
      assert c1[idx] == c1[WrittenColourFloats..][idx - WrittenColourFloats];
    }
  }

  /** updateBuffers(bool): store the mode, then rebuild. Switching the mode
      changes only the normals; setting the mode the cone already has changes
      nothing. */
  method SetShading(trig: Trig, c: Cone, smooth: bool) returns (c': Cone)
    requires Sized(c.buffers)
    ensures c'.smooth == smooth && c'.radius == c.radius
    ensures Consistent(trig, c')
    ensures Consistent(trig, c) ==> c'.buffers.vertices == c.buffers.vertices && c'.buffers.colors == c.buffers.colors
    ensures Consistent(trig, c) && smooth == c.smooth ==> c' == c
  {
    c' := UpdateBuffers(trig, c.(smooth := smooth));
    if Consistent(trig, c) {
      SlotsDetermine(c'.buffers.vertices, c.buffers.vertices);
      ColorsDetermine(c'.buffers.colors, c.buffers.colors);
      if smooth == c.smooth {
        SlotsDetermine(c'.buffers.normals, c.buffers.normals);
      }
    }
  }

  /** In flat mode the three normals of a triangle are the program's face
      normal with w = 1. At radius 1 that vector is orthogonal to both edges
      of the triangle that leave the apex as laid out in the vertex buffer;
      at any other radius it is not orthogonal to the first of them, unless
      the two rim points are at parallel angles. */
  lemma FlatNormalsAreFaceNormals(trig: Trig, c: Cone, i: int)
    requires Consistent(trig, c) && !c.smooth
    requires 0 <= i < Triangles
    ensures forall k :: 0 <= k < 3 ==> Slot(c.buffers.normals, i, k) == Extend(FaceNormalAsWritten(trig, i), 1.0)
    ensures c.radius == 1.0 ==>
              var n := Slot(c.buffers.normals, i, 0);
              var v := c.buffers.vertices;
              forall k :: 1 <= k < 3 ==>
                Dot(Vec3(n.x, n.y, n.z), Sub(Vec3(Slot(v, i, k).x, Slot(v, i, k).y, Slot(v, i, k).z), Apex)) == 0.0
    ensures c.radius != 1.0 &&
            trig.cos(CalAngle(i)) * trig.sin(CalAngle(i + 1)) != trig.cos(CalAngle(i + 1)) * trig.sin(CalAngle(i)) ==>
              var n := Slot(c.buffers.normals, i, 0);
              var v := Slot(c.buffers.vertices, i, 1);
              Dot(Vec3(n.x, n.y, n.z), Sub(Vec3(v.x, v.y, v.z), Apex)) != 0.0
  {
    var n := c.buffers.normals;
    var v := c.buffers.vertices;
    assert Slot(n, i, 0) == VertexNormal(trig, false, i, 0);
    assert Slot(n, i, 1) == VertexNormal(trig, false, i, 1);
    assert Slot(n, i, 2) == VertexNormal(trig, false, i, 2);
    assert Slot(v, i, 1) == ConeVertex(trig, c.radius, i, 1);
    assert Slot(v, i, 2) == ConeVertex(trig, c.radius, i, 2);
    assert Sub(Vec3(Slot(v, i, 1).x, Slot(v, i, 1).y, Slot(v, i, 1).z), Apex) == Edge(trig, c.radius, i);
    assert Sub(Vec3(Slot(v, i, 2).x, Slot(v, i, 2).y, Slot(v, i, 2).z), Apex) == Edge(trig, c.radius, i + 1);
    if c.radius == 1.0 {
      AsWrittenIsUnitRadiusFaceNormal(trig, i);
    } else if trig.cos(CalAngle(i)) * trig.sin(CalAngle(i + 1)) != trig.cos(CalAngle(i + 1)) * trig.sin(CalAngle(i)) {
      AsWrittenFaceNormalNotOrthogonal(trig, c.radius, i);
    }
  }

  /** In smooth mode every triangle's apex carries the same averaged normal;
      each rim normal is horizontal (y = 0), points the same way as its rim
      vertex (scaled by the radius), and is the same for the two triangles
      that share that rim point. */
  lemma SmoothNormalsShared(trig: Trig, c: Cone, i: int)
    requires Consistent(trig, c) && c.smooth
    requires 0 <= i < Triangles
    ensures Slot(c.buffers.normals, i, 0) == Slot(c.buffers.normals, 0, 0) == Extend(SmoothApexNormal(trig), 1.0)
    ensures forall k :: 1 <= k < 3 ==>
              var n := Slot(c.buffers.normals, i, k);
              var v := Slot(c.buffers.vertices, i, k);
              n.y == 0.0 && n.w == 1.0 && c.radius * n.x == v.x && c.radius * n.z == v.z
    ensures i + 1 < Triangles ==> Slot(c.buffers.normals, i, 2) == Slot(c.buffers.normals, i + 1, 1)
  {
    var n := c.buffers.normals;
    var v := c.buffers.vertices;
    assert Slot(n, i, 0) == VertexNormal(trig, true, i, 0);
    assert Slot(n, 0, 0) == VertexNormal(trig, true, 0, 0);
    assert Slot(n, i, 1) == VertexNormal(trig, true, i, 1);
    assert Slot(n, i, 2) == VertexNormal(trig, true, i, 2);
    assert Slot(v, i, 1) == ConeVertex(trig, c.radius, i, 1);
    assert Slot(v, i, 2) == ConeVertex(trig, c.radius, i, 2);
    if i + 1 < Triangles {
      assert Slot(n, i + 1, 1) == VertexNormal(trig, true, i + 1, 1);
    }
  }

  /** The draw count 32*3 is the number of vertices a rebuild writes, and
      those vertices fit in the buffers. */
  lemma DrawCountMatchesWrites()
    ensures DrawCount * 4 == WrittenFloats
    ensures WrittenFloats <= Capacity && WrittenColourFloats <= Capacity
  {
  }
}

/**
 The five-sided indexed cylinder: five quads around the y axis, four
 three-float vertices per quad (bottom and top at angle i, then bottom and
 top at angle i + 1), two triangles per quad in an index buffer, and a
 two-float texture coordinate per vertex that wraps the texture once around.
 */
module IndexedCylinder {
  import opened Geometry

  /** The five sides, at angles 2*pi*i/5. */
  const Sides: nat := 5

  /** Declared sizes of vertices[60], texCoords[40] and indices[30]. */
  const VertexFloats: nat := 60
  const TexcoordFloats: nat := 40
  const IndexSlots: nat := 30

  /** Three floats per vertex, so vertices[60] holds 20 vertices. */
  const VertexCount: nat := VertexFloats / 3

  /** glDrawElements(GL_TRIANGLES, 30, ...) */
  const DrawCount: nat := 30

  const Radius: real := 1.0

  /** Vertex m (0 .. 3) of quad i: angle index i for m = 0, 1 and i + 1 for
      m = 2, 3; bottom (y = -1) for even m, top (y = 1) for odd m. */
  function QuadVertex(trig: Trig, i: int, m: int): Vec3
    requires 0 <= m < 4
  {
    var angle := Angle(i + m / 2, Sides);
    Vec3(Radius * trig.cos(angle), if m % 2 == 0 then -1.0 else 1.0, Radius * trig.sin(angle))
  }

  /** Texture coordinate of vertex m of quad i: u = 0.2 per side along the
      circumference, v = 0 at the bottom and 1 at the top. */
  function QuadTexcoord(i: int, m: int): Vec2
    requires 0 <= m < 4
  {
    Vec2(0.2 * (i + m / 2) as real, if m % 2 == 0 then 0.0 else 1.0)
  }

  /** The six indices of quad i: triangles (4i, 4i+1, 4i+2) and (4i+1, 4i+2, 4i+3). */
  function QuadIndices(i: nat): seq<nat>
  {
    [4 * i, 4 * i + 1, 4 * i + 2, 4 * i + 1, 4 * i + 2, 4 * i + 3]
  }

  /** Vertex m of quad i in the flat vertex array, vertex 4i + m. */
  function Corner(vs: seq<real>, i: int, m: int): Vec3
    requires 0 <= i && 0 <= m < 4 && 12 * i + 3 * m + 3 <= |vs|
  {
    Vec3At(vs, 12 * i + 3 * m)
  }

  /** Texture coordinate of vertex 4i + m in the flat texcoord array. */
  function CornerTexcoord(ts: seq<real>, i: int, m: int): Vec2
    requires 0 <= i && 0 <= m < 4 && 8 * i + 2 * m + 2 <= |ts|
  {
    Vec2At(ts, 8 * i + 2 * m)
  }

  datatype Buffers = Buffers(vertices: seq<real>, indices: seq<nat>, texCoords: seq<real>)

  /** The vertex writes of initBuffers(): twelve floats per quad at 12i. */
  method FillVertices(trig: Trig) returns (vs: seq<real>)
    ensures |vs| == VertexFloats
    ensures forall i, m :: 0 <= i < Sides && 0 <= m < 4 ==> Corner(vs, i, m) == QuadVertex(trig, i, m)
  {
    vs := [];
    for i := 0 to Sides
      invariant |vs| == 12 * i
      invariant forall t, m :: 0 <= t < i && 0 <= m < 4 ==> Corner(vs, t, m) == QuadVertex(trig, t, m)
    {
      var c0, s0 := Radius * trig.cos(Angle(i, Sides)), Radius * trig.sin(Angle(i, Sides));
      var c1, s1 := Radius * trig.cos(Angle(i + 1, Sides)), Radius * trig.sin(Angle(i + 1, Sides));
      var w := [c0, -1.0, s0, c0, 1.0, s0, c1, -1.0, s1, c1, 1.0, s1];
      assert forall t, m :: 0 <= t < i && 0 <= m < 4 ==> Corner(vs + w, t, m) == Corner(vs, t, m);
      vs := vs + w;
      assert Corner(vs, i, 0) == QuadVertex(trig, i, 0);
      assert Corner(vs, i, 1) == QuadVertex(trig, i, 1);
      assert Corner(vs, i, 2) == QuadVertex(trig, i, 2);
      assert Corner(vs, i, 3) == QuadVertex(trig, i, 3);
    }
  }

  /** The index writes of initBuffers(): six indices per quad at 6i. */
  method FillIndices() returns (ix: seq<nat>)
    ensures |ix| == IndexSlots
    ensures forall i :: 0 <= i < Sides ==> ix[6 * i .. 6 * i + 6] == QuadIndices(i)
  {
    ix := [];
    for i := 0 to Sides
      invariant |ix| == 6 * i
      invariant forall t :: 0 <= t < i ==> ix[6 * t .. 6 * t + 6] == QuadIndices(t)
    {
      var q := [4 * i, 4 * i + 1, 4 * i + 2, 4 * i + 1, 4 * i + 2, 4 * i + 3];
      assert forall t :: 0 <= t < i ==> (ix + q)[6 * t .. 6 * t + 6] == ix[6 * t .. 6 * t + 6];
      ix := ix + q;
      assert ix[6 * i .. 6 * i + 6] == q;
    }
  }

  /** The texture-coordinate writes of initBuffers(): eight floats per quad at 8i. */
  method FillTexcoords() returns (ts: seq<real>)
    ensures |ts| == TexcoordFloats
    ensures forall i, m :: 0 <= i < Sides && 0 <= m < 4 ==> CornerTexcoord(ts, i, m) == QuadTexcoord(i, m)
  {
    ts := [];
    for i := 0 to Sides
      invariant |ts| == 8 * i
      invariant forall t, m :: 0 <= t < i && 0 <= m < 4 ==> CornerTexcoord(ts, t, m) == QuadTexcoord(t, m)
    {
      var u0, u1 := 0.2 * i as real, 0.2 * (i + 1) as real;
      var tw := [u0, 0.0, u0, 1.0, u1, 0.0, u1, 1.0];
      assert forall t, m :: 0 <= t < i && 0 <= m < 4 ==> CornerTexcoord(ts + tw, t, m) == CornerTexcoord(ts, t, m);
      ts := ts + tw;
      assert CornerTexcoord(ts, i, 0) == QuadTexcoord(i, 0);
      assert CornerTexcoord(ts, i, 1) == QuadTexcoord(i, 1);
      assert CornerTexcoord(ts, i, 2) == QuadTexcoord(i, 2);
      assert CornerTexcoord(ts, i, 3) == QuadTexcoord(i, 3);
    }
  }

  /** initBuffers(): the loop over the five quads fills all three arrays;
      every slot of every array is written. */
  method InitBuffers(trig: Trig) returns (b: Buffers)
    ensures Laid(trig, b)
  {
    var vs := FillVertices(trig);
    var ix := FillIndices();
    var ts := FillTexcoords();
    b := Buffers(vs, ix, ts);
  }

  /** Buffers as initBuffers() leaves them. */
  predicate Laid(trig: Trig, b: Buffers)
  {
    && |b.vertices| == VertexFloats && |b.indices| == IndexSlots && |b.texCoords| == TexcoordFloats
    && (forall i, m :: 0 <= i < Sides && 0 <= m < 4 ==> Corner(b.vertices, i, m) == QuadVertex(trig, i, m))
    && (forall i :: 0 <= i < Sides ==> b.indices[6 * i .. 6 * i + 6] == QuadIndices(i))
    && (forall i, m :: 0 <= i < Sides && 0 <= m < 4 ==> CornerTexcoord(b.texCoords, i, m) == QuadTexcoord(i, m))
  }

  /** The draw call covers exactly the written index slots, and every index
      names one of the 20 vertices of vertices[60]; more precisely, index slot
      j names a vertex of quad j / 6. */
  lemma IndicesInRange(trig: Trig, b: Buffers)
    requires Laid(trig, b)
    ensures DrawCount == |b.indices|
    ensures forall j :: 0 <= j < |b.indices| ==> b.indices[j] < VertexCount
    ensures forall j :: 0 <= j < |b.indices| ==> 4 * (j / 6) <= b.indices[j] < 4 * (j / 6) + 4
  {
    forall j | 0 <= j < |b.indices|
      ensures 4 * (j / 6) <= b.indices[j] < 4 * (j / 6) + 4
    {
      var i, r := j / 6, j % 6;
      assert j == 6 * i + r;
      assert b.indices[6 * i .. 6 * i + 6] == QuadIndices(i);
      assert b.indices[j] == b.indices[6 * i .. 6 * i + 6][r];
    }
  }

  /** The two triangles of a quad share the diagonal (4i+1, 4i+2) and together
      use all four of the quad's vertices, each triangle three distinct ones. */
  lemma QuadTriangulation(i: nat)
    ensures var q := QuadIndices(i);
            && {q[0], q[1], q[2]} * {q[3], q[4], q[5]} == {4 * i + 1, 4 * i + 2}
            && {q[0], q[1], q[2]} + {q[3], q[4], q[5]} == {4 * i, 4 * i + 1, 4 * i + 2, 4 * i + 3}
            && |{q[0], q[1], q[2]}| == 3 && |{q[3], q[4], q[5]}| == 3
  {
  }

  /** Vertices 4i and 4i+1 share angle i, vertices 4i+2 and 4i+3 share angle
      i+1, each pair bottom then top; and a quad's far edge is the next quad's
      near edge, in position and in texture u. */
  lemma QuadEdges(trig: Trig, b: Buffers, i: int)
    requires Laid(trig, b)
    requires 0 <= i < Sides
    ensures var v := b.vertices;
            && Corner(v, i, 0).x == Corner(v, i, 1).x && Corner(v, i, 0).z == Corner(v, i, 1).z
            && Corner(v, i, 2).x == Corner(v, i, 3).x && Corner(v, i, 2).z == Corner(v, i, 3).z
            && Corner(v, i, 0).y == -1.0 && Corner(v, i, 1).y == 1.0
            && Corner(v, i, 2).y == -1.0 && Corner(v, i, 3).y == 1.0
    ensures i + 1 < Sides ==>
              && Corner(b.vertices, i, 2) == Corner(b.vertices, i + 1, 0)
              && Corner(b.vertices, i, 3) == Corner(b.vertices, i + 1, 1)
              && CornerTexcoord(b.texCoords, i, 2) == CornerTexcoord(b.texCoords, i + 1, 0)
  {
    assert Corner(b.vertices, i, 0) == QuadVertex(trig, i, 0);
    assert Corner(b.vertices, i, 1) == QuadVertex(trig, i, 1);
    assert Corner(b.vertices, i, 2) == QuadVertex(trig, i, 2);
    assert Corner(b.vertices, i, 3) == QuadVertex(trig, i, 3);
    if i + 1 < Sides {
      assert Corner(b.vertices, i + 1, 0) == QuadVertex(trig, i + 1, 0);
      assert Corner(b.vertices, i + 1, 1) == QuadVertex(trig, i + 1, 1);
      assert CornerTexcoord(b.texCoords, i, 2) == QuadTexcoord(i, 2);
      assert CornerTexcoord(b.texCoords, i + 1, 0) == QuadTexcoord(i + 1, 0);
    }
  }

  /** Each vertex's texture v is (y + 1) / 2, and every u lies in [0, 1],
      running from 0 at the first vertex to 1 at the last. */
  lemma TexcoordsFollowVertices(trig: Trig, b: Buffers)
    requires Laid(trig, b)
    ensures forall i, m :: 0 <= i < Sides && 0 <= m < 4 ==>
              CornerTexcoord(b.texCoords, i, m).v == (Corner(b.vertices, i, m).y + 1.0) / 2.0
    ensures forall i, m :: 0 <= i < Sides && 0 <= m < 4 ==>
              0.0 <= CornerTexcoord(b.texCoords, i, m).u <= 1.0
    ensures CornerTexcoord(b.texCoords, 0, 0).u == 0.0 && CornerTexcoord(b.texCoords, Sides - 1, 3).u == 1.0
  {
    forall i, m | 0 <= i < Sides && 0 <= m < 4
      ensures CornerTexcoord(b.texCoords, i, m).v == (Corner(b.vertices, i, m).y + 1.0) / 2.0
      ensures 0.0 <= CornerTexcoord(b.texCoords, i, m).u <= 1.0
    {
      assert Corner(b.vertices, i, m) == QuadVertex(trig, i, m);
      assert CornerTexcoord(b.texCoords, i, m) == QuadTexcoord(i, m);
      assert 0 <= i + m / 2 <= 5;
    }
    assert CornerTexcoord(b.texCoords, 0, 0) == QuadTexcoord(0, 0);
    assert CornerTexcoord(b.texCoords, Sides - 1, 3) == QuadTexcoord(Sides - 1, 3);
  }
}

/**
 The subdivided cylinder: 2^N slices around the y axis (N in [2, 6]), each
 slice two triangles of three-float vertices, with a normal, a colour and a
 texture coordinate per vertex. The last slice closes the seam by reusing
 angle 0 and texture u = 1.

 Two defects of the program are recorded here and corrected in the buffers
 the model builds: the texture-coordinate array is sized for 32 slices, but
 N = 6 gives 64 (TexcoordCapacity), and the colour counter runs modulo 6 over
 a five-colour table. The model keeps the counter and gives the table the
 sixth colour it expects (CorrectedColors), so every slice whose colour the
 program reads inside its table keeps that colour.
 */
module SubdividedCylinder {
  import opened Geometry
  import opened Results

  const MinN: int := 2
  const MaxN: int := 6

  /** vertices[1152], normal[1152], colors[1152]: 64 slices * 2 * 3 * 3. */
  const VertexCapacity: nat := 1152

  /** texcoords[384] as declared: enough for 32 slices only. */
  const TexcoordCapacityAsWritten: nat := 384

  /** 64 slices * 2 triangles * 3 vertices * 2 floats. */
  const TexcoordCapacity: nat := 768

  /** mainColors as declared: five colours, three floats each. */
  const MainColors: seq<real> := [
    0.7, 0.0, 0.0,
    0.7, 0.7, 0.0,
    0.0, 0.7, 0.7,
    0.0, 0.0, 0.7,
    0.7, 0.0, 0.7
  ]

  /** The six colours the counter modulo 6 expects: the declared five, then
      the green that the six-colour table of the colour-cycling cone has and
      this one lacks. */
  const CorrectedColors: seq<real> := [
    0.7, 0.0, 0.0,
    0.7, 0.7, 0.0,
    0.0, 0.7, 0.7,
    0.0, 0.0, 0.7,
    0.7, 0.0, 0.7,
    0.0, 0.7, 0.0
  ]
  const ColourCount: nat := 6
  const Green: Vec3 := Vec3(0.0, 0.7, 0.0)

  /** pow(2.0, N) cast to int, exact for the N the program accepts. */
  function Pow2(n: nat): (p: nat)
    ensures p >= 1
  {
    if n == 0 then 1 else 2 * Pow2(n - 1)
  }

  lemma {:induction false} Pow2Bounds(n: nat)
    requires n <= MaxN
    ensures Pow2(n) <= Pow2(MaxN) == 64
    ensures n >= 3 ==> Pow2(n) >= 8
  {
    if n < MaxN {
      Pow2Monotone(n, MaxN);
    }
    if n >= 3 {
      Pow2Monotone(3, n);
    }
  }

  lemma {:induction false} Pow2Monotone(m: nat, n: nat)
    requires m <= n
    ensures Pow2(m) <= Pow2(n)
    decreases n - m
  {
    if m < n {
      Pow2Monotone(m, n - 1);
    }
  }

  /** N, numSubdiv, numVertices, radius and height of a cylinder. */
  datatype Config = Config(n: int, numSubdiv: nat, numVertices: nat, radius: real, height: real)

  predicate ValidConfig(cfg: Config)
  {
    && MinN <= cfg.n <= MaxN
    && cfg.numSubdiv == Pow2(cfg.n)
    && cfg.numVertices == cfg.numSubdiv * 6
  }

  datatype ConstructError = IllegalN(n: int)

  /** Cylinder(int N, float radius, float height): an N outside [2, 6] is
      rejected (the program prints the range and exits); otherwise 2^N
      slices of six vertices each. */
  function Configure(n: int, radius: real, height: real): (r: Result<Config, ConstructError>)
    ensures r.Ok? <==> MinN <= n <= MaxN
    ensures r.Err? ==> r.error == IllegalN(n)
    ensures r.Ok? ==> ValidConfig(r.value) && r.value.n == n && r.value.radius == radius && r.value.height == height
  {
    if n < MinN || MaxN < n then Err(IllegalN(n))
    else
      var subdiv := Pow2(n);
      Ok(Config(n, subdiv, subdiv * 6, radius, height))
  }

  /** Cylinder(): N = 2, radius 1, height 1. */
  const DefaultConfig: Config := Config(MinN, Pow2(MinN), Pow2(MinN) * 6, 1.0, 1.0)

  /** The default cylinder is the checked constructor at N = 2, radius 1 and
      height 1: four slices, 24 vertices. */
  lemma DefaultIsMinimal()
    ensures Configure(MinN, 1.0, 1.0) == Ok(DefaultConfig)
    ensures DefaultConfig.numSubdiv == 4 && DefaultConfig.numVertices == 24
  {
  }

  /** Every accepted N writes at most the declared 1152 floats of the position,
      normal and colour arrays (exactly 1152 at N = 6), and the vertex count
      handed to glDrawArrays is the number of vertices written. */
  lemma VertexWritesFit(cfg: Config)
    requires ValidConfig(cfg)
    ensures 18 * cfg.numSubdiv <= VertexCapacity
    ensures cfg.n == MaxN ==> 18 * cfg.numSubdiv == VertexCapacity
    ensures 3 * cfg.numVertices == 18 * cfg.numSubdiv
    ensures 12 * cfg.numSubdiv <= TexcoordCapacity
  {
    Pow2Bounds(cfg.n);
  }

  /** The texture-coordinate writes of slice i end at float 12i + 11, so the
      array as declared holds them exactly when N <= 5; N = 6 is accepted by
      the constructor and writes 384 floats past the end. */
  lemma TexcoordOverflowAsWritten(cfg: Config)
    requires ValidConfig(cfg)
    ensures 12 * cfg.numSubdiv <= TexcoordCapacityAsWritten <==> cfg.n <= 5
    ensures cfg.n == MaxN ==> 12 * cfg.numSubdiv - TexcoordCapacityAsWritten == 384
  {
    if cfg.n <= 5 {
      Pow2Monotone(cfg.n, 5);
    } else {
      assert cfg.n == 6;
    }
  }

  /** One of the six vertices of a slice: on the slice's near (angle i) or far
      edge, at the top or the bottom. */
  datatype Corner = Corner(far: bool, top: bool)

  /** First triangle: near top, near bottom, far top. Second triangle: far
      top, near bottom, far bottom. */
  const SliceCorners: seq<Corner> := [
    Corner(false, true), Corner(false, false), Corner(true, true),
    Corner(true, true), Corner(false, false), Corner(true, false)
  ]

  /** The angle index of a slice's far edge: phi is 0 for the last slice. */
  function FarStep(numSubdiv: nat, i: int): int
  {
    if i == numSubdiv - 1 then 0 else i + 1
  }

  function EdgeStep(cfg: Config, i: int, c: Corner): int
  {
    if c.far then FarStep(cfg.numSubdiv, i) else i
  }

  function CornerPosition(trig: Trig, cfg: Config, i: int, c: Corner): Vec3
  {
    var angle := Angle(EdgeStep(cfg, i, c), cfg.numSubdiv);
    var halfHeight := cfg.height / 2.0;
    Vec3(cfg.radius * trig.cos(angle), if c.top then halfHeight else -halfHeight, cfg.radius * trig.sin(angle))
  }

  /** texStep = 1 / numSubdiv; curTex after i slices. Float accumulation
      error is not modelled. */
  function TexStep(cfg: Config): real
    requires cfg.numSubdiv > 0
  {
    1.0 / cfg.numSubdiv as real
  }

  function CurTex(cfg: Config, i: int): real
    requires cfg.numSubdiv > 0
  {
    i as real * TexStep(cfg)
  }

  /** nextTex: 1 for the last slice, else curTex + texStep. */
  function NextTex(cfg: Config, i: int): real
    requires cfg.numSubdiv > 0
  {
    if i == cfg.numSubdiv - 1 then 1.0 else CurTex(cfg, i) + TexStep(cfg)
  }

  function CornerTexcoord(cfg: Config, i: int, c: Corner): Vec2
    requires cfg.numSubdiv > 0
  {
    Vec2(if c.far then NextTex(cfg, i) else CurTex(cfg, i), if c.top then 1.0 else 0.0)
  }

  /** The program's colour read: slot 3 * (i mod 6), three floats, or None
      where that read leaves the 15-float table. */
  function SliceColourAsWritten(i: nat): Option<Vec3>
  {
    var k := 3 * (i % 6);
    if k + 2 < |MainColors| then Some(Vec3At(MainColors, k)) else None
  }

  /** The colour of slice i: entry i mod 6 of the six-colour table. Wherever
      the program's read stays inside its own table this is the colour it
      reads; where the read leaves the table, it is the sixth colour. */
  function SliceColour(i: nat): (c: Vec3)
    ensures 3 * (i % ColourCount) + 2 < |CorrectedColors|
    ensures SliceColourAsWritten(i).Some? ==> SliceColourAsWritten(i).value == c
    ensures SliceColourAsWritten(i).None? ==> c == Green
  {
    Vec3At(CorrectedColors, 3 * (i % ColourCount))
  }

  /** The program reads past the colour table for some slice exactly when
      N >= 3: slice 5 reads floats 15 .. 17, and there are at least eight
      slices from N = 3 on. */
  lemma ColourOverrunAsWritten(cfg: Config)
    requires ValidConfig(cfg)
    ensures (exists i :: 0 <= i < cfg.numSubdiv && SliceColourAsWritten(i).None?) <==> cfg.n >= 3
  {
    Pow2Bounds(cfg.n);
    if cfg.n >= 3 {
      assert SliceColourAsWritten(5).None?;
    } else {
      assert cfg.numSubdiv == 4;
      forall i | 0 <= i < cfg.numSubdiv
        ensures SliceColourAsWritten(i).Some?
      {
        assert i % 6 == i;
      }
    }
  }

  /** The program's read stays in its table exactly for the slices whose
      counter is not 5, and there it agrees with the corrected colour: so for
      all of N = 2, and for five slices in every six from N = 3 on. */
  lemma ColourAsWrittenAgreesInBounds(i: nat)
    ensures SliceColourAsWritten(i).Some? <==> i % 6 != 5
    ensures SliceColourAsWritten(i).Some? ==> SliceColourAsWritten(i) == Some(SliceColour(i))
  {
  }

  /** Consecutive slices are coloured differently. */
  lemma NeighbourSlicesDiffer(i: nat)
    ensures SliceColour(i) != SliceColour(i + 1)
  {
    var a, b := i % ColourCount, (i + 1) % ColourCount;
    assert a != b;
    assert CorrectedColors[3 * a .. 3 * a + 3] != CorrectedColors[3 * b .. 3 * b + 3] by {
      ColourEntriesDistinct(a, b);
    }
  }

  /** The slices meeting at the seam, the last one and slice 0, are
      coloured differently too: 2^N - 1 is odd, so its counter is 1 or 3. */
  lemma SeamSlicesDiffer(cfg: Config)
    requires ValidConfig(cfg)
    ensures SliceColour(cfg.numSubdiv - 1) != SliceColour(0)
  {
    assert cfg.numSubdiv == 2 * Pow2(cfg.n - 1);
    var a := (cfg.numSubdiv - 1) % ColourCount;
    assert a % 2 == 1;
    ColourEntriesDistinct(a, 0);
  }

  lemma ColourEntriesDistinct(a: nat, b: nat)
    requires a < ColourCount && b < ColourCount && a != b
    ensures Vec3At(CorrectedColors, 3 * a) != Vec3At(CorrectedColors, 3 * b)
    ensures CorrectedColors[3 * a .. 3 * a + 3] != CorrectedColors[3 * b .. 3 * b + 3]
  {
    assert CorrectedColors[3 * a .. 3 * a + 3] == [CorrectedColors[3 * a], CorrectedColors[3 * a + 1], CorrectedColors[3 * a + 2]];
    assert CorrectedColors[3 * b .. 3 * b + 3] == [CorrectedColors[3 * b], CorrectedColors[3 * b + 1], CorrectedColors[3 * b + 2]];
  }

  /** The three floats of vertex k of slice i in a position, normal or colour
      array. */
  function Slot(s: seq<real>, i: int, k: int): Vec3
    requires 0 <= i && 0 <= k < 6 && 18 * i + 3 * k + 3 <= |s|
  {
    Vec3At(s, 18 * i + 3 * k)
  }

  /** The two floats of vertex k of slice i in the texture-coordinate array. */
  function TexSlot(s: seq<real>, i: int, k: int): Vec2
    requires 0 <= i && 0 <= k < 6 && 12 * i + 2 * k + 2 <= |s|
  {
    Vec2At(s, 12 * i + 2 * k)
  }

  predicate PositionsLaid(trig: Trig, cfg: Config, v: seq<real>)
    requires 18 * cfg.numSubdiv <= |v|
  {
    forall i, k :: 0 <= i < cfg.numSubdiv && 0 <= k < 6 ==>
      Slot(v, i, k) == CornerPosition(trig, cfg, i, SliceCorners[k])
  }

  predicate ColorsLaid(cfg: Config, c: seq<real>)
    requires 18 * cfg.numSubdiv <= |c|
  {
    forall i, k :: 0 <= i < cfg.numSubdiv && 0 <= k < 6 ==> Slot(c, i, k) == SliceColour(i)
  }

  predicate TexcoordsLaid(cfg: Config, t: seq<real>)
    requires cfg.numSubdiv > 0 && 12 * cfg.numSubdiv <= |t|
  {
    forall i, k :: 0 <= i < cfg.numSubdiv && 0 <= k < 6 ==>
      TexSlot(t, i, k) == CornerTexcoord(cfg, i, SliceCorners[k])
  }

  /** Appending a slice's group of floats keeps the earlier slices' slots. */
  lemma AppendSlots(front: seq<real>, w: seq<real>, i: nat)
    requires |front| == 18 * i && |w| == 18
    ensures forall t, k :: 0 <= t < i && 0 <= k < 6 ==> Slot(front + w, t, k) == Slot(front, t, k)
    ensures forall k :: 0 <= k < 6 ==> Slot(front + w, i, k) == Vec3At(w, 3 * k)
  {
  }

  lemma AppendTexSlots(front: seq<real>, w: seq<real>, i: nat)
    requires |front| == 12 * i && |w| == 12
    ensures forall t, k :: 0 <= t < i && 0 <= k < 6 ==> TexSlot(front + w, t, k) == TexSlot(front, t, k)
    ensures forall k :: 0 <= k < 6 ==> TexSlot(front + w, i, k) == Vec2At(w, 2 * k)
  {
  }

  /** The triangles' slots of an array are those of its written prefix. */
  lemma SlotsOfPrefix(front: seq<real>, tail: seq<real>, n: nat)
    requires |front| == 18 * n
    ensures forall t, k :: 0 <= t < n && 0 <= k < 6 ==> Slot(front + tail, t, k) == Slot(front, t, k)
  {
  }

  /** The 18 floats the program writes for slice i, vertex by vertex. */
  function SliceFloats(x0: real, z0: real, x1: real, z1: real, halfHeight: real): seq<real>
  {
    [x0, halfHeight, z0, x0, -halfHeight, z0, x1, halfHeight, z1,
     x1, halfHeight, z1, x0, -halfHeight, z0, x1, -halfHeight, z1]
  }

  /** Slice i's 18 floats as the loop body computes them: x = radius * cos
      and z = radius * sin of theta (angle i) and of phi (angle i + 1, or 0
      for the last slice), and y = +/- height / 2. */
  function SliceFloatsOf(trig: Trig, cfg: Config, i: int): seq<real>
  {
    var theta := Angle(i, cfg.numSubdiv);
    var phi := Angle(if i == cfg.numSubdiv - 1 then 0 else i + 1, cfg.numSubdiv);
    SliceFloats(cfg.radius * trig.cos(theta), cfg.radius * trig.sin(theta),
                cfg.radius * trig.cos(phi), cfg.radius * trig.sin(phi), cfg.height / 2.0)
  }

  /** Slice i's 18 floats hold the six corner positions in order. */
  lemma SliceFloatsArePositions(trig: Trig, cfg: Config, i: int)
    ensures var w := SliceFloatsOf(trig, cfg, i);
            |w| == 18 && forall k :: 0 <= k < 6 ==> Vec3At(w, 3 * k) == CornerPosition(trig, cfg, i, SliceCorners[k])
  {
  }

  /** Appending slice i's floats to the positions of slices 0 .. i-1 gives
      the positions of slices 0 .. i. */
  lemma AppendPositions(trig: Trig, cfg: Config, front: seq<real>, i: nat)
    requires |front| == 18 * i
    requires forall t, k :: 0 <= t < i && 0 <= k < 6 ==> Slot(front, t, k) == CornerPosition(trig, cfg, t, SliceCorners[k])
    ensures var f := front + SliceFloatsOf(trig, cfg, i);
            |f| == 18 * (i + 1) &&
            forall t, k :: 0 <= t < i + 1 && 0 <= k < 6 ==> Slot(f, t, k) == CornerPosition(trig, cfg, t, SliceCorners[k])
  {
    var w := SliceFloatsOf(trig, cfg, i);
    SliceFloatsArePositions(trig, cfg, i);
    AppendSlots(front, w, i);
  }

  /** The position and normal writes of updateBuffers(): 18 floats per slice
      at j = 18i, each normal float a copy of the position float at the same
      index; floats past 18 * numSubdiv keep what the arrays held. */
  method FillPositions(trig: Trig, cfg: Config, prevV: seq<real>, prevN: seq<real>) returns (v: seq<real>, nrm: seq<real>)
    requires ValidConfig(cfg)
    requires |prevV| == VertexCapacity && |prevN| == VertexCapacity
    ensures |v| == VertexCapacity && |nrm| == VertexCapacity && 18 * cfg.numSubdiv <= VertexCapacity
    ensures PositionsLaid(trig, cfg, v)
    ensures nrm[..18 * cfg.numSubdiv] == v[..18 * cfg.numSubdiv]
    ensures v[18 * cfg.numSubdiv..] == prevV[18 * cfg.numSubdiv..]
    ensures nrm[18 * cfg.numSubdiv..] == prevN[18 * cfg.numSubdiv..]
  {
    VertexWritesFit(cfg);
    var halfHeight := cfg.height / 2.0;
    var front: seq<real> := [];
    var frontN: seq<real> := [];
    for i := 0 to cfg.numSubdiv
      invariant |front| == 18 * i && frontN == front
      invariant forall t, k :: 0 <= t < i && 0 <= k < 6 ==> Slot(front, t, k) == CornerPosition(trig, cfg, t, SliceCorners[k])
    {
      var w := SliceFloatsOf(trig, cfg, i);
      var wn := [w[0], halfHeight, w[2], w[0], -halfHeight, w[2], w[6], halfHeight, w[8],
                 w[6], w[7], w[8], w[3], w[4], w[5], w[6], -halfHeight, w[8]];
      assert wn == w;
      AppendPositions(trig, cfg, front, i);
      front, frontN := front + w, frontN + wn;
    }
    v := front + prevV[18 * cfg.numSubdiv..];
    nrm := frontN + prevN[18 * cfg.numSubdiv..];
    assert v[..18 * cfg.numSubdiv] == front;
    assert nrm[..18 * cfg.numSubdiv] == front;
    SlotsOfPrefix(front, prevV[18 * cfg.numSubdiv..], cfg.numSubdiv);
  }

  /** Six copies of one colour's three floats. */
  function ColourFloats(r: real, g: real, b: real): seq<real>
  {
    [r, g, b, r, g, b, r, g, b, r, g, b, r, g, b, r, g, b]
  }

  lemma ColourFloatsAreSliceColour(i: nat)
    ensures var k := 3 * (i % ColourCount);
            var w := ColourFloats(CorrectedColors[k], CorrectedColors[k + 1], CorrectedColors[k + 2]);
            |w| == 18 && forall m :: 0 <= m < 6 ==> Vec3At(w, 3 * m) == SliceColour(i)
  {
  }

  /** Stepping the counter modulo 6 keeps it equal to the slice number modulo 6. */
  lemma CounterStep(i: nat)
    ensures (i % ColourCount + 1) % ColourCount == (i + 1) % ColourCount
  {
  }

  /** The colour writes of updateBuffers(): all six vertices of slice i get
      the three floats at 3 * colorIndex, the counter stepping modulo 6 over
      the six-colour table. */
  method FillColors(cfg: Config, prev: seq<real>) returns (c: seq<real>)
    requires ValidConfig(cfg)
    requires |prev| == VertexCapacity
    ensures |c| == VertexCapacity && 18 * cfg.numSubdiv <= VertexCapacity
    ensures ColorsLaid(cfg, c)
    ensures c[18 * cfg.numSubdiv..] == prev[18 * cfg.numSubdiv..]
  {
    VertexWritesFit(cfg);
    var colorIndex := 0;
    var front: seq<real> := [];
    for i := 0 to cfg.numSubdiv
      invariant |front| == 18 * i && colorIndex == i % ColourCount
      invariant forall t, k :: 0 <= t < i && 0 <= k < 6 ==> Slot(front, t, k) == SliceColour(t)
    {
      var k := colorIndex * 3;
      var w := ColourFloats(CorrectedColors[k], CorrectedColors[k + 1], CorrectedColors[k + 2]);
      ColourFloatsAreSliceColour(i);
      AppendSlots(front, w, i);
      front := front + w;
      CounterStep(i);
      colorIndex := (colorIndex + 1) % ColourCount;
    }
    c := front + prev[18 * cfg.numSubdiv..];
    SlotsOfPrefix(front, prev[18 * cfg.numSubdiv..], cfg.numSubdiv);
  }

  /** texStep added to curTex: the next slice's curTex. */
  lemma TexAdvance(cfg: Config, i: int)
    requires cfg.numSubdiv > 0
    ensures CurTex(cfg, i) + TexStep(cfg) == CurTex(cfg, i + 1)
  {
  }

  /** The texture-coordinate writes of updateBuffers(): 12 floats per slice at
      q = 12i, with curTex accumulating texStep, into an array large enough
      for every accepted N. */
  method FillTexcoords(cfg: Config, prev: seq<real>) returns (t: seq<real>)
    requires ValidConfig(cfg)
    requires |prev| == TexcoordCapacity
    ensures |t| == TexcoordCapacity && 12 * cfg.numSubdiv <= TexcoordCapacity
    ensures TexcoordsLaid(cfg, t)
    ensures t[12 * cfg.numSubdiv..] == prev[12 * cfg.numSubdiv..]
  {
    VertexWritesFit(cfg);
    var texStep := 1.0 / cfg.numSubdiv as real;
    var curTex := 0.0;
    var front: seq<real> := [];
    for i := 0 to cfg.numSubdiv
      invariant |front| == 12 * i && curTex == CurTex(cfg, i)
      invariant forall s, k :: 0 <= s < i && 0 <= k < 6 ==> TexSlot(front, s, k) == CornerTexcoord(cfg, s, SliceCorners[k])
    {
      var nextTex := if i == cfg.numSubdiv - 1 then 1.0 else curTex + texStep;
      var w := [curTex, 1.0, curTex, 0.0, nextTex, 1.0, nextTex, 1.0, curTex, 0.0, nextTex, 0.0];
      AppendTexSlots(front, w, i);
      front := front + w;
      assert TexSlot(front, i, 0) == CornerTexcoord(cfg, i, SliceCorners[0]);
      assert TexSlot(front, i, 1) == CornerTexcoord(cfg, i, SliceCorners[1]);
      assert TexSlot(front, i, 2) == CornerTexcoord(cfg, i, SliceCorners[2]);
      assert TexSlot(front, i, 3) == CornerTexcoord(cfg, i, SliceCorners[3]);
      assert TexSlot(front, i, 4) == CornerTexcoord(cfg, i, SliceCorners[4]);
      assert TexSlot(front, i, 5) == CornerTexcoord(cfg, i, SliceCorners[5]);
      TexAdvance(cfg, i);
      curTex := curTex + texStep;
    }
    t := front + prev[12 * cfg.numSubdiv..];
    assert forall s, k :: 0 <= s < cfg.numSubdiv && 0 <= k < 6 ==> TexSlot(t, s, k) == TexSlot(front, s, k);
  }

  /** The four client-side arrays of a cylinder. */
  datatype Buffers = Buffers(vertices: seq<real>, normals: seq<real>, colors: seq<real>, texcoords: seq<real>)

  predicate Sized(b: Buffers)
  {
    && |b.vertices| == VertexCapacity && |b.normals| == VertexCapacity
    && |b.colors| == VertexCapacity && |b.texcoords| == TexcoordCapacity
  }

  datatype Cylinder = Cylinder(cfg: Config, buffers: Buffers)

  /** The arrays hold what updateBuffers() writes for the configuration. */
  predicate Laid(trig: Trig, c: Cylinder)
  {
    && ValidConfig(c.cfg)
    && Sized(c.buffers)
    && 18 * c.cfg.numSubdiv <= VertexCapacity
    && PositionsLaid(trig, c.cfg, c.buffers.vertices)
    && c.buffers.normals[..18 * c.cfg.numSubdiv] == c.buffers.vertices[..18 * c.cfg.numSubdiv]
    && ColorsLaid(c.cfg, c.buffers.colors)
    && TexcoordsLaid(c.cfg, c.buffers.texcoords)
  }

  /** updateBuffers(): fill every array for the cylinder's configuration. */
  method UpdateBuffers(trig: Trig, cfg: Config, prev: Buffers) returns (c: Cylinder)
    requires ValidConfig(cfg) && Sized(prev)
    ensures c.cfg == cfg && Laid(trig, c)
  {
    var v, nrm := FillPositions(trig, cfg, prev.vertices, prev.normals);
    var col := FillColors(cfg, prev.colors);
    var tex := FillTexcoords(cfg, prev.texcoords);
    c := Cylinder(cfg, Buffers(v, nrm, col, tex));
  }

  /** Cylinder(N, radius, height): rejected for N outside [2, 6], otherwise
      configured and filled. `blank` stands for the arrays' prior contents. */
  method NewCylinder(trig: Trig, n: int, radius: real, height: real, blank: Buffers) returns (r: Result<Cylinder, ConstructError>)
    requires Sized(blank)
    ensures r.Ok? <==> MinN <= n <= MaxN
    ensures r.Err? ==> r.error == IllegalN(n)
    ensures r.Ok? ==> Laid(trig, r.value) && r.value.cfg.n == n && r.value.cfg.radius == radius && r.value.cfg.height == height
  {
    var cfg := Configure(n, radius, height);
    if cfg.Err? {
      return Err(cfg.error);
    }
    var c := UpdateBuffers(trig, cfg.value, blank);
    r := Ok(c);
  }

  /** Cylinder(): N = 2, four slices, 24 vertices, radius and height 1. */
  method DefaultCylinder(trig: Trig, blank: Buffers) returns (c: Cylinder)
    requires Sized(blank)
    ensures Laid(trig, c)
    ensures c.cfg.numSubdiv == 4 && c.cfg.numVertices == 24 && c.cfg.radius == 1.0 && c.cfg.height == 1.0
  {
    c := UpdateBuffers(trig, DefaultConfig, blank);
  }

  /** glDrawArrays(GL_TRIANGLES, 0, numVertices). */
  function DrawCount(c: Cylinder): nat
  {
    c.cfg.numVertices
  }

  /** The draw count is exactly the number of vertices updateBuffers() wrote,
      three floats each, and they lie inside the arrays. */
  lemma DrawCountCoversWrites(trig: Trig, c: Cylinder)
    requires Laid(trig, c)
    ensures 3 * DrawCount(c) == 18 * c.cfg.numSubdiv <= |c.buffers.vertices|
    ensures DrawCount(c) == 6 * Pow2(c.cfg.n)
  {
  }

  /** Within a slice, the second triangle repeats the first triangle's third
      and second vertices and adds the far bottom; top vertices are at
      +height/2 and bottom ones at -height/2. */
  lemma SliceLayout(trig: Trig, c: Cylinder, i: int)
    requires Laid(trig, c)
    requires 0 <= i < c.cfg.numSubdiv
    ensures var v := c.buffers.vertices;
            Slot(v, i, 3) == Slot(v, i, 2) && Slot(v, i, 4) == Slot(v, i, 1)
    ensures var v := c.buffers.vertices;
            forall k :: 0 <= k < 6 ==>
              Slot(v, i, k).y == (if SliceCorners[k].top then c.cfg.height / 2.0 else -(c.cfg.height / 2.0))
    ensures forall k :: 0 <= k < 6 ==> Slot(c.buffers.normals, i, k) == Slot(c.buffers.vertices, i, k)
  {
    var v := c.buffers.vertices;
    var w := 18 * c.cfg.numSubdiv;
    forall k | 0 <= k < 6
      ensures Slot(v, i, k) == CornerPosition(trig, c.cfg, i, SliceCorners[k])
      ensures Slot(c.buffers.normals, i, k) == Slot(v, i, k)
    {
      assert 18 * i + 3 * k + 2 < w;
      assert c.buffers.normals[..w][18 * i + 3 * k] == v[..w][18 * i + 3 * k];
      assert c.buffers.normals[..w][18 * i + 3 * k + 1] == v[..w][18 * i + 3 * k + 1];
      assert c.buffers.normals[..w][18 * i + 3 * k + 2] == v[..w][18 * i + 3 * k + 2];
    }
  }

  /** Consecutive slices share an edge: slice i's far edge is slice i + 1's
      near edge, in position and in texture u. */
  lemma NeighbourSlicesShareEdge(trig: Trig, c: Cylinder, i: int)
    requires Laid(trig, c)
    requires 0 <= i && i + 1 < c.cfg.numSubdiv
    ensures var v := c.buffers.vertices;
            Slot(v, i, 2) == Slot(v, i + 1, 0) && Slot(v, i, 5) == Slot(v, i + 1, 1)
    ensures TexSlot(c.buffers.texcoords, i, 2).u == TexSlot(c.buffers.texcoords, i + 1, 0).u
  {
    var v := c.buffers.vertices;
    assert Slot(v, i, 2) == CornerPosition(trig, c.cfg, i, SliceCorners[2]);
    assert Slot(v, i + 1, 0) == CornerPosition(trig, c.cfg, i + 1, SliceCorners[0]);
    assert Slot(v, i, 5) == CornerPosition(trig, c.cfg, i, SliceCorners[5]);
    assert Slot(v, i + 1, 1) == CornerPosition(trig, c.cfg, i + 1, SliceCorners[1]);
    assert TexSlot(c.buffers.texcoords, i, 2) == CornerTexcoord(c.cfg, i, SliceCorners[2]);
    assert TexSlot(c.buffers.texcoords, i + 1, 0) == CornerTexcoord(c.cfg, i + 1, SliceCorners[0]);
    TexAdvance(c.cfg, i);
  }

  /** The seam closes: the last slice's far edge uses angle 0, so it is
      slice 0's near edge; texture u runs from exactly 0 there to exactly 1. */
  lemma SeamCloses(trig: Trig, c: Cylinder)
    requires Laid(trig, c)
    ensures var v := c.buffers.vertices;
            var last := c.cfg.numSubdiv - 1;
            Slot(v, last, 2) == Slot(v, 0, 0) && Slot(v, last, 5) == Slot(v, 0, 1)
    ensures TexSlot(c.buffers.texcoords, 0, 0).u == 0.0
    ensures TexSlot(c.buffers.texcoords, c.cfg.numSubdiv - 1, 2).u == 1.0
  {
    var v := c.buffers.vertices;
    var last := c.cfg.numSubdiv - 1;
    assert Slot(v, last, 2) == CornerPosition(trig, c.cfg, last, SliceCorners[2]);
    assert Slot(v, last, 5) == CornerPosition(trig, c.cfg, last, SliceCorners[5]);
    assert Slot(v, 0, 0) == CornerPosition(trig, c.cfg, 0, SliceCorners[0]);
    assert Slot(v, 0, 1) == CornerPosition(trig, c.cfg, 0, SliceCorners[1]);
    assert TexSlot(c.buffers.texcoords, 0, 0) == CornerTexcoord(c.cfg, 0, SliceCorners[0]);
    assert TexSlot(c.buffers.texcoords, last, 2) == CornerTexcoord(c.cfg, last, SliceCorners[2]);
  }

  /** Texture v is 1 exactly at the top vertices and 0 at the bottom ones;
      texture u is curTex on the near edge and nextTex on the far edge, and
      lies in [0, 1]; and every vertex of a slice has the slice's colour. */
  lemma VertexAttributes(trig: Trig, c: Cylinder, i: int, k: int)
    requires Laid(trig, c)
    requires 0 <= i < c.cfg.numSubdiv && 0 <= k < 6
    ensures var t := TexSlot(c.buffers.texcoords, i, k);
            && (t.v == 1.0 <==> SliceCorners[k].top)
            && (t.v == 0.0 <==> !SliceCorners[k].top)
            && t.u == (if SliceCorners[k].far then NextTex(c.cfg, i) else CurTex(c.cfg, i))
            && 0.0 <= t.u <= 1.0
    ensures Slot(c.buffers.colors, i, k) == SliceColour(i)
  {
    assert TexSlot(c.buffers.texcoords, i, k) == CornerTexcoord(c.cfg, i, SliceCorners[k]);
    TexAdvance(c.cfg, i);
    TexInRange(c.cfg, i);
    TexInRange(c.cfg, i + 1);
  }

  lemma TexInRange(cfg: Config, i: int)
    requires cfg.numSubdiv > 0 && 0 <= i <= cfg.numSubdiv
    ensures 0.0 <= CurTex(cfg, i) <= 1.0
  {
    var n := cfg.numSubdiv as real;
    assert CurTex(cfg, i) == i as real / n;
    assert i as real <= n;
  }
}

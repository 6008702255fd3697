/** The UV sphere mesh (src/Sphere.cpp): (stackCount+1) rings of
    (sectorCount+1) vertices, 6 floats each (position, normal), and the index
    list that stitches neighbouring rings into triangles. cosf and sinf are
    parameters; the GL upload is not part of this model. */
module Spheres {
  import opened Vectors
  import opened Grids

  const Pi: real := 3.14159265359
  /** Floats per sphere vertex. */
  const SphereVertexFloats: int := 6

  /** Ring i's angle above the equator: pi/2 - i*pi/stackCount. */
  function StackAngle(stacks: int, i: int): real
    requires stacks != 0
  {
    Pi / 2.0 - i as real * (Pi / stacks as real)
  }

  /** Sector j's angle around the axis: j*2pi/sectorCount. */
  function SectorAngle(sectors: int, j: int): real
    requires sectors != 0
  {
    j as real * (2.0 * Pi / sectors as real)
  }

  /** Vertex (i, j): ring i (from the north pole down), sector j. */
  function SphereVertex(radius: real, sectors: int, stacks: int, cos: real -> real, sin: real -> real, i: int, j: int): (v: seq<real>)
    requires radius != 0.0 && sectors != 0 && stacks != 0
    ensures |v| == SphereVertexFloats
  {
    SpherePoint(radius, cos(StackAngle(stacks, i)), sin(StackAngle(stacks, i)),
                cos(SectorAngle(sectors, j)), sin(SectorAngle(sectors, j)))
  }

  /** The vertex whose ring angle has cosine ct and sine st and whose sector
      angle has cosine cs and sine ss. */
  function SpherePoint(radius: real, ct: real, st: real, cs: real, ss: real): seq<real>
    requires radius != 0.0
  {
    RingPoint(radius * ct, radius * st, cs, ss, 1.0 / radius)
  }

  /** The vertex on the ring of radius xy at height z, at the sector angle
      whose cosine is cs and sine ss. */
  function RingPoint(xy: real, z: real, cs: real, ss: real, lengthInv: real): seq<real> {
    VertexFloats(xy * cs, xy * ss, z, lengthInv)
  }

  /** The six floats the loop pushes: the position with y and z swapped so
      that the poles lie on the y axis, then the position times 1/radius. */
  function VertexFloats(x: real, y: real, z: real, lengthInv: real): seq<real> {
    [x, z, y, x * lengthInv, z * lengthInv, y * lengthInv]
  }

  function SphereCell(radius: real, sectors: int, stacks: int, cos: real -> real, sin: real -> real): (int, int) -> seq<real>
    requires radius != 0.0 && sectors != 0 && stacks != 0
  {
    (i, j) => SphereVertex(radius, sectors, stacks, cos, sin, i, j)
  }

  /** The vertex floats the constructor's first loop builds. */
  function SphereVertices(radius: real, sectors: int, stacks: int, cos: real -> real, sin: real -> real): seq<real>
    requires radius != 0.0 && sectors != 0 && stacks != 0
  {
    Rows(SphereCell(radius, sectors, stacks, cos, sin), Nat0(sectors + 1), Nat0(stacks + 1))
  }

  datatype Tri = Tri(a: int, b: int, c: int)

  /** The triangles of sector j of stack i: the upper one except on the
      first stack, the lower one except on the last. k2 is k1's neighbour on
      the next ring. */
  function StackTris(sectors: int, stacks: int, i: int, j: int): seq<Tri> {
    var k1 := i * (sectors + 1) + j;
    var k2 := k1 + sectors + 1;
    (if i != 0 then [Tri(k1, k2, k1 + 1)] else []) +
    (if i != stacks - 1 then [Tri(k1 + 1, k2, k2 + 1)] else [])
  }

  function TriCell(sectors: int, stacks: int): (int, int) -> seq<Tri> {
    (i, j) => StackTris(sectors, stacks, i, j)
  }

  /** The triangles the constructor's second loop emits, in order. */
  function SphereTriangles(sectors: int, stacks: int): seq<Tri> {
    Rows(TriCell(sectors, stacks), Nat0(sectors), Nat0(stacks))
  }

  /** The index list: three indices per triangle. */
  function Flatten(ts: seq<Tri>): (r: seq<int>)
    ensures |r| == 3 * |ts|
    decreases |ts|
  {
    if ts == [] then [] else
      var t := ts[|ts| - 1];
      Flatten(ts[..|ts| - 1]) + [t.a, t.b, t.c]
  }

  // ---------------------------------------------------------------------
  // Vertices.

  lemma SphereCellUniform(radius: real, sectors: int, stacks: int, cos: real -> real, sin: real -> real)
    requires radius != 0.0 && sectors != 0 && stacks != 0
    ensures Uniform(SphereCell(radius, sectors, stacks, cos, sin), SphereVertexFloats)
  {
    var cell := SphereCell(radius, sectors, stacks, cos, sin);
    forall r, c
      ensures |cell(r, c)| == SphereVertexFloats
    {
      assert cell(r, c) == SphereVertex(radius, sectors, stacks, cos, sin, r, c);
    }
  }

  /** The vertex array holds (stackCount+1)*(sectorCount+1) vertices of six
      floats, vertex (i, j) at vertex number i*(sectorCount+1) + j: the
      number the index loop calls k1. */
  lemma SphereVertexLayout(radius: real, sectors: int, stacks: int, cos: real -> real, sin: real -> real, i: int, j: int, f: int)
    requires radius != 0.0 && sectors > 0 && stacks > 0
    requires 0 <= i <= stacks && 0 <= j <= sectors && 0 <= f < SphereVertexFloats
    ensures |SphereVertices(radius, sectors, stacks, cos, sin)| == (stacks + 1) * (sectors + 1) * SphereVertexFloats
    ensures 0 <= Offset(sectors + 1, SphereVertexFloats, i, j, f) < |SphereVertices(radius, sectors, stacks, cos, sin)|
    ensures SphereVertices(radius, sectors, stacks, cos, sin)[Offset(sectors + 1, SphereVertexFloats, i, j, f)]
            == SphereVertex(radius, sectors, stacks, cos, sin, i, j)[f]
  {
    var cell := SphereCell(radius, sectors, stacks, cos, sin);
    assert SphereVertices(radius, sectors, stacks, cos, sin) == Rows(cell, sectors + 1, stacks + 1);
    SphereCellUniform(radius, sectors, stacks, cos, sin);
    assert cell(i, j) == SphereVertex(radius, sectors, stacks, cos, sin, i, j);
    RowsAt(cell, SphereVertexFloats, sectors + 1, stacks + 1, i, j, f);
  }

  /** With a cosine and sine on the unit circle, every vertex lies on the
      sphere of the given radius and its normal is the position scaled by
      1/radius, a unit vector. */
  lemma VertexOnSphere(radius: real, sectors: int, stacks: int, cos: real -> real, sin: real -> real, i: int, j: int)
    requires radius != 0.0 && sectors != 0 && stacks != 0 && IsUnitCircle(cos, sin)
    ensures var v := SphereVertex(radius, sectors, stacks, cos, sin, i, j);
            var position := Vec3(v[0], v[1], v[2]);
            var normal := Vec3(v[3], v[4], v[5]);
            LengthSq(position) == radius * radius &&
            normal == Scale(position, 1.0 / radius) && LengthSq(normal) == 1.0
  {
    var ct, st := cos(StackAngle(stacks, i)), sin(StackAngle(stacks, i));
    var cs, ss := cos(SectorAngle(sectors, j)), sin(SectorAngle(sectors, j));
    assert SphereVertex(radius, sectors, stacks, cos, sin, i, j) == SpherePoint(radius, ct, st, cs, ss);
    OnSphere(radius, ct, st, cs, ss);
  }

  /** The vertex built from the two angles' cosines and sines lies on the
      sphere, and its normal is the unit vector through it. */
  lemma OnSphere(r: real, ct: real, st: real, cs: real, ss: real)
    requires r != 0.0 && ct * ct + st * st == 1.0 && cs * cs + ss * ss == 1.0
    ensures var x, y, z := r * ct * cs, r * ct * ss, r * st;
            var inv := 1.0 / r;
            LengthSq(Vec3(x, z, y)) == r * r &&
            Vec3(x * inv, z * inv, y * inv) == Scale(Vec3(x, z, y), inv) &&
            LengthSq(Vec3(x * inv, z * inv, y * inv)) == 1.0
  {
    var x, y, z := r * ct * cs, r * ct * ss, r * st;
    var inv := 1.0 / r;
    RingRadius(r, ct, st, cs, ss);
    assert LengthSq(Vec3(x, z, y)) == r * r;
    ScaledLengthSq(Vec3(x, z, y), inv);
    assert inv * inv * (r * r) == 1.0;
  }

  /** (r ct cs)^2 + (r st)^2 + (r ct ss)^2 == r^2 on the unit circle. */
  lemma RingRadius(r: real, ct: real, st: real, cs: real, ss: real)
    requires ct * ct + st * st == 1.0 && cs * cs + ss * ss == 1.0
    ensures (r * ct * cs) * (r * ct * cs) + (r * st) * (r * st) + (r * ct * ss) * (r * ct * ss) == r * r
  {
    var xy := r * ct;
    assert (xy * cs) * (xy * cs) + (xy * ss) * (xy * ss) == xy * xy * (cs * cs + ss * ss);
    assert xy * xy + (r * st) * (r * st) == r * r * (ct * ct + st * st);
  }

  // ---------------------------------------------------------------------
  // Indices.

  /** Ring 0 is the north pole, ring stackCount the south pole. */
  predicate OnNorthRing(sectors: int, v: int) {
    0 <= v < sectors + 1
  }

  predicate OnSouthRing(sectors: int, stacks: int, v: int) {
    stacks * (sectors + 1) <= v < (stacks + 1) * (sectors + 1)
  }

  function CountIf(b: bool): nat {
    if b then 1 else 0
  }

  /** A triangle whose corners are vertices of the mesh and that never has
      two corners on the same pole ring: every ring-0 (or last-ring) vertex
      lies at the pole, so such a triangle would be degenerate. */
  predicate WellFormedTri(sectors: int, stacks: int, t: Tri) {
    var n := (stacks + 1) * (sectors + 1);
    0 <= t.a < n && 0 <= t.b < n && 0 <= t.c < n &&
    CountIf(OnNorthRing(sectors, t.a)) + CountIf(OnNorthRing(sectors, t.b)) + CountIf(OnNorthRing(sectors, t.c)) <= 1 &&
    CountIf(OnSouthRing(sectors, stacks, t.a)) + CountIf(OnSouthRing(sectors, stacks, t.b)) + CountIf(OnSouthRing(sectors, stacks, t.c)) <= 1
  }

  /** The ring bounds of vertex i*(sectors+1) + j. */
  lemma RingBounds(sectors: int, stacks: int, i: int, j: int)
    requires 0 <= i <= stacks && 0 <= j <= sectors
    ensures i * (sectors + 1) <= i * (sectors + 1) + j < (i + 1) * (sectors + 1)
    ensures i >= 1 ==> sectors + 1 <= i * (sectors + 1)
    ensures i < stacks ==> (i + 1) * (sectors + 1) <= stacks * (sectors + 1)
    ensures (i + 1) * (sectors + 1) <= (stacks + 1) * (sectors + 1)
  {
    if i >= 1 {
      MulLeft(1, i, sectors + 1);
    }
    if i < stacks {
      MulLeft(i + 1, stacks, sectors + 1);
    }
    MulLeft(i + 1, stacks + 1, sectors + 1);
  }

  lemma StackTrisWellFormed(sectors: int, stacks: int, i: int, j: int)
    requires 0 <= i < stacks && 0 <= j < sectors
    ensures forall t :: t in StackTris(sectors, stacks, i, j) ==> WellFormedTri(sectors, stacks, t)
  {
    RingBounds(sectors, stacks, i, j);
    RingBounds(sectors, stacks, i, j + 1);
    RingBounds(sectors, stacks, i + 1, j);
    RingBounds(sectors, stacks, i + 1, j + 1);
    assert (i + 1) * (sectors + 1) == i * (sectors + 1) + sectors + 1;
  }

  /** Every triangle names vertices of the mesh and touches each pole ring
      at most once. */
  lemma SphereTrianglesWellFormed(sectors: int, stacks: int)
    ensures forall t :: t in SphereTriangles(sectors, stacks) ==> WellFormedTri(sectors, stacks, t)
  {
    var cell := TriCell(sectors, stacks);
    var P := t => WellFormedTri(sectors, stacks, t);
    forall r, c, t | 0 <= r < Nat0(stacks) && 0 <= c < Nat0(sectors) && t in cell(r, c)
      ensures P(t)
    {
      assert cell(r, c) == StackTris(sectors, stacks, r, c);
      StackTrisWellFormed(sectors, stacks, r, c);
    }
    RowsAll(cell, Nat0(sectors), Nat0(stacks), P);
  }

  function TrisPerSector(stacks: int, i: int): nat {
    CountIf(i != 0) + CountIf(i != stacks - 1)
  }

  lemma {:induction false} StackRowLength(sectors: int, stacks: int, i: int, n: nat)
    ensures |Row(TriCell(sectors, stacks), i, n)| == n * TrisPerSector(stacks, i)
    decreases n
  {
    if n > 0 {
      StackRowLength(sectors, stacks, i, n - 1);
      assert TriCell(sectors, stacks)(i, n - 1) == StackTris(sectors, stacks, i, n - 1);
      assert (n - 1) * TrisPerSector(stacks, i) + TrisPerSector(stacks, i) == n * TrisPerSector(stacks, i);
    }
  }

  /** The first k stacks hold sectors*(2k-1) triangles while k is below
      stackCount (the first stack has one per sector, the others two), and
      the last stack adds one per sector. */
  lemma {:induction false} StacksLength(sectors: nat, stacks: int, k: nat)
    requires k <= stacks
    ensures |Rows(TriCell(sectors, stacks), sectors, k)| ==
            if k == 0 then 0 else if k < stacks then sectors * (2 * k - 1) else sectors * (2 * k - 2)
    decreases k
  {
    if k > 0 {
      StacksLength(sectors, stacks, k - 1);
      StackRowLength(sectors, stacks, k - 1, sectors);
      if k == 1 {
        assert |Rows(TriCell(sectors, stacks), sectors, k)| == sectors * TrisPerSector(stacks, 0);
      } else {
        assert sectors * (2 * (k - 1) - 1) + sectors * TrisPerSector(stacks, k - 1) ==
               sectors * (2 * (k - 1) - 1 + TrisPerSector(stacks, k - 1));
      }
    }
  }

  /** The constructor's index count: 6*sectorCount*(stackCount-1). */
  lemma SphereIndexCount(sectors: int, stacks: int)
    requires sectors >= 0 && stacks >= 1
    ensures |Flatten(SphereTriangles(sectors, stacks))| == 6 * sectors * (stacks - 1)
  {
    StacksLength(sectors, stacks, stacks);
    var ts := SphereTriangles(sectors, stacks);
    assert ts == Rows(TriCell(sectors, stacks), sectors, stacks);
    assert |ts| == sectors * (2 * stacks - 2);
    assert 3 * (sectors * (2 * stacks - 2)) == 6 * sectors * (stacks - 1);
  }

  // ---------------------------------------------------------------------

  /** The constructor's two loops. */
  method BuildSphere(radius: real, sectorCount: int, stackCount: int, cos: real -> real, sin: real -> real)
    returns (vertices: seq<real>, indices: seq<int>)
    requires radius != 0.0 && sectorCount != 0 && stackCount != 0
    ensures vertices == SphereVertices(radius, sectorCount, stackCount, cos, sin)
    ensures indices == Flatten(SphereTriangles(sectorCount, stackCount))
  {
    vertices := BuildSphereVertices(radius, sectorCount, stackCount, cos, sin);
    indices := BuildSphereIndices(sectorCount, stackCount);
    IndicesAreTriangles(sectorCount, stackCount);
  }

  method BuildSphereVertices(radius: real, sectorCount: int, stackCount: int, cos: real -> real, sin: real -> real)
    returns (vertices: seq<real>)
    requires radius != 0.0 && sectorCount != 0 && stackCount != 0
    ensures vertices == SphereVertices(radius, sectorCount, stackCount, cos, sin)
  {
    ghost var cell := SphereCell(radius, sectorCount, stackCount, cos, sin);
    vertices := [];
    var i := 0;
    while i <= stackCount
      invariant 0 <= i <= Nat0(stackCount + 1)
      invariant vertices == Rows(cell, Nat0(sectorCount + 1), i)
    {
      vertices := EmitRing(vertices, radius, sectorCount, stackCount, cos, sin, i);
      i := i + 1;
    }
  }

  /** One pass of the outer vertex loop: ring i, sector by sector. */
  method EmitRing(before: seq<real>, radius: real, sectorCount: int, stackCount: int, cos: real -> real, sin: real -> real, i: int)
    returns (vertices: seq<real>)
    requires radius != 0.0 && sectorCount != 0 && stackCount != 0 && 0 <= i
    requires before == Rows(SphereCell(radius, sectorCount, stackCount, cos, sin), Nat0(sectorCount + 1), i)
    ensures vertices == Rows(SphereCell(radius, sectorCount, stackCount, cos, sin), Nat0(sectorCount + 1), i + 1)
  {
    ghost var cell := SphereCell(radius, sectorCount, stackCount, cos, sin);
    var lengthInv := 1.0 / radius;
    var stackAngle := StackAngle(stackCount, i);
    var xy := radius * cos(stackAngle);
    var z := radius * sin(stackAngle);
    vertices := before;
    var j := 0;
    while j <= sectorCount
      invariant 0 <= j <= Nat0(sectorCount + 1)
      invariant vertices == before + Row(cell, i, j)
    {
      var sectorAngle := SectorAngle(sectorCount, j);
      var x := xy * cos(sectorAngle);
      var y := xy * sin(sectorAngle);
      assert cell(i, j) == VertexFloats(x, y, z, lengthInv) by {
        LoopVertex(radius, sectorCount, stackCount, cos, sin, i, j, stackAngle, sectorAngle, xy, z, x, y, lengthInv);
      }
      // position (x, z, y), then the normal: the position times 1/radius
      vertices := vertices + VertexFloats(x, y, z, lengthInv);
      j := j + 1;
    }
  }

  /** The floats the loop computes for (i, j) are vertex (i, j). */
  lemma LoopVertex(radius: real, sectors: int, stacks: int, cos: real -> real, sin: real -> real, i: int, j: int,
                   stackAngle: real, sectorAngle: real, xy: real, z: real, x: real, y: real, lengthInv: real)
    requires radius != 0.0 && sectors != 0 && stacks != 0
    requires stackAngle == StackAngle(stacks, i) && sectorAngle == SectorAngle(sectors, j)
    requires xy == radius * cos(stackAngle) && z == radius * sin(stackAngle)
    requires x == xy * cos(sectorAngle) && y == xy * sin(sectorAngle) && lengthInv == 1.0 / radius
    ensures SphereVertex(radius, sectors, stacks, cos, sin, i, j) == VertexFloats(x, y, z, lengthInv)
  {
    assert SphereVertex(radius, sectors, stacks, cos, sin, i, j) ==
           RingPoint(xy, z, cos(sectorAngle), sin(sectorAngle), lengthInv);
    RingPointIs(xy, z, cos(sectorAngle), sin(sectorAngle), lengthInv, x, y);
  }

  lemma RingPointIs(xy: real, z: real, cs: real, ss: real, lengthInv: real, x: real, y: real)
    requires x == xy * cs && y == xy * ss
    ensures RingPoint(xy, z, cs, ss, lengthInv) == VertexFloats(x, y, z, lengthInv)
  {
  }

  /** The constructor's index loops. k1 walks along ring i and k2 along
      ring i+1, one sector at a time. */
  method BuildSphereIndices(sectorCount: int, stackCount: int) returns (indices: seq<int>)
    ensures indices == SphereIndices(sectorCount, stackCount)
  {
    ghost var cell := IndexCell(sectorCount, stackCount);
    indices := [];
    var i := 0;
    while i < stackCount
      invariant 0 <= i <= Nat0(stackCount)
      invariant indices == Rows(cell, Nat0(sectorCount), i)
    {
      var k1 := i * (sectorCount + 1);
      var k2 := k1 + sectorCount + 1;
      ghost var ring := k1;
      var j := 0;
      while j < sectorCount
        invariant 0 <= j <= Nat0(sectorCount)
        invariant k1 == ring + j && k2 == k1 + sectorCount + 1
        invariant indices == Rows(cell, Nat0(sectorCount), i) + Row(cell, i, j)
      {
        assert cell(i, j) == SectorIndices(stackCount, i, k1, k2);
        if i != 0 {
          indices := indices + [k1, k2, k1 + 1];
        }
        if i != stackCount - 1 {
          indices := indices + [k1 + 1, k2, k2 + 1];
        }
        j, k1, k2 := j + 1, k1 + 1, k2 + 1;
      }
      i := i + 1;
    }
  }

  /** What sector k1 of stack i pushes: the upper triangle except on the
      first stack, the lower one except on the last. */
  function SectorIndices(stacks: int, i: int, k1: int, k2: int): seq<int> {
    (if i != 0 then [k1, k2, k1 + 1] else []) +
    (if i != stacks - 1 then [k1 + 1, k2, k2 + 1] else [])
  }

  function IndexCell(sectors: int, stacks: int): (int, int) -> seq<int> {
    (i, j) => SectorIndices(stacks, i, i * (sectors + 1) + j, i * (sectors + 1) + j + sectors + 1)
  }

  /** The index list the constructor's second loop builds. */
  function SphereIndices(sectors: int, stacks: int): seq<int> {
    Rows(IndexCell(sectors, stacks), Nat0(sectors), Nat0(stacks))
  }

  /** The index list is the triangle list, three corners per triangle. */
  lemma IndicesAreTriangles(sectors: int, stacks: int)
    ensures SphereIndices(sectors, stacks) == Flatten(SphereTriangles(sectors, stacks))
  {
    FlattenRows(sectors, stacks, Nat0(sectors), Nat0(stacks));
  }

  lemma {:induction false} FlattenRow(sectors: int, stacks: int, r: int, n: nat)
    ensures Row(IndexCell(sectors, stacks), r, n) == Flatten(Row(TriCell(sectors, stacks), r, n))
    decreases n
  {
    if n > 0 {
      FlattenRow(sectors, stacks, r, n - 1);
      FlattenCell(sectors, stacks, r, n - 1);
      FlattenRowStep(TriCell(sectors, stacks), IndexCell(sectors, stacks), r, n);
    }
  }

  /** Each cell's indices are its triangles' corners. */
  lemma FlattenCell(sectors: int, stacks: int, r: int, c: int)
    ensures IndexCell(sectors, stacks)(r, c) == Flatten(TriCell(sectors, stacks)(r, c))
  {
    assert TriCell(sectors, stacks)(r, c) == StackTris(sectors, stacks, r, c);
    FlattenStackTris(sectors, stacks, r, c);
  }

  /** One more cell: flattening distributes over the cell appended. */
  lemma FlattenRowStep(tc: (int, int) -> seq<Tri>, ic: (int, int) -> seq<int>, r: int, n: nat)
    requires n > 0
    requires Row(ic, r, n - 1) == Flatten(Row(tc, r, n - 1)) && ic(r, n - 1) == Flatten(tc(r, n - 1))
    ensures Row(ic, r, n) == Flatten(Row(tc, r, n))
  {
    FlattenAppend(Row(tc, r, n - 1), tc(r, n - 1));
  }

  lemma {:induction false} FlattenRows(sectors: int, stacks: int, cols: nat, k: nat)
    ensures Rows(IndexCell(sectors, stacks), cols, k) == Flatten(Rows(TriCell(sectors, stacks), cols, k))
    decreases k
  {
    if k > 0 {
      var tc, ic := TriCell(sectors, stacks), IndexCell(sectors, stacks);
      FlattenRows(sectors, stacks, cols, k - 1);
      FlattenRow(sectors, stacks, k - 1, cols);
      FlattenAppend(Rows(tc, cols, k - 1), Row(tc, k - 1, cols));
    }
  }

  /** The three indices of each of a sector's triangles. */
  lemma FlattenStackTris(sectors: int, stacks: int, i: int, j: int)
    ensures Flatten(StackTris(sectors, stacks, i, j)) ==
            SectorIndices(stacks, i, i * (sectors + 1) + j, i * (sectors + 1) + j + sectors + 1)
  {
    var k1 := i * (sectors + 1) + j;
    var k2 := k1 + sectors + 1;
    var upper := if i != 0 then [Tri(k1, k2, k1 + 1)] else [];
    var lower := if i != stacks - 1 then [Tri(k1 + 1, k2, k2 + 1)] else [];
    assert StackTris(sectors, stacks, i, j) == upper + lower;
    FlattenAppend(upper, lower);
    assert Flatten(upper) == (if i != 0 then [k1, k2, k1 + 1] else []) by {
      if i != 0 {
        FlattenSnoc([], Tri(k1, k2, k1 + 1));
      }
    }
    assert Flatten(lower) == (if i != stacks - 1 then [k1 + 1, k2, k2 + 1] else []) by {
      if i != stacks - 1 {
        FlattenSnoc([], Tri(k1 + 1, k2, k2 + 1));
      }
    }
  }

  lemma FlattenSnoc(ts: seq<Tri>, t: Tri)
    ensures Flatten(ts + [t]) == Flatten(ts) + [t.a, t.b, t.c]
  {
    assert (ts + [t])[..|ts|] == ts;
  }

  lemma {:induction false} FlattenAppend(ts: seq<Tri>, us: seq<Tri>)
    ensures Flatten(ts + us) == Flatten(ts) + Flatten(us)
    decreases |us|
  {
    if us == [] {
      assert ts + us == ts;
    } else {
      var init := us[..|us| - 1];
      var t := us[|us| - 1];
      assert ts + us == (ts + init) + [t];
      FlattenSnoc(ts + init, t);
      FlattenAppend(ts, init);
    }
  }

  class Sphere {
    var indexCount: int

    /** Sphere::Sphere: builds both arrays and keeps the number of indices. */
    constructor (radius: real, sectorCount: int, stackCount: int, cos: real -> real, sin: real -> real)
      requires radius != 0.0 && sectorCount != 0 && stackCount != 0
      ensures indexCount == |Flatten(SphereTriangles(sectorCount, stackCount))|
    {
      var vertices, indices := BuildSphere(radius, sectorCount, stackCount, cos, sin);
      indexCount := |indices|;
    }
  }
}

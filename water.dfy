/** The water surface (src/Water.cpp, include/Water.h): a grid mesh, a ring
    of eight ripples that objects touching the surface start, and the
    bounds and height queries. The wave height itself is a sum of sines and
    decaying ripple rings; it enters the model as a parameter, the value
    getWaveHeight has at the point in question. The Shape part of the water
    (its position and scale) is the `body` shape. */
module Waters {
  import opened Vectors
  import opened Shapes
  import opened Grids

  const MaxRipples: int := 8
  /** A ripple older than this many seconds is switched off. */
  const RippleLifetime: real := 5.0
  /** What getHeightAt answers outside the surface. */
  const OutsideHeight: real := -1000.0
  /** How far below the surface an object still starts a ripple. */
  const SplashBand: real := 0.5
  /** Floats per mesh vertex: position, normal, texture coordinates. */
  const VertexFloats: int := 8

  datatype Ripple = Ripple(position: Vec3, startTime: real, active: bool)

  const IdleRipple: Ripple := Ripple(Zero, 0.0, false)

  // ---------------------------------------------------------------------
  // The ripple ring.

  /** Water::addRipple on the ring: slot `next` gets the new ripple. */
  function RippleAdded(rs: seq<Ripple>, next: int, pos: Vec3, time: real): (r: seq<Ripple>)
    requires 0 <= next < |rs|
    ensures |r| == |rs| && r[next] == Ripple(pos, time, true)
    ensures forall k :: 0 <= k < |rs| && k != next ==> r[k] == rs[k]
  {
    rs[next := Ripple(pos, time, true)]
  }

  function NextSlot(next: int): (r: int)
    requires 0 <= next < MaxRipples
    ensures 0 <= r < MaxRipples
    ensures r == if next == MaxRipples - 1 then 0 else next + 1
  {
    (next + 1) % MaxRipples
  }

  /** The ring after a burst of addRipple calls at one time. */
  datatype Ring = Ring(ripples: seq<Ripple>, next: int)

  predicate ValidRing(g: Ring) {
    |g.ripples| == MaxRipples && 0 <= g.next < MaxRipples
  }

  function AddAll(g: Ring, ps: seq<Vec3>, time: real): (r: Ring)
    requires ValidRing(g)
    ensures ValidRing(r)
    decreases |ps|
  {
    if ps == [] then g
    else
      var h := AddAll(g, ps[..|ps| - 1], time);
      Ring(RippleAdded(h.ripples, h.next, ps[|ps| - 1], time), NextSlot(h.next))
  }

  /** Two slots a whole number of steps below eight apart are different. */
  lemma DistinctSlots(a: int, d: int)
    requires 0 < d < MaxRipples
    ensures (a + d) % MaxRipples != a % MaxRipples
  {
  }

  /** The ring keeps the eight most recent ripples: after adding ps, the
      j-th of the last eight sits in slot (next + j) mod 8, and the index has
      advanced by |ps| mod 8. So the ninth ripple overwrites the oldest. */
  lemma {:induction false} RingKeepsLatest(g: Ring, ps: seq<Vec3>, time: real, j: int)
    requires ValidRing(g) && 0 <= j < |ps| && |ps| - MaxRipples <= j
    ensures AddAll(g, ps, time).next == (g.next + |ps|) % MaxRipples
    ensures AddAll(g, ps, time).ripples[(g.next + j) % MaxRipples] == Ripple(ps[j], time, true)
    decreases |ps|
  {
    var n := |ps|;
    var init := ps[..n - 1];
    var h := AddAll(g, init, time);
    RingAdvances(g, ps, time);
    RingAdvances(g, init, time);
    assert AddAll(g, ps, time) == Ring(RippleAdded(h.ripples, h.next, ps[n - 1], time), NextSlot(h.next));
    if j < n - 1 {
      RingKeepsLatest(g, init, time, j);
      DistinctSlots(g.next + j, n - 1 - j);
      assert init[j] == ps[j];
    }
  }

  lemma StepMod(a: int)
    requires a >= 0
    ensures NextSlot(a % MaxRipples) == (a + 1) % MaxRipples
  {
  }

  /** Each addRipple moves the index one slot on, modulo eight. */
  lemma {:induction false} RingAdvances(g: Ring, ps: seq<Vec3>, time: real)
    requires ValidRing(g)
    ensures AddAll(g, ps, time).next == (g.next + |ps|) % MaxRipples
    decreases |ps|
  {
    if ps != [] {
      RingAdvances(g, ps[..|ps| - 1], time);
      StepMod(g.next + |ps| - 1);
    }
  }

  /** updateWaves' last loop: switch off every active ripple older than
      five seconds. */
  function RipplesExpired(rs: seq<Ripple>, time: real): (r: seq<Ripple>)
    ensures |r| == |rs|
  {
    seq(|rs|, k requires 0 <= k < |rs| =>
      if rs[k].active && time - rs[k].startTime > RippleLifetime then rs[k].(active := false) else rs[k])
  }

  /** Exactly the ripples that were active and at most five seconds old stay
      active; no ripple is switched on, and positions and start times stay. */
  lemma ExpiryKeepsYoung(rs: seq<Ripple>, time: real, k: int)
    requires 0 <= k < |rs|
    ensures RipplesExpired(rs, time)[k].active <==> rs[k].active && time - rs[k].startTime <= RippleLifetime
    ensures RipplesExpired(rs, time)[k] == rs[k].(active := RipplesExpired(rs, time)[k].active)
  {
  }

  /** Expiry at a fixed time is idempotent, and a later expiry switches off
      at least what an earlier one did. */
  lemma ExpiryMonotone(rs: seq<Ripple>, t1: real, t2: real)
    requires t1 <= t2
    ensures RipplesExpired(RipplesExpired(rs, t1), t1) == RipplesExpired(rs, t1)
    ensures RipplesExpired(RipplesExpired(rs, t1), t2) == RipplesExpired(rs, t2)
  {
  }

  // ---------------------------------------------------------------------
  // Bounds, height and interaction.

  /** Water::isInBounds: the closed rectangle centred at the shape's x/z with
      half extents width*scale.x/2 and depth*scale.z/2. */
  predicate InSurface(width: real, depth: real, b: Body, x: real, z: real) {
    var halfWidth := (width * b.scale.x) / 2.0;
    var halfDepth := (depth * b.scale.z) / 2.0;
    var localX := x - b.position.x;
    var localZ := z - b.position.z;
    localX >= -halfWidth && localX <= halfWidth && localZ >= -halfDepth && localZ <= halfDepth
  }

  /** Water::getHeightAt; `wave` is getWaveHeight at (x, z). */
  function HeightAt(width: real, depth: real, b: Body, x: real, z: real, wave: real): (h: real)
    ensures !InSurface(width, depth, b, x, z) ==> h == OutsideHeight
    ensures InSurface(width, depth, b, x, z) ==> h == b.position.y + wave
  {
    if !InSurface(width, depth, b, x, z) then OutsideHeight else b.position.y + wave
  }

  /** The height test of checkObjectInteraction. */
  predicate Touches(objectPos: Vec3, radius: real, waterHeight: real) {
    objectPos.y - radius <= waterHeight && objectPos.y + radius >= waterHeight - SplashBand
  }

  /** The in-bounds test is the footprint of the water's box, seen from
      above: it agrees with the box test on x and z for a box of size
      width*scale.x by depth*scale.z. */
  lemma SurfaceIsFootprint(width: real, depth: real, b: Body, x: real, z: real)
    ensures var footprint := Box(b.position, Vec3(width * b.scale.x, 0.0, depth * b.scale.z));
            InSurface(width, depth, b, x, z) <==> InBox(footprint, Vec3(x, b.position.y, z))
  {
  }

  /** An object starts a ripple exactly when its vertical extent overlaps
      the band from half a unit below the surface up to the surface, in the
      sense of the collision test's axis overlap. */
  lemma TouchIsBandOverlap(objectPos: Vec3, radius: real, waterHeight: real)
    ensures Touches(objectPos, radius, waterHeight) <==>
            AxisOverlap(objectPos.y, radius, waterHeight - SplashBand / 2.0, SplashBand / 2.0)
  {
  }

  /** A non-negative water surface contains its own centre, and the surface
      is symmetric about it. */
  lemma SurfaceAroundCentre(width: real, depth: real, b: Body, x: real, z: real)
    requires width >= 0.0 && depth >= 0.0 && b.scale.x >= 0.0 && b.scale.z >= 0.0
    ensures InSurface(width, depth, b, b.position.x, b.position.z)
    ensures InSurface(width, depth, b, x, z) <==>
            InSurface(width, depth, b, 2.0 * b.position.x - x, 2.0 * b.position.z - z)
  {
    assert width * b.scale.x >= 0.0 && depth * b.scale.z >= 0.0;
  }

  // ---------------------------------------------------------------------
  // The mesh.

  /** The eight floats generateMesh writes for grid point (x, z). */
  function GridVertex(width: real, depth: real, gx: int, gz: int, x: int, z: int): (v: seq<real>)
    requires gx != 1 && gz != 1
    ensures |v| == VertexFloats
  {
    var stepX := width / (gx - 1) as real;
    var stepZ := depth / (gz - 1) as real;
    [-width / 2.0 + x as real * stepX, 0.0, -depth / 2.0 + z as real * stepZ,
     0.0, 1.0, 0.0,
     x as real / (gx - 1) as real, z as real / (gz - 1) as real]
  }

  /** Grid point (x, z) as cell (z, x) of a row-major grid. */
  function VertexCell(width: real, depth: real, gx: int, gz: int): (int, int) -> seq<real>
    requires gx != 1 && gz != 1
  {
    (z, x) => GridVertex(width, depth, gx, gz, x, z)
  }

  /** The vertex floats generateMesh builds. */
  function MeshVertices(width: real, depth: real, gx: int, gz: int): seq<real>
    requires gx != 1 && gz != 1
  {
    Rows(VertexCell(width, depth, gx, gz), Nat0(gx), Nat0(gz))
  }

  /** The two triangles of grid cell (x, z). */
  function Quad(gx: int, x: int, z: int): seq<int> {
    var topLeft := z * gx + x;
    var topRight := topLeft + 1;
    var bottomLeft := (z + 1) * gx + x;
    var bottomRight := bottomLeft + 1;
    [topLeft, bottomLeft, topRight, topRight, bottomLeft, bottomRight]
  }

  function QuadCell(gx: int): (int, int) -> seq<int> {
    (z, x) => Quad(gx, x, z)
  }

  /** The indices generateMesh builds. */
  function MeshIndices(gx: int, gz: int): seq<int> {
    Rows(QuadCell(gx), Nat0(gx - 1), Nat0(gz - 1))
  }

  /** generateMesh's vertex array: gridX*gridZ points of 8 floats, point
      (x, z) at float (z*gridX + x)*8, the address updateWaves writes to. */
  lemma MeshVertexLayout(width: real, depth: real, gx: int, gz: int, x: int, z: int, c: int)
    requires gx != 1 && gz != 1
    requires 0 <= x < gx && 0 <= z < gz && 0 <= c < VertexFloats
    ensures |MeshVertices(width, depth, gx, gz)| == gz * gx * VertexFloats
    ensures 0 <= Offset(gx, VertexFloats, z, x, c) < |MeshVertices(width, depth, gx, gz)|
    ensures MeshVertices(width, depth, gx, gz)[Offset(gx, VertexFloats, z, x, c)] == GridVertex(width, depth, gx, gz, x, z)[c]
  {
    var cell := VertexCell(width, depth, gx, gz);
    assert MeshVertices(width, depth, gx, gz) == Rows(cell, gx, gz) by {
      assert Nat0(gx) == gx && Nat0(gz) == gz;
    }
    VertexCellUniform(width, depth, gx, gz);
    assert cell(z, x) == GridVertex(width, depth, gx, gz, x, z);
    RowsAt(cell, VertexFloats, gx, gz, z, x, c);
  }

  lemma VertexCellUniform(width: real, depth: real, gx: int, gz: int)
    requires gx != 1 && gz != 1
    ensures Uniform(VertexCell(width, depth, gx, gz), VertexFloats)
  {
    var cell := VertexCell(width, depth, gx, gz);
    forall r, c
      ensures |cell(r, c)| == VertexFloats
    {
      assert cell(r, c) == GridVertex(width, depth, gx, gz, c, r);
    }
  }

  /** Every grid point lies flat at y = 0 with normal (0, 1, 0), inside
      [-width/2, width/2] x [-depth/2, depth/2], with texture coordinates in
      [0, 1]; the first and last points are the opposite corners. */
  lemma GridVertexOnSurface(width: real, depth: real, gx: int, gz: int, x: int, z: int)
    requires gx >= 2 && gz >= 2 && width >= 0.0 && depth >= 0.0
    requires 0 <= x < gx && 0 <= z < gz
    ensures var v := GridVertex(width, depth, gx, gz, x, z);
            v[1] == 0.0 && v[3] == 0.0 && v[4] == 1.0 && v[5] == 0.0 &&
            -width / 2.0 <= v[0] <= width / 2.0 && -depth / 2.0 <= v[2] <= depth / 2.0 &&
            0.0 <= v[6] <= 1.0 && 0.0 <= v[7] <= 1.0
    ensures var first := GridVertex(width, depth, gx, gz, 0, 0);
            var last := GridVertex(width, depth, gx, gz, gx - 1, gz - 1);
            first[0] == -width / 2.0 && first[2] == -depth / 2.0 && first[6] == 0.0 && first[7] == 0.0 &&
            last[0] == width / 2.0 && last[2] == depth / 2.0 && last[6] == 1.0 && last[7] == 1.0
  {
    var sx := (gx - 1) as real;
    var sz := (gz - 1) as real;
    ScaledFraction(x as real, sx, width);
    ScaledFraction(z as real, sz, depth);
  }

  /** For 0 <= i <= s: 0 <= i/s <= 1 and 0 <= i * (w/s) <= w. */
  lemma ScaledFraction(i: real, s: real, w: real)
    requires 1.0 <= s && 0.0 <= i <= s && w >= 0.0
    ensures 0.0 <= i / s <= 1.0 && 0.0 <= i * (w / s) <= w
    ensures s * (w / s) == w
  {
    var f := i / s;
    assert f * s == i;
    assert i * (w / s) == f * w;
    assert f <= 1.0;
    assert f * w <= 1.0 * w;
  }

  /** Every index of cell (x, z), for x < gx-1 and z < gz-1, names a grid
      point. */
  lemma QuadInRange(gx: int, gz: int, x: int, z: int)
    requires 0 <= x < gx - 1 && 0 <= z < gz - 1
    ensures forall v :: v in Quad(gx, x, z) ==> 0 <= v < gx * gz
  {
    RowMajorBelow(gx, x + 1, z + 1, gz);
    RowMajorBelow(gx, x, z, gz);
    assert (z + 1) * gx == z * gx + gx;
  }

  /** generateMesh's index array: 6*(gridX-1)*(gridZ-1) indices, each naming
      a vertex of the gridX*gridZ grid. */
  lemma MeshIndicesInRange(gx: int, gz: int)
    requires gx >= 1 && gz >= 1
    ensures |MeshIndices(gx, gz)| == 6 * (gx - 1) * (gz - 1)
    ensures forall v :: v in MeshIndices(gx, gz) ==> 0 <= v < gx * gz
  {
    MeshIndexCount(gx, gz);
    MeshIndicesBounded(gx, gz);
  }

  lemma MeshIndexCount(gx: int, gz: int)
    requires gx >= 1 && gz >= 1
    ensures |MeshIndices(gx, gz)| == (gz - 1) * (gx - 1) * 6
  {
    var cell := QuadCell(gx);
    assert MeshIndices(gx, gz) == Rows(cell, gx - 1, gz - 1);
    QuadCellUniform(gx);
    RowsLength(cell, 6, gx - 1, gz - 1);
  }

  lemma MeshIndicesBounded(gx: int, gz: int)
    requires gx >= 1 && gz >= 1
    ensures forall v :: v in MeshIndices(gx, gz) ==> 0 <= v < gx * gz
  {
    var cell := QuadCell(gx);
    assert MeshIndices(gx, gz) == Rows(cell, gx - 1, gz - 1);
    var P := v => 0 <= v < gx * gz;
    QuadCellsInRange(gx, gz, P);
    RowsAll(cell, gx - 1, gz - 1, P);
  }

  lemma QuadCellUniform(gx: int)
    ensures Uniform(QuadCell(gx), 6)
  {
    var cell := QuadCell(gx);
    forall r, c
      ensures |cell(r, c)| == 6
    {
      assert cell(r, c) == Quad(gx, c, r);
    }
  }

  lemma QuadCellsInRange(gx: int, gz: int, P: int -> bool)
    requires forall v :: P(v) <==> 0 <= v < gx * gz
    ensures forall r, c, v :: 0 <= r < gz - 1 && 0 <= c < gx - 1 && v in QuadCell(gx)(r, c) ==> P(v)
  {
    forall r, c, v | 0 <= r < gz - 1 && 0 <= c < gx - 1 && v in QuadCell(gx)(r, c)
      ensures P(v)
    {
      assert QuadCell(gx)(r, c) == Quad(gx, c, r);
      QuadInRange(gx, gz, c, r);
    }
  }

  /** generateMesh's vertex loops. */
  method BuildVertices(width: real, depth: real, gx: int, gz: int) returns (vertices: seq<real>)
    requires gx != 1 && gz != 1
    ensures vertices == MeshVertices(width, depth, gx, gz)
  {
    ghost var cell := VertexCell(width, depth, gx, gz);
    vertices := [];
    var z := 0;
    while z < gz
      invariant 0 <= z <= Nat0(gz)
      invariant vertices == Rows(cell, Nat0(gx), z)
    {
      var x := 0;
      while x < gx
        invariant 0 <= x <= Nat0(gx)
        invariant vertices == Rows(cell, Nat0(gx), z) + Row(cell, z, x)
      {
        assert cell(z, x) == GridVertex(width, depth, gx, gz, x, z);
        vertices := vertices + GridVertex(width, depth, gx, gz, x, z);
        x := x + 1;
      }
      z := z + 1;
    }
  }

  /** generateMesh's index loops. */
  method BuildIndices(gx: int, gz: int) returns (indices: seq<int>)
    ensures indices == MeshIndices(gx, gz)
  {
    ghost var cell := QuadCell(gx);
    indices := [];
    var z := 0;
    while z < gz - 1
      invariant 0 <= z <= Nat0(gz - 1)
      invariant indices == Rows(cell, Nat0(gx - 1), z)
    {
      var x := 0;
      while x < gx - 1
        invariant 0 <= x <= Nat0(gx - 1)
        invariant indices == Rows(cell, Nat0(gx - 1), z) + Row(cell, z, x)
      {
        var topLeft := z * gx + x;
        var topRight := topLeft + 1;
        var bottomLeft := (z + 1) * gx + x;
        var bottomRight := bottomLeft + 1;
        assert cell(z, x) == [topLeft, bottomLeft, topRight] + [topRight, bottomLeft, bottomRight];
        indices := indices + [topLeft, bottomLeft, topRight];
        indices := indices + [topRight, bottomLeft, bottomRight];
        x := x + 1;
      }
      z := z + 1;
    }
  }

  // ---------------------------------------------------------------------
  // The wave pass of updateWaves.

  /** getWaveHeight and calculateNormal at the current time, as functions
      of a world position (x, z). */
  datatype Waves = Waves(height: (real, real) -> real, normal: (real, real) -> Vec3)

  /** Where updateWaves samples the waves for grid point (x, z): the point's
      mesh position, scaled and moved by the water's transform. */
  function WorldPoint(width: real, depth: real, gx: int, gz: int, b: Body, x: int, z: int): (real, real)
    requires gx != 1 && gz != 1
  {
    var v := GridVertex(width, depth, gx, gz, x, z);
    (v[0] * b.scale.x + b.position.x, v[2] * b.scale.z + b.position.z)
  }

  /** The world position of grid point (x, z), from its mesh position. */
  lemma WorldPointAt(width: real, depth: real, gx: int, gz: int, b: Body, x: int, z: int, posX: real, posZ: real)
    requires gx != 1 && gz != 1
    requires posX == -(width / 2.0) + x as real * (width / (gx - 1) as real)
    requires posZ == -(depth / 2.0) + z as real * (depth / (gz - 1) as real)
    ensures WorldPoint(width, depth, gx, gz, b, x, z) == (posX * b.scale.x + b.position.x, posZ * b.scale.z + b.position.z)
  {
    var v := GridVertex(width, depth, gx, gz, x, z);
    assert v[0] == posX && v[2] == posZ;
    assert WorldPoint(width, depth, gx, gz, b, x, z).0 == posX * b.scale.x + b.position.x;
    assert WorldPoint(width, depth, gx, gz, b, x, z).1 == posZ * b.scale.z + b.position.z;
  }

  /** Float i after the wave pass. Float i is float i % 8 of grid point
      i / 8, which is point (i/8 % gx, i/8 / gx) of the row-major grid; its
      height (float 1) and normal (floats 3-5) are sampled there, and its
      position and texture coordinates are kept. */
  function WaveFloat(vs: seq<real>, i: int, width: real, depth: real, gx: int, gz: int, b: Body, waves: Waves): real
    requires gx != 1 && gz != 1 && 0 <= i < |vs|
  {
    var p := i / VertexFloats;
    var c := i % VertexFloats;
    if gx <= 0 || !(c == 1 || 3 <= c <= 5) then vs[i]
    else
      var w := WorldPoint(width, depth, gx, gz, b, p % gx, p / gx);
      var n := waves.normal(w.0, w.1);
      if c == 1 then waves.height(w.0, w.1)
      else if c == 3 then n.x
      else if c == 4 then n.y
      else n.z
  }

  /** The vertex floats after the wave pass. */
  function WavesApplied(vs: seq<real>, width: real, depth: real, gx: int, gz: int, b: Body, waves: Waves): (r: seq<real>)
    requires gx != 1 && gz != 1
    ensures |r| == |vs|
  {
    seq(|vs|, i requires 0 <= i < |vs| => WaveFloat(vs, i, width, depth, gx, gz, b, waves))
  }

  /** Row-major addressing read backwards: float c of cell z*gx + x, at
      cells of 8 floats, is float c of the cell in row z, column x. */
  lemma RowMajorSplit(gx: int, x: int, z: int, c: int)
    requires 0 <= x < gx && 0 <= z && 0 <= c < VertexFloats
    ensures var i := Offset(gx, VertexFloats, z, x, c);
            i / VertexFloats == z * gx + x && i % VertexFloats == c &&
            (z * gx + x) / gx == z && (z * gx + x) % gx == x
  {
    RowMajorDiv(gx, x, z);
  }

  lemma RowMajorDiv(gx: int, x: int, z: int)
    requires 0 <= x < gx && 0 <= z
    ensures (z * gx + x) / gx == z && (z * gx + x) % gx == x
  {
    var q := (z * gx + x) / gx;
    if q > z {
      MulLeft(z + 1, q, gx);
    } else if q < z {
      MulLeft(q + 1, z, gx);
    }
  }

  /** At every point (x, z) of a gx by gz grid, the wave pass writes the
      wave height at the point's world position to float 1 and the normal
      there to floats 3-5, and keeps floats 0, 2, 6 and 7. */
  lemma WavesAtPoint(vs: seq<real>, width: real, depth: real, gx: int, gz: int, b: Body, waves: Waves, x: int, z: int)
    requires gx != 1 && gz != 1 && |vs| == Nat0(gz) * Nat0(gx) * VertexFloats
    requires 0 <= x < gx && 0 <= z < gz
    ensures var o := Offset(gx, VertexFloats, z, x, 0);
            var w := WorldPoint(width, depth, gx, gz, b, x, z);
            var r := WavesApplied(vs, width, depth, gx, gz, b, waves);
            0 <= o && o + VertexFloats <= |vs| &&
            r[o + 1] == waves.height(w.0, w.1) &&
            r[o + 3] == waves.normal(w.0, w.1).x && r[o + 4] == waves.normal(w.0, w.1).y &&
            r[o + 5] == waves.normal(w.0, w.1).z &&
            r[o] == vs[o] && r[o + 2] == vs[o + 2] && r[o + 6] == vs[o + 6] && r[o + 7] == vs[o + 7]
  {
    var o := Offset(gx, VertexFloats, z, x, 0);
    var r := WavesApplied(vs, width, depth, gx, gz, b, waves);
    CellOffsetBound(gx, VertexFloats, gz, z, x, VertexFloats - 1);
    assert Nat0(gz) * Nat0(gx) == gz * gx;
    assert 0 <= o && o + VertexFloats <= |vs|;
    forall c | 0 <= c < VertexFloats
      ensures r[o + c] == WaveFloatOf(vs, width, depth, gx, gz, b, waves, x, z, c)
    {
      assert Offset(gx, VertexFloats, z, x, c) == o + c;
      WaveFloatAtPoint(vs, width, depth, gx, gz, b, waves, x, z, c);
    }
    var w := WorldPoint(width, depth, gx, gz, b, x, z);
    var n := waves.normal(w.0, w.1);
    assert r[o + 1] == waves.height(w.0, w.1) by {
      assert r[o + 1] == WaveFloatOf(vs, width, depth, gx, gz, b, waves, x, z, 1);
    }
    assert r[o + 3] == n.x by {
      assert r[o + 3] == WaveFloatOf(vs, width, depth, gx, gz, b, waves, x, z, 3);
    }
    assert r[o + 4] == n.y by {
      assert r[o + 4] == WaveFloatOf(vs, width, depth, gx, gz, b, waves, x, z, 4);
    }
    assert r[o + 5] == n.z by {
      assert r[o + 5] == WaveFloatOf(vs, width, depth, gx, gz, b, waves, x, z, 5);
    }
    assert r[o] == WaveFloatOf(vs, width, depth, gx, gz, b, waves, x, z, 0);
    assert r[o + 2] == WaveFloatOf(vs, width, depth, gx, gz, b, waves, x, z, 2);
    assert r[o + 6] == WaveFloatOf(vs, width, depth, gx, gz, b, waves, x, z, 6);
    assert r[o + 7] == WaveFloatOf(vs, width, depth, gx, gz, b, waves, x, z, 7);
  }

  lemma WaveFloatAtPoint(vs: seq<real>, width: real, depth: real, gx: int, gz: int, b: Body, waves: Waves,
                         x: int, z: int, c: int)
    requires gx != 1 && gz != 1 && 0 <= x < gx && 0 <= z && 0 <= c < VertexFloats
    requires Offset(gx, VertexFloats, z, x, c) < |vs|
    ensures WaveFloat(vs, Offset(gx, VertexFloats, z, x, c), width, depth, gx, gz, b, waves) ==
            WaveFloatOf(vs, width, depth, gx, gz, b, waves, x, z, c)
  {
    var p := z * gx + x;
    var i := Offset(gx, VertexFloats, z, x, c);
    RowMajorSplit(gx, x, z, c);
    assert i / VertexFloats == p && i % VertexFloats == c && p % gx == x && p / gx == z;
  }

  /** Float c of grid point (x, z) after the wave pass, read by point. */
  function WaveFloatOf(vs: seq<real>, width: real, depth: real, gx: int, gz: int, b: Body, waves: Waves,
                       x: int, z: int, c: int): real
    requires gx != 1 && gz != 1 && 0 <= Offset(gx, VertexFloats, z, x, c) < |vs|
  {
    var w := WorldPoint(width, depth, gx, gz, b, x, z);
    if c == 1 then waves.height(w.0, w.1)
    else if c == 3 then waves.normal(w.0, w.1).x
    else if c == 4 then waves.normal(w.0, w.1).y
    else if c == 5 then waves.normal(w.0, w.1).z
    else vs[Offset(gx, VertexFloats, z, x, c)]
  }

  /** On the mesh generateMesh builds, the wave pass leaves grid point
      (x, z) at its mesh position, with the wave height as its y, the
      sampled normal and its texture coordinates. */
  lemma WavesOnMesh(width: real, depth: real, gx: int, gz: int, b: Body, waves: Waves, x: int, z: int)
    requires gx != 1 && gz != 1
    requires 0 <= x < gx && 0 <= z < gz
    ensures var o := Offset(gx, VertexFloats, z, x, 0);
            var g := GridVertex(width, depth, gx, gz, x, z);
            var w := WorldPoint(width, depth, gx, gz, b, x, z);
            var n := waves.normal(w.0, w.1);
            var r := WavesApplied(MeshVertices(width, depth, gx, gz), width, depth, gx, gz, b, waves);
            0 <= o && o + VertexFloats <= |r| &&
            r[o .. o + VertexFloats] == [g[0], waves.height(w.0, w.1), g[2], n.x, n.y, n.z, g[6], g[7]]
  {
    var vs := MeshVertices(width, depth, gx, gz);
    MeshVerticesLength(width, depth, gx, gz);
    WavesAtPoint(vs, width, depth, gx, gz, b, waves, x, z);
    var o := Offset(gx, VertexFloats, z, x, 0);
    var g := GridVertex(width, depth, gx, gz, x, z);
    forall c | c in {0, 2, 6, 7}
      ensures vs[o + c] == g[c]
    {
      MeshVertexLayout(width, depth, gx, gz, x, z, c);
    }
  }

  /** generateMesh's vertex array holds gridX*gridZ points of 8 floats. */
  lemma MeshVerticesLength(width: real, depth: real, gx: int, gz: int)
    requires gx != 1 && gz != 1
    ensures |MeshVertices(width, depth, gx, gz)| == Nat0(gz) * Nat0(gx) * VertexFloats
  {
    VertexCellUniform(width, depth, gx, gz);
    RowsLength(VertexCell(width, depth, gx, gz), VertexFloats, Nat0(gx), Nat0(gz));
  }

  /** The wave pass has handled grid points 0 .. p-1 of `v0`. */
  ghost predicate WrittenUpTo(vs: seq<real>, v0: seq<real>, p: int, width: real, depth: real, gx: int, gz: int, b: Body, waves: Waves)
    requires gx != 1 && gz != 1
  {
    |vs| == |v0| &&
    forall i :: 0 <= i < |v0| ==>
      vs[i] == if i / VertexFloats < p then WaveFloat(v0, i, width, depth, gx, gz, b, waves) else v0[i]
  }

  /** One iteration of updateWaves' inner loop handles grid point (x, z). */
  lemma WaveStep(vs: seq<real>, v0: seq<real>, width: real, depth: real, gx: int, gz: int, b: Body, waves: Waves,
                 x: int, z: int, p: int, wx: real, wz: real)
    requires gx != 1 && gz != 1 && 0 <= x < gx && 0 <= z
    requires p == z * gx + x && 0 <= p && (p + 1) * VertexFloats <= |v0|
    requires WrittenUpTo(vs, v0, p, width, depth, gx, gz, b, waves)
    requires (wx, wz) == WorldPoint(width, depth, gx, gz, b, x, z)
    ensures var o := p * VertexFloats;
            var n := waves.normal(wx, wz);
            WrittenUpTo(vs[o + 1 := waves.height(wx, wz)][o + 3 := n.x][o + 4 := n.y][o + 5 := n.z],
                        v0, p + 1, width, depth, gx, gz, b, waves)
  {
    var o := p * VertexFloats;
    var n := waves.normal(wx, wz);
    var next := vs[o + 1 := waves.height(wx, wz)][o + 3 := n.x][o + 4 := n.y][o + 5 := n.z];
    forall i | 0 <= i < |v0|
      ensures next[i] == if i / VertexFloats < p + 1 then WaveFloat(v0, i, width, depth, gx, gz, b, waves) else v0[i]
    {
      if i / VertexFloats == p {
        var c := i - o;
        assert Offset(gx, VertexFloats, z, x, c) == i;
        WaveFloatAtPoint(v0, width, depth, gx, gz, b, waves, x, z, c);
      }
    }
  }

  /** The grid loops of updateWaves over a gx by gz grid whose shape `b`
      places it in the world. */
  method WavePass(vertices: seq<real>, width: real, depth: real, gx: int, gz: int, b: Body, waves: Waves)
    returns (vs: seq<real>)
    requires gx != 1 && gz != 1 && |vertices| == Nat0(gz) * Nat0(gx) * VertexFloats
    ensures vs == WavesApplied(vertices, width, depth, gx, gz, b, waves)
  {
    vs := vertices;
    var halfWidth := width / 2.0;
    var halfDepth := depth / 2.0;
    var stepX := width / (gx - 1) as real;
    var stepZ := depth / (gz - 1) as real;
    var z := 0;
    while z < gz
      invariant 0 <= z <= Nat0(gz)
      invariant WrittenUpTo(vs, vertices, z * gx, width, depth, gx, gz, b, waves)
    {
      var x := 0;
      while x < gx
        invariant 0 <= x <= Nat0(gx)
        invariant WrittenUpTo(vs, vertices, z * gx + x, width, depth, gx, gz, b, waves)
      {
        var index := (z * gx + x) * VertexFloats;
        var posX := -halfWidth + x as real * stepX;
        var posZ := -halfDepth + z as real * stepZ;
        var worldX := posX * b.scale.x + b.position.x;
        var worldZ := posZ * b.scale.z + b.position.z;
        var normal := waves.normal(worldX, worldZ);
        WorldPointAt(width, depth, gx, gz, b, x, z, posX, posZ);
        CellOffsetBound(gx, VertexFloats, gz, z, x, VertexFloats - 1);
        WaveStep(vs, vertices, width, depth, gx, gz, b, waves, x, z, z * gx + x, worldX, worldZ);
        vs := vs[index + 1 := waves.height(worldX, worldZ)];
        vs := vs[index + 3 := normal.x][index + 4 := normal.y][index + 5 := normal.z];
        x := x + 1;
      }
      assert z * gx + gx == (z + 1) * gx;
      z := z + 1;
    }
    if gz > 0 && gx > 0 {
      assert z * gx == Nat0(gz) * Nat0(gx);
    }
  }

  // ---------------------------------------------------------------------

  class Water {
    const body: Shape
    const ripples: array<Ripple>
    var nextRippleIndex: int
    var gridX: int
    var gridZ: int
    var width: real
    var depth: real
    var time: real
    var vertices: seq<real>
    var indices: seq<int>

    /** The ring index stays a slot of the eight-slot array, and the vertex
        array holds the gridX*gridZ points updateWaves writes to. */
    predicate Valid()
      reads this
    {
      ripples.Length == MaxRipples && 0 <= nextRippleIndex < MaxRipples &&
      gridX != 1 && gridZ != 1 && |vertices| == Nat0(gridZ) * Nat0(gridX) * VertexFloats
    }

    function RingState(): Ring
      reads this, ripples
    {
      Ring(ripples[..], nextRippleIndex)
    }

    /** Water::Water: every ripple slot idle, the clock at zero, the mesh
        built. A resolution of 1 divides by zero in the mesh steps. */
    constructor (w: real, d: real, resolution: int)
      requires resolution != 1
      ensures Valid() && fresh(ripples) && fresh(body)
      ensures width == w && depth == d && gridX == resolution && gridZ == resolution
      ensures body.Snapshot() == DefaultBody
      ensures forall k :: 0 <= k < MaxRipples ==> ripples[k] == IdleRipple
      ensures nextRippleIndex == 0 && time == 0.0
      ensures vertices == MeshVertices(w, d, resolution, resolution)
      ensures indices == MeshIndices(resolution, resolution)
    {
      body := new Shape();
      width := w;
      depth := d;
      gridX := resolution;
      gridZ := resolution;
      time := 0.0;
      nextRippleIndex := 0;
      ripples := new Ripple[MaxRipples](_ => IdleRipple);
      new;
      GenerateMesh();
      MeshVerticesLength(w, d, resolution, resolution);
    }

    /** The vertex and index loops of Water::generateMesh. */
    method GenerateMesh()
      requires gridX != 1 && gridZ != 1
      modifies this
      ensures width == old(width) && depth == old(depth) && gridX == old(gridX) && gridZ == old(gridZ)
      ensures time == old(time) && nextRippleIndex == old(nextRippleIndex)
      ensures vertices == MeshVertices(width, depth, gridX, gridZ)
      ensures indices == MeshIndices(gridX, gridZ)
    {
      vertices := BuildVertices(width, depth, gridX, gridZ);
      indices := BuildIndices(gridX, gridZ);
    }

    /** Water::addRipple. */
    method AddRipple(worldPos: Vec3)
      requires Valid()
      modifies this, ripples
      ensures Valid()
      ensures RingState() == Ring(RippleAdded(old(ripples[..]), old(nextRippleIndex), worldPos, time), NextSlot(old(nextRippleIndex)))
      ensures time == old(time) && width == old(width) && depth == old(depth)
      ensures gridX == old(gridX) && gridZ == old(gridZ) && vertices == old(vertices) && indices == old(indices)
    {
      ripples[nextRippleIndex] := Ripple(worldPos, time, true);
      nextRippleIndex := (nextRippleIndex + 1) % MaxRipples;
    }

    predicate IsInBounds(worldX: real, worldZ: real)
      reads this, body
    {
      InSurface(width, depth, body.Snapshot(), worldX, worldZ)
    }

    /** Water::getHeightAt, with `wave` standing for getWaveHeight there. */
    function GetHeightAt(worldX: real, worldZ: real, wave: real): (h: real)
      reads this, body
      ensures h == HeightAt(width, depth, body.Snapshot(), worldX, worldZ, wave)
    {
      if !IsInBounds(worldX, worldZ) then OutsideHeight else body.position.y + wave
    }

    /** Water::checkObjectInteraction: a ripple starts at the surface above
        an in-bounds object whose extent reaches the splash band. */
    method CheckObjectInteraction(objectPos: Vec3, objectRadius: real, wave: real)
      requires Valid()
      modifies this, ripples
      ensures Valid() && time == old(time) && width == old(width) && depth == old(depth)
      ensures gridX == old(gridX) && gridZ == old(gridZ) && vertices == old(vertices) && indices == old(indices)
      ensures var h := HeightAt(width, depth, body.Snapshot(), objectPos.x, objectPos.z, wave);
              if InSurface(width, depth, body.Snapshot(), objectPos.x, objectPos.z) && Touches(objectPos, objectRadius, h)
              then RingState() == Ring(RippleAdded(old(ripples[..]), old(nextRippleIndex), Vec3(objectPos.x, h, objectPos.z), time),
                                       NextSlot(old(nextRippleIndex)))
              else RingState() == old(RingState())
    {
      if !IsInBounds(objectPos.x, objectPos.z) {
        return;
      }
      var waterHeight := GetHeightAt(objectPos.x, objectPos.z, wave);
      var objectBottom := objectPos.y - objectRadius;
      var objectTop := objectPos.y + objectRadius;
      if objectBottom <= waterHeight && objectTop >= waterHeight - SplashBand {
        AddRipple(Vec3(objectPos.x, waterHeight, objectPos.z));
      }
    }

    /** The ripple loop at the end of Water::updateWaves. */
    method ExpireRipples()
      requires Valid()
      modifies ripples
      ensures ripples[..] == RipplesExpired(old(ripples[..]), time)
    {
      ghost var before := ripples[..];
      var k := 0;
      while k < MaxRipples
        invariant 0 <= k <= MaxRipples
        invariant forall j :: 0 <= j < MaxRipples ==>
                    ripples[j] == if j < k then RipplesExpired(before, time)[j] else before[j]
      {
        if ripples[k].active && time - ripples[k].startTime > RippleLifetime {
          ripples[k] := ripples[k].(active := false);
        }
        k := k + 1;
      }
      assert ripples[..] == RipplesExpired(before, time);
    }

    /** Water::updateWaves: write every grid point's wave height and normal,
        sampled at its world position, then expire old ripples. */
    method UpdateWaves(waves: Waves)
      requires Valid()
      modifies this, ripples
      ensures Valid() && time == old(time) && nextRippleIndex == old(nextRippleIndex)
      ensures width == old(width) && depth == old(depth) && gridX == old(gridX) && gridZ == old(gridZ)
      ensures indices == old(indices)
      ensures vertices == WavesApplied(old(vertices), width, depth, gridX, gridZ, body.Snapshot(), waves)
      ensures ripples[..] == RipplesExpired(old(ripples[..]), time)
    {
      vertices := WavePass(vertices, width, depth, gridX, gridZ, body.Snapshot(), waves);
      ExpireRipples();
    }

    /** Water::update: advance the clock, then run the wave pass with the
        waves at the new time. */
    method Update(deltaTime: real, waves: Waves)
      requires Valid()
      modifies this, ripples
      ensures Valid() && time == old(time) + deltaTime
      ensures width == old(width) && depth == old(depth) && gridX == old(gridX) && gridZ == old(gridZ)
      ensures indices == old(indices)
      ensures vertices == WavesApplied(old(vertices), width, depth, gridX, gridZ, body.Snapshot(), waves)
      ensures RingState() == Ring(RipplesExpired(old(ripples[..]), time), old(nextRippleIndex))
    {
      time := time + deltaTime;
      UpdateWaves(waves);
    }
  }
}

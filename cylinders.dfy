/** The cylinder mesh of Cylinder::build (src/Cylinder.cpp): for each of
    `segments` slices, two side triangles, one top-cap triangle and one
    bottom-cap triangle, as a flat float list of 8 floats per vertex
    (position, normal, uv). cos and sin are parameters; the GL upload is not
    part of this model. */
module Cylinders {
  import opened Vectors
  import opened Grids

  /** M_PI. */
  const MPi: real := 3.14159265358979323846
  /** Floats per vertex: position (3), normal (3), uv (2). */
  const CylinderVertexFloats: int := 8
  /** Vertices per slice: 6 on the side, 3 on the top cap, 3 on the bottom cap. */
  const VerticesPerSegment: int := 12

  /** (float)i / segments. */
  function Fraction(i: int, segments: int): real
    requires segments != 0
  {
    i as real / segments as real
  }

  /** The angle of edge i: i/segments of a full turn. */
  function Angle(i: int, segments: int): real
    requires segments != 0
  {
    Fraction(i, segments) * 2.0 * MPi
  }

  /** One vertex as the initializer lists write it. */
  function Vert(px: real, py: real, pz: real, nx: real, ny: real, nz: real, u: real, v: real): (r: seq<real>)
    ensures |r| == CylinderVertexFloats
  {
    [px, py, pz, nx, ny, nz, u, v]
  }

  /** The normal of an 8-float vertex. */
  function Normal(v: seq<real>): Vec3
    requires |v| == CylinderVertexFloats
  {
    Vec3(v[3], v[4], v[5])
  }

  /** The floats of a list of 8-float vertices, in order. */
  function Blocks(vs: seq<seq<real>>): (r: seq<real>)
    requires forall j :: 0 <= j < |vs| ==> |vs[j]| == CylinderVertexFloats
    ensures |r| == CylinderVertexFloats * |vs|
  {
    if |vs| == 0 then [] else Blocks(vs[..|vs| - 1]) + vs[|vs| - 1]
  }

  /** Vertex m of a list of 8-float vertices sits at floats 8m .. 8m+7. */
  lemma {:induction false} BlockAt(vs: seq<seq<real>>, m: int)
    requires forall j :: 0 <= j < |vs| ==> |vs[j]| == CylinderVertexFloats
    requires 0 <= m < |vs|
    ensures Blocks(vs)[8 * m .. 8 * m + 8] == vs[m]
  {
    var init := vs[..|vs| - 1];
    if m < |vs| - 1 {
      BlockAt(init, m);
    } else if |vs| > 1 {
      BlockAt(init, 0);
    }
  }

  lemma Blocks3(a: seq<real>, b: seq<real>, c: seq<real>)
    requires |a| == |b| == |c| == CylinderVertexFloats
    ensures Blocks([a, b, c]) == a + b + c
  {
    assert [a, b, c][..2] == [a, b];
    assert [a, b][..1] == [a];
    assert [a][..0] == [];
    assert Blocks([a]) == a;
    assert Blocks([a, b]) == a + b;
  }

  lemma {:induction false} BlocksAppend(xs: seq<seq<real>>, ys: seq<seq<real>>)
    requires forall j :: 0 <= j < |xs| ==> |xs[j]| == CylinderVertexFloats
    requires forall j :: 0 <= j < |ys| ==> |ys[j]| == CylinderVertexFloats
    ensures Blocks(xs + ys) == Blocks(xs) + Blocks(ys)
    decreases |ys|
  {
    if |ys| > 0 {
      var init := ys[..|ys| - 1];
      assert (xs + ys)[..|xs + ys| - 1] == xs + init;
      BlocksAppend(xs, init);
    } else {
      assert xs + ys == xs;
    }
  }

  lemma Blocks6(a: seq<real>, b: seq<real>, c: seq<real>, d: seq<real>, e: seq<real>, f: seq<real>)
    requires |a| == |b| == |c| == |d| == |e| == |f| == CylinderVertexFloats
    ensures Blocks([a, b, c, d, e, f]) == (a + b + c) + (d + e + f)
  {
    assert [a, b, c, d, e, f] == [a, b, c] + [d, e, f];
    BlocksAppend([a, b, c], [d, e, f]);
    Blocks3(a, b, c);
    Blocks3(d, e, f);
  }

  /** The six side vertices of a slice whose edges are at (x0, z0) and
      (x1, z1), with outward normals (nx0, 0, nz0) and (nx1, 0, nz1): the
      bottom edge has v = 0, the top edge v = 1. */
  function SideQuadAt(x0: real, z0: real, x1: real, z1: real, nx0: real, nz0: real, nx1: real, nz1: real,
                      u0: real, u1: real, halfH: real): seq<real>
  {
    Blocks([Vert(x0, -halfH, z0, nx0, 0.0, nz0, u0, 0.0),
            Vert(x0, halfH, z0, nx0, 0.0, nz0, u0, 1.0),
            Vert(x1, halfH, z1, nx1, 0.0, nz1, u1, 1.0),
            Vert(x0, -halfH, z0, nx0, 0.0, nz0, u0, 0.0),
            Vert(x1, halfH, z1, nx1, 0.0, nz1, u1, 1.0),
            Vert(x1, -halfH, z1, nx1, 0.0, nz1, u1, 0.0)])
  }

  /** The texture coordinate of a rim point on a cap: (x/radius + 1)/2. */
  function CapUV(x: real, radius: real): real
    requires radius != 0.0
  {
    (x / radius + 1.0) * 0.5
  }

  /** The top-cap triangle of a slice: the centre, then edge i+1, then edge i. */
  function TopFanAt(x0: real, z0: real, x1: real, z1: real, radius: real, halfH: real): seq<real>
    requires radius != 0.0
  {
    Blocks([Vert(0.0, halfH, 0.0, 0.0, 1.0, 0.0, 0.5, 0.5),
            Vert(x1, halfH, z1, 0.0, 1.0, 0.0, CapUV(x1, radius), CapUV(z1, radius)),
            Vert(x0, halfH, z0, 0.0, 1.0, 0.0, CapUV(x0, radius), CapUV(z0, radius))])
  }

  /** The bottom-cap triangle of a slice: the centre, then edge i, then edge i+1. */
  function BottomFanAt(x0: real, z0: real, x1: real, z1: real, radius: real, halfH: real): seq<real>
    requires radius != 0.0
  {
    Blocks([Vert(0.0, -halfH, 0.0, 0.0, -1.0, 0.0, 0.5, 0.5),
            Vert(x0, -halfH, z0, 0.0, -1.0, 0.0, CapUV(x0, radius), CapUV(z0, radius)),
            Vert(x1, -halfH, z1, 0.0, -1.0, 0.0, CapUV(x1, radius), CapUV(z1, radius))])
  }

  function SideQuad(radius: real, halfH: real, segments: int, cos: real -> real, sin: real -> real, i: int): (r: seq<real>)
    requires segments != 0
    ensures |r| == 6 * CylinderVertexFloats
  {
    var a0, a1 := Angle(i, segments), Angle(i + 1, segments);
    SideQuadAt(cos(a0) * radius, sin(a0) * radius, cos(a1) * radius, sin(a1) * radius,
               cos(a0), sin(a0), cos(a1), sin(a1), Fraction(i, segments), Fraction(i + 1, segments), halfH)
  }

  function TopFan(radius: real, halfH: real, segments: int, cos: real -> real, sin: real -> real, i: int): (r: seq<real>)
    requires segments != 0 && radius != 0.0
    ensures |r| == 3 * CylinderVertexFloats
  {
    var a0, a1 := Angle(i, segments), Angle(i + 1, segments);
    TopFanAt(cos(a0) * radius, sin(a0) * radius, cos(a1) * radius, sin(a1) * radius, radius, halfH)
  }

  function BottomFan(radius: real, halfH: real, segments: int, cos: real -> real, sin: real -> real, i: int): (r: seq<real>)
    requires segments != 0 && radius != 0.0
    ensures |r| == 3 * CylinderVertexFloats
  {
    var a0, a1 := Angle(i, segments), Angle(i + 1, segments);
    BottomFanAt(cos(a0) * radius, sin(a0) * radius, cos(a1) * radius, sin(a1) * radius, radius, halfH)
  }

  // The three loops, one grid row each. With no segments the loops do not
  // run, so the cells are never consulted and are left empty.

  function SideCell(radius: real, halfH: real, segments: int, cos: real -> real, sin: real -> real): (int, int) -> seq<real> {
    (r, c) => if segments == 0 then [] else SideQuad(radius, halfH, segments, cos, sin, c)
  }

  function TopCell(radius: real, halfH: real, segments: int, cos: real -> real, sin: real -> real): (int, int) -> seq<real>
    requires radius != 0.0
  {
    (r, c) => if segments == 0 then [] else TopFan(radius, halfH, segments, cos, sin, c)
  }

  function BottomCell(radius: real, halfH: real, segments: int, cos: real -> real, sin: real -> real): (int, int) -> seq<real>
    requires radius != 0.0
  {
    (r, c) => if segments == 0 then [] else BottomFan(radius, halfH, segments, cos, sin, c)
  }

  /** The float list Cylinder::build uploads: all side slices, then all
      top-cap triangles, then all bottom-cap triangles. */
  function CylinderVertices(radius: real, height: real, segments: int, cos: real -> real, sin: real -> real): seq<real>
    requires radius != 0.0
  {
    var halfH := height * 0.5;
    var n := Nat0(segments);
    Row(SideCell(radius, halfH, segments, cos, sin), 0, n) +
    Row(TopCell(radius, halfH, segments, cos, sin), 0, n) +
    Row(BottomCell(radius, halfH, segments, cos, sin), 0, n)
  }

  /** The 8 floats of vertex k. */
  function VertexAt(vs: seq<real>, k: int): (v: seq<real>)
    requires 0 <= k && CylinderVertexFloats * k + CylinderVertexFloats <= |vs|
    ensures |v| == CylinderVertexFloats
  {
    vs[CylinderVertexFloats * k .. CylinderVertexFloats * k + CylinderVertexFloats]
  }

  // ---------------------------------------------------------------------
  // The vertex count.

  lemma CellsUniform(radius: real, halfH: real, segments: int, cos: real -> real, sin: real -> real)
    requires radius != 0.0 && segments != 0
    ensures Uniform(SideCell(radius, halfH, segments, cos, sin), 6 * CylinderVertexFloats)
    ensures Uniform(TopCell(radius, halfH, segments, cos, sin), 3 * CylinderVertexFloats)
    ensures Uniform(BottomCell(radius, halfH, segments, cos, sin), 3 * CylinderVertexFloats)
  {
    var side, top, bottom := SideCell(radius, halfH, segments, cos, sin),
                             TopCell(radius, halfH, segments, cos, sin),
                             BottomCell(radius, halfH, segments, cos, sin);
    forall r, c
      ensures |side(r, c)| == 6 * CylinderVertexFloats
      ensures |top(r, c)| == 3 * CylinderVertexFloats
      ensures |bottom(r, c)| == 3 * CylinderVertexFloats
    {
      assert side(r, c) == SideQuad(radius, halfH, segments, cos, sin, c);
      assert top(r, c) == TopFan(radius, halfH, segments, cos, sin, c);
      assert bottom(r, c) == BottomFan(radius, halfH, segments, cos, sin, c);
    }
  }

  /** vertices.size() is 96 floats per segment, so vertexCount =
      vertices.size()/8 is 12 per segment: 6 side, 3 top and 3 bottom. */
  lemma CylinderVertexCount(radius: real, height: real, segments: int, cos: real -> real, sin: real -> real)
    requires radius != 0.0
    ensures |CylinderVertices(radius, height, segments, cos, sin)| == VerticesPerSegment * CylinderVertexFloats * Nat0(segments)
    ensures |CylinderVertices(radius, height, segments, cos, sin)| % CylinderVertexFloats == 0
    ensures |CylinderVertices(radius, height, segments, cos, sin)| / CylinderVertexFloats == VerticesPerSegment * Nat0(segments)
  {
    var halfH := height * 0.5;
    var n := Nat0(segments);
    if segments != 0 {
      CellsUniform(radius, halfH, segments, cos, sin);
      RowLength(SideCell(radius, halfH, segments, cos, sin), 6 * CylinderVertexFloats, 0, n);
      RowLength(TopCell(radius, halfH, segments, cos, sin), 3 * CylinderVertexFloats, 0, n);
      RowLength(BottomCell(radius, halfH, segments, cos, sin), 3 * CylinderVertexFloats, 0, n);
    }
    assert 48 * n + 24 * n + 24 * n == 96 * n;
  }

  // ---------------------------------------------------------------------
  // Where each vertex sits.

  lemma CylinderParts(radius: real, height: real, segments: int, cos: real -> real, sin: real -> real)
    requires radius != 0.0 && segments > 0
    ensures |Row(SideCell(radius, height * 0.5, segments, cos, sin), 0, segments)| == 48 * segments
    ensures |Row(TopCell(radius, height * 0.5, segments, cos, sin), 0, segments)| == 24 * segments
    ensures |CylinderVertices(radius, height, segments, cos, sin)| == 96 * segments
    ensures CylinderVertices(radius, height, segments, cos, sin) ==
            Row(SideCell(radius, height * 0.5, segments, cos, sin), 0, segments) +
            (Row(TopCell(radius, height * 0.5, segments, cos, sin), 0, segments) +
             Row(BottomCell(radius, height * 0.5, segments, cos, sin), 0, segments))
  {
    var halfH := height * 0.5;
    CellsUniform(radius, halfH, segments, cos, sin);
    RowLength(SideCell(radius, halfH, segments, cos, sin), 48, 0, segments);
    RowLength(TopCell(radius, halfH, segments, cos, sin), 24, 0, segments);
    CylinderVertexCount(radius, height, segments, cos, sin);
  }

  lemma SliceAfter(a: seq<real>, b: seq<real>, i: int, j: int)
    requires |a| <= i <= j <= |a| + |b|
    ensures (a + b)[i .. j] == b[i - |a| .. j - |a|]
  {
  }

  lemma SliceBefore(a: seq<real>, b: seq<real>, i: int, j: int)
    requires 0 <= i <= j <= |a|
    ensures (a + b)[i .. j] == a[i .. j]
  {
  }

  lemma DivSplit(k: int, d: int)
    requires 0 <= k && d > 0
    ensures k == d * (k / d) + k % d && 0 <= k % d < d && 0 <= k / d
  {
  }

  /** In a list made of `before`, one row of `width`-float cells and
      `after`, vertex k is corner m of cell c when 8k = |before| +
      c*width + 8m. */
  lemma PartCorner(whole: seq<real>, before: seq<real>, cell: (int, int) -> seq<real>, width: nat, n: nat,
                   after: seq<real>, c: int, m: int, k: int)
    requires Uniform(cell, width) && 0 <= c < n && 0 <= m && 8 * m + 8 <= width
    requires whole == before + (Row(cell, 0, n) + after)
    requires 8 * k == |before| + c * width + 8 * m
    ensures 0 <= k && 8 * k + 8 <= |whole|
    ensures VertexAt(whole, k) == cell(0, c)[8 * m .. 8 * m + 8]
  {
    var row := Row(cell, 0, n);
    RowSlice(cell, width, 0, n, c, 8 * m, 8 * m + 8);
    var i := 8 * k - |before|;
    SliceAfter(before, row + after, 8 * k, 8 * k + 8);
    SliceBefore(row, after, i, i + 8);
  }

  /** Side vertex k is corner k % 6 of slice k / 6. */
  lemma SideLayout(radius: real, height: real, segments: int, cos: real -> real, sin: real -> real, k: int)
    requires radius != 0.0 && segments > 0 && 0 <= k < 6 * segments
    ensures |CylinderVertices(radius, height, segments, cos, sin)| == 96 * segments
    ensures VertexAt(CylinderVertices(radius, height, segments, cos, sin), k) ==
            SideQuad(radius, height * 0.5, segments, cos, sin, k / 6)[8 * (k % 6) .. 8 * (k % 6) + 8]
  {
    var halfH := height * 0.5;
    var side := SideCell(radius, halfH, segments, cos, sin);
    var rest := Row(TopCell(radius, halfH, segments, cos, sin), 0, segments) +
                Row(BottomCell(radius, halfH, segments, cos, sin), 0, segments);
    CylinderParts(radius, height, segments, cos, sin);
    CellsUniform(radius, halfH, segments, cos, sin);
    DivSplit(k, 6);
    PartCorner(CylinderVertices(radius, height, segments, cos, sin), [], side, 48, segments, rest, k / 6, k % 6, k);
    assert side(0, k / 6) == SideQuad(radius, halfH, segments, cos, sin, k / 6);
  }

  /** Top-cap vertex 6*segments + t is corner t % 3 of triangle t / 3. */
  lemma TopLayout(radius: real, height: real, segments: int, cos: real -> real, sin: real -> real, t: int)
    requires radius != 0.0 && segments > 0 && 0 <= t < 3 * segments
    ensures |CylinderVertices(radius, height, segments, cos, sin)| == 96 * segments
    ensures VertexAt(CylinderVertices(radius, height, segments, cos, sin), 6 * segments + t) ==
            TopFan(radius, height * 0.5, segments, cos, sin, t / 3)[8 * (t % 3) .. 8 * (t % 3) + 8]
  {
    var halfH := height * 0.5;
    var top := TopCell(radius, halfH, segments, cos, sin);
    var s := Row(SideCell(radius, halfH, segments, cos, sin), 0, segments);
    var b := Row(BottomCell(radius, halfH, segments, cos, sin), 0, segments);
    CylinderParts(radius, height, segments, cos, sin);
    CellsUniform(radius, halfH, segments, cos, sin);
    DivSplit(t, 3);
    PartCorner(CylinderVertices(radius, height, segments, cos, sin), s, top, 24, segments, b, t / 3, t % 3, 6 * segments + t);
    assert top(0, t / 3) == TopFan(radius, halfH, segments, cos, sin, t / 3);
  }

  /** Bottom-cap vertex 9*segments + t is corner t % 3 of triangle t / 3. */
  lemma BottomLayout(radius: real, height: real, segments: int, cos: real -> real, sin: real -> real, t: int)
    requires radius != 0.0 && segments > 0 && 0 <= t < 3 * segments
    ensures |CylinderVertices(radius, height, segments, cos, sin)| == 96 * segments
    ensures VertexAt(CylinderVertices(radius, height, segments, cos, sin), 9 * segments + t) ==
            BottomFan(radius, height * 0.5, segments, cos, sin, t / 3)[8 * (t % 3) .. 8 * (t % 3) + 8]
  {
    var halfH := height * 0.5;
    var bottom := BottomCell(radius, halfH, segments, cos, sin);
    var s := Row(SideCell(radius, halfH, segments, cos, sin), 0, segments);
    var tp := Row(TopCell(radius, halfH, segments, cos, sin), 0, segments);
    var vs := CylinderVertices(radius, height, segments, cos, sin);
    CylinderParts(radius, height, segments, cos, sin);
    CellsUniform(radius, halfH, segments, cos, sin);
    DivSplit(t, 3);
    var b := Row(bottom, 0, segments);
    assert b + [] == b;
    AppendAssoc(s, tp, b);
    PartCorner(vs, s + tp, bottom, 24, segments, [], t / 3, t % 3, 9 * segments + t);
    assert bottom(0, t / 3) == BottomFan(radius, halfH, segments, cos, sin, t / 3);
  }

  // ---------------------------------------------------------------------
  // What the vertices are.

  /** i/segments lies in [0, 1] for 0 <= i <= segments. */
  lemma FractionInUnit(i: int, segments: int)
    requires 0 <= i <= segments && segments > 0
    ensures 0.0 <= Fraction(i, segments) <= 1.0
  {
    assert Fraction(i, segments) * segments as real == i as real;
  }

  /** Corner m of a side slice: on the bottom edge with v = 0 or on the top
      edge with v = 1, at one of the two edges' u, with that edge's
      horizontal normal. */
  lemma SideCorner(x0: real, z0: real, x1: real, z1: real, nx0: real, nz0: real, nx1: real, nz1: real,
                   u0: real, u1: real, halfH: real, m: int)
    requires 0 <= m < 6
    ensures var w := SideQuadAt(x0, z0, x1, z1, nx0, nz0, nx1, nz1, u0, u1, halfH)[8 * m .. 8 * m + 8];
            ((w[1] == -halfH && w[7] == 0.0) || (w[1] == halfH && w[7] == 1.0)) &&
            ((w[6] == u0 && w[3] == nx0 && w[5] == nz0) || (w[6] == u1 && w[3] == nx1 && w[5] == nz1)) &&
            w[4] == 0.0
  {
    var lo0 := Vert(x0, -halfH, z0, nx0, 0.0, nz0, u0, 0.0);
    var hi0 := Vert(x0, halfH, z0, nx0, 0.0, nz0, u0, 1.0);
    var hi1 := Vert(x1, halfH, z1, nx1, 0.0, nz1, u1, 1.0);
    var lo1 := Vert(x1, -halfH, z1, nx1, 0.0, nz1, u1, 0.0);
    var q := SideQuadAt(x0, z0, x1, z1, nx0, nz0, nx1, nz1, u0, u1, halfH);
    var w := q[8 * m .. 8 * m + 8];
    assert w == [lo0, hi0, hi1, lo0, hi1, lo1][m] by {
      BlockAt([lo0, hi0, hi1, lo0, hi1, lo1], m);
    }
  }

  /** Side vertices: the bottom edge (y = -halfH) has v = 0 and the top edge
      (y = +halfH) has v = 1; u is i/segments or (i+1)/segments for slice
      i = k/6, so it lies in [0, 1]; the normal is horizontal and, with a
      cosine and sine on the unit circle, of unit length. */
  lemma SideVertices(radius: real, height: real, segments: int, cos: real -> real, sin: real -> real, k: int)
    requires radius != 0.0 && segments > 0 && 0 <= k < 6 * segments
    ensures |CylinderVertices(radius, height, segments, cos, sin)| == 96 * segments
    ensures var v := VertexAt(CylinderVertices(radius, height, segments, cos, sin), k);
            var i := k / 6;
            ((v[1] == -height * 0.5 && v[7] == 0.0) || (v[1] == height * 0.5 && v[7] == 1.0)) &&
            (v[6] == Fraction(i, segments) || v[6] == Fraction(i + 1, segments)) &&
            0.0 <= v[6] <= 1.0 && v[4] == 0.0 &&
            (IsUnitCircle(cos, sin) ==> LengthSq(Normal(v)) == 1.0)
  {
    SideLayout(radius, height, segments, cos, sin, k);
    var i, m := k / 6, k % 6;
    var w := SideQuad(radius, height * 0.5, segments, cos, sin, i)[8 * m .. 8 * m + 8];
    SideSliceCorner(radius, height * 0.5, segments, cos, sin, i, m);
    FractionInUnit(i, segments);
    FractionInUnit(i + 1, segments);
  }

  /** Corner m of side slice i, in terms of the slice's two edge angles. */
  lemma SideSliceCorner(radius: real, halfH: real, segments: int, cos: real -> real, sin: real -> real, i: int, m: int)
    requires segments != 0 && 0 <= m < 6
    ensures var w := SideQuad(radius, halfH, segments, cos, sin, i)[8 * m .. 8 * m + 8];
            ((w[1] == -halfH && w[7] == 0.0) || (w[1] == halfH && w[7] == 1.0)) &&
            (w[6] == Fraction(i, segments) || w[6] == Fraction(i + 1, segments)) &&
            w[4] == 0.0 &&
            (IsUnitCircle(cos, sin) ==> LengthSq(Normal(w)) == 1.0)
  {
    SideCorner(cos(Angle(i, segments)) * radius, sin(Angle(i, segments)) * radius,
               cos(Angle(i + 1, segments)) * radius, sin(Angle(i + 1, segments)) * radius,
               cos(Angle(i, segments)), sin(Angle(i, segments)), cos(Angle(i + 1, segments)), sin(Angle(i + 1, segments)),
               Fraction(i, segments), Fraction(i + 1, segments), halfH, m);
    if IsUnitCircle(cos, sin) {
      assert cos(Angle(i, segments)) * cos(Angle(i, segments)) + sin(Angle(i, segments)) * sin(Angle(i, segments)) == 1.0;
      assert cos(Angle(i + 1, segments)) * cos(Angle(i + 1, segments)) + sin(Angle(i + 1, segments)) * sin(Angle(i + 1, segments)) == 1.0;
    }
  }

  /** Corner m of a top-cap triangle: the centre for m = 0, otherwise one
      of the two rim points with its cap uv. */
  lemma TopFanAtCorner(x0: real, z0: real, x1: real, z1: real, radius: real, halfH: real, m: int)
    requires radius != 0.0 && 0 <= m < 3
    ensures var w := TopFanAt(x0, z0, x1, z1, radius, halfH)[8 * m .. 8 * m + 8];
            w[1] == halfH && w[3] == 0.0 && w[4] == 1.0 && w[5] == 0.0 &&
            (m == 0 ==> w == Vert(0.0, halfH, 0.0, 0.0, 1.0, 0.0, 0.5, 0.5)) &&
            (m != 0 ==> (w[6] == CapUV(x0, radius) && w[7] == CapUV(z0, radius)) ||
                        (w[6] == CapUV(x1, radius) && w[7] == CapUV(z1, radius)))
  {
    BlockAt([Vert(0.0, halfH, 0.0, 0.0, 1.0, 0.0, 0.5, 0.5),
             Vert(x1, halfH, z1, 0.0, 1.0, 0.0, CapUV(x1, radius), CapUV(z1, radius)),
             Vert(x0, halfH, z0, 0.0, 1.0, 0.0, CapUV(x0, radius), CapUV(z0, radius))], m);
  }

  /** Corner m of a bottom-cap triangle: the centre for m = 0, otherwise
      one of the two rim points with its cap uv. */
  lemma BottomFanAtCorner(x0: real, z0: real, x1: real, z1: real, radius: real, halfH: real, m: int)
    requires radius != 0.0 && 0 <= m < 3
    ensures var w := BottomFanAt(x0, z0, x1, z1, radius, halfH)[8 * m .. 8 * m + 8];
            w[1] == -halfH && w[3] == 0.0 && w[4] == -1.0 && w[5] == 0.0 &&
            (m == 0 ==> w == Vert(0.0, -halfH, 0.0, 0.0, -1.0, 0.0, 0.5, 0.5)) &&
            (m != 0 ==> (w[6] == CapUV(x0, radius) && w[7] == CapUV(z0, radius)) ||
                        (w[6] == CapUV(x1, radius) && w[7] == CapUV(z1, radius)))
  {
    BlockAt([Vert(0.0, -halfH, 0.0, 0.0, -1.0, 0.0, 0.5, 0.5),
             Vert(x0, -halfH, z0, 0.0, -1.0, 0.0, CapUV(x0, radius), CapUV(z0, radius)),
             Vert(x1, -halfH, z1, 0.0, -1.0, 0.0, CapUV(x1, radius), CapUV(z1, radius))], m);
  }

  /** Corner m of the top-cap triangle whose rim points are (c0, s0) and
      (c1, s1) scaled by the radius. */
  lemma TopRim(c0: real, s0: real, c1: real, s1: real, x0: real, z0: real, x1: real, z1: real,
                radius: real, halfH: real, m: int)
    requires radius != 0.0 && 0 <= m < 3
    requires x0 == c0 * radius && z0 == s0 * radius && x1 == c1 * radius && z1 == s1 * radius
    ensures var w := TopFanAt(x0, z0, x1, z1, radius, halfH)[8 * m .. 8 * m + 8];
            w[1] == halfH && w[3] == 0.0 && w[4] == 1.0 && w[5] == 0.0 &&
            (m == 0 ==> w == Vert(0.0, halfH, 0.0, 0.0, 1.0, 0.0, 0.5, 0.5)) &&
            (c0 * c0 + s0 * s0 == 1.0 && c1 * c1 + s1 * s1 == 1.0 ==> 0.0 <= w[6] <= 1.0 && 0.0 <= w[7] <= 1.0)
  {
    TopFanAtCorner(x0, z0, x1, z1, radius, halfH, m);
    if c0 * c0 + s0 * s0 == 1.0 && c1 * c1 + s1 * s1 == 1.0 {
      RimUV(radius, c0, s0);
      RimUV(radius, c1, s1);
    }
  }

  /** Corner m of the bottom-cap triangle whose rim points are (c0, s0) and
      (c1, s1) scaled by the radius. */
  lemma BottomRim(c0: real, s0: real, c1: real, s1: real, x0: real, z0: real, x1: real, z1: real,
                radius: real, halfH: real, m: int)
    requires radius != 0.0 && 0 <= m < 3
    requires x0 == c0 * radius && z0 == s0 * radius && x1 == c1 * radius && z1 == s1 * radius
    ensures var w := BottomFanAt(x0, z0, x1, z1, radius, halfH)[8 * m .. 8 * m + 8];
            w[1] == -halfH && w[3] == 0.0 && w[4] == -1.0 && w[5] == 0.0 &&
            (m == 0 ==> w == Vert(0.0, -halfH, 0.0, 0.0, -1.0, 0.0, 0.5, 0.5)) &&
            (c0 * c0 + s0 * s0 == 1.0 && c1 * c1 + s1 * s1 == 1.0 ==> 0.0 <= w[6] <= 1.0 && 0.0 <= w[7] <= 1.0)
  {
    BottomFanAtCorner(x0, z0, x1, z1, radius, halfH, m);
    if c0 * c0 + s0 * s0 == 1.0 && c1 * c1 + s1 * s1 == 1.0 {
      RimUV(radius, c0, s0);
      RimUV(radius, c1, s1);
    }
  }

  /** Corner m of top-cap triangle i: on y = halfH with normal (0, 1, 0),
      the centre for m = 0, and with a cosine and sine on the unit circle a
      uv inside the unit square. */
  lemma TopFanCorner(radius: real, halfH: real, segments: int, cos: real -> real, sin: real -> real, i: int, m: int)
    requires radius != 0.0 && segments != 0 && 0 <= m < 3
    ensures var w := TopFan(radius, halfH, segments, cos, sin, i)[8 * m .. 8 * m + 8];
            w[1] == halfH && w[3] == 0.0 && w[4] == 1.0 && w[5] == 0.0 &&
            (m == 0 ==> w == Vert(0.0, halfH, 0.0, 0.0, 1.0, 0.0, 0.5, 0.5)) &&
            (IsUnitCircle(cos, sin) ==> 0.0 <= w[6] <= 1.0 && 0.0 <= w[7] <= 1.0)
  {
    assert TopFan(radius, halfH, segments, cos, sin, i) ==
           TopFanAt(cos(Angle(i, segments)) * radius, sin(Angle(i, segments)) * radius,
                    cos(Angle(i + 1, segments)) * radius, sin(Angle(i + 1, segments)) * radius, radius, halfH);
    TopRim(cos(Angle(i, segments)), sin(Angle(i, segments)), cos(Angle(i + 1, segments)), sin(Angle(i + 1, segments)),
           cos(Angle(i, segments)) * radius, sin(Angle(i, segments)) * radius,
           cos(Angle(i + 1, segments)) * radius, sin(Angle(i + 1, segments)) * radius,
           radius, halfH, m);
    if IsUnitCircle(cos, sin) {
      assert cos(Angle(i, segments)) * cos(Angle(i, segments)) + sin(Angle(i, segments)) * sin(Angle(i, segments)) == 1.0;
      assert cos(Angle(i + 1, segments)) * cos(Angle(i + 1, segments)) + sin(Angle(i + 1, segments)) * sin(Angle(i + 1, segments)) == 1.0;
    }
  }

  /** Corner m of bottom-cap triangle i: on y = -halfH with normal
      (0, -1, 0), the centre for m = 0, and with a cosine and sine on the
      unit circle a uv inside the unit square. */
  lemma BottomFanCorner(radius: real, halfH: real, segments: int, cos: real -> real, sin: real -> real, i: int, m: int)
    requires radius != 0.0 && segments != 0 && 0 <= m < 3
    ensures var w := BottomFan(radius, halfH, segments, cos, sin, i)[8 * m .. 8 * m + 8];
            w[1] == -halfH && w[3] == 0.0 && w[4] == -1.0 && w[5] == 0.0 &&
            (m == 0 ==> w == Vert(0.0, -halfH, 0.0, 0.0, -1.0, 0.0, 0.5, 0.5)) &&
            (IsUnitCircle(cos, sin) ==> 0.0 <= w[6] <= 1.0 && 0.0 <= w[7] <= 1.0)
  {
    assert BottomFan(radius, halfH, segments, cos, sin, i) ==
           BottomFanAt(cos(Angle(i, segments)) * radius, sin(Angle(i, segments)) * radius,
                    cos(Angle(i + 1, segments)) * radius, sin(Angle(i + 1, segments)) * radius, radius, halfH);
    BottomRim(cos(Angle(i, segments)), sin(Angle(i, segments)), cos(Angle(i + 1, segments)), sin(Angle(i + 1, segments)),
           cos(Angle(i, segments)) * radius, sin(Angle(i, segments)) * radius,
           cos(Angle(i + 1, segments)) * radius, sin(Angle(i + 1, segments)) * radius,
              radius, halfH, m);
    if IsUnitCircle(cos, sin) {
      assert cos(Angle(i, segments)) * cos(Angle(i, segments)) + sin(Angle(i, segments)) * sin(Angle(i, segments)) == 1.0;
      assert cos(Angle(i + 1, segments)) * cos(Angle(i + 1, segments)) + sin(Angle(i + 1, segments)) * sin(Angle(i + 1, segments)) == 1.0;
    }
  }

  /** Top-cap vertices (6*segments + t for t < 3*segments) lie on the plane
      y = +halfH with normal (0, 1, 0); the first of each triangle is the
      centre (0, halfH, 0) with uv (0.5, 0.5). With a cosine and sine on
      the unit circle, every uv lies in [0, 1]. */
  lemma TopCapVertices(radius: real, height: real, segments: int, cos: real -> real, sin: real -> real, t: int)
    requires radius != 0.0 && segments > 0 && 0 <= t < 3 * segments
    ensures |CylinderVertices(radius, height, segments, cos, sin)| == 96 * segments
    ensures var v := VertexAt(CylinderVertices(radius, height, segments, cos, sin), 6 * segments + t);
            v[1] == height * 0.5 && v[3] == 0.0 && v[4] == 1.0 && v[5] == 0.0 &&
            (t % 3 == 0 ==> v == Vert(0.0, height * 0.5, 0.0, 0.0, 1.0, 0.0, 0.5, 0.5)) &&
            (IsUnitCircle(cos, sin) ==> 0.0 <= v[6] <= 1.0 && 0.0 <= v[7] <= 1.0)
  {
    TopLayout(radius, height, segments, cos, sin, t);
    TopFanCorner(radius, height * 0.5, segments, cos, sin, t / 3, t % 3);
  }

  /** Bottom-cap vertices (9*segments + t for t < 3*segments) lie on the
      plane y = -halfH with normal (0, -1, 0); the first of each triangle
      is the centre (0, -halfH, 0) with uv (0.5, 0.5). With a cosine and
      sine on the unit circle, every uv lies in [0, 1]. */
  lemma BottomCapVertices(radius: real, height: real, segments: int, cos: real -> real, sin: real -> real, t: int)
    requires radius != 0.0 && segments > 0 && 0 <= t < 3 * segments
    ensures |CylinderVertices(radius, height, segments, cos, sin)| == 96 * segments
    ensures var v := VertexAt(CylinderVertices(radius, height, segments, cos, sin), 9 * segments + t);
            v[1] == -(height * 0.5) && v[3] == 0.0 && v[4] == -1.0 && v[5] == 0.0 &&
            (t % 3 == 0 ==> v == Vert(0.0, -(height * 0.5), 0.0, 0.0, -1.0, 0.0, 0.5, 0.5)) &&
            (IsUnitCircle(cos, sin) ==> 0.0 <= v[6] <= 1.0 && 0.0 <= v[7] <= 1.0)
  {
    BottomLayout(radius, height, segments, cos, sin, t);
    BottomFanCorner(radius, height * 0.5, segments, cos, sin, t / 3, t % 3);
  }

  /** A rim point (c * radius, s * radius) with (c, s) on the unit circle
      maps into the unit uv square. */
  lemma RimUV(radius: real, c: real, s: real)
    requires radius != 0.0 && c * c + s * s == 1.0
    ensures 0.0 <= CapUV(c * radius, radius) <= 1.0
    ensures 0.0 <= CapUV(s * radius, radius) <= 1.0
  {
    assert (c * radius) / radius == c;
    assert (s * radius) / radius == s;
    UnitComponent(c, s);
    UnitComponent(s, c);
  }

  lemma UnitComponent(c: real, s: real)
    requires c * c + s * s == 1.0
    ensures -1.0 <= c <= 1.0
  {
    assert s * s >= 0.0;
  }

  // ---------------------------------------------------------------------
  // Cylinder::build.

  lemma SideCellIs(radius: real, halfH: real, segments: int, cos: real -> real, sin: real -> real, i: int)
    requires segments != 0
    ensures SideCell(radius, halfH, segments, cos, sin)(0, i) ==
            SideQuadAt(cos(Angle(i, segments)) * radius, sin(Angle(i, segments)) * radius,
                       cos(Angle(i + 1, segments)) * radius, sin(Angle(i + 1, segments)) * radius,
                       cos(Angle(i, segments)), sin(Angle(i, segments)), cos(Angle(i + 1, segments)), sin(Angle(i + 1, segments)),
                       Fraction(i, segments), Fraction(i + 1, segments), halfH)
  {
  }

  lemma TopCellIs(radius: real, halfH: real, segments: int, cos: real -> real, sin: real -> real, i: int)
    requires segments != 0 && radius != 0.0
    ensures TopCell(radius, halfH, segments, cos, sin)(0, i) ==
            TopFanAt(cos(Angle(i, segments)) * radius, sin(Angle(i, segments)) * radius,
                     cos(Angle(i + 1, segments)) * radius, sin(Angle(i + 1, segments)) * radius, radius, halfH)
  {
  }

  lemma BottomCellIs(radius: real, halfH: real, segments: int, cos: real -> real, sin: real -> real, i: int)
    requires segments != 0 && radius != 0.0
    ensures BottomCell(radius, halfH, segments, cos, sin)(0, i) ==
            BottomFanAt(cos(Angle(i, segments)) * radius, sin(Angle(i, segments)) * radius,
                        cos(Angle(i + 1, segments)) * radius, sin(Angle(i + 1, segments)) * radius, radius, halfH)
  {
  }

  lemma SameSideQuad(x0: real, z0: real, x1: real, z1: real, nx0: real, nz0: real, nx1: real, nz1: real, u0: real, u1: real,
                     y0: real, w0: real, y1: real, w1: real, mx0: real, mz0: real, mx1: real, mz1: real, v0: real, v1: real,
                     halfH: real)
    requires x0 == y0 && z0 == w0 && x1 == y1 && z1 == w1
    requires nx0 == mx0 && nz0 == mz0 && nx1 == mx1 && nz1 == mz1 && u0 == v0 && u1 == v1
    ensures SideQuadAt(x0, z0, x1, z1, nx0, nz0, nx1, nz1, u0, u1, halfH) ==
            SideQuadAt(y0, w0, y1, w1, mx0, mz0, mx1, mz1, v0, v1, halfH)
  {
  }

  /** Slice i's six side vertices, as the first loop computes them from
      the edge angles a0 and a1. */
  lemma SideStep(radius: real, halfH: real, segments: int, cos: real -> real, sin: real -> real, i: int, a0: real, a1: real,
                 x0: real, z0: real, x1: real, z1: real, nx0: real, nz0: real, nx1: real, nz1: real, u0: real, u1: real)
    requires segments != 0 && a0 == Angle(i, segments) && a1 == Angle(i + 1, segments)
    requires x0 == cos(a0) * radius && z0 == sin(a0) * radius && x1 == cos(a1) * radius && z1 == sin(a1) * radius
    requires nx0 == cos(a0) && nz0 == sin(a0) && nx1 == cos(a1) && nz1 == sin(a1)
    requires u0 == Fraction(i, segments) && u1 == Fraction(i + 1, segments)
    ensures SideCell(radius, halfH, segments, cos, sin)(0, i) ==
            (Vert(x0, -halfH, z0, nx0, 0.0, nz0, u0, 0.0) +
             Vert(x0, halfH, z0, nx0, 0.0, nz0, u0, 1.0) +
             Vert(x1, halfH, z1, nx1, 0.0, nz1, u1, 1.0)) +
            (Vert(x0, -halfH, z0, nx0, 0.0, nz0, u0, 0.0) +
             Vert(x1, halfH, z1, nx1, 0.0, nz1, u1, 1.0) +
             Vert(x1, -halfH, z1, nx1, 0.0, nz1, u1, 0.0))
  {
    SideCellIs(radius, halfH, segments, cos, sin, i);
    SameSideQuad(cos(Angle(i, segments)) * radius, sin(Angle(i, segments)) * radius,
                 cos(Angle(i + 1, segments)) * radius, sin(Angle(i + 1, segments)) * radius,
                 cos(Angle(i, segments)), sin(Angle(i, segments)), cos(Angle(i + 1, segments)), sin(Angle(i + 1, segments)),
                 u0, u1, x0, z0, x1, z1, nx0, nz0, nx1, nz1, u0, u1, halfH);
    Blocks6(Vert(x0, -halfH, z0, nx0, 0.0, nz0, u0, 0.0),
            Vert(x0, halfH, z0, nx0, 0.0, nz0, u0, 1.0),
            Vert(x1, halfH, z1, nx1, 0.0, nz1, u1, 1.0),
            Vert(x0, -halfH, z0, nx0, 0.0, nz0, u0, 0.0),
            Vert(x1, halfH, z1, nx1, 0.0, nz1, u1, 1.0),
            Vert(x1, -halfH, z1, nx1, 0.0, nz1, u1, 0.0));
  }

  /** Top-cap triangle i, as the second loop computes it. */
  lemma TopStep(radius: real, halfH: real, segments: int, cos: real -> real, sin: real -> real, i: int, a0: real, a1: real,
                x0: real, z0: real, x1: real, z1: real)
    requires segments != 0 && radius != 0.0 && a0 == Angle(i, segments) && a1 == Angle(i + 1, segments)
    requires x0 == cos(a0) * radius && z0 == sin(a0) * radius && x1 == cos(a1) * radius && z1 == sin(a1) * radius
    ensures TopCell(radius, halfH, segments, cos, sin)(0, i) ==
            Vert(0.0, halfH, 0.0, 0.0, 1.0, 0.0, 0.5, 0.5) +
            Vert(x1, halfH, z1, 0.0, 1.0, 0.0, CapUV(x1, radius), CapUV(z1, radius)) +
            Vert(x0, halfH, z0, 0.0, 1.0, 0.0, CapUV(x0, radius), CapUV(z0, radius))
  {
    TopCellIs(radius, halfH, segments, cos, sin, i);
    SameFan(cos(Angle(i, segments)) * radius, sin(Angle(i, segments)) * radius,
            cos(Angle(i + 1, segments)) * radius, sin(Angle(i + 1, segments)) * radius, x0, z0, x1, z1, radius, halfH);
    Blocks3(Vert(0.0, halfH, 0.0, 0.0, 1.0, 0.0, 0.5, 0.5),
            Vert(x1, halfH, z1, 0.0, 1.0, 0.0, CapUV(x1, radius), CapUV(z1, radius)),
            Vert(x0, halfH, z0, 0.0, 1.0, 0.0, CapUV(x0, radius), CapUV(z0, radius)));
  }

  /** Bottom-cap triangle i, as the third loop computes it. */
  lemma BottomStep(radius: real, halfH: real, segments: int, cos: real -> real, sin: real -> real, i: int, a0: real, a1: real,
                   x0: real, z0: real, x1: real, z1: real)
    requires segments != 0 && radius != 0.0 && a0 == Angle(i, segments) && a1 == Angle(i + 1, segments)
    requires x0 == cos(a0) * radius && z0 == sin(a0) * radius && x1 == cos(a1) * radius && z1 == sin(a1) * radius
    ensures BottomCell(radius, halfH, segments, cos, sin)(0, i) ==
            Vert(0.0, -halfH, 0.0, 0.0, -1.0, 0.0, 0.5, 0.5) +
            Vert(x0, -halfH, z0, 0.0, -1.0, 0.0, CapUV(x0, radius), CapUV(z0, radius)) +
            Vert(x1, -halfH, z1, 0.0, -1.0, 0.0, CapUV(x1, radius), CapUV(z1, radius))
  {
    BottomCellIs(radius, halfH, segments, cos, sin, i);
    SameFan(cos(Angle(i, segments)) * radius, sin(Angle(i, segments)) * radius,
            cos(Angle(i + 1, segments)) * radius, sin(Angle(i + 1, segments)) * radius, x0, z0, x1, z1, radius, halfH);
    Blocks3(Vert(0.0, -halfH, 0.0, 0.0, -1.0, 0.0, 0.5, 0.5),
            Vert(x0, -halfH, z0, 0.0, -1.0, 0.0, CapUV(x0, radius), CapUV(z0, radius)),
            Vert(x1, -halfH, z1, 0.0, -1.0, 0.0, CapUV(x1, radius), CapUV(z1, radius)));
  }

  lemma SameFan(x0: real, z0: real, x1: real, z1: real, y0: real, w0: real, y1: real, w1: real, radius: real, halfH: real)
    requires radius != 0.0 && x0 == y0 && z0 == w0 && x1 == y1 && z1 == w1
    ensures TopFanAt(x0, z0, x1, z1, radius, halfH) == TopFanAt(y0, w0, y1, w1, radius, halfH)
    ensures BottomFanAt(x0, z0, x1, z1, radius, halfH) == BottomFanAt(y0, w0, y1, w1, radius, halfH)
  {
  }

  lemma AppendAssoc(a: seq<real>, b: seq<real>, c: seq<real>)
    ensures (a + b) + c == a + (b + c)
  {
  }

  /** The body of the first loop: the two side triangles of slice i. */
  method SideSlice(radius: real, halfH: real, segments: int, cos: real -> real, sin: real -> real, i: int)
    returns (quad: seq<real>)
    requires segments != 0
    ensures quad == SideCell(radius, halfH, segments, cos, sin)(0, i)
  {
    var a0 := Angle(i, segments);
    var a1 := Angle(i + 1, segments);
    var x0, z0, x1, z1 := cos(a0) * radius, sin(a0) * radius, cos(a1) * radius, sin(a1) * radius;
    var nx0, nz0, nx1, nz1 := cos(a0), sin(a0), cos(a1), sin(a1);
    var u0, u1 := Fraction(i, segments), Fraction(i + 1, segments);
    quad := (Vert(x0, -halfH, z0, nx0, 0.0, nz0, u0, 0.0) +
             Vert(x0, halfH, z0, nx0, 0.0, nz0, u0, 1.0) +
             Vert(x1, halfH, z1, nx1, 0.0, nz1, u1, 1.0)) +
            (Vert(x0, -halfH, z0, nx0, 0.0, nz0, u0, 0.0) +
             Vert(x1, halfH, z1, nx1, 0.0, nz1, u1, 1.0) +
             Vert(x1, -halfH, z1, nx1, 0.0, nz1, u1, 0.0));
    SideStep(radius, halfH, segments, cos, sin, i, a0, a1, x0, z0, x1, z1, nx0, nz0, nx1, nz1, u0, u1);
  }

  /** The body of the second loop: top-cap triangle i. */
  method TopSlice(radius: real, halfH: real, segments: int, cos: real -> real, sin: real -> real, i: int)
    returns (tri: seq<real>)
    requires segments != 0 && radius != 0.0
    ensures tri == TopCell(radius, halfH, segments, cos, sin)(0, i)
  {
    var a0 := Angle(i, segments);
    var a1 := Angle(i + 1, segments);
    var x0, z0, x1, z1 := cos(a0) * radius, sin(a0) * radius, cos(a1) * radius, sin(a1) * radius;
    tri := Vert(0.0, halfH, 0.0, 0.0, 1.0, 0.0, 0.5, 0.5) +
           Vert(x1, halfH, z1, 0.0, 1.0, 0.0, CapUV(x1, radius), CapUV(z1, radius)) +
           Vert(x0, halfH, z0, 0.0, 1.0, 0.0, CapUV(x0, radius), CapUV(z0, radius));
    TopStep(radius, halfH, segments, cos, sin, i, a0, a1, x0, z0, x1, z1);
  }

  /** The body of the third loop: bottom-cap triangle i. */
  method BottomSlice(radius: real, halfH: real, segments: int, cos: real -> real, sin: real -> real, i: int)
    returns (tri: seq<real>)
    requires segments != 0 && radius != 0.0
    ensures tri == BottomCell(radius, halfH, segments, cos, sin)(0, i)
  {
    var a0 := Angle(i, segments);
    var a1 := Angle(i + 1, segments);
    var x0, z0, x1, z1 := cos(a0) * radius, sin(a0) * radius, cos(a1) * radius, sin(a1) * radius;
    tri := Vert(0.0, -halfH, 0.0, 0.0, -1.0, 0.0, 0.5, 0.5) +
           Vert(x0, -halfH, z0, 0.0, -1.0, 0.0, CapUV(x0, radius), CapUV(z0, radius)) +
           Vert(x1, -halfH, z1, 0.0, -1.0, 0.0, CapUV(x1, radius), CapUV(z1, radius));
    BottomStep(radius, halfH, segments, cos, sin, i, a0, a1, x0, z0, x1, z1);
  }

  /** The first loop of Cylinder::build: the side wall, two triangles per
      slice. */
  method AppendSide(radius: real, halfH: real, segments: int, cos: real -> real, sin: real -> real)
    returns (vertices: seq<real>)
    ensures vertices == Row(SideCell(radius, halfH, segments, cos, sin), 0, Nat0(segments))
  {
    ghost var side := SideCell(radius, halfH, segments, cos, sin);
    vertices := [];
    var i := 0;
    while i < segments
      invariant 0 <= i <= Nat0(segments)
      invariant vertices == Row(side, 0, i)
    {
      var quad := SideSlice(radius, halfH, segments, cos, sin, i);
      RowExtend(side, 0, i, quad);
      vertices := vertices + quad;
      i := i + 1;
    }
    assert i == Nat0(segments);
  }

  /** The second loop of Cylinder::build: the top cap, a fan around
      (0, halfH, 0). */
  method AppendTop(radius: real, halfH: real, segments: int, cos: real -> real, sin: real -> real, before: seq<real>)
    returns (vertices: seq<real>)
    requires radius != 0.0
    ensures vertices == before + Row(TopCell(radius, halfH, segments, cos, sin), 0, Nat0(segments))
  {
    ghost var top := TopCell(radius, halfH, segments, cos, sin);
    vertices := before;
    var i := 0;
    while i < segments
      invariant 0 <= i <= Nat0(segments)
      invariant vertices == before + Row(top, 0, i)
    {
      var tri := TopSlice(radius, halfH, segments, cos, sin, i);
      RowExtendAfter(before, top, 0, i, tri);
      vertices := vertices + tri;
      i := i + 1;
    }
    assert i == Nat0(segments);
  }

  /** The third loop of Cylinder::build: the bottom cap, a fan around
      (0, -halfH, 0) wound the other way. */
  method AppendBottom(radius: real, halfH: real, segments: int, cos: real -> real, sin: real -> real, before: seq<real>)
    returns (vertices: seq<real>)
    requires radius != 0.0
    ensures vertices == before + Row(BottomCell(radius, halfH, segments, cos, sin), 0, Nat0(segments))
  {
    ghost var bottom := BottomCell(radius, halfH, segments, cos, sin);
    vertices := before;
    var i := 0;
    while i < segments
      invariant 0 <= i <= Nat0(segments)
      invariant vertices == before + Row(bottom, 0, i)
    {
      var tri := BottomSlice(radius, halfH, segments, cos, sin, i);
      RowExtendAfter(before, bottom, 0, i, tri);
      vertices := vertices + tri;
      i := i + 1;
    }
    assert i == Nat0(segments);
  }

  /** Cylinder::build: the three loops in turn, then vertexCount =
      vertices.size() / 8. */
  method Build(radius: real, height: real, segments: int, cos: real -> real, sin: real -> real)
    returns (vertices: seq<real>, vertexCount: int)
    requires radius != 0.0
    ensures vertices == CylinderVertices(radius, height, segments, cos, sin)
    ensures vertexCount == VerticesPerSegment * Nat0(segments)
  {
    var halfH := height * 0.5;
    vertices := AppendSide(radius, halfH, segments, cos, sin);
    vertices := AppendTop(radius, halfH, segments, cos, sin, vertices);
    vertices := AppendBottom(radius, halfH, segments, cos, sin, vertices);
    CylinderVertexCount(radius, height, segments, cos, sin);
    vertexCount := |vertices| / CylinderVertexFloats;
  }

  class Cylinder {
    /** The number of vertices glDrawArrays draws. */
    var vertexCount: int

    /** Cylinder::Cylinder, which calls build. */
    constructor (radius: real, height: real, segments: int, cos: real -> real, sin: real -> real)
      requires radius != 0.0
      ensures vertexCount == VerticesPerSegment * Nat0(segments)
    {
      var vertices, count := Build(radius, height, segments, cos, sin);
      vertexCount := count;
    }
  }
}

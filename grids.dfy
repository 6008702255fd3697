/** Row-major layout of generated meshes. The mesh builders of the water
    surface, the sphere and the cylinder append, for every cell of a grid
    in row order, a fixed number of values; this module says where cell
    (r, c)'s values end up. */
module Grids {
  /** Every cell contributes exactly `width` values. */
  ghost predicate Uniform<T>(cell: (int, int) -> seq<T>, width: nat) {
    forall r, c :: |cell(r, c)| == width
  }

  /** The values of cells (r, 0) .. (r, n-1), in order. */
  function Row<T>(cell: (int, int) -> seq<T>, r: int, n: nat): seq<T>
    decreases n
  {
    if n == 0 then [] else Row(cell, r, n - 1) + cell(r, n - 1)
  }

  /** The values of rows 0 .. k-1, each `cols` cells long. */
  function Rows<T>(cell: (int, int) -> seq<T>, cols: nat, k: nat): seq<T>
    decreases k
  {
    if k == 0 then [] else Rows(cell, cols, k - 1) + Row(cell, k - 1, cols)
  }

  /** Appending cell (r, n) to the first n cells of row r. */
  lemma RowExtend<T>(cell: (int, int) -> seq<T>, r: int, n: nat, next: seq<T>)
    requires next == cell(r, n)
    ensures Row(cell, r, n) + next == Row(cell, r, n + 1)
  {
  }

  /** The same, after a prefix `before`. */
  lemma RowExtendAfter<T>(before: seq<T>, cell: (int, int) -> seq<T>, r: int, n: nat, next: seq<T>)
    requires next == cell(r, n)
    ensures (before + Row(cell, r, n)) + next == before + Row(cell, r, n + 1)
  {
    assert Row(cell, r, n + 1) == Row(cell, r, n) + next;
  }

  /** A loop `for (i = 0; i < n; i++)` runs this many times. */
  function Nat0(n: int): nat {
    if n < 0 then 0 else n
  }

  lemma MulLeft(a: int, b: int, c: int)
    requires 0 <= c && a <= b
    ensures a * c <= b * c
  {
  }

  /** Row-major addressing: cell (r, c) of a grid `cols` wide comes before
      every cell of row k when r < k. */
  lemma RowMajorBelow(cols: int, c: int, r: int, k: int)
    requires 0 <= c < cols && 0 <= r < k
    ensures 0 <= r * cols + c < k * cols
  {
    MulLeft(r + 1, k, cols);
    MulLeft(0, r, cols);
    assert (r + 1) * cols == r * cols + cols;
  }

  /** Cell (r, c) of a row starts at value c*width. */
  lemma {:induction false} RowAt<T>(cell: (int, int) -> seq<T>, width: nat, r: int, n: nat, c: int, f: int)
    requires Uniform(cell, width) && 0 <= c < n && 0 <= f < width
    ensures |Row(cell, r, n)| == n * width
    ensures 0 <= c * width + f < n * width
    ensures Row(cell, r, n)[c * width + f] == cell(r, c)[f]
    decreases n
  {
    MulLeft(c + 1, n, width);
    MulLeft(0, c, width);
    assert (c + 1) * width == c * width + width;
    var prefix := Row(cell, r, n - 1);
    RowLength(cell, width, r, n);
    RowLength(cell, width, r, n - 1);
    assert |prefix| == (n - 1) * width;
    var i := c * width + f;
    if c < n - 1 {
      MulLeft(c + 1, n - 1, width);
      assert (c + 1) * width == c * width + width;
      assert i < |prefix|;
      RowAt(cell, width, r, n - 1, c, f);
      assert Row(cell, r, n)[i] == prefix[i];
    } else {
      assert i - |prefix| == f;
      assert Row(cell, r, n)[i] == cell(r, c)[f];
    }
  }

  /** The values of cell (r, c) form one slice of its row. */
  lemma RowSlice<T>(cell: (int, int) -> seq<T>, width: nat, r: int, n: nat, c: int, a: int, b: int)
    requires Uniform(cell, width) && 0 <= c < n && 0 <= a <= b <= width
    ensures |Row(cell, r, n)| == n * width
    ensures 0 <= c * width + a <= c * width + b <= n * width
    ensures Row(cell, r, n)[c * width + a .. c * width + b] == cell(r, c)[a .. b]
  {
    RowLength(cell, width, r, n);
    MulLeft(c + 1, n, width);
    MulLeft(0, c, width);
    assert (c + 1) * width == c * width + width;
    var base := c * width;
    forall j | base + a <= j < base + b
      ensures Row(cell, r, n)[j] == cell(r, c)[j - base]
    {
      RowAt(cell, width, r, n, c, j - base);
    }
  }

  lemma {:induction false} RowLength<T>(cell: (int, int) -> seq<T>, width: nat, r: int, n: nat)
    requires Uniform(cell, width)
    ensures |Row(cell, r, n)| == n * width
    decreases n
  {
    if n > 0 {
      RowLength(cell, width, r, n - 1);
      assert (n - 1) * width + width == n * width;
    }
  }

  lemma {:induction false} RowsLength<T>(cell: (int, int) -> seq<T>, width: nat, cols: nat, k: nat)
    requires Uniform(cell, width)
    ensures |Rows(cell, cols, k)| == k * cols * width
    decreases k
  {
    if k > 0 {
      RowsLength(cell, width, cols, k - 1);
      RowLength(cell, width, k - 1, cols);
      assert (k - 1) * cols * width + cols * width == k * cols * width;
    }
  }

  /** The offset of value f of cell (r, c) lies inside a grid of k rows. */
  lemma CellOffsetBound(cols: int, width: int, k: int, r: int, c: int, f: int)
    requires 0 <= r < k && 0 <= c < cols && 0 <= f < width
    ensures 0 <= (r * cols + c) * width + f < k * cols * width
  {
    var m := r * cols + c;
    RowMajorBelow(cols, c, r, k);
    MulLeft(m + 1, k * cols, width);
    MulLeft(0, m, width);
    assert (m + 1) * width == m * width + width;
  }

  /** (r*cols + c)*width + f is r*cols*width plus the offset within the row. */
  lemma SplitOffset(r: int, cols: int, c: int, width: int, f: int)
    ensures (r * cols + c) * width + f == r * cols * width + (c * width + f)
  {
  }

  /** Where value f of cell (r, c) sits in a row-major grid `cols` cells
      wide with `width` values per cell. */
  function Offset(cols: int, width: int, r: int, c: int, f: int): int {
    (r * cols + c) * width + f
  }

  /** Cell (r, c) of the grid starts at value (r*cols + c)*width. */
  lemma {:induction false} RowsAt<T>(cell: (int, int) -> seq<T>, width: nat, cols: nat, k: nat, r: int, c: int, f: int)
    requires Uniform(cell, width) && 0 <= r < k && 0 <= c < cols && 0 <= f < width
    ensures |Rows(cell, cols, k)| == k * cols * width
    ensures 0 <= Offset(cols, width, r, c, f) < |Rows(cell, cols, k)|
    ensures Rows(cell, cols, k)[Offset(cols, width, r, c, f)] == cell(r, c)[f]
    decreases k
  {
    var prefix := Rows(cell, cols, k - 1);
    var i := (r * cols + c) * width + f;
    RowsLength(cell, width, cols, k);
    CellOffsetBound(cols, width, k, r, c, f);
    if r < k - 1 {
      RowsAt(cell, width, cols, k - 1, r, c, f);
    } else {
      LastRowAt(cell, width, cols, k, c, f);
      RowsLength(cell, width, cols, k - 1);
      SplitOffset(r, cols, c, width, f);
    }
  }

  lemma LastRowAt<T>(cell: (int, int) -> seq<T>, width: nat, cols: nat, k: nat, c: int, f: int)
    requires Uniform(cell, width) && 0 < k && 0 <= c < cols && 0 <= f < width
    ensures |Rows(cell, cols, k - 1)| + c * width + f < |Rows(cell, cols, k)|
    ensures Rows(cell, cols, k)[|Rows(cell, cols, k - 1)| + c * width + f] == cell(k - 1, c)[f]
  {
    var prefix := Rows(cell, cols, k - 1);
    var row := Row(cell, k - 1, cols);
    RowAt(cell, width, k - 1, cols, c, f);
    assert Rows(cell, cols, k) == prefix + row;
    assert (prefix + row)[|prefix| + c * width + f] == row[c * width + f];
  }

  /** A property every value of every cell has, every value of the grid has. */
  lemma {:induction false} RowAll<T>(cell: (int, int) -> seq<T>, r: int, n: nat, P: T -> bool)
    requires forall c, v :: 0 <= c < n && v in cell(r, c) ==> P(v)
    ensures forall v :: v in Row(cell, r, n) ==> P(v)
    decreases n
  {
    if n > 0 {
      assert forall v :: v in Row(cell, r, n - 1) ==> P(v) by {
        RowAll(cell, r, n - 1, P);
      }
      assert Row(cell, r, n) == Row(cell, r, n - 1) + cell(r, n - 1);
    }
  }

  lemma {:induction false} RowsAll<T>(cell: (int, int) -> seq<T>, cols: nat, k: nat, P: T -> bool)
    requires forall r, c, v :: 0 <= r < k && 0 <= c < cols && v in cell(r, c) ==> P(v)
    ensures forall v :: v in Rows(cell, cols, k) ==> P(v)
    decreases k
  {
    if k > 0 {
      var before, row := Rows(cell, cols, k - 1), Row(cell, k - 1, cols);
      assert forall v :: v in before ==> P(v) by {
        RowsAll(cell, cols, k - 1, P);
      }
      assert forall v :: v in row ==> P(v) by {
        RowAll(cell, k - 1, cols, P);
      }
      assert Rows(cell, cols, k) == before + row;
    }
  }
}

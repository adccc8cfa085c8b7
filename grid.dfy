/** Index arithmetic of the row-major heightfield grid: the cell of a vertex,
    the interior stencil and its four neighbours, and the triangle index
    buffer's slots and values. */
module Grid {

  /** Column of vertex `k` in a grid `width` vertices wide (`i % m_width`),
      by repeated subtraction of the row length; `ColumnRow` shows it is the
      remainder. */
  function Column(k: nat, width: nat): (x: nat)
    requires width > 0
    ensures x < width
  {
    if k < width then k else Column(k - width, width)
  }

  /** Row of vertex `k` in a grid `width` vertices wide (`i / m_width`);
      `ColumnRow` shows it is the quotient. */
  function Row(k: nat, width: nat): nat
    requires width > 0
  {
    if k < width then 0 else Row(k - width, width) + 1
  }

  /** Column and row are the remainder and quotient of the vertex index. */
  lemma {:induction false} ColumnRow(k: nat, width: nat)
    requires width > 0
    ensures Column(k, width) == k % width && Row(k, width) == k / width
    ensures k == Row(k, width) * width + Column(k, width)
  {
    if k < width {
      DivModUnique(k, width, 0, k);
    } else {
      ColumnRow(k - width, width);
      DivModUnique(k, width, Row(k - width, width) + 1, Column(k - width, width));
    }
  }

  /** Vertex index of column `x` in row `z` (`z * m_width + x`). */
  function IndexOf(x: nat, z: nat, width: nat): nat {
    z * width + x
  }

  /** Euclidean division has a single quotient and remainder. */
  lemma DivModUnique(k: nat, w: nat, q: nat, r: nat)
    requires w > 0 && r < w && k == q * w + r
    ensures k / w == q && k % w == r
  {
    var q', r' := k / w, k % w;
    assert k == q' * w + r';
    if q' < q {
      assert q' * w + w <= q * w by { MulMono(q' + 1, q, w); }
      assert false;
    } else if q < q' {
      assert q * w + w <= q' * w by { MulMono(q + 1, q', w); }
      assert false;
    }
  }

  /** Multiplying by a natural keeps the order. */
  lemma MulMono(a: nat, b: nat, w: nat)
    requires a <= b
    ensures a * w <= b * w
  {
  }

  /** Column and row invert `IndexOf`. */
  lemma CellRoundTrip(x: nat, z: nat, width: nat)
    requires x < width
    ensures Column(IndexOf(x, z, width), width) == x
    ensures Row(IndexOf(x, z, width), width) == z
  {
    ColumnRow(IndexOf(x, z, width), width);
    DivModUnique(IndexOf(x, z, width), width, z, x);
  }

  /** `IndexOf` inverts column and row; a vertex of a `width x depth` buffer
      lies in a row below `depth`. */
  lemma IndexRoundTrip(k: nat, width: nat, depth: nat)
    requires width > 0 && k < width * depth
    ensures IndexOf(Column(k, width), Row(k, width), width) == k
    ensures Column(k, width) < width && Row(k, width) < depth
  {
    ColumnRow(k, width);
    var z := Row(k, width);
    if depth <= z {
      MulMono(depth, z, width);
      assert false;
    }
  }

  /** A vertex whose four axis neighbours exist: not on the one-vertex border. */
  predicate Interior(k: nat, width: nat, depth: nat) {
    && width > 0
    && 1 <= Column(k, width) && Column(k, width) + 2 <= width
    && 1 <= Row(k, width) && Row(k, width) + 2 <= depth
  }

  /** The interior of a grid, by coordinates. */
  lemma InteriorAt(x: nat, z: nat, width: nat, depth: nat)
    requires x < width
    ensures Interior(IndexOf(x, z, width), width, depth)
            <==> 1 <= x && x + 2 <= width && 1 <= z && z + 2 <= depth
  {
    CellRoundTrip(x, z, width);
  }

  /** The stencil of an interior vertex `k` reads `k - width` (top),
      `k + width` (bottom), `k - 1` (left) and `k + 1` (right): all inside the
      buffer, distinct from `k`, and the axis neighbours by column and row. */
  lemma InteriorNeighbours(k: nat, width: nat, depth: nat)
    requires Interior(k, width, depth)
    ensures width <= k && k + width < width * depth
    ensures Column(k - width, width) == Column(k, width) && Row(k - width, width) == Row(k, width) - 1
    ensures Column(k + width, width) == Column(k, width) && Row(k + width, width) == Row(k, width) + 1
    ensures Column(k - 1, width) == Column(k, width) - 1 && Row(k - 1, width) == Row(k, width)
    ensures Column(k + 1, width) == Column(k, width) + 1 && Row(k + 1, width) == Row(k, width)
  {
    ColumnRow(k, width);
    var x, z := Column(k, width), Row(k, width);
    MulMono(z + 2, depth, width);
    MulMono(1, z, width);
    CellRoundTrip(x, z - 1, width);
    CellRoundTrip(x, z + 1, width);
    CellRoundTrip(x - 1, z, width);
    CellRoundTrip(x + 1, z, width);
  }

  /** Once the column loop stops (`i + 1 >= width`), what is left of row `j`
      is its last column, which is border; a row below `depth` ends inside the
      buffer. */
  lemma RowEndBorder(j: nat, i: nat, width: nat, depth: nat)
    requires 1 <= i <= width <= i + 1
    ensures forall k | j * width + i <= k < j * width + width :: !Interior(k, width, depth)
    ensures j < depth ==> j * width + width <= width * depth
  {
    forall k | j * width + i <= k < j * width + width
      ensures !Interior(k, width, depth)
    {
      CellRoundTrip(k - j * width, j, width);
    }
    if j < depth {
      MulMono(j + 1, depth, width);
    }
  }

  // ---------------------------------------------------------------------------
  // Triangle index buffer

  /** A cell `(x, z)` whose lower-right corner exists gets two triangles. */
  predicate Meshed(x: nat, z: nat, width: nat, depth: nat) {
    x + 1 < width && z + 1 < depth
  }

  /** The six index values of cell `(x, z)`: triangles
      `(z*w + x, (z+1)*w + x, z*w + x + 1)` and
      `(z*w + x + 1, (z+1)*w + x, (z+1)*w + x + 1)`. */
  function CellTriangles(x: nat, z: nat, width: nat): (t: seq<nat>)
    ensures |t| == 6
  {
    [IndexOf(x, z, width), IndexOf(x, z + 1, width), IndexOf(x + 1, z, width),
     IndexOf(x + 1, z, width), IndexOf(x, z + 1, width), IndexOf(x + 1, z + 1, width)]
  }

  /** Every index of a meshed cell names a vertex of the `width x depth` grid,
      and each of the two triangles has three distinct corners. */
  lemma CellTrianglesValid(x: nat, z: nat, width: nat, depth: nat)
    requires Meshed(x, z, width, depth)
    ensures forall r :: 0 <= r < 6 ==> CellTriangles(x, z, width)[r] < width * depth
    ensures var t := CellTriangles(x, z, width);
            t[0] != t[1] && t[1] != t[2] && t[0] != t[2] && t[3] != t[4] && t[4] != t[5] && t[3] != t[5]
  {
    MulMono(z + 2, depth, width);
    assert (z + 1) * width == z * width + width;
    assert (z + 2) * width == (z + 1) * width + width;
  }

  /** First slot of cell `(x, z)` in the index buffer, with the row stride the
      diagram beside the loop names (`j * width`). */
  function SlotOffset(x: nat, z: nat, width: nat): nat {
    IndexOf(x, z, width) * 6
  }

  /** Every slot written for a meshed cell lies inside the `width*depth*6` buffer. */
  lemma SlotOffsetInBounds(x: nat, z: nat, width: nat, depth: nat)
    requires Meshed(x, z, width, depth)
    ensures SlotOffset(x, z, width) + 5 < width * depth * 6
  {
    MulMono(z + 1, depth, width);
  }

  /** Distinct cells of a row of `width` vertices own disjoint slot ranges. */
  lemma SlotOffsetInjective(x1: nat, z1: nat, x2: nat, z2: nat, width: nat)
    requires x1 < width && x2 < width
    requires SlotOffset(x1, z1, width) == SlotOffset(x2, z2, width)
    ensures x1 == x2 && z1 == z2
  {
    CellRoundTrip(x1, z1, width);
    CellRoundTrip(x2, z2, width);
  }

  /** The slot offset as the loop computes it: `(j * m_depth + i) * 6`. */
  function SlotOffsetAsWritten(x: nat, z: nat, depth: nat): nat {
    (z * depth + x) * 6
  }

  /** On a square grid the written offset equals the intended one. */
  lemma SlotOffsetsAgreeOnSquare(x: nat, z: nat, width: nat, depth: nat)
    requires width == depth
    ensures SlotOffsetAsWritten(x, z, depth) == SlotOffset(x, z, width)
  {
  }

  /** On a grid 2 wide and 4 deep, meshed cell (0, 2) is written at slots 48..53
      of a 48-slot buffer. */
  lemma AsWrittenSlotOverrunsDeepGrid()
    ensures Meshed(0, 2, 2, 4)
    ensures SlotOffsetAsWritten(0, 2, 4) >= 2 * 4 * 6
  {
  }

  /** On a grid 5 wide and 3 deep, meshed cells (3, 0) and (0, 1) get the same
      slots, so the triangles of (3, 0) are overwritten and lost. */
  lemma AsWrittenSlotsCollideOnWideGrid()
    ensures Meshed(3, 0, 5, 3) && Meshed(0, 1, 5, 3)
    ensures SlotOffsetAsWritten(3, 0, 3) == SlotOffsetAsWritten(0, 1, 3)
  {
  }

  // ---------------------------------------------------------------------------
  // Unsigned loop bounds

  const Uint32Range: nat := 0x1_0000_0000

  /** `n - 1` on `unsigned int`: wraps to 2^32 - 1 when `n` is 0. */
  function Decrement32(n: nat): nat
    requires n < Uint32Range
  {
    (n - 1) % Uint32Range
  }

  /** For a non-zero dimension, `j < n - 1` in unsigned arithmetic is the
      bound `j + 1 < n` the model's loops use. */
  lemma Decrement32Agrees(n: nat, j: nat)
    requires 1 <= n < Uint32Range
    ensures j < Decrement32(n) <==> j + 1 < n
  {
  }

  /** `a * b` on 32-bit unsigned values, as `m_width * m_depth` and
      `(depthIndex + i) * 6` are computed. */
  function Multiply32(a: nat, b: nat): (p: nat)
    ensures p < Uint32Range
    ensures a * b < Uint32Range ==> p == a * b
  {
    (a * b) % Uint32Range
  }

  /** The 32-bit products wrap on large grids: a 65536 x 65536 grid resizes
      its vertex buffer to 0 entries, and on a 27000 x 27000 grid the offset
      of the first cell of the last meshed row, `(26998 * 27000 + 0) * 6`,
      wraps to 78708704. */
  lemma AsWrittenProductsWrap()
    ensures Multiply32(65536, 65536) == 0 < 65536 * 65536
    ensures Multiply32(26998 * 27000 + 0, 6) == 78708704 < (26998 * 27000 + 0) * 6
  {
  }
}

/**
  Reference definition of the regular terrain grid.

  A grid of `iMax` columns and `jMax` rows has one vertex per grid point
  (i, j), numbered row-major as `i + j * iMax`. The position buffer stores two
  coordinates per vertex, `(i / (iMax - 1), j / (jMax - 1))`, so the grid
  covers the unit square. The index buffer stores six indices per grid cell:
  two triangles sharing the cell's diagonal from (i + 1, j) to (i, j + 1).

  The definitions here are closed forms: slot `p` of a buffer is computed
  from `p` alone. The loops that fill the buffers are checked against them.
 */
module Grid {
  import opened Geometry

  /** One more than the largest value an element of a Uint32Array holds. */
  const Uint32Limit: nat := 0x1_0000_0000

  /** A store into a Uint32Array keeps the value modulo 2^32. */
  function Uint32(x: nat): (r: nat)
    ensures r < Uint32Limit && r <= x
    ensures (x - r) % Uint32Limit == 0
    ensures x < Uint32Limit ==> r == x
  {
    x % Uint32Limit
  }

  /** The grid has at least one cell in each direction, so no division by zero. */
  predicate ValidSize(iMax: int, jMax: int)
  {
    iMax >= 2 && jMax >= 2
  }

  function VertexCount(iMax: nat, jMax: nat): nat
  {
    iMax * jMax
  }

  function QuadCount(iMax: nat, jMax: nat): nat
    requires ValidSize(iMax, jMax)
  {
    (iMax - 1) * (jMax - 1)
  }

  function TriangleCount(iMax: nat, jMax: nat): nat
    requires ValidSize(iMax, jMax)
  {
    2 * QuadCount(iMax, jMax)
  }

  function IndexCount(iMax: nat, jMax: nat): nat
    requires ValidSize(iMax, jMax)
  {
    3 * TriangleCount(iMax, jMax)
  }

  /** Row-major number of grid point (i, j). */
  function VertexId(iMax: nat, i: nat, j: nat): nat
  {
    i + j * iMax
  }

  /** Number of cell (i, j) in the order the index loops visit cells. */
  function QuadId(iMax: nat, i: nat, j: nat): nat
    requires iMax >= 2
  {
    i + j * (iMax - 1)
  }

  /** Column and row of the q-th cell in visiting order. */
  function QuadColumn(iMax: nat, q: nat): nat
    requires iMax >= 2
  {
    q % (iMax - 1)
  }

  function QuadRow(iMax: nat, q: nat): nat
    requires iMax >= 2
  {
    q / (iMax - 1)
  }

  predicate IsVertex(iMax: nat, jMax: nat, i: nat, j: nat)
  {
    i < iMax && j < jMax
  }

  predicate IsCell(iMax: nat, jMax: nat, i: nat, j: nat)
  {
    i + 1 < iMax && j + 1 < jMax
  }

  /** Grid coordinate `n / (m - 1)` of the n-th of m grid lines. */
  function Ratio(n: nat, m: nat): real
    requires m >= 2
  {
    n as real / (m - 1) as real
  }

  /** Reference position buffer: slot 2k is the x and slot 2k+1 the y of vertex k. */
  function GridPositions(iMax: nat, jMax: nat): (ps: seq<real>)
    requires ValidSize(iMax, jMax)
    ensures |ps| == 2 * VertexCount(iMax, jMax)
  {
    seq(2 * VertexCount(iMax, jMax), p requires 0 <= p =>
      var k := p / 2;
      if p % 2 == 0 then Ratio(k % iMax, iMax) else Ratio(k / iMax, jMax))
  }

  /** The (x, y) pair a position buffer stores for vertex v. */
  function VertexPosition(ps: seq<real>, v: nat): (real, real)
    requires 2 * v + 1 < |ps|
  {
    (ps[2 * v], ps[2 * v + 1])
  }

  datatype Triangle = Triangle(a: nat, b: nat, c: nat)

  /** First triangle of cell (i, j): its corner, the next column, the next row. */
  function LowerTriangle(iMax: nat, i: nat, j: nat): Triangle
  {
    Triangle(VertexId(iMax, i, j), VertexId(iMax, i + 1, j), VertexId(iMax, i, j + 1))
  }

  /** Second triangle of cell (i, j): the next row, the next column, the far corner. */
  function UpperTriangle(iMax: nat, i: nat, j: nat): Triangle
  {
    Triangle(VertexId(iMax, i, j + 1), VertexId(iMax, i + 1, j), VertexId(iMax, i + 1, j + 1))
  }

  /** The six indices cell (i, j) contributes to the index buffer. */
  function CellIndices(iMax: nat, i: nat, j: nat): (r: seq<nat>)
  {
    var lo := LowerTriangle(iMax, i, j);
    var up := UpperTriangle(iMax, i, j);
    [lo.a, lo.b, lo.c, up.a, up.b, up.c]
  }

  /** Reference index buffer: slot s belongs to the (s / 6)-th cell in visiting order. */
  function GridIndices(iMax: nat, jMax: nat): (ix: seq<nat>)
    requires ValidSize(iMax, jMax)
    ensures |ix| == IndexCount(iMax, jMax)
  {
    seq(IndexCount(iMax, jMax), s requires 0 <= s =>
      var q := s / 6;
      CellIndices(iMax, QuadColumn(iMax, q), QuadRow(iMax, q))[s % 6])
  }

  /** The k-th triangle of an index buffer. */
  function TriangleAt(ix: seq<nat>, k: nat): Triangle
    requires 3 * k + 2 < |ix|
  {
    Triangle(ix[3 * k], ix[3 * k + 1], ix[3 * k + 2])
  }

  /** Integer grid coordinates (column, row) of a vertex number. */
  function Column(iMax: nat, v: nat): nat
    requires iMax >= 1
  {
    v % iMax
  }

  function Row(iMax: nat, v: nat): nat
    requires iMax >= 1
  {
    v / iMax
  }

  /** Twice the signed area of a triangle in (column, row) coordinates. */
  function SignedArea2(iMax: nat, t: Triangle): int
    requires iMax >= 1
  {
    (Column(iMax, t.b) - Column(iMax, t.a)) * (Row(iMax, t.c) - Row(iMax, t.a))
    - (Row(iMax, t.b) - Row(iMax, t.a)) * (Column(iMax, t.c) - Column(iMax, t.a))
  }

  function Vertices(t: Triangle): set<nat>
  {
    {t.a, t.b, t.c}
  }

  // ---------------------------------------------------------------------------
  // Arithmetic helpers

  /** A non-zero multiple of a positive n is at least n away from zero. */
  lemma MulSign(n: int, d: int)
    requires n > 0
    ensures d >= 1 ==> n * d >= n
    ensures d <= -1 ==> n * d <= -n
  {
  }

  /** Division by n undoes `r + q * n` for a remainder r in range. */
  lemma DivMod(r: int, q: int, n: int)
    requires n > 0 && 0 <= r < n
    ensures (r + q * n) / n == q
    ensures (r + q * n) % n == r
  {
    var x := r + q * n;
    var d := x / n - q;
    assert n * d == r - x % n;
    MulSign(n, d);
  }

  /** A row-major number below `width * height` has a row below `height`. */
  lemma RowBound(v: nat, width: nat, height: nat)
    requires width >= 1 && v < width * height
    ensures v / width < height
  {
    MulSign(width, v / width - height + 1);
  }

  // ---------------------------------------------------------------------------
  // Vertex numbering and cell numbering

  /** Vertex numbers enumerate the grid points exactly once. */
  lemma VertexIdBijective(iMax: nat, jMax: nat)
    requires ValidSize(iMax, jMax)
    ensures forall i: nat, j: nat :: IsVertex(iMax, jMax, i, j) ==> VertexId(iMax, i, j) < VertexCount(iMax, jMax)
    ensures forall i: nat, j: nat, i': nat, j': nat ::
      IsVertex(iMax, jMax, i, j) && IsVertex(iMax, jMax, i', j') && VertexId(iMax, i, j) == VertexId(iMax, i', j')
      ==> i == i' && j == j'
    ensures forall v: nat :: v < VertexCount(iMax, jMax) ==>
      IsVertex(iMax, jMax, Column(iMax, v), Row(iMax, v))
      && VertexId(iMax, Column(iMax, v), Row(iMax, v)) == v
  {
    forall i: nat, j: nat | IsVertex(iMax, jMax, i, j)
      ensures VertexId(iMax, i, j) < VertexCount(iMax, jMax)
    {
      VertexIdBound(iMax, jMax, i, j);
    }
    forall i: nat, j: nat, i': nat, j': nat |
      IsVertex(iMax, jMax, i, j) && IsVertex(iMax, jMax, i', j') && VertexId(iMax, i, j) == VertexId(iMax, i', j')
      ensures i == i' && j == j'
    {
      VertexIdInjective(iMax, jMax, i, j, i', j');
    }
    forall v: nat | v < VertexCount(iMax, jMax)
      ensures IsVertex(iMax, jMax, Column(iMax, v), Row(iMax, v))
      ensures VertexId(iMax, Column(iMax, v), Row(iMax, v)) == v
    {
      VertexOf(iMax, jMax, v);
    }
  }

  /** Two grid points with the same vertex number are the same point. */
  lemma VertexIdInjective(iMax: nat, jMax: nat, i: nat, j: nat, i': nat, j': nat)
    requires IsVertex(iMax, jMax, i, j) && IsVertex(iMax, jMax, i', j')
    requires VertexId(iMax, i, j) == VertexId(iMax, i', j')
    ensures i == i' && j == j'
  {
    DivMod(i, j, iMax);
    DivMod(i', j', iMax);
  }

  /** Vertex v sits at column v % iMax of row v / iMax. */
  lemma VertexOf(iMax: nat, jMax: nat, v: nat)
    requires ValidSize(iMax, jMax) && v < VertexCount(iMax, jMax)
    ensures IsVertex(iMax, jMax, Column(iMax, v), Row(iMax, v))
    ensures VertexId(iMax, Column(iMax, v), Row(iMax, v)) == v
  {
    RowBound(v, iMax, jMax);
    assert v == (v / iMax) * iMax + v % iMax;
  }

  /** Multiplying by a non-negative n keeps order. */
  lemma MulLe(a: int, b: int, n: int)
    requires a <= b && 0 <= n
    ensures a * n <= b * n
  {
    assert b * n - a * n == (b - a) * n;
  }

  /** The next row starts within `width` of any slot of this row. */
  lemma RowStep(i: int, j: int, width: int, height: int)
    requires 0 <= i < width && j < height
    ensures i + j * width < height * width
  {
    MulLe(j + 1, height, width);
    assert i + j * width < (j + 1) * width;
  }

  lemma VertexIdBound(iMax: nat, jMax: nat, i: nat, j: nat)
    requires IsVertex(iMax, jMax, i, j)
    ensures VertexId(iMax, i, j) < VertexCount(iMax, jMax)
  {
    RowStep(i, j, iMax, jMax);
    assert jMax * iMax == iMax * jMax;
  }

  /** Row j ends where row j + 1 starts, inside the buffer. */
  lemma RowEnd(iMax: nat, jMax: nat, j: nat)
    requires j < jMax
    ensures VertexId(iMax, iMax, j) == VertexId(iMax, 0, j + 1) <= VertexCount(iMax, jMax)
  {
    MulLe(j + 1, jMax, iMax);
    assert jMax * iMax == iMax * jMax;
  }

  /** Row j of cells ends where row j + 1 starts, inside the buffer. */
  lemma QuadRowEnd(iMax: nat, jMax: nat, j: nat)
    requires ValidSize(iMax, jMax) && j + 1 < jMax
    ensures QuadId(iMax, iMax - 1, j) == QuadId(iMax, 0, j + 1) <= QuadCount(iMax, jMax)
  {
    MulLe(j + 1, jMax - 1, iMax - 1);
    assert (jMax - 1) * (iMax - 1) == (iMax - 1) * (jMax - 1);
  }

  lemma QuadIdBound(iMax: nat, jMax: nat, i: nat, j: nat)
    requires ValidSize(iMax, jMax) && IsCell(iMax, jMax, i, j)
    ensures QuadId(iMax, i, j) < QuadCount(iMax, jMax)
  {
    RowStep(i, j, iMax - 1, jMax - 1);
    assert (jMax - 1) * (iMax - 1) == (iMax - 1) * (jMax - 1);
  }

  /** The q-th cell visited is a real cell, and q is its number. */
  lemma QuadOf(iMax: nat, jMax: nat, q: nat)
    requires ValidSize(iMax, jMax) && q < QuadCount(iMax, jMax)
    ensures IsCell(iMax, jMax, QuadColumn(iMax, q), QuadRow(iMax, q))
    ensures QuadId(iMax, QuadColumn(iMax, q), QuadRow(iMax, q)) == q
  {
    RowBound(q, iMax - 1, jMax - 1);
    assert q == (q / (iMax - 1)) * (iMax - 1) + q % (iMax - 1);
  }

  /**
    Cell numbers enumerate the cells exactly once: every cell gets a number
    below the cell count, no two cells share one, and every number below the
    count belongs to a cell. So the six slots of each cell are written once.
   */
  lemma QuadIdBijective(iMax: nat, jMax: nat)
    requires ValidSize(iMax, jMax)
    ensures forall i: nat, j: nat :: IsCell(iMax, jMax, i, j) ==> QuadId(iMax, i, j) < QuadCount(iMax, jMax)
    ensures forall i: nat, j: nat, i': nat, j': nat ::
      IsCell(iMax, jMax, i, j) && IsCell(iMax, jMax, i', j') && QuadId(iMax, i, j) == QuadId(iMax, i', j')
      ==> i == i' && j == j'
    ensures forall q: nat :: q < QuadCount(iMax, jMax) ==>
      IsCell(iMax, jMax, QuadColumn(iMax, q), QuadRow(iMax, q))
      && QuadId(iMax, QuadColumn(iMax, q), QuadRow(iMax, q)) == q
  {
    forall i: nat, j: nat | IsCell(iMax, jMax, i, j)
      ensures QuadId(iMax, i, j) < QuadCount(iMax, jMax)
    {
      QuadIdBound(iMax, jMax, i, j);
    }
    forall i: nat, j: nat, i': nat, j': nat |
      IsCell(iMax, jMax, i, j) && IsCell(iMax, jMax, i', j') && QuadId(iMax, i, j) == QuadId(iMax, i', j')
      ensures i == i' && j == j'
    {
      DivMod(i, j, iMax - 1);
      DivMod(i', j', iMax - 1);
    }
    forall q: nat | q < QuadCount(iMax, jMax)
      ensures IsCell(iMax, jMax, QuadColumn(iMax, q), QuadRow(iMax, q))
      ensures QuadId(iMax, QuadColumn(iMax, q), QuadRow(iMax, q)) == q
    {
      QuadOf(iMax, jMax, q);
    }
  }

  // ---------------------------------------------------------------------------
  // Position buffer

  /** Vertex (i, j) is stored at slots 2(i + j iMax) and 2(i + j iMax) + 1 as (i / (iMax - 1), j / (jMax - 1)). */
  lemma PositionAt(iMax: nat, jMax: nat, i: nat, j: nat)
    requires ValidSize(iMax, jMax) && IsVertex(iMax, jMax, i, j)
    ensures 2 * VertexId(iMax, i, j) + 1 < |GridPositions(iMax, jMax)|
    ensures VertexPosition(GridPositions(iMax, jMax), VertexId(iMax, i, j)) == (Ratio(i, iMax), Ratio(j, jMax))
  {
    var v := VertexId(iMax, i, j);
    VertexIdBound(iMax, jMax, i, j);
    DivMod(i, j, iMax);
    assert v % iMax == i && v / iMax == j;
    assert (2 * v) / 2 == v && (2 * v) % 2 == 0;
    assert (2 * v + 1) / 2 == v && (2 * v + 1) % 2 == 1;
  }

  /** Every stored coordinate lies in [0, 1]. */
  lemma PositionsInUnitSquare(iMax: nat, jMax: nat)
    requires ValidSize(iMax, jMax)
    ensures forall p :: 0 <= p < |GridPositions(iMax, jMax)| ==> InUnitInterval(GridPositions(iMax, jMax)[p])
  {
    var ps := GridPositions(iMax, jMax);
    forall p | 0 <= p < |ps|
      ensures InUnitInterval(ps[p])
    {
      var k := p / 2;
      RowBound(k, iMax, jMax);
      RatioInUnitInterval(k % iMax, iMax);
      RatioInUnitInterval(k / iMax, jMax);
    }
  }

  lemma RatioInUnitInterval(n: nat, m: nat)
    requires m >= 2 && n < m
    ensures InUnitInterval(Ratio(n, m))
  {
    var d := (m - 1) as real;
    assert n as real <= d;
    assert Ratio(n, m) * d == n as real;
  }

  /** The first grid line sits at 0 and the last at exactly 1. */
  lemma RatioEnds(m: nat)
    requires m >= 2
    ensures Ratio(0, m) == 0.0
    ensures Ratio(m - 1, m) == 1.0
  {
    var d := (m - 1) as real;
    assert d / d == 1.0;
  }

  /** The four corner vertices sit exactly on the corners of the unit square. */
  lemma Corners(iMax: nat, jMax: nat)
    requires ValidSize(iMax, jMax)
    ensures 2 * VertexId(iMax, iMax - 1, jMax - 1) + 1 < |GridPositions(iMax, jMax)|
    ensures VertexPosition(GridPositions(iMax, jMax), VertexId(iMax, 0, 0)) == (0.0, 0.0)
    ensures VertexPosition(GridPositions(iMax, jMax), VertexId(iMax, iMax - 1, 0)) == (1.0, 0.0)
    ensures VertexPosition(GridPositions(iMax, jMax), VertexId(iMax, 0, jMax - 1)) == (0.0, 1.0)
    ensures VertexPosition(GridPositions(iMax, jMax), VertexId(iMax, iMax - 1, jMax - 1)) == (1.0, 1.0)
  {
    RatioEnds(iMax);
    RatioEnds(jMax);
    PositionAt(iMax, jMax, 0, 0);
    PositionAt(iMax, jMax, iMax - 1, 0);
    PositionAt(iMax, jMax, 0, jMax - 1);
    PositionAt(iMax, jMax, iMax - 1, jMax - 1);
  }

  // ---------------------------------------------------------------------------
  // Index buffer

  /** Slot 6 QuadId(i, j) + t of the index buffer holds the t-th index of cell (i, j). */
  lemma IndexAt(iMax: nat, jMax: nat, i: nat, j: nat, t: nat)
    requires ValidSize(iMax, jMax) && IsCell(iMax, jMax, i, j) && t < 6
    ensures 6 * QuadId(iMax, i, j) + t < IndexCount(iMax, jMax)
    ensures GridIndices(iMax, jMax)[6 * QuadId(iMax, i, j) + t] == CellIndices(iMax, i, j)[t]
  {
    var q := QuadId(iMax, i, j);
    QuadIdBound(iMax, jMax, i, j);
    assert (6 * q + t) / 6 == q && (6 * q + t) % 6 == t;
    DivMod(i, j, iMax - 1);
  }

  /** Cell (i, j) owns the six consecutive slots starting at 6 QuadId(i, j). */
  lemma CellSlots(iMax: nat, jMax: nat, i: nat, j: nat)
    requires ValidSize(iMax, jMax) && IsCell(iMax, jMax, i, j)
    ensures 6 * QuadId(iMax, i, j) + 6 <= IndexCount(iMax, jMax)
    ensures GridIndices(iMax, jMax)[6 * QuadId(iMax, i, j)..6 * QuadId(iMax, i, j) + 6] == CellIndices(iMax, i, j)
  {
    var q := QuadId(iMax, i, j);
    var ix := GridIndices(iMax, jMax);
    IndexAt(iMax, jMax, i, j, 0);
    IndexAt(iMax, jMax, i, j, 1);
    IndexAt(iMax, jMax, i, j, 2);
    IndexAt(iMax, jMax, i, j, 3);
    IndexAt(iMax, jMax, i, j, 4);
    IndexAt(iMax, jMax, i, j, 5);
    assert ix[6 * q..6 * q + 6] == [ix[6 * q], ix[6 * q + 1], ix[6 * q + 2], ix[6 * q + 3], ix[6 * q + 4], ix[6 * q + 5]];
  }

  /** Every index of a cell names a real vertex. */
  lemma CellIndicesInRange(iMax: nat, jMax: nat, i: nat, j: nat)
    requires ValidSize(iMax, jMax) && IsCell(iMax, jMax, i, j)
    ensures forall t :: 0 <= t < 6 ==> CellIndices(iMax, i, j)[t] < VertexCount(iMax, jMax)
  {
    VertexIdBound(iMax, jMax, i + 1, j + 1);
  }

  /** Every index of the buffer names a real vertex, so it also fits in a Uint32 on a small enough grid. */
  lemma IndicesInRange(iMax: nat, jMax: nat)
    requires ValidSize(iMax, jMax)
    ensures forall s :: 0 <= s < |GridIndices(iMax, jMax)| ==> GridIndices(iMax, jMax)[s] < VertexCount(iMax, jMax)
  {
    var ix := GridIndices(iMax, jMax);
    forall s | 0 <= s < |ix|
      ensures ix[s] < VertexCount(iMax, jMax)
    {
      var q := s / 6;
      RowBound(q, iMax - 1, jMax - 1);
      CellIndicesInRange(iMax, jMax, QuadColumn(iMax, q), QuadRow(iMax, q));
    }
  }

  /**
    The two triangles of a cell share exactly the diagonal from (i + 1, j) to
    (i, j + 1), and together they use the four corners of the cell and nothing else.
   */
  lemma CellLayout(iMax: nat, jMax: nat, i: nat, j: nat)
    requires ValidSize(iMax, jMax) && IsCell(iMax, jMax, i, j)
    ensures Vertices(LowerTriangle(iMax, i, j)) * Vertices(UpperTriangle(iMax, i, j))
      == {VertexId(iMax, i + 1, j), VertexId(iMax, i, j + 1)}
    ensures Vertices(LowerTriangle(iMax, i, j)) + Vertices(UpperTriangle(iMax, i, j))
      == {VertexId(iMax, i, j), VertexId(iMax, i + 1, j), VertexId(iMax, i, j + 1), VertexId(iMax, i + 1, j + 1)}
    ensures |Vertices(LowerTriangle(iMax, i, j)) + Vertices(UpperTriangle(iMax, i, j))| == 4
  {
    var v00, v10, v01, v11 := VertexId(iMax, i, j), VertexId(iMax, i + 1, j), VertexId(iMax, i, j + 1), VertexId(iMax, i + 1, j + 1);
    assert v10 == v00 + 1 && v01 == v00 + iMax && v11 == v00 + iMax + 1;
    var all := {v00, v10, v01, v11};
    assert |{v00, v10}| == 2;
    assert |{v00, v10, v01}| == 3;
    assert |all| == 4;
  }

  /** Both triangles of a cell turn the same way: signed area +1/2 in (column, row) coordinates. */
  lemma CellWinding(iMax: nat, jMax: nat, i: nat, j: nat)
    requires ValidSize(iMax, jMax) && IsCell(iMax, jMax, i, j)
    ensures SignedArea2(iMax, LowerTriangle(iMax, i, j)) == 1
    ensures SignedArea2(iMax, UpperTriangle(iMax, i, j)) == 1
  {
    DivMod(i, j, iMax);
    DivMod(i + 1, j, iMax);
    DivMod(i, j + 1, iMax);
    DivMod(i + 1, j + 1, iMax);
  }

  /** Every triangle of the index buffer has the same positive orientation. */
  lemma GridWinding(iMax: nat, jMax: nat)
    requires ValidSize(iMax, jMax)
    ensures forall k: nat :: k < TriangleCount(iMax, jMax) ==> SignedArea2(iMax, TriangleAt(GridIndices(iMax, jMax), k)) == 1
  {
    forall k: nat | k < TriangleCount(iMax, jMax)
      ensures SignedArea2(iMax, TriangleAt(GridIndices(iMax, jMax), k)) == 1
    {
      TriangleWinding(iMax, jMax, k);
    }
  }

  /** Triangle k of the buffer is triangle k % 2 of cell k / 2, so it has area 1. */
  lemma TriangleWinding(iMax: nat, jMax: nat, k: nat)
    requires ValidSize(iMax, jMax) && k < TriangleCount(iMax, jMax)
    ensures SignedArea2(iMax, TriangleAt(GridIndices(iMax, jMax), k)) == 1
  {
    var ix := GridIndices(iMax, jMax);
    var q := k / 2;
    var i, j := QuadColumn(iMax, q), QuadRow(iMax, q);
    QuadOf(iMax, jMax, q);
    CellWinding(iMax, jMax, i, j);
    CellSlots(iMax, jMax, i, j);
    if k % 2 == 0 {
      assert 3 * k == 6 * q;
      assert TriangleAt(ix, k) == LowerTriangle(iMax, i, j);
    } else {
      assert 3 * k == 6 * q + 3;
      assert TriangleAt(ix, k) == UpperTriangle(iMax, i, j);
    }
  }

  /**
    The smallest grid is one cell: its four vertices are the corners of the
    unit square and it emits two triangles sharing the diagonal from vertex 1
    to vertex 2.
   */
  lemma Grid2x2()
    ensures |GridPositions(2, 2)| == 8
    ensures VertexPosition(GridPositions(2, 2), 0) == (0.0, 0.0)
    ensures VertexPosition(GridPositions(2, 2), 1) == (1.0, 0.0)
    ensures VertexPosition(GridPositions(2, 2), 2) == (0.0, 1.0)
    ensures VertexPosition(GridPositions(2, 2), 3) == (1.0, 1.0)
    ensures GridIndices(2, 2) == [0, 1, 2, 2, 1, 3]
  {
    Corners(2, 2);
    CellSlots(2, 2, 0, 0);
    var ix := GridIndices(2, 2);
    assert ix == ix[0..6];
  }

  /** The hard-coded 100 x 100 grid of both demos. */
  lemma Grid100()
    ensures ValidSize(100, 100)
    ensures |GridPositions(100, 100)| == 20000
    ensures QuadCount(100, 100) == 9801
    ensures |GridIndices(100, 100)| == 58806
    ensures VertexCount(100, 100) < Uint32Limit
    ensures forall s :: 0 <= s < |GridIndices(100, 100)| ==> GridIndices(100, 100)[s] < 10000
  {
    IndicesInRange(100, 100);
  }
}

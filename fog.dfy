/**
  The fog plane under the board: a square grid of `n` x `n` vertices laid out
  row by row, and an index buffer of two triangles per grid cell. The
  floating-point uv and position of each vertex are left out; a vertex is
  represented by the grid point they are computed from.
*/
module Fog {

  /** The grid point of a vertex: its uv is (col, row) / (n - 1). */
  datatype GridPoint = GridPoint(col: nat, row: nat)

  /** The fog shape: the side of the plane and the number of vertices per side (a u32). */
  datatype Fog = Fog(size: real, numVertices: nat)

  /** The mesh buffers: one grid point per vertex (uv, position and normal) and a triangle list. */
  datatype Mesh = Mesh(vertices: seq<GridPoint>, indices: seq<nat>)

  /** Vertices per side above which the index values would no longer fit in a u32. */
  const MaxSide: nat := 65536

  /** The grid point of the vertex at linear index `k` of a row-major grid with `n` columns. */
  function VertexAt(n: nat, k: nat): GridPoint
    requires 0 < n
  {
    GridPoint(k % n, k / n)
  }

  lemma MulLe(a: nat, b: nat, n: nat)
    requires a <= b
    ensures a * n <= b * n
  {
  }

  /** Row-major coordinates: q rows of n and r more give quotient q and remainder r. */
  lemma DivModOf(q: nat, r: nat, n: nat)
    requires r < n
    ensures (q * n + r) / n == q && (q * n + r) % n == r
  {
    var x := q * n + r;
    var q', r' := x / n, x % n;
    assert x == q' * n + r';
    if q' < q {
      MulLe(q' + 1, q, n);
    } else if q < q' {
      MulLe(q + 1, q', n);
    }
  }

  /** The vertex loops: row by row, column by column, one vertex per grid point. */
  method Vertices(n: nat) returns (vs: seq<GridPoint>)
    requires 1 <= n
    ensures |vs| == n * n
    ensures forall k :: 0 <= k < |vs| ==> vs[k] == VertexAt(n, k)
  {
    vs := [];
    for i := 0 to n
      invariant |vs| == i * n
      invariant forall k :: 0 <= k < |vs| ==> vs[k] == VertexAt(n, k)
    {
      for j := 0 to n
        invariant |vs| == i * n + j
        invariant forall k :: 0 <= k < |vs| ==> vs[k] == VertexAt(n, k)
      {
        DivModOf(i, j, n);
        vs := vs + [GridPoint(j, i)];
      }
    }
  }

  // ---------------------------------------------------------------------
  // Triangles

  /** The six indices pushed for the cell whose top-left vertex is `i`. */
  function CellIndices(i: nat, n: nat): seq<nat>
  {
    [i, i + n, i + n + 1, i, i + n + 1, i + 1]
  }

  /**
    A triangle of one grid cell: `a` is the top-left vertex of a cell (not in
    the last column or row) and `b`, `c` are two other corners of that cell.
  */
  predicate CellTriangle(n: nat, a: nat, b: nat, c: nat)
    requires 0 < n
  {
    && a % n < n - 1 && a / n < n - 1
    && b in {a + 1, a + n, a + n + 1} && c in {a + 1, a + n, a + n + 1} && b != c
  }

  /** The index buffer as the loop over `count` linear vertex indices builds it. */
  function AsWrittenIndices(n: nat, count: nat): (r: seq<nat>)
    ensures |r| == 6 * count
  {
    seq(6 * count, k requires 0 <= k < 6 * count => CellIndices(k / 6, n)[k % 6])
  }

  /** The whole buffer as written: the loop runs over (n-1)^2 linear indices. */
  function AsWrittenBuffer(n: nat): (r: seq<nat>)
  {
    AsWrittenIndices(n, Cells(n))
  }

  lemma AsWrittenStep(n: nat, i: nat)
    ensures AsWrittenIndices(n, i + 1) == AsWrittenIndices(n, i) + CellIndices(i, n)
  {
    var a, b := AsWrittenIndices(n, i + 1), AsWrittenIndices(n, i) + CellIndices(i, n);
    forall k | 0 <= k < |a| ensures a[k] == b[k] {
      if k >= 6 * i {
        assert k / 6 == i && k % 6 == k - 6 * i;
      }
    }
  }

  /**
    The index loop as written: it walks the (n-1)^2 linear vertex indices
    0, 1, 2, ... and pushes two triangles for each, taking the index as the
    top-left corner of a cell.
  */
  method IndicesAsWritten(n: nat) returns (indices: seq<nat>)
    requires 1 <= n <= MaxSide
    ensures indices == AsWrittenBuffer(n)
  {
    indices := [];
    for i := 0 to Cells(n)
      invariant indices == AsWrittenIndices(n, i)
    {
      // top left triangle
      indices := indices + [i];
      indices := indices + [i + n];
      indices := indices + [i + n + 1];
      // bottom right triangle
      indices := indices + [i];
      indices := indices + [i + n + 1];
      indices := indices + [i + 1];
      AsWrittenStep(n, i);
    }
  }

  /** Entry 6i + t of the buffer as written is entry t of the two triangles at linear index i. */
  lemma AsWrittenAt(n: nat, count: nat, i: nat, t: nat)
    requires i < count && t < 6
    ensures AsWrittenIndices(n, count)[6 * i + t] == CellIndices(i, n)[t]
  {
    var k := 6 * i + t;
    assert k / 6 == i && k % 6 == t;
  }

  /** No entry of the first `count` cells exceeds count + n, the value the last cell reaches. */
  lemma AsWrittenLayout(n: nat, count: nat)
    ensures forall k :: 0 <= k < 6 * count ==> AsWrittenIndices(n, count)[k] <= count + n
    ensures 0 < count ==> AsWrittenIndices(n, count)[6 * count - 4] == count + n
  {
    forall k | 0 <= k < 6 * count ensures AsWrittenIndices(n, count)[k] <= count + n {
      AsWrittenAt(n, count, k / 6, k % 6);
    }
    if 0 < count {
      AsWrittenAt(n, count, count - 1, 2);
    }
  }

  /** The number of cells of a side-n grid, (n - 1)^2. */
  function Cells(n: nat): nat
  {
    (n - 1) * (n - 1)
  }

  lemma CellsBelowSquare(n: nat)
    requires 1 <= n
    ensures Cells(n) + n == n * n - n + 1
    ensures 2 <= n ==> 0 < Cells(n) && Cells(n) + n < n * n
  {
    if 2 <= n {
      MulLe(1, n - 1, n - 1);
    }
  }

  /**
    The whole buffer as written: six entries per cell, each index at most
    (n-1)^2 + n, which is reached for n >= 2; so for n >= 2 every index is a
    vertex of the n^2-vertex grid.
  */
  lemma AsWrittenBounds(n: nat)
    requires 1 <= n
    ensures |AsWrittenBuffer(n)| == 6 * Cells(n)
    ensures forall k :: 0 <= k < |AsWrittenBuffer(n)| ==> AsWrittenBuffer(n)[k] <= Cells(n) + n
    ensures 2 <= n ==> AsWrittenBuffer(n)[6 * Cells(n) - 4] == Cells(n) + n
    ensures 2 <= n ==> forall k :: 0 <= k < |AsWrittenBuffer(n)| ==> AsWrittenBuffer(n)[k] < n * n
  {
    AsWrittenLayout(n, Cells(n));
    CellsBelowSquare(n);
  }

  /** For n = 3, the fifth triangle pushed is (2, 5, 6): it joins the right edge of row 0 to the left edge of row 2. */
  lemma AsWrittenWrapsAcrossRows()
    ensures AsWrittenIndices(3, 4)[12..15] == [2, 5, 6]
    ensures !CellTriangle(3, 2, 5, 6)
  {
    AsWrittenAt(3, 4, 2, 0);
    AsWrittenAt(3, 4, 2, 1);
    AsWrittenAt(3, 4, 2, 2);
    var s := AsWrittenIndices(3, 4);
    assert s[12..15] == [s[12], s[13], s[14]];
  }

  /** For n >= 3, the far corner vertex n^2 - 1 belongs to no triangle of the buffer as written. */
  lemma AsWrittenMissesCorner(n: nat)
    requires 3 <= n
    ensures n * n - 1 !in AsWrittenBuffer(n)
  {
    AsWrittenLayout(n, Cells(n));
    CellsBelowSquare(n);
  }

  // ---------------------------------------------------------------------
  // The cell-by-cell index buffer

  /** The top-left vertex of the q-th cell, cells numbered row by row, n - 1 to a row. */
  function Corner(n: nat, q: nat): nat
    requires 2 <= n
  {
    (q / (n - 1)) * n + q % (n - 1)
  }

  /** The first `count` cells of the cell-by-cell buffer. */
  function GridPrefix(n: nat, count: nat): (r: seq<nat>)
    requires 2 <= n
    ensures |r| == 6 * count
  {
    seq(6 * count, k requires 0 <= k < 6 * count => CellIndices(Corner(n, k / 6), n)[k % 6])
  }

  /** The index buffer with two triangles per grid cell, cells in row-major order. */
  function GridIndices(n: nat): (r: seq<nat>)
    requires 1 <= n
    ensures |r| == 6 * Cells(n)
  {
    if n == 1 then [] else GridPrefix(n, Cells(n))
  }

  lemma GridStep(n: nat, q: nat)
    requires 2 <= n
    ensures GridPrefix(n, q + 1) == GridPrefix(n, q) + CellIndices(Corner(n, q), n)
  {
    var a, b := GridPrefix(n, q + 1), GridPrefix(n, q) + CellIndices(Corner(n, q), n);
    forall k | 0 <= k < |a| ensures a[k] == b[k] {
      if k >= 6 * q {
        assert k / 6 == q && k % 6 == k - 6 * q;
      }
    }
  }

  /** The cell at row r and column c of the cells is cell number r * (n - 1) + c, with top-left vertex r * n + c. */
  lemma CornerOf(n: nat, r: nat, c: nat)
    requires 2 <= n && c < n - 1
    ensures Corner(n, r * (n - 1) + c) == r * n + c
  {
    DivModOf(r, c, n - 1);
  }

  /** The index loops, cell by cell: row r and column c of the cells give the top-left vertex r * n + c. */
  method Indices(n: nat) returns (indices: seq<nat>)
    requires 1 <= n <= MaxSide
    ensures indices == GridIndices(n)
  {
    indices := [];
    if n == 1 {
      return;
    }
    var m := n - 1;
    for r := 0 to m
      invariant indices == GridPrefix(n, r * m)
    {
      for c := 0 to m
        invariant indices == GridPrefix(n, r * m + c)
      {
        var i := r * n + c;
        CornerOf(n, r, c);
        // top left triangle
        indices := indices + [i];
        indices := indices + [i + n];
        indices := indices + [i + n + 1];
        // bottom right triangle
        indices := indices + [i];
        indices := indices + [i + n + 1];
        indices := indices + [i + 1];
        GridStep(n, r * m + c);
      }
      assert r * m + m == (r + 1) * m;
    }
  }

  /** A cell number below (n - 1)^2 has a row below n - 1. */
  lemma CellRow(n: nat, q: nat)
    requires 2 <= n && q < Cells(n)
    ensures q / (n - 1) < n - 1
  {
    var m := n - 1;
    var r := q / m;
    if r >= m {
      MulLe(m, r, m);
    }
  }

  /** The top-left vertex r * n + c of a cell sits at row r and column c, and its far corner is a vertex. */
  lemma CornerVertex(n: nat, r: nat, c: nat)
    requires 2 <= n && r < n - 1 && c < n - 1
    ensures (r * n + c) % n == c && (r * n + c) / n == r
    ensures r * n + c + n + 1 < n * n
  {
    DivModOf(r, c, n);
    MulLe(r + 1, n - 1, n);
    assert (r + 1) * n == r * n + n;
    assert (n - 1) * n + n == n * n;
  }

  /** The entries 6q .. 6q+5 of the cell-by-cell buffer are the two triangles of the q-th cell's top-left vertex. */
  lemma GridLayout(n: nat, q: nat, t: nat)
    requires 2 <= n && q < Cells(n) && t < 6
    ensures GridIndices(n)[6 * q + t] == CellIndices(Corner(n, q), n)[t]
  {
    var k := 6 * q + t;
    assert k / 6 == q && k % 6 == t;
  }

  /** The two triangles pushed for the top-left vertex `a` of a cell are triangles of that cell. */
  lemma CellTrianglesAt(n: nat, a: nat)
    requires 0 < n && a % n < n - 1 && a / n < n - 1
    ensures CellTriangle(n, a, a + n, a + n + 1) && CellTriangle(n, a, a + n + 1, a + 1)
  {
  }

  /** The q-th cell's two triangles are triangles of its own corners. */
  lemma CellOfGrid(n: nat, q: nat)
    requires 2 <= n && q < Cells(n)
    ensures CellTriangle(n, GridIndices(n)[6 * q], GridIndices(n)[6 * q + 1], GridIndices(n)[6 * q + 2])
    ensures CellTriangle(n, GridIndices(n)[6 * q + 3], GridIndices(n)[6 * q + 4], GridIndices(n)[6 * q + 5])
  {
    CellRow(n, q);
    CornerVertex(n, q / (n - 1), q % (n - 1));
    var a := Corner(n, q);
    CellTrianglesAt(n, a);
    GridLayout(n, q, 0);
    GridLayout(n, q, 1);
    GridLayout(n, q, 2);
    GridLayout(n, q, 3);
    GridLayout(n, q, 4);
    GridLayout(n, q, 5);
  }

  /** Every entry of the cell-by-cell buffer is a vertex of the grid. */
  lemma VertexOfGrid(n: nat, k: nat)
    requires 2 <= n && k < 6 * Cells(n)
    ensures GridIndices(n)[k] < n * n
  {
    var q, t := k / 6, k % 6;
    CellRow(n, q);
    CornerVertex(n, q / (n - 1), q % (n - 1));
    GridLayout(n, q, t);
  }

  /**
    Each grid cell gets two triangles of its own corners: the q-th six
    entries are two cell triangles, and every index is a vertex.
  */
  lemma GridTriangles(n: nat)
    requires 2 <= n
    ensures forall q :: 0 <= q < Cells(n) ==>
      && CellTriangle(n, GridIndices(n)[6 * q], GridIndices(n)[6 * q + 1], GridIndices(n)[6 * q + 2])
      && CellTriangle(n, GridIndices(n)[6 * q + 3], GridIndices(n)[6 * q + 4], GridIndices(n)[6 * q + 5])
    ensures forall k :: 0 <= k < |GridIndices(n)| ==> GridIndices(n)[k] < n * n
  {
    forall q | 0 <= q < Cells(n)
      ensures CellTriangle(n, GridIndices(n)[6 * q], GridIndices(n)[6 * q + 1], GridIndices(n)[6 * q + 2])
      ensures CellTriangle(n, GridIndices(n)[6 * q + 3], GridIndices(n)[6 * q + 4], GridIndices(n)[6 * q + 5])
    {
      CellOfGrid(n, q);
    }
    forall k | 0 <= k < |GridIndices(n)| ensures GridIndices(n)[k] < n * n {
      VertexOfGrid(n, k);
    }
  }

  /** The last cell is cell (n-1)^2 - 1, and its far corner is the last vertex n^2 - 1. */
  lemma LastCell(n: nat)
    requires 2 <= n
    ensures 0 < Cells(n) && Corner(n, Cells(n) - 1) + n + 1 == n * n - 1
  {
    var m := n - 1;
    MulLe(1, m, m);
    assert Cells(n) - 1 == (m - 1) * m + (m - 1);
    CornerOf(n, m - 1, m - 1);
    assert (m - 1) * n + n == m * n;
    assert m * n + n == n * n;
  }

  /** Unlike the buffer as written, the cell-by-cell buffer uses the far corner vertex n^2 - 1. */
  lemma GridUsesCorner(n: nat)
    requires 2 <= n
    ensures n * n - 1 in GridIndices(n)
  {
    LastCell(n);
    GridLayout(n, Cells(n) - 1, 2);
  }

  /** The mesh conversion as written: the vertex loops, then the loop over linear indices. */
  method FromAsWritten(fog: Fog) returns (mesh: Mesh)
    requires 1 <= fog.numVertices <= MaxSide
    ensures |mesh.vertices| == fog.numVertices * fog.numVertices
    ensures forall k :: 0 <= k < |mesh.vertices| ==> mesh.vertices[k] == VertexAt(fog.numVertices, k)
    ensures mesh.indices == AsWrittenBuffer(fog.numVertices)
  {
    var vertices := Vertices(fog.numVertices);
    var indices := IndicesAsWritten(fog.numVertices);
    mesh := Mesh(vertices, indices);
  }

  /** The mesh conversion with the index buffer built cell by cell. */
  method From(fog: Fog) returns (mesh: Mesh)
    requires 1 <= fog.numVertices <= MaxSide
    ensures |mesh.vertices| == fog.numVertices * fog.numVertices
    ensures forall k :: 0 <= k < |mesh.vertices| ==> mesh.vertices[k] == VertexAt(fog.numVertices, k)
    ensures mesh.indices == GridIndices(fog.numVertices)
  {
    var vertices := Vertices(fog.numVertices);
    var indices := Indices(fog.numVertices);
    mesh := Mesh(vertices, indices);
  }
}

/**
  The nested loops that fill the terrain's position and index buffers, as
  written in `buildLandscape` (projet.js) and, line for line the same, in
  `buildMesh` (terrain.js). Both demos call them with iMax = jMax = 100; here
  the sizes are parameters.

  The buffers are filled in place in freshly allocated arrays, as the typed
  arrays of the source are, and handed back as sequences. The GL upload that
  follows in the source is not modelled.
 */
module Tessellation {
  import opened Grid

  /** The data a mesh build hands to the GPU: both buffers and the index count used by drawElements. */
  datatype GridMesh = GridMesh(positions: seq<real>, indices: seq<nat>, indexCount: nat)

  /** The index buffer as a Uint32Array holds it: each reference index modulo 2^32. */
  function StoredIndices(iMax: nat, jMax: nat): (ix: seq<nat>)
    requires ValidSize(iMax, jMax)
    ensures |ix| == IndexCount(iMax, jMax)
  {
    seq(IndexCount(iMax, jMax), s requires 0 <= s < IndexCount(iMax, jMax) => Uint32(GridIndices(iMax, jMax)[s]))
  }

  /** The mesh both demos build for an iMax x jMax grid. */
  function ReferenceMesh(iMax: nat, jMax: nat): GridMesh
    requires ValidSize(iMax, jMax)
  {
    GridMesh(GridPositions(iMax, jMax), StoredIndices(iMax, jMax), IndexCount(iMax, jMax))
  }

  /**
    Every stored index names a real vertex, and the Uint32 store loses nothing
    while the grid has at most 2^32 vertices.
   */
  lemma StoredIndicesExact(iMax: nat, jMax: nat)
    requires ValidSize(iMax, jMax)
    ensures forall s :: 0 <= s < |StoredIndices(iMax, jMax)| ==> StoredIndices(iMax, jMax)[s] < VertexCount(iMax, jMax)
    ensures VertexCount(iMax, jMax) <= Uint32Limit ==> StoredIndices(iMax, jMax) == GridIndices(iMax, jMax)
  {
    IndicesInRange(iMax, jMax);
    if VertexCount(iMax, jMax) <= Uint32Limit {
      assert forall s :: 0 <= s < IndexCount(iMax, jMax) ==> StoredIndices(iMax, jMax)[s] == GridIndices(iMax, jMax)[s];
    }
  }

  /** Both demos' 100 x 100 mesh: 10000 vertices, 58806 indices, none truncated by the Uint32 store. */
  lemma Mesh100()
    ensures ReferenceMesh(100, 100).indexCount == 58806
    ensures |ReferenceMesh(100, 100).positions| == 20000
    ensures ReferenceMesh(100, 100).indices == GridIndices(100, 100)
    ensures forall s :: 0 <= s < 58806 ==> ReferenceMesh(100, 100).indices[s] < 10000
  {
    Grid100();
    StoredIndicesExact(100, 100);
  }

  /**
    Position loop: rows j outside, columns i inside, vertex i + j iMax gets
    (i / (iMax - 1), j / (jMax - 1)). The filled part of the buffer is always
    the prefix of the vertices visited so far.
   */
  method FillPositions(iMax: nat, jMax: nat) returns (positions: seq<real>)
    requires ValidSize(iMax, jMax)
    ensures positions == GridPositions(iMax, jMax)
  {
    ghost var ps := GridPositions(iMax, jMax);
    var data := new real[iMax * jMax * 2];
    for j := 0 to jMax
      invariant VertexId(iMax, 0, j) <= VertexCount(iMax, jMax)
      invariant forall p :: 0 <= p < 2 * VertexId(iMax, 0, j) ==> data[p] == ps[p]
    {
      RowEnd(iMax, jMax, j);
      for i := 0 to iMax
        invariant forall p :: 0 <= p < 2 * VertexId(iMax, i, j) ==> data[p] == ps[p]
      {
        PositionAt(iMax, jMax, i, j);
        WriteVertex(data, ps, iMax, jMax, i, j);
      }
    }
    positions := data[..];
  }

  /**
    Body of the position loop: vertex (i, j) writes its two coordinates,
    extending the filled prefix by one vertex and leaving every other slot as
    it was. `ps` is the reference buffer,
    of which only the two slots of this vertex are needed.
   */
  method WriteVertex(data: array<real>, ghost ps: seq<real>, iMax: nat, jMax: nat, i: nat, j: nat)
    requires ValidSize(iMax, jMax)
    requires data.Length == |ps| && 2 * VertexId(iMax, i, j) + 2 <= data.Length
    requires ps[2 * VertexId(iMax, i, j)] == Ratio(i, iMax) && ps[2 * VertexId(iMax, i, j) + 1] == Ratio(j, jMax)
    requires forall p :: 0 <= p < 2 * VertexId(iMax, i, j) ==> data[p] == ps[p]
    modifies data
    ensures forall p :: 0 <= p < 2 * VertexId(iMax, i, j) + 2 ==> data[p] == ps[p]
    ensures forall p :: 0 <= p < data.Length && !(2 * VertexId(iMax, i, j) <= p < 2 * VertexId(iMax, i, j) + 2) ==> data[p] == old(data[p])
  {
    data[2 * (i + j * iMax)] := i as real / (iMax - 1) as real;
    data[2 * (i + j * iMax) + 1] := j as real / (jMax - 1) as real;
  }

  /**
    Index loop: cells visited row by row, `quad` counting them; cell (i, j)
    writes its two triangles into slots 6 quad .. 6 quad + 5 of a Uint32Array.
    `count` is the buffer length computed before the loops (the index count
    kept for drawElements), `quads` the final value of the counter and
    `writes` logs every slot written, in order.
   */
  method FillIndices(iMax: nat, jMax: nat) returns (indices: seq<nat>, count: nat, quads: nat, ghost writes: seq<nat>)
    requires ValidSize(iMax, jMax)
    ensures quads == QuadCount(iMax, jMax)
    ensures count == |indices| == IndexCount(iMax, jMax)
    ensures forall s :: 0 <= s < |indices| ==> indices[s] == Uint32(GridIndices(iMax, jMax)[s])
    ensures |writes| == IndexCount(iMax, jMax)
    ensures forall n :: 0 <= n < |writes| ==> writes[n] == n
  {
    ghost var ix := GridIndices(iMax, jMax);
    var nbMeshQuads := (iMax - 1) * (jMax - 1);
    var nbMeshTriangles := 2 * nbMeshQuads;
    count := 3 * nbMeshTriangles;
    var data := new nat[count];
    var quad := 0;
    writes := [];
    for j := 0 to jMax - 1
      invariant quad == QuadId(iMax, 0, j) <= QuadCount(iMax, jMax)
      invariant |writes| == 6 * quad && forall n :: 0 <= n < |writes| ==> writes[n] == n
      invariant forall s :: 0 <= s < 6 * quad ==> data[s] == Uint32(ix[s])
    {
      QuadRowEnd(iMax, jMax, j);
      for i := 0 to iMax - 1
        invariant quad == QuadId(iMax, i, j) <= QuadCount(iMax, jMax)
        invariant |writes| == 6 * quad && forall n :: 0 <= n < |writes| ==> writes[n] == n
        invariant forall s :: 0 <= s < 6 * quad ==> data[s] == Uint32(ix[s])
      {
        QuadIdBound(iMax, jMax, i, j);
        CellSlots(iMax, jMax, i, j);
        ghost var written := WriteCell(data, ix, iMax, i, j, quad);
        writes := writes + written;
        quad := quad + 1;
      }
    }
    indices := data[..];
    quads := quad;
  }

  /**
    Body of the index loop: cell (i, j) writes its six slots, extending the
    filled prefix by one cell and leaving every other slot as it was. `ix` is
    the reference buffer, of which only the six slots of this cell are
    needed; `written` logs each slot as it is stored.
   */
  method WriteCell(data: array<nat>, ghost ix: seq<nat>, iMax: nat, i: nat, j: nat, quad: nat) returns (ghost written: seq<nat>)
    requires data.Length == |ix| && 6 * quad + 6 <= data.Length
    requires ix[6 * quad..6 * quad + 6] == CellIndices(iMax, i, j)
    requires forall s :: 0 <= s < 6 * quad ==> data[s] == Uint32(ix[s])
    modifies data
    ensures forall s :: 0 <= s < 6 * quad + 6 ==> data[s] == Uint32(ix[s])
    ensures forall s :: 0 <= s < data.Length && !(6 * quad <= s < 6 * quad + 6) ==> data[s] == old(data[s])
    ensures written == [6 * quad, 6 * quad + 1, 6 * quad + 2, 6 * quad + 3, 6 * quad + 4, 6 * quad + 5]
  {
    ghost var block := ix[6 * quad..6 * quad + 6];
    assert forall t :: 0 <= t < 6 ==> ix[6 * quad + t] == block[t];
    // triangle 1
    ghost var first := WriteTriangle(data, ix, 6 * quad, i + j * iMax, (i + 1) + j * iMax, i + (j + 1) * iMax);
    // triangle 2
    ghost var second := WriteTriangle(data, ix, 6 * quad + 3, i + (j + 1) * iMax, (i + 1) + j * iMax, (i + 1) + (j + 1) * iMax);
    written := first + second;
  }

  /**
    Three stores of the index loop: triangle (a, b, c) goes into slots
    `start` .. `start + 2` through the Uint32 store, extending the filled
    prefix by three slots and leaving every other slot as it was.
   */
  method WriteTriangle(data: array<nat>, ghost ix: seq<nat>, start: nat, a: nat, b: nat, c: nat) returns (ghost written: seq<nat>)
    requires data.Length == |ix| && start + 3 <= data.Length
    requires ix[start] == a && ix[start + 1] == b && ix[start + 2] == c
    requires forall s :: 0 <= s < start ==> data[s] == Uint32(ix[s])
    modifies data
    ensures forall s :: 0 <= s < start + 3 ==> data[s] == Uint32(ix[s])
    ensures forall s :: 0 <= s < data.Length && !(start <= s < start + 3) ==> data[s] == old(data[s])
    ensures written == [start, start + 1, start + 2]
  {
    data[start] := Uint32(a);
    written := [start];
    data[start + 1] := Uint32(b);
    written := written + [start + 1];
    data[start + 2] := Uint32(c);
    written := written + [start + 2];
  }

  /**
    `buildLandscape` in projet.js: fill the position buffer, then the index
    buffer, and keep the index count for drawElements.
   */
  method BuildLandscape(iMax: nat, jMax: nat) returns (mesh: GridMesh, nbMeshIndicesLandscape: nat)
    requires ValidSize(iMax, jMax)
    ensures mesh == ReferenceMesh(iMax, jMax)
    ensures nbMeshIndicesLandscape == |mesh.indices| == 6 * (iMax - 1) * (jMax - 1)
    ensures |mesh.positions| == 2 * iMax * jMax
    ensures forall s :: 0 <= s < |mesh.indices| ==> mesh.indices[s] < iMax * jMax
  {
    var positions := FillPositions(iMax, jMax);
    var indices, count, _, _ := FillIndices(iMax, jMax);
    assert indices == StoredIndices(iMax, jMax);
    nbMeshIndicesLandscape := count;
    mesh := GridMesh(positions, indices, nbMeshIndicesLandscape);
    StoredIndicesExact(iMax, jMax);
  }

  /**
    `buildMesh` in terrain.js: the same two loops, so the same buffers as
    `buildLandscape` for the same grid size.
   */
  method BuildMesh(iMax: nat, jMax: nat) returns (mesh: GridMesh, nbMeshIndices: nat)
    requires ValidSize(iMax, jMax)
    ensures mesh == ReferenceMesh(iMax, jMax)
    ensures nbMeshIndices == mesh.indexCount
  {
    var positions := FillPositions(iMax, jMax);
    var indices, count, _, _ := FillIndices(iMax, jMax);
    assert indices == StoredIndices(iMax, jMax);
    nbMeshIndices := count;
    mesh := GridMesh(positions, indices, nbMeshIndices);
  }
}

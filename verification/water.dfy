/**
  The water surface of projet.js: a fixed quad of four vertices and two
  triangles (`buildWater`), lifted to the water height by its vertex shader,
  and the water height itself, read from a slider (`draw_wgl`).
 */
module Water {
  import opened Grid
  import opened Geometry

  /** Position data of `buildWater`: four (x, y) pairs, flattened. */
  const QuadVertices: seq<int> := [-1, -1, -1, 1, 1, -1, 1, 1]

  /** Index data of `buildWater`; drawWater draws 6 indices. */
  const QuadIndices: seq<nat> := [0, 1, 2, 1, 2, 3]

  /** The index count drawWater passes to drawElements. */
  const QuadIndexCount: nat := 6

  /** The "Water Height" slider: range 0 to 100, starting at 25. */
  const SliderMin: int := 0
  const SliderMax: int := 100
  const SliderDefault: int := 25

  /** Vertex k of the quad as an (x, y) pair. */
  function QuadCorner(k: nat): (int, int)
    requires k < 4
  {
    (QuadVertices[2 * k], QuadVertices[2 * k + 1])
  }

  /** The four corners of the square [-1, 1]^2. */
  function ClipSquareCorners(): set<(int, int)>
  {
    {(-1, -1), (-1, 1), (1, -1), (1, 1)}
  }

  /** Twice the signed area of quad triangle (a, b, c) in the (x, y) plane. */
  function QuadSignedArea2(a: nat, b: nat, c: nat): int
    requires a < 4 && b < 4 && c < 4
  {
    var (x0, y0) := QuadCorner(a);
    var (x1, y1) := QuadCorner(b);
    var (x2, y2) := QuadCorner(c);
    (x1 - x0) * (y2 - y0) - (y1 - y0) * (x2 - x0)
  }

  /**
    The quad has four distinct vertices, exactly the corners of [-1, 1]^2, and
    two triangles whose indices all name one of them.
   */
  lemma QuadShape()
    ensures |QuadVertices| == 2 * 4
    ensures {QuadCorner(0), QuadCorner(1), QuadCorner(2), QuadCorner(3)} == ClipSquareCorners()
    ensures |ClipSquareCorners()| == 4
    ensures |QuadIndices| == QuadIndexCount
    ensures forall s :: 0 <= s < |QuadIndices| ==> QuadIndices[s] < 4
  {
    assert |{(-1, -1), (-1, 1)}| == 2;
    assert |{(-1, -1), (-1, 1), (1, -1)}| == 3;
  }

  /**
    The quad's triangles do not share a winding: (0, 1, 2) turns clockwise and
    (1, 2, 3) counter-clockwise. Culling is never enabled, so both are drawn.
   */
  lemma QuadWindingMixed()
    ensures QuadSignedArea2(QuadIndices[0], QuadIndices[1], QuadIndices[2]) < 0
    ensures QuadSignedArea2(QuadIndices[3], QuadIndices[4], QuadIndices[5]) > 0
  {
  }

  /** `sliderWaterHeight.value / 100`. */
  function WaterHeight(slider: int): (h: real)
    ensures SliderMin <= slider <= SliderMax ==> InUnitInterval(h)
    ensures h * 100.0 == slider as real
  {
    slider as real / 100.0
  }

  /** The slider determines the height and keeps its order; it starts at a quarter of the way up. */
  lemma WaterHeightMonotone(a: int, b: int)
    ensures a <= b <==> WaterHeight(a) <= WaterHeight(b)
    ensures WaterHeight(a) == WaterHeight(b) ==> a == b
    ensures WaterHeight(SliderDefault) == 0.25
    ensures WaterHeight(SliderMin) == 0.0 && WaterHeight(SliderMax) == 1.0
  {
  }

  /**
    The terrain covers the water quad exactly: the grid's corner vertices land
    on the quad's corners, and every grid vertex lands inside the quad.
   */
  lemma TerrainCoversWaterQuad(iMax: nat, jMax: nat, height: real)
    requires ValidSize(iMax, jMax)
    ensures forall p :: 0 <= p < |GridPositions(iMax, jMax)| ==> InClipRange(Expand(GridPositions(iMax, jMax)[p]))
    ensures var ps := GridPositions(iMax, jMax);
      var corners := [VertexId(iMax, 0, 0), VertexId(iMax, 0, jMax - 1), VertexId(iMax, iMax - 1, 0), VertexId(iMax, iMax - 1, jMax - 1)];
      forall k :: 0 <= k < 4 ==>
        2 * corners[k] + 1 < |ps|
        && var terrain := LandscapeVertex(ps[2 * corners[k]], ps[2 * corners[k] + 1], height);
           var water := WaterVertex(QuadCorner(k).0 as real, QuadCorner(k).1 as real, height);
           terrain.x == water.x && terrain.z == water.z
  {
    var ps := GridPositions(iMax, jMax);
    PositionsInUnitSquare(iMax, jMax);
    forall p | 0 <= p < |ps|
      ensures InClipRange(Expand(ps[p]))
    {
      ExpandContract(ps[p], 0.0);
    }
    Corners(iMax, jMax);
  }
}

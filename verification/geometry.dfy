/**
  World-space placement done by the vertex shaders. The landscape shader of
  projet.js lifts a grid point (u, v) of [0, 1]^2 to (2u - 1, height, 2v - 1),
  so the terrain's xz footprint is [-1, 1]^2; the terrain.js shader puts the
  height on z instead, (2u - 1, 2v - 1, height). The water shader places a
  quad vertex (x, y) at (x, waterHeight, y).

  Heights come from a texture lookup, which is left to the caller.
 */
module Geometry {

  datatype Vec3 = Vec3(x: real, y: real, z: real)

  predicate InUnitInterval(r: real)
  {
    0.0 <= r <= 1.0
  }

  predicate InClipRange(r: real)
  {
    -1.0 <= r <= 1.0
  }

  /** One axis of the shaders' `2.0 * p - 1.0`. */
  function Expand(u: real): real
  {
    2.0 * u - 1.0
  }

  /** Inverse of Expand: back from [-1, 1] to the grid's [0, 1]. */
  function Contract(x: real): real
  {
    (x + 1.0) / 2.0
  }

  /** Landscape vertex shader of projet.js. */
  function LandscapeVertex(u: real, v: real, height: real): (p: Vec3)
    ensures p.y == height
    ensures Contract(p.x) == u && Contract(p.z) == v
  {
    Vec3(Expand(u), height, Expand(v))
  }

  /** Landscape vertex shader of terrain.js. */
  function TerrainVertex(u: real, v: real, height: real): (p: Vec3)
    ensures p.z == height
    ensures Contract(p.x) == u && Contract(p.y) == v
  {
    Vec3(Expand(u), Expand(v), height)
  }

  /** Water vertex shader of projet.js: the quad lies flat at the water height. */
  function WaterVertex(x: real, y: real, waterHeight: real): (p: Vec3)
    ensures p.y == waterHeight
    ensures p.x == x && p.z == y
  {
    Vec3(x, waterHeight, y)
  }

  /** Expand and Contract are inverse bijections between [0, 1] and [-1, 1]. */
  lemma ExpandContract(u: real, x: real)
    ensures Contract(Expand(u)) == u && Expand(Contract(x)) == x
    ensures InUnitInterval(u) <==> InClipRange(Expand(u))
    ensures InClipRange(x) <==> InUnitInterval(Contract(x))
  {
  }

  /** A grid point of the unit square lands inside [-1, 1] on both horizontal axes, in either shader. */
  lemma FootprintInClipSquare(u: real, v: real, height: real)
    requires InUnitInterval(u) && InUnitInterval(v)
    ensures InClipRange(LandscapeVertex(u, v, height).x) && InClipRange(LandscapeVertex(u, v, height).z)
    ensures InClipRange(TerrainVertex(u, v, height).x) && InClipRange(TerrainVertex(u, v, height).y)
  {
    ExpandContract(u, 0.0);
    ExpandContract(v, 0.0);
  }
}

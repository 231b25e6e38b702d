# Terrain grid and water passes — a Dafny model

This project models the computational core of a WebGL terrain-and-water demo.

- **Terrain tessellation.** `buildLandscape` (projet.js) and its near-copy `buildMesh` (terrain.js) fill a position buffer with an `iMax × jMax` grid of points in [0,1]². They then fill an index buffer with two triangles per grid cell.
- **Water quad.** A fixed quad of four vertices and six indices.
- **Reflection camera.** The mirrored eye and look-at centre of the reflection pass.
- **Water height.** The slider value divided by 100.
- **Clip test.** The landscape fragment shader's `uRef` discard test.
- **Pass order.** The fixed order of the three render passes of a frame.

The source hard-codes `iMax = jMax = 100`. The model takes both sizes as parameters with `iMax, jMax >= 2`. With a size of 1 the source would compute `0 / 0`, which is NaN in JavaScript. Lemmas instantiate the model at 100 × 100 and at 2 × 2.

Files:

- `grid.dfy` (`Grid`): the reference grid in closed form. Slot `p` of each buffer is computed from `p` alone. The module also holds the lemmas about the grid: numbering, bounds, cell layout, winding and corners.
- `tessellation.dfy` (`Tessellation`): the nested loops as written, over fresh arrays. They are proved to produce the reference buffers. `BuildLandscape` and `BuildMesh` are both proved equal to one `ReferenceMesh`, so the two source files build the same mesh.
- `geometry.dfy` (`Geometry`): the vertex-shader placement of grid points and water-quad points in world space.
- `water.dfy` (`Water`): the water quad data, its relation to the terrain footprint, and the slider-to-height conversion.
- `reflection.dfy` (`Reflection`): eye and centre mirroring for the reflection pass.
- `passes.dfy` (`Passes`): the discard predicate and one frame's three passes.

Grid positions are exact rationals (`real`). The Uint32Array that receives the indices is modelled as a store modulo 2^32. The model proves that this store never truncates while the grid has at most 2^32 vertices, which covers the 100 × 100 grid.

Two points about the code are worth stating up front.

- **Grid size.** The code never checks the grid size; its sizes are constants. The model requires `iMax, jMax >= 2`.
- **Winding.** The triangles have positive signed area in (column, row) grid coordinates, and that is what is proved (`Grid.GridWinding`). The landscape shader sends rows to world z, so seen from above (+y) the triangles turn clockwise.

## Model

| member | source | states |
|---|---|---|
| Grid.Uint32 | projet.js:249 | a Uint32Array element keeps its value modulo 2^32; values below 2^32 are stored unchanged and nothing stored is larger than what was written |
| Grid.VertexIdBijective | projet.js:237-243 | the row-major number `i + j*iMax` gives every grid point a distinct slot below `iMax*jMax`, and every such slot belongs to a grid point |
| Grid.PositionAt | projet.js:241-242 | vertex `i + j*iMax` holds `(i/(iMax-1), j/(jMax-1))` at slots `2k`, `2k+1` of the position buffer |
| Grid.PositionsInUnitSquare | projet.js:236-244 | every stored coordinate lies in [0,1] |
| Grid.Corners | projet.js:241-242 | the four corner vertices sit exactly at (0,0), (1,0), (0,1), (1,1) |
| Grid.QuadIdBijective | projet.js:250-264 | the cell counter `current_quad` gives each cell a distinct number below `(iMax-1)*(jMax-1)` and every such number names a cell, so each six-slot block is written by exactly one cell |
| Grid.IndexAt | projet.js:256-262 | slot `6*current_quad + t` holds the t-th index of the cell being visited |
| Grid.CellSlots | projet.js:255-262 | the block of cell (i,j) is `[v(i,j), v(i+1,j), v(i,j+1), v(i,j+1), v(i+1,j), v(i+1,j+1)]` |
| Grid.CellIndicesInRange | projet.js:256-262 | all six indices of a cell name an existing vertex |
| Grid.IndicesInRange | projet.js:246-265 | every index in the buffer is below `iMax*jMax` |
| Grid.CellLayout | projet.js:255-262 | a cell's two triangles share exactly the diagonal `v(i+1,j)`–`v(i,j+1)` and together use the four distinct corners of the cell |
| Grid.CellWinding | projet.js:255-262 | both triangles of a cell have signed area +1/2 in (column, row) coordinates |
| Grid.GridWinding | projet.js:246-265 | every triangle of the index buffer has the same positive orientation, so none is degenerate |
| Grid.Grid2x2 | projet.js:236-265 | a 2×2 grid has its four vertices on the corners of the unit square and emits exactly the two triangles `(0,1,2)` and `(2,1,3)` |
| Grid.Grid100 | projet.js:234-265 | at the hard-coded 100×100 the buffers have 20000 coordinates and 58806 indices, and every index is below 10000 |
| Tessellation.FillPositions | projet.js:236-244 | the nested position loops fill exactly the reference position buffer |
| Tessellation.WriteVertex | projet.js:241-242 | one pass of the inner position loop extends the filled prefix by the visited vertex's two reference coordinates and leaves every other slot unchanged |
| Tessellation.FillIndices | projet.js:246-265 | the nested index loops end with `current_quad` equal to the cell count, allocate and report `6*(iMax-1)*(jMax-1)` slots, and leave the reference index buffer as a Uint32Array stores it; the log of slots actually stored, built store by store in `WriteTriangle`, is `0, 1, …, n-1`, so each slot is written exactly once and in increasing order |
| Tessellation.WriteCell | projet.js:255-263 | one pass of the inner loop body extends the filled prefix by the visited cell's six reference indices, stores exactly slots `6*current_quad` to `6*current_quad+5` in that order, and leaves every other slot unchanged |
| Tessellation.WriteTriangle | projet.js:256-258 | the three stores of one triangle put its indices, modulo 2^32, into three consecutive slots, log those slots in order, and leave every other slot unchanged |
| Tessellation.StoredIndicesExact | projet.js:249 | every stored index names a vertex, and the Uint32 store loses nothing while the grid has at most 2^32 vertices |
| Tessellation.BuildLandscape | projet.js:231-265 | the landscape mesh is the reference mesh; `nbMeshIndicesLandscape` equals `6*(iMax-1)*(jMax-1)` and the index buffer's length; every index is below `iMax*jMax` |
| Tessellation.BuildMesh | terrain.js:98-154 | the terrain.js mesh is the same reference mesh, so it equals projet.js's for the same size |
| Tessellation.Mesh100 | terrain.js:100-101 | the 100×100 mesh has 58806 indices, all below 10000, none truncated |
| Geometry.LandscapeVertex | projet.js:72-73 | the landscape shader maps grid (u,v) to (2u-1, height, 2v-1), and the horizontal mapping is undone by `(x+1)/2` |
| Geometry.TerrainVertex | terrain.js:28-29 | the terrain.js shader maps grid (u,v) to (2u-1, 2v-1, height), and the mapping is undone by `(x+1)/2` |
| Geometry.WaterVertex | projet.js:138 | the water shader places quad point (x, y) at world x = x and world z = y, at the water height |
| Geometry.ExpandContract | projet.js:72 | `2u-1` and `(x+1)/2` are inverse bijections between [0,1] and [-1,1] |
| Geometry.FootprintInClipSquare | terrain.js:28-29 | a grid point of [0,1]² lands in [-1,1] on both horizontal axes in either shader |
| Water.QuadShape | projet.js:293-298 | the water quad has 4 distinct vertices, exactly the corners of [-1,1]², and 6 indices all below 4 |
| Water.QuadWindingMixed | projet.js:297-298 | triangle (0,1,2) of the water quad is clockwise and (1,2,3) counter-clockwise |
| Water.WaterHeight | projet.js:539 | the water height is slider/100; a slider in 0..100 gives a height in [0,1], and the slider value is recovered as height*100 |
| Water.WaterHeightMonotone | projet.js:424 | the height is strictly monotone in the slider; the default 25 gives 0.25 and the ends give 0 and 1 |
| Water.TerrainCoversWaterQuad | projet.js:72 | every terrain vertex lands in [-1,1] on x and z, and the terrain's corner vertices land on the same world x and z as the water quad's corners, as the water shader places them, so the two footprints coincide |
| Reflection.MirrorEye | projet.js:508-509 | the mirrored eye keeps x and z, and the water height is the midpoint of the old and new eye heights |
| Reflection.MirrorCenter | projet.js:510-511 | the mirrored centre keeps x and z and has the opposite height |
| Reflection.MirrorEyeInvolution | projet.js:509 | mirroring the eye twice restores it, and the eye is unchanged exactly when it lies on the water plane |
| Reflection.MirrorEyeSide | projet.js:509 | an eye above the water is mirrored below it, at the same distance from the plane |
| Reflection.MirrorCenterAboutZero | projet.js:511 | the centre is mirrored across y = 0, which agrees with mirroring across the water only when the water height is 0 |
| Reflection.MirroredViewDirection | projet.js:508-513 | the reflection camera's view direction keeps x and z, and its y is the negated original minus twice the water height |
| Reflection.MirrorEyeExample | projet.js:509 | an eye at (0,5,0) over water at height 1 is mirrored to (0,-3,0) |
| Passes.Discards | projet.js:106 | only codes 1 and 2 ever discard, and never a fragment exactly on the water plane |
| Passes.FirstPass | projet.js:502-516 | the reflection pass renders into the reflection target at 1024×1024, clips with code 1, samples nothing, draws the sky first, moves the eye to the mirror image across the water plane (same x and z), moves the centre to the opposite height (same x and z), and uses up (0,1,0) |
| Passes.SecondPass | projet.js:517-525 | the refraction pass renders into the refraction target at 1024×1024 from the original eye and centre with up (0,1,0), draws the sky first, clips with code 2 and samples nothing |
| Passes.FinalPass | projet.js:526-534 | the final pass renders to the canvas at its size with the camera left in place, draws the sky first, draws the whole terrain (code 0), draws the water last and only last, and samples both offscreen targets |
| Passes.DiscardPolicy | projet.js:106 | `uRef` 1 discards exactly fragments below the water, 2 exactly those above, and 0 or any other code discards nothing |
| Passes.ClipPassesPartition | projet.js:106 | no fragment is discarded by both clip codes, one on the water plane survives both, and any other survives exactly one |
| Passes.DrawFrame | projet.js:535-543 | a frame runs the reflection, refraction and canvas passes in that order with landscape refs 1, 2, 0; the water is drawn only as the last draw of the last pass, after both targets it samples were rendered, and never into a target it samples |
| Passes.FrameCameras | projet.js:502-533 | the reflection camera is exactly the mirrored eye and centre with up (0,1,0); the refraction and final passes use the unmirrored camera with the same up; every pass draws the sky first; the water is shaded from the original eye; the offscreen passes use the 1024×1024 viewport |
| Passes.FrameClipping | projet.js:515-532 | the reflection target keeps terrain at or above the water, the refraction target keeps terrain at or below it, and the canvas keeps all of it |

## Left out

- GL object lifecycle: buffer, vertex-array, texture and framebuffer creation, binding, upload, clear and viewport calls are foreign calls into the browser's WebGL. The passes record their target, viewport, camera and draw list instead.
- Asynchronous image loading (`image.onload`, the cube-map `load().then`) and `update_wgl` are I/O and callback timing.
- The ewgl framework (camera, `Uniforms`, `ShaderProgram`, `Mesh.Cube`, `UserInterface`) is external code. Its camera is modelled only as the eye, centre and up vector that `look` sets.
- Floating-point shader maths is left out: lighting and normals, the `acos` view coefficient, the unclamped blend weight `1.0-2.5*coeff`, distortion scrolling, and the specular term. Terrain heights come from a texture and are parameters here.
- Float32 rounding of the position buffer is not modelled. Positions are exact rationals.
- The light-position sliders are left out. Their values are only passed through to the shaders.
- The water quad's mixed winding is stated as it is (`Water.QuadWindingMixed`) and is not corrected. Face culling is never enabled, so both triangles are drawn.
- base.js is not part of this model. It only sets up the skybox and the UI, and its terrain section is commented out.
- Grid sizes below 2 are excluded by precondition. The source never uses them.
- JavaScript doubles and GLSL floats are modelled as exact reals everywhere, not only in the position buffer. This covers `slider/100` (projet.js:539), the eye mirroring (projet.js:509) and the clip comparisons (projet.js:106). So `Water.WaterHeight`'s `h*100 == slider` and `Reflection.MirrorEyeInvolution` hold in the model but not always in floating point: in JavaScript `7/100*100` is `7.000000000000001`.
- The model assumes that ewgl's `Vec3(cameraInfos[1])` (projet.js:510) makes a copy. ewgl is external code. If `Vec3` returned its argument, line 511 would negate the caller's centre, and `secondPass` and `render` (projet.js:522, 533) would use the negated centre.

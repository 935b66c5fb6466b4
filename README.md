# Marching-cubes terrain chunk

A model of one terrain chunk of a Unity voxel-terrain generator
(`Assets/scripts/Chunk.cs`). A chunk owns:

- a density grid `terrainMap` of `(W+1) x (H+1) x (W+1)` samples, filled with
  each point's height above the terrain (`y - height(x + cx, z + cz)`);
- a vertex buffer `vertices`;
- a triangle index buffer `triangles`.

A rebuild clears both buffers. It then marches every unit cube, with x outer,
y middle and z inner. For each cube it:

1. reads the eight corner samples;
2. forms an 8-bit configuration index, where bit `i` is set when corner `i` is
   above the iso level `terrainSurface`;
3. skips the cube when the index is 0 or 255;
4. otherwise walks the 256-row triangulation table in groups of three edge
   entries, at most five groups, up to the first `-1`;
5. appends, for each edge entry, the midpoint of the edge's two corners and
   that vertex's index.

Point edits write `0` (place, at the position rounded up) or `1` (remove, at
the position rounded down) into one grid cell, then rebuild.

Files:

- `tables.dfy` (module `GameTables`): the game data the chunk reads. This is
  the chunk size, the iso level, the corner, edge and triangulation tables and
  the height oracle. `Tables` is the game data whose tables have the shape the
  chunk relies on (`ValidGameData`). The game data source is not part of this
  model, so no table contents are assumed.
- `bits.dfy` (module `Bits`): `c | (1 << i)`, `2^i` and "bit i of c" on
  natural numbers.
- `marching.dfy` (module `MarchingCubes`): the case analysis as functions of a
  grid value, and the lemmas about them. It covers the corner samples, the
  configuration index and how many edge entries a row yields. One function,
  `Emitted`, gives the vertices of every stretch of the rebuild loops, as a
  `Span`, from the innermost out:
  - `Entries(pos, c, n)`: the first `n` entries of row `c`;
  - `Triangles(pos, c)`: the whole walk of configuration `c`;
  - `Cube(pos)`: one cube;
  - `Row(x, y, n)`: the first `n` cubes of a row;
  - `Layer(x, n)`: the first `n` rows of a layer;
  - `Prefix(n)`: the first `n` layers.

  `Entries`, `Row`, `Layer` and `Prefix` are each the stretch one shorter
  plus its last part. `Triangles` emits nothing for configuration 0 or 255
  and otherwise the whole walk; `Cube` is `Triangles` at the cube's own index.
- `chunk.dfy` (module `ChunkMesh`): the class `Chunk`. The grid is an
  `array3<real>` updated in place. The buffers are `seq` fields. The methods
  mirror the source's loops and are proved against `Emitted`.

Vertices are held by their doubled coordinates (`Vertex(twiceX, twiceY,
twiceZ)`). Every emitted vertex is the midpoint of two lattice points, so it
is exact: the point itself is `(twiceX / 2, twiceY / 2, twiceZ / 2)`.

The comments at `Chunk.cs:138` and `Chunk.cs:143-144` do not match the code.

- They say a bit is set when its corner is *below* the surface. The code at
  `Chunk.cs:145` sets it when the sample is *greater than* `terrainSurface`.
  That means above the surface, where the grid is empty.
- They say that the 3rd corner alone gives `00100000`, i.e. 32. The code at
  `Chunk.cs:146` sets bit `i` with `1 << i`. So the 3rd corner (index 2) gives
  `00000100`, i.e. 4 (`SingleCornerIndex`). Corner 5 alone would give 32.

The model follows the code in both cases.

A rebuild is deterministic. `Chunk.MeshIsCurrent` pins the buffers to
`MeshVertices(data, grid)` and `IndexRun(0, |vertices|)`. Both are functions
of the grid alone. So two rebuilds of an unchanged grid yield identical
buffers, and so do repeated identical edits (`EditIdempotent`).

## Model

| member | source | states |
|---|---|---|
| `ChunkMesh.Chunk.constructor` | Assets/scripts/Chunk.cs:23-39 | allocates a `(W+1) x (H+1) x (W+1)` grid; on return every point holds its sampled density (`Populated`) and the buffers are those of a full rebuild |
| `MarchingCubes.Density` | Assets/scripts/Chunk.cs:78-81 | the reference density of grid point `(x, y, z)`: its height `y` minus the terrain height at `(x + chunkPosition.x, z + chunkPosition.z)` |
| `ChunkMesh.Chunk.PopulateTerrainMap` | Assets/scripts/Chunk.cs:65-86 | every grid point `(x, y, z)` in `[0,W] x [0,H] x [0,W]` holds exactly `y - height(x + chunkPosition.x, z + chunkPosition.z)` |
| `ChunkMesh.Chunk.SampleTerrain` | Assets/scripts/Chunk.cs:180-185 | the sample read at an in-grid point is the grid value there; an in-grid precondition is all it needs |
| `ChunkMesh.Chunk.SampleCube` | Assets/scripts/Chunk.cs:90-96 | the fresh eight-sample array holds the corner samples in corner-table order |
| `MarchingCubes.CornerSamplesAt` | Assets/scripts/Chunk.cs:90-96 | for a cube in `[0,W) x [0,H) x [0,W)` and unit corner offsets, every corner point lies inside the `(W+1, H+1, W+1)` grid, and sample `i` is the grid value at corner `i` |
| `ChunkMesh.Chunk.GetCubeConfiguration` | Assets/scripts/Chunk.cs:135-152 | the loop's index is below 256; bit `i` is set iff `cube[i] > terrainSurface`; it equals the functional `Configuration` |
| `Bits.SetBit` | Assets/scripts/Chunk.cs:146 | `c OR (1 << i)` has bit `i` set, every other bit as in `c`, and lies in `[c, c + 2^i]` |
| `MarchingCubes.Configuration` | Assets/scripts/Chunk.cs:139-150 | the index of eight samples is below 256 |
| `MarchingCubes.ConfigFromBound` | Assets/scripts/Chunk.cs:140-148 | the index built from samples `k..` is below `2^(n-k)` |
| `MarchingCubes.ConfigFromBits` | Assets/scripts/Chunk.cs:140-148 | bit `i-k` of the index built from samples `k..` is set iff sample `i` is above the iso level |
| `MarchingCubes.ConfigurationBits` | Assets/scripts/Chunk.cs:139-150 | bit `i` of the index of eight samples is set iff sample `i` is above the iso level |
| `MarchingCubes.SingleCornerIndex` | Assets/scripts/Chunk.cs:143-146 | a cube with corner `i` alone above the iso level has index `2^i`, i.e. `1 << i`, so the 3rd corner alone gives 4 |
| `MarchingCubes.UniformConfiguration` | Assets/scripts/Chunk.cs:139-150 | all samples at or below the iso level give index 0; all above give 255 |
| `MarchingCubes.CubeIndex` | Assets/scripts/Chunk.cs:99 | the index of the cube at `pos` is below 256 |
| `MarchingCubes.CubeIndexBits` | Assets/scripts/Chunk.cs:90-99 | bit `i` of the cube's index is set iff the grid sample at corner `i` is above the iso level |
| `MarchingCubes.FirstSentinel` | Assets/scripts/Chunk.cs:113-117 | the stop position of a walk over a row window lies within the window |
| `MarchingCubes.FirstSentinelSpec` | Assets/scripts/Chunk.cs:113-117 | no entry before the stop position is `-1`, and the entry at it is `-1` unless the walk ran to the window's end |
| `MarchingCubes.EntryCount` | Assets/scripts/Chunk.cs:105-117 | a row yields at most 15 edge entries (five triangles of three) |
| `MarchingCubes.EntryCountSpec` | Assets/scripts/Chunk.cs:106-129 | every entry walked is a valid edge index, and the row holds `-1` right after them unless the walk filled all 15 |
| `MarchingCubes.EntryIsEdge` | Assets/scripts/Chunk.cs:113-121 | an entry read before the walk stops indexes the edge table |
| `MarchingCubes.EdgeVertex` | Assets/scripts/Chunk.cs:120-124 | the vertex of an edge lies in the cube's box `[pos, pos + 1]` on every axis |
| `MarchingCubes.EdgeVertexIsMidpoint` | Assets/scripts/Chunk.cs:120-124 | an edge's vertex is the midpoint of two corners of the cube at `pos` with distinct corner indices |
| `MarchingCubes.EntriesLength` | Assets/scripts/Chunk.cs:126-129 | a walk of `n` entries appends exactly `n` vertices |
| `MarchingCubes.EntryAt` | Assets/scripts/Chunk.cs:113-127 | vertex `k` of a walk is the midpoint of the edge its row lists at `k` |
| `MarchingCubes.EntriesAt` | Assets/scripts/Chunk.cs:105-132 | a walk of `n` entries appends exactly the vertices of the first `n` edges its row lists, in order |
| `MarchingCubes.EntriesIgnoreGrid` | Assets/scripts/Chunk.cs:105-132 | the walk reads only the tables and the position, never the densities |
| `MarchingCubes.Emitted` | Assets/scripts/Chunk.cs:44-132 | the reference vertex sequence of an entry walk, a cube, a row, a layer or a layer prefix, in the loops' order: the midpoint of each edge read, nothing for index 0 or 255, and the parts concatenated; every loop method is proved equal to it |
| `MarchingCubes.CubeEmission` | Assets/scripts/Chunk.cs:99-132 | a cube emits at most 15 vertices and none when its index is 0 or 255; otherwise exactly as many as entries precede the row's first `-1`, capped at 15, vertex `k` being the midpoint of edge `row[k]`; a row whose sentinel sits at a multiple of 3 yields a multiple of 3 |
| `MarchingCubes.CubeWholeTriangles` | Assets/scripts/Chunk.cs:105-132 | with a table of whole triangles, every cube emits a multiple of three vertices |
| `MarchingCubes.UniformCubeIsEmpty` | Assets/scripts/Chunk.cs:99-103 | a cube whose eight corners are all at or below, or all above, the iso level emits nothing |
| `MarchingCubes.FlatTerrainCubes` | Assets/scripts/Chunk.cs:65-103 | over flat terrain of height `h`, a freshly sampled chunk emits nothing for a cube wholly at or below `h + terrainSurface` or wholly above it |
| `MarchingCubes.CubeInBox` | Assets/scripts/Chunk.cs:119-127 | every vertex of a cube lies in `[pos, pos + 1]` |
| `MarchingCubes.RowInBox` | Assets/scripts/Chunk.cs:51-57 | the vertices of cubes `(x, y, 0..n-1)` in z order all lie in `[x, x+1] x [y, y+1] x [0, n]` |
| `MarchingCubes.LayerInBox` | Assets/scripts/Chunk.cs:49-58 | the vertices of the first `n` rows of layer `x`, y outer and z inner, all lie in the slab `[x, x+1] x [0, n] x [0, W]` |
| `MarchingCubes.PrefixInBox` | Assets/scripts/Chunk.cs:47-59 | the vertices of the first `n` layers in loop order all lie in `[0, n] x [0, H] x [0, W]` |
| `MarchingCubes.MeshInBox` | Assets/scripts/Chunk.cs:44-59 | the vertex buffer of a full rebuild lies inside the chunk `[0, W] x [0, H] x [0, W]` |
| `MarchingCubes.RowWholeTriangles` | Assets/scripts/Chunk.cs:51-57 | with a table of whole triangles, a row of cubes emits a multiple of three vertices |
| `MarchingCubes.LayerWholeTriangles` | Assets/scripts/Chunk.cs:49-58 | with a table of whole triangles, a layer of cubes emits a multiple of three vertices |
| `MarchingCubes.PrefixWholeTriangles` | Assets/scripts/Chunk.cs:47-59 | with a table of whole triangles, every prefix of layers emits a multiple of three vertices |
| `MarchingCubes.MeshWholeTriangles` | Assets/scripts/Chunk.cs:44-59 | with a table of whole triangles, a full rebuild emits a multiple of three vertices |
| `MarchingCubes.MeshBuffers` | Assets/scripts/Chunk.cs:41-63 | after a full rebuild the index buffer is as long as the vertex buffer and every index names a vertex; with a table of whole triangles it holds whole triangles |
| `ChunkMesh.Chunk.ClearMeshData` | Assets/scripts/Chunk.cs:154-160 | both buffers are empty afterwards |
| `ChunkMesh.Chunk.CreateMeshData` | Assets/scripts/Chunk.cs:41-63 | after clearing and marching every cube x/y/z, `vertices` is `MeshVertices` of the current grid and `triangles[k] == k` with both buffers of equal length, so every index is in range; with a table of whole triangles the index count is a multiple of 3 |
| `ChunkMesh.Chunk.MarchLayers` | Assets/scripts/Chunk.cs:47-59 | the outer loop fills empty buffers with exactly the vertices of every layer in order and keeps `triangles[k] == k` |
| `ChunkMesh.Chunk.MarchLayer` | Assets/scripts/Chunk.cs:49-58 | the middle loop appends exactly the layer's vertices and keeps `triangles[k] == k` |
| `ChunkMesh.Chunk.MarchRow` | Assets/scripts/Chunk.cs:51-57 | the inner loop appends exactly the row's vertices and keeps `triangles[k] == k` |
| `ChunkMesh.Chunk.MarchCube` | Assets/scripts/Chunk.cs:88-133 | appends exactly the cube's vertices, so nothing when the index is 0 or 255, and the matching run of indices |
| `ChunkMesh.Chunk.EmitTriangles` | Assets/scripts/Chunk.cs:105-132 | the two nested loops append the midpoints of the row's edge entries up to the sentinel or the 15th entry, and the index of each new vertex |
| `ChunkMesh.Ceil` | Assets/scripts/Chunk.cs:165 | the least integer not below the coordinate |
| `ChunkMesh.Floor` | Assets/scripts/Chunk.cs:174 | the greatest integer not above the coordinate |
| `MarchingCubes.GridSet` | Assets/scripts/Chunk.cs:166 | writing one cell changes exactly that cell and keeps the grid's shape |
| `MarchingCubes.GridSetIdempotent` | Assets/scripts/Chunk.cs:166 | writing the same value to the same cell twice gives the grid one write gives |
| `ChunkMesh.Chunk.PlaceTerrain` | Assets/scripts/Chunk.cs:162-169 | an in-grid edit sets exactly the cell at `ceil(pos)` to 0, leaves every other cell unchanged and rebuilds; an edit outside the grid changes nothing |
| `ChunkMesh.Chunk.RemoveTerrain` | Assets/scripts/Chunk.cs:171-178 | an in-grid edit sets exactly the cell at `floor(pos)` to 1, leaves every other cell unchanged and rebuilds; an edit outside the grid changes nothing |
| `MarchingCubes.EditIdempotent` | Assets/scripts/Chunk.cs:162-178 | repeating an edit gives the same grid and the same mesh as doing it once |
| `MarchingCubes.EditLocality` | Assets/scripts/Chunk.cs:162-178 | editing one cell leaves the vertices of every cube that does not have that cell as a corner unchanged |

## Left out

- Unity plumbing (`Chunk.cs:25-34`: game object, components, material, tag,
  transform) and `BuildMesh` (`Chunk.cs:187-197`: mesh construction, normal
  recalculation, filter and collider assignment). These are foreign library
  calls with no checkable logic. The buffers are simply left in the chunk's
  fields, as `BuildMesh` would receive them.
- `GameData.GetTerrainHeight` (Perlin noise) is not part of this model. It is
  the pure function field `terrainHeight` of the game data.
- The contents of `GameData.CornerTable`, `EdgeIndexes` and `TriangleTable`
  are not part of this model. Only their shape is assumed (the type `Tables`):
  - 8 corner offsets in `{0,1}^3`;
  - 12 edges joining two distinct corners;
  - 256 rows of at least 15 entries in `[-1, 12)`.
- IEEE float behaviour: densities are `real`, and `Mathf.CeilToInt` and
  `Mathf.FloorToInt` are the real ceiling and floor. Vertices are exact
  doubled-integer points rather than `Vector3` floats.
- `ChunkMesh.Chunk.PlaceTerrain`: the source does no bounds check. An
  out-of-grid position makes the array write throw before anything changes,
  and the rebuild is skipped. The model returns `ok == false` with the state
  unchanged, as that exception leaves it. Nothing here claims the source
  checks bounds.
- `ChunkMesh.Chunk.RemoveTerrain`: same treatment of out-of-grid positions as
  `PlaceTerrain`.
- `ChunkMesh.Chunk.CreateMeshData`: `|triangles| % 3 == 0` is proved only
  under `TableOfTriangles`, which says every row's first sentinel within 15
  entries sits at a multiple of three. That is a property of the table
  contents, which are not part of this model.
- `Assets/scripts/WorldGenerator.cs` (scene setup and the chunk-lattice loop)
  is not part of this model.
- 32-bit `int` arithmetic: the chunk position sums at `Chunk.cs:78`, the
  rounded edit coordinates at `Chunk.cs:165` and `Chunk.cs:174`, and the
  vertex count at `Chunk.cs:128` are unbounded `int`s here. For a chunk that
  fits in memory, and coordinates within the world generator's range, none of
  them comes near `2^31`.
- Concurrency: the source is single-threaded, and so is the model.

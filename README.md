# Terrain chunk builder and scenery rules, modelled in Dafny

This project models two parts of a browser terrain demo built on THREE.js.

**The terrain chunk builder worker** (`client/src/terrain-builder-threaded-worker.js`).
For one tile it takes an offset, a width and a resolution R, and produces seven flat
triangle-list buffers: positions, colours, normals, world coordinates, UVs, splat layer
indices (`weights1`) and splat weights (`weights2`). The pipeline has these stages, each
one a Dafny method proved against a specification function:

- a vertex loop over an (R + 3) × (R + 3) grid that includes a one-vertex padding ring (`TerrainGrid`);
- an index loop that builds two triangles per cell (`TerrainGrid`);
- smooth normals accumulated from unnormalised face normals (`TerrainNormals`);
- the skirt fix, which lowers the ring and copies normals inward (`TerrainSkirt`);
- normalisation of every normal (`TerrainNormals`);
- for each triangle, the choice of its four strongest texture layers and the
  renormalisation of each corner's weights (`TerrainSplat`, `TerrainSplatStage`);
- un-indexing into triangle lists (`TerrainUnindex`).

`TerrainBuilder` composes these stages. Its `ChunkOf` states the whole build's outcome,
`Worker` is the worker object with `Init` and `Rebuild`, and `OnMessage` is the message
handler that turns a thrown error into an `error` reply.

**The scenery controller** (`client/src/scenery-controller.js`):

- the catalogues and the copying of templates into numbered copies when the module
  loads (`SceneryCatalogue`, `SceneryLoading`, `SceneryTables`);
- `FindBiome_`, the list of catalogue keys matching a biome, and the density roll;
- `SpawnSmallAt_` returning null when nothing matches;
- the centre guard, which respawns only when the player changes cell;
- the two grids of cells visited around the player;
- `DestroyVegation_`, which hides entities far from the player and splices their records
  out of the vegetation list (`SceneryController`, whose `Controller` class holds
  `center_`, `vegetation_` and the registered scenery entities).

Numbers are Dafny `real`s. The builder's JavaScript arrays are sequences that the methods
append to or reassign. The noise field, the height and splat generators, THREE.js's
`normalize`, the terrain lookups and the key formatting are parameters: see "Left out".

### Two properties of the code

- **Normals on flat ground point down.** The index loop's winding, read through
  (N3 − N2) × (N1 − N2), makes every face normal over level ground point along −y, not
  (0, 1, 0) (`TerrainBuilder.LevelFace`, `TerrainBuilder.FlatNormals`). So the
  accumulated normals point down, and so do the final ones whenever `normalize` keeps a
  vector's direction.
- **Ring corners drop twice as far as ring sides.** The four `_ApplyFix` loops lower a
  ring corner twice, once by a row loop and once by a column loop, so corners end 20
  below their inward neighbour and side vertices 10 (`TerrainSkirt.SkirtFix`,
  `TerrainBuilder.SkirtDrop`).

## Model

| member | source | states |
|---|---|---|
| Numerics.Sat | client/src/terrain-builder-threaded-worker.js:58-60 | `math.sat` lies in [0, 1]. It is the identity on [0, 1], 0 below and 1 above. |
| Numerics.SatBelow | client/src/scenery-controller.js:171-173 | For a threshold in (0, 1], clamping does not change whether a value is below it. |
| Numerics.JsRound | client/src/scenery-controller.js:281-283 | `Math.round` rounds half up: r ≤ x + 0.5 < r + 1. |
| Numerics.MaxReal | client/src/terrain-builder-threaded-worker.js:163 | `Math.max` is one of its arguments and at least both. |
| Vectors.CrossPerpendicular | client/src/terrain-builder-threaded-worker.js:108-110 | A cross product is perpendicular to both of its factors. |
| Vectors.At3Flatten3 | client/src/terrain-builder-threaded-worker.js:105-107 | Reading slot v of a packed stride-3 array gives back vector v. |
| TerrainGrid.SlotIsGridVertex | client/src/terrain-builder-threaded-worker.js:57-83 | Every buffer slot v holds grid vertex (Col v, Row v), and that vertex's index is v again: x-major order with no gaps. |
| TerrainGrid.GridAt | client/src/terrain-builder-threaded-worker.js:57-83 | Grid vertex (x, y) is stored at slot (x + 1)(R + 3) + (y + 1), and that slot's coordinates are (x, y). |
| TerrainGrid.VertexAt | client/src/terrain-builder-threaded-worker.js:62-81 | Defines grid vertex (x, y): its world point on the clamped grid line, the height generator's displacement, the colour from (W.x, W.y, height) with W the undisplaced world point, the world coordinate and the UV. `BuildVertices` and `SlotIsGridVertex` state the buffers in its terms. |
| TerrainGrid.RingCoincidesWithEdge | client/src/terrain-builder-threaded-worker.js:58-60 | A padding-ring vertex gets exactly the attributes of its nearest tile-edge vertex, because `sat` clamps −1 to 0 and R + 1 to R. |
| TerrainGrid.ClampCoord | client/src/terrain-builder-threaded-worker.js:58-60 | A grid line's coordinate equals that of the grid line clamped into the tile. |
| TerrainGrid.CoordInTile | client/src/terrain-builder-threaded-worker.js:58-60 | Inside the tile, grid line i lies at width · i / R. |
| TerrainGrid.SeamAlignment | client/src/terrain-builder-threaded-worker.js:57-68 | Two tiles whose offsets differ by one width along x give equal displaced positions on their shared edge. |
| TerrainGrid.SeamPoint | client/src/terrain-builder-threaded-worker.js:58-62 | The shared edge's undisplaced world points coincide. |
| TerrainGrid.BuildVertices | client/src/terrain-builder-threaded-worker.js:56-83 | The six vertex buffers are exactly the packing of `VertexAt` over the grid in x-major order. |
| TerrainGrid.PushRow | client/src/terrain-builder-threaded-worker.js:59-82 | One pass of the inner loop extends the buffers from x rows to x + 1 rows of the grid. |
| TerrainGrid.PushGridVertex | client/src/terrain-builder-threaded-worker.js:60-81 | One iteration pushes the vertex (x, y) of `VertexAt` onto every buffer. |
| TerrainGrid.IndicesInRange | client/src/terrain-builder-threaded-worker.js:86-99 | The index buffer has 6 (R + 2)² entries, each names a grid vertex, and no triangle repeats a vertex. |
| TerrainGrid.IndexBuffer | client/src/terrain-builder-threaded-worker.js:86-99 | The index buffer holds 3 entries per triangle, two triangles per cell; `IndicesInRange` and `TriangleCell` state where each entry points. |
| TerrainGrid.CornerIndex | client/src/terrain-builder-threaded-worker.js:86-99 | Defines entry m of the index buffer: corner m % 6 of cell m / 6, named as the two `push` calls name it. |
| TerrainGrid.TriangleCell | client/src/terrain-builder-threaded-worker.js:86-99 | Triangle t lies in one cell (i, j). Its corners are the grid vertices the two `push` calls name, and even triangles are the first of their cell. |
| TerrainGrid.TriangleDistinct | client/src/terrain-builder-threaded-worker.js:88-97 | The three corners of any triangle are different vertices. |
| TerrainGrid.BuildIndices | client/src/terrain-builder-threaded-worker.js:85-99 | The index loop produces exactly `IndexBuffer`. |
| TerrainGrid.PushCellRow | client/src/terrain-builder-threaded-worker.js:87-98 | One row of cells extends the index buffer's prefix by that row's 6 (R + 2) entries. |
| TerrainGrid.CellEntries | client/src/terrain-builder-threaded-worker.js:88-97 | Cell (i, j) appends exactly its two triangles to the buffer prefix. |
| TerrainNormals.UnusedVertexHasZeroNormal | client/src/terrain-builder-threaded-worker.js:102-114 | A vertex that no triangle uses keeps a zero accumulator. |
| TerrainNormals.FaceNormal | client/src/terrain-builder-threaded-worker.js:104-110 | Defines triangle t's face normal (N3 − N2) × (N1 − N2), unnormalised; `FaceNormalPerpendicular` proves it perpendicular to both edges. |
| TerrainNormals.NormalSum | client/src/terrain-builder-threaded-worker.js:102-114 | Defines a vertex's accumulator after t triangles: the face normals of those triangles, once per corner that is the vertex; `AccumulateNormals` proves the loop computes it. |
| TerrainNormals.UntouchedByTriangle | client/src/terrain-builder-threaded-worker.js:103-114 | A triangle changes only the accumulators of its own corners. |
| TerrainNormals.FaceNormalPerpendicular | client/src/terrain-builder-threaded-worker.js:104-110 | A face normal is perpendicular to both edges it is built from. |
| TerrainNormals.AddFaceAt | client/src/terrain-builder-threaded-worker.js:111-113 | The nine `+=` add the face normal to a vertex once for each corner that is that vertex. |
| TerrainNormals.AddFaceNormal | client/src/terrain-builder-threaded-worker.js:111-113 | The method performs exactly those nine additions. |
| TerrainNormals.AccumulateStep | client/src/terrain-builder-threaded-worker.js:103-114 | If every accumulator is its sum over t triangles before a pass, it is its sum over t + 1 triangles after it. |
| TerrainNormals.AddTriangle | client/src/terrain-builder-threaded-worker.js:104-113 | One loop pass takes every accumulator from t triangles to t + 1. |
| TerrainNormals.AccumulateNormals | client/src/terrain-builder-threaded-worker.js:101-114 | Every vertex's accumulator, starting from zero, is the sum of its triangles' face normals, each counted once per corner that is that vertex. |
| TerrainNormals.NormalizeNormals | client/src/terrain-builder-threaded-worker.js:130-133 | Every stride-3 slot is replaced by `normalize` of its old value, and the buffer keeps its length. |
| TerrainSkirt.Slot | client/src/terrain-builder-threaded-worker.js:118-119 | Row r, column c is a slot of the s × s grid. |
| TerrainSkirt.SlotInjective | client/src/terrain-builder-threaded-worker.js:118-119 | Different rows or columns give different slots. |
| TerrainSkirt.Inward | client/src/terrain-builder-threaded-worker.js:117-128 | Defines the row or column a ring slot copies from: 1 for the first, s − 2 for the last, itself otherwise; `InwardIsClamp` proves it is the clamp into the tile. |
| TerrainSkirt.RingEdges | client/src/terrain-builder-threaded-worker.js:117-128 | The number of ring edges a slot lies on is at most 2: 0 inside, 1 on a side, 2 at a corner. |
| TerrainSkirt.Sink | client/src/terrain-builder-threaded-worker.js:117-128 | Defines a position lowered by k skirt depths of 10; `SkirtPositions` proves the passes lower each slot by `RingEdges` depths. |
| TerrainSkirt.ApplyFix | client/src/terrain-builder-threaded-worker.js:117-124 | Only slot (x, y) changes: it is lowered by 10 and takes the normal of (xp, yp). |
| TerrainSkirt.FixRow | client/src/terrain-builder-threaded-worker.js:125-126 | Row x is lowered by 10 and copies its normals from row xp column by column. Every other row is unchanged. |
| TerrainSkirt.FixColumn | client/src/terrain-builder-threaded-worker.js:127-128 | Column y is lowered by 10 and copies its normals from column yp row by row. Every other column is unchanged. |
| TerrainSkirt.SkirtFix | client/src/terrain-builder-threaded-worker.js:116-128 | Every slot is lowered 10 per ring edge it lies on: inside 0, sides 10, corners 20. It takes the accumulated normal one step inward on each ring axis, so a corner gets its diagonal neighbour's. |
| TerrainSkirt.SkirtPositions | client/src/terrain-builder-threaded-worker.js:120-128 | The four lowering passes add up to one skirt depth per ring edge. |
| TerrainSkirt.SkirtNormals | client/src/terrain-builder-threaded-worker.js:121-128 | After the four copying passes, every slot holds the normal one step inward on each ring axis, because the row passes run before the column passes. |
| TerrainSplat.CombineStrengths | client/src/terrain-builder-threaded-worker.js:149-152 | One entry per key of the first reply, in key order, with the key's strength summed over all three replies. Fails with `SplatKeyMissing` when any reply lacks one of those keys. |
| TerrainSplat.Combined | client/src/terrain-builder-threaded-worker.js:149-152 | Defines the summed strengths per key of the first reply, or `SplatKeyMissing`; `CombinedEntries` and `CombineStrengths` state its contents. |
| TerrainSplat.AddReply | client/src/terrain-builder-threaded-worker.js:152 | Adding one reply succeeds exactly when it holds every key, and then adds its strengths. |
| TerrainSplat.InsertPermutes | client/src/terrain-builder-threaded-worker.js:154 | Inserting keeps every entry. |
| TerrainSplat.InsertSorted | client/src/terrain-builder-threaded-worker.js:154 | Inserting into a list sorted by descending strength keeps it sorted. |
| TerrainSplat.Insert | client/src/terrain-builder-threaded-worker.js:154 | Inserting adds exactly one entry; `InsertPermutes` and `InsertSorted` state where it goes. |
| TerrainSplat.SortByStrength | client/src/terrain-builder-threaded-worker.js:154 | The sort keeps the length; `SortSorted` and `SortStable` prove it is a stable descending permutation. |
| TerrainSplat.SortSorted | client/src/terrain-builder-threaded-worker.js:154 | The sort orders by descending strength and is a permutation of its input. |
| TerrainSplat.SortStable | client/src/terrain-builder-threaded-worker.js:154 | Entries of equal strength keep their relative order, as `Array.prototype.sort` guarantees. |
| TerrainSplat.TriangleSplatWeights | client/src/terrain-builder-threaded-worker.js:149-183 | One triangle's body: twelve layer indices and twelve weights as `TriangleWeights` gives them, or the error that the body throws. |
| TerrainSplat.TriangleWeights | client/src/terrain-builder-threaded-worker.js:149-183 | Defines one triangle's twelve layer indices and weights, or the error it throws; `TriangleFailure`, `SelectedLayersStrongest` and `CornerWeightsNormalised` state its properties. |
| TerrainSplat.NormaliseCorners | client/src/terrain-builder-threaded-worker.js:157-167 | Each corner's row holds its four selected strengths scaled by the inverse of their total. |
| TerrainSplat.NormaliseCorner | client/src/terrain-builder-threaded-worker.js:158-166 | A single row is computed with `1 / max(total, 1e-6)`. |
| TerrainSplat.PushCorners | client/src/terrain-builder-threaded-worker.js:170-183 | Four indices and four weights are pushed per corner, layer 3 down to layer 0, in corner order. |
| TerrainSplat.NormalisedReversed | client/src/terrain-builder-threaded-worker.js:177-182 | Pushing a scaled row from last to first gives the corner's weights. |
| TerrainSplat.TriangleFailure | client/src/terrain-builder-threaded-worker.js:149-162 | A triangle fails with `SplatKeyMissing` exactly when a reply lacks a key of the first reply. It fails with `TooFewSplatLayers` exactly when all keys are present but there are fewer than four. Otherwise it succeeds with twelve entries of each kind. |
| TerrainSplat.CombinedEntries | client/src/terrain-builder-threaded-worker.js:149-152 | The accumulated entries are all different and carry the first reply's keys with their summed strengths. |
| TerrainSplat.RankedEntry | client/src/terrain-builder-threaded-worker.js:154 | Every ranked entry is a key of the first reply with its summed strength. |
| TerrainSplat.SortedIndex | client/src/terrain-builder-threaded-worker.js:154 | The sort only returns entries it was given. |
| TerrainSplat.KeyRanked | client/src/terrain-builder-threaded-worker.js:154 | Every key of the first reply appears in the ranking. |
| TerrainSplat.SelectedLayersStrongest | client/src/terrain-builder-threaded-worker.js:149-162 | The four selected layers are four different keys that every reply holds, in order of decreasing summed strength. No unselected key has more summed strength than the fourth. |
| TerrainSplat.OthersWeaker | client/src/terrain-builder-threaded-worker.js:154-162 | No unselected key is stronger than the fourth selected layer. |
| TerrainSplat.RenormalisedSum | client/src/terrain-builder-threaded-worker.js:158-166 | A corner's four weights add up to 1 when its total is at least 1e-6. Otherwise they add up to the total times 1e6. |
| TerrainSplat.RenormalisedBounded | client/src/terrain-builder-threaded-worker.js:163-165 | Non-negative strengths with a total of at least 1e-6 give weights in [0, 1]. |
| TerrainSplat.CornerWeightsNormalised | client/src/terrain-builder-threaded-worker.js:157-182 | A corner's pushed weights sum to 1, or to the total times 1e6 below the floor, and lie in [0, 1] for non-negative strengths. |
| TerrainSplat.CornersShareLayers | client/src/terrain-builder-threaded-worker.js:170-176 | The three corners of a triangle push the same four layer indices whenever the splatter indexes a key the same way everywhere. |
| TerrainSplatStage.FailureSticks | client/src/terrain-builder-threaded-worker.js:136-184 | After a triangle fails, no later triangle changes the outcome: a throw aborts the loop. |
| TerrainSplatStage.ConcatStep | client/src/terrain-builder-threaded-worker.js:136-184 | A triangle that succeeds appends its entries. One that fails makes its error the outcome. |
| TerrainSplatStage.ConcatOutcome | client/src/terrain-builder-threaded-worker.js:136-184 | The loop succeeds exactly when every triangle does. Otherwise it fails with the first failing triangle's error. |
| TerrainSplatStage.ConcatLayout | client/src/terrain-builder-threaded-worker.js:169-183 | Triangle t's entries are entries 12t to 12t + 11 of both weight buffers. |
| TerrainSplatStage.Concat | client/src/terrain-builder-threaded-worker.js:136-184 | Defines the splat loop's outcome after n triangles; `ConcatOutcome`, `ConcatLayout` and `FailureSticks` state it. |
| TerrainSplatStage.SplatWeightsOutcome | client/src/terrain-builder-threaded-worker.js:136-184 | Over the real splat replies, the buffers hold 12 entries per triangle in triangle order, and the loop succeeds exactly when every triangle does. |
| TerrainSplatStage.BuildSplatWeights | client/src/terrain-builder-threaded-worker.js:136-184 | The splat loop's result is the concatenation of the triangles' outcomes. |
| TerrainSplatStage.SplatLoop | client/src/terrain-builder-threaded-worker.js:136-184 | The loop, stepping i by 3, returns the first failing triangle's error or all the triangles' entries. |
| TerrainSplatStage.SplatTriangle | client/src/terrain-builder-threaded-worker.js:137-183 | One iteration gives triangle t's outcome. |
| TerrainSplatStage.GatherReplies | client/src/terrain-builder-threaded-worker.js:137-147 | The inner loop asks the splatter once per corner with that corner's world point, normal and up vector. |
| TerrainUnindex.UnindexedLength | client/src/terrain-builder-threaded-worker.js:187-198 | The triangle list holds `stride` numbers per index entry. |
| TerrainUnindex.UnindexedAt | client/src/terrain-builder-threaded-worker.js:187-198 | Number j of record k of the list is number j of the record that index entry k names. |
| TerrainUnindex.Unindexed | client/src/terrain-builder-threaded-worker.js:187-198 | Defines the triangle list of the first m index entries; `UnindexedLength` and `UnindexedAt` state its length and contents. |
| TerrainUnindex.Unindexed3 | client/src/terrain-builder-threaded-worker.js:200-203 | For a stride-3 buffer, vertex k of the list is the vertex that entry k names. |
| TerrainUnindex.Unindexed2 | client/src/terrain-builder-threaded-worker.js:204 | The same holds for the stride-2 UV buffer. |
| TerrainUnindex.UnindexedVector | client/src/terrain-builder-threaded-worker.js:187-203 | Un-indexing packed vectors gives, at k, the vector that entry k names. |
| TerrainUnindex.UnindexedPair | client/src/terrain-builder-threaded-worker.js:187-204 | The same holds for packed UV pairs. |
| TerrainUnindex.UnindexedTriangle | client/src/terrain-builder-threaded-worker.js:190-195 | One triangle appends its three corners' records in order. |
| TerrainUnindex.Unindex | client/src/terrain-builder-threaded-worker.js:187-198 | `unindex(src, stride)` returns exactly the triangle list, `stride` numbers per index entry. |
| TerrainUnindex.CopyRecord | client/src/terrain-builder-threaded-worker.js:193-195 | Each inner loop appends exactly the named record. |
| TerrainBuilder.GridMesh | client/src/terrain-builder-threaded-worker.js:56-99 | The grid buffers have (R + 3)² slots per attribute, and the index buffer has 3 · 2 (R + 2)² entries, each naming a slot. |
| TerrainBuilder.SourceSlot | client/src/terrain-builder-threaded-worker.js:121-128 | The slot a vertex takes its normal from is in the grid. |
| TerrainBuilder.SkirtedBuffer | client/src/terrain-builder-threaded-worker.js:116-128 | The skirt fix's positions are `SkirtedPositions`: displaced positions lowered per ring edge. |
| TerrainBuilder.SkirtedAt | client/src/terrain-builder-threaded-worker.js:120 | This holds at each slot. |
| TerrainBuilder.NormalBuffer | client/src/terrain-builder-threaded-worker.js:101-133 | Accumulated, copied inward and normalised, the normals are `FinalNormals`. |
| TerrainBuilder.NormalAt | client/src/terrain-builder-threaded-worker.js:121-133 | This holds at each slot. |
| TerrainBuilder.BuildAttributes | client/src/terrain-builder-threaded-worker.js:40-133 | The stages before the splat loop produce the skirted positions, the final normals, the grid's other buffers and the index buffer. |
| TerrainBuilder.BuildChunk | client/src/terrain-builder-threaded-worker.js:25-215 | The whole pipeline gives `ChunkOf`. |
| TerrainBuilder.ChunkOf | client/src/terrain-builder-threaded-worker.js:25-215 | Defines the whole build's outcome; `ChunkLayout`, `ChunkFailure`, `ChunkVertex` and `ChunkWeights` state its properties. |
| TerrainBuilder.Worker.constructor | client/src/terrain-builder-threaded-worker.js:241 | A new worker has no parameters. |
| TerrainBuilder.Worker.Init | client/src/terrain-builder-threaded-worker.js:8-19 | It keeps the parameters, with the offset as a vector, and the generators. |
| TerrainBuilder.Worker.Rebuild | client/src/terrain-builder-threaded-worker.js:25-238 | Before `Init` it fails with `NotInitialised`. Afterwards its result is `ChunkOf` the kept parameters. |
| TerrainBuilder.OnMessage | client/src/terrain-builder-threaded-worker.js:243-252 | A `build_chunk` message re-initialises the worker and replies with the chunk or the error. Any other message changes nothing and gets no reply. |
| TerrainBuilder.Handle | client/src/terrain-builder-threaded-worker.js:243-252 | Defines the reply to a message: none for other subjects, the chunk or the error for `build_chunk`; `OnMessage` is proved to send it. |
| TerrainBuilder.ChunkLayout | client/src/terrain-builder-threaded-worker.js:186-215 | A build succeeds exactly when every triangle's splat lookup does. Its stride-3 buffers then hold 9 numbers per triangle, the UVs 6 and the weights 12. |
| TerrainBuilder.ChunkFailure | client/src/terrain-builder-threaded-worker.js:136-184 | A failed build fails with the first failing triangle's error, never `NotInitialised`. The message handler at lines 245-250 posts that error. |
| TerrainBuilder.ChunkVertex | client/src/terrain-builder-threaded-worker.js:186-206 | Vertex k of every output buffer belongs to the grid vertex that index entry k names: its skirted position, colour, final normal, coordinate and UV. |
| TerrainBuilder.ChunkWeights | client/src/terrain-builder-threaded-worker.js:169-183 | Triangle u's twelve weight entries are the ones its own splat lookup gives. |
| TerrainBuilder.SkirtDrop | client/src/terrain-builder-threaded-worker.js:116-128 | A ring vertex sits above its nearest tile vertex. It is 10 lower on a side and 20 lower at a corner, and tile vertices are not lowered. |
| TerrainBuilder.RingNormal | client/src/terrain-builder-threaded-worker.js:116-133 | A ring vertex's final normal is its nearest tile vertex's, which comes from that vertex's own accumulator. |
| TerrainBuilder.InwardIsClamp | client/src/terrain-builder-threaded-worker.js:125-128 | In slot terms, stepping inward from the ring is clamping to the tile. |
| TerrainBuilder.FlatPosition | client/src/terrain-builder-threaded-worker.js:62-70 | On ground of constant height h, a vertex sits at its world point raised by h. |
| TerrainBuilder.CoordMonotone | client/src/terrain-builder-threaded-worker.js:58-60 | Grid lines never go backwards when the width is non-negative. |
| TerrainBuilder.LevelTriangle | client/src/terrain-builder-threaded-worker.js:88-110 | Under either winding of the index loop, a level triangle spanning [x0, x1] by [z0, z1] has face normal (0, −(x1 − x0)(z1 − z0), 0). |
| TerrainBuilder.FlatGrid | client/src/terrain-builder-threaded-worker.js:62-70 | On flat ground every grid position is level. |
| TerrainBuilder.LevelFace | client/src/terrain-builder-threaded-worker.js:88-110 | Over a level grid every face normal points along −y. |
| TerrainBuilder.FlatFaces | client/src/terrain-builder-threaded-worker.js:101-110 | On flat ground every face normal points along −y. |
| TerrainBuilder.FlatNormals | client/src/terrain-builder-threaded-worker.js:101-114 | On flat ground every accumulated normal points along −y, not up. |
| TerrainBuilder.SumOfFaces | client/src/terrain-builder-threaded-worker.js:103-114 | The accumulators are sums of per-corner shares of the face normals. |
| TerrainBuilder.DownwardSum | client/src/terrain-builder-threaded-worker.js:111-113 | Adding downward face normals keeps an accumulator downward. |
| SceneryCatalogue.Put | client/src/scenery-controller.js:97 | Assigning to an object: a new key goes last in key order, and an existing key keeps its place and gets the new value. |
| SceneryCatalogue.PutWellFormed | client/src/scenery-controller.js:97 | Assignment keeps every key listed once. |
| SceneryCatalogue.PutTwice | client/src/scenery-controller.js:97-98 | A second assignment to a key overrides the first. |
| SceneryCatalogue.Decimal | client/src/scenery-controller.js:97 | `key + i` appends a non-empty string of digits. |
| SceneryCatalogue.DecimalInjective | client/src/scenery-controller.js:97 | Different numbers give different numerals. |
| SceneryCatalogue.ExpandOne | client/src/scenery-controller.js:96-99 | The inner copying loop only adds keys. |
| SceneryCatalogue.ExpandAll | client/src/scenery-controller.js:95-100 | The whole expansion only adds keys, and every template stays present. |
| SceneryCatalogue.ExpandOneFresh | client/src/scenery-controller.js:96-99 | With new copy keys, the inner loop appends `key2 .. key(num-1)` in order. Old entries are untouched and each copy is the template with `base = name + i + '.fbx'`. |
| SceneryCatalogue.CopyKeyInjective | client/src/scenery-controller.js:97 | Copies of one multiple get different keys. |
| SceneryCatalogue.CopyKey | client/src/scenery-controller.js:97-98 | Defines the key `key + i` of copy i; `CopyKeyInjective` proves copies of one multiple get different keys. |
| SceneryCatalogue.CopyOf | client/src/scenery-controller.js:97-98 | Defines copy i: the template with `base = name + i + '.fbx'`; `BiomeFreeExpansion` uses that only `base` changes. |
| SceneryCatalogue.KeptTemplate | client/src/scenery-controller.js:95-100 | Every original key keeps its place in the key order and its entry. |
| SceneryCatalogue.AllCopyKeysFrom | client/src/scenery-controller.js:95-100 | Every added key is copy i of some multiple. |
| SceneryCatalogue.BiomeFreeExpansion | client/src/scenery-controller.js:95-107 | A biome no template lists is listed by no entry after the expansion, because a copy only changes `base`. |
| SceneryCatalogue.ExpandAllFresh | client/src/scenery-controller.js:95-107 | With fresh copy keys, the expanded catalogue is well formed and holds the originals, followed in loop order by every copy. |
| SceneryCatalogue.FindBiome | client/src/scenery-controller.js:166-180 | Desert exactly when sat(y / 100) < 0.05. Otherwise forest exactly when moisture > 0.5, and arid when not. |
| SceneryCatalogue.DesertBelowFive | client/src/scenery-controller.js:171-174 | Desert is exactly the ground below height 5, whatever the moisture. |
| SceneryCatalogue.Density | client/src/scenery-controller.js:77-81 | Defines `_BIOMES`: desert 0.2, forest 1.0, arid 0.8, and no density for any other name; `RollGate` states the gate in its terms. |
| SceneryCatalogue.Skipped | client/src/scenery-controller.js:318-321 | Defines the roll gate `roll > _BIOMES[biome]`; `RollGate` proves which rolls skip each biome. |
| SceneryCatalogue.RollGate | client/src/scenery-controller.js:318-321 | Every biome that `FindBiome_` returns has a density, and a cell is skipped exactly when the roll exceeds it. A forest cell with a roll at most 1 is never skipped, and a desert cell is skipped exactly when the roll exceeds 0.2. The small grid repeats the test at lines 362-365. |
| SceneryCatalogue.MatchingMembers | client/src/scenery-controller.js:183-188 | A key is in the matching list exactly when it is a catalogue key whose entry lists the biome. `SpawnSmallAt_` repeats the loop at lines 229-234. |
| SceneryCatalogue.MatchingKeys | client/src/scenery-controller.js:183-188 | The matching list is never longer than the keys it filters; `MatchingMembers` and `MatchingAppend` state its members and order. |
| SceneryCatalogue.MatchingAppend | client/src/scenery-controller.js:184-187 | Filtering keeps key order: the matches of a concatenation are the concatenated matches. |
| SceneryCatalogue.MatchingHas | client/src/scenery-controller.js:183-188 | One matching entry makes the list non-empty. |
| SceneryCatalogue.MatchingNone | client/src/scenery-controller.js:229-234 | With no matching entry, the list is empty. |
| SceneryCatalogue.Matching | client/src/scenery-controller.js:183-188 | The loop over the catalogue's keys produces the matching list in key order. `SpawnSmallAt_` repeats the loop at lines 229-234. |
| SceneryCatalogue.Pick | client/src/scenery-controller.js:191-192 | A pick exists exactly when the rounded index falls inside the list. Otherwise the lookup reads `undefined`. `SpawnSmallAt_` repeats the pick at lines 236-237. |
| SceneryCatalogue.PickInRange | client/src/scenery-controller.js:191-192 | A roll in [0, 1] always picks an entry of a non-empty list. |
| SceneryLoading.Expand | client/src/scenery-controller.js:95-107 | The two nested loops compute `ExpandAll` over the multiples in key order. |
| SceneryLoading.ExpandTemplate | client/src/scenery-controller.js:96-99 | The inner loop computes `ExpandOne`. The small loop repeats it at lines 103-106. |
| SceneryLoading.CopyTemplate | client/src/scenery-controller.js:97-98 | Copy i is the template with `base` replaced, stored under `key + i`. |
| SceneryTables.SceneryTemplatesShape | client/src/scenery-controller.js:12-88 | `_SCENERY` as written lists each key once and holds every template `multiples` names. |
| SceneryTables.SceneryCopiesNew | client/src/scenery-controller.js:12-88 | No copy key of `multiples` is already in `_SCENERY`. |
| SceneryTables.SceneryCopiesDistinct | client/src/scenery-controller.js:83-88 | Copies of different multiples get different keys. |
| SceneryTables.SceneryFresh | client/src/scenery-controller.js:12-88 | All of the large catalogue's copy keys are new and different. |
| SceneryTables.SmallTemplatesShape | client/src/scenery-controller.js:53-93 | `_SCENERYSMALL` as written lists each key once and holds every template `multiplesSmall` names. |
| SceneryTables.SmallFresh | client/src/scenery-controller.js:53-93 | All of the small catalogue's copy keys are new and different. |
| SceneryTables.SceneryExpanded | client/src/scenery-controller.js:95-100 | `_SCENERY` once loaded: the four templates unchanged, followed by birch2–9, tree2–9, rock2–6 and rockMoss2–6, each its template with its own model file. |
| SceneryTables.SmallExpanded | client/src/scenery-controller.js:102-107 | `_SCENERYSMALL` once loaded: the three templates followed by plant2–4. `grass` has `num: 2`, so it gets no copies. |
| SceneryTables.LargeSceneryForEveryBiome | client/src/scenery-controller.js:12-51 | For every biome that `FindBiome_` returns, the loaded `_SCENERY` has a matching entry. |
| SceneryTables.SceneryBirchAndRock | client/src/scenery-controller.js:95-100 | In the loaded `_SCENERY`, `birch1` and `rock1` keep their places and entries. |
| SceneryTables.TemplateBirchAndRock | client/src/scenery-controller.js:13-42 | The entries of `birch1` and `rock1` as written. |
| SceneryTables.BirchAndRock | client/src/scenery-controller.js:183-188 | A catalogue holding `birch1` and `rock1` matches desert, forest and arid. |
| SceneryTables.NoSmallSceneryInDesert | client/src/scenery-controller.js:53-75 | No small entry, template or copy, lists `desert`, so the small matching list for desert is empty. |
| SceneryTables.SmallTemplatesNotDesert | client/src/scenery-controller.js:53-75 | None of `_SCENERYSMALL`'s own entries lists `desert`. |
| SceneryController.Quantise | client/src/scenery-controller.js:279-283 | The centre always has y = 0. |
| SceneryController.QuantiseNear | client/src/scenery-controller.js:281-283 | The centre, scaled by 50, is within half a cell (25) of the player on x and z. |
| SceneryController.QuantiseSameCell | client/src/scenery-controller.js:281-287 | Two positions in the same cell of 50 give the same centre, so the guard keeps the scene. |
| SceneryController.RoundInCell | client/src/scenery-controller.js:281-283 | Any x in [50i − 25, 50i + 25) rounds to cell i. |
| SceneryController.CellPoint | client/src/scenery-controller.js:297-299 | A cell's point always has y = 0; `LargeCellAt` and `SmallCellAt` place each grid cell. |
| SceneryController.Gated | client/src/scenery-controller.js:318-321 | Defines an empty cell that stays empty: the roll exceeds the biome's density, or small scenery with no matching entry (lines 362-370); `SmallDesertGated` and `VisitsCover` use it. |
| SceneryController.SpawnPos | client/src/scenery-controller.js:312-314 | A new prop stands at the terrain height of its moved point. The small grid repeats it at lines 356-358. |
| SceneryController.Visit | client/src/scenery-controller.js:302-335 | One cell adds at most one record at the end of the list and never unregisters an entity. A new prop is listed with the broken record that lines 330-334 build (`SpawnedRecordAsWritten`). The small grid repeats the body at lines 346-382. |
| SceneryController.LargeCells | client/src/scenery-controller.js:295-296 | The large grid has 15 × 15 = 225 cells. |
| SceneryController.SmallCells | client/src/scenery-controller.js:340-341 | The small grid has 21 × 16 = 336 cells. |
| SceneryController.LargeCellAt | client/src/scenery-controller.js:295-299 | Cell 15 (x + 7) + (y + 7) is the point at offset (x, y) from the centre. |
| SceneryController.SmallCellAt | client/src/scenery-controller.js:340-344 | Cell 16i + j is the point at offset (−3 + 0.3i, −3 + 0.4j) from the centre. |
| SceneryController.SmallStep | client/src/scenery-controller.js:340-341 | x takes 21 values and y takes 16 before passing 3. |
| SceneryController.Visits | client/src/scenery-controller.js:295-384 | Defines the scene after visiting cells in order; `VisitsListed` and `VisitsCover` state what the visits keep and add. |
| SceneryController.Survivors | client/src/scenery-controller.js:389-403 | The cull never lengthens the list. |
| SceneryController.Far | client/src/scenery-controller.js:393-394 | Defines `distanceTo(player) > 150`, compared squared; a broken record is never far. `SurvivorsMembers` and `HiddenFar` state the cull in its terms. |
| SceneryController.Hidden | client/src/scenery-controller.js:395-397 | Hiding registers and removes no entity. |
| SceneryController.CullStep | client/src/scenery-controller.js:391-401 | One pass either splices a far record out, with `i--` so the next one is not skipped, or steps past a near one. The list is then the survivors of k + 1 records followed by the rest. |
| SceneryController.SurvivorsMembers | client/src/scenery-controller.js:389-403 | A record survives exactly when it was listed and is not farther than 150. |
| SceneryController.SurvivorsAppend | client/src/scenery-controller.js:389-403 | The cull works record by record, so culling a concatenation culls each part. |
| SceneryController.SurvivorsIdempotent | client/src/scenery-controller.js:389-403 | A second cull from the same place removes nothing more. |
| SceneryController.HiddenFar | client/src/scenery-controller.js:394-397 | The entity of every far record is invisible after the cull. |
| SceneryController.HiddenOthers | client/src/scenery-controller.js:389-403 | An entity that no far record names keeps its flag and position. |
| SceneryController.HiddenPositions | client/src/scenery-controller.js:395-397 | The cull moves no entity. |
| SceneryController.SpawnedRecordAsWritten | client/src/scenery-controller.js:330-334 | The record listed for a new prop carries the prop's key and a broken position. |
| SceneryController.AsWrittenNeverCulled | client/src/scenery-controller.js:393-394 | As written, a new prop's record survives every cull, however far the player goes. |
| SceneryController.SpawnedNeverHidden | client/src/scenery-controller.js:330-334 | After a prop is spawned into an empty cell, a cull from any position keeps the new record, so the list only grows, and leaves the new prop as it was spawned: never hidden through its own record. |
| SceneryController.SpawnedRecord | client/src/scenery-controller.js:330-334 | The corrected record of a new prop holds its key and its spawn position. |
| SceneryController.CorrectedCulled | client/src/scenery-controller.js:393-399 | With the prop's real position, its record is culled once the player is more than 150 away, and the prop is hidden. |
| SceneryController.VisitsListed | client/src/scenery-controller.js:295-384 | Visiting cells keeps every record naming a registered entity, keeps the old records as a prefix, and unregisters nothing. |
| SceneryController.VisitsCover | client/src/scenery-controller.js:302-335 | After the visits, every cell that is not gated has an entity under its key. |
| SceneryController.VisitShows | client/src/scenery-controller.js:303-307 | A cell that already has an entity keeps it in place, shows it, and lists it again. |
| SceneryController.SmallDesertGated | client/src/scenery-controller.js:360-370 | An empty small cell in the desert stays empty whatever the roll. |
| SceneryController.Controller.constructor | client/src/scenery-controller.js:126-127 | No centre, no vegetation and no registered scenery at first. |
| SceneryController.Controller.VisitCell | client/src/scenery-controller.js:302-335 | One loop body changes the list and the entities exactly as `Visit` says, listing a new prop with the as-written broken record, and leaves the centre alone. The small grid repeats the body at lines 346-382. |
| SceneryController.Controller.SpawnVegetation | client/src/scenery-controller.js:273-385 | With no player, or a player still in the last cell, nothing changes. Otherwise the new centre is stored and the large grid, then the small grid, are visited around it, new props being listed with the as-written broken record. The records-name-entities invariant is kept. |
| SceneryController.Controller.SpawnLarge | client/src/scenery-controller.js:295-337 | The large loops visit all 225 cells in order. |
| SceneryController.Controller.LargeRow | client/src/scenery-controller.js:296-336 | One inner loop visits the 15 cells of its row. |
| SceneryController.Controller.LargeCell | client/src/scenery-controller.js:297-335 | One large body visits its cell. |
| SceneryController.Controller.SpawnSmall | client/src/scenery-controller.js:340-384 | The small loops visit all 336 cells in order. |
| SceneryController.Controller.SmallRow | client/src/scenery-controller.js:341-383 | One inner loop visits the 16 cells of its row. |
| SceneryController.Controller.SmallCell | client/src/scenery-controller.js:342-382 | One small body visits its cell. |
| SceneryController.Controller.DestroyVegetation | client/src/scenery-controller.js:389-403 | The list becomes the survivors in order, the far records' entities become invisible, nothing else changes, and the invariant is kept. |
| SceneryController.Controller.CullAt | client/src/scenery-controller.js:392-400 | One pass of the cull loop at the record's index, with the index step that `i--` and `++i` make. |

## Left out

- Number representation: buffers are sequences of exact reals. `Float32Array` rounding, floating-point error and NaN are not modelled, except for the NaN distance of the finding below, which the `Broken` position stands for.
- The height generator, the colour and splat generators (`texture-splatter.js`), the noise (`noise.mjs`), `math.sat`'s own source (`math.mjs`) and THREE.js's `normalize` are not part of this model. They are function parameters. `normalize` is arbitrary, so unit length of the normals is not claimed.
- Resolution: `ValidParams` requires a resolution of at least 1. At resolution 0 the vertex loop's `x / effectiveResolution` gives −Infinity, NaN and +Infinity, which `math.sat` turns into 0, NaN and 1, so the build runs on NaN coordinates without throwing. That behaviour is what `ValidParams` excludes, and the model says nothing about it.
- `Init`'s construction of the noise and generator objects from `noiseParams`, `biomesParams` and `colourNoiseParams` is replaced by passing the generators in.
- `postMessage` and the transfer list: the reply is a value (`TerrainBuilder.Reply`), and the buffers' ownership transfer is not modelled.
- Error messages: the text of a thrown error (`String(e?.message \|\| e)`) is replaced by the `BuildError` that names its cause.
- `TerrainSplat.TriangleSplatWeights`: the renormalised strengths are kept in a local table instead of being written back into the splatter's reply objects.
- Shared reply objects: the source scales the splatter's reply objects in place, so a splatter that hands out the same object twice would see strengths already scaled. The model's replies are values, so it does not capture that.
- `SceneryController.Visit` and `SceneryController.Controller.VisitCell` assume noise rolls in [0, 1], so `SpawnAt_`'s pick is always in range (`PickInRange`). Out of range, `randomProp` is `undefined` and reading its fields throws. That path is not modelled.
- Which entry a new prop is made from, its model, textures and material, its scale and rotation, `SpatialGridController`, rendering and `SetActive` are not modelled. A registered prop is its position and visibility flag.
- Entity naming: `entity.js` is not part of this model. A prop's name is taken to be the key it is registered under, and `SetPosition` is taken to copy the position.
- An entity found again is listed under its key with its own position.
- `Visible` flag: the model writes `Visible` for an entity shown again and `Invisible` for one hidden. A new entity's flag is `Unset`.
- Duplicate records: the list may hold several records for the same entity, as in the source.
- The small grid's float stepping (`x += 0.3`, `y += 0.4`) is exact real stepping. In doubles the loops also make 21 × 16 = 336 cells, but the rounding decides which small cells share a key with a large cell, and such a cell finds the large prop again instead of spawning small scenery. In exact arithmetic this happens for 12 cells, x ∈ {−3, 0, 3} and y ∈ {−3, −1, 1, 3}. In doubles, x after ten steps is about −3.3e-16 and y after five steps is −1.0000000000000004, so around the centre (0, 0) only (−3, −3) shares a key, while for centres far enough from the origin that adding the centre absorbs the error all 12 do. The model always has the 12.
- Distances are compared squared (d² > 22500 for d > 150).
- `SceneryController.Controller.DestroyVegetation` takes the player's position as a parameter. With no player, `FindEntity('player').Position` throws, and that is not modelled.
- `FindEntity(veg.Name)` is taken to find the entity. The class invariant `Valid` keeps every record naming a registered entity.
- Player and terrain lookups: `SpawnVegetation_`'s `FindEntity('player')` is the `player` option. The terrain's height and moisture and the string key of a cell are functions of the `World` parameter.
- `Update`, `InitEntity` and `SpawnClouds_` (random clouds, `Math.random`) are not modelled. `Update` only calls the two modelled methods in turn.
- `SceneryLoading.Expand` requires every template it copies to exist, as the tables do (`SceneryTemplatesShape`, `SmallTemplatesShape`). With a missing template, `{..._SCENERY[k]}` spreads `undefined` into an empty object, so the copy holds only `base` and loading goes on. The throw comes later, when the matching filter reads `biomes.indexOf` of that entry. That path is not modelled.

## Findings

| source | as written | input that shows it | evidently intended | confidence | as-written member | corrected member |
|---|---|---|---|---|---|---|
| client/src/scenery-controller.js:330 | `new THREE.Vector3(e.Position)` (again at line 377) puts the whole position vector into `x` and leaves `y` and `z` at 0, so every `distanceTo` from it is NaN and `dist > 150.0` is false | spawn any prop; move the player more than 150 away; call `DestroyVegation_`: the record is kept and its entity is never hidden through it, and every respawn into an empty cell lengthens `vegetation_` for good | the record's position is the prop's position (`e.Position.clone()`), so the record is culled once the player is more than 150 away | not executed | SceneryController.SpawnedRecordAsWritten, SceneryController.SpawnedNeverHidden | SceneryController.SpawnedRecord, SceneryController.CorrectedCulled |

The controller (`SceneryController.Visit`, `SceneryController.Controller.VisitCell`) lists new props with the record as written. The corrected record (`SpawnedRecord`) and its cull (`CorrectedCulled`) stand beside it.

/**
 * The chunk builder worker as a whole: `Init` keeps the build parameters,
 * `Rebuild` runs the pipeline (vertices, indices, normals, skirt fix,
 * normalisation, splat weights, un-indexing) and answers with the seven
 * triangle-list buffers, and the message handler turns a thrown error into an
 * `error` reply.
 *
 * The pipeline's outcome is specified once, by `ChunkOf`, in terms of the
 * grid of `TerrainGrid`: every later stage is a function of that grid and
 * of the index buffer.
 */
module TerrainBuilder {
  import opened Numerics
  import opened Vectors
  import opened TerrainParams
  import opened TerrainGrid
  import opened TerrainNormals
  import opened TerrainSkirt
  import opened TerrainSplat
  import opened TerrainSplatStage
  import opened TerrainUnindex

  // ------------------------------------------------------------ specification

  /** The grid buffers fit the index buffer: sizes, and every index names a grid vertex. */
  lemma GridMesh(p: BuildParams, g: Generators)
    requires ValidParams(p)
    ensures var b := Buffers(Grid(p, g));
      |b.positions| == 3 * VertexCount(p) && |b.colours| == 3 * VertexCount(p) &&
      |b.up| == 3 * VertexCount(p) && |b.coords| == 3 * VertexCount(p) &&
      |b.ws| == 3 * VertexCount(p) && |b.uvs| == 2 * VertexCount(p)
    ensures (3 * VertexCount(p)) / 3 == VertexCount(p) && (3 * VertexCount(p)) % 3 == 0
    ensures (2 * VertexCount(p)) / 2 == VertexCount(p) && (2 * VertexCount(p)) % 2 == 0
    ensures |IndexBuffer(p)| == 3 * TriangleCount(p) && |IndexBuffer(p)| / 3 == TriangleCount(p)
    ensures IndicesFor(IndexBuffer(p), VertexCount(p))
    ensures Mesh(Buffers(Grid(p, g)).positions, IndexBuffer(p))
  {
    IndicesInRange(p);
    var n := VertexCount(p);
    assert (3 * n) / 3 == n && (3 * n) % 3 == 0;
    assert (2 * n) / 2 == n && (2 * n) % 2 == 0;
  }

  /**
   * The final position of grid slot `v`: its displaced position, lowered by
   * the skirt depth once for each edge of the padding ring it lies on.
   */
  function SkirtedPosition(p: BuildParams, g: Generators, v: int): Vec3
    requires ValidParams(p) && 0 <= v < VertexCount(p)
  {
    var s := Stride(p);
    Sink(Grid(p, g)[v].position, RingEdges(s, v / s, v % s))
  }

  /**
   * The final normal of grid slot `v`: the normalised accumulated face
   * normals of the slot one step inside the ring along each axis on which
   * `v` lies on the ring (the slot itself inside the ring).
   */
  function VertexNormal(p: BuildParams, g: Generators, v: int): Vec3
    requires ValidParams(p) && 0 <= v < VertexCount(p)
  {
    GridIsMesh(p, g);
    g.normalize(NormalSum(Buffers(Grid(p, g)).positions, IndexBuffer(p), TriangleCount(p), SourceSlot(Stride(p), v)))
  }

  /** The slot whose accumulator slot `v` takes: one step inside the ring along each axis `v` lies on it. */
  function SourceSlot(s: int, v: int): (u: int)
    requires s >= 3 && 0 <= v < s * s
    ensures 0 <= u < s * s
  {
    RowBound(v, s);
    Slot(s, Inward(s, v / s), Inward(s, v % s))
  }

  /** The part of `GridMesh` that `NormalSum` over the grid needs. */
  lemma GridIsMesh(p: BuildParams, g: Generators)
    requires ValidParams(p)
    ensures Mesh(Buffers(Grid(p, g)).positions, IndexBuffer(p)) && |IndexBuffer(p)| / 3 == TriangleCount(p)
  {
    GridMesh(p, g);
  }

  /** The `positions` buffer after the skirt fix. */
  function SkirtedPositions(p: BuildParams, g: Generators): (r: seq<real>)
    requires ValidParams(p)
    ensures |r| == 3 * VertexCount(p)
  {
    Flatten3(seq(VertexCount(p), v requires 0 <= v < VertexCount(p) => SkirtedPosition(p, g, v)))
  }

  /** The `normals` buffer after the normalisation loop. */
  function FinalNormals(p: BuildParams, g: Generators): (r: seq<real>)
    requires ValidParams(p)
    ensures |r| == 3 * VertexCount(p)
  {
    Flatten3(seq(VertexCount(p), v requires 0 <= v < VertexCount(p) => VertexNormal(p, g, v)))
  }

  /** What the splat loop makes of each triangle: its corners' world-space points, final normals and up vectors. */
  function SplatResults(p: BuildParams, g: Generators): (r: seq<Result<Weights>>)
    requires ValidParams(p)
    ensures |r| == TriangleCount(p)
  {
    GridMesh(p, g);
    var b := Buffers(Grid(p, g));
    TriangleResults(b.ws, FinalNormals(p, g), b.up, g.splat, IndexBuffer(p))
  }

  /** The `data` of a `build_chunk_result` message, before the `Float32Array` conversion. */
  datatype ChunkMesh = ChunkMesh(
    positions: seq<real>,
    colours: seq<real>,
    uvs: seq<real>,
    normals: seq<real>,
    coords: seq<real>,
    weights1: seq<int>,
    weights2: seq<real>)

  /**
   * The outcome of `Rebuild` for parameters `p` and generators `g`: the
   * first triangle whose splat lookup fails fails the build; otherwise every
   * per-vertex buffer is un-indexed into a triangle list and the weight
   * buffers are passed through.
   */
  function ChunkOf(p: BuildParams, g: Generators): Result<ChunkMesh>
    requires ValidParams(p)
  {
    GridMesh(p, g);
    var b := Buffers(Grid(p, g));
    var ib := IndexBuffer(p);
    match Concat(SplatResults(p, g), TriangleCount(p))
    case Failure(e) => Failure(e)
    case Success(w) =>
      Success(ChunkMesh(
        Unindexed(SkirtedPositions(p, g), 3, ib, |ib|),
        Unindexed(b.colours, 3, ib, |ib|),
        Unindexed(b.uvs, 2, ib, |ib|),
        Unindexed(FinalNormals(p, g), 3, ib, |ib|),
        Unindexed(b.coords, 3, ib, |ib|),
        w.layers,
        w.weights))
  }

  // ------------------------------------------------------------ pipeline

  /** The skirt fix's positions, read per grid slot, are `SkirtedPositions`. */
  lemma SkirtedBuffer(p: BuildParams, g: Generators, positions: seq<real>)
    requires ValidParams(p) && |positions| == 3 * VertexCount(p)
    requires |Buffers(Grid(p, g)).positions| == 3 * VertexCount(p)
    requires forall r, c :: 0 <= r < Stride(p) && 0 <= c < Stride(p) ==>
      At3(positions, Slot(Stride(p), r, c)) ==
      Sink(At3(Buffers(Grid(p, g)).positions, Slot(Stride(p), r, c)), RingEdges(Stride(p), r, c))
    ensures positions == SkirtedPositions(p, g)
  {
    var vs := seq(VertexCount(p), v requires 0 <= v < VertexCount(p) => SkirtedPosition(p, g, v));
    forall v | 0 <= v < VertexCount(p) ensures At3(positions, v) == vs[v] {
      SkirtedAt(p, g, positions, v);
    }
    Flatten3OfAt3(positions, vs);
  }

  /** `SkirtedBuffer` at one grid slot. */
  lemma SkirtedAt(p: BuildParams, g: Generators, positions: seq<real>, v: int)
    requires ValidParams(p) && |positions| == 3 * VertexCount(p) && 0 <= v < VertexCount(p)
    requires |Buffers(Grid(p, g)).positions| == 3 * VertexCount(p)
    requires forall r, c :: 0 <= r < Stride(p) && 0 <= c < Stride(p) ==>
      At3(positions, Slot(Stride(p), r, c)) ==
      Sink(At3(Buffers(Grid(p, g)).positions, Slot(Stride(p), r, c)), RingEdges(Stride(p), r, c))
    ensures At3(positions, v) == SkirtedPosition(p, g, v)
  {
    var s := Stride(p);
    var grid := Grid(p, g);
    Decompose(v, s);
    RowBound(v, s);
    assert Slot(s, v / s, v % s) == v;
    At3Flatten3(seq(|grid|, u requires 0 <= u < |grid| => grid[u].position), v);
  }

  /**
   * The accumulated normals, copied inward by the skirt fix and normalised,
   * are `FinalNormals`.
   */
  lemma NormalBuffer(p: BuildParams, g: Generators, accum: seq<real>, skirted: seq<real>, normals: seq<real>)
    requires ValidParams(p)
    requires Mesh(Buffers(Grid(p, g)).positions, IndexBuffer(p)) && |IndexBuffer(p)| / 3 == TriangleCount(p)
    requires |accum| == 3 * VertexCount(p) && |skirted| == 3 * VertexCount(p) && |normals| == 3 * VertexCount(p)
    requires forall v :: 0 <= v < VertexCount(p) ==>
      At3(accum, v) == NormalSum(Buffers(Grid(p, g)).positions, IndexBuffer(p), TriangleCount(p), v)
    requires forall r, c :: 0 <= r < Stride(p) && 0 <= c < Stride(p) ==>
      At3(skirted, Slot(Stride(p), r, c)) == At3(accum, Slot(Stride(p), Inward(Stride(p), r), Inward(Stride(p), c)))
    requires forall v :: 0 <= v < VertexCount(p) ==> At3(normals, v) == g.normalize(At3(skirted, v))
    ensures normals == FinalNormals(p, g)
  {
    var vs := seq(VertexCount(p), v requires 0 <= v < VertexCount(p) => VertexNormal(p, g, v));
    forall v | 0 <= v < VertexCount(p) ensures At3(normals, v) == vs[v] {
      NormalAt(p, g, accum, skirted, normals, v);
    }
    Flatten3OfAt3(normals, vs);
  }

  /** `NormalBuffer` at one grid slot. */
  lemma NormalAt(p: BuildParams, g: Generators, accum: seq<real>, skirted: seq<real>, normals: seq<real>, v: int)
    requires ValidParams(p) && 0 <= v < VertexCount(p)
    requires Mesh(Buffers(Grid(p, g)).positions, IndexBuffer(p)) && |IndexBuffer(p)| / 3 == TriangleCount(p)
    requires |accum| == 3 * VertexCount(p) && |skirted| == 3 * VertexCount(p) && |normals| == 3 * VertexCount(p)
    requires forall v :: 0 <= v < VertexCount(p) ==>
      At3(accum, v) == NormalSum(Buffers(Grid(p, g)).positions, IndexBuffer(p), TriangleCount(p), v)
    requires forall r, c :: 0 <= r < Stride(p) && 0 <= c < Stride(p) ==>
      At3(skirted, Slot(Stride(p), r, c)) == At3(accum, Slot(Stride(p), Inward(Stride(p), r), Inward(Stride(p), c)))
    requires forall v :: 0 <= v < VertexCount(p) ==> At3(normals, v) == g.normalize(At3(skirted, v))
    ensures At3(normals, v) == VertexNormal(p, g, v)
  {
    var s := Stride(p);
    Decompose(v, s);
    RowBound(v, s);
    assert Slot(s, v / s, v % s) == v;
    assert At3(skirted, v) == At3(accum, SourceSlot(s, v));
  }

  /**
   * `Rebuild` up to the splat loop: the vertex and index loops, the normal
   * accumulation, the skirt fix over the `resolution + 1`-wide rows, and the
   * normalisation loop.
   */
  method BuildAttributes(p: BuildParams, g: Generators)
    returns (positions: seq<real>, colours: seq<real>, up: seq<real>, coords: seq<real>,
             ws: seq<real>, uvs: seq<real>, normals: seq<real>, indices: seq<int>)
    requires ValidParams(p)
    ensures positions == SkirtedPositions(p, g) && normals == FinalNormals(p, g)
    ensures var b := Buffers(Grid(p, g));
      colours == b.colours && up == b.up && coords == b.coords && ws == b.ws && uvs == b.uvs
    ensures indices == IndexBuffer(p)
  {
    var raw;
    raw, colours, up, coords, ws, uvs := BuildVertices(p, g);
    indices := BuildIndices(p);
    GridMesh(p, g);
    var accum := AccumulateNormals(raw, indices);
    var skirted;
    positions, skirted := SkirtFix(raw, accum, p.resolution + 3);
    normals := NormalizeNormals(skirted, g.normalize);
    SkirtedBuffer(p, g, positions);
    NormalBuffer(p, g, accum, skirted, normals);
  }

  /** `Rebuild` with its parameters in hand: the pipeline, then the un-indexing. */
  method BuildChunk(p: BuildParams, g: Generators) returns (r: Result<ChunkMesh>)
    requires ValidParams(p)
    ensures r == ChunkOf(p, g)
  {
    var positions, colours, up, coords, ws, uvs, normals, indices := BuildAttributes(p, g);
    GridMesh(p, g);
    var w := BuildSplatWeights(ws, normals, up, g.splat, indices);
    if w.Failure? {
      return Failure(w.error);
    }
    var uiPositions := Unindex(positions, 3, indices);
    var uiColours := Unindex(colours, 3, indices);
    var uiNormals := Unindex(normals, 3, indices);
    var uiCoords := Unindex(coords, 3, indices);
    var uiUVs := Unindex(uvs, 2, indices);
    r := Success(ChunkMesh(uiPositions, uiColours, uiUVs, uiNormals, uiCoords, w.value.layers, w.value.weights));
  }

  // ------------------------------------------------------------ the worker

  /** `msg.data.params` as `Init` uses it; the generators stand for the noise and splatter objects it builds. */
  datatype InitParams = InitParams(offset: (real, real, real), width: real, resolution: int,
                                   generators: Generators)

  /** `this._params` after `Init`: `offset` becomes a vector. */
  function ParamsOf(m: InitParams): BuildParams {
    BuildParams(Vec3(m.offset.0, m.offset.1, m.offset.2), m.width, m.resolution)
  }

  /** `_TerrainBuilderThreadedWorker`: `config` is `this._params`, absent before the first `Init`. */
  class Worker {
    var config: Option<(BuildParams, Generators)>

    constructor()
      ensures config == None
    {
      config := None;
    }

    /** `Init(params)`: replace the parameters and the generators. */
    method Init(m: InitParams)
      modifies this
      ensures config == Some((ParamsOf(m), m.generators))
    {
      config := Some((ParamsOf(m), m.generators));
    }

    /**
     * `Rebuild()`: before any `Init` reading `this._params.resolution`
     * throws; afterwards the build is `ChunkOf` of the kept parameters.
     */
    method Rebuild() returns (r: Result<ChunkMesh>)
      requires config.Some? ==> ValidParams(config.value.0)
      ensures config.None? ==> r == Failure(NotInitialised)
      ensures config.Some? ==> r == ChunkOf(config.value.0, config.value.1)
    {
      if config.None? {
        return Failure(NotInitialised);
      }
      r := BuildChunk(config.value.0, config.value.1);
    }
  }

  /** A message to the worker: `subject` and `params`. */
  datatype Message = Message(subject: string, params: InitParams)

  /** What the worker posts back: `build_chunk_result` with the buffers, or `error`. */
  datatype Reply = ChunkReply(mesh: ChunkMesh) | ErrorReply(error: BuildError)

  function Subject(r: Reply): string {
    match r
    case ChunkReply(_) => "build_chunk_result"
    case ErrorReply(_) => "error"
  }

  /** The reply to one message: none unless it asks for a chunk. */
  function Handle(m: Message): Option<Reply>
    requires m.subject == "build_chunk" ==> m.params.resolution >= 1
  {
    if m.subject != "build_chunk" then None
    else
      match ChunkOf(ParamsOf(m.params), m.params.generators)
      case Success(mesh) => Some(ChunkReply(mesh))
      case Failure(e) => Some(ErrorReply(e))
  }

  /**
   * `self.onmessage`: a `build_chunk` message re-initialises the worker and
   * rebuilds; whatever `Rebuild` throws becomes an `error` reply. Other
   * messages are ignored.
   */
  method OnMessage(worker: Worker, m: Message) returns (reply: Option<Reply>)
    requires m.subject == "build_chunk" ==> m.params.resolution >= 1
    modifies worker
    ensures reply == Handle(m)
    ensures m.subject != "build_chunk" ==> worker.config == old(worker.config)
    ensures m.subject == "build_chunk" ==> worker.config == Some((ParamsOf(m.params), m.params.generators))
  {
    if m.subject != "build_chunk" {
      return None;
    }
    worker.Init(m.params);
    var r := worker.Rebuild();
    match r
    case Success(mesh) =>
      reply := Some(ChunkReply(mesh));
    case Failure(e) =>
      reply := Some(ErrorReply(e));
  }

  // ------------------------------------------------------------ properties

  /**
   * A build succeeds exactly when every triangle's splat lookup does; its
   * buffers then hold three vertices per triangle (nine numbers per
   * triangle for the stride-3 buffers, six for the UVs) and twelve weight
   * entries per triangle.
   */
  lemma ChunkLayout(p: BuildParams, g: Generators)
    requires ValidParams(p)
    ensures ChunkOf(p, g).Success? <==> AllSucceed(SplatResults(p, g), TriangleCount(p))
    ensures ChunkOf(p, g).Success? ==>
      var mesh, t := ChunkOf(p, g).value, TriangleCount(p);
      |mesh.positions| == 9 * t && |mesh.colours| == 9 * t && |mesh.normals| == 9 * t &&
      |mesh.coords| == 9 * t && |mesh.uvs| == 6 * t &&
      |mesh.weights1| == 12 * t && |mesh.weights2| == 12 * t
  {
    GridMesh(p, g);
    var b := Buffers(Grid(p, g));
    var ib := IndexBuffer(p);
    SplatWeightsOutcome(b.ws, FinalNormals(p, g), b.up, g.splat, ib);
    UnindexedLength(SkirtedPositions(p, g), 3, ib, |ib|);
    UnindexedLength(b.colours, 3, ib, |ib|);
    UnindexedLength(b.uvs, 2, ib, |ib|);
    UnindexedLength(FinalNormals(p, g), 3, ib, |ib|);
    UnindexedLength(b.coords, 3, ib, |ib|);
  }

  /**
   * A failed build fails with the error of the first triangle whose splat
   * lookup fails, which is a missing layer key or too few layers, never the
   * uninitialised-worker error.
   */
  lemma ChunkFailure(p: BuildParams, g: Generators, t: int)
    requires ValidParams(p) && 0 <= t < TriangleCount(p)
    requires SplatResults(p, g)[t].Failure? && AllSucceed(SplatResults(p, g), t)
    ensures ChunkOf(p, g) == Failure(SplatResults(p, g)[t].error)
    ensures ChunkOf(p, g).error != NotInitialised
  {
    GridMesh(p, g);
    var b := Buffers(Grid(p, g));
    var ib := IndexBuffer(p);
    ConcatOutcome(SplatResults(p, g), TriangleCount(p));
    TriangleFailure(TriangleReplies(b.ws, FinalNormals(p, g), b.up, g.splat, ib, t));
  }

  /**
   * Vertex `k` of a built chunk's triangle lists is grid vertex `m`, the
   * `k`-th entry of the index buffer, in every buffer: its skirted position,
   * colour, final normal, coordinate and UV; and triangle `u`'s twelve weight
   * entries are its corners' splat layers and weights.
   */
  lemma ChunkVertex(p: BuildParams, g: Generators, k: int)
    requires ValidParams(p) && ChunkOf(p, g).Success? && 0 <= k < 3 * TriangleCount(p)
    ensures 0 <= IndexBuffer(p)[k] < VertexCount(p)
    ensures var mesh, m := ChunkOf(p, g).value, IndexBuffer(p)[k];
      3 * k + 2 < |mesh.positions| && 3 * k + 2 < |mesh.colours| && 3 * k + 2 < |mesh.normals| &&
      3 * k + 2 < |mesh.coords| && 2 * k + 1 < |mesh.uvs| &&
      At3(mesh.positions, k) == SkirtedPosition(p, g, m) &&
      At3(mesh.colours, k) == Grid(p, g)[m].colour &&
      At3(mesh.normals, k) == VertexNormal(p, g, m) &&
      At3(mesh.coords, k) == Grid(p, g)[m].coord &&
      At2(mesh.uvs, k) == Grid(p, g)[m].uv
  {
    GridMesh(p, g);
    var grid := Grid(p, g);
    var ib := IndexBuffer(p);
    UnindexedVector(seq(VertexCount(p), v requires 0 <= v < VertexCount(p) => SkirtedPosition(p, g, v)), ib, k);
    UnindexedVector(seq(VertexCount(p), v requires 0 <= v < VertexCount(p) => VertexNormal(p, g, v)), ib, k);
    UnindexedVector(seq(|grid|, v requires 0 <= v < |grid| => grid[v].colour), ib, k);
    UnindexedVector(seq(|grid|, v requires 0 <= v < |grid| => grid[v].coord), ib, k);
    UnindexedPair(seq(|grid|, v requires 0 <= v < |grid| => grid[v].uv), ib, k);
  }


  /** Triangle `u`'s twelve entries of `weights1` and `weights2` are the ones its own splat lookup gives. */
  lemma ChunkWeights(p: BuildParams, g: Generators, u: int)
    requires ValidParams(p) && ChunkOf(p, g).Success? && 0 <= u < TriangleCount(p)
    ensures SplatResults(p, g)[u].Success?
    ensures var mesh := ChunkOf(p, g).value;
      12 * u + 12 <= |mesh.weights1| && 12 * u + 12 <= |mesh.weights2| &&
      mesh.weights1[12 * u..12 * u + 12] == SplatResults(p, g)[u].value.layers &&
      mesh.weights2[12 * u..12 * u + 12] == SplatResults(p, g)[u].value.weights
  {
    GridMesh(p, g);
    var b := Buffers(Grid(p, g));
    SplatWeightsOutcome(b.ws, FinalNormals(p, g), b.up, g.splat, IndexBuffer(p));
  }

  /** A grid coordinate lies on the padding ring. */
  predicate OnRing(p: BuildParams, i: int) {
    i < 0 || i > p.resolution
  }

  /**
   * The skirt: a ring vertex ends at the horizontal place of its nearest
   * tile vertex (the ring repeats the tile's edge), lowered by the skirt
   * depth once per axis on which it lies on the ring, so 10 below on a side
   * and 20 below at a corner; tile vertices are not lowered.
   */
  lemma SkirtDrop(p: BuildParams, g: Generators, x: int, y: int)
    requires ValidParams(p) && InGrid(p, x, y)
    ensures 0 <= GridIndex(p, x, y) < VertexCount(p)
    ensures 0 <= GridIndex(p, ClampToTile(p, x), ClampToTile(p, y)) < VertexCount(p)
    ensures var edge := VertexAt(p, g, ClampToTile(p, x), ClampToTile(p, y)).position;
      SkirtedPosition(p, g, GridIndex(p, x, y)) ==
      Vec3(edge.x, edge.y - SkirtDepth * ((if OnRing(p, x) then 1.0 else 0.0) + (if OnRing(p, y) then 1.0 else 0.0)), edge.z)
    ensures SkirtedPosition(p, g, GridIndex(p, ClampToTile(p, x), ClampToTile(p, y))) ==
      VertexAt(p, g, ClampToTile(p, x), ClampToTile(p, y)).position
  {
    var s := Stride(p);
    var cx, cy := ClampToTile(p, x), ClampToTile(p, y);
    GridAt(p, g, x, y);
    GridAt(p, g, cx, cy);
    DivModOf(x + 1, y + 1, s);
    DivModOf(cx + 1, cy + 1, s);
    RingCoincidesWithEdge(p, g, x, y);
  }

  /**
   * A ring vertex's final normal is that of its nearest tile vertex, whose
   * own normal comes from its own accumulator.
   */
  lemma RingNormal(p: BuildParams, g: Generators, x: int, y: int)
    requires ValidParams(p) && InGrid(p, x, y)
    ensures 0 <= GridIndex(p, x, y) < VertexCount(p)
    ensures 0 <= GridIndex(p, ClampToTile(p, x), ClampToTile(p, y)) < VertexCount(p)
    ensures VertexNormal(p, g, GridIndex(p, x, y)) ==
      VertexNormal(p, g, GridIndex(p, ClampToTile(p, x), ClampToTile(p, y)))
    ensures Mesh(Buffers(Grid(p, g)).positions, IndexBuffer(p)) && |IndexBuffer(p)| / 3 == TriangleCount(p)
    ensures VertexNormal(p, g, GridIndex(p, ClampToTile(p, x), ClampToTile(p, y))) ==
      g.normalize(NormalSum(Buffers(Grid(p, g)).positions, IndexBuffer(p), TriangleCount(p),
                            GridIndex(p, ClampToTile(p, x), ClampToTile(p, y))))
  {
    var s := Stride(p);
    var cx, cy := ClampToTile(p, x), ClampToTile(p, y);
    var v, w := GridIndex(p, x, y), GridIndex(p, cx, cy);
    GridAt(p, g, x, y);
    GridAt(p, g, cx, cy);
    GridMesh(p, g);
    DivModOf(x + 1, y + 1, s);
    DivModOf(cx + 1, cy + 1, s);
    InwardIsClamp(p, x);
    InwardIsClamp(p, y);
    assert SourceSlot(s, v) == w;
    assert SourceSlot(s, w) == w;
  }

  /** Stepping inward from the ring is clamping to the tile, in slot terms. */
  lemma InwardIsClamp(p: BuildParams, i: int)
    requires ValidParams(p) && -1 <= i <= p.resolution + 1
    ensures Inward(Stride(p), i + 1) == ClampToTile(p, i) + 1
    ensures Inward(Stride(p), ClampToTile(p, i) + 1) == ClampToTile(p, i) + 1
  {
  }


  // ------------------------------------------------------------ flat ground

  /** Every height the generator gives is `h`. */
  ghost predicate FlatGround(g: Generators, h: real) {
    forall a, b, c :: g.height(a, b, c) == h
  }

  /** On flat ground a grid vertex sits at its world point raised by `h`. */
  lemma FlatPosition(p: BuildParams, g: Generators, h: real, x: int, y: int)
    requires ValidParams(p) && FlatGround(g, h) && InGrid(p, x, y)
    ensures |Buffers(Grid(p, g)).positions| == 3 * VertexCount(p)
    ensures 0 <= GridIndex(p, x, y) < VertexCount(p)
    ensures At3(Buffers(Grid(p, g)).positions, GridIndex(p, x, y)) == Vec3(GridX(p, x), p.offset.y + h, GridZ(p, y))
  {
    var grid := Grid(p, g);
    GridAt(p, g, x, y);
    At3Flatten3(seq(|grid|, v requires 0 <= v < |grid| => grid[v].position), GridIndex(p, x, y));
    assert g.height(WorldPoint(p, x, y).x, WorldPoint(p, x, y).y, WorldPoint(p, x, y).z) == h;
  }

  /** Grid lines do not go backwards when the width is not negative. */
  lemma CoordMonotone(p: BuildParams, i: int)
    requires ValidParams(p) && p.width >= 0.0
    ensures Coord(p, i - 1) <= Coord(p, i)
  {
    var r := p.resolution as real;
    var lo, hi := (i - 1) as real / r, i as real / r;
    assert hi - lo == 1.0 / r;
    assert lo <= hi;
    var a, b := Sat(lo), Sat(hi);
    assert a <= b;
    MulMonoReal(p.width, a, b);
  }

  /**
   * A level triangle at height `y` spanning [x0, x1] by [z0, z1], wound as
   * the index loop winds the first (`first`) or second triangle of a cell:
   * its face normal is vertical and points down.
   */
  lemma LevelTriangle(positions: seq<real>, indices: seq<int>, t: int,
                      x0: real, x1: real, z0: real, z1: real, y: real, first: bool)
    requires Mesh(positions, indices) && 0 <= t < |indices| / 3
    requires x0 <= x1 && z0 <= z1
    requires first ==>
      At3(positions, indices[3 * t]) == Vec3(x0, y, z0) &&
      At3(positions, indices[3 * t + 1]) == Vec3(x1, y, z1) &&
      At3(positions, indices[3 * t + 2]) == Vec3(x0, y, z1)
    requires !first ==>
      At3(positions, indices[3 * t]) == Vec3(x1, y, z0) &&
      At3(positions, indices[3 * t + 1]) == Vec3(x1, y, z1) &&
      At3(positions, indices[3 * t + 2]) == Vec3(x0, y, z0)
    ensures FaceNormal(positions, indices, t) == Vec3(0.0, -((x1 - x0) * (z1 - z0)), 0.0)
    ensures Downward(FaceNormal(positions, indices, t))
  {
    NonNegMul(x1 - x0, z1 - z0);
    assert (x0 - x1) * (z0 - z1) == (x1 - x0) * (z1 - z0);
  }

  /** The world x of grid line `i` and the world z of grid line `j`. */
  function GridX(p: BuildParams, i: int): real
    requires ValidParams(p)
  {
    Coord(p, i) - p.width / 2.0 + p.offset.x
  }

  function GridZ(p: BuildParams, j: int): real
    requires ValidParams(p)
  {
    Coord(p, j) - p.width / 2.0 + p.offset.z
  }

  /** A position buffer in which every grid vertex sits at its world point, `h` above the offset. */
  ghost predicate LevelGrid(p: BuildParams, positions: seq<real>, h: real)
    requires ValidParams(p)
  {
    |positions| == 3 * VertexCount(p) &&
    forall x, y :: InGrid(p, x, y) ==>
      0 <= GridIndex(p, x, y) < VertexCount(p) &&
      At3(positions, GridIndex(p, x, y)) == Vec3(GridX(p, x), p.offset.y + h, GridZ(p, y))
  }

  /** On flat ground the grid's positions are level. */
  lemma FlatGrid(p: BuildParams, g: Generators, h: real)
    requires ValidParams(p) && FlatGround(g, h)
    ensures LevelGrid(p, Buffers(Grid(p, g)).positions, h)
  {
    forall x, y | InGrid(p, x, y)
      ensures 0 <= GridIndex(p, x, y) < VertexCount(p)
      ensures At3(Buffers(Grid(p, g)).positions, GridIndex(p, x, y)) == Vec3(GridX(p, x), p.offset.y + h, GridZ(p, y))
    {
      FlatPosition(p, g, h, x, y);
    }
  }

  /**
   * Over a level grid every triangle's face normal is vertical and points
   * down (-y): the index loop's winding, read through
   * (N3 - N2) x (N1 - N2), turns every triangle's normal away from `Up`.
   */
  lemma LevelFace(p: BuildParams, positions: seq<real>, h: real, t: int)
    requires ValidParams(p) && p.width >= 0.0 && LevelGrid(p, positions, h)
    requires Mesh(positions, IndexBuffer(p)) && 0 <= t < TriangleCount(p)
    ensures Downward(FaceNormal(positions, IndexBuffer(p), t))
  {
    var i, j, first := TriangleCell(p, t);
    CoordMonotone(p, i);
    CoordMonotone(p, j);
    LevelTriangle(positions, IndexBuffer(p), t, GridX(p, i - 1), GridX(p, i), GridZ(p, j - 1), GridZ(p, j),
                  p.offset.y + h, first);
  }

  /**
   * On flat ground every accumulated vertex normal is vertical and points
   * down, so the final normals point along -y, not along `Up`.
   */
  lemma FlatNormals(p: BuildParams, g: Generators, h: real, v: int)
    requires ValidParams(p) && FlatGround(g, h) && p.width >= 0.0
    ensures Mesh(Buffers(Grid(p, g)).positions, IndexBuffer(p)) && |IndexBuffer(p)| / 3 == TriangleCount(p)
    ensures Downward(NormalSum(Buffers(Grid(p, g)).positions, IndexBuffer(p), TriangleCount(p), v))
  {
    GridMesh(p, g);
    var positions, indices := Buffers(Grid(p, g)).positions, IndexBuffer(p);
    FlatFaces(p, g, h);
    DownwardSum(indices, Faces(positions, indices), |indices| / 3, v);
    SumOfFaces(positions, indices, |indices| / 3, v);
  }

  /** On flat ground every face normal points down. */
  lemma FlatFaces(p: BuildParams, g: Generators, h: real)
    requires ValidParams(p) && FlatGround(g, h) && p.width >= 0.0
    ensures Mesh(Buffers(Grid(p, g)).positions, IndexBuffer(p))
    ensures forall u :: 0 <= u < |IndexBuffer(p)| / 3 ==>
      Downward(Faces(Buffers(Grid(p, g)).positions, IndexBuffer(p))[u])
  {
    GridMesh(p, g);
    var positions, indices := Buffers(Grid(p, g)).positions, IndexBuffer(p);
    FlatGrid(p, g, h);
    forall u | 0 <= u < |indices| / 3
      ensures Downward(Faces(positions, indices)[u])
    {
      LevelFace(p, positions, h, u);
    }
  }

  /** Every triangle's face normal, in triangle order. */
  function Faces(positions: seq<real>, indices: seq<int>): (r: seq<Vec3>)
    requires Mesh(positions, indices)
    ensures |r| == |indices| / 3
  {
    seq(|indices| / 3, u requires 0 <= u < |indices| / 3 => FaceNormal(positions, indices, u))
  }

  /** The accumulator of vertex `v` after the first `t` of the face normals `faces`. */
  function ShareSum(indices: seq<int>, faces: seq<Vec3>, t: int, v: int): Vec3
    requires 0 <= t <= |faces| && 3 * |faces| <= |indices|
  {
    if t == 0 then Zero
    else Add(ShareSum(indices, faces, t - 1, v), CornerShare(indices, t - 1, v, faces[t - 1]))
  }

  /** The normal accumulators are the shares of the face normals. */
  lemma {:induction false} SumOfFaces(positions: seq<real>, indices: seq<int>, t: int, v: int)
    requires Mesh(positions, indices) && 0 <= t <= |indices| / 3
    ensures NormalSum(positions, indices, t, v) == ShareSum(indices, Faces(positions, indices), t, v)
  {
    if t > 0 {
      var u := t - 1;
      SumOfFaces(positions, indices, u, v);
      ShareSumStep(indices, Faces(positions, indices), u, v);
      assert NormalSum(positions, indices, u + 1, v) ==
        Add(NormalSum(positions, indices, u, v), CornerShare(indices, u, v, FaceNormal(positions, indices, u)));
    }
  }

  /** A vertical vector pointing down, or zero. */
  predicate Downward(n: Vec3) {
    n.x == 0.0 && n.z == 0.0 && n.y <= 0.0
  }

  /** Summing downward face normals gives a downward accumulator. */
  lemma {:induction false} DownwardSum(indices: seq<int>, faces: seq<Vec3>, t: int, v: int)
    requires 0 <= t <= |faces| && 3 * |faces| <= |indices|
    requires forall u :: 0 <= u < |faces| ==> Downward(faces[u])
    ensures Downward(ShareSum(indices, faces, t, v))
  {
    if t > 0 {
      var u := t - 1;
      DownwardSum(indices, faces, u, v);
      DownwardStep(indices, faces, u, v);
    }
  }

  lemma DownwardStep(indices: seq<int>, faces: seq<Vec3>, u: int, v: int)
    requires 0 <= u < |faces| && 3 * |faces| <= |indices|
    requires Downward(faces[u]) && Downward(ShareSum(indices, faces, u, v))
    ensures Downward(ShareSum(indices, faces, u + 1, v))
  {
    DownwardShare(indices, u, v, faces[u]);
    DownwardAdd(ShareSum(indices, faces, u, v), CornerShare(indices, u, v, faces[u]));
    ShareSumStep(indices, faces, u, v);
  }

  lemma ShareSumStep(indices: seq<int>, faces: seq<Vec3>, u: int, v: int)
    requires 0 <= u < |faces| && 3 * |faces| <= |indices|
    ensures ShareSum(indices, faces, u + 1, v) ==
      Add(ShareSum(indices, faces, u, v), CornerShare(indices, u, v, faces[u]))
  {
  }

  lemma DownwardShare(indices: seq<int>, t: int, v: int, f: Vec3)
    requires 0 <= t && 3 * t + 2 < |indices| && Downward(f)
    ensures Downward(CornerShare(indices, t, v, f))
  {
    var a := if indices[3 * t] == v then f else Zero;
    var b := if indices[3 * t + 1] == v then f else Zero;
    var c := if indices[3 * t + 2] == v then f else Zero;
    assert Downward(a) && Downward(b) && Downward(c);
    DownwardAdd(a, b);
    DownwardAdd(Add(a, b), c);
  }

  lemma DownwardAdd(a: Vec3, b: Vec3)
    requires Downward(a) && Downward(b)
    ensures Downward(Add(a, b))
  {
  }
}

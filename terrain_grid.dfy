/**
 * The vertex grid and the triangle indices of one chunk
 * (`Rebuild`, the "Vertices" and "Indices (grid)" loops).
 *
 * Grid coordinates `x`, `y` run over [-1, R + 1] for resolution R; the
 * vertex with coordinates (x, y) is the `(x + 1) * (R + 3) + (y + 1)`-th one
 * pushed, so the buffers are in x-major order.
 */
module TerrainGrid {
  import opened Numerics
  import opened Vectors
  import opened TerrainParams

  /** Horizontal distance of grid line `i` from the chunk's corner: `width * sat(i / R)`. */
  function Coord(p: BuildParams, i: int): real
    requires ValidParams(p)
  {
    p.width * Sat(i as real / p.resolution as real)
  }

  /** `_P.set(xp - half, 0, yp - half).add(offset)`: the undisplaced world point. */
  function WorldPoint(p: BuildParams, x: int, y: int): Vec3
    requires ValidParams(p)
  {
    var half := p.width / 2.0;
    Add(Vec3(Coord(p, x) - half, 0.0, Coord(p, y) - half), p.offset)
  }

  const Up := Vec3(0.0, 1.0, 0.0)

  /** Every attribute the vertex loop pushes for one grid vertex. */
  datatype GridVertex = GridVertex(
    position: Vec3,
    coord: Vec3,
    colour: Vec3,
    up: Vec3,
    ws: Vec3,
    uv: Vec2)

  /**
   * One iteration of the vertex loop: displace the world point by its height
   * along `Up`; the colour generator gets (W.x, W.y, height); the world-space
   * buffer keeps (W.x, W.z, height); the UV is the displaced (x, y) over 200.
   */
  function VertexAt(p: BuildParams, g: Generators, x: int, y: int): GridVertex
    requires ValidParams(p)
  {
    var w := WorldPoint(p, x, y);
    var height := g.height(w.x, w.y, w.z);
    var h := Scale(Up, height);
    var pos := Add(w, h);
    GridVertex(
      pos,
      Add(w, h),
      g.colour(Vec3(w.x, w.y, height)),
      Up,
      Vec3(w.x, w.z, height),
      Vec2(pos.x / 200.0, pos.y / 200.0))
  }

  /** The buffer slot of grid vertex (x, y). */
  function GridIndex(p: BuildParams, x: int, y: int): int {
    (x + 1) * Stride(p) + (y + 1)
  }

  /** Grid coordinates of buffer slot `v`. */
  function Col(p: BuildParams, v: int): int
    requires ValidParams(p)
  {
    v / Stride(p) - 1
  }

  function Row(p: BuildParams, v: int): int
    requires ValidParams(p)
  {
    v % Stride(p) - 1
  }

  predicate InGrid(p: BuildParams, x: int, y: int) {
    -1 <= x <= p.resolution + 1 && -1 <= y <= p.resolution + 1
  }

  /** The vertex stored at slot `v`. */
  function Grid(p: BuildParams, g: Generators): (r: seq<GridVertex>)
    requires ValidParams(p)
    ensures |r| == VertexCount(p)
  {
    seq(VertexCount(p), v requires 0 <= v < VertexCount(p) => VertexAt(p, g, Col(p, v), Row(p, v)))
  }

  /** The six flat vertex buffers the vertex loop fills. */
  datatype VertexBuffers = VertexBuffers(
    positions: seq<real>,
    colours: seq<real>,
    up: seq<real>,
    coords: seq<real>,
    ws: seq<real>,
    uvs: seq<real>)

  function Buffers(grid: seq<GridVertex>): VertexBuffers {
    VertexBuffers(
      Flatten3(seq(|grid|, v requires 0 <= v < |grid| => grid[v].position)),
      Flatten3(seq(|grid|, v requires 0 <= v < |grid| => grid[v].colour)),
      Flatten3(seq(|grid|, v requires 0 <= v < |grid| => grid[v].up)),
      Flatten3(seq(|grid|, v requires 0 <= v < |grid| => grid[v].coord)),
      Flatten3(seq(|grid|, v requires 0 <= v < |grid| => grid[v].ws)),
      Flatten2(seq(|grid|, v requires 0 <= v < |grid| => grid[v].uv)))
  }

  /** Every slot is some grid vertex, in x-major order. */
  lemma SlotIsGridVertex(p: BuildParams, g: Generators, v: int)
    requires ValidParams(p) && 0 <= v < VertexCount(p)
    ensures InGrid(p, Col(p, v), Row(p, v))
    ensures GridIndex(p, Col(p, v), Row(p, v)) == v
    ensures Grid(p, g)[v] == VertexAt(p, g, Col(p, v), Row(p, v))
  {
    Decompose(v, Stride(p));
    RowBound(v, Stride(p));
  }

  /**
   * Layout: grid vertex (x, y) is at slot GridIndex(x, y), and that slot's
   * coordinates are (x, y) again.
   */
  lemma GridAt(p: BuildParams, g: Generators, x: int, y: int)
    requires ValidParams(p) && InGrid(p, x, y)
    ensures 0 <= GridIndex(p, x, y) < VertexCount(p)
    ensures Col(p, GridIndex(p, x, y)) == x && Row(p, GridIndex(p, x, y)) == y
    ensures Grid(p, g)[GridIndex(p, x, y)] == VertexAt(p, g, x, y)
  {
    GridIndexBound(x + 1, y + 1, Stride(p));
    DivModOf(x + 1, y + 1, Stride(p));
  }

  /** The padding ring repeats the edge: `sat` maps -1 to 0 and R + 1 to R. */
  function ClampToTile(p: BuildParams, i: int): int {
    if i < 0 then 0 else if i > p.resolution then p.resolution else i
  }

  lemma RingCoincidesWithEdge(p: BuildParams, g: Generators, x: int, y: int)
    requires ValidParams(p) && InGrid(p, x, y)
    ensures Coord(p, x) == Coord(p, ClampToTile(p, x))
    ensures VertexAt(p, g, x, y) == VertexAt(p, g, ClampToTile(p, x), ClampToTile(p, y))
  {
    ClampCoord(p, x);
    ClampCoord(p, y);
  }

  lemma ClampCoord(p: BuildParams, i: int)
    requires ValidParams(p) && -1 <= i <= p.resolution + 1
    ensures Coord(p, i) == Coord(p, ClampToTile(p, i))
  {
    var r := p.resolution as real;
    if i == p.resolution + 1 {
      assert i as real / r > 1.0;
      assert p.resolution as real / r == 1.0;
    } else if i == p.resolution {
    } else if i == -1 {
      assert i as real / r < 0.0;
    }
  }

  /** Inside the tile, grid line `i` lies at `width * i / R`. */
  lemma CoordInTile(p: BuildParams, i: int)
    requires ValidParams(p) && 0 <= i <= p.resolution
    ensures Coord(p, i) == p.width * (i as real / p.resolution as real)
  {
    var r := p.resolution as real;
    assert 0.0 <= i as real / r <= 1.0;
  }

  /**
   * Seam alignment: a tile whose offset is one tile width further along x
   * starts exactly where this one ends, so their shared edge has the same
   * displaced positions.
   */
  lemma SeamAlignment(p: BuildParams, q: BuildParams, g: Generators, y: int)
    requires ValidParams(p) && q.resolution == p.resolution && q.width == p.width
    requires q.offset == Vec3(p.offset.x + p.width, p.offset.y, p.offset.z)
    requires 0 <= y <= p.resolution
    ensures VertexAt(p, g, p.resolution, y).position == VertexAt(q, g, 0, y).position
  {
    SeamPoint(p, q, y);
  }

  /** The undisplaced world points of the shared edge coincide. */
  lemma SeamPoint(p: BuildParams, q: BuildParams, y: int)
    requires ValidParams(p) && q.resolution == p.resolution && q.width == p.width
    requires q.offset == Vec3(p.offset.x + p.width, p.offset.y, p.offset.z)
    requires 0 <= y <= p.resolution
    ensures WorldPoint(p, p.resolution, y) == WorldPoint(q, 0, y)
  {
    var r := p.resolution as real;
    assert p.resolution as real / r == 1.0;
    assert Coord(p, p.resolution) == p.width;
    assert Coord(q, 0) == 0.0;
    assert Coord(q, y) == Coord(p, y);
  }

  /** The vertex read back from slot `v` of the six flat buffers. */
  function StoredVertex(b: VertexBuffers, v: int): GridVertex
    requires 0 <= v
    requires 3 * v + 2 < |b.positions| && 3 * v + 2 < |b.colours| && 3 * v + 2 < |b.up|
    requires 3 * v + 2 < |b.coords| && 3 * v + 2 < |b.ws| && 2 * v + 1 < |b.uvs|
  {
    GridVertex(At3(b.positions, v), At3(b.coords, v), At3(b.colours, v), At3(b.up, v),
               At3(b.ws, v), At2(b.uvs, v))
  }

  /** The six buffers after `push`ing the attributes of `vtx`. */
  function PushVertex(b: VertexBuffers, vtx: GridVertex): VertexBuffers {
    VertexBuffers(
      b.positions + [vtx.position.x, vtx.position.y, vtx.position.z],
      b.colours + [vtx.colour.x, vtx.colour.y, vtx.colour.z],
      b.up + [vtx.up.x, vtx.up.y, vtx.up.z],
      b.coords + [vtx.coord.x, vtx.coord.y, vtx.coord.z],
      b.ws + [vtx.ws.x, vtx.ws.y, vtx.ws.z],
      b.uvs + [vtx.uv.u, vtx.uv.v])
  }

  /** Pushing a vertex stores it in the next slot and leaves the earlier slots alone. */
  lemma StoredAfterPush(b: VertexBuffers, n: nat, vtx: GridVertex, v: int)
    requires SizedFor(b, n) && 0 <= v <= n
    ensures SizedFor(PushVertex(b, vtx), n + 1)
    ensures StoredVertex(PushVertex(b, vtx), v) == if v == n then vtx else StoredVertex(b, v)
  {
  }

  predicate SizedFor(b: VertexBuffers, n: int) {
    |b.positions| == 3 * n && |b.colours| == 3 * n && |b.up| == 3 * n &&
    |b.coords| == 3 * n && |b.ws| == 3 * n && |b.uvs| == 2 * n
  }

  /** Buffers that read back as `grid`, slot by slot, are the packing of `grid`. */
  lemma StoredIsBuffers(b: VertexBuffers, grid: seq<GridVertex>)
    requires SizedFor(b, |grid|)
    requires forall v :: 0 <= v < |grid| ==> StoredVertex(b, v) == grid[v]
    ensures b == Buffers(grid)
  {
    var bg := Buffers(grid);
    assert b.positions == bg.positions by {
      Flatten3OfAt3(b.positions, seq(|grid|, v requires 0 <= v < |grid| => grid[v].position));
    }
    assert b.colours == bg.colours by {
      Flatten3OfAt3(b.colours, seq(|grid|, v requires 0 <= v < |grid| => grid[v].colour));
    }
    assert b.up == bg.up by {
      Flatten3OfAt3(b.up, seq(|grid|, v requires 0 <= v < |grid| => grid[v].up));
    }
    assert b.coords == bg.coords by {
      Flatten3OfAt3(b.coords, seq(|grid|, v requires 0 <= v < |grid| => grid[v].coord));
    }
    assert b.ws == bg.ws by {
      Flatten3OfAt3(b.ws, seq(|grid|, v requires 0 <= v < |grid| => grid[v].ws));
    }
    assert b.uvs == bg.uvs by {
      Flatten2OfAt2(b.uvs, seq(|grid|, v requires 0 <= v < |grid| => grid[v].uv));
    }
  }

  /** Buffers holding exactly the first `n` vertices of `grid`. */
  predicate HoldsPrefix(b: VertexBuffers, grid: seq<GridVertex>, n: int) {
    0 <= n <= |grid| && SizedFor(b, n) &&
    forall v :: 0 <= v < n ==> StoredVertex(b, v) == grid[v]
  }

  /**
   * `BuildVertices`: the vertex loop. For x, then y, over [-1, R + 1] it
   * pushes one vertex's attributes onto each of the six buffers, so slot
   * `GridIndex(x, y)` of every buffer holds vertex (x, y).
   */
  method BuildVertices(p: BuildParams, g: Generators)
    returns (positions: seq<real>, colours: seq<real>, up: seq<real>,
             coords: seq<real>, ws: seq<real>, uvs: seq<real>)
    requires ValidParams(p)
    ensures VertexBuffers(positions, colours, up, coords, ws, uvs) == Buffers(Grid(p, g))
  {
    var resolution := p.resolution + 2;
    var effectiveResolution := resolution - 2;
    var s := resolution + 1;
    ghost var grid := Grid(p, g);
    positions, colours, up, coords, ws, uvs := [], [], [], [], [], [];
    var x := -1;
    while x <= effectiveResolution + 1
      invariant -1 <= x <= effectiveResolution + 2
      invariant HoldsPrefix(VertexBuffers(positions, colours, up, coords, ws, uvs), grid, (x + 1) * s)
    {
      positions, colours, up, coords, ws, uvs := PushRow(p, g, x, positions, colours, up, coords, ws, uvs);
      assert (x + 1) * s + s == (x + 2) * s;
      x := x + 1;
    }
    StoredIsBuffers(VertexBuffers(positions, colours, up, coords, ws, uvs), grid);
  }

  /** The inner loop of `BuildVertices`: push vertices (x, -1) to (x, R + 1). */
  method PushRow(p: BuildParams, g: Generators, x: int,
                 positions0: seq<real>, colours0: seq<real>, up0: seq<real>,
                 coords0: seq<real>, ws0: seq<real>, uvs0: seq<real>)
    returns (positions: seq<real>, colours: seq<real>, up: seq<real>,
             coords: seq<real>, ws: seq<real>, uvs: seq<real>)
    requires ValidParams(p) && -1 <= x <= p.resolution + 1
    requires HoldsPrefix(VertexBuffers(positions0, colours0, up0, coords0, ws0, uvs0), Grid(p, g), (x + 1) * Stride(p))
    ensures HoldsPrefix(VertexBuffers(positions, colours, up, coords, ws, uvs), Grid(p, g), (x + 1) * Stride(p) + Stride(p))
  {
    var resolution := p.resolution + 2;
    var effectiveResolution := resolution - 2;
    var s := resolution + 1;
    var width := p.width;
    ghost var grid := Grid(p, g);
    positions, colours, up, coords, ws, uvs := positions0, colours0, up0, coords0, ws0, uvs0;
    MulMono(x + 1, s - 1, s);
    ghost var n := (x + 1) * s;  // vertices pushed so far
    var xp := width * Sat(x as real / effectiveResolution as real);
    var y := -1;
    while y <= effectiveResolution + 1
      invariant -1 <= y <= effectiveResolution + 2
      invariant xp == Coord(p, x)
      invariant n == (x + 1) * s + (y + 1)
      invariant HoldsPrefix(VertexBuffers(positions, colours, up, coords, ws, uvs), grid, n)
    {
      ghost var before := VertexBuffers(positions, colours, up, coords, ws, uvs);
      positions, colours, up, coords, ws, uvs := PushGridVertex(p, g, x, xp, y, positions, colours, up, coords, ws, uvs);
      assert VertexAt(p, g, x, y) == grid[n] by {
        GridAt(p, g, x, y);
      }
      forall v | 0 <= v < n + 1
        ensures StoredVertex(VertexBuffers(positions, colours, up, coords, ws, uvs), v) == grid[v]
      {
        StoredAfterPush(before, n, VertexAt(p, g, x, y), v);
      }
      StoredAfterPush(before, n, VertexAt(p, g, x, y), n);
      n := n + 1;
      y := y + 1;
    }
  }

  /**
   * One iteration of the vertex loop: displace the world point of (x, y),
   * colour it, and push its attributes.
   */
  method PushGridVertex(p: BuildParams, g: Generators, x: int, xp: real, y: int,
                        positions0: seq<real>, colours0: seq<real>, up0: seq<real>,
                        coords0: seq<real>, ws0: seq<real>, uvs0: seq<real>)
    returns (positions: seq<real>, colours: seq<real>, up: seq<real>,
             coords: seq<real>, ws: seq<real>, uvs: seq<real>)
    requires ValidParams(p) && xp == Coord(p, x)
    ensures VertexBuffers(positions, colours, up, coords, ws, uvs) ==
            PushVertex(VertexBuffers(positions0, colours0, up0, coords0, ws0, uvs0), VertexAt(p, g, x, y))
  {
    var width := p.width;
    var half := width / 2.0;
    var yp := width * Sat(y as real / p.resolution as real);
    var w := Add(Vec3(xp - half, 0.0, yp - half), p.offset);
    var d := Vec3(0.0, 1.0, 0.0);
    var height := g.height(w.x, w.y, w.z);
    var hv := Scale(d, height);
    var pos := Add(w, hv);
    var c := Add(w, hv);
    var colour := g.colour(Vec3(w.x, w.y, height));
    assert w == WorldPoint(p, x, y);
    positions := positions0 + [pos.x, pos.y, pos.z];
    coords := coords0 + [c.x, c.y, c.z];
    colours := colours0 + [colour.x, colour.y, colour.z];
    up := up0 + [d.x, d.y, d.z];
    ws := ws0 + [w.x, w.z, height];
    uvs := uvs0 + [pos.x / 200.0, pos.y / 200.0];
  }

  // ---------------------------------------------------------------- indices

  /**
   * Entry `m` of the index buffer: triangle corner `m % 6` of cell `m / 6`;
   * cell (i, j) is the (i * (R + 2) + j)-th one visited.
   */
  function CornerIndex(p: BuildParams, m: int): int
    requires ValidParams(p) && 0 <= m
  {
    var cell := m / 6;
    var i, j := cell / Cells(p), cell % Cells(p);
    var s := Stride(p);
    CellCorner(s, i, j, m % 6)
  }

  /** The six corners the index loop pushes for cell (i, j), rows `s` apart. */
  function CellCorner(s: int, i: int, j: int, slot: int): int {
    if slot == 0 then i * s + j
    else if slot == 1 then (i + 1) * s + j + 1
    else if slot == 2 then i * s + j + 1
    else if slot == 3 then (i + 1) * s + j
    else if slot == 4 then (i + 1) * s + j + 1
    else i * s + j
  }

  function IndexBuffer(p: BuildParams): (r: seq<int>)
    requires ValidParams(p)
    ensures |r| == 3 * TriangleCount(p)
  {
    seq(3 * TriangleCount(p), m requires 0 <= m < 3 * TriangleCount(p) => CornerIndex(p, m))
  }

  /**
   * 2 (R + 2)^2 triangles, every index names a vertex of the grid, and no
   * triangle uses a vertex twice.
   */
  lemma IndicesInRange(p: BuildParams)
    requires ValidParams(p)
    ensures |IndexBuffer(p)| == 6 * (p.resolution + 2) * (p.resolution + 2)
    ensures forall m :: 0 <= m < |IndexBuffer(p)| ==> 0 <= IndexBuffer(p)[m] < VertexCount(p)
    ensures forall t :: 0 <= t < TriangleCount(p) ==>
      IndexBuffer(p)[3 * t] != IndexBuffer(p)[3 * t + 1] &&
      IndexBuffer(p)[3 * t + 1] != IndexBuffer(p)[3 * t + 2] &&
      IndexBuffer(p)[3 * t] != IndexBuffer(p)[3 * t + 2]
  {
    var ib := IndexBuffer(p);
    forall m | 0 <= m < |ib| ensures 0 <= ib[m] < VertexCount(p) {
      CornerInRange(p, m);
    }
    forall t | 0 <= t < TriangleCount(p)
      ensures ib[3 * t] != ib[3 * t + 1] && ib[3 * t + 1] != ib[3 * t + 2] && ib[3 * t] != ib[3 * t + 2]
    {
      TriangleDistinct(p, t);
    }
  }

  lemma CornerInRange(p: BuildParams, m: int)
    requires ValidParams(p) && 0 <= m < 3 * TriangleCount(p)
    ensures 0 <= CornerIndex(p, m) < VertexCount(p)
  {
    var c, s := Cells(p), Stride(p);
    var cell := m / 6;
    assert cell < c * c;
    Decompose(cell, c);
    RowBound(cell, c);
    var i, j := cell / c, cell % c;
    GridIndexBound(i + 1, j + 1, s);
    GridIndexBound(i, j, s);
    GridIndexBound(i + 1, j, s);
    GridIndexBound(i, j + 1, s);
  }

  /**
   * Triangle `t` lies in cell (i, j), which spans grid lines i - 1 to i and
   * j - 1 to j: the first triangle of a cell has corners (i - 1, j - 1),
   * (i, j), (i - 1, j), the second (i, j - 1), (i, j), (i - 1, j - 1).
   */
  lemma TriangleCell(p: BuildParams, t: int) returns (i: int, j: int, first: bool)
    requires ValidParams(p) && 0 <= t < TriangleCount(p)
    ensures 0 <= i < Cells(p) && 0 <= j < Cells(p) && first == (t % 2 == 0)
    ensures first ==>
      CornerIndex(p, 3 * t) == GridIndex(p, i - 1, j - 1) &&
      CornerIndex(p, 3 * t + 1) == GridIndex(p, i, j) &&
      CornerIndex(p, 3 * t + 2) == GridIndex(p, i - 1, j)
    ensures !first ==>
      CornerIndex(p, 3 * t) == GridIndex(p, i, j - 1) &&
      CornerIndex(p, 3 * t + 1) == GridIndex(p, i, j) &&
      CornerIndex(p, 3 * t + 2) == GridIndex(p, i - 1, j - 1)
  {
    var c, s := Cells(p), Stride(p);
    var cell := t / 2;
    assert (3 * t) / 6 == cell && (3 * t + 1) / 6 == cell && (3 * t + 2) / 6 == cell;
    assert cell < c * c;
    Decompose(cell, c);
    RowBound(cell, c);
    i, j, first := cell / c, cell % c, t % 2 == 0;
    assert (i + 1) * s == i * s + s;
    if first {
      assert (3 * t) % 6 == 0 && (3 * t + 1) % 6 == 1 && (3 * t + 2) % 6 == 2;
    } else {
      assert (3 * t) % 6 == 3 && (3 * t + 1) % 6 == 4 && (3 * t + 2) % 6 == 5;
    }
  }

  lemma TriangleDistinct(p: BuildParams, t: int)
    requires ValidParams(p) && 0 <= t < TriangleCount(p)
    ensures CornerIndex(p, 3 * t) != CornerIndex(p, 3 * t + 1)
    ensures CornerIndex(p, 3 * t + 1) != CornerIndex(p, 3 * t + 2)
    ensures CornerIndex(p, 3 * t) != CornerIndex(p, 3 * t + 2)
  {
    var c, s := Cells(p), Stride(p);
    var cell := t / 2;
    assert (3 * t) / 6 == cell && (3 * t + 1) / 6 == cell && (3 * t + 2) / 6 == cell;
    var i, j := cell / c, cell % c;
    assert j + 1 < s;
    DistinctCorners(s, i, j);
  }

  lemma DistinctCorners(s: int, i: int, j: int)
    requires 0 <= j && j + 1 < s
    ensures i * s + j != (i + 1) * s + j + 1 && (i + 1) * s + j + 1 != i * s + j + 1
    ensures i * s + j != i * s + j + 1
    ensures (i + 1) * s + j != (i + 1) * s + j + 1 && (i + 1) * s + j != i * s + j
  {
    assert (i + 1) * s == i * s + s;
  }

  /** `BuildIndices`: the index loop, two triangles per cell, cells row by row. */
  method BuildIndices(p: BuildParams) returns (indices: seq<int>)
    requires ValidParams(p)
    ensures indices == IndexBuffer(p)
  {
    var resolution := p.resolution + 2;
    indices := [];
    var i := 0;
    while i < resolution
      invariant 0 <= i <= resolution
      invariant 0 <= i * resolution <= resolution * resolution
      invariant indices == IndexBuffer(p)[..6 * (i * resolution)]
    {
      indices := PushCellRow(p, i, indices);
      assert i * resolution + resolution == (i + 1) * resolution;
      MulMono(i + 1, resolution, resolution);
      i := i + 1;
    }
  }

  /** The inner loop of `BuildIndices`: the cells (i, 0) to (i, R + 1). */
  method PushCellRow(p: BuildParams, i: int, indices0: seq<int>) returns (indices: seq<int>)
    requires ValidParams(p) && 0 <= i < Cells(p)
    requires 0 <= i * Cells(p) && 6 * (i * Cells(p)) <= |IndexBuffer(p)|
    requires indices0 == IndexBuffer(p)[..6 * (i * Cells(p))]
    ensures 6 * (i * Cells(p) + Cells(p)) <= |IndexBuffer(p)|
    ensures indices == IndexBuffer(p)[..6 * (i * Cells(p) + Cells(p))]
  {
    var resolution := p.resolution + 2;
    var s := resolution + 1;
    indices := indices0;
    var j := 0;
    while j < resolution
      invariant 0 <= j <= resolution
      invariant 6 * (i * resolution + j) <= |IndexBuffer(p)|
      invariant indices == IndexBuffer(p)[..6 * (i * resolution + j)]
    {
      CellEntries(p, i, j);
      indices := indices + [i * s + j, (i + 1) * s + j + 1, i * s + j + 1];
      indices := indices + [(i + 1) * s + j, (i + 1) * s + j + 1, i * s + j];
      j := j + 1;
    }
  }

  /** The two triangles the index loop pushes for cell (i, j). */
  function CellTriangles(s: int, i: int, j: int): seq<int> {
    [i * s + j, (i + 1) * s + j + 1, i * s + j + 1,
     (i + 1) * s + j, (i + 1) * s + j + 1, i * s + j]
  }

  /** The index buffer grows by one cell's two triangles per cell. */
  lemma CellEntries(p: BuildParams, i: int, j: int)
    requires ValidParams(p) && 0 <= i < Cells(p) && 0 <= j < Cells(p)
    ensures 0 <= 6 * (i * Cells(p) + j) && 6 * (i * Cells(p) + j + 1) <= |IndexBuffer(p)|
    ensures IndexBuffer(p)[..6 * (i * Cells(p) + j + 1)] ==
            IndexBuffer(p)[..6 * (i * Cells(p) + j)] + CellTriangles(Stride(p), i, j)
  {
    var cell := i * Cells(p) + j;
    var ib, ys := IndexBuffer(p), CellTriangles(Stride(p), i, j);
    CornerOfCell(p, i, j, 5);
    forall k | 0 <= k < 6 ensures ib[6 * cell + k] == ys[k] {
      CornerOfCell(p, i, j, k);
    }
    SliceGrows(ib, 6 * cell, ys);
  }

  /** A prefix followed by the next `|ys|` entries, when those entries are `ys`. */
  lemma SliceGrows(xs: seq<int>, a: int, ys: seq<int>)
    requires 0 <= a && a + |ys| <= |xs|
    requires forall k :: 0 <= k < |ys| ==> xs[a + k] == ys[k]
    ensures xs[..a + |ys|] == xs[..a] + ys
  {
    assert xs[a..a + |ys|] == ys;
    assert xs[..a + |ys|] == xs[..a] + xs[a..a + |ys|];
  }

  /** Entry `k` of cell (i, j)'s six index-buffer entries is corner `k` of its two triangles. */
  lemma CornerOfCell(p: BuildParams, i: int, j: int, k: int)
    requires ValidParams(p) && 0 <= i < Cells(p) && 0 <= j < Cells(p) && 0 <= k < 6
    ensures 0 <= 6 * (i * Cells(p) + j) + k < |IndexBuffer(p)|
    ensures IndexBuffer(p)[6 * (i * Cells(p) + j) + k] == CellTriangles(Stride(p), i, j)[k]
  {
    var c := Cells(p);
    var cell := i * c + j;
    GridIndexBound(i, j, c);
    assert 6 * cell + k < 6 * (c * c);
    DivModOf(i, j, c);
    DivModOf(cell, k, 6);
    assert 6 * cell + k == cell * 6 + k;
  }
}

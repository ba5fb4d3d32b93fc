/**
 * The skirt fix (`Rebuild`, `_ApplyFix` and the four loops after it): every
 * vertex of the padding ring is lowered by the skirt depth and takes the
 * accumulated normal of its neighbour one step inside the ring.
 *
 * Grid slots are addressed by row and column in [0, s), s = R + 3, so slot
 * (r, c) is grid vertex (r - 1, c - 1).
 */
module TerrainSkirt {
  import opened Numerics
  import opened Vectors

  /** How far `_ApplyFix` lowers a ring vertex: `positions[skirtIndex * 3 + 1] -= 10`. */
  const SkirtDepth := 10.0

  /** The buffer slot of row `r`, column `c`: `x * (resolution + 1) + y`. */
  function Slot(s: int, r: int, c: int): (v: int)
    requires 0 <= r < s && 0 <= c < s
    ensures 0 <= v < s * s
  {
    GridIndexBound(r, c, s);
    r * s + c
  }

  /** Different rows or columns give different slots. */
  lemma SlotInjective(s: int, r: int, c: int, r': int, c': int)
    requires 0 <= r < s && 0 <= c < s && 0 <= r' < s && 0 <= c' < s
    requires Slot(s, r, c) == Slot(s, r', c')
    ensures r == r' && c == c'
  {
    DivModOf(r, c, s);
    DivModOf(r', c', s);
  }

  /** A pair of stride-3 buffers over an s-by-s grid. */
  predicate Sized(positions: seq<real>, normals: seq<real>, s: int) {
    s >= 1 && |positions| == 3 * (s * s) && |normals| == 3 * (s * s)
  }

  function Lower(a: Vec3): Vec3 { Vec3(a.x, a.y - SkirtDepth, a.z) }

  /**
   * `_ApplyFix(x, y, xp, yp)`: lower slot (x, y) and overwrite its normal
   * with the one at slot (xp, yp).
   */
  method ApplyFix(positions0: seq<real>, normals0: seq<real>, s: int, x: int, y: int, xp: int, yp: int)
    returns (positions: seq<real>, normals: seq<real>)
    requires Sized(positions0, normals0, s)
    requires 0 <= x < s && 0 <= y < s && 0 <= xp < s && 0 <= yp < s
    ensures Sized(positions, normals, s)
    ensures forall r, c :: 0 <= r < s && 0 <= c < s ==>
      At3(positions, Slot(s, r, c)) ==
        if r == x && c == y then Lower(At3(positions0, Slot(s, r, c))) else At3(positions0, Slot(s, r, c))
    ensures forall r, c :: 0 <= r < s && 0 <= c < s ==>
      At3(normals, Slot(s, r, c)) ==
        if r == x && c == y then At3(normals0, Slot(s, xp, yp)) else At3(normals0, Slot(s, r, c))
  {
    var skirtIndex := Slot(s, x, y);
    var proxyIndex := Slot(s, xp, yp);
    positions := positions0[skirtIndex * 3 + 1 := positions0[skirtIndex * 3 + 1] - SkirtDepth];
    normals := normals0[skirtIndex * 3 + 0 := normals0[proxyIndex * 3 + 0]];
    normals := normals[skirtIndex * 3 + 1 := normals[proxyIndex * 3 + 1]];
    normals := normals[skirtIndex * 3 + 2 := normals[proxyIndex * 3 + 2]];
    forall r, c | 0 <= r < s && 0 <= c < s && (r != x || c != y)
      ensures Slot(s, r, c) != skirtIndex
    {
      if Slot(s, r, c) == skirtIndex {
        SlotInjective(s, r, c, x, y);
      }
    }
  }

  /**
   * The first two loops: `for y in [0, s) _ApplyFix(x, y, xp, y)`. Row `x`
   * is lowered and copies its normals from row `xp`.
   */
  method FixRow(positions0: seq<real>, normals0: seq<real>, s: int, x: int, xp: int)
    returns (positions: seq<real>, normals: seq<real>)
    requires Sized(positions0, normals0, s)
    requires 0 <= x < s && 0 <= xp < s && x != xp
    ensures Sized(positions, normals, s)
    ensures forall r, c :: 0 <= r < s && 0 <= c < s ==>
      At3(positions, Slot(s, r, c)) ==
        if r == x then Lower(At3(positions0, Slot(s, r, c))) else At3(positions0, Slot(s, r, c))
    ensures forall r, c :: 0 <= r < s && 0 <= c < s ==>
      At3(normals, Slot(s, r, c)) ==
        if r == x then At3(normals0, Slot(s, xp, c)) else At3(normals0, Slot(s, r, c))
  {
    positions, normals := positions0, normals0;
    var y := 0;
    while y < s
      invariant 0 <= y <= s
      invariant Sized(positions, normals, s)
      invariant forall r, c :: 0 <= r < s && 0 <= c < s ==>
        At3(positions, Slot(s, r, c)) ==
          if r == x && c < y then Lower(At3(positions0, Slot(s, r, c))) else At3(positions0, Slot(s, r, c))
      invariant forall r, c :: 0 <= r < s && 0 <= c < s ==>
        At3(normals, Slot(s, r, c)) ==
          if r == x && c < y then At3(normals0, Slot(s, xp, c)) else At3(normals0, Slot(s, r, c))
    {
      positions, normals := ApplyFix(positions, normals, s, x, y, xp, y);
      y := y + 1;
    }
  }

  /**
   * The last two loops: `for x in [0, s) _ApplyFix(x, y, x, yp)`. Column `y`
   * is lowered and copies its normals from column `yp`.
   */
  method FixColumn(positions0: seq<real>, normals0: seq<real>, s: int, y: int, yp: int)
    returns (positions: seq<real>, normals: seq<real>)
    requires Sized(positions0, normals0, s)
    requires 0 <= y < s && 0 <= yp < s && y != yp
    ensures Sized(positions, normals, s)
    ensures forall r, c :: 0 <= r < s && 0 <= c < s ==>
      At3(positions, Slot(s, r, c)) ==
        if c == y then Lower(At3(positions0, Slot(s, r, c))) else At3(positions0, Slot(s, r, c))
    ensures forall r, c :: 0 <= r < s && 0 <= c < s ==>
      At3(normals, Slot(s, r, c)) ==
        if c == y then At3(normals0, Slot(s, r, yp)) else At3(normals0, Slot(s, r, c))
  {
    positions, normals := positions0, normals0;
    var x := 0;
    while x < s
      invariant 0 <= x <= s
      invariant Sized(positions, normals, s)
      invariant forall r, c :: 0 <= r < s && 0 <= c < s ==>
        At3(positions, Slot(s, r, c)) ==
          if c == y && r < x then Lower(At3(positions0, Slot(s, r, c))) else At3(positions0, Slot(s, r, c))
      invariant forall r, c :: 0 <= r < s && 0 <= c < s ==>
        At3(normals, Slot(s, r, c)) ==
          if c == y && r < x then At3(normals0, Slot(s, r, yp)) else At3(normals0, Slot(s, r, c))
    {
      positions, normals := ApplyFix(positions, normals, s, x, y, x, yp);
      x := x + 1;
    }
  }

  /** One step inward from the ring along one axis: 0 goes to 1, s - 1 to s - 2. */
  function Inward(s: int, i: int): int {
    if i == 0 then 1 else if i == s - 1 then s - 2 else i
  }

  /** On how many edges of the ring slot (r, c) lies: 0 inside, 1 on a side, 2 at a corner. */
  function RingEdges(s: int, r: int, c: int): (k: nat)
    ensures k <= 2
  {
    (if r == 0 || r == s - 1 then 1 else 0) + (if c == 0 || c == s - 1 then 1 else 0)
  }

  /** A position lowered `k` times by the skirt depth. */
  function Sink(a: Vec3, k: nat): Vec3 {
    Vec3(a.x, a.y - SkirtDepth * k as real, a.z)
  }

  /**
   * `SkirtFix`: the four loops over rows 0 and s - 1, then columns 0 and
   * s - 1. Every slot ends lowered once per ring edge it lies on, and with
   * the accumulated normal of the slot one step inward along each axis on
   * which it lies on the ring, so a corner takes the normal of its diagonal
   * neighbour.
   */
  method SkirtFix(positions0: seq<real>, normals0: seq<real>, s: int)
    returns (positions: seq<real>, normals: seq<real>)
    requires Sized(positions0, normals0, s) && s >= 3
    ensures Sized(positions, normals, s)
    ensures forall r, c :: 0 <= r < s && 0 <= c < s ==>
      At3(positions, Slot(s, r, c)) == Sink(At3(positions0, Slot(s, r, c)), RingEdges(s, r, c))
    ensures forall r, c :: 0 <= r < s && 0 <= c < s ==>
      At3(normals, Slot(s, r, c)) == At3(normals0, Slot(s, Inward(s, r), Inward(s, c)))
  {
    var resolution := s - 1;
    var p1, n1 := FixRow(positions0, normals0, s, 0, 1);
    var p2, n2 := FixRow(p1, n1, s, resolution, resolution - 1);
    var p3, n3 := FixColumn(p2, n2, s, 0, 1);
    positions, normals := FixColumn(p3, n3, s, resolution, resolution - 1);
    SkirtPositions(s, positions0, p1, p2, p3, positions);
    SkirtNormals(s, normals0, n1, n2, n3, normals);
  }

  /** The four lowering passes add up to one skirt depth per ring edge. */
  lemma SkirtPositions(s: int, p0: seq<real>, p1: seq<real>, p2: seq<real>, p3: seq<real>, p4: seq<real>)
    requires s >= 2
    requires |p0| == |p1| == |p2| == |p3| == |p4| == 3 * (s * s)
    requires forall r, c :: 0 <= r < s && 0 <= c < s ==>
      At3(p1, Slot(s, r, c)) == if r == 0 then Lower(At3(p0, Slot(s, r, c))) else At3(p0, Slot(s, r, c))
    requires forall r, c :: 0 <= r < s && 0 <= c < s ==>
      At3(p2, Slot(s, r, c)) == if r == s - 1 then Lower(At3(p1, Slot(s, r, c))) else At3(p1, Slot(s, r, c))
    requires forall r, c :: 0 <= r < s && 0 <= c < s ==>
      At3(p3, Slot(s, r, c)) == if c == 0 then Lower(At3(p2, Slot(s, r, c))) else At3(p2, Slot(s, r, c))
    requires forall r, c :: 0 <= r < s && 0 <= c < s ==>
      At3(p4, Slot(s, r, c)) == if c == s - 1 then Lower(At3(p3, Slot(s, r, c))) else At3(p3, Slot(s, r, c))
    ensures forall r, c :: 0 <= r < s && 0 <= c < s ==>
      At3(p4, Slot(s, r, c)) == Sink(At3(p0, Slot(s, r, c)), RingEdges(s, r, c))
  {
    forall r, c | 0 <= r < s && 0 <= c < s
      ensures At3(p4, Slot(s, r, c)) == Sink(At3(p0, Slot(s, r, c)), RingEdges(s, r, c))
    {
      var a := At3(p0, Slot(s, r, c));
      var k1: nat := if r == 0 || r == s - 1 then 1 else 0;
      assert At3(p2, Slot(s, r, c)) == Sink(a, k1);
      var k2: nat := k1 + if c == 0 then 1 else 0;
      assert At3(p3, Slot(s, r, c)) == Sink(a, k2);
    }
  }

  /** The four copying passes leave every slot with the normal one step inward on each ring axis. */
  lemma SkirtNormals(s: int, n0: seq<real>, n1: seq<real>, n2: seq<real>, n3: seq<real>, n4: seq<real>)
    requires s >= 3
    requires |n0| == |n1| == |n2| == |n3| == |n4| == 3 * (s * s)
    requires forall r, c :: 0 <= r < s && 0 <= c < s ==>
      At3(n1, Slot(s, r, c)) == if r == 0 then At3(n0, Slot(s, 1, c)) else At3(n0, Slot(s, r, c))
    requires forall r, c :: 0 <= r < s && 0 <= c < s ==>
      At3(n2, Slot(s, r, c)) == if r == s - 1 then At3(n1, Slot(s, s - 2, c)) else At3(n1, Slot(s, r, c))
    requires forall r, c :: 0 <= r < s && 0 <= c < s ==>
      At3(n3, Slot(s, r, c)) == if c == 0 then At3(n2, Slot(s, r, 1)) else At3(n2, Slot(s, r, c))
    requires forall r, c :: 0 <= r < s && 0 <= c < s ==>
      At3(n4, Slot(s, r, c)) == if c == s - 1 then At3(n3, Slot(s, r, s - 2)) else At3(n3, Slot(s, r, c))
    ensures forall r, c :: 0 <= r < s && 0 <= c < s ==>
      At3(n4, Slot(s, r, c)) == At3(n0, Slot(s, Inward(s, r), Inward(s, c)))
  {
    forall r, c | 0 <= r < s && 0 <= c < s
      ensures At3(n4, Slot(s, r, c)) == At3(n0, Slot(s, Inward(s, r), Inward(s, c)))
    {
      var rr, cc := Inward(s, r), Inward(s, c);
      // after the row passes, any column c' holds the normal of row Inward(r)
      assert forall c' :: 0 <= c' < s ==> At3(n2, Slot(s, r, c')) == At3(n0, Slot(s, rr, c'));
      assert At3(n3, Slot(s, r, cc)) == At3(n0, Slot(s, rr, cc));
    }
  }
}

/**
 * Smooth vertex normals (`Rebuild`, the "Normals" loop and the final
 * normalisation loop): every triangle's unnormalised face normal is added
 * into the accumulator of each of its three corners, and every accumulator
 * is normalised at the end.
 */
module TerrainNormals {
  import opened Vectors

  /** Every entry of `indices` names one of `count` vertices, three entries per triangle. */
  predicate IndicesFor(indices: seq<int>, count: int) {
    |indices| % 3 == 0 && forall m :: 0 <= m < |indices| ==> 0 <= indices[m] < count
  }

  /** A flat stride-3 buffer and an index list into it. */
  predicate Mesh(positions: seq<real>, indices: seq<int>) {
    |positions| % 3 == 0 && IndicesFor(indices, |positions| / 3)
  }

  /**
   * The face normal of triangle `t`: with corners N1, N2, N3 it is
   * (N3 - N2) x (N1 - N2), twice the triangle's area in length.
   */
  function FaceNormal(positions: seq<real>, indices: seq<int>, t: int): Vec3
    requires Mesh(positions, indices) && 0 <= t < |indices| / 3
  {
    var n1 := At3(positions, indices[3 * t]);
    var n2 := At3(positions, indices[3 * t + 1]);
    var n3 := At3(positions, indices[3 * t + 2]);
    Cross(Sub(n3, n2), Sub(n1, n2))
  }

  /** What triangle `t`'s face normal `f` adds to vertex `v`: once for each of its corners that is `v`. */
  function CornerShare(indices: seq<int>, t: int, v: int, f: Vec3): Vec3
    requires 0 <= t && 3 * t + 2 < |indices|
  {
    Add(Add(if indices[3 * t] == v then f else Zero,
            if indices[3 * t + 1] == v then f else Zero),
        if indices[3 * t + 2] == v then f else Zero)
  }

  /** The accumulator of vertex `v` after the first `t` triangles. */
  function NormalSum(positions: seq<real>, indices: seq<int>, t: int, v: int): Vec3
    requires Mesh(positions, indices) && 0 <= t <= |indices| / 3
  {
    if t == 0 then Zero
    else Add(NormalSum(positions, indices, t - 1, v),
             CornerShare(indices, t - 1, v, FaceNormal(positions, indices, t - 1)))
  }

  /** A vertex that no triangle uses keeps a zero accumulator. */
  lemma {:induction false} UnusedVertexHasZeroNormal(positions: seq<real>, indices: seq<int>, t: int, v: int)
    requires Mesh(positions, indices) && 0 <= t <= |indices| / 3
    requires forall m :: 0 <= m < 3 * t ==> indices[m] != v
    ensures NormalSum(positions, indices, t, v) == Zero
  {
    if t > 0 {
      UnusedVertexHasZeroNormal(positions, indices, t - 1, v);
      assert indices[3 * (t - 1)] != v && indices[3 * (t - 1) + 1] != v && indices[3 * (t - 1) + 2] != v;
    }
  }

  /**
   * The accumulator only depends on the triangles that use the vertex:
   * appending a triangle that does not touch `v` leaves it unchanged.
   */
  lemma UntouchedByTriangle(positions: seq<real>, indices: seq<int>, t: int, v: int)
    requires Mesh(positions, indices) && 0 <= t < |indices| / 3
    requires indices[3 * t] != v && indices[3 * t + 1] != v && indices[3 * t + 2] != v
    ensures NormalSum(positions, indices, t + 1, v) == NormalSum(positions, indices, t, v)
  {
  }

  /** The face normal is perpendicular to both edges it is built from. */
  lemma FaceNormalPerpendicular(positions: seq<real>, indices: seq<int>, t: int)
    requires Mesh(positions, indices) && 0 <= t < |indices| / 3
    ensures var n1, n2, n3 := At3(positions, indices[3 * t]), At3(positions, indices[3 * t + 1]), At3(positions, indices[3 * t + 2]);
      Dot(FaceNormal(positions, indices, t), Sub(n3, n2)) == 0.0 &&
      Dot(FaceNormal(positions, indices, t), Sub(n1, n2)) == 0.0
  {
    var n1, n2, n3 := At3(positions, indices[3 * t]), At3(positions, indices[3 * t + 1]), At3(positions, indices[3 * t + 2]);
    CrossPerpendicular(Sub(n3, n2), Sub(n1, n2));
  }

  /** The three `+=` of component `k` into vertices `a`, `b`, `c` of the accumulators. */
  function AddComponent(normals: seq<real>, a: int, b: int, c: int, k: int, x: real): (r: seq<real>)
    requires 0 <= k < 3
    requires 0 <= a && 3 * a + 2 < |normals| && 0 <= b && 3 * b + 2 < |normals| && 0 <= c && 3 * c + 2 < |normals|
    ensures |r| == |normals|
  {
    var n1 := normals[3 * a + k := normals[3 * a + k] + x];
    var n2 := n1[3 * b + k := n1[3 * b + k] + x];
    n2[3 * c + k := n2[3 * c + k] + x]
  }

  lemma AddComponentAt(normals: seq<real>, a: int, b: int, c: int, k: int, x: real, m: int)
    requires 0 <= k < 3
    requires 0 <= a && 3 * a + 2 < |normals| && 0 <= b && 3 * b + 2 < |normals| && 0 <= c && 3 * c + 2 < |normals|
    requires 0 <= m < |normals|
    ensures AddComponent(normals, a, b, c, k, x)[m] ==
      normals[m] + (if 3 * a + k == m then x else 0.0) + (if 3 * b + k == m then x else 0.0)
                 + (if 3 * c + k == m then x else 0.0)
  {
  }

  /** The nine `+=` of one triangle: x components first, then y, then z. */
  function AddFace(normals: seq<real>, a: int, b: int, c: int, d: Vec3): (r: seq<real>)
    requires 0 <= a && 3 * a + 2 < |normals| && 0 <= b && 3 * b + 2 < |normals| && 0 <= c && 3 * c + 2 < |normals|
    ensures |r| == |normals|
  {
    AddComponent(AddComponent(AddComponent(normals, a, b, c, 0, d.x), a, b, c, 1, d.y), a, b, c, 2, d.z)
  }

  /** Adding a face normal into three corners adds it once per corner that is `v`. */
  lemma AddFaceAt(normals: seq<real>, a: int, b: int, c: int, d: Vec3, v: int)
    requires 0 <= a && 3 * a + 2 < |normals| && 0 <= b && 3 * b + 2 < |normals| && 0 <= c && 3 * c + 2 < |normals|
    requires 0 <= v && 3 * v + 2 < |normals|
    ensures At3(AddFace(normals, a, b, c, d), v) ==
      Add(At3(normals, v), Add(Add(if a == v then d else Zero, if b == v then d else Zero), if c == v then d else Zero))
  {
    AddFaceComponent(normals, a, b, c, d, v, 0);
    AddFaceComponent(normals, a, b, c, d, v, 1);
    AddFaceComponent(normals, a, b, c, d, v, 2);
  }

  /** Component `k` of vertex `v` gains component `k` of `d` once per corner that is `v`. */
  lemma AddFaceComponent(normals: seq<real>, a: int, b: int, c: int, d: Vec3, v: int, k: int)
    requires 0 <= a && 3 * a + 2 < |normals| && 0 <= b && 3 * b + 2 < |normals| && 0 <= c && 3 * c + 2 < |normals|
    requires 0 <= v && 3 * v + 2 < |normals| && 0 <= k < 3
    ensures AddFace(normals, a, b, c, d)[3 * v + k] ==
      normals[3 * v + k] + (if a == v then Comp(d, k) else 0.0) + (if b == v then Comp(d, k) else 0.0)
                         + (if c == v then Comp(d, k) else 0.0)
  {
    var m := 3 * v + k;
    var s1 := AddComponent(normals, a, b, c, 0, d.x);
    var s2 := AddComponent(s1, a, b, c, 1, d.y);
    AddComponentAt(normals, a, b, c, 0, d.x, m);
    AddComponentAt(s1, a, b, c, 1, d.y, m);
    AddComponentAt(s2, a, b, c, 2, d.z, m);
  }

  /** The nine `+=` of one iteration of the normals loop, for triangle (a, b, c) and face normal `d1`. */
  method AddFaceNormal(normals0: seq<real>, a: int, b: int, c: int, d1: Vec3) returns (normals: seq<real>)
    requires 0 <= a && 3 * a + 2 < |normals0| && 0 <= b && 3 * b + 2 < |normals0| && 0 <= c && 3 * c + 2 < |normals0|
    ensures normals == AddFace(normals0, a, b, c, d1)
  {
    var i1, i2, i3 := a * 3, b * 3, c * 3;
    normals := normals0;
    normals := normals[i1 := normals[i1] + d1.x];
    normals := normals[i2 := normals[i2] + d1.x];
    normals := normals[i3 := normals[i3] + d1.x];
    ghost var xs := normals;
    assert xs == AddComponent(normals0, a, b, c, 0, d1.x);
    normals := normals[i1 + 1 := normals[i1 + 1] + d1.y];
    normals := normals[i2 + 1 := normals[i2 + 1] + d1.y];
    normals := normals[i3 + 1 := normals[i3 + 1] + d1.y];
    ghost var ys := normals;
    assert ys == AddComponent(xs, a, b, c, 1, d1.y);
    normals := normals[i1 + 2 := normals[i1 + 2] + d1.z];
    normals := normals[i2 + 2 := normals[i2 + 2] + d1.z];
    normals := normals[i3 + 2 := normals[i3 + 2] + d1.z];
  }

  /** Adding triangle `t`'s face normal takes every accumulator from `t` triangles to `t + 1`. */
  lemma AccumulateStep(positions: seq<real>, indices: seq<int>, before: seq<real>, after: seq<real>, t: int)
    requires Mesh(positions, indices) && 0 <= t < |indices| / 3 && |before| == |positions|
    requires forall v :: 0 <= v < |positions| / 3 ==> At3(before, v) == NormalSum(positions, indices, t, v)
    requires after == AddFace(before, indices[3 * t], indices[3 * t + 1], indices[3 * t + 2], FaceNormal(positions, indices, t))
    ensures |after| == |positions|
    ensures forall v :: 0 <= v < |positions| / 3 ==> At3(after, v) == NormalSum(positions, indices, t + 1, v)
  {
    var d := FaceNormal(positions, indices, t);
    forall v | 0 <= v < |positions| / 3
      ensures At3(after, v) == NormalSum(positions, indices, t + 1, v)
    {
      AddFaceAt(before, indices[3 * t], indices[3 * t + 1], indices[3 * t + 2], d, v);
    }
  }

  /**
   * `AccumulateNormals`: start every accumulator at zero
   * (`new Array(up.length).fill(0.0)`) and add every triangle's face normal
   * into its three corners.
   */
  method AccumulateNormals(positions: seq<real>, indices: seq<int>) returns (normals: seq<real>)
    requires Mesh(positions, indices)
    ensures |normals| == |positions|
    ensures forall v :: 0 <= v < |positions| / 3 ==>
      At3(normals, v) == NormalSum(positions, indices, |indices| / 3, v)
  {
    normals := seq(|positions|, _ => 0.0);
    var i, n := 0, |indices|;
    ghost var t := 0;  // triangles accumulated so far
    while i < n
      invariant 0 <= i <= n && i == 3 * t
      invariant |normals| == |positions|
      invariant forall v :: 0 <= v < |positions| / 3 ==>
        At3(normals, v) == NormalSum(positions, indices, t, v)
    {
      normals := AddTriangle(positions, indices, normals, i, t);
      i, t := i + 3, t + 1;
    }
    assert t == |indices| / 3;
  }

  /** One pass of the loop: add the face normal of the triangle starting at `indices[i]`. */
  method AddTriangle(positions: seq<real>, indices: seq<int>, before: seq<real>, i: int, ghost t: int)
    returns (normals: seq<real>)
    requires Mesh(positions, indices) && 0 <= t < |indices| / 3 && i == 3 * t && |before| == |positions|
    requires forall v :: 0 <= v < |positions| / 3 ==> At3(before, v) == NormalSum(positions, indices, t, v)
    ensures |normals| == |positions|
    ensures forall v :: 0 <= v < |positions| / 3 ==> At3(normals, v) == NormalSum(positions, indices, t + 1, v)
  {
    var n1 := At3(positions, indices[i]);
    var n2 := At3(positions, indices[i + 1]);
    var n3 := At3(positions, indices[i + 2]);
    var d1 := Cross(Sub(n3, n2), Sub(n1, n2));
    normals := AddFaceNormal(before, indices[i], indices[i + 1], indices[i + 2], d1);
    AccumulateStep(positions, indices, before, normals, t);
  }

  /** The normalisation loop: `_N.fromArray(normals, i).normalize()` written back in place. */
  method NormalizeNormals(normals0: seq<real>, normalize: Vec3 -> Vec3) returns (normals: seq<real>)
    requires |normals0| % 3 == 0
    ensures |normals| == |normals0|
    ensures forall v :: 0 <= v < |normals0| / 3 ==> At3(normals, v) == normalize(At3(normals0, v))
  {
    normals := normals0;
    var i, n := 0, |normals0|;
    while i < n
      invariant 0 <= i <= n && i % 3 == 0
      invariant |normals| == n
      invariant forall v :: 0 <= v < i / 3 ==> At3(normals, v) == normalize(At3(normals0, v))
      invariant forall k :: i <= k < n ==> normals[k] == normals0[k]
    {
      var nv := normalize(At3(normals, i / 3));
      normals := normals[i := nv.x][i + 1 := nv.y][i + 2 := nv.z];
      i := i + 3;
    }
  }
}

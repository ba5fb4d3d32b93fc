/**
 * Un-indexing (`Rebuild`, the `unindex` helper): the indexed vertex buffers
 * become plain triangle lists, one copy of a vertex's `stride` numbers per
 * entry of the index list, in index-list order.
 */
module TerrainUnindex {
  import opened Numerics
  import opened Vectors
  import opened TerrainNormals

  /** A flat buffer of `count` records of `stride` numbers each, and an index list into it. */
  predicate Indexed(src: seq<real>, stride: int, indices: seq<int>) {
    stride >= 1 && |src| % stride == 0 && IndicesFor(indices, |src| / stride)
  }

  /** Record `v` of a buffer with `stride` numbers per record: `src[v * stride .. v * stride + stride]`. */
  function Record(src: seq<real>, stride: int, v: int): (r: seq<real>)
    requires stride >= 1 && 0 <= v < |src| / stride
    ensures |r| == stride
  {
    RecordBound(|src|, stride, v);
    src[v * stride..v * stride + stride]
  }

  lemma RecordBound(len: int, stride: int, v: int)
    requires stride >= 1 && 0 <= v < len / stride
    ensures 0 <= v * stride && v * stride + stride <= len
  {
    MulMono(v + 1, len / stride, stride);
    assert (len / stride) * stride <= len;
  }

  /** The triangle list after the first `m` entries of the index list. */
  function Unindexed(src: seq<real>, stride: int, indices: seq<int>, m: int): (r: seq<real>)
    requires Indexed(src, stride, indices) && 0 <= m <= |indices|
  {
    if m == 0 then []
    else Unindexed(src, stride, indices, m - 1) + Record(src, stride, indices[m - 1])
  }

  /** The triangle list holds `stride` numbers per index entry. */
  lemma {:induction false} UnindexedLength(src: seq<real>, stride: int, indices: seq<int>, m: int)
    requires Indexed(src, stride, indices) && 0 <= m <= |indices|
    ensures |Unindexed(src, stride, indices, m)| == m * stride
  {
    if m > 0 {
      var u := m - 1;
      UnindexedLength(src, stride, indices, u);
      assert Unindexed(src, stride, indices, u + 1) == Unindexed(src, stride, indices, u) + Record(src, stride, indices[u]);
      assert u * stride + stride == (u + 1) * stride;
    }
  }

  /** Number `j` of record `k` of the triangle list is number `j` of the record index entry `k` names. */
  lemma {:induction false} UnindexedAt(src: seq<real>, stride: int, indices: seq<int>, m: int, k: int, j: int)
    requires Indexed(src, stride, indices) && 0 <= k < m <= |indices| && 0 <= j < stride
    ensures 0 <= k * stride + j < |Unindexed(src, stride, indices, m)|
    ensures 0 <= indices[k] * stride + j < |src|
    ensures Unindexed(src, stride, indices, m)[k * stride + j] == src[indices[k] * stride + j]
  {
    UnindexedLength(src, stride, indices, m - 1);
    UnindexedLength(src, stride, indices, m);
    RecordBound(|src|, stride, indices[k]);
    MulMono(k + 1, m, stride);
    if k < m - 1 {
      UnindexedAt(src, stride, indices, m - 1, k, j);
      MulMono(k + 1, m - 1, stride);
    } else {
      assert k * stride == (m - 1) * stride;
    }
  }

  /**
   * For a stride-3 buffer, vertex `k` of the triangle list is the vertex
   * that index entry `k` names.
   */
  lemma Unindexed3(src: seq<real>, indices: seq<int>, k: int)
    requires Indexed(src, 3, indices) && 0 <= k < |indices|
    ensures 3 * k + 2 < |Unindexed(src, 3, indices, |indices|)|
    ensures 3 * indices[k] + 2 < |src|
    ensures At3(Unindexed(src, 3, indices, |indices|), k) == At3(src, indices[k])
  {
    UnindexedAt(src, 3, indices, |indices|, k, 0);
    UnindexedAt(src, 3, indices, |indices|, k, 1);
    UnindexedAt(src, 3, indices, |indices|, k, 2);
  }

  /** The same for the stride-2 UV buffer. */
  lemma Unindexed2(src: seq<real>, indices: seq<int>, k: int)
    requires Indexed(src, 2, indices) && 0 <= k < |indices|
    ensures 2 * k + 1 < |Unindexed(src, 2, indices, |indices|)|
    ensures 2 * indices[k] + 1 < |src|
    ensures At2(Unindexed(src, 2, indices, |indices|), k) == At2(src, indices[k])
  {
    UnindexedAt(src, 2, indices, |indices|, k, 0);
    UnindexedAt(src, 2, indices, |indices|, k, 1);
  }

  /** Un-indexing a flattened list of vectors: vertex `k` of the triangle list is the vector entry `k` names. */
  lemma UnindexedVector(vs: seq<Vec3>, indices: seq<int>, k: int)
    requires IndicesFor(indices, |vs|) && 0 <= k < |indices|
    ensures Indexed(Flatten3(vs), 3, indices)
    ensures 3 * k + 2 < |Unindexed(Flatten3(vs), 3, indices, |indices|)|
    ensures At3(Unindexed(Flatten3(vs), 3, indices, |indices|), k) == vs[indices[k]]
  {
    assert (3 * |vs|) / 3 == |vs|;
    Unindexed3(Flatten3(vs), indices, k);
    At3Flatten3(vs, indices[k]);
  }

  /** The same for a flattened list of UV pairs. */
  lemma UnindexedPair(vs: seq<Vec2>, indices: seq<int>, k: int)
    requires IndicesFor(indices, |vs|) && 0 <= k < |indices|
    ensures Indexed(Flatten2(vs), 2, indices)
    ensures 2 * k + 1 < |Unindexed(Flatten2(vs), 2, indices, |indices|)|
    ensures At2(Unindexed(Flatten2(vs), 2, indices, |indices|), k) == vs[indices[k]]
  {
    assert (2 * |vs|) / 2 == |vs|;
    Unindexed2(Flatten2(vs), indices, k);
    Flatten2At(vs, indices[k], 0);
    Flatten2At(vs, indices[k], 1);
  }

  /** One triangle's three index entries append their three records. */
  lemma UnindexedTriangle(src: seq<real>, stride: int, indices: seq<int>, i: int)
    requires Indexed(src, stride, indices) && 0 <= i && i + 3 <= |indices|
    ensures Unindexed(src, stride, indices, i + 3) ==
      Unindexed(src, stride, indices, i) + Record(src, stride, indices[i]) +
      Record(src, stride, indices[i + 1]) + Record(src, stride, indices[i + 2])
  {
    assert Unindexed(src, stride, indices, i + 1) == Unindexed(src, stride, indices, i) + Record(src, stride, indices[i]);
    assert Unindexed(src, stride, indices, i + 2) == Unindexed(src, stride, indices, i + 1) + Record(src, stride, indices[i + 1]);
  }

  /** `unindex(src, stride)`: for each triangle, copy the records of its three corners. */
  method Unindex(src: seq<real>, stride: int, indices: seq<int>) returns (dst: seq<real>)
    requires Indexed(src, stride, indices)
    ensures dst == Unindexed(src, stride, indices, |indices|)
    ensures |dst| == |indices| * stride
  {
    dst := [];
    var i, n := 0, |indices|;
    ghost var count := n / 3;
    assert n == 3 * count;
    ghost var t := 0;  // triangles copied
    while i < n
      invariant 0 <= t <= count && i == 3 * t
      invariant dst == Unindexed(src, stride, indices, i)
    {
      UnindexedTriangle(src, stride, indices, i);
      var i1 := indices[i] * stride;
      var i2 := indices[i + 1] * stride;
      var i3 := indices[i + 2] * stride;
      dst := CopyRecord(src, stride, indices[i], i1, dst);
      dst := CopyRecord(src, stride, indices[i + 1], i2, dst);
      dst := CopyRecord(src, stride, indices[i + 2], i3, dst);
      i, t := i + 3, t + 1;
    }
    UnindexedLength(src, stride, indices, n);
  }

  /** `for (let j = 0; j < stride; j++) dst.push(src[start + j])`, `start` being record `v`. */
  method CopyRecord(src: seq<real>, stride: int, ghost v: int, start: int, dst0: seq<real>) returns (dst: seq<real>)
    requires stride >= 1 && 0 <= v < |src| / stride && start == v * stride
    ensures dst == dst0 + Record(src, stride, v)
  {
    RecordBound(|src|, stride, v);
    dst := dst0;
    var j := 0;
    while j < stride
      invariant 0 <= j <= stride
      invariant dst == dst0 + src[start..start + j]
    {
      assert src[start..start + j + 1] == src[start..start + j] + [src[start + j]];
      dst := dst + [src[start + j]];
      j := j + 1;
    }
  }
}

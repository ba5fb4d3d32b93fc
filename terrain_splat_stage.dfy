/**
 * The splat loop of `Rebuild` over every triangle: each corner's reply comes
 * from the splatter, given the corner's world-space point, its finished
 * normal and its up vector; the triangles' entries are appended to
 * `weights1` and `weights2` in triangle order. The first triangle that fails
 * aborts the whole build.
 */
module TerrainSplatStage {
  import opened Vectors
  import opened TerrainParams
  import opened TerrainNormals
  import opened TerrainSplat

  /** The three stride-3 vertex buffers the splat loop reads, and the index list. */
  predicate SplatInputs(ws: seq<real>, normals: seq<real>, up: seq<real>, indices: seq<int>) {
    |normals| == |ws| && |up| == |ws| && Mesh(ws, indices)
  }

  /** `GetSplat(_P, _N, _D)` for vertex `v`. */
  function CornerReply(ws: seq<real>, normals: seq<real>, up: seq<real>,
                       splat: (Vec3, Vec3, Vec3) -> SplatMap, v: int): SplatMap
    requires 0 <= v && 3 * v + 2 < |ws| && |normals| == |ws| && |up| == |ws|
  {
    splat(At3(ws, v), At3(normals, v), At3(up, v))
  }

  /** The replies at the corners of triangle `t`, in corner order. */
  function TriangleReplies(ws: seq<real>, normals: seq<real>, up: seq<real>,
                           splat: (Vec3, Vec3, Vec3) -> SplatMap, indices: seq<int>, t: int): (r: seq<SplatMap>)
    requires SplatInputs(ws, normals, up, indices) && 0 <= t < |indices| / 3
    ensures |r| == 3
  {
    [CornerReply(ws, normals, up, splat, indices[3 * t]),
     CornerReply(ws, normals, up, splat, indices[3 * t + 1]),
     CornerReply(ws, normals, up, splat, indices[3 * t + 2])]
  }

  /** What the splat loop makes of each triangle on its own, in triangle order. */
  function TriangleResults(ws: seq<real>, normals: seq<real>, up: seq<real>,
                           splat: (Vec3, Vec3, Vec3) -> SplatMap, indices: seq<int>): (r: seq<Result<Weights>>)
    requires SplatInputs(ws, normals, up, indices)
    ensures |r| == |indices| / 3
  {
    seq(|indices| / 3, t requires 0 <= t < |indices| / 3 =>
      TriangleWeights(TriangleReplies(ws, normals, up, splat, indices, t)))
  }

  /**
   * The weight buffers after the first `n` triangles: their entries one
   * triangle after another, or the error of the first triangle that fails.
   */
  function Concat(results: seq<Result<Weights>>, n: int): Result<Weights>
    requires 0 <= n <= |results|
  {
    if n == 0 then Success(Weights([], []))
    else
      match Concat(results, n - 1)
      case Failure(e) => Failure(e)
      case Success(w) =>
        match results[n - 1]
        case Failure(e) => Failure(e)
        case Success(tw) => Success(Weights(w.layers + tw.layers, w.weights + tw.weights))
  }

  /** Once a triangle has failed, later triangles do not change the outcome. */
  lemma {:induction false} FailureSticks(results: seq<Result<Weights>>, m: int, n: int)
    requires 0 <= m <= n <= |results| && Concat(results, m).Failure?
    ensures Concat(results, n) == Concat(results, m)
  {
    if n > m {
      FailureSticks(results, m, n - 1);
    }
  }

  /** One more triangle: its entries are appended, or its error ends the loop. */
  lemma ConcatStep(results: seq<Result<Weights>>, t: int, w: Weights, tw: Result<Weights>)
    requires 0 <= t < |results| && Concat(results, t) == Success(w) && results[t] == tw
    ensures tw.Success? ==> Concat(results, t + 1) == Success(Weights(w.layers + tw.value.layers, w.weights + tw.value.weights))
    ensures tw.Failure? ==> Concat(results, |results|) == tw
  {
    if tw.Failure? {
      FailureSticks(results, t + 1, |results|);
    }
  }

  /** All of the first `t` triangles succeed. */
  predicate AllSucceed(results: seq<Result<Weights>>, t: int)
    requires 0 <= t <= |results|
  {
    forall u :: 0 <= u < t ==> results[u].Success?
  }

  /**
   * The loop succeeds exactly when every triangle does; otherwise it fails
   * with the error of the first triangle that fails.
   */
  lemma {:induction false} ConcatOutcome(results: seq<Result<Weights>>, n: int)
    requires 0 <= n <= |results|
    ensures Concat(results, n).Success? <==> AllSucceed(results, n)
    ensures forall t :: 0 <= t < n && results[t].Failure? && AllSucceed(results, t) ==>
      Concat(results, n) == results[t]
  {
    if n > 0 {
      ConcatOutcome(results, n - 1);
      forall t | 0 <= t < n && results[t].Failure? && AllSucceed(results, t)
        ensures Concat(results, n) == results[t]
      {
        if t < n - 1 {
          FailureSticks(results, n - 1, n);
        }
      }
    }
  }

  /**
   * When each triangle's entries are twelve of each kind, triangle `t`'s
   * entries are 12t to 12t + 11 of the result.
   */
  lemma {:induction false} ConcatLayout(results: seq<Result<Weights>>, n: int)
    requires 0 <= n <= |results| && Concat(results, n).Success?
    requires forall t :: 0 <= t < n && results[t].Success? ==>
      |results[t].value.layers| == 12 && |results[t].value.weights| == 12
    ensures |Concat(results, n).value.layers| == 12 * n && |Concat(results, n).value.weights| == 12 * n
    ensures AllSucceed(results, n)
    ensures forall t :: 0 <= t < n ==>
      Concat(results, n).value.layers[12 * t..12 * t + 12] == results[t].value.layers &&
      Concat(results, n).value.weights[12 * t..12 * t + 12] == results[t].value.weights
  {
    if n > 0 {
      ConcatLayout(results, n - 1);
      var prev := Concat(results, n - 1).value;
      var w := Concat(results, n).value;
      assert w.layers == prev.layers + results[n - 1].value.layers;
      assert w.weights == prev.weights + results[n - 1].value.weights;
      forall t | 0 <= t < n - 1
        ensures w.layers[12 * t..12 * t + 12] == prev.layers[12 * t..12 * t + 12]
        ensures w.weights[12 * t..12 * t + 12] == prev.weights[12 * t..12 * t + 12]
      {
      }
    }
  }

  /**
   * The splat loop's outcome: `weights1` and `weights2` hold every
   * triangle's twelve entries in triangle order, or the build fails with the
   * first failing triangle's error. A triangle fails when one of its
   * corners' replies lacks one of the first corner's layer keys, or the
   * first corner has fewer than four layers.
   */
  lemma SplatWeightsOutcome(ws: seq<real>, normals: seq<real>, up: seq<real>,
                            splat: (Vec3, Vec3, Vec3) -> SplatMap, indices: seq<int>)
    requires SplatInputs(ws, normals, up, indices)
    ensures var results := TriangleResults(ws, normals, up, splat, indices);
      var n := |indices| / 3;
      Concat(results, n).Success? ==>
        AllSucceed(results, n) &&
        |Concat(results, n).value.layers| == 12 * n && |Concat(results, n).value.weights| == 12 * n &&
        forall t :: 0 <= t < n ==>
          Concat(results, n).value.layers[12 * t..12 * t + 12] == results[t].value.layers &&
          Concat(results, n).value.weights[12 * t..12 * t + 12] == results[t].value.weights
    ensures var results := TriangleResults(ws, normals, up, splat, indices);
      var n := |indices| / 3;
      Concat(results, n).Success? <==> AllSucceed(results, n)
  {
    var results := TriangleResults(ws, normals, up, splat, indices);
    var n := |indices| / 3;
    forall t | 0 <= t < n && results[t].Success?
      ensures |results[t].value.layers| == 12 && |results[t].value.weights| == 12
    {
      TriangleFailure(TriangleReplies(ws, normals, up, splat, indices, t));
    }
    ConcatOutcome(results, n);
    if Concat(results, n).Success? {
      ConcatLayout(results, n);
    }
  }

  /**
   * `BuildSplatWeights`: the splat loop, `i` stepping by three through the
   * index list.
   */
  method BuildSplatWeights(ws: seq<real>, normals: seq<real>, up: seq<real>,
                           splat: (Vec3, Vec3, Vec3) -> SplatMap, indices: seq<int>)
    returns (r: Result<Weights>)
    requires SplatInputs(ws, normals, up, indices)
    ensures r == Concat(TriangleResults(ws, normals, up, splat, indices), |indices| / 3)
  {
    r := SplatLoop(ws, normals, up, splat, indices, TriangleResults(ws, normals, up, splat, indices));
  }

  /**
   * The loop itself, against the triangles' outcomes `results`; a triangle's
   * outcome is looked up only where the loop computes it, which keeps the
   * proof about the loop independent of how one triangle is computed.
   */
  method SplatLoop(ws: seq<real>, normals: seq<real>, up: seq<real>,
                   splat: (Vec3, Vec3, Vec3) -> SplatMap, indices: seq<int>, ghost results: seq<Result<Weights>>)
    returns (r: Result<Weights>)
    requires SplatInputs(ws, normals, up, indices) && |indices| == 3 * |results|
    requires forall t {:trigger TriangleReplies(ws, normals, up, splat, indices, t)} :: 0 <= t < |results| ==>
      results[t] == TriangleWeights(TriangleReplies(ws, normals, up, splat, indices, t))
    ensures r == Concat(results, |results|)
  {
    var weights1: seq<int> := [];
    var weights2: seq<real> := [];
    var i, n := 0, |indices|;
    ghost var t := 0;  // triangles done
    while i < n
      invariant 0 <= t <= |results| && i == 3 * t
      invariant Concat(results, t) == Success(Weights(weights1, weights2))
    {
      var tw := SplatTriangle(ws, normals, up, splat, indices, i, t);
      ConcatStep(results, t, Weights(weights1, weights2), tw);
      if tw.Failure? {
        return tw;
      }
      weights1 := weights1 + tw.value.layers;
      weights2 := weights2 + tw.value.weights;
      i, t := i + 3, t + 1;
    }
    return Success(Weights(weights1, weights2));
  }

  /** One iteration of the splat loop: triangle `t`, whose corners start at entry `i`. */
  method SplatTriangle(ws: seq<real>, normals: seq<real>, up: seq<real>,
                       splat: (Vec3, Vec3, Vec3) -> SplatMap, indices: seq<int>, i: int, ghost t: int)
    returns (tw: Result<Weights>)
    requires SplatInputs(ws, normals, up, indices) && 0 <= t < |indices| / 3 && i == 3 * t
    ensures tw == TriangleWeights(TriangleReplies(ws, normals, up, splat, indices, t))
  {
    var splats := GatherReplies(ws, normals, up, splat, indices, i, t);
    tw := TriangleSplatWeights(splats);
  }

  /** The inner loop over the triangle's corners `j = 0, 1, 2`: one splat reply each. */
  method GatherReplies(ws: seq<real>, normals: seq<real>, up: seq<real>,
                       splat: (Vec3, Vec3, Vec3) -> SplatMap, indices: seq<int>, i: int, ghost t: int)
    returns (splats: seq<SplatMap>)
    requires SplatInputs(ws, normals, up, indices) && 0 <= t < |indices| / 3 && i == 3 * t
    ensures splats == TriangleReplies(ws, normals, up, splat, indices, t)
  {
    var idxs := [indices[i] * 3, indices[i + 1] * 3, indices[i + 2] * 3];
    ghost var target := TriangleReplies(ws, normals, up, splat, indices, t);
    splats := [];
    var j := 0;
    while j < 3
      invariant 0 <= j <= 3
      invariant splats == target[..j]
    {
      var j1 := idxs[j];
      assert j1 == 3 * indices[i + j];
      var p := Vec3(ws[j1], ws[j1 + 1], ws[j1 + 2]);
      var nv := Vec3(normals[j1], normals[j1 + 1], normals[j1 + 2]);
      var d := Vec3(up[j1], up[j1 + 1], up[j1 + 2]);
      splats := splats + [splat(p, nv, d)];
      j := j + 1;
    }
    assert target[..3] == target;
  }
}

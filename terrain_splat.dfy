/**
 * Texture-splat weights of one triangle (`Rebuild`, the "Splat weights"
 * loop): ask the splatter for the layers at each of the three corners, add
 * every layer's strength over the corners, pick the four strongest layers by
 * a stable descending sort, and renormalise each corner's strengths of those
 * four layers to sum to one.
 */
module TerrainSplat {
  import opened Numerics
  import opened TerrainParams

  // ------------------------------------------------------------ splat replies

  predicate HasKeys(m: SplatMap, keys: seq<string>) {
    forall i :: 0 <= i < |keys| ==> keys[i] in m.layers
  }

  predicate AllHaveKeys(splats: seq<SplatMap>, keys: seq<string>) {
    forall j :: 0 <= j < |splats| ==> HasKeys(splats[j], keys)
  }

  /** `m[key].strength`, for a key the reply holds. */
  function Strength(m: SplatMap, key: string): real {
    if key in m.layers then m.layers[key].strength else 0.0
  }

  /** `m[key].index`, for a key the reply holds. */
  function LayerIndex(m: SplatMap, key: string): int {
    if key in m.layers then m.layers[key].index else 0
  }

  // ------------------------------------------------------------ accumulation

  /** One value of `accum`: a layer key and its strength summed over corners. */
  datatype Accum = Accum(key: string, strength: real)

  /** `accum[key].strength` after the first `n` replies have been added. */
  function StrengthSum(splats: seq<SplatMap>, key: string, n: int): real
    requires 0 <= n <= |splats|
  {
    if n == 0 then 0.0 else StrengthSum(splats, key, n - 1) + Strength(splats[n - 1], key)
  }

  /**
   * The accumulation step: one entry per key of the first reply, in key
   * order, holding the key's strength summed over all replies; it fails when
   * some reply lacks one of those keys.
   */
  function Combined(splats: seq<SplatMap>): Result<seq<Accum>>
    requires |splats| >= 1
  {
    var keys := splats[0].keys;
    if AllHaveKeys(splats, keys) then
      Success(seq(|keys|, i requires 0 <= i < |keys| => Accum(keys[i], StrengthSum(splats, keys[i], |splats|))))
    else
      Failure(SplatKeyMissing)
  }

  /**
   * `CombineStrengths`: `accum[k] = {key: k, strength: 0.0}` for every key of
   * the first reply, then `accum[k].strength += s[k].strength` for every
   * reply `s` and key `k`, failing at the first key a reply does not hold.
   */
  method CombineStrengths(splats: seq<SplatMap>) returns (r: Result<seq<Accum>>)
    requires |splats| >= 1
    ensures r == Combined(splats)
  {
    var keys := splats[0].keys;
    var accum := seq(|keys|, i requires 0 <= i < |keys| => Accum(keys[i], 0.0));
    var j := 0;
    while j < |splats|
      invariant 0 <= j <= |splats|
      invariant AllHaveKeys(splats[..j], keys)
      invariant |accum| == |keys|
      invariant forall i :: 0 <= i < |keys| ==> accum[i] == Accum(keys[i], StrengthSum(splats, keys[i], j))
    {
      var found;
      accum, found := AddReply(splats, j, keys, accum);
      if !found {
        return Failure(SplatKeyMissing);
      }
      assert splats[..j + 1] == splats[..j] + [splats[j]];
      j := j + 1;
    }
    assert splats[..j] == splats;
    assert accum == seq(|keys|, i requires 0 <= i < |keys| => Accum(keys[i], StrengthSum(splats, keys[i], |splats|)));
    return Success(accum);
  }

  /**
   * The inner loop of the accumulation: add reply `j`'s strength of every
   * key, or report that the reply lacks one of the keys.
   */
  method AddReply(splats: seq<SplatMap>, j: int, keys: seq<string>, accum0: seq<Accum>)
    returns (accum: seq<Accum>, found: bool)
    requires 0 <= j < |splats| && |accum0| == |keys|
    requires forall i :: 0 <= i < |keys| ==> accum0[i] == Accum(keys[i], StrengthSum(splats, keys[i], j))
    ensures found <==> HasKeys(splats[j], keys)
    ensures found ==> |accum| == |keys|
    ensures found ==> forall i :: 0 <= i < |keys| ==> accum[i] == Accum(keys[i], StrengthSum(splats, keys[i], j + 1))
  {
    var s := splats[j];
    accum := accum0;
    var k := 0;
    while k < |keys|
      invariant 0 <= k <= |keys|
      invariant forall i :: 0 <= i < k ==> keys[i] in s.layers
      invariant |accum| == |keys|
      invariant forall i :: 0 <= i < k ==> accum[i] == Accum(keys[i], StrengthSum(splats, keys[i], j + 1))
      invariant forall i :: k <= i < |keys| ==> accum[i] == accum0[i]
    {
      if keys[k] !in s.layers {
        return accum, false;
      }
      accum := accum[k := Accum(keys[k], accum[k].strength + s.layers[keys[k]].strength)];
      k := k + 1;
    }
    return accum, true;
  }

  // ------------------------------------------------------------ stable sort

  /** `sort((a, b) => b.strength - a.strength)`: strongest first. */
  predicate SortedByStrength(xs: seq<Accum>) {
    forall i, j :: 0 <= i < j < |xs| ==> xs[i].strength >= xs[j].strength
  }

  /** Insert `x` in front of the first entry that is not stronger than it. */
  function Insert(x: Accum, xs: seq<Accum>): (r: seq<Accum>)
    ensures |r| == |xs| + 1
  {
    if |xs| == 0 then [x]
    else if xs[0].strength <= x.strength then [x] + xs
    else [xs[0]] + Insert(x, xs[1..])
  }

  /**
   * JavaScript's `Array.prototype.sort` is stable, so with this comparator
   * it orders by descending strength and keeps entries of equal strength in
   * their original order; insertion sort computes exactly that order.
   */
  function SortByStrength(xs: seq<Accum>): (r: seq<Accum>)
    ensures |r| == |xs|
  {
    if |xs| == 0 then [] else Insert(xs[0], SortByStrength(xs[1..]))
  }

  /** The entries of `xs` whose strength is `c`, in order. */
  function WithStrength(xs: seq<Accum>, c: real): seq<Accum> {
    if |xs| == 0 then []
    else (if xs[0].strength == c then [xs[0]] else []) + WithStrength(xs[1..], c)
  }

  lemma {:induction false} InsertPermutes(x: Accum, xs: seq<Accum>)
    ensures multiset(Insert(x, xs)) == multiset(xs) + multiset{x}
  {
    if |xs| > 0 && xs[0].strength > x.strength {
      InsertPermutes(x, xs[1..]);
      assert xs == [xs[0]] + xs[1..];
    }
  }

  lemma {:induction false} InsertSorted(x: Accum, xs: seq<Accum>)
    requires SortedByStrength(xs)
    ensures SortedByStrength(Insert(x, xs))
  {
    if |xs| > 0 && xs[0].strength > x.strength {
      InsertSorted(x, xs[1..]);
      InsertPermutes(x, xs[1..]);
      var r := Insert(x, xs[1..]);
      forall k | 0 <= k < |r| ensures r[k].strength <= xs[0].strength {
        assert r[k] in multiset(r);
        if r[k] != x {
          assert r[k] in multiset(xs[1..]);
          var i :| 0 <= i < |xs[1..]| && xs[1..][i] == r[k];
          assert xs[i + 1] == r[k];
        }
      }
    }
  }

  /** Sorting puts the strongest entries first and keeps every entry. */
  lemma {:induction false} SortSorted(xs: seq<Accum>)
    ensures SortedByStrength(SortByStrength(xs))
    ensures multiset(SortByStrength(xs)) == multiset(xs)
  {
    if |xs| > 0 {
      SortSorted(xs[1..]);
      InsertSorted(xs[0], SortByStrength(xs[1..]));
      InsertPermutes(xs[0], SortByStrength(xs[1..]));
      assert xs == [xs[0]] + xs[1..];
    }
  }

  lemma {:induction false} InsertStable(x: Accum, xs: seq<Accum>, c: real)
    ensures WithStrength(Insert(x, xs), c) == (if x.strength == c then [x] else []) + WithStrength(xs, c)
  {
    if |xs| == 0 {
    } else if xs[0].strength <= x.strength {
      assert ([x] + xs)[1..] == xs;
    } else {
      InsertStable(x, xs[1..], c);
      assert ([xs[0]] + Insert(x, xs[1..]))[1..] == Insert(x, xs[1..]);
    }
  }

  /** Stability: entries of equal strength keep their relative order. */
  lemma {:induction false} SortStable(xs: seq<Accum>, c: real)
    ensures WithStrength(SortByStrength(xs), c) == WithStrength(xs, c)
  {
    if |xs| > 0 {
      SortStable(xs[1..], c);
      InsertStable(xs[0], SortByStrength(xs[1..]), c);
    }
  }

  // ------------------------------------------------------------ one triangle

  /** The keys of the four strongest layers, `typeValues[0..3].key`. */
  function TopKeys(sorted: seq<Accum>): (r: seq<string>)
    requires |sorted| >= 4
    ensures |r| == 4
  {
    [sorted[0].key, sorted[1].key, sorted[2].key, sorted[3].key]
  }

  /** A corner's strengths of the four selected layers, added in order 0..3. */
  function Total(m: SplatMap, top: seq<string>): real
    requires |top| == 4
  {
    Strength(m, top[0]) + Strength(m, top[1]) + Strength(m, top[2]) + Strength(m, top[3])
  }

  /** `1.0 / Math.max(total, 1e-6)`: the factor that renormalises a total, never dividing by zero. */
  function SafeInverse(total: real): real {
    1.0 / MaxReal(total, 0.000001)
  }

  /** What `weights1` gets for one corner: the layer indices of the selected layers, 3 down to 0. */
  function CornerLayers(m: SplatMap, top: seq<string>): (r: seq<int>)
    requires |top| == 4
    ensures |r| == 4
  {
    [LayerIndex(m, top[3]), LayerIndex(m, top[2]), LayerIndex(m, top[1]), LayerIndex(m, top[0])]
  }

  /** What `weights2` gets for one corner: the renormalised strengths, 3 down to 0. */
  function CornerWeights(m: SplatMap, top: seq<string>): (r: seq<real>)
    requires |top| == 4
    ensures |r| == 4
  {
    Renormalised(Strength(m, top[0]), Strength(m, top[1]), Strength(m, top[2]), Strength(m, top[3]))
  }

  /** Four strengths, each times the inverse of their total, last one first. */
  function Renormalised(s0: real, s1: real, s2: real, s3: real): (r: seq<real>)
    ensures |r| == 4
  {
    var inv := SafeInverse(s0 + s1 + s2 + s3);
    [s3 * inv, s2 * inv, s1 * inv, s0 * inv]
  }

  /** The per-corner layer indices (`weights1`) and blend weights (`weights2`). */
  datatype Weights = Weights(layers: seq<int>, weights: seq<real>)

  /** The twelve `weights1` and twelve `weights2` entries of a triangle, or why it fails. */
  function TriangleWeights(splats: seq<SplatMap>): Result<Weights>
    requires |splats| == 3
  {
    match Combined(splats)
    case Failure(e) => Failure(e)
    case Success(accum) =>
      var typeValues := SortByStrength(accum);
      if |typeValues| < 4 then Failure(TooFewSplatLayers)
      else
        var top := TopKeys(typeValues);
        Success(Weights(
          CornerLayers(splats[0], top) + CornerLayers(splats[1], top) + CornerLayers(splats[2], top),
          CornerWeights(splats[0], top) + CornerWeights(splats[1], top) + CornerWeights(splats[2], top)))
  }

  /**
   * `TriangleSplatWeights`: the body of the splat loop for one triangle,
   * given the three replies. The renormalised strengths are kept in a table
   * instead of being written back into the replies.
   */
  method TriangleSplatWeights(splats: seq<SplatMap>) returns (r: Result<Weights>)
    requires |splats| == 3
    ensures r == TriangleWeights(splats)
  {
    var combined := CombineStrengths(splats);
    if combined.Failure? {
      return Failure(combined.error);
    }
    var typeValues := SortByStrength(combined.value);
    if |typeValues| < 4 {
      return Failure(TooFewSplatLayers);
    }
    var top := TopKeys(typeValues);
    var normalised := NormaliseCorners(splats, top);
    var weights1, weights2 := PushCorners(splats, top, normalised);
    CornerTables(splats, top);
    return Success(Weights(weights1, weights2));
  }

  /** The per-vertex normalisation loop, over the triangle's three corners. */
  method NormaliseCorners(splats: seq<SplatMap>, top: seq<string>) returns (normalised: seq<seq<real>>)
    requires |splats| == 3 && |top| == 4
    ensures |normalised| == 3
    ensures forall q :: 0 <= q < 3 ==> normalised[q] == NormalisedStrengths(splats[q], top)
  {
    normalised := [];
    var s := 0;
    while s < 3
      invariant 0 <= s <= 3 && |normalised| == s
      invariant forall q :: 0 <= q < s ==> normalised[q] == NormalisedStrengths(splats[q], top)
    {
      var row := NormaliseCorner(splats[s], top);
      normalised := normalised + [row];
      s := s + 1;
    }
  }

  /** Push four layer indices and four weights per corner, each from layer 3 down to layer 0. */
  method PushCorners(splats: seq<SplatMap>, top: seq<string>, normalised: seq<seq<real>>)
    returns (weights1: seq<int>, weights2: seq<real>)
    requires |splats| == 3 && |top| == 4 && |normalised| == 3
    requires forall q :: 0 <= q < 3 ==> normalised[q] == NormalisedStrengths(splats[q], top)
    ensures weights1 == Layers3(splats, top, 3)
    ensures weights2 == Weights3(splats, top, 3)
  {
    weights1 := [];
    weights2 := [];
    var s := 0;
    while s < 3
      invariant 0 <= s <= 3
      invariant weights1 == Layers3(splats, top, s)
      invariant weights2 == Weights3(splats, top, s)
    {
      NormalisedReversed(splats[s], top, normalised[s]);
      weights1 := weights1 + [LayerIndex(splats[s], top[3]), LayerIndex(splats[s], top[2]),
                              LayerIndex(splats[s], top[1]), LayerIndex(splats[s], top[0])];
      weights2 := weights2 + [normalised[s][3], normalised[s][2], normalised[s][1], normalised[s][0]];
      s := s + 1;
    }
  }

  /** Three corners' worth of entries, in corner order. */
  lemma CornerTables(splats: seq<SplatMap>, top: seq<string>)
    requires |splats| == 3 && |top| == 4
    ensures Layers3(splats, top, 3) == CornerLayers(splats[0], top) + CornerLayers(splats[1], top) + CornerLayers(splats[2], top)
    ensures Weights3(splats, top, 3) == CornerWeights(splats[0], top) + CornerWeights(splats[1], top) + CornerWeights(splats[2], top)
  {
    assert Layers3(splats, top, 1) == CornerLayers(splats[0], top);
    assert Weights3(splats, top, 1) == CornerWeights(splats[0], top);
  }

  /** A corner's strengths of the four selected layers, scaled by the inverse of their total, first one first. */
  function NormalisedStrengths(m: SplatMap, top: seq<string>): (r: seq<real>)
    requires |top| == 4
    ensures |r| == 4
  {
    Scaled(Strength(m, top[0]), Strength(m, top[1]), Strength(m, top[2]), Strength(m, top[3]))
  }

  /** Four strengths, each times the inverse of their total. */
  function Scaled(s0: real, s1: real, s2: real, s3: real): (r: seq<real>)
    ensures |r| == 4
  {
    var inv := SafeInverse(s0 + s1 + s2 + s3);
    [s0 * inv, s1 * inv, s2 * inv, s3 * inv]
  }

  /**
   * One pass of the per-vertex normalisation: sum the corner's strengths of
   * the four selected layers and scale each by the inverse of that total.
   */
  method NormaliseCorner(m: SplatMap, top: seq<string>) returns (row: seq<real>)
    requires |top| == 4
    ensures row == NormalisedStrengths(m, top)
  {
    var total := Strength(m, top[0]) + Strength(m, top[1]) + Strength(m, top[2]) + Strength(m, top[3]);
    var inv := SafeInverse(total);
    ghost var target := NormalisedStrengths(m, top);
    row := [];
    var t := 0;
    while t < 4
      invariant 0 <= t <= 4
      invariant row == target[..t]
    {
      row := row + [Strength(m, top[t]) * inv];
      t := t + 1;
    }
    assert target[..4] == target;
  }

  /** Pushing a normalised row from its last entry to its first gives the corner's weights. */
  lemma NormalisedReversed(m: SplatMap, top: seq<string>, row: seq<real>)
    requires |top| == 4 && row == NormalisedStrengths(m, top)
    ensures [row[3], row[2], row[1], row[0]] == CornerWeights(m, top)
  {
    ScaledReversed(Strength(m, top[0]), Strength(m, top[1]), Strength(m, top[2]), Strength(m, top[3]));
  }

  lemma ScaledReversed(s0: real, s1: real, s2: real, s3: real)
    ensures var row := Scaled(s0, s1, s2, s3); [row[3], row[2], row[1], row[0]] == Renormalised(s0, s1, s2, s3)
  {
  }

  /** The `weights1` entries of the first `n` corners. */
  function Layers3(splats: seq<SplatMap>, top: seq<string>, n: int): seq<int>
    requires 0 <= n <= |splats| && |top| == 4
  {
    if n == 0 then [] else Layers3(splats, top, n - 1) + CornerLayers(splats[n - 1], top)
  }

  /** The `weights2` entries of the first `n` corners. */
  function Weights3(splats: seq<SplatMap>, top: seq<string>, n: int): seq<real>
    requires 0 <= n <= |splats| && |top| == 4
  {
    if n == 0 then [] else Weights3(splats, top, n - 1) + CornerWeights(splats[n - 1], top)
  }

  // ------------------------------------------------------------ properties

  /** The accumulated layers of a triangle ranked strongest first, when every reply holds every key. */
  function Ranked(splats: seq<SplatMap>): (r: seq<Accum>)
    requires |splats| >= 1 && Combined(splats).Success?
    ensures |r| == |splats[0].keys|
  {
    SortByStrength(Combined(splats).value)
  }

  /**
   * A triangle fails exactly when one of its replies lacks a layer key of
   * the first reply, or when the first reply has fewer than four layers.
   */
  lemma TriangleFailure(splats: seq<SplatMap>)
    requires |splats| == 3
    ensures TriangleWeights(splats) == Failure(SplatKeyMissing) <==> !AllHaveKeys(splats, splats[0].keys)
    ensures TriangleWeights(splats) == Failure(TooFewSplatLayers) <==>
      AllHaveKeys(splats, splats[0].keys) && |splats[0].keys| < 4
    ensures TriangleWeights(splats).Success? <==> AllHaveKeys(splats, splats[0].keys) && |splats[0].keys| >= 4
    ensures TriangleWeights(splats).Success? ==>
      |TriangleWeights(splats).value.layers| == 12 && |TriangleWeights(splats).value.weights| == 12
  {
  }

  /** No two entries of a sequence are equal. */
  ghost predicate Distinct<T>(xs: seq<T>) {
    forall i, j :: 0 <= i < j < |xs| ==> xs[i] != xs[j]
  }

  lemma {:induction false} DistinctCount<T>(xs: seq<T>, x: T)
    requires Distinct(xs)
    ensures multiset(xs)[x] <= 1
  {
    if |xs| > 0 {
      assert xs == [xs[0]] + xs[1..];
      DistinctCount(xs[1..], x);
      if xs[0] == x {
        assert x !in xs[1..];
      }
    }
  }

  /** A rearrangement of a sequence without repeats has no repeats either. */
  lemma PermutationDistinct<T>(xs: seq<T>, ys: seq<T>)
    requires Distinct(xs) && multiset(xs) == multiset(ys)
    ensures Distinct(ys)
  {
    forall i, j | 0 <= i < j < |ys| ensures ys[i] != ys[j] {
      if ys[i] == ys[j] {
        var x := ys[i];
        assert ys == ys[..i] + [x] + ys[i + 1..j] + [x] + ys[j + 1..];
        assert multiset(ys)[x] >= 2;
        DistinctCount(xs, x);
        assert false;
      }
    }
  }

  /** The accumulated entries carry the first reply's keys, all different. */
  lemma CombinedEntries(splats: seq<SplatMap>)
    requires |splats| >= 1 && Combined(splats).Success?
    ensures Distinct(Combined(splats).value)
    ensures forall i :: 0 <= i < |splats[0].keys| ==>
      Combined(splats).value[i] == Accum(splats[0].keys[i], StrengthSum(splats, splats[0].keys[i], |splats|))
  {
    var accum := Combined(splats).value;
    forall i, j | 0 <= i < j < |accum| ensures accum[i] != accum[j] {
      assert accum[i].key == splats[0].keys[i];
    }
  }

  /** Every ranked entry is a key of the first reply with its summed strength. */
  lemma RankedEntry(splats: seq<SplatMap>, q: int)
    requires |splats| >= 1 && Combined(splats).Success? && 0 <= q < |Ranked(splats)|
    ensures Ranked(splats)[q].key in splats[0].keys
    ensures Ranked(splats)[q].strength == StrengthSum(splats, Ranked(splats)[q].key, |splats|)
  {
    var i := SortedIndex(Combined(splats).value, Ranked(splats)[q]);
    assert Combined(splats).value[i].key == splats[0].keys[i];
  }

  /** Sorting keeps only entries it was given: the index of one in the input. */
  lemma SortedIndex(xs: seq<Accum>, e: Accum) returns (i: int)
    requires e in SortByStrength(xs)
    ensures 0 <= i < |xs| && xs[i] == e
  {
    SortSorted(xs);
    assert e in multiset(SortByStrength(xs));
    assert e in xs;
    i :| 0 <= i < |xs| && xs[i] == e;
  }

  /** Every key of the first reply has its entry somewhere in the ranking. */
  lemma KeyRanked(splats: seq<SplatMap>, i: int) returns (q: int)
    requires |splats| >= 1 && Combined(splats).Success? && 0 <= i < |splats[0].keys|
    ensures 0 <= q < |Ranked(splats)|
    ensures Ranked(splats)[q] == Accum(splats[0].keys[i], StrengthSum(splats, splats[0].keys[i], |splats|))
  {
    var accum := Combined(splats).value;
    SortSorted(accum);
    CombinedEntries(splats);
    assert accum[i] in multiset(accum);
    assert accum[i] in multiset(Ranked(splats));
    q :| 0 <= q < |Ranked(splats)| && Ranked(splats)[q] == accum[i];
  }

  /** The keys of the four layers a successful triangle blends. */
  function Selected(splats: seq<SplatMap>): (r: seq<string>)
    requires |splats| == 3 && TriangleWeights(splats).Success?
    ensures |r| == 4
  {
    TopKeys(Ranked(splats))
  }

  /**
   * The four selected layers are four different keys of the first reply,
   * held by every reply, in order of decreasing summed strength, and no
   * other key of the first reply has a greater summed strength than the
   * last of them.
   */
  lemma SelectedLayersStrongest(splats: seq<SplatMap>)
    requires |splats| == 3 && TriangleWeights(splats).Success?
    ensures Distinct(Selected(splats))
    ensures forall t :: 0 <= t < 4 ==> Selected(splats)[t] in splats[0].keys
    ensures forall t, q :: 0 <= t < 4 && 0 <= q < 3 ==> Selected(splats)[t] in splats[q].layers
    ensures forall t :: 0 <= t < 3 ==>
      StrengthSum(splats, Selected(splats)[t], 3) >= StrengthSum(splats, Selected(splats)[t + 1], 3)
    ensures forall k :: k in splats[0].keys && k !in Selected(splats) ==>
      StrengthSum(splats, k, 3) <= StrengthSum(splats, Selected(splats)[3], 3)
  {
    SelectedDistinct(splats);
    forall t | 0 <= t < 4 ensures Selected(splats)[t] in splats[0].keys {
      RankedEntry(splats, t);
    }
    forall t, q | 0 <= t < 4 && 0 <= q < 3 ensures Selected(splats)[t] in splats[q].layers {
      SelectedHeld(splats, t, q);
    }
    forall t | 0 <= t < 3
      ensures StrengthSum(splats, Selected(splats)[t], 3) >= StrengthSum(splats, Selected(splats)[t + 1], 3)
    {
      SelectedOrdered(splats, t);
    }
    forall k | k in splats[0].keys && k !in Selected(splats)
      ensures StrengthSum(splats, k, 3) <= StrengthSum(splats, Selected(splats)[3], 3)
    {
      OthersWeaker(splats, k);
    }
  }

  lemma SelectedDistinct(splats: seq<SplatMap>)
    requires |splats| == 3 && TriangleWeights(splats).Success?
    ensures Distinct(Selected(splats))
  {
    var accum := Combined(splats).value;
    var ranked := Ranked(splats);
    SortSorted(accum);
    CombinedEntries(splats);
    PermutationDistinct(accum, ranked);
    forall t, u | 0 <= t < u < 4 ensures Selected(splats)[t] != Selected(splats)[u] {
      RankedEntry(splats, t);
      RankedEntry(splats, u);
      assert ranked[t] != ranked[u];
    }
  }

  lemma SelectedHeld(splats: seq<SplatMap>, t: int, q: int)
    requires |splats| == 3 && TriangleWeights(splats).Success?
    requires 0 <= t < 4 && 0 <= q < 3
    ensures Selected(splats)[t] in splats[q].layers
  {
    RankedEntry(splats, t);
    var keys := splats[0].keys;
    var i :| 0 <= i < |keys| && keys[i] == Selected(splats)[t];
    assert HasKeys(splats[q], keys);
  }

  lemma SelectedOrdered(splats: seq<SplatMap>, t: int)
    requires |splats| == 3 && TriangleWeights(splats).Success? && 0 <= t < 3
    ensures StrengthSum(splats, Selected(splats)[t], 3) >= StrengthSum(splats, Selected(splats)[t + 1], 3)
  {
    SortSorted(Combined(splats).value);
    RankedEntry(splats, t);
    RankedEntry(splats, t + 1);
  }

  lemma OthersWeaker(splats: seq<SplatMap>, k: string)
    requires |splats| == 3 && TriangleWeights(splats).Success?
    requires k in splats[0].keys && k !in Selected(splats)
    ensures StrengthSum(splats, k, 3) <= StrengthSum(splats, Selected(splats)[3], 3)
  {
    var keys := splats[0].keys;
    var ranked := Ranked(splats);
    var i :| 0 <= i < |keys| && keys[i] == k;
    var q := KeyRanked(splats, i);
    SortSorted(Combined(splats).value);
    RankedEntry(splats, 3);
    assert ranked[3].strength >= ranked[q].strength;
  }

  /** The sum of a corner's four weights. */
  function WeightSum(w: seq<real>): real
    requires |w| == 4
  {
    w[0] + w[1] + w[2] + w[3]
  }

  /**
   * Renormalised strengths add up to one, unless their total is below
   * 1e-6; then they add up to the total times 1e6.
   */
  lemma RenormalisedSum(s0: real, s1: real, s2: real, s3: real)
    ensures var total := s0 + s1 + s2 + s3;
      (total >= 0.000001 ==> WeightSum(Renormalised(s0, s1, s2, s3)) == 1.0) &&
      (total < 0.000001 ==> WeightSum(Renormalised(s0, s1, s2, s3)) == total * 1000000.0)
  {
    var total := s0 + s1 + s2 + s3;
    var inv := SafeInverse(total);
    assert WeightSum(Renormalised(s0, s1, s2, s3)) == total * inv;
    if total >= 0.000001 {
      assert inv == 1.0 / total;
    }
  }

  /** Non-negative strengths with a total of at least 1e-6 renormalise into [0, 1]. */
  lemma RenormalisedBounded(s0: real, s1: real, s2: real, s3: real)
    requires s0 >= 0.0 && s1 >= 0.0 && s2 >= 0.0 && s3 >= 0.0
    requires s0 + s1 + s2 + s3 >= 0.000001
    ensures forall t :: 0 <= t < 4 ==> 0.0 <= Renormalised(s0, s1, s2, s3)[t] <= 1.0
  {
    var total := s0 + s1 + s2 + s3;
    var inv := SafeInverse(total);
    ScaledFraction(s0, total, inv);
    ScaledFraction(s1, total, inv);
    ScaledFraction(s2, total, inv);
    ScaledFraction(s3, total, inv);
  }

  lemma ScaledFraction(x: real, total: real, inv: real)
    requires 0.0 <= x <= total && total >= 0.000001 && inv == SafeInverse(total)
    ensures 0.0 <= x * inv <= 1.0
  {
    assert inv == 1.0 / total;
    assert x * inv == x / total;
  }

  /**
   * A corner's weights are its strengths of the selected layers scaled to
   * add up to one (when they add up to at least 1e-6), each in [0, 1] when
   * the strengths are non-negative.
   */
  lemma CornerWeightsNormalised(m: SplatMap, top: seq<string>)
    requires |top| == 4
    ensures Total(m, top) >= 0.000001 ==> WeightSum(CornerWeights(m, top)) == 1.0
    ensures Total(m, top) < 0.000001 ==> WeightSum(CornerWeights(m, top)) == Total(m, top) * 1000000.0
    ensures Total(m, top) >= 0.000001 && (forall t :: 0 <= t < 4 ==> Strength(m, top[t]) >= 0.0) ==>
      forall t :: 0 <= t < 4 ==> 0.0 <= CornerWeights(m, top)[t] <= 1.0
  {
    var s0, s1, s2, s3 := Strength(m, top[0]), Strength(m, top[1]), Strength(m, top[2]), Strength(m, top[3]);
    RenormalisedSum(s0, s1, s2, s3);
    if Total(m, top) >= 0.000001 && (forall t :: 0 <= t < 4 ==> Strength(m, top[t]) >= 0.0) {
      assert s0 >= 0.0 && s1 >= 0.0 && s2 >= 0.0 && s3 >= 0.0;
      RenormalisedBounded(s0, s1, s2, s3);
    }
  }

  /**
   * The three corners of a triangle name the same four layers, so when the
   * splatter gives a layer key the same texture index everywhere, their
   * `weights1` entries agree.
   */
  lemma CornersShareLayers(splats: seq<SplatMap>)
    requires |splats| == 3 && TriangleWeights(splats).Success?
    requires forall q, q', k :: 0 <= q < 3 && 0 <= q' < 3 && k in splats[q].layers && k in splats[q'].layers ==>
      splats[q].layers[k].index == splats[q'].layers[k].index
    ensures var w := TriangleWeights(splats).value.layers;
      w[0..4] == w[4..8] == w[8..12]
  {
    var top := Selected(splats);
    forall t, q | 0 <= t < 4 && 0 <= q < 3 ensures top[t] in splats[q].layers {
      SelectedHeld(splats, t, q);
    }
    assert CornerLayers(splats[0], top) == CornerLayers(splats[1], top) == CornerLayers(splats[2], top);
    var w := TriangleWeights(splats).value.layers;
    assert w == CornerLayers(splats[0], top) + CornerLayers(splats[1], top) + CornerLayers(splats[2], top);
  }
}

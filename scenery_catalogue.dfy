/**
 * The scenery catalogues of the scenery controller and the rules that pick
 * from them: the `multiples` expansion run when the module loads, the
 * biome classification `FindBiome_`, the list of catalogue keys matching a
 * biome, the prop picked from that list and the density roll that decides
 * whether a cell gets scenery at all.
 */
module SceneryCatalogue {
  import opened Numerics

  /**
   * One catalogue object. The small catalogue's objects have no `collision`
   * field, which reads as `undefined` and so counts as false.
   */
  datatype Entry = Entry(base: string, resourcePath: string, names: seq<(string, string)>,
                         scale: real, biomes: seq<string>, collision: bool)

  /**
   * A JavaScript object whose keys are not array indices: `keys` in
   * insertion order (the order of `for (let k in ...)`), and the properties.
   */
  datatype Catalogue = Catalogue(keys: seq<string>, entries: map<string, Entry>)

  /** Each key once, and exactly the keys the object has. */
  predicate WellFormed(c: Catalogue) {
    (forall i, j :: 0 <= i < j < |c.keys| ==> c.keys[i] != c.keys[j]) &&
    (forall i :: 0 <= i < |c.keys| ==> c.keys[i] in c.entries) &&
    (forall k :: k in c.entries ==> k in c.keys)
  }

  /**
   * `c[k] = e`: a new key goes to the end of the key order, an existing key
   * keeps its place and gets the new value.
   */
  function Put(c: Catalogue, k: string, e: Entry): (r: Catalogue)
    ensures r.entries == c.entries[k := e]
    ensures k in c.entries ==> r.keys == c.keys
    ensures k !in c.entries ==> r.keys == c.keys + [k]
  {
    if k in c.entries then Catalogue(c.keys, c.entries[k := e])
    else Catalogue(c.keys + [k], c.entries[k := e])
  }

  /** Assignment keeps an object well formed. */
  lemma PutWellFormed(c: Catalogue, k: string, e: Entry)
    requires WellFormed(c)
    ensures WellFormed(Put(c, k, e))
  {
  }

  /** Assigning the same key twice leaves the second value. */
  lemma PutTwice(c: Catalogue, k: string, e: Entry, e': Entry)
    ensures Put(Put(c, k, e), k, e') == Put(c, k, e')
  {
  }

  // ---------------------------------------------------------------------
  // Decimal numerals: `key + i` for a non-negative integer `i`.
  // ---------------------------------------------------------------------

  predicate IsDigit(ch: char) { '0' <= ch <= '9' }

  function DigitChar(d: int): (ch: char)
    requires 0 <= d < 10
    ensures IsDigit(ch)
  {
    ['0', '1', '2', '3', '4', '5', '6', '7', '8', '9'][d]
  }

  /** How JavaScript writes a non-negative integer as a string. */
  function Decimal(n: nat): (s: string)
    ensures |s| >= 1
    ensures forall i :: 0 <= i < |s| ==> IsDigit(s[i])
  {
    if n < 10 then [DigitChar(n)] else Decimal(n / 10) + [DigitChar(n % 10)]
  }

  lemma DigitCharInjective(a: int, b: int)
    requires 0 <= a < 10 && 0 <= b < 10 && DigitChar(a) == DigitChar(b)
    ensures a == b
  {
  }

  lemma {:induction false} DecimalLong(n: nat)
    requires n >= 10
    ensures |Decimal(n)| >= 2
  {
  }

  /** Different numbers have different numerals. */
  lemma {:induction false} DecimalInjective(n: nat, m: nat)
    requires Decimal(n) == Decimal(m)
    ensures n == m
  {
    if n < 10 && m < 10 {
      DigitCharInjective(n, m);
    } else if n < 10 {
      DecimalLong(m);
    } else if m < 10 {
      DecimalLong(n);
    } else {
      var s := Decimal(n);
      assert s[..|s| - 1] == Decimal(n / 10) && s[..|s| - 1] == Decimal(m / 10);
      DecimalInjective(n / 10, m / 10);
      DigitCharInjective(n % 10, m % 10);
    }
  }

  // ---------------------------------------------------------------------
  // The expansion: `multiples` and `multiplesSmall`.
  // ---------------------------------------------------------------------

  /** `{name, key, num}`: copies `key + i` of a template for `2 <= i < num`. */
  datatype Multiple = Multiple(name: string, key: string, num: int)

  /** The key of copy `i`. */
  function CopyKey(m: Multiple, i: nat): string { m.key + Decimal(i) }

  /** Copy `i` of template `t`: every field of `t`, with `base` set to `name + i + '.fbx'`. */
  function CopyOf(t: Entry, m: Multiple, i: nat): Entry {
    t.(base := m.name + Decimal(i) + ".fbx")
  }

  /** Every template a multiple names is in the catalogue. */
  predicate Templates(c: Catalogue, ms: seq<(string, Multiple)>) {
    forall j :: 0 <= j < |ms| ==> ms[j].0 in c.entries
  }

  /** The catalogue after the inner loop for template `k` has made copies `2 .. j - 1`. */
  function ExpandOne(c: Catalogue, k: string, m: Multiple, j: int): (r: Catalogue)
    requires k in c.entries
    ensures c.entries.Keys <= r.entries.Keys
    decreases j
  {
    if j <= 2 then c
    else
      var prev := ExpandOne(c, k, m, j - 1);
      Put(prev, CopyKey(m, j - 1), CopyOf(prev.entries[k], m, j - 1))
  }

  /** The catalogue after the outer loop has handled the first `n` multiples, in key order. */
  function ExpandAll(c: Catalogue, ms: seq<(string, Multiple)>, n: int): (r: Catalogue)
    requires Templates(c, ms) && 0 <= n <= |ms|
    ensures c.entries.Keys <= r.entries.Keys && Templates(r, ms)
  {
    if n == 0 then c
    else
      var prev := ExpandAll(c, ms, n - 1);
      ExpandOne(prev, ms[n - 1].0, ms[n - 1].1, ms[n - 1].1.num)
  }

  /** The keys the copies of multiple `m` get, `key2` up to `key(num-1)`. */
  function CopyKeys(m: Multiple, j: int): (r: seq<string>)
    ensures |r| == if j <= 2 then 0 else j - 2
    ensures forall i :: 2 <= i < j ==> r[i - 2] == CopyKey(m, i)
    decreases j
  {
    if j <= 2 then [] else CopyKeys(m, j - 1) + [CopyKey(m, j - 1)]
  }

  /** All multiples' copy keys, in the order the loops make them. */
  function AllCopyKeys(ms: seq<(string, Multiple)>, n: int): seq<string>
    requires 0 <= n <= |ms|
  {
    if n == 0 then [] else AllCopyKeys(ms, n - 1) + CopyKeys(ms[n - 1].1, ms[n - 1].1.num)
  }

  /**
   * No copy key is already a key of the catalogue, and no two copies get
   * the same key. (Copies of one multiple never clash: their numerals differ.)
   */
  predicate Fresh(c: Catalogue, ms: seq<(string, Multiple)>) {
    Templates(c, ms) &&
    (forall j, i :: 0 <= j < |ms| && 2 <= i < ms[j].1.num ==> CopyKey(ms[j].1, i) !in c.entries) &&
    (forall j1, i1, j2, i2 :: 0 <= j1 < j2 < |ms| && 2 <= i1 < ms[j1].1.num && 2 <= i2 < ms[j2].1.num ==>
       CopyKey(ms[j1].1, i1) != CopyKey(ms[j2].1, i2))
  }

  /**
   * `r` is `c` after copies `2 .. j - 1` of a template were appended under
   * fresh keys: the keys follow the old ones in order.
   */
  predicate OneKeys(c: Catalogue, m: Multiple, j: int, r: Catalogue) {
    r.keys == c.keys + CopyKeys(m, j)
  }

  /** The old entries are untouched and each copy is template `k` with its own `base`. */
  predicate OneEntries(c: Catalogue, k: string, m: Multiple, j: int, r: Catalogue)
    requires k in c.entries
  {
    (forall key :: key in c.entries ==> key in r.entries && r.entries[key] == c.entries[key]) &&
    (forall i :: 2 <= i < j ==> CopyKey(m, i) in r.entries && r.entries[CopyKey(m, i)] == CopyOf(c.entries[k], m, i))
  }

  /** One multiple whose copy keys are new: its inner loop appends exactly its copies. */
  lemma {:induction false} ExpandOneFresh(c: Catalogue, k: string, m: Multiple, j: int)
    requires WellFormed(c) && k in c.entries
    requires forall i :: 2 <= i < j ==> CopyKey(m, i) !in c.entries
    ensures WellFormed(ExpandOne(c, k, m, j))
    ensures OneKeys(c, m, j, ExpandOne(c, k, m, j)) && OneEntries(c, k, m, j, ExpandOne(c, k, m, j))
    decreases j
  {
    if j > 2 {
      ExpandOneFresh(c, k, m, j - 1);
      var prev := ExpandOne(c, k, m, j - 1);
      var key := CopyKey(m, j - 1);
      StepFresh(c, m, j, prev);
      StepKeys(c, m, j, prev, CopyOf(prev.entries[k], m, j - 1));
      StepEntries(c, k, m, j, prev);
    } else {
      assert CopyKeys(m, j) == [] && c.keys + [] == c.keys;
    }
  }

  /** Copy `j - 1` gets a key the catalogue does not have yet. */
  lemma StepFresh(c: Catalogue, m: Multiple, j: int, prev: Catalogue)
    requires WellFormed(c) && j > 2 && CopyKey(m, j - 1) !in c.entries
    requires WellFormed(prev) && OneKeys(c, m, j - 1, prev)
    ensures CopyKey(m, j - 1) !in prev.entries
  {
    NotYetCopied(m, j - 1);
    assert CopyKey(m, j - 1) !in prev.keys;
  }

  /** Appending copy `j - 1` under its new key extends the key order by that key. */
  lemma StepKeys(c: Catalogue, m: Multiple, j: int, prev: Catalogue, e: Entry)
    requires j > 2 && CopyKey(m, j - 1) !in prev.entries
    requires WellFormed(prev) && OneKeys(c, m, j - 1, prev)
    ensures WellFormed(Put(prev, CopyKey(m, j - 1), e)) && OneKeys(c, m, j, Put(prev, CopyKey(m, j - 1), e))
  {
    PutWellFormed(prev, CopyKey(m, j - 1), e);
    assert CopyKeys(m, j) == CopyKeys(m, j - 1) + [CopyKey(m, j - 1)];
  }

  /** Copy `j - 1` leaves the old entries and the earlier copies as they were. */
  lemma StepEntries(c: Catalogue, k: string, m: Multiple, j: int, prev: Catalogue)
    requires k in c.entries && j > 2 && CopyKey(m, j - 1) !in c.entries
    requires OneEntries(c, k, m, j - 1, prev)
    ensures OneEntries(c, k, m, j, Put(prev, CopyKey(m, j - 1), CopyOf(prev.entries[k], m, j - 1)))
  {
    var r := Put(prev, CopyKey(m, j - 1), CopyOf(prev.entries[k], m, j - 1));
    forall i | 2 <= i < j - 1
      ensures CopyKey(m, i) in r.entries && r.entries[CopyKey(m, i)] == CopyOf(c.entries[k], m, i)
    {
      CopyKeyInjective(m, i, j - 1);
    }
  }

  /** Copies of one multiple have different keys. */
  lemma CopyKeyInjective(m: Multiple, i: nat, i': nat)
    requires i != i'
    ensures CopyKey(m, i) != CopyKey(m, i')
  {
    if CopyKey(m, i) == CopyKey(m, i') {
      assert Decimal(i) == CopyKey(m, i)[|m.key|..];
      assert Decimal(i') == CopyKey(m, i')[|m.key|..];
      DecimalInjective(i, i');
    }
  }

  /** Copy `j` is not among the copies before it. */
  lemma NotYetCopied(m: Multiple, j: nat)
    ensures CopyKey(m, j) !in CopyKeys(m, j)
  {
    forall p | 0 <= p < |CopyKeys(m, j)|
      ensures CopyKeys(m, j)[p] != CopyKey(m, j)
    {
      assert CopyKeys(m, j)[p] == CopyKey(m, p + 2);
      CopyKeyInjective(m, p + 2, j);
    }
  }

  /** After the first `n` multiples the keys are the old ones followed by the copies, in loop order. */
  predicate AllKeys(c: Catalogue, ms: seq<(string, Multiple)>, n: int, r: Catalogue)
    requires 0 <= n <= |ms|
  {
    r.keys == c.keys + AllCopyKeys(ms, n)
  }

  /** The old entries are untouched and each copy is its template with its own `base`. */
  predicate AllEntries(c: Catalogue, ms: seq<(string, Multiple)>, n: int, r: Catalogue)
    requires Templates(c, ms) && 0 <= n <= |ms|
  {
    (forall key :: key in c.entries ==> key in r.entries && r.entries[key] == c.entries[key]) &&
    (forall j, i :: 0 <= j < n && 2 <= i < ms[j].1.num ==>
       CopyKey(ms[j].1, i) in r.entries && r.entries[CopyKey(ms[j].1, i)] == CopyOf(c.entries[ms[j].0], ms[j].1, i))
  }

  /** After the expansion, key `i` of the catalogue keeps its place and its entry. */
  lemma KeptTemplate(c: Catalogue, ms: seq<(string, Multiple)>, n: int, r: Catalogue, i: int)
    requires Templates(c, ms) && 0 <= n <= |ms|
    requires AllKeys(c, ms, n, r) && AllEntries(c, ms, n, r)
    requires 0 <= i < |c.keys| && c.keys[i] in c.entries
    ensures i < |r.keys| && r.keys[i] == c.keys[i]
    ensures c.keys[i] in r.entries && r.entries[c.keys[i]] == c.entries[c.keys[i]]
  {
  }

  /** Every key among the copy keys is copy `i` of some multiple `j`. */
  lemma {:induction false} AllCopyKeysFrom(ms: seq<(string, Multiple)>, n: int, x: string)
    requires 0 <= n <= |ms| && x in AllCopyKeys(ms, n)
    ensures exists j, i :: 0 <= j < n && 2 <= i < ms[j].1.num && x == CopyKey(ms[j].1, i)
  {
    if n > 0 {
      var u := n - 1;
      var m := ms[u].1;
      assert AllCopyKeys(ms, u + 1) == AllCopyKeys(ms, u) + CopyKeys(m, m.num);
      if x in AllCopyKeys(ms, u) {
        AllCopyKeysFrom(ms, u, x);
      } else {
        var k :| 0 <= k < |CopyKeys(m, m.num)| && CopyKeys(m, m.num)[k] == x;
        assert x == CopyKey(ms[u].1, k + 2);
      }
    }
  }

  /**
   * A biome no entry of the catalogue lists is listed by no entry of its
   * expansion either: a copy only changes `base`.
   */
  lemma BiomeFreeExpansion(c: Catalogue, ms: seq<(string, Multiple)>, n: int, r: Catalogue, b: string)
    requires WellFormed(c) && Templates(c, ms) && 0 <= n <= |ms|
    requires AllKeys(c, ms, n, r) && AllEntries(c, ms, n, r)
    requires forall k :: k in c.entries ==> b !in c.entries[k].biomes
    ensures forall i :: 0 <= i < |r.keys| ==> r.keys[i] in r.entries && b !in r.entries[r.keys[i]].biomes
  {
    forall i | 0 <= i < |r.keys|
      ensures r.keys[i] in r.entries && b !in r.entries[r.keys[i]].biomes
    {
      if i >= |c.keys| {
        var x := r.keys[i];
        assert x == AllCopyKeys(ms, n)[i - |c.keys|];
        AllCopyKeysFrom(ms, n, x);
        var j, i' :| 0 <= j < n && 2 <= i' < ms[j].1.num && x == CopyKey(ms[j].1, i');
        assert r.entries[x] == CopyOf(c.entries[ms[j].0], ms[j].1, i');
      }
    }
  }

  /**
   * The whole expansion with fresh copy keys: the catalogue's own entries
   * stay as they are, every copy of multiple `j` number `i` is the template
   * with `base` set to `name + i + '.fbx'`, and the copies follow the
   * original keys in the order the loops make them.
   */
  lemma {:induction false} ExpandAllFresh(c: Catalogue, ms: seq<(string, Multiple)>, n: int)
    requires WellFormed(c) && Fresh(c, ms) && 0 <= n <= |ms|
    ensures WellFormed(ExpandAll(c, ms, n))
    ensures AllKeys(c, ms, n, ExpandAll(c, ms, n)) && AllEntries(c, ms, n, ExpandAll(c, ms, n))
  {
    if n > 0 {
      var u := n - 1;
      ExpandAllFresh(c, ms, u);
      var prev := ExpandAll(c, ms, u);
      var k, m := ms[u].0, ms[u].1;
      AllStepFresh(c, ms, u, prev);
      ExpandOneFresh(prev, k, m, m.num);
      var r := ExpandOne(prev, k, m, m.num);
      assert r == ExpandAll(c, ms, u + 1);
      AllStepKeys(c, ms, u, prev, r);
      AllStepEntries(c, ms, u, prev, r);
    } else {
      assert c.keys + [] == c.keys;
    }
  }

  /** Multiple `u`'s copy keys are not yet in the catalogue. */
  lemma AllStepFresh(c: Catalogue, ms: seq<(string, Multiple)>, u: int, prev: Catalogue)
    requires WellFormed(c) && Fresh(c, ms) && 0 <= u < |ms|
    requires WellFormed(prev) && AllKeys(c, ms, u, prev)
    ensures var m := ms[u].1; forall i :: 2 <= i < m.num ==> CopyKey(m, i) !in prev.entries
  {
    var m := ms[u].1;
    forall i | 2 <= i < m.num
      ensures CopyKey(m, i) !in prev.entries
    {
      NotCopiedBefore(c, ms, u, u, i);
      assert CopyKey(m, i) !in prev.keys;
    }
  }

  /** The copies of multiple `u` follow the earlier keys. */
  lemma AllStepKeys(c: Catalogue, ms: seq<(string, Multiple)>, u: int, prev: Catalogue, r: Catalogue)
    requires 0 <= u < |ms| && AllKeys(c, ms, u, prev)
    requires OneKeys(prev, ms[u].1, ms[u].1.num, r)
    ensures AllKeys(c, ms, u + 1, r)
  {
    var m := ms[u].1;
    assert AllCopyKeys(ms, u + 1) == AllCopyKeys(ms, u) + CopyKeys(m, m.num);
    assert c.keys + AllCopyKeys(ms, u) + CopyKeys(m, m.num) == c.keys + AllCopyKeys(ms, u + 1);
  }

  /** The copies of multiple `u` change no earlier entry. */
  lemma AllStepEntries(c: Catalogue, ms: seq<(string, Multiple)>, u: int, prev: Catalogue, r: Catalogue)
    requires Templates(c, ms) && 0 <= u < |ms| && AllEntries(c, ms, u, prev)
    requires ms[u].0 in prev.entries
    requires OneEntries(prev, ms[u].0, ms[u].1, ms[u].1.num, r)
    ensures AllEntries(c, ms, u + 1, r)
  {
    forall j, i | 0 <= j <= u && 2 <= i < ms[j].1.num
      ensures CopyKey(ms[j].1, i) in r.entries && r.entries[CopyKey(ms[j].1, i)] == CopyOf(c.entries[ms[j].0], ms[j].1, i)
    {
      if j < u {
        assert CopyKey(ms[j].1, i) in prev.entries;
      }
    }
  }

  /** A copy of a later multiple is not among the first `n` multiples' copies. */
  lemma {:induction false} NotCopiedBefore(c: Catalogue, ms: seq<(string, Multiple)>, n: int, j: int, i: int)
    requires Fresh(c, ms) && 0 <= n <= j < |ms| && 2 <= i < ms[j].1.num
    ensures CopyKey(ms[j].1, i) !in AllCopyKeys(ms, n)
  {
    if n > 0 {
      NotCopiedBefore(c, ms, n - 1, j, i);
      var m := ms[n - 1].1;
      forall p | 0 <= p < |CopyKeys(m, m.num)|
        ensures CopyKeys(m, m.num)[p] != CopyKey(ms[j].1, i)
      {
        assert CopyKeys(m, m.num)[p] == CopyKey(m, p + 2);
      }
    }
  }

  /** Two strings that differ at position `p` stay different whatever follows them. */
  lemma DifferAt(a: string, da: string, b: string, db: string, p: int)
    requires 0 <= p < |a| && p < |b| && a[p] != b[p]
    ensures a + da != b + db
  {
    assert (a + da)[p] == a[p] && (b + db)[p] == b[p];
  }

  /** A numeral after `a` is not a non-digit after `a` in `b`. */
  lemma DigitAgainst(a: string, n: nat, b: string, db: string)
    requires |a| < |b| && b[..|a|] == a && !IsDigit(b[|a|])
    ensures a + Decimal(n) != b + db && b + db != a + Decimal(n)
  {
    assert (a + Decimal(n))[|a|] == Decimal(n)[0];
    assert (b + db)[|a|] == b[|a|];
  }

  /** `key + i` with `i >= 2` is not `key + '1'`. */
  lemma NotFirst(key: string, i: nat)
    requires i >= 2
    ensures key + Decimal(i) != key + "1"
  {
    if key + Decimal(i) == key + "1" {
      assert Decimal(i) == (key + Decimal(i))[|key|..];
      assert Decimal(1) == (key + "1")[|key|..];
      DecimalInjective(i, 1);
    }
  }

  // ---------------------------------------------------------------------
  // Biomes, the matching list and the roll gate.
  // ---------------------------------------------------------------------

  /**
   * `FindBiome_`: low ground is desert whatever the moisture; above it,
   * moisture over one half makes forest and anything else arid.
   */
  function FindBiome(moisture: real, y: real): (r: string)
    ensures r == "desert" <==> Sat(y / 100.0) < 0.05
    ensures r == "forest" <==> Sat(y / 100.0) >= 0.05 && moisture > 0.5
    ensures r == "arid" <==> Sat(y / 100.0) >= 0.05 && moisture <= 0.5
  {
    var h := Sat(y / 100.0);
    if h < 0.05 then "desert" else if moisture > 0.5 then "forest" else "arid"
  }

  /** Desert is exactly the ground below height 5. */
  lemma DesertBelowFive(moisture: real, y: real)
    ensures FindBiome(moisture, y) == "desert" <==> y < 5.0
  {
    SatBelow(y / 100.0, 0.05);
  }

  /** `_BIOMES[biome]`: the chance that a cell of each biome gets scenery; `undefined` for any other name. */
  function Density(biome: string): Option<real> {
    if biome == "desert" then Some(0.2)
    else if biome == "forest" then Some(1.0)
    else if biome == "arid" then Some(0.8)
    else None
  }

  /**
   * `roll > _BIOMES[biome]`: the cell is skipped. A biome missing from the
   * table reads `undefined`, and a comparison with it is false.
   */
  predicate Skipped(roll: real, biome: string) {
    Density(biome).Some? && roll > Density(biome).value
  }

  /**
   * Every biome `FindBiome_` returns has a density: the cell is skipped
   * exactly when the roll exceeds it, so a forest cell with a roll in [0, 1]
   * is never skipped.
   */
  lemma RollGate(moisture: real, y: real, roll: real)
    ensures var b := FindBiome(moisture, y);
      Density(b).Some? && (Skipped(roll, b) <==> roll > Density(b).value)
    ensures FindBiome(moisture, y) == "forest" && roll <= 1.0 ==> !Skipped(roll, "forest")
    ensures FindBiome(moisture, y) == "desert" ==> (Skipped(roll, "desert") <==> roll > 0.2)
  {
  }

  /** The keys of `keys` whose entry lists `biome`, in order. */
  function MatchingKeys(c: Catalogue, keys: seq<string>, biome: string): (r: seq<string>)
    requires forall i :: 0 <= i < |keys| ==> keys[i] in c.entries
    ensures |r| <= |keys|
  {
    if keys == [] then []
    else
      var last := keys[|keys| - 1];
      MatchingKeys(c, keys[..|keys| - 1], biome) + (if biome in c.entries[last].biomes then [last] else [])
  }

  /** A key matches exactly when it is in the list and its entry lists the biome. */
  lemma {:induction false} MatchingMembers(c: Catalogue, keys: seq<string>, biome: string)
    requires forall i :: 0 <= i < |keys| ==> keys[i] in c.entries
    ensures forall k :: k in MatchingKeys(c, keys, biome) <==> k in keys && biome in c.entries[k].biomes
  {
    if keys != [] {
      var init := keys[..|keys| - 1];
      MatchingMembers(c, init, biome);
      assert keys == init + [keys[|keys| - 1]];
    }
  }

  /** Filtering keeps the order: the matches of a concatenation are the concatenated matches. */
  lemma {:induction false} MatchingAppend(c: Catalogue, ks1: seq<string>, ks2: seq<string>, biome: string)
    requires forall i :: 0 <= i < |ks1| ==> ks1[i] in c.entries
    requires forall i :: 0 <= i < |ks2| ==> ks2[i] in c.entries
    ensures forall i :: 0 <= i < |ks1 + ks2| ==> (ks1 + ks2)[i] in c.entries
    ensures MatchingKeys(c, ks1 + ks2, biome) == MatchingKeys(c, ks1, biome) + MatchingKeys(c, ks2, biome)
  {
    if ks2 != [] {
      var init := ks2[..|ks2| - 1];
      MatchingAppend(c, ks1, init, biome);
      assert (ks1 + ks2)[..|ks1 + ks2| - 1] == ks1 + init;
    } else {
      assert ks1 + ks2 == ks1;
    }
  }

  /** A key in the list whose entry lists the biome makes the matching list non-empty. */
  lemma MatchingHas(c: Catalogue, keys: seq<string>, biome: string, i: int)
    requires forall j :: 0 <= j < |keys| ==> keys[j] in c.entries
    requires 0 <= i < |keys| && biome in c.entries[keys[i]].biomes
    ensures MatchingKeys(c, keys, biome) != []
  {
    MatchingMembers(c, keys, biome);
    assert keys[i] in MatchingKeys(c, keys, biome);
  }

  /** When no entry lists the biome, the matching list is empty. */
  lemma MatchingNone(c: Catalogue, keys: seq<string>, biome: string)
    requires forall j :: 0 <= j < |keys| ==> keys[j] in c.entries
    requires forall j :: 0 <= j < |keys| ==> biome !in c.entries[keys[j]].biomes
    ensures MatchingKeys(c, keys, biome) == []
  {
    MatchingMembers(c, keys, biome);
  }

  /**
   * The matching list of `SpawnAt_` and `SpawnSmallAt_`: `for (let k in c)
   * if (c[k].biomes.indexOf(biome) >= 0) matchingScenery.push(k)`.
   */
  method Matching(c: Catalogue, biome: string) returns (r: seq<string>)
    requires WellFormed(c)
    ensures r == MatchingKeys(c, c.keys, biome)
  {
    r := [];
    var i := 0;
    while i < |c.keys|
      invariant 0 <= i <= |c.keys|
      invariant r == MatchingKeys(c, c.keys[..i], biome)
    {
      var k := c.keys[i];
      assert c.keys[..i + 1][..i] == c.keys[..i];
      if biome in c.entries[k].biomes {
        r := r + [k];
      }
      i := i + 1;
    }
    assert c.keys[..i] == c.keys;
  }

  /**
   * `matchingScenery[Math.round(roll * (matchingScenery.length - 1))]`: the
   * entry picked, or `None` where the index falls outside the list and the
   * lookup reads `undefined`.
   */
  function Pick(c: Catalogue, matching: seq<string>, roll: real): (r: Option<Entry>)
    requires forall i :: 0 <= i < |matching| ==> matching[i] in c.entries
    ensures r.Some? <==> 0 <= JsRound(roll * (|matching| - 1) as real) < |matching|
  {
    var i := JsRound(roll * (|matching| - 1) as real);
    if 0 <= i < |matching| then Some(c.entries[matching[i]]) else None
  }

  /** A roll in [0, 1] picks an entry of any non-empty list, and an entry that matches. */
  lemma PickInRange(c: Catalogue, matching: seq<string>, roll: real)
    requires forall i :: 0 <= i < |matching| ==> matching[i] in c.entries
    requires 0.0 <= roll <= 1.0 && |matching| >= 1
    ensures Pick(c, matching, roll).Some?
    ensures exists i :: 0 <= i < |matching| && Pick(c, matching, roll).value == c.entries[matching[i]]
  {
    var n := (|matching| - 1) as real;
    assert 0.0 <= roll * n <= n by {
      NonNegMul(roll, n);
      NonNegMul(1.0 - roll, n);
    }
    var i := JsRound(roll * n);
    assert 0 <= i < |matching|;
  }

}

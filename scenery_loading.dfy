/**
 * The loops scenery-controller.js runs once when it loads: every template a
 * multiple names is copied under the numbered keys `key2 .. key(num-1)`,
 * each copy loading its own numbered model file. They are proved against
 * `ExpandAll`, whose properties `SceneryCatalogue` states.
 */
module SceneryLoading {
  import opened SceneryCatalogue

  /**
   * `for (let k in multiples) for (let i = 2; i < multiples[k].num; ++i)
   * { c[key + i] = {...c[k]}; c[key + i].base = name + i + '.fbx'; }`,
   * with `ms` the multiples in key order.
   */
  method Expand(c: Catalogue, ms: seq<(string, Multiple)>) returns (r: Catalogue)
    requires Templates(c, ms)
    ensures r == ExpandAll(c, ms, |ms|)
  {
    r := c;
    for j := 0 to |ms|
      invariant r == ExpandAll(c, ms, j)
    {
      r := ExpandTemplate(r, ms[j].0, ms[j].1);
    }
  }

  /** The inner loop for one template `k`: copies `key + i` for `2 <= i < num`. */
  method ExpandTemplate(c: Catalogue, k: string, m: Multiple) returns (r: Catalogue)
    requires k in c.entries
    ensures r == ExpandOne(c, k, m, m.num)
  {
    r := c;
    var i := 2;
    while i < m.num
      invariant 2 <= i && (i <= m.num || i == 2)
      invariant r == ExpandOne(c, k, m, i)
    {
      r := CopyTemplate(r, k, m, i);
      i := i + 1;
    }
    if m.num < 2 {
      assert r == ExpandOne(c, k, m, 2) == c;
    }
  }

  /** `c[key + i] = {...c[k]}; c[key + i].base = name + i + '.fbx'`. */
  method CopyTemplate(c: Catalogue, k: string, m: Multiple, i: nat) returns (r: Catalogue)
    requires k in c.entries
    ensures r == Put(c, CopyKey(m, i), CopyOf(c.entries[k], m, i))
  {
    var key := m.key + Decimal(i);
    var copy := c.entries[k];
    PutTwice(c, key, copy, copy.(base := m.name + Decimal(i) + ".fbx"));
    r := Put(c, key, copy);
    r := Put(r, key, r.entries[key].(base := m.name + Decimal(i) + ".fbx"));
  }
}

/**
 * `SceneryController` (client/src/scenery-controller.js): around the
 * player's quantised position it revisits a 15 x 15 grid of large-scenery
 * cells and a finer grid of small-scenery cells, shows again what already
 * stands in a cell or spawns something new there, and hides what has come
 * to lie more than 150 units from the player.
 *
 * The entity manager, the terrain and the noise field are outside the
 * model: the part of the entity manager the controller writes (its scenery
 * entities by name) is the `props` map, and the terrain and noise are the
 * functions of a `World`.
 */
module SceneryController {
  import opened Numerics
  import opened Vectors
  import opened SceneryCatalogue
  import opened SceneryTables

  /**
   * A vegetation record's position. `Broken` is the vector that
   * `new THREE.Vector3(e.Position)` makes: its `x` holds a whole vector, so
   * every distance measured from it is NaN.
   */
  datatype Position = Point(at: Vec3) | Broken

  /** An entry of `vegetation_`: an entity's name and its position. */
  datatype Veg = Veg(name: string, position: Position)

  /** The `visible` flag of a scenery entity; `Unset` until the controller first writes it. */
  datatype Flag = Unset | Visible | Invisible

  /** A scenery entity the controller registered with the entity manager. */
  datatype Prop = Prop(position: Vec3, visible: Flag)

  /** The vegetation list together with the registered scenery entities. */
  datatype Scene = Scene(vegetation: seq<Veg>, props: map<string, Prop>)

  /**
   * What the controller asks of the outside world: the string
   * `'__scenery__[' + x + '][' + z + ']'` for a cell, the noise field
   * `noise_.Get`, the terrain height `GetHeight(p)[0]` and the terrain's
   * moisture `GetBiomeAt(p)`.
   */
  datatype World = World(key: (real, real) -> string, noise: (real, real, real) -> real,
                         height: Vec3 -> real, moisture: Vec3 -> real)

  // ---------------------------------------------------------------------
  // The centre guard
  // ---------------------------------------------------------------------

  /** The player's position in cells of 50: `(round(x / 50), 0, round(z / 50))`. */
  function Quantise(p: Vec3): (q: Vec3)
    ensures q.y == 0.0
  {
    Vec3(JsRound(p.x / 50.0) as real, 0.0, JsRound(p.z / 50.0) as real)
  }

  /** The quantised centre lies within half a cell of the player on both horizontal axes. */
  lemma QuantiseNear(p: Vec3)
    ensures -25.0 < 50.0 * Quantise(p).x - p.x <= 25.0
    ensures -25.0 < 50.0 * Quantise(p).z - p.z <= 25.0
  {
    var q := Quantise(p);
    assert q.x <= p.x / 50.0 + 0.5 < q.x + 1.0;
    assert q.z <= p.z / 50.0 + 0.5 < q.z + 1.0;
  }

  /** Two positions in the same cell of 50 quantise alike: the guard keeps the scene as it is. */
  lemma QuantiseSameCell(p: Vec3, p': Vec3, i: int, k: int)
    requires 50.0 * i as real - 25.0 <= p.x < 50.0 * i as real + 25.0
    requires 50.0 * i as real - 25.0 <= p'.x < 50.0 * i as real + 25.0
    requires 50.0 * k as real - 25.0 <= p.z < 50.0 * k as real + 25.0
    requires 50.0 * k as real - 25.0 <= p'.z < 50.0 * k as real + 25.0
    ensures Quantise(p) == Quantise(p') == Vec3(i as real, 0.0, k as real)
  {
    RoundInCell(p.x, i);
    RoundInCell(p'.x, i);
    RoundInCell(p.z, k);
    RoundInCell(p'.z, k);
  }

  lemma RoundInCell(x: real, i: int)
    requires 50.0 * i as real - 25.0 <= x < 50.0 * i as real + 25.0
    ensures JsRound(x / 50.0) == i
  {
    var r := JsRound(x / 50.0);
    assert i as real <= x / 50.0 + 0.5 < i as real + 1.0;
    assert r as real <= x / 50.0 + 0.5 < r as real + 1.0;
  }

  // ---------------------------------------------------------------------
  // One cell
  // ---------------------------------------------------------------------

  /** `_P`: grid offset `(x, y)` from the centre, scaled to world units. */
  function CellPoint(x: real, y: real, c: Vec3): (p: Vec3)
    ensures p.y == 0.0
  {
    Vec3((x + c.x) * 50.0, 0.0, (y + c.z) * 50.0)
  }

  /**
   * Where a new prop goes: `_P.x` moved by up to 25 either way by noise at
   * height 0, then `_P.z` by noise at height 1 (read at the moved `x`), then
   * `_P.y` the terrain height there.
   */
  function SpawnPos(w: World, p: Vec3): (s: Vec3)
    ensures s.y == w.height(Vec3(s.x, p.y, s.z))
  {
    var x := p.x + (w.noise(p.x, 0.0, p.z) * 2.0 - 1.0) * 25.0;
    var z := p.z + (w.noise(x, 1.0, p.z) * 2.0 - 1.0) * 25.0;
    Vec3(x, w.height(Vec3(x, p.y, z)), z)
  }

  /** The biome at the spawn position, from the terrain's moisture and the spawn height. */
  function CellBiome(w: World, p: Vec3): string {
    var s := SpawnPos(w, p);
    FindBiome(w.moisture(s), s.y)
  }

  /**
   * A cell with nothing in it yet stays empty: the roll (noise at height 2
   * at the cell's own point) is over the biome's density, or, for small
   * scenery, `SpawnSmallAt_` finds nothing for the biome and returns null.
   */
  predicate Gated(w: World, small: Catalogue, p: Vec3, isSmall: bool)
    requires WellFormed(small)
  {
    var b := CellBiome(w, p);
    Skipped(w.noise(p.x, 2.0, p.z), b) || (isSmall && MatchingKeys(small, small.keys, b) == [])
  }

  /**
   * The record `SpawnVegetation_` lists for a new prop, as written:
   * `Position: new THREE.Vector3(e.Position)` (see README, Findings).
   */
  function SpawnedRecordAsWritten(key: string): (v: Veg)
    ensures v.name == key && v.position.Broken?
  {
    Veg(key, Broken)
  }

  /**
   * One cell of either grid. An entity already registered under the cell's
   * key is shown again and listed; otherwise, unless the cell is gated, a
   * prop is registered under the key at the spawn position and listed.
   */
  function Visit(w: World, small: Catalogue, st: Scene, p: Vec3, isSmall: bool): (r: Scene)
    requires WellFormed(small)
    ensures st.props.Keys <= r.props.Keys
    ensures |st.vegetation| <= |r.vegetation| <= |st.vegetation| + 1
    ensures r.vegetation[..|st.vegetation|] == st.vegetation
  {
    var key := w.key(p.x, p.z);
    if key in st.props then
      Scene(st.vegetation + [Veg(key, Point(st.props[key].position))],
            st.props[key := st.props[key].(visible := Visible)])
    else if Gated(w, small, p, isSmall) then st
    else
      var s := SpawnPos(w, p);
      Scene(st.vegetation + [SpawnedRecordAsWritten(key)], st.props[key := Prop(s, Unset)])
  }

  /** The scene after visiting `cells` in order. */
  function Visits(w: World, small: Catalogue, st: Scene, cells: seq<Vec3>, isSmall: bool): (r: Scene)
    requires WellFormed(small)
  {
    if cells == [] then st
    else Visit(w, small, Visits(w, small, st, cells[..|cells| - 1], isSmall), cells[|cells| - 1], isSmall)
  }

  lemma VisitsStep(w: World, small: Catalogue, st: Scene, cells: seq<Vec3>, k: int, isSmall: bool)
    requires WellFormed(small) && 0 <= k < |cells|
    ensures Visits(w, small, st, cells[..k + 1], isSmall) ==
      Visit(w, small, Visits(w, small, st, cells[..k], isSmall), cells[k], isSmall)
  {
    assert cells[..k + 1][..k] == cells[..k];
  }

  /** The large grid: `x` and `y` from -7 to 7, `y` innermost. */
  function LargeCells(c: Vec3): (r: seq<Vec3>)
    ensures |r| == 225
  {
    seq(225, n requires 0 <= n < 225 => CellPoint((n / 15 - 7) as real, (n % 15 - 7) as real, c))
  }

  /**
   * The small grid: `x` from -3 by 0.3 and `y` from -3 by 0.4 while each is
   * at most 3, `y` innermost, in exact arithmetic.
   */
  function SmallCells(c: Vec3): (r: seq<Vec3>)
    ensures |r| == 336
  {
    seq(336, n requires 0 <= n < 336 => CellPoint(-3.0 + 0.3 * (n / 16) as real, -3.0 + 0.4 * (n % 16) as real, c))
  }

  lemma LargeCellAt(c: Vec3, x: int, y: int)
    requires -7 <= x <= 7 && -7 <= y <= 7
    ensures 0 <= 15 * (x + 7) + (y + 7) < 225
    ensures LargeCells(c)[15 * (x + 7) + (y + 7)] == CellPoint(x as real, y as real, c)
  {
    DivModOf(x + 7, y + 7, 15);
  }

  lemma SmallCellAt(c: Vec3, i: int, j: int, x: real, y: real)
    requires 0 <= i < 21 && 0 <= j < 16
    requires x == -3.0 + 0.3 * i as real && y == -3.0 + 0.4 * j as real
    ensures 0 <= 16 * i + j < 336
    ensures SmallCells(c)[16 * i + j] == CellPoint(x, y, c)
  {
    DivModOf(i, j, 16);
  }

  /** `-3 + step * k` is at most 3 for the first `last + 1` steps and no more. */
  lemma SmallStep(k: int, step: real, last: int)
    requires (step == 0.3 && last == 20) || (step == 0.4 && last == 15)
    ensures -3.0 + step * k as real <= 3.0 <==> k <= last
  {
  }

  // ---------------------------------------------------------------------
  // Culling
  // ---------------------------------------------------------------------

  function DistSq(a: Vec3, b: Vec3): real {
    var d := Sub(a, b);
    Dot(d, d)
  }

  /**
   * `veg.Position.distanceTo(player) > 150`, compared squared. A broken
   * position measures NaN, and NaN is never greater than 150.
   */
  predicate Far(v: Veg, player: Vec3) {
    v.position.Point? && DistSq(v.position.at, player) > 22500.0
  }

  /** The records the cull keeps, in their original order. */
  function Survivors(vs: seq<Veg>, player: Vec3): (r: seq<Veg>)
    ensures |r| <= |vs|
  {
    if vs == [] then []
    else
      var last := vs[|vs| - 1];
      Survivors(vs[..|vs| - 1], player) + (if Far(last, player) then [] else [last])
  }

  /** The registered entities after every far record's entity is made invisible, in list order. */
  function Hidden(props: map<string, Prop>, vs: seq<Veg>, player: Vec3): (r: map<string, Prop>)
    requires forall i :: 0 <= i < |vs| ==> vs[i].name in props
    ensures r.Keys == props.Keys
  {
    if vs == [] then props
    else
      var prev := Hidden(props, vs[..|vs| - 1], player);
      var last := vs[|vs| - 1];
      if Far(last, player) then prev[last.name := prev[last.name].(visible := Invisible)] else prev
  }

  lemma SurvivorsStep(vs: seq<Veg>, k: int, player: Vec3)
    requires 0 <= k < |vs|
    ensures Survivors(vs[..k + 1], player) ==
      Survivors(vs[..k], player) + (if Far(vs[k], player) then [] else [vs[k]])
  {
    assert vs[..k + 1][..k] == vs[..k];
  }

  lemma HiddenStep(props: map<string, Prop>, vs: seq<Veg>, k: int, player: Vec3)
    requires forall i :: 0 <= i < |vs| ==> vs[i].name in props
    requires 0 <= k < |vs|
    ensures var prev := Hidden(props, vs[..k], player);
      Hidden(props, vs[..k + 1], player) ==
        if Far(vs[k], player) then prev[vs[k].name := prev[vs[k].name].(visible := Invisible)] else prev
  {
    assert vs[..k + 1][..k] == vs[..k];
  }

  /**
   * One pass of the cull loop on a list whose first `k` records have been
   * dealt with: the record at index `i` is record `k` of the original list,
   * splicing it out when far, or stepping past it otherwise, leaves a list
   * whose first `k + 1` records have been dealt with.
   */
  lemma CullStep(vs: seq<Veg>, k: int, player: Vec3, cur: seq<Veg>, i: int)
    requires 0 <= k < |vs| && i == |Survivors(vs[..k], player)|
    requires cur == Survivors(vs[..k], player) + vs[k..]
    ensures 0 <= i < |cur| && cur[i] == vs[k]
    ensures Far(vs[k], player) ==>
      cur[..i] + cur[i + 1..] == Survivors(vs[..k + 1], player) + vs[k + 1..] &&
      i == |Survivors(vs[..k + 1], player)|
    ensures !Far(vs[k], player) ==>
      cur == Survivors(vs[..k + 1], player) + vs[k + 1..] &&
      i + 1 == |Survivors(vs[..k + 1], player)|
  {
    SurvivorsStep(vs, k, player);
    var s := Survivors(vs[..k], player);
    assert vs[k..] == [vs[k]] + vs[k + 1..];
    if Far(vs[k], player) {
      assert cur[..i] == s;
      assert cur[i + 1..] == vs[k + 1..];
    } else {
      assert cur == (s + [vs[k]]) + vs[k + 1..];
    }
  }

  /** A record survives the cull exactly when it was listed and is not far. */
  lemma {:induction false} SurvivorsMembers(vs: seq<Veg>, player: Vec3, v: Veg)
    ensures v in Survivors(vs, player) <==> v in vs && !Far(v, player)
  {
    if vs != [] {
      var prefix := vs[..|vs| - 1];
      SurvivorsMembers(prefix, player, v);
      assert vs == prefix + [vs[|vs| - 1]];
    }
  }

  /** The cull works record by record: culling a concatenation culls each part. */
  lemma {:induction false} SurvivorsAppend(a: seq<Veg>, b: seq<Veg>, player: Vec3)
    ensures Survivors(a + b, player) == Survivors(a, player) + Survivors(b, player)
  {
    if b != [] {
      var prefix, last := b[..|b| - 1], b[|b| - 1];
      SurvivorsAppend(a, prefix, player);
      var tail := if Far(last, player) then [] else [last];
      assert (a + b)[..|a + b| - 1] == a + prefix && (a + b)[|a + b| - 1] == last;
      assert Survivors(a + b, player) == Survivors(a + prefix, player) + tail;
      assert Survivors(b, player) == Survivors(prefix, player) + tail;
      var sa, sp := Survivors(a, player), Survivors(prefix, player);
      assert sa + (sp + tail) == (sa + sp) + tail;
    } else {
      assert a + b == a;
    }
  }

  /** A second cull from the same place finds nothing more to hide. */
  lemma {:induction false} SurvivorsIdempotent(vs: seq<Veg>, player: Vec3)
    ensures Survivors(Survivors(vs, player), player) == Survivors(vs, player)
  {
    if vs != [] {
      var prefix, last := vs[..|vs| - 1], vs[|vs| - 1];
      SurvivorsIdempotent(prefix, player);
      SurvivorsAppend(Survivors(prefix, player), if Far(last, player) then [] else [last], player);
      if !Far(last, player) {
        assert [last][..0] == [];
      }
    }
  }

  /** The entity of every far record is invisible after the cull. */
  lemma {:induction false} HiddenFar(props: map<string, Prop>, vs: seq<Veg>, player: Vec3, i: int)
    requires forall j :: 0 <= j < |vs| ==> vs[j].name in props
    requires 0 <= i < |vs| && Far(vs[i], player)
    ensures Hidden(props, vs, player)[vs[i].name].visible == Invisible
  {
    var prefix := vs[..|vs| - 1];
    if i < |vs| - 1 {
      HiddenFar(props, prefix, player, i);
    }
  }

  /** An entity no far record names keeps its flag and its position. */
  lemma {:induction false} HiddenOthers(props: map<string, Prop>, vs: seq<Veg>, player: Vec3, k: string)
    requires forall j :: 0 <= j < |vs| ==> vs[j].name in props
    requires k in props && forall j :: 0 <= j < |vs| && Far(vs[j], player) ==> vs[j].name != k
    ensures Hidden(props, vs, player)[k] == props[k]
  {
    if vs != [] {
      HiddenOthers(props, vs[..|vs| - 1], player, k);
    }
  }

  /** The cull moves nothing: every entity keeps its position. */
  lemma {:induction false} HiddenPositions(props: map<string, Prop>, vs: seq<Veg>, player: Vec3, k: string)
    requires forall j :: 0 <= j < |vs| ==> vs[j].name in props
    requires k in props
    ensures Hidden(props, vs, player)[k].position == props[k].position
  {
    if vs != [] {
      HiddenPositions(props, vs[..|vs| - 1], player, k);
    }
  }

  // ---------------------------------------------------------------------
  // A broken vegetation record (see README, Findings)
  // ---------------------------------------------------------------------

  /** As written, a newly spawned prop's record survives every cull, however far the player goes. */
  lemma AsWrittenNeverCulled(key: string, player: Vec3, vs: seq<Veg>)
    ensures SpawnedRecordAsWritten(key) in Survivors(vs + [SpawnedRecordAsWritten(key)], player)
  {
    SurvivorsMembers(vs + [SpawnedRecordAsWritten(key)], player, SpawnedRecordAsWritten(key));
  }

  /**
   * As written, a cull after a prop is spawned into an empty cell keeps the
   * new record and leaves the new prop as it was spawned, however far away
   * the player stands: the list only grows, and the prop is never hidden.
   */
  lemma SpawnedNeverHidden(w: World, small: Catalogue, st: Scene, p: Vec3, isSmall: bool, player: Vec3)
    requires WellFormed(small) && Listed(st)
    requires w.key(p.x, p.z) !in st.props && !Gated(w, small, p, isSmall)
    ensures var key := w.key(p.x, p.z); var r := Visit(w, small, st, p, isSmall);
      Listed(r) &&
      Survivors(r.vegetation, player) == Survivors(st.vegetation, player) + [SpawnedRecordAsWritten(key)] &&
      Hidden(r.props, r.vegetation, player)[key] == Prop(SpawnPos(w, p), Unset)
  {
    var key := w.key(p.x, p.z);
    var r := Visit(w, small, st, p, isSmall);
    var rec := SpawnedRecordAsWritten(key);
    assert r.vegetation == st.vegetation + [rec];
    SurvivorsAppend(st.vegetation, [rec], player);
    assert [rec][..0] == [];
    assert r.vegetation[..|r.vegetation| - 1] == st.vegetation;
    assert Hidden(r.props, r.vegetation, player) == Hidden(r.props, st.vegetation, player);
    HiddenOthers(r.props, st.vegetation, player, key);
  }

  /** The corrected record of a new prop: its name and the position it was given. */
  function SpawnedRecord(key: string, s: Vec3): (v: Veg)
    ensures v.name == key && v.position == Point(s)
  {
    Veg(key, Point(s))
  }

  /**
   * With the prop's own position, the record is culled once the player is
   * more than 150 away, and the prop it names is hidden.
   */
  lemma CorrectedCulled(key: string, s: Vec3, player: Vec3, vs: seq<Veg>, props: map<string, Prop>)
    requires DistSq(s, player) > 22500.0
    requires key in props && forall i :: 0 <= i < |vs| ==> vs[i].name in props
    ensures Survivors(vs + [SpawnedRecord(key, s)], player) == Survivors(vs, player)
    ensures Hidden(props, vs + [SpawnedRecord(key, s)], player)[key].visible == Invisible
  {
    var rec := SpawnedRecord(key, s);
    SurvivorsAppend(vs, [rec], player);
    assert [rec][..0] == [];
    assert (vs + [rec])[..|vs|] == vs;
  }

  // ---------------------------------------------------------------------
  // What the grids promise
  // ---------------------------------------------------------------------

  /** Every record of the scene names a registered entity. */
  predicate Listed(st: Scene) {
    forall i :: 0 <= i < |st.vegetation| ==> st.vegetation[i].name in st.props
  }

  /** Visiting cells keeps every record's entity registered, old records included. */
  lemma {:induction false} VisitsListed(w: World, small: Catalogue, st: Scene, cells: seq<Vec3>, isSmall: bool)
    requires WellFormed(small) && Listed(st)
    ensures Listed(Visits(w, small, st, cells, isSmall))
    ensures |st.vegetation| <= |Visits(w, small, st, cells, isSmall).vegetation|
    ensures st.props.Keys <= Visits(w, small, st, cells, isSmall).props.Keys
    ensures Visits(w, small, st, cells, isSmall).vegetation[..|st.vegetation|] == st.vegetation
  {
    if cells != [] {
      var prefix := cells[..|cells| - 1];
      VisitsListed(w, small, st, prefix, isSmall);
      var mid := Visits(w, small, st, prefix, isSmall);
      var r := Visit(w, small, mid, cells[|cells| - 1], isSmall);
      assert r.vegetation[..|mid.vegetation|] == mid.vegetation;
      assert r.vegetation[..|st.vegetation|] == r.vegetation[..|mid.vegetation|][..|st.vegetation|];
    }
  }

  /** After the visits, every cell that was not gated has an entity under its key. */
  lemma {:induction false} VisitsCover(w: World, small: Catalogue, st: Scene, cells: seq<Vec3>, isSmall: bool, k: int)
    requires WellFormed(small) && 0 <= k < |cells| && !Gated(w, small, cells[k], isSmall)
    ensures w.key(cells[k].x, cells[k].z) in Visits(w, small, st, cells, isSmall).props
  {
    var prefix := cells[..|cells| - 1];
    if k < |cells| - 1 {
      VisitsCover(w, small, st, prefix, isSmall, k);
    }
  }

  /** A cell that already holds an entity keeps its entity and its place, and shows it. */
  lemma VisitShows(w: World, small: Catalogue, st: Scene, p: Vec3, isSmall: bool)
    requires WellFormed(small) && w.key(p.x, p.z) in st.props
    ensures var key := w.key(p.x, p.z); var r := Visit(w, small, st, p, isSmall);
      r.props[key] == Prop(st.props[key].position, Visible) &&
      r.vegetation == st.vegetation + [Veg(key, Point(st.props[key].position))]
  {
  }

  /**
   * In the desert no small prop is ever spawned: a small cell with nothing
   * in it stays empty there, whatever the roll.
   */
  lemma SmallDesertGated(w: World, p: Vec3)
    requires CellBiome(w, p) == "desert"
    ensures WellFormed(SmallScenery()) && Gated(w, SmallScenery(), p, true)
  {
    SmallExpanded();
    NoSmallSceneryInDesert();
  }

  // ---------------------------------------------------------------------
  // The controller
  // ---------------------------------------------------------------------

  class Controller {
    /** `center_`: the quantised player position of the last respawn, `null` before the first. */
    var center: Option<Vec3>
    /** `vegetation_`. */
    var vegetation: seq<Veg>
    /** The scenery entities registered with the entity manager, by name. */
    var props: map<string, Prop>
    /** `_SCENERYSMALL` once loaded. */
    const small: Catalogue

    ghost predicate Valid()
      reads this
    {
      WellFormed(small) && Listed(Scene(vegetation, props))
    }

    constructor ()
      ensures center == None && vegetation == [] && props == map[]
      ensures small == SmallScenery() && Valid()
    {
      SmallExpanded();
      center := None;
      vegetation := [];
      props := map[];
      small := SmallScenery();
    }

    /** One cell of `SpawnVegetation_`'s loops. */
    method VisitCell(w: World, p: Vec3, isSmall: bool)
      requires WellFormed(small)
      modifies this
      ensures Scene(vegetation, props) == Visit(w, small, Scene(old(vegetation), old(props)), p, isSmall)
      ensures center == old(center)
    {
      var key := w.key(p.x, p.z);
      if key in props {
        var obj := props[key];
        props := props[key := obj.(visible := Visible)];
        vegetation := vegetation + [Veg(key, Point(obj.position))];
        return;
      }
      var s := SpawnPos(w, p);
      var biome := FindBiome(w.moisture(s), s.y);
      var roll := w.noise(p.x, 2.0, p.z);
      if Skipped(roll, biome) {
        return;
      }
      if isSmall {
        var matching := Matching(small, biome);
        if |matching| == 0 {
          return;
        }
      }
      props := props[key := Prop(s, Unset)];
      vegetation := vegetation + [SpawnedRecordAsWritten(key)];
    }

    /**
     * `SpawnVegetation_`: nothing happens without a player or while the
     * player stays in the cell of the last respawn; otherwise the new
     * centre is stored and both grids are visited around it.
     */
    method SpawnVegetation(w: World, player: Option<Vec3>)
      requires Valid()
      modifies this
      ensures Valid()
      ensures player.None? || old(center) == Some(Quantise(player.value)) ==>
        center == old(center) && vegetation == old(vegetation) && props == old(props)
      ensures player.Some? && old(center) != Some(Quantise(player.value)) ==>
        var c := Quantise(player.value);
        var large := Visits(w, small, Scene(old(vegetation), old(props)), LargeCells(c), false);
        center == Some(c) && Scene(vegetation, props) == Visits(w, small, large, SmallCells(c), true)
    {
      if player.None? {
        return;
      }
      var c := Quantise(player.value);
      if center == Some(c) {
        return;
      }
      center := Some(c);
      ghost var start := Scene(vegetation, props);
      SpawnLarge(w, c);
      ghost var large := Scene(vegetation, props);
      VisitsListed(w, small, start, LargeCells(c), false);
      SpawnSmall(w, c);
      VisitsListed(w, small, large, SmallCells(c), true);
    }

    /** The large grid's loops. */
    method SpawnLarge(w: World, c: Vec3)
      requires WellFormed(small)
      modifies this
      ensures Scene(vegetation, props) == Visits(w, small, Scene(old(vegetation), old(props)), LargeCells(c), false)
      ensures center == old(center)
    {
      ghost var start := Scene(vegetation, props);
      ghost var cells := LargeCells(c);
      assert cells[..0] == [];
      var x := -7;
      while x <= 7
        invariant -7 <= x <= 8
        invariant Scene(vegetation, props) == Visits(w, small, start, cells[..15 * (x + 7)], false)
        invariant center == old(center)
      {
        LargeRow(w, c, x, start, cells);
        x := x + 1;
      }
      assert x == 8;
      assert cells[..225] == cells;
    }

    /** One pass of the large grid's inner loop: `y` from -7 to 7 at this `x`. */
    method LargeRow(w: World, c: Vec3, x: int, ghost start: Scene, ghost cells: seq<Vec3>)
      requires WellFormed(small) && cells == LargeCells(c) && -7 <= x <= 7
      requires Scene(vegetation, props) == Visits(w, small, start, cells[..15 * (x + 7)], false)
      modifies this
      ensures Scene(vegetation, props) == Visits(w, small, start, cells[..15 * (x + 7) + 15], false)
      ensures center == old(center)
    {
      ghost var n := 15 * (x + 7);
      var y := -7;
      while y <= 7
        invariant -7 <= y <= 8 && n == 15 * (x + 7) + (y + 7)
        invariant Scene(vegetation, props) == Visits(w, small, start, cells[..n], false)
        invariant center == old(center)
      {
        LargeCell(w, c, x, y, start, cells);
        y, n := y + 1, n + 1;
      }
      assert n == 15 * (x + 7) + 15;
    }

    /** The small grid's loops, stepping `x` by 0.3. */
    method SpawnSmall(w: World, c: Vec3)
      requires WellFormed(small)
      modifies this
      ensures Scene(vegetation, props) == Visits(w, small, Scene(old(vegetation), old(props)), SmallCells(c), true)
      ensures center == old(center)
    {
      ghost var start := Scene(vegetation, props);
      ghost var cells := SmallCells(c);
      assert cells[..0] == [];
      var x := -3.0;
      ghost var i := 0;
      while x <= 3.0
        invariant 0 <= i <= 21 && x == -3.0 + 0.3 * i as real
        invariant Scene(vegetation, props) == Visits(w, small, start, cells[..16 * i], true)
        invariant center == old(center)
        decreases 21 - i
      {
        SmallStep(i, 0.3, 20);
        SmallRow(w, c, x, i, start, cells);
        x := x + 0.3;
        i := i + 1;
      }
      SmallStep(i, 0.3, 20);
      assert i == 21;
      assert cells[..336] == cells;
    }

    /** One pass of the small grid's inner loop: `y` from -3 by 0.4 at this `x`. */
    method SmallRow(w: World, c: Vec3, x: real, ghost i: int, ghost start: Scene, ghost cells: seq<Vec3>)
      requires WellFormed(small) && cells == SmallCells(c) && 0 <= i < 21 && x == -3.0 + 0.3 * i as real
      requires Scene(vegetation, props) == Visits(w, small, start, cells[..16 * i], true)
      modifies this
      ensures Scene(vegetation, props) == Visits(w, small, start, cells[..16 * i + 16], true)
      ensures center == old(center)
    {
      ghost var n := 16 * i;
      var y := -3.0;
      ghost var j := 0;
      while y <= 3.0
        invariant 0 <= j <= 16 && y == -3.0 + 0.4 * j as real && n == 16 * i + j
        invariant Scene(vegetation, props) == Visits(w, small, start, cells[..n], true)
        invariant center == old(center)
        decreases 16 - j
      {
        SmallStep(j, 0.4, 15);
        SmallCellAt(c, i, j, x, y);
        SmallCell(w, c, x, y, n, start, cells);
        y, j, n := y + 0.4, j + 1, n + 1;
      }
      SmallStep(j, 0.4, 15);
      assert j == 16;
      assert n == 16 * i + 16;
    }

    /** The large grid's body at `(x, y)`: the visit of cell `15 * (x + 7) + (y + 7)`. */
    method LargeCell(w: World, c: Vec3, x: int, y: int, ghost start: Scene, ghost cells: seq<Vec3>)
      requires WellFormed(small) && cells == LargeCells(c) && -7 <= x <= 7 && -7 <= y <= 7
      requires Scene(vegetation, props) == Visits(w, small, start, cells[..15 * (x + 7) + (y + 7)], false)
      modifies this
      ensures Scene(vegetation, props) == Visits(w, small, start, cells[..15 * (x + 7) + (y + 7) + 1], false)
      ensures center == old(center)
    {
      LargeCellAt(c, x, y);
      VisitsStep(w, small, start, cells, 15 * (x + 7) + (y + 7), false);
      VisitCell(w, CellPoint(x as real, y as real, c), false);
    }

    /** The small grid's body at `(x, y)`: the visit of cell `n`. */
    method SmallCell(w: World, c: Vec3, x: real, y: real, ghost n: int, ghost start: Scene, ghost cells: seq<Vec3>)
      requires WellFormed(small) && 0 <= n < |cells| && cells[n] == CellPoint(x, y, c)
      requires Scene(vegetation, props) == Visits(w, small, start, cells[..n], true)
      modifies this
      ensures Scene(vegetation, props) == Visits(w, small, start, cells[..n + 1], true)
      ensures center == old(center)
    {
      VisitsStep(w, small, start, cells, n, true);
      VisitCell(w, CellPoint(x, y, c), true);
    }

    /**
     * `DestroyVegation_`: walk the list, and for each record farther than
     * 150 from the player make its entity invisible and splice the record
     * out, stepping the index back so the next record is not skipped.
     */
    method DestroyVegetation(player: Vec3)
      requires Valid()
      modifies this
      ensures Valid()
      ensures vegetation == Survivors(old(vegetation), player)
      ensures props == Hidden(old(props), old(vegetation), player)
      ensures center == old(center)
    {
      ghost var vs := vegetation;
      ghost var k := 0;
      assert vs[..0] == [];
      var i := 0;
      while i < |vegetation|
        invariant 0 <= k <= |vs| && 0 <= i == |Survivors(vs[..k], player)|
        invariant vegetation == Survivors(vs[..k], player) + vs[k..]
        invariant props == Hidden(old(props), vs[..k], player)
        invariant center == old(center)
        decreases |vegetation| - i
      {
        i := CullAt(player, vs, k, old(props), i);
        i := i + 1;
        k := k + 1;
      }
      assert k == |vs|;
      assert vs[..|vs|] == vs;
      forall j | 0 <= j < |vegetation|
        ensures vegetation[j].name in props
      {
        SurvivorsMembers(vs, player, vegetation[j]);
      }
    }

    /**
     * The body of the cull loop at index `i`, which holds record `k` of the
     * original list: a far record's entity is made invisible and the record
     * spliced out, and the index steps back (`i--`) so that the loop's `++i`
     * lands on the record that moved into its place.
     */
    method CullAt(player: Vec3, ghost vs: seq<Veg>, ghost k: int, ghost props0: map<string, Prop>, i: int)
      returns (next: int)
      requires 0 <= k < |vs| && i == |Survivors(vs[..k], player)|
      requires vegetation == Survivors(vs[..k], player) + vs[k..]
      requires forall j :: 0 <= j < |vs| ==> vs[j].name in props0
      requires props == Hidden(props0, vs[..k], player)
      modifies this
      ensures next + 1 == |Survivors(vs[..k + 1], player)|
      ensures vegetation == Survivors(vs[..k + 1], player) + vs[k + 1..]
      ensures props == Hidden(props0, vs[..k + 1], player)
      ensures center == old(center)
    {
      CullStep(vs, k, player, vegetation, i);
      HiddenStep(props0, vs, k, player);
      next := i;
      var veg := vegetation[i];
      if Far(veg, player) {
        props := props[veg.name := props[veg.name].(visible := Invisible)];
        vegetation := vegetation[..i] + vegetation[i + 1..];
        next := i - 1;
      }
    }
  }
}

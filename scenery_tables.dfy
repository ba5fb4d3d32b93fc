/**
 * The scenery controller's catalogues as the module defines them, and what
 * the expansion makes of them when the module loads.
 */
module SceneryTables {
  import opened SceneryCatalogue

  const BirchEntry := Entry("Birch_1.fbx", "./resources/trees/FBX/",
    [("Bark", "Birch_Bark.png"), ("Leaves", "Birch_Leaves_Yellow.png")], 0.075, ["forest", "arid"], true)
  const TreeEntry := Entry("Tree_1.fbx", "./resources/trees/FBX/",
    [("Bark", "Tree_Bark.jpg"), ("Leaves", "Leaves_Blue.png")], 0.1, ["forest", "arid"], true)
  const RockEntry := Entry("Rock_1.fbx", "./resources/nature/FBX/", [], 0.25, ["arid", "desert"], true)
  const RockMossEntry := Entry("Rock_Moss_1.fbx", "./resources/nature/FBX/", [], 0.25, ["forest"], true)

  /** `_SCENERY` as written, before the expansion. */
  const SceneryTemplates := Catalogue(["birch1", "tree1", "rock1", "rockMoss1"],
    map["birch1" := BirchEntry, "tree1" := TreeEntry, "rock1" := RockEntry, "rockMoss1" := RockMossEntry])

  const PlantEntry := Entry("Plant_1.fbx", "./resources/nature/FBX/", [], 0.05, ["forest", "arid"], false)
  const GrassEntry := Entry("Grass_1.fbx", "./resources/nature/FBX/", [], 0.05, ["forest", "arid"], false)
  const FlowersEntry := Entry("Flowers.fbx", "./resources/nature/FBX/", [], 0.05, ["forest"], false)

  /** `_SCENERYSMALL` as written, before the expansion. */
  const SmallTemplates := Catalogue(["plant1", "grass1", "flowers1"],
    map["plant1" := PlantEntry, "grass1" := GrassEntry, "flowers1" := FlowersEntry])

  /** `multiples`, in key order. */
  const Multiples := [("birch1", Multiple("Birch_", "birch", 10)), ("tree1", Multiple("Tree_", "tree", 10)),
                      ("rock1", Multiple("Rock_", "rock", 7)), ("rockMoss1", Multiple("Rock_Moss_", "rockMoss", 7))]

  /** `multiplesSmall`, in key order. */
  const MultiplesSmall := [("plant1", Multiple("Plant_", "plant", 5)), ("grass1", Multiple("Grass_", "grass", 2))]

  /** `_SCENERY` once the module has loaded. */
  function Scenery(): Catalogue { ExpandAll(SceneryTemplates, Multiples, |Multiples|) }

  /** `_SCENERYSMALL` once the module has loaded. */
  function SmallScenery(): Catalogue { ExpandAll(SmallTemplates, MultiplesSmall, |MultiplesSmall|) }

  /** `_SCENERY` as written names each key once, among them every template `multiples` names. */
  lemma SceneryTemplatesShape()
    ensures WellFormed(SceneryTemplates) && Templates(SceneryTemplates, Multiples)
    ensures forall k :: k in SceneryTemplates.entries <==> k in SceneryTemplates.keys
  {
    var c := SceneryTemplates;
    assert c.keys[0] == "birch1" && c.keys[1] == "tree1" && c.keys[2] == "rock1" && c.keys[3] == "rockMoss1";
    DifferAt("birch1", "", "tree1", "", 0);
    DifferAt("birch1", "", "rock1", "", 0);
    DifferAt("birch1", "", "rockMoss1", "", 0);
    DifferAt("tree1", "", "rock1", "", 0);
    DifferAt("tree1", "", "rockMoss1", "", 0);
    DifferAt("rock1", "", "rockMoss1", "", 4);
  }

  /** No copy key of `multiples` is a key of `_SCENERY` as written. */
  lemma SceneryCopiesNew()
    ensures forall j, i :: 0 <= j < |Multiples| && 2 <= i < Multiples[j].1.num ==>
      CopyKey(Multiples[j].1, i) !in SceneryTemplates.entries
  {
    SceneryTemplatesShape();
    var c, ms := SceneryTemplates, Multiples;
    forall j, i | 0 <= j < |ms| && 2 <= i < ms[j].1.num
      ensures CopyKey(ms[j].1, i) !in c.keys
    {
      var key, d := ms[j].1.key, Decimal(i);
      NotFirst(key, i);
      if j == 0 {
        DifferAt(key, d, "tree", "1", 0); DifferAt(key, d, "rock", "1", 0); DifferAt(key, d, "rockMoss", "1", 0);
      } else if j == 1 {
        DifferAt(key, d, "birch", "1", 0); DifferAt(key, d, "rock", "1", 0); DifferAt(key, d, "rockMoss", "1", 0);
      } else if j == 2 {
        DifferAt(key, d, "birch", "1", 0); DifferAt(key, d, "tree", "1", 0);
        DigitAgainst(key, i, "rockMoss", "1");
      } else {
        DifferAt(key, d, "birch", "1", 0); DifferAt(key, d, "tree", "1", 0);
        DigitAgainst("rock", 1, key, d);
      }
    }
  }

  /** Copies of different multiples get different keys. */
  lemma SceneryCopiesDistinct()
    ensures forall j1, i1, j2, i2 ::
      0 <= j1 < j2 < |Multiples| && 2 <= i1 < Multiples[j1].1.num && 2 <= i2 < Multiples[j2].1.num ==>
        CopyKey(Multiples[j1].1, i1) != CopyKey(Multiples[j2].1, i2)
  {
    var ms := Multiples;
    forall j1, i1, j2, i2 | 0 <= j1 < j2 < |ms| && 2 <= i1 < ms[j1].1.num && 2 <= i2 < ms[j2].1.num
      ensures CopyKey(ms[j1].1, i1) != CopyKey(ms[j2].1, i2)
    {
      var a, b := ms[j1].1.key, ms[j2].1.key;
      if j1 == 2 && j2 == 3 {
        DigitAgainst(a, i1, b, Decimal(i2));
      } else {
        DifferAt(a, Decimal(i1), b, Decimal(i2), 0);
      }
    }
  }

  /** The large catalogue's copy keys are all new and all different. */
  lemma SceneryFresh()
    ensures WellFormed(SceneryTemplates) && Fresh(SceneryTemplates, Multiples)
  {
    SceneryTemplatesShape();
    SceneryCopiesNew();
    SceneryCopiesDistinct();
  }

  /** `_SCENERYSMALL` as written names each key once, among them every template `multiplesSmall` names. */
  lemma SmallTemplatesShape()
    ensures WellFormed(SmallTemplates) && Templates(SmallTemplates, MultiplesSmall)
    ensures forall k :: k in SmallTemplates.entries <==> k in SmallTemplates.keys
  {
    var c := SmallTemplates;
    assert c.keys[0] == "plant1" && c.keys[1] == "grass1" && c.keys[2] == "flowers1";
    DifferAt("plant1", "", "grass1", "", 0);
    DifferAt("plant1", "", "flowers1", "", 0);
    DifferAt("grass1", "", "flowers1", "", 0);
  }

  /** The small catalogue's copy keys are all new and all different. */
  lemma SmallFresh()
    ensures WellFormed(SmallTemplates) && Fresh(SmallTemplates, MultiplesSmall)
  {
    SmallTemplatesShape();
    var c, ms := SmallTemplates, MultiplesSmall;
    forall j, i | 0 <= j < |ms| && 2 <= i < ms[j].1.num
      ensures CopyKey(ms[j].1, i) !in c.keys
    {
      var key, d := ms[j].1.key, Decimal(i);
      NotFirst(key, i);
      DifferAt(key, d, "grass", "1", 0);
      DifferAt(key, d, "flowers", "1", 0);
    }
  }

  /**
   * `_SCENERY` once loaded: the four templates followed by `birch2`..`birch9`,
   * `tree2`..`tree9`, `rock2`..`rock6` and `rockMoss2`..`rockMoss6`; the
   * templates unchanged and every copy its template with its own model file.
   */
  lemma SceneryExpanded()
    ensures WellFormed(Scenery()) && Templates(SceneryTemplates, Multiples)
    ensures AllKeys(SceneryTemplates, Multiples, 4, Scenery())
    ensures AllEntries(SceneryTemplates, Multiples, 4, Scenery())
  {
    SceneryFresh();
    ExpandAllFresh(SceneryTemplates, Multiples, 4);
  }

  /**
   * `_SCENERYSMALL` once loaded: the three templates followed by
   * `plant2`..`plant4` (`grass` has `num: 2`, so it gets no copies).
   */
  lemma SmallExpanded()
    ensures WellFormed(SmallScenery()) && Templates(SmallTemplates, MultiplesSmall)
    ensures AllKeys(SmallTemplates, MultiplesSmall, 2, SmallScenery())
    ensures AllEntries(SmallTemplates, MultiplesSmall, 2, SmallScenery())
  {
    SmallFresh();
    ExpandAllFresh(SmallTemplates, MultiplesSmall, 2);
  }

  /**
   * Every biome `FindBiome_` can return has large scenery (`rock1` grows in
   * the desert, `birch1` in forest and arid land), so `SpawnAt_` always has
   * a list to pick from.
   */
  lemma LargeSceneryForEveryBiome(moisture: real, y: real)
    ensures forall i :: 0 <= i < |Scenery().keys| ==> Scenery().keys[i] in Scenery().entries
    ensures MatchingKeys(Scenery(), Scenery().keys, FindBiome(moisture, y)) != []
  {
    SceneryExpanded();
    SceneryBirchAndRock();
    BirchAndRock(Scenery(), FindBiome(moisture, y));
  }

  /** `birch1` and `rock1` keep their places and their entries in `_SCENERY` once loaded. */
  lemma SceneryBirchAndRock()
    ensures 2 < |Scenery().keys| && Scenery().keys[0] == "birch1" && Scenery().keys[2] == "rock1"
    ensures "birch1" in Scenery().entries && Scenery().entries["birch1"] == BirchEntry
    ensures "rock1" in Scenery().entries && Scenery().entries["rock1"] == RockEntry
  {
    SceneryExpanded();
    TemplateBirchAndRock();
    var c, r := SceneryTemplates, Scenery();
    KeptTemplate(c, Multiples, 4, r, 0);
    KeptTemplate(c, Multiples, 4, r, 2);
  }

  /** The entries `_SCENERY` as written gives `birch1` and `rock1`. */
  lemma TemplateBirchAndRock()
    ensures SceneryTemplates.keys[0] == "birch1" && SceneryTemplates.keys[2] == "rock1"
    ensures "birch1" in SceneryTemplates.entries && SceneryTemplates.entries["birch1"] == BirchEntry
    ensures "rock1" in SceneryTemplates.entries && SceneryTemplates.entries["rock1"] == RockEntry
  {
    DifferAt("birch1", "", "tree1", "", 0);
    DifferAt("birch1", "", "rock1", "", 0);
    DifferAt("birch1", "", "rockMoss1", "", 0);
    DifferAt("rock1", "", "rockMoss1", "", 4);
  }

  /** A catalogue that starts with `birch1` and holds `rock1` third matches every biome. */
  lemma BirchAndRock(c: Catalogue, b: string)
    requires forall i :: 0 <= i < |c.keys| ==> c.keys[i] in c.entries
    requires 2 < |c.keys| && c.keys[0] == "birch1" && c.keys[2] == "rock1"
    requires c.entries["birch1"] == BirchEntry && c.entries["rock1"] == RockEntry
    requires b == "desert" || b == "forest" || b == "arid"
    ensures MatchingKeys(c, c.keys, b) != []
  {
    if b == "desert" {
      assert b in RockEntry.biomes;
      MatchingHas(c, c.keys, b, 2);
    } else {
      assert b in BirchEntry.biomes;
      MatchingHas(c, c.keys, b, 0);
    }
  }

  /**
   * No small scenery grows in the desert: every small entry is a template or
   * a copy of `plant1`, none of which lists `desert`, so `SpawnSmallAt_`
   * returns null there.
   */
  lemma NoSmallSceneryInDesert()
    ensures forall i :: 0 <= i < |SmallScenery().keys| ==> SmallScenery().keys[i] in SmallScenery().entries
    ensures MatchingKeys(SmallScenery(), SmallScenery().keys, "desert") == []
  {
    SmallExpanded();
    SmallTemplatesShape();
    SmallTemplatesNotDesert();
    BiomeFreeExpansion(SmallTemplates, MultiplesSmall, 2, SmallScenery(), "desert");
    MatchingNone(SmallScenery(), SmallScenery().keys, "desert");
  }

  /** None of `_SCENERYSMALL`'s own entries lists `desert`. */
  lemma SmallTemplatesNotDesert()
    ensures forall k :: k in SmallTemplates.entries ==> "desert" !in SmallTemplates.entries[k].biomes
  {
    DifferAt("desert", "", "forest", "", 0);
    DifferAt("desert", "", "arid", "", 0);
  }
}

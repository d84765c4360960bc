/**
 * The static tables of game.js: the five difficulty rows of `levelConfig`,
 * the `itemTypes`, `powerupTypes` and `obstacleTypes` catalogs, the
 * level gates that filter them, and the two lives-to-basket-size rules.
 */
module Catalog {

  // ---------------------------------------------------------------------------
  // levelConfig
  // ---------------------------------------------------------------------------

  /** One row of `levelConfig` (background and `specialItems` are styling only). */
  datatype LevelRow = LevelRow(targetScore: int, obstacleFrequency: int, itemSpeed: real, maxObstacles: int)

  const LevelConfig: seq<LevelRow> := [
    LevelRow(100, 2000, 2.0, 3),
    LevelRow(250, 1800, 2.5, 4),
    LevelRow(500, 1600, 3.0, 5),
    LevelRow(800, 1400, 3.5, 6),
    LevelRow(1200, 1200, 4.0, 7)
  ]

  /** `Math.min(level - 1, levelConfig.length - 1)`: every difficulty read clamps to the last row. */
  function RowIndex(level: int): (k: nat)
    requires level >= 1
    ensures k < |LevelConfig|
    ensures k == level - 1 || (level > |LevelConfig| && k == |LevelConfig| - 1)
  {
    if level - 1 < |LevelConfig| - 1 then level - 1 else |LevelConfig| - 1
  }

  function LevelRowFor(level: int): LevelRow
    requires level >= 1
  {
    LevelConfig[RowIndex(level)]
  }

  /**
   * The `targetScore` `levelUp` records for the new level: the table row up to
   * level 5, then `Math.floor(1200 * 1.5)`.
   */
  function TargetAfterLevelUp(level: int): int
    requires level >= 1
  {
    if level <= |LevelConfig| then LevelConfig[level - 1].targetScore
    else (LevelConfig[|LevelConfig| - 1].targetScore * 3) / 2
  }

  /** Difficulty never eases: later levels need more score, allow more obstacles, spawn them more often and fall faster. */
  lemma LevelRowsMonotone(a: int, b: int)
    requires 1 <= a <= b
    ensures LevelRowFor(a).targetScore <= LevelRowFor(b).targetScore
    ensures LevelRowFor(a).maxObstacles <= LevelRowFor(b).maxObstacles
    ensures LevelRowFor(a).itemSpeed <= LevelRowFor(b).itemSpeed
    ensures LevelRowFor(a).obstacleFrequency >= LevelRowFor(b).obstacleFrequency
  {
  }

  /** Every level from 5 on reads the last row. */
  lemma LevelRowClamped(level: int)
    requires level >= |LevelConfig|
    ensures LevelRowFor(level) == LevelRow(1200, 1200, 4.0, 7)
    ensures RowIndex(level) == |LevelConfig| - 1
  {
  }

  /**
   * The recorded target agrees with the row the frame test reads up to level
   * 5; from level 6 on it is 1800 while the frame still tests against 1200.
   */
  lemma RecordedTargetVersusFrameTest(level: int)
    requires level >= 1
    ensures level <= |LevelConfig| ==> TargetAfterLevelUp(level) == LevelRowFor(level).targetScore
    ensures level > |LevelConfig| ==> TargetAfterLevelUp(level) == 1800 && LevelRowFor(level).targetScore == 1200
  {
  }

  // ---------------------------------------------------------------------------
  // Basket size against lives
  // ---------------------------------------------------------------------------

  /** `lives === 1 ? 0.65 : (lives === 2 ? 0.8 : 1.0)` (start, giant, giant expiry). */
  function LifeSizeFactor(lives: int): real {
    if lives == 1 then 0.65 else if lives == 2 then 0.8 else 1.0
  }

  /** `[0.65, 0.8, 1.0][lives - 1] || 0.65` (obstacle hit). */
  function HitSizeFactor(lives: int): real {
    if 1 <= lives <= 3 then [0.65, 0.8, 1.0][lives - 1] else 0.65
  }

  /**
   * The two size rules agree exactly on 1..3 lives; outside that range the
   * conditional gives full size and the table lookup falls back to 0.65.
   */
  lemma SizeFactorsAgree(lives: int)
    ensures LifeSizeFactor(lives) == HitSizeFactor(lives) <==> 1 <= lives <= 3
    ensures 0.65 <= LifeSizeFactor(lives) <= 1.0 && 0.65 <= HitSizeFactor(lives) <= 1.0
  {
  }

  /** Fewer lives never give a larger basket. */
  lemma SizeFactorMonotone(a: int, b: int)
    requires 1 <= a <= b <= 3
    ensures LifeSizeFactor(a) <= LifeSizeFactor(b) && HitSizeFactor(a) <= HitSizeFactor(b)
  {
  }

  // ---------------------------------------------------------------------------
  // Item and obstacle catalogs
  // ---------------------------------------------------------------------------

  /**
   * A catalog entry: its type name, its points (for an obstacle, the
   * `deduction`) and its rarity, whose reciprocal is its selection weight.
   */
  datatype CatalogEntry = CatalogEntry(name: string, points: int, rarity: real)

  const ItemTypes: seq<CatalogEntry> := [
    CatalogEntry("apple", 1, 0.4),
    CatalogEntry("banana", 1, 0.3),
    CatalogEntry("orange", 1, 0.3),
    CatalogEntry("strawberry", 1, 0.3),
    CatalogEntry("grape", 1, 0.3),
    CatalogEntry("watermelon", 2, 0.1),
    CatalogEntry("pineapple", 2, 0.1),
    CatalogEntry("kiwi", 2, 0.1),
    CatalogEntry("mango", 2, 0.1),
    CatalogEntry("coconut", 2, 0.1),
    CatalogEntry("cake", 3, 0.05),
    CatalogEntry("icecream", 3, 0.05),
    CatalogEntry("donut", 3, 0.05),
    CatalogEntry("gem", 3, 0.05),
    CatalogEntry("coin", 3, 0.05),
    CatalogEntry("star", 5, 0.02),
    CatalogEntry("rainbow", 10, 0.01)
  ]

  const ObstacleTypes: seq<CatalogEntry> := [
    CatalogEntry("spiky", 1, 0.3),
    CatalogEntry("rock", 1, 0.3),
    CatalogEntry("bomb", 2, 0.2),
    CatalogEntry("lightning", 3, 0.1),
    CatalogEntry("skull", 3, 0.15),
    CatalogEntry("devil", 4, 0.05),
    CatalogEntry("gun", 3, 0.05)
  ]

  /** A catalog every entry of which can be scored and weighted. */
  predicate WellFormed(entries: seq<CatalogEntry>) {
    forall i :: 0 <= i < |entries| ==> entries[i].points >= 1 && entries[i].rarity > 0.0
  }

  lemma ItemTypesWellFormed()
    ensures WellFormed(ItemTypes)
  {
  }

  lemma ObstacleTypesWellFormed()
    ensures WellFormed(ObstacleTypes)
  {
  }

  /** `entries.filter(e => e.rarity <= bound)`; no bound keeps everything. */
  function FilterRarity(entries: seq<CatalogEntry>, bound: real): (kept: seq<CatalogEntry>)
    ensures |kept| <= |entries|
  {
    if entries == [] then []
    else if entries[0].rarity <= bound then [entries[0]] + FilterRarity(entries[1..], bound)
    else FilterRarity(entries[1..], bound)
  }

  /** `selectItemWithIntelligence`'s level gate: levels 1-2 rarity <= 0.4, 3-4 <= 0.7, then all. */
  function AvailableItems(level: int): seq<CatalogEntry> {
    if level <= 2 then FilterRarity(ItemTypes, 0.4)
    else if level <= 4 then FilterRarity(ItemTypes, 0.7)
    else ItemTypes
  }

  /** `selectObstacleWithIntelligence`'s level gate: levels 1-2 rarity <= 0.3, 3-4 <= 0.7, then all. */
  function AvailableObstacles(level: int): seq<CatalogEntry> {
    if level <= 2 then FilterRarity(ObstacleTypes, 0.3)
    else if level <= 4 then FilterRarity(ObstacleTypes, 0.7)
    else ObstacleTypes
  }

  lemma {:induction false} FilterKeepsAll(entries: seq<CatalogEntry>, bound: real)
    requires forall e :: e in entries ==> e.rarity <= bound
    ensures FilterRarity(entries, bound) == entries
  {
    if entries != [] {
      FilterKeepsAll(entries[1..], bound);
    }
  }

  /**
   * The item gate never removes anything: every rarity is already under the
   * first threshold, so every level draws from the whole catalog.
   */
  lemma ItemGateAdmitsAll(level: int)
    ensures AvailableItems(level) == ItemTypes
  {
    if level <= 4 {
      var bound := if level <= 2 then 0.4 else 0.7;
      assert forall e :: e in ItemTypes ==> e.rarity <= bound;
      FilterKeepsAll(ItemTypes, bound);
    }
  }

  /** The obstacle gate never removes anything either. */
  lemma ObstacleGateAdmitsAll(level: int)
    ensures AvailableObstacles(level) == ObstacleTypes
  {
    if level <= 4 {
      var bound := if level <= 2 then 0.3 else 0.7;
      assert forall e :: e in ObstacleTypes ==> e.rarity <= bound;
      FilterKeepsAll(ObstacleTypes, bound);
    }
  }

  /** `itemTypes.find(i => i.type === name) || itemTypes[0]`. */
  function FindItem(name: string): (e: CatalogEntry)
    ensures e in ItemTypes
    ensures e.name == name || (e == ItemTypes[0] && forall i :: 0 <= i < |ItemTypes| ==> ItemTypes[i].name != name)
  {
    FindIn(ItemTypes, name, 0)
  }

  function FindIn(entries: seq<CatalogEntry>, name: string, from: nat): (e: CatalogEntry)
    requires |entries| > 0 && from <= |entries|
    requires forall i :: 0 <= i < from ==> entries[i].name != name
    ensures e in entries
    ensures e.name == name || (e == entries[0] && forall i :: 0 <= i < |entries| ==> entries[i].name != name)
    decreases |entries| - from
  {
    if from == |entries| then entries[0]
    else if entries[from].name == name then entries[from]
    else FindIn(entries, name, from + 1)
  }

  // ---------------------------------------------------------------------------
  // Power-up catalog
  // ---------------------------------------------------------------------------

  /** The power-up types: the closed set of `type` strings `powerupTypes` lists. */
  datatype Power = Magnet | Shield | Multiplier | Freeze | Blast | ExtraLife | Giant | TimeSlow | DoubleTrouble | GoldRush

  /** A `powerupTypes` entry: its type and how long it lasts, in milliseconds. */
  datatype PowerupEntry = PowerupEntry(name: Power, duration: real)

  const PowerupTypes: seq<PowerupEntry> := [
    PowerupEntry(Magnet, 8000.0),
    PowerupEntry(Shield, 10000.0),
    PowerupEntry(Multiplier, 15000.0),
    PowerupEntry(Freeze, 7000.0),
    PowerupEntry(Blast, 500.0),
    PowerupEntry(ExtraLife, 500.0),
    PowerupEntry(Giant, 10000.0),
    PowerupEntry(TimeSlow, 8000.0),
    PowerupEntry(DoubleTrouble, 12000.0),
    PowerupEntry(GoldRush, 6000.0)
  ]

  /** The gold types a gold rush turns items into, and the fruits it turns them back into. */
  const GoldTypes: seq<string> := ["coin", "gem", "star"]
  const NormalFruits: seq<string> := ["apple", "banana", "orange", "strawberry", "watermelon"]

  /** Every gold type is in the catalog and a gold item is worth double its value: 6 or 10. */
  lemma GoldPoints(i: nat)
    requires i < |GoldTypes|
    ensures FindItem(GoldTypes[i]).name == GoldTypes[i]
    ensures FindItem(GoldTypes[i]).points * 2 in {6, 10}
  {
    if i == 0 {
      assert ItemTypes[14] == CatalogEntry("coin", 3, 0.05);
    } else if i == 1 {
      assert ItemTypes[13] == CatalogEntry("gem", 3, 0.05);
    } else {
      assert ItemTypes[15] == CatalogEntry("star", 5, 0.02);
    }
  }

  /** Every fruit a gold rush reverts to is in the catalog, worth 1 or 2. */
  lemma FruitPoints(j: nat)
    requires j < |NormalFruits|
    ensures FindItem(NormalFruits[j]).name == NormalFruits[j]
    ensures FindItem(NormalFruits[j]).points in {1, 2}
  {
    if j == 0 {
      assert ItemTypes[0] == CatalogEntry("apple", 1, 0.4);
    } else if j == 1 {
      assert ItemTypes[1] == CatalogEntry("banana", 1, 0.3);
    } else if j == 2 {
      assert ItemTypes[2] == CatalogEntry("orange", 1, 0.3);
    } else if j == 3 {
      assert ItemTypes[3] == CatalogEntry("strawberry", 1, 0.3);
    } else {
      assert ItemTypes[5] == CatalogEntry("watermelon", 2, 0.1);
    }
  }

  /** `0.15 + level * 0.08`: the chance that a power-up tick spawns one. */
  function PowerupChance(level: int): real {
    0.15 + (level as real) * 0.08
  }

  /** The chance grows with the level and reaches certainty from level 11 on. */
  lemma PowerupChanceGrows(a: int, b: int)
    requires a <= b
    ensures PowerupChance(a) <= PowerupChance(b)
    ensures b >= 11 ==> PowerupChance(b) > 1.0
  {
  }
}

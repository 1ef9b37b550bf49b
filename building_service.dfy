/**
 * The economy formulas: upgrade cost, production rate and village points, computed in
 * exact rational arithmetic (1.26 = 63/50, 1.2 = 6/5).
 */
module BuildingService {
  import opened Wrappers
  import opened Constants
  import BuildingModel

  /** `Math.pow(r, n)` for a natural exponent. */
  function Pow(r: real, n: nat): (p: real)
    ensures r > 0.0 ==> p > 0.0
    ensures r >= 1.0 ==> p >= 1.0
  {
    if n == 0 then 1.0
    else
      var q := Pow(r, n - 1);
      assert r >= 1.0 ==> r * q >= q;
      r * q
  }

  /** Each further exponent multiplies by r once more. */
  lemma {:induction false} PowStep(r: real, n: nat)
    ensures Pow(r, n + 1) == r * Pow(r, n)
  {
  }

  /** A power of a factor of at least 1 does not decrease as the exponent grows. */
  lemma {:induction false} PowMonotone(r: real, n: nat, m: nat)
    requires r >= 1.0 && n <= m
    ensures Pow(r, n) <= Pow(r, m)
  {
    if n < m {
      PowMonotone(r, n, m - 1);
      var q := Pow(r, m - 1);
      assert q >= 1.0;
      assert (r - 1.0) * q >= 0.0;
      assert Pow(r, m) == r * q;
    }
  }

  /** `Math.pow(r, e)` for an integer exponent (production at level 0 uses e = -1). */
  function PowInt(r: real, e: int): (p: real)
    requires r > 0.0
    ensures p > 0.0
  {
    if e >= 0 then Pow(r, e) else 1.0 / Pow(r, -e)
  }

  /** Floor of a base amount scaled by a factor. */
  function Scaled(base: int, factor: real): int {
    (base as real * factor).Floor
  }

  /** x multiplied by r, n times over: x * r^n built up one factor at a time. */
  function Grow(x: real, r: real, n: nat): real {
    if n == 0 then x else r * Grow(x, r, n - 1)
  }

  /** Growing x by n factors of r is scaling x by the n-th power of r. */
  lemma {:induction false} GrowIsScaledPower(x: real, r: real, n: nat)
    ensures Grow(x, r, n) == x * Pow(r, n)
  {
    if n > 0 {
      GrowIsScaledPower(x, r, n - 1);
      assert r * (x * Pow(r, n - 1)) == x * (r * Pow(r, n - 1));
    }
  }

  /** Flooring the grown amount is flooring the scaled base. */
  lemma GrowFloor(base: int, r: real, n: nat)
    ensures Grow(base as real, r, n).Floor == Scaled(base, Pow(r, n))
  {
    GrowIsScaledPower(base as real, r, n);
  }

  /** The cost of upgrading a building of kind k from `level` to `level + 1`. */
  function UpgradeCost(k: Kind, level: nat): (c: Triple<int>)
    ensures level == 0 ==> c == BaseCost(k)
  {
    var b := BaseCost(k);
    Triple(Grow(b.wood as real, CostMultiplier, level).Floor,
           Grow(b.clay as real, CostMultiplier, level).Floor,
           Grow(b.iron as real, CostMultiplier, level).Floor)
  }

  /**
   * The cost is `Math.floor(baseCost * Math.pow(1.26, level))` in each component, with the power
   * and the product taken exactly.
   */
  lemma UpgradeCostFormula(k: Kind, level: nat)
    ensures var m := Pow(CostMultiplier, level);
      UpgradeCost(k, level) == Triple(Scaled(BaseCost(k).wood, m), Scaled(BaseCost(k).clay, m), Scaled(BaseCost(k).iron, m))
  {
    GrowFloor(BaseCost(k).wood, CostMultiplier, level);
    GrowFloor(BaseCost(k).clay, CostMultiplier, level);
    GrowFloor(BaseCost(k).iron, CostMultiplier, level);
  }

  /** calculateUpgradeCost: fails exactly for a type that is not a key of BUILDINGS. */
  function CalculateUpgradeCost(buildingType: string, currentLevel: nat): (r: Result<Triple<int>, ErrorCode>)
    ensures r.Err? <==> KindOf(buildingType).None?
    ensures r.Err? ==> r.error == InvalidBuildingType
    ensures r.Ok? ==> r.value == UpgradeCost(KindOf(buildingType).value, currentLevel)
  {
    match KindOf(buildingType)
    case None => Err(InvalidBuildingType)
    case Some(k) => Ok(UpgradeCost(k, currentLevel))
  }

  /** Scaling a positive base by a factor of at least 1 keeps at least the base, and is monotone. */
  lemma ScaledBounds(base: int, f: real, g: real)
    requires base > 0 && 1.0 <= f <= g
    ensures base <= Scaled(base, f) <= Scaled(base, g)
  {
    assert base as real * f <= base as real * g;
    assert base as real <= base as real * f;
  }

  /** At level 0 the cost is exactly baseCost; at every level every component is at least baseCost. */
  lemma UpgradeCostAtLeastBase(k: Kind, level: nat)
    ensures UpgradeCost(k, 0) == BaseCost(k)
    ensures var c, b := UpgradeCost(k, level), BaseCost(k);
      c.wood >= b.wood && c.clay >= b.clay && c.iron >= b.iron
  {
    UpgradeCostFormula(k, level);
    UpgradeCostFormula(k, 0);
    var m := Pow(CostMultiplier, level);
    ScaledBounds(BaseCost(k).wood, m, m);
    ScaledBounds(BaseCost(k).clay, m, m);
    ScaledBounds(BaseCost(k).iron, m, m);
  }

  /** Cost is non-decreasing in the level, component by component. */
  lemma UpgradeCostMonotone(k: Kind, a: nat, b: nat)
    requires a <= b
    ensures UpgradeCost(k, a).wood <= UpgradeCost(k, b).wood
    ensures UpgradeCost(k, a).clay <= UpgradeCost(k, b).clay
    ensures UpgradeCost(k, a).iron <= UpgradeCost(k, b).iron
  {
    UpgradeCostFormula(k, a);
    UpgradeCostFormula(k, b);
    var f, g := Pow(CostMultiplier, a), Pow(CostMultiplier, b);
    PowMonotone(CostMultiplier, a, b);
    ScaledBounds(BaseCost(k).wood, f, g);
    ScaledBounds(BaseCost(k).clay, f, g);
    ScaledBounds(BaseCost(k).iron, f, g);
  }

  /** A real between n and n + 1 has floor n. */
  lemma FloorBetween(x: real, n: int)
    requires n as real <= x < n as real + 1.0
    ensures x.Floor == n
  {
  }

  /** The powers of 1.26 the worked examples need. */
  lemma PowCostMultiplier()
    ensures Pow(CostMultiplier, 1) == 1.26
    ensures Pow(CostMultiplier, 2) == 1.5876
    ensures Pow(CostMultiplier, 5) == 3.1757969376
  {
    assert Pow(1.26, 5) == 3.1757969376;
  }

  /** 1.26 to the 14th power exceeds 25. */
  lemma PowFourteen()
    ensures Pow(CostMultiplier, 14) > 25.0
  {
    assert Grow(1.0, 1.26, 14) > 25.0;
    GrowIsScaledPower(1.0, CostMultiplier, 14);
  }

  /** The source comment's example: the level-5 lumber upgrade costs {158, 190, 127}, not {159, 191, 127}. */
  lemma LumberLevelFiveCost()
    ensures UpgradeCost(Lumber, 5) == Triple(158, 190, 127)
  {
    assert Grow(50.0, 1.26, 5) == 158.78984688;
    assert Grow(60.0, 1.26, 5) == 190.547816256;
    assert Grow(40.0, 1.26, 5) == 127.031877504;
    FloorBetween(158.78984688, 158);
    FloorBetween(190.547816256, 190);
    FloorBetween(127.031877504, 127);
  }

  /**
   * From level 14 on, the wood cost of every kind exceeds the starting storage of 1000, so with
   * that storage no building can reach its maxLevel (at least 20), and the missing maxLevel check
   * in the upgrade orchestrator never matters while storage stays at its starting value.
   */
  lemma UpgradeBlockedFromLevelFourteen(k: Kind, level: nat)
    requires level >= 14
    ensures UpgradeCost(k, level).wood > StartingStorage.wood
    ensures 14 < MaxLevel(k)
  {
    UpgradeCostFormula(k, level);
    PowFourteen();
    PowMonotone(CostMultiplier, 14, level);
    ScaledBounds(BaseCost(k).wood, 25.0, Pow(CostMultiplier, level));
    assert Scaled(BaseCost(k).wood, 25.0) == BaseCost(k).wood * 25;
  }

  /** The production rate of a kind at a level: 0 for kinds without baseProduction. */
  function Production(k: Kind, level: nat): (p: int)
    ensures BaseProduction(k).None? ==> p == 0
    ensures level == 1 && BaseProduction(k).Some? ==> p == BaseProduction(k).value
  {
    match BaseProduction(k)
    case None => 0
    case Some(b) =>
      if level == 0 then (b as real / ProductionMultiplier).Floor
      else Grow(b as real, ProductionMultiplier, level - 1).Floor
  }

  /** The rate is `Math.floor(baseProduction * Math.pow(1.2, level - 1))`, taken exactly. */
  lemma ProductionFormula(k: Kind, level: nat)
    requires IsProducer(k)
    ensures Production(k, level) == Scaled(BaseProduction(k).value, PowInt(ProductionMultiplier, level - 1))
  {
    var b := BaseProduction(k).value;
    if level == 0 {
      assert PowInt(ProductionMultiplier, -1) == 1.0 / 1.2;
      assert b as real * (1.0 / 1.2) == b as real / 1.2;
    } else {
      GrowFloor(b, ProductionMultiplier, level - 1);
    }
  }

  /** calculateProduction: 0 for unknown types and types without baseProduction. */
  function CalculateProduction(buildingType: string, level: nat): (p: int)
    ensures KindOf(buildingType).None? ==> p == 0
    ensures KindOf(buildingType).Some? ==> p == Production(KindOf(buildingType).value, level)
  {
    match KindOf(buildingType)
    case None => 0
    case Some(k) => Production(k, level)
  }

  /** At level 1 a producer yields its baseProduction (30/30/25, the village defaults); others yield 0. */
  lemma ProductionAtLevelOne(k: Kind)
    ensures Production(k, 1) == if IsProducer(k) then BaseProduction(k).value else 0
    ensures Production(Lumber, 1) == DefaultProduction.wood
    ensures Production(Clay, 1) == DefaultProduction.clay
    ensures Production(Iron, 1) == DefaultProduction.iron
  {
  }

  /** Floors of two reals at least 1 apart differ. */
  lemma FloorGap(x: real, y: real)
    requires x + 1.0 <= y
    ensures x.Floor < y.Floor
  {
  }

  /** A product of a base of at least 1 and a factor of at least 1 is at least the base. */
  lemma ProductAtLeastBase(b: real, q: real)
    requires b >= 1.0 && q >= 1.0
    ensures b * q >= b
  {
    assert b * q - b == b * (q - 1.0);
  }

  /** Every level above 1 raises a producer's rate by at least one unit. */
  lemma ProductionStrictlyIncreasing(k: Kind, level: nat)
    requires IsProducer(k) && level >= 1
    ensures Production(k, level) < Production(k, level + 1)
  {
    var b := BaseProduction(k).value as real;
    var x := Grow(b, ProductionMultiplier, level - 1);
    assert Production(k, level) == x.Floor;
    assert Production(k, level + 1) == (1.2 * x).Floor;
    GrowIsScaledPower(b, ProductionMultiplier, level - 1);
    ProductAtLeastBase(b, Pow(ProductionMultiplier, level - 1));
    FloorGap(x, 1.2 * x);
  }

  lemma PowProductionMultiplier()
    ensures Pow(ProductionMultiplier, 5) == 2.48832
  {
    assert Pow(1.2, 5) == 2.48832;
  }

  /** The source comment's example: lumber at level 6 produces 74 per hour, not 75. */
  lemma LumberLevelSixProduction()
    ensures Production(Lumber, 6) == 74
  {
    assert Grow(30.0, 1.2, 5) == 74.6496;
    FloorBetween(74.6496, 74);
  }

  /** wood + clay + iron. */
  function Total(c: Triple<int>): int {
    c.wood + c.clay + c.iron
  }

  /** The points one building at `level` contributes before the final floor: Σ_{i<level} Total(cost_i)/10. */
  function LevelPoints(k: Kind, level: nat): real {
    if level == 0 then 0.0 else LevelPoints(k, level - 1) + Total(UpgradeCost(k, level - 1)) as real / 10.0
  }

  /** The running sum `totalPoints` over a sequence of (kind, level) records, before the floor. */
  function RecordsPoints(recs: seq<(Kind, nat)>): real {
    if recs == [] then 0.0
    else RecordsPoints(recs[..|recs| - 1]) + LevelPoints(recs[|recs| - 1].0, recs[|recs| - 1].1)
  }

  /** What calculateVillagePoints returns for these records: the floor taken once, at the end. */
  function Score(recs: seq<(Kind, nat)>): int {
    RecordsPoints(recs).Floor
  }

  /** Integer reference: the amount ever spent on one building, Σ_{i<level} Total(cost_i). */
  function LevelInvestment(k: Kind, level: nat): int {
    if level == 0 then 0 else LevelInvestment(k, level - 1) + Total(UpgradeCost(k, level - 1))
  }

  /** Integer reference: the amount ever spent on all the records. */
  function Investment(recs: seq<(Kind, nat)>): int {
    if recs == [] then 0
    else Investment(recs[..|recs| - 1]) + LevelInvestment(recs[|recs| - 1].0, recs[|recs| - 1].1)
  }

  lemma {:induction false} LevelPointsAreInvestmentOverTen(k: Kind, level: nat)
    ensures LevelPoints(k, level) == LevelInvestment(k, level) as real / 10.0
  {
    if level > 0 {
      LevelPointsAreInvestmentOverTen(k, level - 1);
    }
  }

  /** In exact arithmetic the accumulated tenths are the total investment over ten. */
  lemma {:induction false} PointsAreInvestmentOverTen(recs: seq<(Kind, nat)>)
    ensures RecordsPoints(recs) == Investment(recs) as real / 10.0
  {
    if recs != [] {
      PointsAreInvestmentOverTen(recs[..|recs| - 1]);
      LevelPointsAreInvestmentOverTen(recs[|recs| - 1].0, recs[|recs| - 1].1);
    }
  }

  lemma FloorOfTenth(x: int)
    ensures (x as real / 10.0).Floor == x / 10
  {
    var q, m := x / 10, x % 10;
    assert x as real / 10.0 == q as real + m as real / 10.0;
  }

  /** The score is the integer quotient of the total investment by 10. */
  lemma ScoreIsInvestmentDivTen(recs: seq<(Kind, nat)>)
    ensures Score(recs) == Investment(recs) / 10
  {
    PointsAreInvestmentOverTen(recs);
    FloorOfTenth(Investment(recs));
  }

  /** A building at level 0 adds nothing, and no records score 0. */
  lemma LevelZeroAddsNothing(recs: seq<(Kind, nat)>, k: Kind)
    ensures RecordsPoints(recs + [(k, 0)]) == RecordsPoints(recs)
    ensures Score([]) == 0
  {
    assert (recs + [(k, 0)])[..|recs|] == recs;
  }

  lemma LumberCostLevelOne()
    ensures UpgradeCost(Lumber, 1) == Triple(63, 75, 50)
  {
    assert Grow(50.0, 1.26, 1) == 63.0;
    assert Grow(60.0, 1.26, 1) == 75.6;
    assert Grow(40.0, 1.26, 1) == 50.4;
    FloorBetween(75.6, 75);
    FloorBetween(50.4, 50);
  }

  lemma LumberCostLevelTwo()
    ensures UpgradeCost(Lumber, 2) == Triple(79, 95, 63)
  {
    assert Grow(50.0, 1.26, 2) == 79.38;
    assert Grow(60.0, 1.26, 2) == 95.256;
    assert Grow(40.0, 1.26, 2) == 63.504;
    FloorBetween(79.38, 79);
    FloorBetween(95.256, 95);
    FloorBetween(63.504, 63);
  }

  /** The source comment's example: lumber at level 3 scores 57 (15 + 18.8 + 23.7 = 57.5), not 58. */
  lemma LumberLevelThreeScore()
    ensures Score([(Lumber, 3)]) == 57
  {
    UpgradeCostAtLeastBase(Lumber, 0);
    LumberCostLevelOne();
    LumberCostLevelTwo();
    assert LevelPoints(Lumber, 3) == 57.5;
    assert [(Lumber, 3)][..0] == [];
    assert RecordsPoints([(Lumber, 3)]) == 57.5;
    FloorBetween(57.5, 57);
  }

  /** The (kind, level) records createDefaultBuildings makes, in STARTING_VILLAGE order. */
  function StartingRecords(): (recs: seq<(Kind, nat)>)
    ensures |recs| == |StartingKinds|
    ensures forall i :: 0 <= i < |recs| ==> recs[i] == (StartingKinds[i], StartingLevel(StartingKinds[i]))
  {
    [(Lumber, 1), (Clay, 1), (Iron, 1), (Headquarters, 1), (Barracks, 0), (Wall, 0)]
  }

  /** Extending a prefix by one element. */
  lemma TakeOneMore<T>(s: seq<T>, j: nat)
    requires j < |s|
    ensures s[..j + 1] == s[..j] + [s[j]]
  {
  }

  /** Appending one record adds that building's points. */
  lemma RecordsPointsAppend(recs: seq<(Kind, nat)>, r: (Kind, nat))
    ensures RecordsPoints(recs + [r]) == RecordsPoints(recs) + LevelPoints(r.0, r.1)
  {
    assert (recs + [r])[..|recs|] == recs;
  }

  /** A level-1 building is worth a tenth of its base cost. */
  lemma LevelOnePoints(k: Kind)
    ensures LevelPoints(k, 1) == Total(BaseCost(k)) as real / 10.0
  {
    UpgradeCostAtLeastBase(k, 0);
  }

  /** A new village's buildings (lumber, clay, iron and headquarters at 1) score 75, not its default 20 points. */
  lemma StartingScore()
    ensures Score(StartingRecords()) == 75
  {
    var recs := StartingRecords();
    LevelOnePoints(Lumber);
    LevelOnePoints(Clay);
    LevelOnePoints(Iron);
    LevelOnePoints(Headquarters);
    assert recs == [] + [recs[0]] + [recs[1]] + [recs[2]] + [recs[3]] + [recs[4]] + [recs[5]];
    RecordsPointsAppend([], recs[0]);
    RecordsPointsAppend([recs[0]], recs[1]);
    RecordsPointsAppend([recs[0], recs[1]], recs[2]);
    RecordsPointsAppend([recs[0], recs[1], recs[2]], recs[3]);
    assert RecordsPoints(recs[..4]) == 75.5 by {
      assert recs[..4] == [recs[0], recs[1], recs[2], recs[3]];
      assert [recs[0]] == [] + [recs[0]];
      assert [recs[0], recs[1]] == [recs[0]] + [recs[1]];
      assert [recs[0], recs[1], recs[2]] == [recs[0], recs[1]] + [recs[2]];
      assert [recs[0], recs[1], recs[2], recs[3]] == [recs[0], recs[1], recs[2]] + [recs[3]];
    }
    assert recs[..5] == recs[..4] + [(Barracks, 0)];
    assert recs == recs[..5] + [(Wall, 0)];
    LevelZeroAddsNothing(recs[..4], Barracks);
    LevelZeroAddsNothing(recs[..5], Wall);
    FloorBetween(75.5, 75);
  }

  /** The points of one record: the inner loop of calculateVillagePoints. */
  method BuildingPoints(buildingType: Kind, level: nat) returns (points: real)
    ensures points == LevelPoints(buildingType, level)
  {
    points := 0.0;
    for i := 0 to level
      invariant points == LevelPoints(buildingType, i)
    {
      var cost := CalculateUpgradeCost(KindName(buildingType), i).value;
      points := points + (cost.wood + cost.clay + cost.iron) as real / 10.0;
    }
  }

  /**
   * calculateVillagePoints: for each of the village's records in turn, add (wood + clay + iron) / 10
   * of every upgrade from level 0 up to its level, and floor the total once at the end.
   */
  method CalculateVillagePoints(store: BuildingModel.BuildingStore, villageId: string) returns (points: int)
    requires store.Valid()
    ensures points == Score(BuildingModel.Summary(store.FindByVillageId(villageId)))
  {
    var buildings := store.FindByVillageId(villageId);
    ghost var recs := BuildingModel.Summary(buildings);
    var totalPoints := 0.0;
    for j := 0 to |buildings|
      invariant totalPoints == RecordsPoints(recs[..j])
    {
      var p := BuildingPoints(buildings[j].kind, buildings[j].level);
      TakeOneMore(recs, j);
      RecordsPointsAppend(recs[..j], recs[j]);
      totalPoints := totalPoints + p;
    }
    assert recs[..|buildings|] == recs;
    points := totalPoints.Floor;
  }
}

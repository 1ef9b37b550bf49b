/**
 * The building endpoints: listing a village's buildings, and upgrading one building, which
 * reconciles the village, charges the upgrade cost, raises the level, refreshes the production
 * of a producing building and recomputes the village's points.
 */
module BuildingController {
  import opened Wrappers
  import opened Constants
  import opened VillageModel
  import opened BuildingModel
  import opened BuildingService
  import opened ResourceService

  /** The success answer of upgradeBuilding. */
  datatype Upgraded = Upgraded(
    building: BuildingJson, resources: Triple<real>, production: Triple<int>, points: int, cost: Triple<int>)

  /** No amount is below its cost component. */
  predicate Affordable(r: Triple<real>, cost: Triple<int>) {
    !(r.wood < cost.wood as real || r.clay < cost.clay as real || r.iron < cost.iron as real)
  }

  /** The amounts after paying `cost`. */
  function Debit(r: Triple<real>, cost: Triple<int>): (d: Triple<real>)
    ensures d.wood + cost.wood as real == r.wood && d.clay + cost.clay as real == r.clay && d.iron + cost.iron as real == r.iron
  {
    Triple(r.wood - cost.wood as real, r.clay - cost.clay as real, r.iron - cost.iron as real)
  }

  /** Paying an affordable, non-negative cost out of amounts within storage stays within storage. */
  lemma DebitWithin(r: Triple<real>, cost: Triple<int>, storage: Triple<int>)
    requires Within(r, storage) && Affordable(r, cost)
    requires cost.wood >= 0 && cost.clay >= 0 && cost.iron >= 0
    ensures Within(Debit(r, cost), storage)
    ensures ClampInto(Debit(r, cost), storage) == Debit(r, cost)
  {
  }

  /**
   * The production update upgradeBuilding sends for a record of kind `k` whose level reads
   * `level`: only a lumber, clay or iron upgrade sets a value, calculateProduction at `level`,
   * on its own key only.
   */
  function ProductionUpdate(k: Kind, level: nat): (u: Triple<Option<int>>)
    ensures !IsProducer(k) ==> u == Triple(None, None, None)
    ensures k == Lumber ==> u == Triple(Some(Production(k, level)), None, None)
    ensures k == Clay ==> u == Triple(None, Some(Production(k, level)), None)
    ensures k == Iron ==> u == Triple(None, None, Some(Production(k, level)))
  {
    match k
    case Lumber => Triple(Some(Production(k, level)), None, None)
    case Clay => Triple(None, Some(Production(k, level)), None)
    case Iron => Triple(None, None, Some(Production(k, level)))
    case _ => Triple(None, None, None)
  }

  /** The production a producing kind's own key holds. */
  function OwnRate(p: Triple<int>, k: Kind): int
    requires IsProducer(k)
  {
    match k
    case Lumber => p.wood
    case Clay => p.clay
    case Iron => p.iron
  }

  /**
   * Upgrading a producer from `levelBefore` writes the rate of level levelBefore + 2 into its own
   * key: the record read before the increment is the record the increment raises, so
   * `building.level + 1` is already one past the new level. That rate is strictly above the rate
   * of the new level, levelBefore + 1. The other two keys keep their values.
   */
  lemma UpgradeWritesRateOfLevelAfterNext(k: Kind, levelBefore: nat, p: Triple<int>)
    requires IsProducer(k)
    ensures OwnRate(Merge(p, ProductionUpdate(k, levelBefore + 2)), k) == Production(k, levelBefore + 2)
    ensures Production(k, levelBefore + 2) > Production(k, levelBefore + 1)
    ensures k != Lumber ==> Merge(p, ProductionUpdate(k, levelBefore + 2)).wood == p.wood
    ensures k != Clay ==> Merge(p, ProductionUpdate(k, levelBefore + 2)).clay == p.clay
    ensures k != Iron ==> Merge(p, ProductionUpdate(k, levelBefore + 2)).iron == p.iron
  {
    ProductionStrictlyIncreasing(k, levelBefore + 1);
  }

  /** Upgrading headquarters, barracks or wall leaves the production as it was. */
  lemma NonProducerKeepsRates(k: Kind, level: nat, p: Triple<int>)
    requires !IsProducer(k)
    ensures Merge(p, ProductionUpdate(k, level)) == p
  {
  }

  /**
   * Within the starting storage, no building at level 14 or above can be afforded, so the
   * missing maxLevel check (every maxLevel is at least 20) is never reached.
   */
  lemma HighLevelsUnaffordable(r: Triple<real>, k: Kind, level: nat)
    requires Within(r, StartingStorage) && level >= 14
    ensures !Affordable(r, UpgradeCost(k, level))
    ensures 14 < MaxLevel(k)
  {
    UpgradeBlockedFromLevelFourteen(k, level);
  }

  /**
   * The village a successful upgrade leaves: the cost paid out of its amounts, the production
   * update merged in, the new points, and stamped `now`; every other field as it was.
   */
  function AfterUpgrade(v: Village, cost: Triple<int>, update: Triple<Option<int>>, points: int, now: int): Village {
    v.(resources := Debit(v.resources, cost), production := Merge(v.production, update),
       points := points, lastResourceUpdate := now)
  }

  /**
   * upgradeBuilding. Refusals, in order: a missing village id or type; an unknown village; a
   * village of another user (all three change nothing); then, after the village has been
   * reconciled and written back, a missing building record, a record already upgrading, or
   * amounts below the cost (the level is then unchanged). On success the reconciled amounts are
   * debited by the cost of the current level, the level rises by exactly 1, a producer's own
   * production key gets calculateProduction at the raised level + 1, and the points are the
   * score of all the village's records after the increment. The maxLevel is never consulted.
   */
  method UpgradeBuilding(villages: VillageStore, buildings: BuildingStore,
                         villageId: string, buildingType: string, userId: string, now: int)
    returns (r: Result<Upgraded, Failure>)
    requires villages.Valid() && buildings.Valid()
    modifies villages, buildings.RecordAt(villageId, buildingType)
    ensures villages.Valid() && buildings.Valid()
    ensures buildings.buildings == old(buildings.buildings)
    ensures r.Err? ==> unchanged(buildings.RecordAt(villageId, buildingType))
    ensures villageId == "" || buildingType == "" ==> r == Err(MissingParameters) && villages.villages == old(villages.villages)
    ensures villageId != "" && buildingType != "" && villageId !in old(villages.villages) ==>
      r == Err(NoSuchVillage) && villages.villages == old(villages.villages)
    ensures villageId != "" && buildingType != "" && villageId in old(villages.villages) && old(villages.villages)[villageId].userId != userId ==>
      r == Err(ForeignVillage) && villages.villages == old(villages.villages)
    ensures villageId != "" && buildingType != "" && villageId in old(villages.villages) && old(villages.villages)[villageId].userId == userId ==>
      var reconciled := Reconcile(old(villages.villages)[villageId], now);
      var b := buildings.FindOne(villageId, buildingType);
      if b == null then
        r == Err(NoSuchBuilding) && villages.villages == old(villages.villages)[villageId := reconciled]
      else if old(b.isUpgrading) then
        r == Err(StillUpgrading) && villages.villages == old(villages.villages)[villageId := reconciled]
      else
        var cost := UpgradeCost(b.kind, old(b.level));
        if !Affordable(reconciled.resources, cost) then
          r == Err(NotEnough(cost, reconciled.resources)) && villages.villages == old(villages.villages)[villageId := reconciled]
        else
          && b.level == old(b.level) + 1 && !b.isUpgrading
          && var after := AfterUpgrade(reconciled, cost, ProductionUpdate(b.kind, old(b.level) + 2),
                                       Score(Summary(buildings.FindByVillageId(villageId))), now);
             && villages.villages == old(villages.villages)[villageId := after]
             && r == Ok(Upgraded(ToJson(b), after.resources, after.production, after.points, cost))
  {
    if villageId == "" || buildingType == "" {
      return Err(MissingParameters);
    }
    var found := villages.FindById(villageId);
    if found.None? {
      return Err(NoSuchVillage);
    }
    var village := found.value;
    if village.userId != userId {
      return Err(ForeignVillage);
    }
    ghost var m0 := villages.villages;
    var currentVillage := ReconcileStored(villages, villageId, now);
    r := FinishUpgrade(villages, buildings, villageId, buildingType, currentVillage, now);
    if r.Ok? {
      MapOverwrite(m0, villageId, currentVillage, villages.villages[villageId]);
    }
  }

  /**
   * The rest of upgradeBuilding, on the reconciled village: the building checks in order, then
   * the affordability checks against the amounts now stored, then the upgrade itself.
   */
  method FinishUpgrade(villages: VillageStore, buildings: BuildingStore,
                       villageId: string, buildingType: string, ghost v: Village, now: int)
    returns (r: Result<Upgraded, Failure>)
    requires villages.Valid() && buildings.Valid() && villageId in villages.villages && villages.villages[villageId] == v
    modifies villages, buildings.RecordAt(villageId, buildingType)
    ensures villages.Valid() && buildings.Valid()
    ensures buildings.buildings == old(buildings.buildings)
    ensures r.Err? ==> unchanged(buildings.RecordAt(villageId, buildingType)) && villages.villages == old(villages.villages)
    ensures
      var b := buildings.FindOne(villageId, buildingType);
      if b == null then r == Err(NoSuchBuilding)
      else if old(b.isUpgrading) then r == Err(StillUpgrading)
      else
        var cost := UpgradeCost(b.kind, old(b.level));
        if !Affordable(v.resources, cost) then r == Err(NotEnough(cost, v.resources))
        else
          && b.level == old(b.level) + 1 && !b.isUpgrading
          && var after := AfterUpgrade(v, cost, ProductionUpdate(b.kind, old(b.level) + 2),
                                       Score(Summary(buildings.FindByVillageId(villageId))), now);
             && villages.villages == old(villages.villages)[villageId := after]
             && r == Ok(Upgraded(ToJson(b), after.resources, after.production, after.points, cost))
  {
    var currentVillage := villages.FindById(villageId).value;
    var building := buildings.FindOne(villageId, buildingType);
    if building == null {
      return Err(NoSuchBuilding);
    }
    if building.isUpgrading {
      return Err(StillUpgrading);
    }

    var cost := CalculateUpgradeCost(buildingType, building.level).value;
    if currentVillage.resources.wood < cost.wood as real ||
       currentVillage.resources.clay < cost.clay as real ||
       currentVillage.resources.iron < cost.iron as real {
      return Err(NotEnough(cost, currentVillage.resources));
    }

    UpgradeCostAtLeastBase(building.kind, building.level);
    r := ApplyUpgrade(villages, buildings, villageId, buildingType, building, cost, building.level, now);
  }

  /**
   * The production step of upgradeBuilding: for lumber, clay or iron, updateProduction with
   * calculateProduction at `level` on the kind's own key; nothing for other types.
   */
  method RefreshProduction(villages: VillageStore, villageId: string, buildingType: string, kind: Kind, level: nat)
    requires villages.Valid() && villageId in villages.villages && KindName(kind) == buildingType
    modifies villages
    ensures villages.Valid()
    ensures villages.villages == old(villages.villages)[villageId :=
      old(villages.villages)[villageId].(production := Merge(old(villages.villages)[villageId].production, ProductionUpdate(kind, level)))]
  {
    if buildingType in ["lumber", "clay", "iron"] {
      var newProduction := CalculateProduction(buildingType, level);
      var productionUpdate := Triple(
        if buildingType == "lumber" then Some(newProduction) else None,
        if buildingType == "clay" then Some(newProduction) else None,
        if buildingType == "iron" then Some(newProduction) else None);
      var _ := villages.UpdateProduction(villageId, productionUpdate);
    } else {
      MergeLaws(villages.villages[villageId].production, Triple(None, None, None));
    }
  }

  /** The paying step: updateResources with the debited amounts, then incrementLevel on the record. */
  method PayAndRaise(villages: VillageStore, buildings: BuildingStore, villageId: string, buildingType: string,
                     building: Building, cost: Triple<int>, now: int)
    requires villages.Valid() && buildings.Valid() && villageId in villages.villages
    requires building == buildings.FindOne(villageId, buildingType)
    requires Affordable(villages.villages[villageId].resources, cost)
    requires cost.wood >= 0 && cost.clay >= 0 && cost.iron >= 0
    modifies villages, building
    ensures villages.Valid() && buildings.Valid() && buildings.buildings == old(buildings.buildings)
    ensures building.level == old(building.level) + 1 && building.isUpgrading == old(building.isUpgrading)
    ensures villages.villages == old(villages.villages)[villageId :=
      old(villages.villages)[villageId].(resources := Debit(old(villages.villages)[villageId].resources, cost), lastResourceUpdate := now)]
  {
    var currentVillage := villages.villages[villageId];
    var newResources := Debit(currentVillage.resources, cost);
    DebitWithin(currentVillage.resources, cost, currentVillage.storage);
    var _ := villages.UpdateResources(villageId, newResources, now);
    var _ := buildings.IncrementLevel(villageId, buildingType, now);
  }

  /** The scoring step: calculateVillagePoints over the current records, then updatePoints. */
  method Rescore(villages: VillageStore, buildings: BuildingStore, villageId: string) returns (points: int)
    requires villages.Valid() && buildings.Valid() && villageId in villages.villages
    modifies villages
    ensures villages.Valid()
    ensures points == Score(Summary(buildings.FindByVillageId(villageId)))
    ensures villages.villages == old(villages.villages)[villageId := old(villages.villages)[villageId].(points := points)]
  {
    points := CalculateVillagePoints(buildings, villageId);
    var _ := villages.UpdatePoints(villageId, points);
  }

  /**
   * The success path of upgradeBuilding, once every check has passed: pay and raise the level,
   * refresh production from the raised record (so at its new level + 1), recompute the points
   * from all the village's records, and answer with the updated record and village.
   */
  method ApplyUpgrade(villages: VillageStore, buildings: BuildingStore, villageId: string, buildingType: string,
                      building: Building, cost: Triple<int>, ghost levelBefore: nat, now: int)
    returns (r: Result<Upgraded, Failure>)
    requires villages.Valid() && buildings.Valid() && villageId in villages.villages
    requires building == buildings.FindOne(villageId, buildingType) && building.level == levelBefore
    requires Affordable(villages.villages[villageId].resources, cost)
    requires cost.wood >= 0 && cost.clay >= 0 && cost.iron >= 0
    modifies villages, building
    ensures villages.Valid() && buildings.Valid() && buildings.buildings == old(buildings.buildings)
    ensures building.level == levelBefore + 1 && building.isUpgrading == old(building.isUpgrading)
    ensures
      var after := AfterUpgrade(old(villages.villages)[villageId], cost, ProductionUpdate(building.kind, levelBefore + 2),
                                Score(Summary(buildings.FindByVillageId(villageId))), now);
      && villages.villages == old(villages.villages)[villageId := after]
      && r == Ok(Upgraded(ToJson(building), after.resources, after.production, after.points, cost))
  {
    ghost var m0 := villages.villages;
    ghost var v0 := m0[villageId];
    PayAndRaise(villages, buildings, villageId, buildingType, building, cost, now);
    ghost var v1 := v0.(resources := Debit(v0.resources, cost), lastResourceUpdate := now);
    assert villages.villages == m0[villageId := v1];

    RefreshProduction(villages, villageId, buildingType, building.kind, building.level + 1);
    ghost var v2 := v1.(production := Merge(v1.production, ProductionUpdate(building.kind, levelBefore + 2)));
    assert villages.villages == m0[villageId := v1][villageId := v2];
    MapOverwrite(m0, villageId, v1, v2);

    var newPoints := Rescore(villages, buildings, villageId);
    ghost var v3 := v2.(points := newPoints);
    MapOverwrite(m0, villageId, v2, v3);
    assert v3 == AfterUpgrade(v0, cost, ProductionUpdate(building.kind, levelBefore + 2), newPoints, now);

    var updatedVillage := villages.FindById(villageId).value;
    var updatedBuilding := buildings.FindOne(villageId, buildingType);
    return Ok(Upgraded(ToJson(updatedBuilding), updatedVillage.resources, updatedVillage.production, updatedVillage.points, cost));
  }

  /** A later write to the same key replaces the earlier one. */
  lemma MapOverwrite<K, V>(m: map<K, V>, k: K, a: V, b: V)
    ensures m[k := a][k := b] == m[k := b]
  {
  }

  /**
   * getBuildings: a missing village id, an unknown village and another user's village are
   * refused in that order; otherwise the JSON form of each of the village's records, in order.
   */
  function GetBuildings(villages: VillageStore, buildings: BuildingStore, villageId: string, userId: string)
    : (r: Result<seq<BuildingJson>, Failure>)
    requires buildings.Valid()
    reads villages, buildings, buildings.Repr
    ensures villageId == "" ==> r == Err(MissingParameters)
    ensures villageId != "" && villageId !in villages.villages ==> r == Err(NoSuchVillage)
    ensures villageId != "" && villageId in villages.villages && villages.villages[villageId].userId != userId ==>
      r == Err(ForeignVillage)
    ensures r.Ok? <==> villageId != "" && villageId in villages.villages && villages.villages[villageId].userId == userId
    ensures r.Ok? ==> |r.value| == |buildings.FindByVillageId(villageId)|
    ensures r.Ok? ==> forall i :: 0 <= i < |r.value| ==> r.value[i] == ToJson(buildings.FindByVillageId(villageId)[i])
  {
    if villageId == "" then Err(MissingParameters)
    else match villages.FindById(villageId)
      case None => Err(NoSuchVillage)
      case Some(village) =>
        if village.userId != userId then Err(ForeignVillage)
        else
          var records := buildings.FindByVillageId(villageId);
          assert forall i :: 0 <= i < |records| ==> records[i] in buildings.Repr;
          Ok(ToJsonAll(records))
  }
}

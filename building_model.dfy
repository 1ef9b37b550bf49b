/**
 * The in-memory building store: a map from village id to an inner map from building type to
 * a building record. Records are shared objects; IncrementLevel bumps `level` in place, so every
 * holder of the record sees the new level.
 */
module BuildingModel {
  import opened Wrappers
  import opened Constants

  /** One building of one village. */
  class Building {
    const villageId: string
    const kind: Kind
    var level: nat
    var isUpgrading: bool
    var updatedAt: int

    /** `new Building({ villageId, buildingType, level })`: not upgrading, stamped with `now`. */
    constructor (villageId: string, kind: Kind, level: nat, now: int)
      ensures this.villageId == villageId && this.kind == kind && this.level == level
      ensures !isUpgrading && updatedAt == now
    {
      this.villageId := villageId;
      this.kind := kind;
      this.level := level;
      isUpgrading := false;
      updatedAt := now;
    }
  }

  /** The fields of `toJSON` that the economy reports. */
  datatype BuildingJson = BuildingJson(
    villageId: string, buildingType: string, buildingName: string,
    level: nat, isUpgrading: bool, maxLevel: nat)

  /** `BUILDINGS[type]?.maxLevel || 30`. */
  function MaxLevelFor(buildingType: string): (m: nat)
    ensures KindOf(buildingType).Some? ==> m == MaxLevel(KindOf(buildingType).value)
    ensures KindOf(buildingType).None? ==> m == 30
  {
    match KindOf(buildingType)
    case Some(k) => MaxLevel(k)
    case None => 30
  }

  /** `BUILDINGS[type]?.name || type`. */
  function NameFor(buildingType: string): (n: string)
    ensures KindOf(buildingType).Some? ==> n == DisplayName(KindOf(buildingType).value)
    ensures KindOf(buildingType).None? ==> n == buildingType
  {
    match KindOf(buildingType)
    case Some(k) => DisplayName(k)
    case None => buildingType
  }

  /** Building.toJSON: the record's own fields, with the name and maxLevel of its kind. */
  function ToJson(b: Building): (j: BuildingJson)
    reads b
    ensures j.villageId == b.villageId && j.buildingType == KindName(b.kind)
    ensures j.level == b.level && j.isUpgrading == b.isUpgrading
    ensures j.maxLevel == MaxLevel(b.kind) && j.buildingName == DisplayName(b.kind)
  {
    var t := KindName(b.kind);
    BuildingJson(b.villageId, t, NameFor(t), b.level, b.isUpgrading, MaxLevelFor(t))
  }

  /** `buildings.map(b => b.toJSON())`. */
  function ToJsonAll(bs: seq<Building>): (js: seq<BuildingJson>)
    reads bs
    ensures |js| == |bs| && forall i :: 0 <= i < |bs| ==> js[i] == ToJson(bs[i])
  {
    if bs == [] then [] else ToJsonAll(bs[..|bs| - 1]) + [ToJson(bs[|bs| - 1])]
  }

  /** The records of an inner map under `keys`, in that order. */
  function Collect(m: map<Kind, Building>, keys: seq<Kind>): (bs: seq<Building>)
    requires forall i :: 0 <= i < |keys| ==> keys[i] in m
    ensures |bs| == |keys| && forall i :: 0 <= i < |keys| ==> bs[i] == m[keys[i]]
  {
    if keys == [] then [] else Collect(m, keys[..|keys| - 1]) + [m[keys[|keys| - 1]]]
  }

  /** The (kind, level) of each record, in order. */
  function Summary(bs: seq<Building>): (s: seq<(Kind, nat)>)
    reads bs
    ensures |s| == |bs| && forall i :: 0 <= i < |bs| ==> s[i] == (bs[i].kind, bs[i].level)
  {
    if bs == [] then [] else Summary(bs[..|bs| - 1]) + [(bs[|bs| - 1].kind, bs[|bs| - 1].level)]
  }

  /**
   * `villageBuildings.get(buildingType) || null` on an inner map, whose keys are BUILDINGS keys:
   * a type that names no kind finds nothing.
   */
  function Lookup(inner: map<Kind, Building>, buildingType: string): (b: Building?)
    ensures b != null <==> KindOf(buildingType).Some? && KindOf(buildingType).value in inner
    ensures b != null ==> b == inner[KindOf(buildingType).value]
  {
    match KindOf(buildingType)
    case None => null
    case Some(k) => if k in inner then inner[k] else null
  }

  /**
   * The loop of createDefaultBuildings: for each STARTING_VILLAGE key in order, a fresh record at
   * that key's level and not upgrading, set into a new inner map; also the records in insertion order.
   */
  method NewVillageBuildings(villageId: string, now: int) returns (villageBuildings: map<Kind, Building>, bs: seq<Building>)
    ensures forall k :: k in villageBuildings && fresh(villageBuildings[k])
    ensures forall k :: k in villageBuildings ==>
      && villageBuildings[k].kind == k && villageBuildings[k].villageId == villageId
      && villageBuildings[k].level == StartingLevel(k) && !villageBuildings[k].isUpgrading
    ensures |bs| == |StartingKinds| && forall i :: 0 <= i < |bs| ==> bs[i] == villageBuildings[StartingKinds[i]]
  {
    villageBuildings := map[];
    bs := [];
    for i := 0 to |StartingKinds|
      invariant |bs| == i
      invariant forall k :: k in villageBuildings <==> StartingIndex(k) < i
      invariant forall k :: k in villageBuildings ==>
        && fresh(villageBuildings[k])
        && villageBuildings[k].kind == k && villageBuildings[k].villageId == villageId
        && villageBuildings[k].level == StartingLevel(k) && !villageBuildings[k].isUpgrading
      invariant forall j :: 0 <= j < i ==> StartingKinds[j] in villageBuildings && bs[j] == villageBuildings[StartingKinds[j]]
    {
      var buildingType := StartingKinds[i];
      StartingIndexOfKey(i);
      var building := new Building(villageId, buildingType, StartingLevel(buildingType), now);
      villageBuildings := villageBuildings[buildingType := building];
      bs := bs + [building];
    }
  }

  /**
   * The building store: village id to an inner map holding one record per kind. The inner maps
   * are keyed by kind; their string keys in the source are exactly the six BUILDINGS keys, and
   * Lookup reads a type string as its kind.
   */
  class BuildingStore {
    var buildings: map<string, map<Kind, Building>>
    ghost var Repr: set<Building>

    /**
     * Every inner map holds all six kinds (only CreateDefaultBuildings writes inner maps), and
     * the record under (v, k) belongs to village v and is of kind k.
     */
    ghost predicate Valid()
      reads this
    {
      forall v, k :: v in buildings ==>
        && k in buildings[v]
        && buildings[v][k] in Repr && buildings[v][k].villageId == v && buildings[v][k].kind == k
    }

    constructor ()
      ensures Valid() && buildings == map[] && Repr == {}
    {
      buildings := map[];
      Repr := {};
    }

    /** findOne: the record, or null when the village is absent or the type names no kind. */
    function FindOne(villageId: string, buildingType: string): (b: Building?)
      reads this
      ensures b != null ==> villageId in buildings && b == Lookup(buildings[villageId], buildingType)
      ensures Valid() ==> (b == null <==> villageId !in buildings || KindOf(buildingType).None?)
    {
      if villageId in buildings then Lookup(buildings[villageId], buildingType) else null
    }

    /** The set holding the record under (villageId, buildingType), if any: what IncrementLevel may change. */
    function RecordAt(villageId: string, buildingType: string): set<Building>
      reads this
    {
      var b := FindOne(villageId, buildingType);
      if b == null then {} else {b}
    }

    /** Two positions hold the same record only if they are the same position. */
    lemma RecordsDistinct(v1: string, k1: Kind, v2: string, k2: Kind)
      requires Valid()
      requires v1 in buildings && v2 in buildings
      requires buildings[v1][k1] == buildings[v2][k2]
      ensures v1 == v2 && k1 == k2
    {
    }

    /**
     * createDefaultBuildings: a new inner map with one fresh record per STARTING_VILLAGE key,
     * replacing any existing one for the village. The answer is the new records in insertion
     * order, which is what findByVillageId answers from then on.
     */
    method CreateDefaultBuildings(villageId: string, now: int) returns (bs: seq<Building>)
      requires Valid()
      modifies this
      ensures Valid()
      ensures villageId in buildings && buildings == old(buildings)[villageId := buildings[villageId]]
      ensures Repr == old(Repr) + buildings[villageId].Values
      ensures bs == FindByVillageId(villageId)
      ensures forall i :: 0 <= i < |bs| ==>
        && fresh(bs[i])
        && bs[i].kind == StartingKinds[i]
        && bs[i].level == StartingLevel(StartingKinds[i])
        && bs[i].villageId == villageId
        && !bs[i].isUpgrading
    {
      var villageBuildings;
      villageBuildings, bs := NewVillageBuildings(villageId, now);
      buildings := buildings[villageId := villageBuildings];
      Repr := Repr + villageBuildings.Values;
    }

    /** findByVillageId: the village's records in insertion order; none for an unknown village. */
    function FindByVillageId(villageId: string): (bs: seq<Building>)
      requires Valid()
      reads this
      ensures villageId !in buildings ==> bs == []
      ensures villageId in buildings ==>
        && |bs| == |StartingKinds|
        && forall i :: 0 <= i < |bs| ==> bs[i] == buildings[villageId][StartingKinds[i]]
    {
      if villageId in buildings then Collect(buildings[villageId], StartingKinds) else []
    }

    /**
     * incrementLevel: raises that one record's level by exactly 1 and stamps it; null, and no change,
     * when the village is absent or the type names no record. Only the record itself is written.
     */
    method IncrementLevel(villageId: string, buildingType: string, now: int) returns (b: Building?)
      requires Valid()
      modifies RecordAt(villageId, buildingType)
      ensures Valid() && buildings == old(buildings) && Repr == old(Repr)
      ensures b == FindOne(villageId, buildingType)
      ensures b != null ==> b.level == old(b.level) + 1 && b.isUpgrading == old(b.isUpgrading) && b.updatedAt == now
    {
      if villageId !in buildings {
        return null;
      }
      var villageBuildings := buildings[villageId];
      b := Lookup(villageBuildings, buildingType);
      if b != null {
        b.level := b.level + 1;
        b.updatedAt := now;
      }
    }
    /** deleteAllByVillage: removes the village's inner map and reports whether it existed. */
    method DeleteAllByVillage(villageId: string) returns (existed: bool)
      requires Valid()
      modifies this
      ensures Valid() && Repr == old(Repr)
      ensures existed == (villageId in old(buildings))
      ensures buildings == old(buildings) - {villageId}
    {
      existed := villageId in buildings;
      buildings := buildings - {villageId};
    }

    /** clearAll: empties the store. */
    method ClearAll()
      requires Valid()
      modifies this
      ensures Valid() && buildings == map[]
    {
      buildings := map[];
    }
  }
}

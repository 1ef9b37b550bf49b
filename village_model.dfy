/**
 * The in-memory village store: a map from village id to the village's record. Every update
 * looks the village up, overwrites some of its fields and stores it back under the same id.
 */
module VillageModel {
  import opened Wrappers
  import opened Constants

  /** One village. Resources are fractional (accrual adds rate * hours); everything else is whole. */
  datatype Village = Village(
    id: string,
    userId: string,
    name: string,
    x: int,
    y: int,
    isBarbarian: bool,
    resources: Triple<real>,
    storage: Triple<int>,
    production: Triple<int>,
    points: int,
    lastResourceUpdate: int,
    createdAt: int)

  /** `name || 'Falu'`: a missing or empty name becomes the default. */
  function NameOrDefault(name: Option<string>): (n: string)
    ensures n != ""
    ensures name.Some? && name.value != "" ==> n == name.value
    ensures name.None? || name.value == "" ==> n == "Falu"
  {
    if name.Some? && name.value != "" then name.value else "Falu"
  }

  /** `x || Math.floor(Math.random() * 100)`: a missing or zero coordinate is drawn from `random`. */
  function CoordinateOr(x: Option<int>, random: real): (c: int)
    requires 0.0 <= random < 1.0
    ensures x.Some? && x.value != 0 ==> c == x.value
    ensures x.None? || x.value == 0 ==> 0 <= c <= 99
  {
    if x.Some? && x.value != 0 then x.value else (random * 100.0).Floor
  }

  /** `Math.max(0, Math.min(r, cap))`. */
  function Clamp(r: real, cap: int): (c: real)
    ensures 0 <= cap ==> 0.0 <= c <= cap as real
    ensures 0.0 <= r <= cap as real ==> c == r
    ensures r > cap as real && cap >= 0 ==> c == cap as real
    ensures r < 0.0 ==> c == 0.0
  {
    var m := if r < cap as real then r else cap as real;
    if m < 0.0 then 0.0 else m
  }

  /** The resources updateResources stores: each amount clamped into [0, storage]. */
  function ClampInto(r: Triple<real>, storage: Triple<int>): (c: Triple<real>)
    ensures NonNegative(storage) ==> Within(c, storage)
    ensures Within(r, storage) ==> c == r
  {
    Triple(Clamp(r.wood, storage.wood), Clamp(r.clay, storage.clay), Clamp(r.iron, storage.iron))
  }

  predicate NonNegative(storage: Triple<int>) {
    storage.wood >= 0 && storage.clay >= 0 && storage.iron >= 0
  }

  /** Every amount lies in [0, its storage]. */
  predicate Within(r: Triple<real>, storage: Triple<int>) {
    && 0.0 <= r.wood <= storage.wood as real
    && 0.0 <= r.clay <= storage.clay as real
    && 0.0 <= r.iron <= storage.iron as real
  }

  /** `{ ...production, ...update }`: the supplied keys overwrite, the others are kept. */
  function Merge(production: Triple<int>, update: Triple<Option<int>>): (p: Triple<int>)
    ensures update.wood.None? ==> p.wood == production.wood
    ensures update.clay.None? ==> p.clay == production.clay
    ensures update.iron.None? ==> p.iron == production.iron
    ensures update.wood.Some? ==> p.wood == update.wood.value
    ensures update.clay.Some? ==> p.clay == update.clay.value
    ensures update.iron.Some? ==> p.iron == update.iron.value
  {
    Triple(
      if update.wood.Some? then update.wood.value else production.wood,
      if update.clay.Some? then update.clay.value else production.clay,
      if update.iron.Some? then update.iron.value else production.iron)
  }

  /** Merging nothing changes nothing, and merging the same update twice is merging it once. */
  lemma MergeLaws(production: Triple<int>, update: Triple<Option<int>>)
    ensures Merge(production, Triple(None, None, None)) == production
    ensures Merge(Merge(production, update), update) == Merge(production, update)
  {
  }

  /** Clamping twice is clamping once, and a clamped triple is within a non-negative storage. */
  lemma ClampIdempotent(r: Triple<real>, storage: Triple<int>)
    requires NonNegative(storage)
    ensures ClampInto(ClampInto(r, storage), storage) == ClampInto(r, storage)
  {
  }

  /**
   * The record `Village.create` stores: the given owner, the defaulted name and coordinates,
   * not a barbarian, a copy of the starting resources and storage, production 30/30/25,
   * 20 points, both timestamps `now`.
   */
  function NewVillage(id: string, userId: string, name: Option<string>, x: Option<int>, y: Option<int>,
                      randomX: real, randomY: real, now: int): (v: Village)
    requires 0.0 <= randomX < 1.0 && 0.0 <= randomY < 1.0
    ensures v.id == id && v.userId == userId && v.name == NameOrDefault(name)
    ensures v.x == CoordinateOr(x, randomX) && v.y == CoordinateOr(y, randomY) && !v.isBarbarian
    ensures v.resources == Triple(StartingResources.wood as real, StartingResources.clay as real, StartingResources.iron as real)
    ensures v.storage == StartingStorage && v.production == DefaultProduction && v.points == 20
    ensures v.lastResourceUpdate == now && v.createdAt == now
    ensures Within(v.resources, v.storage) && NonNegative(v.storage)
  {
    Village(id, userId, NameOrDefault(name), CoordinateOr(x, randomX), CoordinateOr(y, randomY), false,
            Triple(500.0, 500.0, 400.0), StartingStorage, DefaultProduction, 20, now, now)
  }

  class VillageStore {
    var villages: map<string, Village>

    /** Each village is stored under its own id, with non-negative storage and amounts within it. */
    ghost predicate Valid()
      reads this
    {
      forall id :: id in villages ==> WellFormed(id, villages[id])
    }

    constructor ()
      ensures Valid() && villages == map[]
    {
      villages := map[];
    }

    /**
     * create: stores one new village under `freshId` (the uuid oracle's value, not yet a key) and
     * leaves every other village unchanged.
     */
    method Create(userId: string, name: Option<string>, x: Option<int>, y: Option<int>,
                  freshId: string, randomX: real, randomY: real, now: int) returns (v: Village)
      requires Valid() && freshId !in villages
      requires 0.0 <= randomX < 1.0 && 0.0 <= randomY < 1.0
      modifies this
      ensures Valid()
      ensures v == NewVillage(freshId, userId, name, x, y, randomX, randomY, now)
      ensures villages == old(villages)[freshId := v]
      ensures Count() == old(Count()) + 1
    {
      v := NewVillage(freshId, userId, name, x, y, randomX, randomY, now);
      villages := villages[freshId := v];
    }

    /** findById: the stored village, or none. */
    function FindById(id: string): (r: Option<Village>)
      reads this
      ensures r.Some? <==> id in villages
      ensures r.Some? ==> r.value == villages[id]
    {
      if id in villages then Some(villages[id]) else None
    }

    /** findByUserId: every stored village of `userId`, each once, and no other. */
    method FindByUserId(userId: string) returns (vs: seq<Village>)
      requires Valid()
      ensures forall i :: 0 <= i < |vs| ==> vs[i].id in villages && villages[vs[i].id] == vs[i] && vs[i].userId == userId
      ensures forall id :: id in villages && villages[id].userId == userId ==> villages[id] in vs
      ensures forall i, j :: 0 <= i < j < |vs| ==> vs[i].id != vs[j].id
    {
      vs := [];
      var remaining := villages.Keys;
      while remaining != {}
        invariant remaining <= villages.Keys
        invariant forall i :: 0 <= i < |vs| ==>
          vs[i].id in villages && vs[i].id !in remaining && villages[vs[i].id] == vs[i] && vs[i].userId == userId
        invariant forall id :: id in villages && id !in remaining && villages[id].userId == userId ==> villages[id] in vs
        invariant forall i, j :: 0 <= i < j < |vs| ==> vs[i].id != vs[j].id
        decreases remaining
      {
        var id :| id in remaining;
        var village := villages[id];
        if village.userId == userId {
          vs := vs + [village];
        }
        remaining := remaining - {id};
      }
    }

    /** findByCoordinates: a stored village at (x, y), or none exactly when no village stands there. */
    method FindByCoordinates(x: int, y: int) returns (r: Option<Village>)
      ensures r.Some? ==> r.value in villages.Values && r.value.x == x && r.value.y == y
      ensures r.None? ==> forall id :: id in villages ==> villages[id].x != x || villages[id].y != y
    {
      var remaining := villages.Keys;
      while remaining != {}
        invariant remaining <= villages.Keys
        invariant forall id :: id in villages && id !in remaining ==> villages[id].x != x || villages[id].y != y
        decreases remaining
      {
        var id :| id in remaining;
        var village := villages[id];
        if village.x == x && village.y == y {
          return Some(village);
        }
        remaining := remaining - {id};
      }
      return None;
    }

    /** findAll: every stored village exactly once. */
    method FindAll() returns (vs: seq<Village>)
      requires Valid()
      ensures |vs| == |villages|
      ensures forall i :: 0 <= i < |vs| ==> vs[i].id in villages && villages[vs[i].id] == vs[i]
      ensures forall id :: id in villages ==> villages[id] in vs
      ensures forall i, j :: 0 <= i < j < |vs| ==> vs[i].id != vs[j].id
    {
      vs := [];
      var remaining := villages.Keys;
      while remaining != {}
        invariant remaining <= villages.Keys
        invariant |vs| + |remaining| == |villages.Keys|
        invariant forall i :: 0 <= i < |vs| ==>
          vs[i].id in villages && vs[i].id !in remaining && villages[vs[i].id] == vs[i]
        invariant forall id :: id in villages && id !in remaining ==> villages[id] in vs
        invariant forall i, j :: 0 <= i < j < |vs| ==> vs[i].id != vs[j].id
        decreases remaining
      {
        var id :| id in remaining;
        vs := vs + [villages[id]];
        remaining := remaining - {id};
      }
    }

    /** updateName: only `name` changes; an unknown id changes nothing and returns none. */
    method UpdateName(id: string, newName: string) returns (r: Option<Village>)
      requires Valid()
      modifies this
      ensures Valid()
      ensures id !in old(villages) ==> r.None? && villages == old(villages)
      ensures id in old(villages) ==> r == Some(old(villages)[id].(name := newName)) && villages == old(villages)[id := r.value]
    {
      if id in villages {
        var village := villages[id].(name := newName);
        villages := villages[id := village];
        return Some(village);
      }
      return None;
    }

    /**
     * updateResources: stores each amount clamped into [0, storage] and stamps `now`; an unknown
     * id changes nothing and returns none.
     */
    method UpdateResources(id: string, resources: Triple<real>, now: int) returns (r: Option<Village>)
      requires Valid()
      modifies this
      ensures Valid()
      ensures id !in old(villages) ==> r.None? && villages == old(villages)
      ensures id in old(villages) ==>
        && r == Some(old(villages)[id].(resources := ClampInto(resources, old(villages)[id].storage), lastResourceUpdate := now))
        && villages == old(villages)[id := r.value]
    {
      if id in villages {
        var village := villages[id];
        village := village.(resources := ClampInto(resources, village.storage), lastResourceUpdate := now);
        villages := villages[id := village];
        return Some(village);
      }
      return None;
    }

    /** updateProduction: overwrites only the supplied keys; an unknown id changes nothing. */
    method UpdateProduction(id: string, production: Triple<Option<int>>) returns (r: Option<Village>)
      requires Valid()
      modifies this
      ensures Valid()
      ensures id !in old(villages) ==> r.None? && villages == old(villages)
      ensures id in old(villages) ==>
        && r == Some(old(villages)[id].(production := Merge(old(villages)[id].production, production)))
        && villages == old(villages)[id := r.value]
    {
      if id in villages {
        var village := villages[id];
        village := village.(production := Merge(village.production, production));
        villages := villages[id := village];
        return Some(village);
      }
      return None;
    }

    /** updatePoints: only `points` changes; an unknown id changes nothing. */
    method UpdatePoints(id: string, points: int) returns (r: Option<Village>)
      requires Valid()
      modifies this
      ensures Valid()
      ensures id !in old(villages) ==> r.None? && villages == old(villages)
      ensures id in old(villages) ==> r == Some(old(villages)[id].(points := points)) && villages == old(villages)[id := r.value]
    {
      if id in villages {
        var village := villages[id].(points := points);
        villages := villages[id := village];
        return Some(village);
      }
      return None;
    }

    /** delete: removes the village and reports whether it was stored. */
    method Delete(id: string) returns (existed: bool)
      requires Valid()
      modifies this
      ensures Valid()
      ensures existed == (id in old(villages)) && villages == old(villages) - {id}
      ensures Count() == if existed then old(Count()) - 1 else old(Count())
    {
      existed := id in villages;
      villages := villages - {id};
    }

    /** count: the number of stored villages. */
    function Count(): (n: nat)
      reads this
      ensures n == |villages.Keys|
      ensures n == 0 <==> villages == map[]
    {
      assert villages != map[] ==> exists id :: id in villages;
      |villages|
    }

    /** clearAll: empties the store. */
    method ClearAll()
      modifies this
      ensures Valid() && villages == map[]
    {
      villages := map[];
    }
  }

  /** A record may sit under `id`: its own id, non-negative storage, amounts within it. */
  predicate WellFormed(id: string, v: Village) {
    v.id == id && NonNegative(v.storage) && Within(v.resources, v.storage)
  }
}

/**
 * Resource accrual: each resource grows by its hourly rate times the hours since the village's
 * last update, capped at its storage. The clock is the parameter `now`, in milliseconds.
 */
module ResourceService {
  import opened Constants
  import opened VillageModel

  /** Milliseconds in an hour: 1000 * 60 * 60. */
  const MillisPerHour: int := 3600000

  /** What calculateResourceUpdate returns: the new amounts and the instant they hold for. */
  datatype Update = Update(resources: Triple<real>, lastUpdate: int)

  /** One `Math.min(old + rate * hours, storage)`. */
  function Accrue(amount: real, rate: int, hours: real, storage: int): (r: real)
    ensures r <= storage as real && r <= amount + rate as real * hours
    ensures r == storage as real || r == amount + rate as real * hours
  {
    var gained := amount + rate as real * hours;
    if gained < storage as real then gained else storage as real
  }

  /** `(now - lastUpdate) / 3600000`, exactly; negative when the clock is behind the village. */
  function HoursElapsed(lastUpdate: int, now: int): (h: real)
    ensures h * MillisPerHour as real == (now - lastUpdate) as real
    ensures h >= 0.0 <==> now >= lastUpdate
  {
    (now - lastUpdate) as real / MillisPerHour as real
  }

  /**
   * calculateResourceUpdate: each amount is its old value plus rate * hours, capped at
   * its storage (there is no floor at 0 here); the update holds for `now`.
   */
  function CalculateResourceUpdate(v: Village, now: int): (u: Update)
    ensures u.lastUpdate == now
    ensures u.resources.wood <= v.storage.wood as real
    ensures u.resources.clay <= v.storage.clay as real
    ensures u.resources.iron <= v.storage.iron as real
  {
    var hours := HoursElapsed(v.lastResourceUpdate, now);
    Update(
      Triple(
        Accrue(v.resources.wood, v.production.wood, hours, v.storage.wood),
        Accrue(v.resources.clay, v.production.clay, hours, v.storage.clay),
        Accrue(v.resources.iron, v.production.iron, hours, v.storage.iron)),
      now)
  }

  /** All three rates are non-negative. */
  predicate Producing(v: Village) {
    v.production.wood >= 0 && v.production.clay >= 0 && v.production.iron >= 0
  }

  /** The smaller of an amount and its storage. */
  function Capped(amount: real, storage: int): real {
    if amount < storage as real then amount else storage as real
  }

  /** With no time elapsed nothing is gained: each amount becomes min(old, storage). */
  lemma NoTimeNoGain(v: Village)
    ensures CalculateResourceUpdate(v, v.lastResourceUpdate).resources ==
      Triple(Capped(v.resources.wood, v.storage.wood), Capped(v.resources.clay, v.storage.clay), Capped(v.resources.iron, v.storage.iron))
    ensures Within(v.resources, v.storage) ==> CalculateResourceUpdate(v, v.lastResourceUpdate).resources == v.resources
  {
    assert HoursElapsed(v.lastResourceUpdate, v.lastResourceUpdate) == 0.0;
  }

  /** Forward in time with non-negative rates, nothing falls below min(old, storage). */
  lemma NeverBelowStart(v: Village, now: int)
    requires now >= v.lastResourceUpdate && Producing(v)
    ensures CalculateResourceUpdate(v, now).resources.wood >= Capped(v.resources.wood, v.storage.wood)
    ensures CalculateResourceUpdate(v, now).resources.clay >= Capped(v.resources.clay, v.storage.clay)
    ensures CalculateResourceUpdate(v, now).resources.iron >= Capped(v.resources.iron, v.storage.iron)
  {
    var h := HoursElapsed(v.lastResourceUpdate, now);
    assert v.production.wood as real * h >= 0.0;
    assert v.production.clay as real * h >= 0.0;
    assert v.production.iron as real * h >= 0.0;
  }

  /**
   * There is only an upper cap: when the clock is behind the village, a positive rate makes
   * the amount shrink, possibly below 0.
   */
  lemma BackwardClockLoses(v: Village, now: int)
    requires now < v.lastResourceUpdate && v.production.wood > 0
    requires v.resources.wood <= v.storage.wood as real
    ensures CalculateResourceUpdate(v, now).resources.wood < v.resources.wood
  {
    var h := HoursElapsed(v.lastResourceUpdate, now);
    assert v.production.wood as real * h < 0.0;
  }

  /** A rate of 75 per hour over 2.5 hours (9,000,000 ms) gains 187.5. */
  lemma WorkedExample(v: Village)
    requires v.production.wood == 75 && v.resources.wood == 100.0 && v.storage.wood == 1000
    ensures HoursElapsed(v.lastResourceUpdate, v.lastResourceUpdate + 9000000) == 2.5
    ensures CalculateResourceUpdate(v, v.lastResourceUpdate + 9000000).resources.wood == 287.5
  {
    assert HoursElapsed(v.lastResourceUpdate, v.lastResourceUpdate + 9000000) == 2.5;
  }

  /** What reconciling a village and writing it back with updateResources leaves in the store. */
  function Reconcile(v: Village, now: int): (w: Village)
    ensures w == v.(resources := w.resources, lastResourceUpdate := now)
    ensures NonNegative(v.storage) ==> Within(w.resources, v.storage)
    ensures Within(CalculateResourceUpdate(v, now).resources, v.storage) ==> w.resources == CalculateResourceUpdate(v, now).resources
    ensures WellFormed(v.id, v) ==> WellFormed(v.id, w)
  {
    v.(resources := ClampInto(CalculateResourceUpdate(v, now).resources, v.storage), lastResourceUpdate := now)
  }

  /** Splitting the gain at an intermediate point does not change the capped result. */
  lemma AccrueSplit(a: real, rate: int, h1: real, h2: real, s: int)
    requires rate >= 0 && h1 >= 0.0 && h2 >= 0.0 && 0.0 <= a <= s as real
    ensures Clamp(Accrue(Clamp(Accrue(a, rate, h1, s), s), rate, h2, s), s) == Clamp(Accrue(a, rate, h1 + h2, s), s)
  {
    var r := rate as real;
    assert r * (h1 + h2) == r * h1 + r * h2;
    assert r * h1 >= 0.0 && r * h2 >= 0.0;
  }

  /**
   * Reconciling at t1 and again at t2 leaves the same village as reconciling once at t2: the
   * periodic tick loses and invents nothing, whatever its period.
   */
  lemma ReconcileTwice(v: Village, t1: int, t2: int)
    requires WellFormed(v.id, v) && Producing(v)
    requires v.lastResourceUpdate <= t1 <= t2
    ensures Reconcile(Reconcile(v, t1), t2) == Reconcile(v, t2)
  {
    var l := v.lastResourceUpdate;
    var h1 := HoursElapsed(l, t1);
    var h2 := HoursElapsed(t1, t2);
    assert h1 + h2 == HoursElapsed(l, t2) by {
      assert (h1 + h2) * MillisPerHour as real == (t2 - l) as real;
    }
    AccrueSplit(v.resources.wood, v.production.wood, h1, h2, v.storage.wood);
    AccrueSplit(v.resources.clay, v.production.clay, h1, h2, v.storage.clay);
    AccrueSplit(v.resources.iron, v.production.iron, h1, h2, v.storage.iron);
  }

  /** What one tick publishes to a village's room. */
  datatype Broadcast = Broadcast(villageId: string, resources: Triple<real>, production: Triple<int>)

  /** The `resources:update` payload for one village: its id, the unclamped update and its rates. */
  function Announce(v: Village, now: int): (b: Broadcast)
    ensures b.villageId == v.id && b.production == v.production
    ensures b.resources == CalculateResourceUpdate(v, now).resources
  {
    Broadcast(v.id, CalculateResourceUpdate(v, now).resources, v.production)
  }

  /** Each broadcast so far is the announcement of a distinct village already taken off `remaining`. */
  ghost predicate Announced(sent: seq<Broadcast>, before: map<string, Village>, remaining: set<string>, now: int) {
    && (forall i :: 0 <= i < |sent| ==>
          sent[i].villageId in before && sent[i].villageId !in remaining && sent[i] == Announce(before[sent[i].villageId], now))
    && (forall i, j :: 0 <= i < j < |sent| ==> sent[i].villageId != sent[j].villageId)
  }

  lemma AnnouncedStep(sent: seq<Broadcast>, message: Broadcast, before: map<string, Village>, remaining: set<string>, id: string, now: int)
    requires Announced(sent, before, remaining, now)
    requires id in remaining && id in before && before[id].id == id && message == Announce(before[id], now)
    ensures Announced(sent + [message], before, remaining - {id}, now)
  {
  }

  /**
   * calculateResourceUpdate, updateResources with its amounts, then findById: the step every
   * endpoint takes before it reads a village. The stored village becomes its reconciliation,
   * which is also what comes back; nothing else changes.
   */
  method ReconcileStored(store: VillageStore, id: string, now: int) returns (current: Village)
    requires store.Valid() && id in store.villages
    modifies store
    ensures store.Valid()
    ensures current == Reconcile(old(store.villages)[id], now)
    ensures store.villages == old(store.villages)[id := current]
  {
    var village := store.villages[id];
    var updated := CalculateResourceUpdate(village, now);
    var _ := store.UpdateResources(village.id, updated.resources, now);
    current := store.FindById(id).value;
  }

  /**
   * One village's turn in the tick: calculateResourceUpdate, then updateResources with what it
   * returned. The stored village becomes its reconciliation; nothing else changes.
   */
  method ReconcileOne(store: VillageStore, id: string, now: int) returns (message: Broadcast)
    requires store.Valid() && id in store.villages
    modifies store
    ensures store.Valid()
    ensures store.villages == old(store.villages)[id := Reconcile(old(store.villages)[id], now)]
    ensures message == Announce(old(store.villages)[id], now)
  {
    var village := store.villages[id];
    var updated := CalculateResourceUpdate(village, now);
    var _ := store.UpdateResources(id, updated.resources, now);
    message := Broadcast(id, updated.resources, village.production);
  }

  /** Partway through a tick: the ids taken off `remaining` are reconciled, the others untouched. */
  ghost predicate TickedSoFar(m: map<string, Village>, before: map<string, Village>, remaining: set<string>, now: int) {
    && m.Keys == before.Keys
    && remaining <= before.Keys
    && forall id :: id in before ==> m[id] == if id in remaining then before[id] else Reconcile(before[id], now)
  }

  /** Reconciling one more remaining village keeps a tick on track. */
  lemma TickStep(m: map<string, Village>, before: map<string, Village>, remaining: set<string>, id: string, now: int)
    requires TickedSoFar(m, before, remaining, now) && id in remaining
    ensures TickedSoFar(m[id := Reconcile(m[id], now)], before, remaining - {id}, now)
    ensures |remaining - {id}| == |remaining| - 1
  {
  }

  /**
   * The body of the 5-second resource updater: every stored village is reconciled and written
   * back exactly once; the store keeps its ids, and every village ends with all amounts in
   * [0, storage]. One broadcast goes out per village, carrying the unclamped update.
   */
  method Tick(store: VillageStore, now: int) returns (sent: seq<Broadcast>)
    requires store.Valid()
    modifies store
    ensures store.Valid()
    ensures store.villages.Keys == old(store.villages).Keys
    ensures forall id :: id in store.villages ==> store.villages[id] == Reconcile(old(store.villages)[id], now)
    ensures |sent| == |old(store.villages)|
    ensures forall i :: 0 <= i < |sent| ==>
      sent[i].villageId in old(store.villages) && sent[i] == Announce(old(store.villages)[sent[i].villageId], now)
    ensures forall i, j :: 0 <= i < j < |sent| ==> sent[i].villageId != sent[j].villageId
  {
    ghost var before := store.villages;
    var remaining := store.villages.Keys;
    sent := [];
    while remaining != {}
      invariant store.Valid()
      invariant TickedSoFar(store.villages, before, remaining, now)
      invariant |sent| + |remaining| == |before.Keys|
      invariant Announced(sent, before, remaining, now)
      decreases remaining
    {
      var id :| id in remaining;
      ghost var m := store.villages;
      var message := ReconcileOne(store, id, now);
      TickStep(m, before, remaining, id, now);
      AnnouncedStep(sent, message, before, remaining, id, now);
      sent := sent + [message];
      remaining := remaining - {id};
    }
  }
}

/**
 * The village endpoints: listing the caller's villages, showing one village with its buildings,
 * and renaming a village. Every village that is shown is reconciled first (resources accrued up
 * to `now` and written back).
 */
module VillageController {
  import opened Wrappers
  import opened Constants
  import opened VillageModel
  import opened BuildingModel
  import opened ResourceService

  // ---------------------------------------------------------------------------------------
  // String.prototype.trim
  // ---------------------------------------------------------------------------------------

  /** The characters `trim` removes: the ECMAScript WhiteSpace and LineTerminator characters. */
  predicate IsSpace(c: char)
    ensures c as int < 128 ==> (IsSpace(c) <==> c == ' ' || '\t' <= c <= '\r')
  {
    || c == ' ' || c == '\t' || c == '\n' || c == '\r' || c == '\U{000B}' || c == '\U{000C}'
    || c == '\U{00A0}' || c == '\U{FEFF}' || c == '\U{1680}'
    || ('\U{2000}' <= c <= '\U{200A}')
    || c == '\U{2028}' || c == '\U{2029}' || c == '\U{202F}' || c == '\U{205F}' || c == '\U{3000}'
  }

  /** Every character is a space. */
  predicate Blank(s: string) {
    forall i :: 0 <= i < |s| ==> IsSpace(s[i])
  }

  /** `s` without its leading spaces. */
  function TrimStart(s: string): (r: string)
    ensures |r| <= |s|
  {
    if s != [] && IsSpace(s[0]) then TrimStart(s[1..]) else s
  }

  /** `s` without its trailing spaces. */
  function TrimEnd(s: string): (r: string)
    ensures |r| <= |s|
  {
    if s != [] && IsSpace(s[|s| - 1]) then TrimEnd(s[..|s| - 1]) else s
  }

  /** `s.trim()`. */
  function Trim(s: string): (r: string)
    ensures |r| <= |s|
  {
    TrimEnd(TrimStart(s))
  }

  /** TrimStart keeps a suffix of s that starts with a non-space, if anything is left, and drops only spaces. */
  lemma {:induction false} TrimStartShape(s: string)
    ensures var r := TrimStart(s);
      && r == s[|s| - |r|..]
      && (r != [] ==> !IsSpace(r[0]))
      && forall i :: 0 <= i < |s| - |r| ==> IsSpace(s[i])
  {
    if s != [] && IsSpace(s[0]) {
      TrimStartShape(s[1..]);
      var r := TrimStart(s);
      assert s[1..][|s| - 1 - |r|..] == s[|s| - |r|..];
      forall i | 1 <= i < |s| - |r|
        ensures IsSpace(s[i])
      {
        assert s[i] == s[1..][i - 1];
      }
    }
  }

  /** TrimEnd keeps a prefix of s that ends with a non-space, if anything is left, and drops only spaces. */
  lemma {:induction false} TrimEndShape(s: string)
    ensures var r := TrimEnd(s);
      && r == s[..|r|]
      && (r != [] ==> !IsSpace(r[|r| - 1]))
      && forall i :: |r| <= i < |s| ==> IsSpace(s[i])
  {
    if s != [] && IsSpace(s[|s| - 1]) {
      var p := s[..|s| - 1];
      TrimEndShape(p);
      var r := TrimEnd(s);
      assert p[..|r|] == s[..|r|];
      forall i | |r| <= i < |s| - 1
        ensures IsSpace(s[i])
      {
        assert s[i] == p[i];
      }
    }
  }

  /**
   * Trim cuts s into leading spaces, the result, and trailing spaces: the result is the slice
   * of s that starts after its leading spaces.
   */
  lemma TrimSlice(s: string)
    ensures var i, r := |s| - |TrimStart(s)|, Trim(s);
      && i + |r| <= |s| && s[i..i + |r|] == r
      && (forall k :: 0 <= k < i ==> IsSpace(s[k]))
      && (forall k :: i + |r| <= k < |s| ==> IsSpace(s[k]))
  {
    var t := TrimStart(s);
    var r := TrimEnd(t);
    var i := |s| - |t|;
    TrimStartShape(s);
    TrimEndShape(t);
    assert s[i..i + |r|] == r by {
      assert t == s[i..];
      assert r == t[..|r|];
    }
    forall k | i + |r| <= k < |s|
      ensures IsSpace(s[k])
    {
      assert s[k] == t[k - i];
    }
  }

  /** The result of trim neither starts nor ends with a space. */
  lemma TrimBoundaries(s: string)
    ensures var r := Trim(s); r != [] ==> !IsSpace(r[0]) && !IsSpace(r[|r| - 1])
  {
    var t := TrimStart(s);
    var r := TrimEnd(t);
    TrimStartShape(s);
    TrimEndShape(t);
    if r != [] {
      assert r[0] == t[0];
    }
  }

  /** The result of trim is empty exactly when the string is all spaces. */
  lemma TrimEmptyIffBlank(s: string)
    ensures Trim(s) == [] <==> Blank(s)
  {
    var t := TrimStart(s);
    TrimSlice(s);
    TrimStartShape(s);
    TrimEndShape(t);
    if Trim(s) == [] {
      assert t == [];
    } else {
      TrimBoundaries(s);
    }
  }

  /** Trimming a trimmed string changes nothing. */
  lemma TrimIdempotent(s: string)
    ensures Trim(Trim(s)) == Trim(s)
  {
    var r := Trim(s);
    TrimBoundaries(s);
    if r != [] {
      assert TrimStart(r) == r;
      assert TrimEnd(r) == r;
    }
  }

  /** A name with spaces around it comes out bare. */
  lemma TrimExample()
    ensures Trim(" Tara\t") == "Tara"
  {
    assert " Tara\t"[1..] == "Tara\t";
    assert "Tara\t"[..4] == "Tara";
  }

  // ---------------------------------------------------------------------------------------
  // Endpoints
  // ---------------------------------------------------------------------------------------

  /** What getVillageById answers with: the reconciled village and its buildings' JSON. */
  datatype VillageDetails = VillageDetails(village: Village, buildings: seq<BuildingJson>)

  /** What findByUserId promises: distinct stored villages of `userId`, and all of them. */
  ghost predicate FoundFor(found: seq<Village>, before: map<string, Village>, userId: string) {
    && (forall id :: id in before ==> before[id].id == id)
    && (forall j :: 0 <= j < |found| ==> found[j].id in before && before[found[j].id] == found[j] && found[j].userId == userId)
    && (forall id :: id in before && before[id].userId == userId ==> before[id] in found)
    && (forall i, j :: 0 <= i < j < |found| ==> found[i].id != found[j].id)
  }

  /** Partway through getVillages: the first i found villages are reconciled and listed, nothing else changed. */
  ghost predicate ListedSoFar(m: map<string, Village>, before: map<string, Village>, found: seq<Village>, i: nat,
                              result: seq<Village>, userId: string, now: int)
  {
    && FoundFor(found, before, userId)
    && m.Keys == before.Keys && i <= |found| && |result| == i
    && (forall j :: 0 <= j < i ==>
          m[found[j].id] == Reconcile(before[found[j].id], now) && result[j] == Reconcile(before[found[j].id], now))
    && (forall j :: i <= j < |found| ==> m[found[j].id] == before[found[j].id])
    && (forall id :: id in before && before[id].userId != userId ==> m[id] == before[id])
  }

  /** Reconciling and listing the next found village keeps getVillages on track. */
  lemma ListStep(m: map<string, Village>, before: map<string, Village>, found: seq<Village>, i: nat,
                 result: seq<Village>, userId: string, now: int)
    requires ListedSoFar(m, before, found, i, result, userId, now) && i < |found|
    ensures var id := found[i].id; var v := Reconcile(m[id], now);
      ListedSoFar(m[id := v], before, found, i + 1, result + [v], userId, now)
  {
  }

  /** Once every found village is listed, the store and the answer are what getVillages promises. */
  lemma ListedAll(m: map<string, Village>, before: map<string, Village>, found: seq<Village>,
                  result: seq<Village>, userId: string, now: int)
    requires ListedSoFar(m, before, found, |found|, result, userId, now)
    ensures forall id :: id in before ==>
      m[id] == if before[id].userId == userId then Reconcile(before[id], now) else before[id]
    ensures forall i :: 0 <= i < |result| ==>
      && result[i].id in before && before[result[i].id].userId == userId
      && result[i] == Reconcile(before[result[i].id], now)
    ensures forall id :: id in before && before[id].userId == userId ==> Reconcile(before[id], now) in result
    ensures forall i, j :: 0 <= i < j < |result| ==> result[i].id != result[j].id
  {
    forall id | id in before && before[id].userId == userId
      ensures m[id] == Reconcile(before[id], now) && Reconcile(before[id], now) in result
    {
      var k :| 0 <= k < |found| && found[k] == before[id];
      assert found[k].id == id;
      assert result[k] == Reconcile(before[id], now);
    }
  }

  /**
   * getVillages: every village of `userId` is reconciled and written back, and the answer is the
   * reconciled villages, each once; the store keeps its ids and the other users' villages.
   */
  method GetVillages(villages: VillageStore, userId: string, now: int) returns (result: seq<Village>)
    requires villages.Valid()
    modifies villages
    ensures villages.Valid()
    ensures villages.villages.Keys == old(villages.villages).Keys
    ensures forall id :: id in old(villages.villages) ==>
      villages.villages[id] ==
        if old(villages.villages)[id].userId == userId then Reconcile(old(villages.villages)[id], now)
        else old(villages.villages)[id]
    ensures forall i :: 0 <= i < |result| ==>
      && result[i].id in old(villages.villages) && old(villages.villages)[result[i].id].userId == userId
      && result[i] == Reconcile(old(villages.villages)[result[i].id], now)
    ensures forall id :: id in old(villages.villages) && old(villages.villages)[id].userId == userId ==>
      Reconcile(old(villages.villages)[id], now) in result
    ensures forall i, j :: 0 <= i < j < |result| ==> result[i].id != result[j].id
  {
    ghost var before := villages.villages;
    var found := villages.FindByUserId(userId);
    result := [];
    for i := 0 to |found|
      invariant villages.Valid()
      invariant ListedSoFar(villages.villages, before, found, i, result, userId, now)
    {
      ghost var m := villages.villages;
      var current := ReconcileStored(villages, found[i].id, now);
      ListStep(m, before, found, i, result, userId, now);
      result := result + [current];
    }
    ListedAll(villages.villages, before, found, result, userId, now);
  }

  /**
   * getVillageById: an unknown id and another user's village are refused in that order and
   * change nothing; otherwise the village is reconciled and written back, and the answer is the
   * reconciled village with the JSON of each of its building records, in order.
   */
  method GetVillageById(villages: VillageStore, buildings: BuildingStore, id: string, userId: string, now: int)
    returns (r: Result<VillageDetails, Failure>)
    requires villages.Valid() && buildings.Valid()
    modifies villages
    ensures villages.Valid()
    ensures id !in old(villages.villages) ==> r == Err(NoSuchVillage) && villages.villages == old(villages.villages)
    ensures id in old(villages.villages) && old(villages.villages)[id].userId != userId ==>
      r == Err(ForeignVillage) && villages.villages == old(villages.villages)
    ensures id in old(villages.villages) && old(villages.villages)[id].userId == userId ==>
      && var v := Reconcile(old(villages.villages)[id], now);
      && villages.villages == old(villages.villages)[id := v]
      && r.Ok? && r.value.village == v
      && |r.value.buildings| == |buildings.FindByVillageId(id)|
      && forall i :: 0 <= i < |r.value.buildings| ==> r.value.buildings[i] == ToJson(buildings.FindByVillageId(id)[i])
  {
    var village := villages.FindById(id);
    if village.None? {
      return Err(NoSuchVillage);
    }
    if village.value.userId != userId {
      return Err(ForeignVillage);
    }
    var updatedVillage := ReconcileStored(villages, id, now);
    var records := buildings.FindByVillageId(id);
    assert forall i :: 0 <= i < |records| ==> records[i] in buildings.Repr;
    return Ok(VillageDetails(updatedVillage, ToJsonAll(records)));
  }

  /**
   * updateVillageName: a missing, empty or all-space name is refused before anything else; then
   * an unknown id and another user's village are refused; none of these changes anything.
   * Otherwise only the village's name changes, to the trimmed name, and the renamed village is
   * the answer.
   */
  method UpdateVillageName(villages: VillageStore, id: string, name: Option<string>, userId: string)
    returns (r: Result<Village, Failure>)
    requires villages.Valid()
    modifies villages
    ensures villages.Valid()
    ensures name.None? || Blank(name.value) ==> r == Err(BlankName) && villages.villages == old(villages.villages)
    ensures name.Some? && !Blank(name.value) && id !in old(villages.villages) ==>
      r == Err(NoSuchVillage) && villages.villages == old(villages.villages)
    ensures name.Some? && !Blank(name.value) && id in old(villages.villages) && old(villages.villages)[id].userId != userId ==>
      r == Err(ForeignVillage) && villages.villages == old(villages.villages)
    ensures name.Some? && !Blank(name.value) && id in old(villages.villages) && old(villages.villages)[id].userId == userId ==>
      && r == Ok(old(villages.villages)[id].(name := Trim(name.value)))
      && villages.villages == old(villages.villages)[id := r.value]
      && r.value.name != [] && Trim(r.value.name) == r.value.name
  {
    if name.None? || name.value == "" || |Trim(name.value)| == 0 {
      if name.Some? {
        TrimEmptyIffBlank(name.value);
      }
      return Err(BlankName);
    }
    TrimEmptyIffBlank(name.value);
    var village := villages.FindById(id);
    if village.None? {
      return Err(NoSuchVillage);
    }
    if village.value.userId != userId {
      return Err(ForeignVillage);
    }
    TrimIdempotent(name.value);
    var updatedVillage := villages.UpdateName(id, Trim(name.value));
    return Ok(updatedVillage.value);
  }
}

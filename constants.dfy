/**
 * The static game tables: BUILDINGS, BUILDING_FORMULAS, STARTING_VILLAGE and the
 * error codes of ERRORS. Nothing here changes at run time.
 */
module Constants {
  import opened Wrappers

  /** The six keys of BUILDINGS. */
  datatype Kind = Lumber | Clay | Iron | Headquarters | Barracks | Wall

  /** A record with one entry per raw resource: `{ wood, clay, iron }`. */
  datatype Triple<T> = Triple(wood: T, clay: T, iron: T)

  /** The ERRORS codes the economy can report. */
  datatype ErrorCode =
    | InvalidCredentials | UserExists | EmailExists | Unauthorized
    | InsufficientResources
    | BuildingUpgrading | BuildingMaxLevel | InvalidBuildingType
    | VillageNotFound | NotYourVillage
    | InternalError

  /** Why a controller refused a request: what it answers with, in place of the HTTP response. */
  datatype Failure =
    | MissingParameters
    | BlankName
    | NoSuchVillage
    | ForeignVillage
    | NoSuchBuilding
    | StillUpgrading
    | NotEnough(required: Triple<int>, current: Triple<real>)

  /** The ERRORS entry a refusal carries; the two validation refusals carry a plain message instead. */
  function Code(f: Failure): (c: Option<ErrorCode>)
    ensures c.None? <==> f.MissingParameters? || f.BlankName?
  {
    match f
    case MissingParameters => None
    case BlankName => None
    case NoSuchVillage => Some(VillageNotFound)
    case ForeignVillage => Some(NotYourVillage)
    case NoSuchBuilding => Some(InvalidBuildingType)
    case StillUpgrading => Some(BuildingUpgrading)
    case NotEnough(_, _) => Some(InsufficientResources)
  }

  /** The HTTP status each refusal is sent with. */
  function Status(f: Failure): (s: int)
    ensures s == StatusNotFound <==> f.NoSuchVillage? || f.NoSuchBuilding?
    ensures s == StatusForbidden <==> f.ForeignVillage?
    ensures s in {StatusBadRequest, StatusForbidden, StatusNotFound}
  {
    match f
    case NoSuchVillage => StatusNotFound
    case NoSuchBuilding => StatusNotFound
    case ForeignVillage => StatusForbidden
    case _ => StatusBadRequest
  }

  /** The HTTP_STATUS codes the controllers answer with. */
  const StatusOk: int := 200
  const StatusBadRequest: int := 400
  const StatusForbidden: int := 403
  const StatusNotFound: int := 404
  const StatusConflict: int := 409

  /** The key under which a kind is stored in BUILDINGS. */
  function KindName(k: Kind): string {
    match k
    case Lumber => "lumber"
    case Clay => "clay"
    case Iron => "iron"
    case Headquarters => "headquarters"
    case Barracks => "barracks"
    case Wall => "wall"
  }

  /** `BUILDINGS[name]`: defined exactly for the six keys. */
  function KindOf(name: string): (r: Option<Kind>)
    ensures r.Some? ==> KindName(r.value) == name
    ensures forall k :: KindName(k) == name ==> r == Some(k)
  {
    if name == "lumber" then Some(Lumber)
    else if name == "clay" then Some(Clay)
    else if name == "iron" then Some(Iron)
    else if name == "headquarters" then Some(Headquarters)
    else if name == "barracks" then Some(Barracks)
    else if name == "wall" then Some(Wall)
    else None
  }

  /** Different kinds have different keys. */
  lemma KindNameInjective(a: Kind, b: Kind)
    requires KindName(a) == KindName(b)
    ensures a == b
  {
    assert KindOf(KindName(a)) == Some(b);
  }

  /** The `name` field of each kind. */
  function DisplayName(k: Kind): string {
    match k
    case Lumber => "Fatelep"
    case Clay => "Agyagbánya"
    case Iron => "Vasbánya"
    case Headquarters => "Főépület"
    case Barracks => "Kaszárnya"
    case Wall => "Palánk"
  }

  /** The `baseCost` field: what the first upgrade (from level 0) costs. */
  function BaseCost(k: Kind): (c: Triple<int>)
    ensures c.wood > 0 && c.clay > 0 && c.iron > 0
  {
    match k
    case Lumber => Triple(50, 60, 40)
    case Clay => Triple(65, 50, 40)
    case Iron => Triple(75, 65, 70)
    case Headquarters => Triple(90, 80, 70)
    case Barracks => Triple(200, 170, 90)
    case Wall => Triple(50, 100, 20)
  }

  /** The three kinds that produce a raw resource. */
  predicate IsProducer(k: Kind) {
    k == Lumber || k == Clay || k == Iron
  }

  /** The optional `baseProduction` field, in units per hour at level 1. */
  function BaseProduction(k: Kind): (p: Option<int>)
    ensures p.Some? <==> IsProducer(k)
    ensures p.Some? ==> p.value > 0
  {
    match k
    case Lumber => Some(30)
    case Clay => Some(30)
    case Iron => Some(25)
    case _ => None
  }

  /** The `maxLevel` field. */
  function MaxLevel(k: Kind): (m: nat)
    ensures 20 <= m <= 30
  {
    match k
    case Barracks => 25
    case Wall => 20
    case _ => 30
  }

  /** BUILDING_FORMULAS.costMultiplier (1.26) and productionMultiplier (1.2), exactly. */
  const CostMultiplier: real := 1.26
  const ProductionMultiplier: real := 1.2

  /** STARTING_VILLAGE.resources and STARTING_VILLAGE.storage. */
  const StartingResources: Triple<int> := Triple(500, 500, 400)
  const StartingStorage: Triple<int> := Triple(1000, 1000, 1000)

  /** The production rates a new village starts with. */
  const DefaultProduction: Triple<int> := Triple(30, 30, 25)

  /** STARTING_VILLAGE.buildings, in the order its keys are written. */
  const StartingBuildings: seq<(string, nat)> := [
    ("lumber", 1), ("clay", 1), ("iron", 1), ("headquarters", 1), ("barracks", 0), ("wall", 0)
  ]

  /** The keys of STARTING_VILLAGE.buildings read as kinds, in the order they are written. */
  const StartingKinds: seq<Kind> := [Lumber, Clay, Iron, Headquarters, Barracks, Wall]

  /** The level STARTING_VILLAGE.buildings gives each kind. */
  function StartingLevel(k: Kind): nat {
    match k
    case Barracks => 0
    case Wall => 0
    case _ => 1
  }

  /** Where a kind's key sits among the keys of STARTING_VILLAGE.buildings. */
  function StartingIndex(k: Kind): (i: nat)
    ensures i < |StartingKinds| && StartingKinds[i] == k
  {
    match k
    case Lumber => 0
    case Clay => 1
    case Iron => 2
    case Headquarters => 3
    case Barracks => 4
    case Wall => 5
  }

  /** Each kind appears once among the starting keys. */
  lemma StartingIndexOfKey(j: nat)
    requires j < |StartingKinds|
    ensures StartingIndex(StartingKinds[j]) == j
  {
  }

  /** Both growth factors exceed 1. */
  lemma MultipliersExceedOne()
    ensures CostMultiplier > 1.0 && ProductionMultiplier > 1.0
    ensures CostMultiplier == 63.0 / 50.0 && ProductionMultiplier == 6.0 / 5.0
  {
  }

  /** The starting amounts fit in the starting storage, and the default rates are the base rates. */
  lemma StartingVillageConsistent()
    ensures 0 <= StartingResources.wood <= StartingStorage.wood
    ensures 0 <= StartingResources.clay <= StartingStorage.clay
    ensures 0 <= StartingResources.iron <= StartingStorage.iron
    ensures DefaultProduction == Triple(BaseProduction(Lumber).value, BaseProduction(Clay).value, BaseProduction(Iron).value)
  {
  }

  /**
   * STARTING_VILLAGE.buildings, key by key: each key is the BUILDINGS key of the kind at its
   * position in StartingKinds, with that kind's starting level, which lies within its maxLevel;
   * no key is repeated.
   */
  lemma StartingBuildingsWellFormed()
    ensures |StartingBuildings| == |StartingKinds|
    ensures forall i :: 0 <= i < |StartingBuildings| ==>
      && KindOf(StartingBuildings[i].0) == Some(StartingKinds[i])
      && StartingBuildings[i].1 == StartingLevel(StartingKinds[i]) <= MaxLevel(StartingKinds[i])
    ensures forall i, j :: 0 <= i < j < |StartingBuildings| ==> StartingBuildings[i].0 != StartingBuildings[j].0
  {
  }
}

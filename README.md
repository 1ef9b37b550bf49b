# Tribal Lords backend: the resource economy

This project models the economy of the Tribal Lords game server in Dafny:

- the static building tables;
- the upgrade-cost, production and village-points formulas;
- resource accrual and the periodic tick;
- the in-memory Village, Building and User stores;
- the upgrade endpoint, the building listing and the three village endpoints;
- the helpers formatTime, formatNumber and generateId.

## Modelling choices

- **Exact arithmetic.** Formulas use exact reals: 1.26 = 63/50 and 1.2 = 6/5. Time is whole milliseconds, passed in as `now`.
- **Stores as classes.** Each store is a class whose field is a `map`, and the methods reassign it.
  - Villages and users are values in the map.
  - Building records are objects (`class Building`), because upgradeBuilding holds a record while `incrementLevel` changes that same record.
- **Failures.** A refusal is a `Failure` value. `Constants.Code` and `Constants.Status` say which ERRORS entry and HTTP status it carries.
- **Missing parameters.** A request parameter the client left out is the empty string. The name in updateVillageName is an `Option`, because `!name` and a blank trim are separate checks there.
- **Randomness and hashing.**
  - uuid values are `freshId` parameters.
  - `Math.random()` values are reals in [0, 1) passed as parameters.
  - bcrypt is a `hash: string -> string` parameter.

### Behaviour the code has and its comments do not describe

- **Aliasing.** In upgradeBuilding the record read before the upgrade is the same object that `incrementLevel` raises. As a result, `calculateProduction(type, building.level + 1)` is evaluated at the *new* level + 1: upgrading lumber from level L writes the rate of level L + 2.
  - `BuildingController.UpgradeWritesRateOfLevelAfterNext` proves this rate is strictly above the rate of the new level L + 1.
  - `UpgradeBuilding` states it in its postcondition.
- **No maxLevel check.** Nothing stops an upgrade at maxLevel, and `BuildingMaxLevel` is never produced.
  - `BuildingService.UpgradeBlockedFromLevelFourteen` and `BuildingController.HighLevelsUnaffordable` show that, while storage stays at its starting 1000, no building at level 14 or above can be paid for.
  - Every maxLevel is at least 20, so under that storage the missing check never matters.
- **The worked examples in comments disagree with the formulas.**
  - The level-5 lumber upgrade costs {158, 190, 127}, not {159, 191, 127}: `LumberLevelFiveCost`.
  - Lumber at level 6 produces 74 per hour, not 75: `LumberLevelSixProduction`.
  - Lumber at level 3 is worth 57 points, not 58: `LumberLevelThreeScore`.
- **Default points versus the starting score.** A new village starts with 20 points. Scoring its starting buildings gives 75 (`StartingScore`), so the first upgrade makes the points jump.

## Model

| member | source | states |
|---|---|---|
| Constants.Code | src/config/constants.js:161-182 | a refusal carries an ERRORS code except exactly the two validation refusals (missing parameters, blank name) |
| Constants.Status | src/config/constants.js:146-155 | not-found exactly for an unknown village or building, forbidden exactly for another user's village, bad request otherwise |
| Constants.KindOf | src/config/constants.js:13-92 | defined exactly for the six own keys of `BUILDINGS`, and the inverse of KindName |
| Constants.KindNameInjective | src/config/constants.js:13-92 | different kinds have different keys |
| Constants.BaseCost | src/config/constants.js:13-92 | every baseCost component of every kind is positive |
| Constants.BaseProduction | src/config/constants.js:13-92 | exactly lumber, clay and iron have a baseProduction, and it is positive |
| Constants.MaxLevel | src/config/constants.js:13-92 | every maxLevel lies between 20 and 30 |
| Constants.MultipliersExceedOne | src/config/constants.js:98-105 | both growth factors exceed 1 (63/50 and 6/5) |
| Constants.StartingVillageConsistent | src/config/constants.js:116-129 | starting amounts lie within the starting storage; the default rates 30/30/25 are the base rates |
| Constants.StartingIndex | src/config/constants.js:132-139 | each kind has a position among the STARTING_VILLAGE.buildings keys |
| Constants.StartingIndexOfKey | src/config/constants.js:132-139 | that position is the kind's only one |
| Constants.StartingBuildingsWellFormed | src/config/constants.js:132-139 | every starting key is a BUILDINGS key, none repeats, and each starting level is within that kind's maxLevel |
| VillageModel.NameOrDefault | src/models/Village.js:60 | a missing or empty name becomes "Falu", any other name is kept |
| VillageModel.CoordinateOr | src/models/Village.js:61-62 | a missing or zero coordinate is replaced by a random one in 0..99; any other is kept |
| VillageModel.Clamp | src/models/Village.js:135-137 | `max(0, min(r, cap))` lies in [0, cap] and keeps values already inside |
| VillageModel.ClampInto | src/models/Village.js:134-138 | clamped amounts lie within a non-negative storage; amounts already within are unchanged |
| VillageModel.ClampIdempotent | src/models/Village.js:134-138 | clamping twice is clamping once |
| VillageModel.Merge | src/models/Village.js:151 | the supplied keys overwrite, the others are kept |
| VillageModel.MergeLaws | src/models/Village.js:151 | merging nothing is the identity; merging an update twice is merging it once |
| VillageModel.NewVillage | src/models/Village.js:19-63 | a new village: the given owner, the defaulted name and coordinates, starting resources and storage, production 30/30/25, 20 points, stamped `now` |
| VillageModel.VillageStore.constructor | src/models/Village.js:12 | the store starts empty |
| VillageModel.VillageStore.Create | src/models/Village.js:57-70 | one new village under the fresh id; nothing else changes; the count rises by one |
| VillageModel.VillageStore.FindById | src/models/Village.js:79-81 | the stored village, or none exactly when the id is absent |
| VillageModel.VillageStore.FindByUserId | src/models/Village.js:86-93 | exactly the stored villages of that user, each once |
| VillageModel.VillageStore.FindByCoordinates | src/models/Village.js:98-101 | a village standing at (x, y), or none exactly when no village stands there |
| VillageModel.VillageStore.FindAll | src/models/Village.js:106-108 | every stored village exactly once, and nothing else |
| VillageModel.VillageStore.UpdateName | src/models/Village.js:117-125 | only the name changes; an unknown id changes nothing and returns none |
| VillageModel.VillageStore.UpdateResources | src/models/Village.js:130-143 | each amount becomes `max(0, min(r, storage))` and the timestamp becomes `now`; an unknown id changes nothing |
| VillageModel.VillageStore.UpdateProduction | src/models/Village.js:148-155 | only the supplied production keys change; an unknown id changes nothing |
| VillageModel.VillageStore.UpdatePoints | src/models/Village.js:160-167 | only the points change; an unknown id changes nothing |
| VillageModel.VillageStore.Delete | src/models/Village.js:176-178 | true exactly when the id was stored; the id is removed; the count falls by one exactly when it was stored |
| VillageModel.VillageStore.Count | src/models/Village.js:207-209 | the number of stored villages; 0 exactly for an empty store |
| VillageModel.VillageStore.ClearAll | src/models/Village.js:214-217 | the store becomes empty |
| BuildingModel.Building.constructor | src/models/Building.js:11-20 | a record of the given village, type and level, not upgrading |
| BuildingModel.MaxLevelFor | src/models/Building.js:73 | the kind's maxLevel, falling back to 30 for an unknown type |
| BuildingModel.NameFor | src/models/Building.js:69 | the kind's name, falling back to the type string |
| BuildingModel.ToJson | src/models/Building.js:64-77 | the record's village, type, level and upgrading flag, with its kind's name and maxLevel |
| BuildingModel.ToJsonAll | src/controllers/building.controller.js:77 | the JSON of each record, in order |
| BuildingModel.Collect | src/models/Building.js:40 | the inner map's records under the starting keys, in insertion order |
| BuildingModel.Summary | src/services/building.service.js:96-98 | the (type, level) of each record, in order |
| BuildingModel.Lookup | src/models/Building.js:46 | a record exactly when the type names a kind present in the inner map |
| BuildingModel.NewVillageBuildings | src/models/Building.js:24-30 | one fresh record per starting key, at that key's level and not upgrading; the records in insertion order |
| BuildingModel.BuildingStore.constructor | src/models/Building.js:8 | the store starts empty |
| BuildingModel.BuildingStore.FindOne | src/models/Building.js:44-47 | null exactly when the village has no map or the type names no kind |
| BuildingModel.BuildingStore.RecordsDistinct | src/models/Building.js:23-35 | no record sits under two positions |
| BuildingModel.BuildingStore.CreateDefaultBuildings | src/models/Building.js:23-35 | the village's map is replaced by fresh starting records; the answer is what findByVillageId answers from then on |
| BuildingModel.BuildingStore.FindByVillageId | src/models/Building.js:38-41 | the village's six records in insertion order; empty for an unknown village |
| BuildingModel.BuildingStore.IncrementLevel | src/models/Building.js:50-61 | that one record's level rises by exactly 1; null and no change when the village or the type is absent |
| BuildingModel.BuildingStore.DeleteAllByVillage | src/models/Building.js:79-81 | the village's map is removed; true exactly when it existed |
| BuildingModel.BuildingStore.ClearAll | src/models/Building.js:83-86 | the store becomes empty |
| ResourceService.HoursElapsed | src/services/resource.service.js:18 | hours × 3,600,000 is the elapsed milliseconds; non-negative exactly when the clock is not behind |
| ResourceService.Accrue | src/services/resource.service.js:36-49 | `Math.min(old + rate × hours, storage)`: at most both terms, and equal to one of them |
| ResourceService.CalculateResourceUpdate | src/services/resource.service.js:13-57 | each amount is capped at its storage; the update holds for `now` |
| ResourceService.NoTimeNoGain | src/services/resource.service.js:36-49 | with no time elapsed each amount becomes min(old, storage), and is unchanged if it was within storage |
| ResourceService.NeverBelowStart | src/services/resource.service.js:26-49 | forward in time with non-negative rates, no amount falls below min(old, storage) |
| ResourceService.BackwardClockLoses | src/services/resource.service.js:18-49 | there is only an upper cap: with the clock behind, a positive rate shrinks the amount |
| ResourceService.WorkedExample | src/services/resource.service.js:20-33 | 75 per hour over 2.5 hours gains 187.5 |
| ResourceService.Reconcile | src/services/resource.service.js:72-73 | reconciling changes only the amounts and the timestamp; amounts land within storage, equal to the update when it already fits; a well-formed village stays well-formed |
| ResourceService.AccrueSplit | src/services/resource.service.js:36-49 | splitting the elapsed time in two does not change the clamped result |
| ResourceService.ReconcileTwice | src/services/resource.service.js:67-84 | reconciling at t1 then at t2 equals reconciling once at t2 |
| ResourceService.Announce | src/services/resource.service.js:76-81 | the broadcast carries the village id, the unclamped update and the rates |
| ResourceService.ReconcileStored | src/controllers/village.controller.js:34-40 | the stored village becomes its reconciliation, which is returned; nothing else changes |
| ResourceService.ReconcileOne | src/services/resource.service.js:72-81 | one tick step: the stored village becomes its reconciliation and its broadcast is returned |
| ResourceService.Tick | src/services/resource.service.js:67-84 | each stored village is reconciled exactly once, so every amount ends in [0, storage]; one broadcast per village |
| BuildingService.Pow | src/services/building.service.js:21 | a power of a positive factor is positive, and of a factor ≥ 1 is ≥ 1 |
| BuildingService.PowInt | src/services/building.service.js:76 | the power is positive for a negative exponent too (level 0 uses exponent -1) |
| BuildingService.UpgradeCost | src/services/building.service.js:20-27 | the cost at level 0 is the base cost; the general formula is stated by UpgradeCostFormula |
| BuildingService.UpgradeCostFormula | src/services/building.service.js:20-27 | each cost component is `floor(baseCost × 1.26^level)` |
| BuildingService.CalculateUpgradeCost | src/services/building.service.js:13-27 | fails with InvalidBuildingType exactly for a type that is not a BUILDINGS key; otherwise the upgrade cost |
| BuildingService.UpgradeCostAtLeastBase | src/services/building.service.js:20-27 | at level 0 the cost is baseCost; at every level every component is at least baseCost |
| BuildingService.UpgradeCostMonotone | src/services/building.service.js:20-27 | the cost never decreases, component by component, as the level grows |
| BuildingService.PowCostMultiplier | src/services/building.service.js:29-33 | 1.26^5 = 3.1757969376 exactly |
| BuildingService.LumberLevelFiveCost | src/services/building.service.js:29-33 | the level-5 lumber upgrade costs {158, 190, 127} |
| BuildingService.UpgradeBlockedFromLevelFourteen | src/controllers/building.controller.js:191-215 | from level 14 on, every wood cost exceeds the starting storage, and 14 is below every maxLevel |
| BuildingService.Production | src/services/building.service.js:73-77 | 0 for a kind without baseProduction, and baseProduction itself at level 1 |
| BuildingService.ProductionFormula | src/services/building.service.js:73-77 | the rate is `floor(baseProduction × 1.2^(level - 1))`, including exponent -1 at level 0 |
| BuildingService.CalculateProduction | src/services/building.service.js:66-78 | 0 for unknown types; otherwise the kind's rate (0 without baseProduction) |
| BuildingService.ProductionAtLevelOne | src/services/building.service.js:73-77 | at level 1 a producer yields its baseProduction, which is the village default production |
| BuildingService.ProductionStrictlyIncreasing | src/services/building.service.js:73-77 | from level 1 on, each level raises a producer's rate |
| BuildingService.PowProductionMultiplier | src/services/building.service.js:79-83 | 1.2^5 = 2.48832 exactly |
| BuildingService.LumberLevelSixProduction | src/services/building.service.js:79-83 | lumber at level 6 produces 74 |
| BuildingService.LevelPointsAreInvestmentOverTen | src/services/building.service.js:98-101 | one building's accumulated tenths are its total spend over 10 |
| BuildingService.PointsAreInvestmentOverTen | src/services/building.service.js:93-102 | in exact arithmetic the running total is the whole spend over 10 |
| BuildingService.ScoreIsInvestmentDivTen | src/services/building.service.js:93-104 | the points are the integer quotient of the total spend by 10 |
| BuildingService.LevelZeroAddsNothing | src/services/building.service.js:98 | a level-0 building adds nothing, and no records score 0 |
| BuildingService.LumberCostLevelOne | src/services/building.service.js:109 | the level-1 lumber upgrade costs {63, 75, 50} |
| BuildingService.LumberCostLevelTwo | src/services/building.service.js:110 | the level-2 lumber upgrade costs {79, 95, 63} |
| BuildingService.LumberLevelThreeScore | src/services/building.service.js:106-111 | lumber at level 3 scores 57 |
| BuildingService.StartingRecords | src/config/constants.js:132-139 | the starting (type, level) records in key order |
| BuildingService.RecordsPointsAppend | src/services/building.service.js:96-101 | one more record adds exactly that building's points |
| BuildingService.LevelOnePoints | src/services/building.service.js:98-100 | a level-1 building is worth a tenth of its base cost |
| BuildingService.StartingScore | src/services/building.service.js:90-104 | the starting buildings score 75 |
| BuildingService.BuildingPoints | src/services/building.service.js:98-101 | the inner loop sums (wood + clay + iron)/10 over the levels below the record's level |
| BuildingService.CalculateVillagePoints | src/services/building.service.js:90-104 | the floor, taken once, of the points of all the village's records |
| BuildingController.Debit | src/controllers/building.controller.js:228-232 | each amount after paying plus its cost component is the amount before |
| BuildingController.DebitWithin | src/controllers/building.controller.js:228-234 | paying an affordable cost keeps the amounts within storage, so the clamp in updateResources changes nothing |
| BuildingController.ProductionUpdate | src/controllers/building.controller.js:251-266 | only lumber, clay and iron set a value, each on its own key only |
| BuildingController.UpgradeWritesRateOfLevelAfterNext | src/controllers/building.controller.js:243-266 | upgrading from L writes the rate of L + 2, above the rate of the new level L + 1; other keys keep their values |
| BuildingController.NonProducerKeepsRates | src/controllers/building.controller.js:251-269 | headquarters, barracks and wall upgrades leave production as it was |
| BuildingController.HighLevelsUnaffordable | src/controllers/building.controller.js:191-215 | within the starting storage no building at level 14 or above is affordable, and 14 is below every maxLevel |
| BuildingController.UpgradeBuilding | src/controllers/building.controller.js:95-336 | the refusals in order, with what each leaves changed (a later refusal leaves the village reconciled); on success: cost debited, level + 1, production at new level + 1, points rescored |
| BuildingController.FinishUpgrade | src/controllers/building.controller.js:163-215 | building checks, then the affordability check against the reconciled amounts, then the upgrade |
| BuildingController.PayAndRaise | src/controllers/building.controller.js:228-243 | the amounts are debited and stamped, and the record's level rises by 1 |
| BuildingController.RefreshProduction | src/controllers/building.controller.js:251-269 | production becomes the merge of the update for that type and level |
| BuildingController.Rescore | src/controllers/building.controller.js:275-276 | the points become the score of all the village's current records |
| BuildingController.ApplyUpgrade | src/controllers/building.controller.js:228-309 | the success path: pay, raise, refresh production at the raised level + 1, rescore, answer from the stores |
| BuildingController.GetBuildings | src/controllers/building.controller.js:21-88 | the three refusals in order; otherwise the JSON of the village's records, in order |
| VillageController.IsSpace | src/controllers/village.controller.js:156 | the characters trim removes; among ASCII characters exactly space, tab, line feed, vertical tab, form feed and carriage return |
| VillageController.Blank | src/controllers/village.controller.js:156 | every character is one that trim removes; TrimEmptyIffBlank relates it to trim |
| VillageController.TrimStart | src/controllers/village.controller.js:156 | the leading-space removal inside trim; its result is no longer than the input |
| VillageController.TrimEnd | src/controllers/village.controller.js:187 | the trailing-space removal inside trim; its result is no longer than the input |
| VillageController.Trim | src/controllers/village.controller.js:156 | `String.prototype.trim`; its result is no longer than the input |
| VillageController.TrimStartShape | src/controllers/village.controller.js:156 | leading trim keeps a suffix that starts with a non-space and drops only spaces |
| VillageController.TrimEndShape | src/controllers/village.controller.js:187 | trailing trim keeps a prefix that ends with a non-space and drops only spaces |
| VillageController.TrimSlice | src/controllers/village.controller.js:187 | trim is the slice after the leading spaces, and only spaces lie around it |
| VillageController.TrimBoundaries | src/controllers/village.controller.js:187 | the trimmed name neither starts nor ends with a space |
| VillageController.TrimEmptyIffBlank | src/controllers/village.controller.js:156 | the trim is empty exactly when every character is a space |
| VillageController.TrimIdempotent | src/controllers/village.controller.js:187 | trimming twice is trimming once |
| VillageController.TrimExample | src/controllers/village.controller.js:187 | " Tara\t" trims to "Tara" |
| VillageController.GetVillages | src/controllers/village.controller.js:14-63 | exactly the caller's villages are reconciled and written back and returned once each; the others are untouched |
| VillageController.GetVillageById | src/controllers/village.controller.js:69-136 | unknown and foreign ids are refused without reconciling; otherwise the reconciled village and its records' JSON |
| VillageController.UpdateVillageName | src/controllers/village.controller.js:142-208 | a missing or blank name is refused before any lookup, then unknown and foreign ids; otherwise only the name changes, to the trimmed name |
| UserModel.ToJson | src/models/User.js:201-210 | every field except the password hash |
| UserModel.ToJsonHidesHash | src/models/User.js:201-210 | users that differ only in their hash have the same JSON |
| UserModel.UserStore.constructor | src/models/User.js:17 | the store starts empty |
| UserModel.UserStore.FindById | src/models/User.js:107-111 | the stored user, or none exactly when the id is absent |
| UserModel.UserStore.Search | src/models/User.js:117-118 | some user matching the test, or none exactly when no user matches |
| UserModel.UserStore.FindByUsername | src/models/User.js:116-125 | a user with that username, or none exactly when nobody has it |
| UserModel.UserStore.FindByEmail | src/models/User.js:130-133 | a user with that email, or none exactly when nobody has it |
| UserModel.UserStore.Create | src/models/User.js:46-98 | a taken username, then a taken email, is refused without change; otherwise one new user holding `hash(password)`; usernames and emails stay unique; the count rises by one exactly on success |
| UserModel.UserStore.UpdateLastLogin | src/models/User.js:149-156 | only that user's lastLogin changes; an absent id changes nothing |
| UserModel.UserStore.Delete | src/models/User.js:189-192 | true exactly when the id was stored; the id is removed; the count falls by one exactly when it was stored |
| UserModel.UserStore.Count | src/models/User.js:215-217 | the number of stored users; 0 exactly for an empty store |
| UserModel.UserStore.FindAll | src/models/User.js:138-140 | every stored user exactly once, and nothing else |
| UserModel.UserStore.ClearAll | src/models/User.js:222-225 | the store becomes empty |
| Helpers.NatToString | src/utils/helpers.js:42 | `toString` of a natural: digits, no leading zero, length bounds |
| Helpers.NatToStringRoundTrip | src/utils/helpers.js:42 | reading the digits back gives the number |
| Helpers.Pad2 | src/utils/helpers.js:42 | `padStart(2, '0')`: at least two characters, zeros in front, the string at the end |
| Helpers.Pad2Value | src/utils/helpers.js:42 | padding keeps the digits and their value |
| Helpers.Hours | src/utils/helpers.js:38 | `floor(seconds / 3600)`: the largest h with h × 3600 not above the input |
| Helpers.Minutes | src/utils/helpers.js:39 | `floor((seconds % 3600) / 60)`: below 60, and the whole minutes of the remainder |
| Helpers.Secs | src/utils/helpers.js:40 | `seconds % 60`: below 60, and the input minus it is a multiple of 60 |
| Helpers.Decompose | src/utils/helpers.js:38-40 | hours × 3600 + minutes × 60 + seconds is the input, with minutes and seconds below 60 |
| Helpers.FormatTime | src/utils/helpers.js:37-43 | three zero-padded fields joined by ':'; the last two are exactly two characters |
| Helpers.ParseTime | src/utils/helpers.js:37-43 | reading "H:MM:SS" back; defined only on strings of that shape |
| Helpers.FormatTimeRoundTrip | src/utils/helpers.js:37-43 | parsing the formatted time gives back the seconds |
| Helpers.FormatTimeExample | src/utils/helpers.js:45-47 | 412 seconds formats as "00:06:52" |
| Helpers.Group | src/utils/helpers.js:54 | up to three digits are unchanged |
| Helpers.FormatNumber | src/utils/helpers.js:53-55 | numbers below 1000 are their plain decimal string |
| Helpers.RemoveCommas | src/utils/helpers.js:54 | the result holds no comma |
| Helpers.GroupRemoveCommas | src/utils/helpers.js:54 | removing the commas from grouped digits gives the digits back |
| Helpers.GroupShape | src/utils/helpers.js:54 | commas stand exactly before each trailing group of three digits; the leading group has one to three digits |
| Helpers.FormatNumberDigits | src/utils/helpers.js:53-55 | formatNumber without its commas is the decimal string, with commas exactly at group boundaries |
| Helpers.FormatNumberExample | src/utils/helpers.js:57-59 | 1500000 formats as "1,500,000" |
| Helpers.AlphabetSize | src/utils/helpers.js:85 | the alphabet has 62 characters |
| Helpers.CharIndex | src/utils/helpers.js:88 | a random value in [0, 1) selects a valid alphabet index |
| Helpers.GenerateId | src/utils/helpers.js:84-91 | exactly `length` characters, the i-th chosen by the i-th random value, all from the alphabet |
| Helpers.GenerateDefaultId | src/utils/helpers.js:84 | with no length given, exactly 8 characters, the i-th chosen by the i-th random value |

## Left out

- Timers and sockets: the `setInterval` around the tick and `socketIo.to(...).emit`. The tick body is modelled, and its broadcasts are returned as values. The broadcast's `timestamp: new Date()` field is not modelled, and `ResourceService.Broadcast` has no such field.
- `calculateBuildTime`: nothing calls it, and it reads `buildTimeMultiplier`, which no kind defines, so it yields NaN.
- `calculateDistance`, `formatDate` and `generateRandomCoordinates`: square roots, locale formatting and random floats.
- IEEE-754 doubles. Powers, products and the `/10` sums are exact reals. Where a double result could differ in its last bit before a floor, the model keeps the exact value.
- bcrypt, uuid and `new Date()`. They are a hash-function parameter, fresh-id parameters and a `now` parameter. `comparePassword` is not modelled, because it only calls bcrypt.
- One `now` per request. The source reads the clock separately in `calculateResourceUpdate` and in each `updateResources`; the model uses a single instant.
- Concurrency between the tick and requests, and across the `await` in `User.create`. All calls are sequential.
- HTTP response shapes, `console.log`, and the 500 path for thrown errors.
- Map insertion order of the Village and User maps:
  - VillageModel.VillageStore.FindByUserId: returns the user's villages in an arbitrary order, not in insertion order.
  - ResourceService.Tick: visits villages in an arbitrary order.
  - UserModel.UserStore.FindByUsername: finds some user with that username, not the first inserted one. The same holds for `FindByEmail`. Usernames and emails are unique in a valid store, so this makes no difference there.
  - VillageModel.VillageStore.FindByCoordinates: returns some village standing at (x, y), not the first one inserted. Coordinates are not unique, so with two villages on one square the source's answer can differ. Its only caller, the barbarian service (src/services/barbarian.service.js:43), tests the answer only for null, and the null case is modelled exactly.
  - VillageModel.VillageStore.FindAll and UserModel.UserStore.FindAll: return every stored record once, in an arbitrary order rather than insertion order.
- Building ids, `createdAt`, `updatedAt` (kept on the record but not in `BuildingModel.ToJson`), `upgradeFinishTime` and the upgrade timer. No code path sets `isUpgrading`, so only the flag is kept.
- Inner building maps are keyed by kind; in the source they are keyed by the type string. The keys are always the six BUILDINGS type strings, and `KindOf` converts between the two.
- The `villageBuildings.set` in `incrementLevel`: it writes the same object back under the same key, so it has no effect.
- The village `toJSON` (src/models/Village.js:187): the model returns the stored values themselves.
- VillageModel.VillageStore.Valid: it assumes that amounts are written only by `create` and `updateResources`, so every stored amount lies within its storage. The barbarian service (src/services/barbarian.service.js:55-59), which is not part of this model, assigns random amounts of 500 to 1999 directly on the stored object, against a storage of 1000. Until the next tick clamps them, such a village breaks `Valid`, and the results proved under `Valid` (`Tick`, `GetVillages`, `ReconcileTwice` and the upgrade path) say nothing about it.
- The helpers work on natural numbers only. Negative or fractional inputs to `formatTime` and `formatNumber` are not modelled. The numbers are assumed to be safe integers (below 2^53). From 10^21 on, JavaScript's `toString` switches to exponent notation (`formatNumber(1e21)` is "1e+21"); that form is not modelled, and `NatToString` and `FormatNumber` write every digit.
- VillageController.TrimStart: its own contract states only the length bound; what it keeps and drops is stated by `TrimStartShape`.
- VillageController.TrimEnd: its own contract states only the length bound; what it keeps and drops is stated by `TrimEndShape`.
- VillageController.Trim: its own contract states only the length bound; what it keeps and drops is stated by `TrimSlice` and `TrimBoundaries`.
- Constants.KindOf: a name inherited from `Object.prototype` (such as "constructor" or "toString") is treated as absent. In the source `BUILDINGS[name]` is truthy for such names. So `BUILDINGS[type]?.name || type` would give "Object" for "constructor" where `BuildingModel.NameFor` gives the type string, and `calculateUpgradeCost("toString", n)` would throw a TypeError instead of its own error. No modelled path reaches these names, because `findOne` looks the type up in a Map first.
- BuildingModel.NameFor: follows `Constants.KindOf`, so it gives the type string for a name inherited from `Object.prototype`, where the source gives that prototype value's name (the line above).
- BuildingService.CalculateUpgradeCost: follows `Constants.KindOf`, so it refuses a name inherited from `Object.prototype`, where the source throws a TypeError (the line above).

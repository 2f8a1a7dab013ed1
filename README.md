# yard-planning: a Dafny model of the placement core

This is a model of the placement core of yard-planning, a Go service that
decides where containers go in a container yard. A yard has blocks. Each
block has slots, rows and tiers, numbered from 1 to the block's bounds.
A placement plan reserves a slot-by-row rectangle of a block for one
container spec (size 20 or 40 ft, height 8.6 or 9.6 ft, type DRY, REEFER or
OPEN_TOP). The model covers three parts:

- **the placement engine** (`internal/service/container_service.go`):
  - spec and position validation;
  - the first-fit search for a free cell with support below it (tier, then
    slot, then row, each ascending);
  - `GetSuggestion`, which searches the yard's blocks in order;
  - `PlaceContainer` and `PickupContainer`;
- **the container table** (`internal/repository/container_repository.go`).
  This is the store the engine queries and changes. It is modelled as a
  class whose `rows` field is the table in table order;
- **the cache-aside decorator**
  (`internal/service/cached_container_service.go`). It answers suggestions
  from a key-value cache. On a hit it re-checks the cell. On a miss it asks
  the engine. After Place and Pickup it drops the yard's cached suggestions.

The files:

- `model.dfy`: records, requests and error values.
- `lookup.dfy`: the reference tables of yards, blocks and plans, and the four
  lookups the engine makes in them.
- `repository.dfy`: the container table (`ContainerRepository`).
- `placement.dfy`: the engine (`ContainerService`), and the functions that
  specify it: `Suggestion`, `PlaceResult` and `PickupResult`.
- `placement_properties.dfy`: what is proved about those functions.
- `scenarios.dfy`: small concrete yards.
- `caching.dfy`: the decorator (`CachedContainerService`) and cache coherence.

Heights are integers in tenths of a foot, so 8.6 ft is 86 and 9.6 ft is 96.
The source compares the float values 8.6 and 9.6 exactly, and any other
height is refused. One integer per height keeps that behaviour.

Each method is proved against a specification function of the old state:

- `ContainerService.GetSuggestion` returns `Suggestion(reference, rows, req)`;
- `PlaceContainer` returns the outcome of `PlaceResult` and appends its record;
- `PickupContainer` returns the outcome of `PickupResult` and removes every
  record of that number.

The lemmas then say what those functions mean. A suggestion exists exactly
when some block's first matching plan has a free, supported candidate. It is
the first such candidate in scan order, and it lies inside that plan. Place
and Pickup fail exactly in the listed cases. Both keep the yard invariant:

- container numbers are unique;
- no two records are anchored at the same cell;
- every record above tier 1 has a record anchored right below it;
- every record lies inside its block.

A suggested position can be placed when the reference data is well formed
(in particular, every plan lies inside its block) and the table holds no
40 ft records (Place itself never creates one). A coherent cache holds only
positions under suggestion keys and answers exactly what the engine answers.
With well-formed reference data it stays coherent through suggestions,
placements, and pickups of containers that lie in the named yard.

Behaviours of the source that the model keeps as written:

- **Occupancy compares anchors only.** `IsPositionOccupied`
  (`container_repository.go:107-142`) matches records whose own anchor slot
  is `slot`, or `slot+1` for size 40. A 40 ft record anchored at slot 1 also
  covers slot 2, but a query at slot 2 does not see it. So Place accepts a
  container on the second slot of a 40 ft record (`PlaceOverlapsLongRecord`).
  The search, on the other hand, counts both slots of a 40 ft record
  (`container_service.go:230-234`). It can therefore suggest a cell that
  stands on the second slot of a 40 ft record, and Place then refuses that
  cell with "tier below is empty" (`SuggestionOnLongRecord`,
  `SuggestionOnLongRecordRefused`). This is why `SuggestedPositionIsPlaceable`
  assumes that no record has size 40.
- **Place records a fixed spec.** Place always records size 20, height 8.6 and
  type DRY (`container_service.go:103-107`), and it checks occupancy with size
  20. Place therefore never refuses a slot because slot+1 leaves the plan.
  Only the search skips such slots for 40 ft requests.
- **Pickup ignores the container's yard.** It checks that the named yard
  exists, then removes the container with that number wherever it lies
  (`PickupIgnoresYard`). The decorator then drops only the named yard's
  suggestions. So cache coherence after Pickup is proved only when the
  number's records lie in the named yard.
- **Only the first matching plan of each block is searched**, and a record
  anchored outside the plan's rectangle is not seen by that search.
- **Blocks are searched in code order.** The block query sorts a yard's
  blocks by code, so `BlocksOfYard` sorts them too, whatever their order in
  the table (`SuggestionSearchesBlocksByCode`).
- **Dropping a yard's suggestions.** The decorator deletes the keys matching
  the glob pattern `suggestion:<yard>:*`, with the yard code pasted in as
  is. The model removes exactly the named yard's suggestion keys. This is
  what the pattern does when the yard code holds no glob metacharacter
  (`*`, `?`, `[`, `]`, `\`). A `:` in a yard code only makes the pattern
  match other yards' keys as well, which removes more entries and keeps the
  cache coherent. A metacharacter is different: for the yard code `A[1]`
  the class `[1]` matches only the character `1`, so the pattern misses the
  yard's own keys, and stale suggestions survive Place and Pickup.

## Model

| member | source | states |
|---|---|---|
| Lookup.YardByCode | internal/repository/yard_repository.go:19-45 | the yard found has the requested code; none is found exactly when no yard has that code |
| Lookup.BlocksOfYard | internal/repository/block_repository.go:51-86 | the list holds exactly the blocks of that yard, sorted by code |
| Lookup.SortByCode | internal/repository/block_repository.go:51-57 | the result is a reordering of the blocks, sorted by code |
| Lookup.InsertByCodeKeepsOrder | internal/repository/block_repository.go:51-57 | inserting a block into a list sorted by code keeps it sorted |
| Lookup.BlockByCode | internal/repository/block_repository.go:19-48 | the block found belongs to the yard and has the code; none is found exactly when no block of the yard has it |
| Lookup.MatchingPlan | internal/repository/yard_plan_repository.go:19-57 | the plan found belongs to the block and has exactly the requested size, height and type; none is found exactly when no plan of the block matches |
| Repository.ByNumber | internal/repository/container_repository.go:50-82 | the record found carries the number and is in the table; none is found exactly when no record carries it |
| Repository.InsertKeepsOrder | internal/repository/container_repository.go:145-187 | inserting a record into a list ordered by (slot, row, tier) keeps it ordered |
| Repository.SortedSelectSorted | internal/repository/container_repository.go:145-187 | the ordered selection is a reordering of exactly the rows satisfying the WHERE clause, ordered by (slot, row, tier) |
| Repository.SortedSelectStep | internal/repository/container_repository.go:145-187 | scanning one more row keeps the result a reordering of the matching rows, and keeps it ordered by (slot, row, tier) |
| Repository.ContainerRepository.Create | internal/repository/container_repository.go:19-47 | the new table is the old one with the record appended |
| Repository.ContainerRepository.GetByNumber | internal/repository/container_repository.go:50-82 | the result is the first record with that number, or ContainerNotFound when there is none; a record found is in the table and carries the number |
| Repository.ContainerRepository.Delete | internal/repository/container_repository.go:85-103 | every record with the number is removed and the others are kept in order; the result is ContainerNotFound exactly when no record had the number |
| Repository.ContainerRepository.IsPositionOccupied | internal/repository/container_repository.go:107-142 | the answer is true exactly when a record of the block in that row and tier is anchored at the slot, or, for size 40, at slot+1 |
| Repository.ContainerRepository.SelectOrdered | internal/repository/container_repository.go:145-187 | the result is the ordered selection: the rows satisfying the WHERE clause, reordered, and ordered by (slot, row, tier) |
| Repository.ContainerRepository.GetOccupiedPositionsInArea | internal/repository/container_repository.go:145-187 | the result holds exactly the block's records anchored inside the rectangle, ordered by (slot, row, tier) |
| Repository.ContainerRepository.IsContainerBlocked | internal/repository/container_repository.go:190-207 | the answer is true exactly when a record of the block in the same slot and row has a strictly greater tier |
| Repository.ContainerRepository.GetByBlock | internal/repository/container_repository.go:250-288 | the result holds exactly the block's records, ordered by (slot, row, tier) |
| Placement.ValidateContainerSpec | internal/service/container_service.go:184-196 | success exactly for size 20 or 40, height 8.6 or 9.6 and type DRY, REEFER or OPEN_TOP; otherwise the error of the first failing check, in the order size, height, type |
| Placement.ValidatePosition | internal/service/container_service.go:198-209 | success exactly when slot, row and tier are each between 1 and the block's bound; otherwise the error of the first failing check, carrying the bound |
| Placement.OccupiedCellsMembers | internal/service/container_service.go:224-235 | a cell is in the occupied-cell set exactly when some listed record covers it: its anchor, and for size 40 also slot+1 |
| Placement.SameRecordsSameCells | internal/service/container_service.go:224-235 | the occupied-cell set depends only on which records are listed, not on their order |
| Placement.OccupancyMap | internal/service/container_service.go:224-235 | the set the loop builds is the occupied-cell set of the records |
| Placement.CandidateFits | internal/service/container_service.go:241-278 | a candidate is accepted exactly when a size-40 candidate has slot+1 inside the plan, every cell it covers is free, and above tier 1 every one of those cells is occupied one tier down |
| Placement.FirstFitUnique | internal/service/container_service.go:237-291 | at most one candidate is the first, in scan order, to be accepted |
| Placement.LeastFitExists | internal/service/container_service.go:237-291 | when some candidate is accepted, a first accepted candidate in scan order exists |
| Placement.FirstFit | internal/service/container_service.go:237-291 | the search's answer: the first accepted candidate in scan order, or none exactly when no candidate is accepted |
| Placement.FirstFitIs | internal/service/container_service.go:237-291 | any first accepted candidate is the search's answer |
| Placement.ContainerService.FindAvailablePosition | internal/service/container_service.go:211-292 | the position returned is the first candidate, scanning tier, then slot, then row, that is free and supported; none is returned exactly when no candidate is |
| Placement.ContainerService.GetSuggestion | internal/service/container_service.go:32-71 | an invalid spec gives its validation error; otherwise the result is the engine's suggestion for the current table |
| Placement.ContainerService.PlaceContainer | internal/service/container_service.go:74-143 | the outcome is that of the checks in source order; on success the new record is appended; on failure the table is unchanged |
| Placement.ContainerService.PickupContainer | internal/service/container_service.go:146-180 | the outcome is that of the checks in source order; on success every record of the number is removed; on failure the table is unchanged |
| PlacementProperties.SearchBlocksFirst | internal/service/container_service.go:50-68 | a result of the block search comes from some block, and every earlier block gave none |
| PlacementProperties.SearchBlocksNone | internal/service/container_service.go:50-70 | the block search finds nothing exactly when every block gives none |
| PlacementProperties.SuggestionSucceedsIff | internal/service/container_service.go:32-71 | for a valid spec in a known yard, a suggestion exists exactly when some block of the yard has a matching plan with a free, supported candidate; otherwise the error is NoAvailablePosition |
| PlacementProperties.SuggestionFirstBlock | internal/service/container_service.go:50-68 | a suggestion has a valid spec and a known yard, and it is the answer of the first block, in block order, that has one |
| PlacementProperties.BlockSuggestionSound | internal/service/container_service.go:211-292 | a block's answer carries the block code and lies inside the matching plan and the block's tiers; for size 40, slot+1 stays inside the plan; no record in the rectangle covers its cells; above tier 1 its cells stand on records; no earlier candidate fits |
| PlacementProperties.SuggestionInBlockBounds | internal/service/container_service.go:237-240 | with well-formed reference data, a suggestion lies inside the bounds of a block of the requested yard |
| PlacementProperties.PlaceSucceedsIff | internal/service/container_service.go:74-143 | Place succeeds exactly when the number is given, the yard and block resolve, the position is in bounds, the number is not placed, the cell is not occupied, and above tier 1 the cell below is occupied |
| PlacementProperties.PlaceRecord | internal/service/container_service.go:103-140 | the record Place inserts carries the request's number and position, the ids of the named yard and block, and the fixed spec 20 ft, 8.6 ft, DRY |
| PlacementProperties.PlaceTierBelowIff | internal/service/container_service.go:118-127 | once the earlier checks pass, Place fails with TierBelowEmpty exactly when the tier is above 1 and nothing is anchored at the cell below |
| PlacementProperties.PickupSucceedsIff | internal/service/container_service.go:146-180 | Pickup succeeds exactly when the number is given, the yard is known, a record has the number, and nothing is stacked on it; the record removed is the one found by number |
| PlacementProperties.PickupBlockedIff | internal/service/container_service.go:164-176 | once the record is found, Pickup fails with ContainerBlocked exactly when a record of its block in the same slot and row has a higher tier |
| PlacementProperties.SameNumberSameRecord | internal/service/container_service.go:97-101 | under unique numbers, two records with one number are the same record |
| PlacementProperties.PlacedIsNew | internal/service/container_service.go:97-116 | the record Place inserts differs from every record in the table in number and in anchor cell |
| PlacementProperties.PlaceKeepsSupported | internal/service/container_service.go:118-127 | after Place, every record above tier 1 still has a record anchored right below it |
| PlacementProperties.PlaceKeepsInsideBlocks | internal/service/container_service.go:86-95 | after Place, every record still lies inside the bounds of its block |
| PlacementProperties.PlaceKeepsInvariant | internal/service/container_service.go:74-143 | Place keeps the yard invariant: unique numbers, distinct anchors, support below, inside blocks |
| PlacementProperties.RemoveUnblockedKeepsInvariant | internal/service/container_service.go:164-179 | removing a record with nothing stacked on it keeps the yard invariant |
| PlacementProperties.PickupKeepsInvariant | internal/service/container_service.go:146-180 | Pickup keeps the yard invariant |
| PlacementProperties.SuggestedCellFree | internal/service/container_service.go:251-263 | nothing is anchored at a suggested cell, nor for a 40 ft request at its second slot, so Place's occupancy check passes |
| PlacementProperties.SuggestedCellSupported | internal/service/container_service.go:265-278 | when the table holds no 40 ft records, the cell below a suggestion above tier 1 has a record anchored at it |
| PlacementProperties.PlaceSucceedsWhen | internal/service/container_service.go:74-143 | Place succeeds whenever its checks pass, stated as one sufficient condition |
| PlacementProperties.SuggestedPositionIsPlaceable | internal/service/container_service.go:32-143 | with well-formed reference data and no 40 ft records, placing a new number at the suggested position succeeds |
| Scenarios.SpecTestCases | internal/service/container_service_test.go:19-54 | the five cases of the validation test: 20/8.6/DRY and 40/9.6/REEFER pass; size 30, height 10.0 and type INVALID fail with the size, height and type errors |
| Scenarios.EmptyYardSuggestsFirstCell | internal/service/container_service.go:237-291 | in an empty block of 10 slots, 2 rows and 3 tiers, the first suggestion is slot 1, row 1, tier 1 |
| Scenarios.SecondSuggestionAdvancesRow | internal/service/container_service.go:238-240 | placing at that suggestion succeeds, and the next suggestion is slot 1, row 2, tier 1: the row advances before the slot |
| Scenarios.PlaceOnEmptyCellBelowFails | internal/service/container_service.go:118-127 | Place at tier 2 with nothing at tier 1 fails with TierBelowEmpty |
| Scenarios.PickupUnderStackFails | internal/service/container_service.go:164-176 | Pickup of a container with another one on top fails with ContainerBlocked |
| Scenarios.UnsortedYardLookups | internal/repository/block_repository.go:51-86 | for a table listing block B before block A, the yard's blocks come back as A, B |
| Scenarios.SuggestionSearchesBlocksByCode | internal/service/container_service.go:44-68 | with both blocks free, the first suggestion is in block A, the first block by code |
| Scenarios.PlaceOverlapsLongRecord | internal/repository/container_repository.go:107-142 | Place accepts a container on the second slot of a 40 ft record |
| Scenarios.StackedCells | internal/service/container_service.go:224-235 | the search counts both slots of a 40 ft record as occupied |
| Scenarios.LongRecordFirstFit | internal/service/container_service.go:237-291 | on those records, slot 2, row 1, tier 2 is the first candidate that fits |
| Scenarios.SuggestionOnLongRecord | internal/service/container_service.go:237-291 | the search suggests the cell above the second slot of a 40 ft record |
| Scenarios.SuggestionOnLongRecordRefused | internal/service/container_service.go:118-127 | Place refuses that suggestion with TierBelowEmpty |
| Scenarios.PickupIgnoresYard | internal/service/container_service.go:152-179 | a Pickup naming yard YRD2 removes a container that lies in yard YRD1 |
| Caching.KeyOf | internal/service/cached_container_service.go:43-44 | a suggestion key determines the request it was built from: yard, size, height and type |
| Caching.ClearYard | pkg/cache/redis.go:78-86 | exactly the suggestion keys of the yard are removed; every other entry is kept unchanged |
| Caching.SuggestionFrame | internal/service/container_service.go:38-68 | a yard's suggestion depends only on the records in that yard's blocks |
| Caching.PlaceFrame | internal/service/container_service.go:129-142 | with well-formed reference data, Place adds a record only to the blocks of the named yard |
| Caching.PickupFrame | internal/service/container_service.go:152-179 | when every record of the number lies in the named yard, Pickup changes no other yard's records |
| Caching.FreshSuggestionStillFree | internal/service/cached_container_service.go:47-63 | a suggestion the engine computes now passes the decorator's re-check of a cache hit |
| Caching.PlacedPositionNotFree | internal/service/cached_container_service.go:47-63 | once a container is placed at a position, that position fails the re-check of a cache hit in that yard |
| Caching.CachedIsSuggestion | internal/service/cached_container_service.go:47-62 | a coherent cache holds, under a request's key, a position, and it is the engine's current suggestion |
| Caching.SetSuggestionCoherent | internal/service/cached_container_service.go:65-78 | dropping a suggestion key, or setting it to the engine's current answer, keeps the cache coherent |
| Caching.SuggestStepCoherent | internal/service/cached_container_service.go:36-79 | from a coherent cache, the decorator's suggestion equals the engine's, and the cache it leaves is coherent |
| Caching.ClearYardCoherent | internal/service/cached_container_service.go:88-90 | after a change confined to one yard, clearing that yard's suggestions leaves every remaining suggestion equal to the engine's |
| Caching.PlaceKeepsCoherent | internal/service/cached_container_service.go:82-104 | Place, then clearing the yard's suggestions and caching the new location, keeps the cache coherent |
| Caching.PickupKeepsLocations | internal/service/cached_container_service.go:113-119 | removing a number's records and its location entry keeps every other cached location true |
| Caching.PickupKeepsCoherent | internal/service/cached_container_service.go:107-122 | when the number's records lie in the named yard, Pickup, then clearing the yard's suggestions and the location entry, keeps the cache coherent |
| Caching.CachedContainerService.StillAvailable | internal/service/cached_container_service.go:47-63 | a cached position is kept exactly when the yard and the cached block resolve and the cell is not occupied for the requested size |
| Caching.CachedContainerService.CachedHit | internal/service/cached_container_service.go:46-64 | a hit is reported exactly when the request's key is cached and its position passes the re-check, and then that position is returned |
| Caching.CachedContainerService.Refresh | internal/service/cached_container_service.go:65-78 | the result is the engine's suggestion; a success is cached for five minutes under the request's key, and otherwise the key is dropped |
| Caching.CachedContainerService.GetSuggestion | internal/service/cached_container_service.go:36-79 | an invalid spec gives its error and leaves the cache alone; a hit that passes the re-check is returned unchanged; otherwise the result is the engine's suggestion, and it is cached on success or its key is dropped |
| Caching.CachedContainerService.PlaceContainer | internal/service/cached_container_service.go:82-104 | the outcome and table are the engine's; on success the yard's suggestions are dropped and the location is cached for 24 hours; a coherent cache stays coherent |
| Caching.CachedContainerService.PickupContainer | internal/service/cached_container_service.go:107-122 | the outcome and table are the engine's; on success the yard's suggestions and the location entry are dropped; a coherent cache stays coherent when the number's records lie in the named yard |

## Left out

- Store and transport errors are not modelled. The SQL store, the key-value
  store and JSON decoding never fail. This removes the paths where a query
  error aborts an operation, and the path where `findAvailablePosition`
  returns nothing after an area-query error. Cache writes and deletes always
  take effect, while the source ignores their errors.
- `GetSuggestion` moves on to the next block whenever `FindMatchingPlan`
  fails. The model has only one such failure, "no matching plan"; store
  errors are left out, as above.
- Timestamps, store-assigned ids, expiry and the clock are not modelled. A
  cache entry's time to live is a tag that is never counted down, so entries
  do not expire.
- Cache keys are a datatype, not formatted text. Cached values are a
  datatype, not JSON; reading an entry back as a position keeps its block,
  slot, row and tier.
- Caching.ClearYard: removes exactly the named yard's suggestion keys, which
  is what the glob pattern does only for yard codes without glob
  metacharacters. For a yard code with `[` or `\`, the source can miss the
  yard's own keys, and its cache can then keep stale suggestions that the
  coherence results do not cover. Yard codes are assumed free of
  metacharacters, because glob matching is not modelled.
- Container heights are tenths of a foot, not floats.
- Lookup.BlocksOfYard: sorts codes character by character, by code point.
  The database sorts by its collation, which this model does not know. Two
  blocks of one yard with equal codes keep their table order.
- When several records carry one number, `GetByNumber` returns the first in
  table order. The source's query leaves the order unspecified.
- The suggestion request's container number is not modelled: the engine never
  reads it.
- `GetAll`, the yard-plan `Create` and `GetByBlockID`, and the plan's
  stacking priority are not modelled. The engine and decorator do not use
  them.
- Concurrent requests are not modelled. Each operation runs as one atomic
  step; the race between Place's occupancy check and its insert is not
  modelled.
- The bulk handler, the worker pool, the HTTP handlers and the process
  wiring are not part of this model. The wiring in `cmd/api/main.go:75-77`
  hands the handlers the engine embedded in the decorator, not the
  decorator itself. So the served routes never reach the cache, and the
  coherence results describe `CachedContainerService`, not the deployed
  API.
- Caching.CachedContainerService.GetSuggestion: its ensures does not state
  coherence; `Caching.SuggestStepCoherent` proves it from that ensures.
- Caching.CachedContainerService.PickupContainer: coherence is proved only
  when every record of the number lies in the named yard, because Pickup
  does not check the container's yard.
- PlacementProperties.SuggestedPositionIsPlaceable: proved only for tables
  without 40 ft records, because Place checks anchors only (see above). It
  also needs well-formed reference data. In particular, each plan must lie
  inside its block: for a plan that reaches past its block, the search can
  suggest a cell that Place refuses with InvalidSlot or InvalidRow.

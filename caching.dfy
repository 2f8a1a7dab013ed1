/**
 * The cache-aside decorator (internal/service/cached_container_service.go).
 *
 * The key-value store is a map from keys to entries.  Keys are a datatype:
 * a suggestion key per (yard, size, height, type) and a container key per
 * number; deleting the pattern of a yard's suggestion keys removes exactly the
 * suggestion keys of that yard.  Every cache operation succeeds and its result
 * is ignored, as the source ignores it; an entry's time to live is a tag.
 */
module Caching {
  import opened Model
  import opened Lookup
  import opened Repository
  import opened Placement
  import opened PlacementProperties

  datatype CacheKey =
    | SuggestionKey(yard: string, size: int, height: int, containerType: string)
    | ContainerKey(number: string)

  /** What an entry holds: a suggested position, or where a placed container went. */
  datatype CacheValue =
    | CachedPosition(position: Position)
    | CachedLocation(yard: string, block: string, slot: int, row: int, tier: int)

  /** The expiry a write names; no clock is modelled, so entries do not expire. */
  datatype Ttl = FiveMinutes | OneDay

  datatype Entry = Entry(value: CacheValue, ttl: Ttl)

  /** The suggestion key of a request; it determines the request. */
  function KeyOf(req: SuggestionRequest): (k: CacheKey)
    ensures k.SuggestionKey?
    ensures SuggestionRequest(k.yard, k.size, k.height, k.containerType) == req
  {
    SuggestionKey(req.yard, req.size, req.height, req.containerType)
  }

  /** An entry read back as a position: decoding keeps block, slot, row and tier and
      ignores any other field. */
  function AsPosition(v: CacheValue): Position {
    match v
    case CachedPosition(p) => p
    case CachedLocation(_, block, slot, row, tier) => Position(block, slot, row, tier)
  }

  /** The cache after deleting the pattern of `yard`'s suggestion keys. */
  function ClearYard(cache: map<CacheKey, Entry>, yard: string): (r: map<CacheKey, Entry>)
    ensures forall k :: k in r <==> k in cache && !(k.SuggestionKey? && k.yard == yard)
    ensures forall k :: k in r ==> r[k] == cache[k]
  {
    map k | k in cache && !(k.SuggestionKey? && k.yard == yard) :: cache[k]
  }

  /** The re-check of a cache hit: the yard and the cached block resolve, and no record
      is anchored where IsPositionOccupied looks for the requested size. */
  predicate StillFree(ref: Reference, rows: seq<Container>, req: SuggestionRequest, p: Position) {
    match YardByCode(ref, req.yard)
    case None => false
    case Some(yard) =>
      match BlockByCode(ref, yard.id, p.block)
      case None => false
      case Some(block) => !Occupied(rows, block.id, p.slot, p.row, p.tier, req.size)
  }

  /** The record lies in a block of the yard with that code. */
  ghost predicate InYard(ref: Reference, yardCode: string, c: Container) {
    YardByCode(ref, yardCode).Some?
    && exists b :: b in ref.blocks && b.id == c.blockId && b.yardId == YardByCode(ref, yardCode).value.id
  }

  /** The two tables hold the same records in the blocks of the yard. */
  ghost predicate SameInYard(ref: Reference, yardCode: string, rows: seq<Container>, rows': seq<Container>) {
    forall c :: InYard(ref, yardCode, c) ==> (c in rows <==> c in rows')
  }

  /** A container entry names where a record of that number lies. */
  ghost predicate Located(ref: Reference, rows: seq<Container>, number: string, v: CacheValue) {
    v.CachedLocation?
    && exists c, b, y :: (c in rows && b in ref.blocks && y in ref.yards
      && c.number == number && c.slot == v.slot && c.row == v.row && c.tier == v.tier
      && b.id == c.blockId && b.code == v.block && y.id == c.yardId && y.code == v.yard)
  }

  /** Every suggestion key holds a position, and it is the suggestion the engine computes now. */
  ghost predicate SuggestionsCoherent(ref: Reference, rows: seq<Container>, cache: map<CacheKey, Entry>) {
    forall k :: k in cache && k.SuggestionKey? ==>
      cache[k].value.CachedPosition? &&
      Suggestion(ref, rows, SuggestionRequest(k.yard, k.size, k.height, k.containerType)) == Ok(AsPosition(cache[k].value))
  }

  /** Every cached container location is where a record of that number lies. */
  ghost predicate LocationsCoherent(ref: Reference, rows: seq<Container>, cache: map<CacheKey, Entry>) {
    forall k :: k in cache && k.ContainerKey? ==> Located(ref, rows, k.number, cache[k].value)
  }

  ghost predicate Coherent(ref: Reference, rows: seq<Container>, cache: map<CacheKey, Entry>) {
    SuggestionsCoherent(ref, rows, cache) && LocationsCoherent(ref, rows, cache)
  }

  // ---------------------------------------------------------------------------
  // Why coherence holds

  lemma {:induction false} SearchBlocksFrame(ref: Reference, rows: seq<Container>, rows': seq<Container>,
                                             blocks: seq<Block>, req: SuggestionRequest)
    requires forall b :: b in blocks ==> BlockSuggestion(ref, rows, b, req) == BlockSuggestion(ref, rows', b, req)
    ensures SearchBlocks(ref, rows, blocks, req) == SearchBlocks(ref, rows', blocks, req)
    decreases |blocks|
  {
    if |blocks| > 0 {
      assert blocks[0] in blocks;
      SearchBlocksFrame(ref, rows, rows', blocks[1..], req);
    }
  }

  /** A yard's suggestion depends only on the records in that yard's blocks. */
  lemma SuggestionFrame(ref: Reference, rows: seq<Container>, rows': seq<Container>, req: SuggestionRequest)
    requires SameInYard(ref, req.yard, rows, rows')
    ensures Suggestion(ref, rows, req) == Suggestion(ref, rows', req)
  {
    if YardByCode(ref, req.yard).Some? {
      var yard := YardByCode(ref, req.yard).value;
      var blocks := BlocksOfYard(ref, yard.id);
      forall b | b in blocks ensures BlockSuggestion(ref, rows, b, req) == BlockSuggestion(ref, rows', b, req) {
        var plan := MatchingPlan(ref, b.id, req.size, req.height, req.containerType);
        if plan.Some? {
          var w := InRect(b.id, plan.value.slotStart, plan.value.slotEnd, plan.value.rowStart, plan.value.rowEnd);
          forall c ensures c in Select(rows, w) <==> c in Select(rows', w) {
            if c.blockId == b.id {
              assert InYard(ref, req.yard, c);
            }
          }
          SameRecordsSameCells(AreaOf(rows, b, plan.value), AreaOf(rows', b, plan.value));
        }
      }
      SearchBlocksFrame(ref, rows, rows', blocks, req);
    }
  }

  /** With well-formed reference data a record lies in the blocks of at most one yard code. */
  lemma InOneYard(ref: Reference, c: Container, y1: string, y2: string)
    requires WellFormed(ref)
    requires InYard(ref, y1, c) && InYard(ref, y2, c)
    ensures y1 == y2
  {
    var yard1 := YardByCode(ref, y1).value;
    var yard2 := YardByCode(ref, y2).value;
    var b1 :| b1 in ref.blocks && b1.id == c.blockId && b1.yardId == yard1.id;
    var b2 :| b2 in ref.blocks && b2.id == c.blockId && b2.yardId == yard2.id;
    assert b1 == b2;
    assert yard1 == yard2;
  }

  /** A coherent fresh suggestion passes the re-check of a cache hit. */
  lemma FreshSuggestionStillFree(ref: Reference, rows: seq<Container>, req: SuggestionRequest, p: Position)
    requires WellFormed(ref)
    requires Suggestion(ref, rows, req) == Ok(p)
    ensures StillFree(ref, rows, req, p)
  {
    var yard, i := SuggestionFirstBlock(ref, rows, req, p);
    var block := BlocksOfYard(ref, yard.id)[i];
    assert block in BlocksOfYard(ref, yard.id);
    var plan := BlockSuggestionSound(ref, rows, block, req, p);
    assert BlockByCode(ref, yard.id, p.block) == Some(block);
    SuggestedCellFree(ref, rows, block, req, p);
  }

  /** Once a container is placed at a position, that position fails the re-check of a
      hit in the same yard, whatever the requested size: a cached suggestion that an
      intervening Place took is never returned. */
  lemma PlacedPositionNotFree(ref: Reference, rows: seq<Container>, preq: PlacementRequest, c: Container,
                              req: SuggestionRequest)
    requires PlaceResult(ref, rows, preq) == Ok(c)
    requires req.yard == preq.yard
    ensures !StillFree(ref, rows + [c], req, Position(preq.block, preq.slot, preq.row, preq.tier))
  {
    var rows' := rows + [c];
    assert c in rows';
  }

  /** Dropping a suggestion key, or setting it to the engine's current answer, keeps a coherent cache coherent. */
  lemma SetSuggestionCoherent(ref: Reference, rows: seq<Container>, cache: map<CacheKey, Entry>, req: SuggestionRequest)
    requires Coherent(ref, rows, cache)
    ensures Coherent(ref, rows, cache - {KeyOf(req)})
    ensures Suggestion(ref, rows, req).Ok? ==>
      Coherent(ref, rows, cache[KeyOf(req) := Entry(CachedPosition(Suggestion(ref, rows, req).value), FiveMinutes)])
  {
    var k0 := KeyOf(req);
    var dropped := cache - {k0};
    forall k | k in dropped && k.SuggestionKey?
      ensures dropped[k].value.CachedPosition?
      ensures Suggestion(ref, rows, SuggestionRequest(k.yard, k.size, k.height, k.containerType)) == Ok(AsPosition(dropped[k].value))
    {
      assert dropped[k] == cache[k];
    }
    forall k | k in dropped && k.ContainerKey? ensures Located(ref, rows, k.number, dropped[k].value) {
      assert dropped[k] == cache[k];
    }
    if Suggestion(ref, rows, req).Ok? {
      var written := cache[k0 := Entry(CachedPosition(Suggestion(ref, rows, req).value), FiveMinutes)];
      forall k | k in written && k.SuggestionKey?
        ensures written[k].value.CachedPosition?
        ensures Suggestion(ref, rows, SuggestionRequest(k.yard, k.size, k.height, k.containerType)) == Ok(AsPosition(written[k].value))
      {
        if k != k0 {
          assert written[k] == cache[k];
        }
      }
      forall k | k in written && k.ContainerKey? ensures Located(ref, rows, k.number, written[k].value) {
        assert written[k] == cache[k];
      }
    }
  }

  /** A coherent cache holds the engine's suggestion under a request's key. */
  lemma CachedIsSuggestion(ref: Reference, rows: seq<Container>, cache: map<CacheKey, Entry>, req: SuggestionRequest)
    requires Coherent(ref, rows, cache)
    requires KeyOf(req) in cache
    ensures cache[KeyOf(req)].value.CachedPosition?
    ensures Suggestion(ref, rows, req) == Ok(AsPosition(cache[KeyOf(req)].value))
  {
    var k := KeyOf(req);
    assert SuggestionRequest(k.yard, k.size, k.height, k.containerType) == req;
  }

  /** What the decorator's GetSuggestion does, from the cache `cache` to `cache'`: an
      invalid specification fails first; a cached position that still passes the re-check
      is returned as it is; otherwise the engine's suggestion is returned, cached on success,
      and the stale key is dropped on failure. */
  ghost predicate SuggestStep(ref: Reference, rows: seq<Container>, cache: map<CacheKey, Entry>,
                              req: SuggestionRequest, r: Result<Position>, cache': map<CacheKey, Entry>) {
    var valid := ValidateContainerSpec(req.size, req.height, req.containerType);
    if valid.Failure? then r == Err(valid.error) && cache' == cache
    else if KeyOf(req) in cache && StillFree(ref, rows, req, AsPosition(cache[KeyOf(req)].value)) then
      r == Ok(AsPosition(cache[KeyOf(req)].value)) && cache' == cache
    else
      r == Suggestion(ref, rows, req)
      && cache' == if r.Ok? then cache[KeyOf(req) := Entry(CachedPosition(r.value), FiveMinutes)]
                   else cache - {KeyOf(req)}
  }

  /** From a coherent cache the decorator answers what the engine answers, and the cache
      stays coherent. */
  lemma SuggestStepCoherent(ref: Reference, rows: seq<Container>, cache: map<CacheKey, Entry>,
                            req: SuggestionRequest, r: Result<Position>, cache': map<CacheKey, Entry>)
    requires Coherent(ref, rows, cache)
    requires SuggestStep(ref, rows, cache, req, r, cache')
    ensures r == Suggestion(ref, rows, req) && Coherent(ref, rows, cache')
  {
    var valid := ValidateContainerSpec(req.size, req.height, req.containerType);
    if valid.Failure? {
    } else if KeyOf(req) in cache && StillFree(ref, rows, req, AsPosition(cache[KeyOf(req)].value)) {
      CachedIsSuggestion(ref, rows, cache, req);
    } else {
      SetSuggestionCoherent(ref, rows, cache, req);
    }
  }

  /** Place adds a record only to the blocks of the named yard. */
  lemma PlaceFrame(ref: Reference, rows: seq<Container>, req: PlacementRequest, c: Container, other: string)
    requires WellFormed(ref)
    requires PlaceResult(ref, rows, req) == Ok(c)
    requires other != req.yard
    ensures SameInYard(ref, other, rows, rows + [c])
  {
    var yard := YardByCode(ref, req.yard).value;
    var block := BlockByCode(ref, yard.id, req.block).value;
    assert InYard(ref, req.yard, c) by {
      assert block in ref.blocks && block.id == c.blockId && block.yardId == yard.id;
    }
    forall x | InYard(ref, other, x) ensures x in rows <==> x in rows + [c] {
      if x == c {
        InOneYard(ref, c, other, req.yard);
      }
    }
  }

  /** Pickup removes records only from the blocks of the named yard, when every record of
      the number lies there. */
  lemma PickupFrame(ref: Reference, rows: seq<Container>, req: PickupRequest, other: string)
    requires WellFormed(ref)
    requires forall x :: x in rows && x.number == req.number ==> InYard(ref, req.yard, x)
    requires other != req.yard
    ensures SameInYard(ref, other, rows, Select(rows, NumberIsNot(req.number)))
  {
    forall x | InYard(ref, other, x) ensures x in rows <==> x in Select(rows, NumberIsNot(req.number)) {
      if x in rows && x.number == req.number {
        InOneYard(ref, x, other, req.yard);
      }
    }
  }

  /** Suggestions cached for the yards whose records did not change stay coherent once
      the changed yard's suggestions are cleared. */
  lemma ClearYardCoherent(ref: Reference, rows: seq<Container>, rows': seq<Container>,
                          cache: map<CacheKey, Entry>, yard: string)
    requires SuggestionsCoherent(ref, rows, cache)
    requires forall other :: other != yard ==> SameInYard(ref, other, rows, rows')
    ensures SuggestionsCoherent(ref, rows', ClearYard(cache, yard))
  {
    var cache' := ClearYard(cache, yard);
    forall k | k in cache' && k.SuggestionKey?
      ensures Suggestion(ref, rows', SuggestionRequest(k.yard, k.size, k.height, k.containerType))
        == Ok(AsPosition(cache'[k].value))
    {
      SuggestionFrame(ref, rows, rows', SuggestionRequest(k.yard, k.size, k.height, k.containerType));
    }
  }

  /** Place keeps the cache coherent: it clears the yard's suggestions, no other yard's
      suggestion changes, and the new container entry names the new record. */
  lemma PlaceKeepsCoherent(ref: Reference, rows: seq<Container>, cache: map<CacheKey, Entry>,
                           req: PlacementRequest, c: Container)
    requires WellFormed(ref)
    requires Coherent(ref, rows, cache)
    requires PlaceResult(ref, rows, req) == Ok(c)
    ensures Coherent(ref, rows + [c], ClearYard(cache, req.yard)[ContainerKey(req.number) :=
      Entry(CachedLocation(req.yard, req.block, req.slot, req.row, req.tier), OneDay)])
  {
    var rows' := rows + [c];
    var cleared := ClearYard(cache, req.yard);
    var cache' := cleared[ContainerKey(req.number) :=
      Entry(CachedLocation(req.yard, req.block, req.slot, req.row, req.tier), OneDay)];
    forall other | other != req.yard ensures SameInYard(ref, other, rows, rows') {
      PlaceFrame(ref, rows, req, c, other);
    }
    ClearYardCoherent(ref, rows, rows', cache, req.yard);
    assert SuggestionsCoherent(ref, rows', cache');
    var yard := YardByCode(ref, req.yard).value;
    var block := BlockByCode(ref, yard.id, req.block).value;
    forall k | k in cache' && k.ContainerKey? ensures Located(ref, rows', k.number, cache'[k].value) {
      if k == ContainerKey(req.number) {
        assert c in rows' && block in ref.blocks && yard in ref.yards;
      } else {
        LocatedGrows(ref, rows, rows', k.number, cache[k].value);
      }
    }
  }

  lemma LocatedGrows(ref: Reference, rows: seq<Container>, rows': seq<Container>, number: string, v: CacheValue)
    requires Located(ref, rows, number, v)
    requires forall x :: x in rows && x.number == number ==> x in rows'
    ensures Located(ref, rows', number, v)
  {
    var x, b, y :| x in rows && b in ref.blocks && y in ref.yards
      && x.number == number && x.slot == v.slot && x.row == v.row && x.tier == v.tier
      && b.id == x.blockId && b.code == v.block && y.id == x.yardId && y.code == v.yard;
    assert x in rows';
  }

  /** Dropping a number's records and its container key keeps every other container
      entry located. */
  lemma PickupKeepsLocations(ref: Reference, rows: seq<Container>, cache: map<CacheKey, Entry>,
                             number: string, yard: string)
    requires LocationsCoherent(ref, rows, cache)
    ensures LocationsCoherent(ref, Select(rows, NumberIsNot(number)), ClearYard(cache, yard) - {ContainerKey(number)})
  {
    var rows' := Select(rows, NumberIsNot(number));
    var cache' := ClearYard(cache, yard) - {ContainerKey(number)};
    forall k | k in cache' && k.ContainerKey? ensures Located(ref, rows', k.number, cache'[k].value) {
      assert k.number != number;
      assert k in cache && cache'[k] == cache[k];
      forall x | x in rows && x.number == k.number ensures x in rows' {
        assert Matches(x, NumberIsNot(number));
      }
      LocatedGrows(ref, rows, rows', k.number, cache[k].value);
    }
  }

  /** Pickup keeps the cache coherent when every record of the number lies in the named
      yard; Pickup itself does not check that. */
  lemma PickupKeepsCoherent(ref: Reference, rows: seq<Container>, cache: map<CacheKey, Entry>, req: PickupRequest)
    requires WellFormed(ref)
    requires Coherent(ref, rows, cache)
    requires forall x :: x in rows && x.number == req.number ==> InYard(ref, req.yard, x)
    ensures Coherent(ref, Select(rows, NumberIsNot(req.number)), ClearYard(cache, req.yard) - {ContainerKey(req.number)})
  {
    var rows' := Select(rows, NumberIsNot(req.number));
    forall other | other != req.yard ensures SameInYard(ref, other, rows, rows') {
      PickupFrame(ref, rows, req, other);
    }
    ClearYardCoherent(ref, rows, rows', cache, req.yard);
    assert SuggestionsCoherent(ref, rows', ClearYard(cache, req.yard) - {ContainerKey(req.number)});
    PickupKeepsLocations(ref, rows, cache, req.number, req.yard);
  }

  /** Deleting a missing key changes nothing. */
  lemma DropMissing(cache: map<CacheKey, Entry>, k: CacheKey)
    ensures k !in cache ==> cache - {k} == cache
  {
    if k !in cache {
      assert cache - {k} == cache;
    }
  }

  /** A write after a delete of the same key is the write alone. */
  lemma WriteAfterDrop(cache: map<CacheKey, Entry>, k: CacheKey, e: Entry)
    ensures (cache - {k})[k := e] == cache[k := e]
  {
    assert (cache - {k})[k := e] == cache[k := e];
  }

  // ---------------------------------------------------------------------------
  // The decorator

  class CachedContainerService {
    const base: ContainerService
    var cache: map<CacheKey, Entry>

    constructor (base: ContainerService)
      ensures this.base == base && cache == map[]
    {
      this.base := base;
      cache := map[];
    }

    /** The re-check of a cached position: the yard, then the cached block, then the cell. */
    method StillAvailable(req: SuggestionRequest, cachedPosition: Position) returns (free: bool)
      ensures free == StillFree(base.reference, base.store.rows, req, cachedPosition)
    {
      var yard := YardByCode(base.reference, req.yard);
      if yard.None? {
        return false;
      }
      var block := BlockByCode(base.reference, yard.value.id, cachedPosition.block);
      if block.None? {
        return false;
      }
      var occupied := base.store.IsPositionOccupied(block.value.id, cachedPosition.slot, cachedPosition.row,
                                                    cachedPosition.tier, req.size);
      return !occupied;
    }

    /** The read of the request's key: a hit is an entry whose position passes the re-check. */
    method CachedHit(req: SuggestionRequest) returns (hit: bool, cachedPosition: Position)
      ensures hit <==> KeyOf(req) in cache
                       && StillFree(base.reference, base.store.rows, req, AsPosition(cache[KeyOf(req)].value))
      ensures hit ==> cachedPosition == AsPosition(cache[KeyOf(req)].value)
    {
      var cacheKey := KeyOf(req);
      hit := false;
      cachedPosition := Position("", 0, 0, 0);
      if cacheKey in cache {
        cachedPosition := AsPosition(cache[cacheKey].value);
        hit := StillAvailable(req, cachedPosition);
      }
    }

    /** The miss path: drop a stale entry, ask the engine, and cache a success for five minutes. */
    method Refresh(req: SuggestionRequest) returns (r: Result<Position>)
      modifies this
      ensures r == Suggestion(base.reference, base.store.rows, req)
      ensures cache == if r.Ok? then old(cache)[KeyOf(req) := Entry(CachedPosition(r.value), FiveMinutes)]
                       else old(cache) - {KeyOf(req)}
    {
      var cacheKey := KeyOf(req);
      if cacheKey in cache {
        cache := cache - {cacheKey};
      }
      var position := base.GetSuggestion(req);
      if position.Err? {
        DropMissing(old(cache), cacheKey);
        return Err(position.error);
      }
      var entry := Entry(CachedPosition(position.value), FiveMinutes);
      WriteAfterDrop(old(cache), cacheKey, entry);
      cache := cache[cacheKey := entry];
      return Ok(position.value);
    }

    method GetSuggestion(req: SuggestionRequest) returns (r: Result<Position>)
      modifies this
      ensures SuggestStep(base.reference, base.store.rows, old(cache), req, r, cache)
    {
      var valid := ValidateContainerSpec(req.size, req.height, req.containerType);
      if valid.Failure? {
        r := Err(valid.error);
      } else {
        var hit, cachedPosition := CachedHit(req);
        if hit {
          r := Ok(cachedPosition);
        } else {
          r := Refresh(req);
        }
      }
    }

    method PlaceContainer(req: PlacementRequest) returns (r: Outcome)
      modifies this, base.store
      ensures r == OutcomeOf(PlaceResult(base.reference, old(base.store.rows), req))
      ensures base.store.rows == match PlaceResult(base.reference, old(base.store.rows), req)
                                 case Ok(c) => old(base.store.rows) + [c]
                                 case Err(_) => old(base.store.rows)
      ensures r.Failure? ==> cache == old(cache)
      ensures r.Success? ==> cache == ClearYard(old(cache), req.yard)[ContainerKey(req.number) :=
        Entry(CachedLocation(req.yard, req.block, req.slot, req.row, req.tier), OneDay)]
      ensures WellFormed(base.reference) && Coherent(base.reference, old(base.store.rows), old(cache)) ==>
        Coherent(base.reference, base.store.rows, cache)
    {
      r := base.PlaceContainer(req);
      if r.Failure? {
        return r;
      }

      cache := ClearYard(cache, req.yard);

      var cacheKey := ContainerKey(req.number);
      var containerInfo := CachedLocation(req.yard, req.block, req.slot, req.row, req.tier);
      cache := cache[cacheKey := Entry(containerInfo, OneDay)];

      if WellFormed(base.reference) && Coherent(base.reference, old(base.store.rows), old(cache)) {
        PlaceKeepsCoherent(base.reference, old(base.store.rows), old(cache), req,
                           PlaceResult(base.reference, old(base.store.rows), req).value);
      }
    }

    method PickupContainer(req: PickupRequest) returns (r: Outcome)
      modifies this, base.store
      ensures r == OutcomeOf(PickupResult(base.reference, old(base.store.rows), req))
      ensures base.store.rows == if PickupResult(base.reference, old(base.store.rows), req).Ok?
                                 then Select(old(base.store.rows), NumberIsNot(req.number))
                                 else old(base.store.rows)
      ensures r.Failure? ==> cache == old(cache)
      ensures r.Success? ==> cache == ClearYard(old(cache), req.yard) - {ContainerKey(req.number)}
      ensures WellFormed(base.reference) && Coherent(base.reference, old(base.store.rows), old(cache))
        && (forall x :: x in old(base.store.rows) && x.number == req.number ==> InYard(base.reference, req.yard, x))
        ==> Coherent(base.reference, base.store.rows, cache)
    {
      r := base.PickupContainer(req);
      if r.Failure? {
        return r;
      }

      cache := ClearYard(cache, req.yard);

      var cacheKey := ContainerKey(req.number);
      cache := cache - {cacheKey};

      if WellFormed(base.reference) && Coherent(base.reference, old(base.store.rows), old(cache))
        && (forall x :: x in old(base.store.rows) && x.number == req.number ==> InYard(base.reference, req.yard, x))
      {
        PickupKeepsCoherent(base.reference, old(base.store.rows), old(cache), req);
      }
    }
  }
}

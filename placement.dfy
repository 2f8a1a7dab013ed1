/**
 * The placement engine (internal/service/container_service.go): spec and
 * position validation, the first-fit search for a free and supported cell,
 * and the Place and Pickup operations over the container table.
 */
module Placement {
  import opened Model
  import opened Lookup
  import opened Repository

  /** Place records every container with this fixed spec, whatever the caller's container is. */
  const PlacedSize: int := 20
  const PlacedHeight: int := StandardHeight
  const PlacedType: string := "DRY"

  predicate ValidType(containerType: string) {
    containerType == "DRY" || containerType == "REEFER" || containerType == "OPEN_TOP"
  }

  /** Size is checked first, then height, then type. */
  function ValidateContainerSpec(size: int, height: int, containerType: string): (r: Outcome)
    ensures r == Success <==>
      (size == 20 || size == 40) && (height == StandardHeight || height == HighCubeHeight) && ValidType(containerType)
    ensures size != 20 && size != 40 ==> r == Failure(InvalidSize)
    ensures (size == 20 || size == 40) && height != StandardHeight && height != HighCubeHeight ==> r == Failure(InvalidHeight)
    ensures (size == 20 || size == 40) && (height == StandardHeight || height == HighCubeHeight) && !ValidType(containerType)
      ==> r == Failure(InvalidType)
  {
    if size != 20 && size != 40 then Failure(InvalidSize)
    else if height != StandardHeight && height != HighCubeHeight then Failure(InvalidHeight)
    else if !ValidType(containerType) then Failure(InvalidType)
    else Success
  }

  /** Slot is checked first, then row, then tier; each against 1 and the block's bound. */
  function ValidatePosition(block: Block, slot: int, row: int, tier: int): (r: Outcome)
    ensures r == Success <==>
      1 <= slot <= block.maxSlot && 1 <= row <= block.maxRow && 1 <= tier <= block.maxTier
    ensures !(1 <= slot <= block.maxSlot) ==> r == Failure(InvalidSlot(block.maxSlot))
    ensures 1 <= slot <= block.maxSlot && !(1 <= row <= block.maxRow) ==> r == Failure(InvalidRow(block.maxRow))
    ensures 1 <= slot <= block.maxSlot && 1 <= row <= block.maxRow && !(1 <= tier <= block.maxTier)
      ==> r == Failure(InvalidTier(block.maxTier))
  {
    if slot < 1 || slot > block.maxSlot then Failure(InvalidSlot(block.maxSlot))
    else if row < 1 || row > block.maxRow then Failure(InvalidRow(block.maxRow))
    else if tier < 1 || tier > block.maxTier then Failure(InvalidTier(block.maxTier))
    else Success
  }

  // ---------------------------------------------------------------------------
  // The cells a container covers and the occupied-cell set of the search

  /** The cells a container of `size` anchored at (slot, row, tier) covers: a
      size-40 container also covers slot + 1. */
  function Footprint(size: int, slot: int, row: int, tier: int): set<Cell> {
    if size == 40 then {Cell(slot, row, tier), Cell(slot + 1, row, tier)} else {Cell(slot, row, tier)}
  }

  function CellsOf(c: Container): set<Cell> {
    Footprint(c.size, c.slot, c.row, c.tier)
  }

  /** The occupied-cell set built from a list of records, one record at a time. */
  function OccupiedCells(records: seq<Container>): set<Cell>
    decreases |records|
  {
    if |records| == 0 then {}
    else OccupiedCells(records[..|records| - 1]) + CellsOf(records[|records| - 1])
  }

  lemma {:induction false} OccupiedCellsMembers(records: seq<Container>, x: Cell)
    ensures x in OccupiedCells(records) <==> exists c :: c in records && x in CellsOf(c)
    decreases |records|
  {
    if |records| > 0 {
      var init := records[..|records| - 1];
      var last := records[|records| - 1];
      OccupiedCellsMembers(init, x);
      assert forall c :: c in records <==> c in init || c == last;
    }
  }

  /** The set depends only on which records are listed, not on their order or repetition. */
  lemma SameRecordsSameCells(a: seq<Container>, b: seq<Container>)
    requires forall c :: c in a <==> c in b
    ensures OccupiedCells(a) == OccupiedCells(b)
  {
    forall x ensures x in OccupiedCells(a) <==> x in OccupiedCells(b) {
      OccupiedCellsMembers(a, x);
      OccupiedCellsMembers(b, x);
    }
  }

  /** The records the search reads: those of the block anchored inside the plan's rectangle. */
  function AreaOf(rows: seq<Container>, block: Block, plan: Plan): seq<Container> {
    Select(rows, InRect(block.id, plan.slotStart, plan.slotEnd, plan.rowStart, plan.rowEnd))
  }

  /** The occupied-cell set of the search for `plan` in `block`. */
  function OccupiedInPlan(rows: seq<Container>, block: Block, plan: Plan): set<Cell> {
    OccupiedCells(AreaOf(rows, block, plan))
  }

  // ---------------------------------------------------------------------------
  // The specification of the search

  /** (tier, slot, row) is one of the candidates the search scans. */
  predicate InScan(block: Block, plan: Plan, tier: int, slot: int, row: int) {
    1 <= tier <= block.maxTier && plan.slotStart <= slot <= plan.slotEnd && plan.rowStart <= row <= plan.rowEnd
  }

  /** A candidate the search accepts: a size-40 candidate stays inside the plan's
      slots, every cell it needs is free, and above tier 1 every cell below is occupied. */
  predicate Fits(occ: set<Cell>, plan: Plan, tier: int, slot: int, row: int) {
    (plan.size == 40 ==> slot + 1 <= plan.slotEnd)
    && Footprint(plan.size, slot, row, tier) !! occ
    && (tier > 1 ==> Footprint(plan.size, slot, row, tier - 1) <= occ)
  }

  /** The scan order: tier, then slot, then row, each ascending. */
  predicate Earlier(t1: int, s1: int, r1: int, t2: int, s2: int, r2: int) {
    t1 < t2 || (t1 == t2 && (s1 < s2 || (s1 == s2 && r1 < r2)))
  }

  /** `p` is the first candidate in scan order that fits. */
  ghost predicate IsFirstFit(occ: set<Cell>, block: Block, plan: Plan, p: Position) {
    p.block == block.code
    && InScan(block, plan, p.tier, p.slot, p.row)
    && Fits(occ, plan, p.tier, p.slot, p.row)
    && NoneFitsBefore(occ, block, plan, p.tier, p.slot, p.row)
  }

  /** No candidate scanned before (tier, slot, row) fits. */
  ghost predicate NoneFitsBefore(occ: set<Cell>, block: Block, plan: Plan, tier: int, slot: int, row: int) {
    forall t, s, r :: InScan(block, plan, t, s, r) && Earlier(t, s, r, tier, slot, row) ==> !Fits(occ, plan, t, s, r)
  }

  lemma NextRow(occ: set<Cell>, block: Block, plan: Plan, tier: int, slot: int, row: int)
    requires NoneFitsBefore(occ, block, plan, tier, slot, row) && !Fits(occ, plan, tier, slot, row)
    ensures NoneFitsBefore(occ, block, plan, tier, slot, row + 1)
  {
  }

  lemma NextSlot(occ: set<Cell>, block: Block, plan: Plan, tier: int, slot: int, row: int)
    requires NoneFitsBefore(occ, block, plan, tier, slot, row) && row > plan.rowEnd
    ensures NoneFitsBefore(occ, block, plan, tier, slot + 1, plan.rowStart)
  {
  }

  lemma NextTier(occ: set<Cell>, block: Block, plan: Plan, tier: int, slot: int)
    requires NoneFitsBefore(occ, block, plan, tier, slot, plan.rowStart) && slot > plan.slotEnd
    ensures NoneFitsBefore(occ, block, plan, tier + 1, plan.slotStart, plan.rowStart)
  {
  }

  lemma ScanDone(occ: set<Cell>, block: Block, plan: Plan, tier: int)
    requires NoneFitsBefore(occ, block, plan, tier, plan.slotStart, plan.rowStart) && tier > block.maxTier
    ensures NoFit(occ, block, plan)
  {
  }

  /** No candidate fits. */
  ghost predicate NoFit(occ: set<Cell>, block: Block, plan: Plan) {
    forall t, s, r :: InScan(block, plan, t, s, r) ==> !Fits(occ, plan, t, s, r)
  }

  /** The search's answer is determined: at most one candidate is the first fit. */
  lemma FirstFitUnique(occ: set<Cell>, block: Block, plan: Plan, p: Position, q: Position)
    requires IsFirstFit(occ, block, plan, p) && IsFirstFit(occ, block, plan, q)
    ensures p == q
  {
  }

  /** Among the integers from `lo` up to `n` that satisfy `P`, `m` is the least one. */
  lemma {:induction false} LeastFrom(P: int -> bool, lo: int, n: int) returns (m: int)
    requires lo <= n && P(n)
    ensures lo <= m <= n && P(m)
    ensures forall k :: lo <= k < m ==> !P(k)
    decreases n - lo
  {
    if P(lo) {
      m := lo;
    } else {
      m := LeastFrom(P, lo + 1, n);
      forall k | lo <= k < m ensures !P(k) {
        if k != lo {
          assert lo + 1 <= k < m;
        }
      }
    }
  }

  /** The lexicographic well-ordering of candidates: if some candidate at or above
      the lower bounds satisfies `F`, a first one in (tier, slot, row) order does. */
  lemma LeastCandidate(F: (int, int, int) -> bool, tLo: int, sLo: int, rLo: int, t0: int, s0: int, r0: int)
    returns (tm: int, sm: int, rm: int)
    requires tLo <= t0 && sLo <= s0 && rLo <= r0 && F(t0, s0, r0)
    ensures tLo <= tm && sLo <= sm && rLo <= rm && F(tm, sm, rm)
    ensures forall t, s, r :: tLo <= t && sLo <= s && rLo <= r && Earlier(t, s, r, tm, sm, rm) ==> !F(t, s, r)
  {
    var atTier := (t: int) => exists s, r :: sLo <= s && rLo <= r && F(t, s, r);
    assert atTier(t0);
    tm := LeastFrom(atTier, tLo, t0);
    var s1, r1 :| sLo <= s1 && rLo <= r1 && F(tm, s1, r1);
    var atSlot := (s: int) => exists r :: rLo <= r && F(tm, s, r);
    assert atSlot(s1);
    sm := LeastFrom(atSlot, sLo, s1);
    var r2 :| rLo <= r2 && F(tm, sm, r2);
    var atRow := (r: int) => F(tm, sm, r);
    assert atRow(r2);
    rm := LeastFrom(atRow, rLo, r2);
    forall t', s', r' | tLo <= t' && sLo <= s' && rLo <= r' && Earlier(t', s', r', tm, sm, rm)
      ensures !F(t', s', r')
    {
      if t' < tm {
        assert !atTier(t');
      } else if s' < sm {
        assert !atSlot(s');
      } else {
        assert !atRow(r');
      }
    }
    assert F(tm, sm, rm);
  }

  /** When some candidate fits, a first one in scan order exists. */
  lemma LeastFitExists(occ: set<Cell>, block: Block, plan: Plan)
    requires !NoFit(occ, block, plan)
    ensures exists p :: IsFirstFit(occ, block, plan, p)
  {
    var t0, s0, r0 :| InScan(block, plan, t0, s0, r0) && Fits(occ, plan, t0, s0, r0);
    var F := (t: int, s: int, r: int) => InScan(block, plan, t, s, r) && Fits(occ, plan, t, s, r);
    assert F(t0, s0, r0);
    var t, s, r := LeastCandidate(F, 1, plan.slotStart, plan.rowStart, t0, s0, r0);
    assert InScan(block, plan, t, s, r) && Fits(occ, plan, t, s, r);
    forall t', s', r' | InScan(block, plan, t', s', r') && Earlier(t', s', r', t, s, r)
      ensures !Fits(occ, plan, t', s', r')
    {
      assert !F(t', s', r');
    }
    assert IsFirstFit(occ, block, plan, Position(block.code, s, r, t));
  }

  /** The search's answer for one plan, as a function of the occupied-cell set. */
  ghost function FirstFit(occ: set<Cell>, block: Block, plan: Plan): (r: Option<Position>)
    ensures r.Some? ==> IsFirstFit(occ, block, plan, r.value)
    ensures r.None? <==> NoFit(occ, block, plan)
  {
    if NoFit(occ, block, plan) then None
    else
      LeastFitExists(occ, block, plan);
      var p :| IsFirstFit(occ, block, plan, p);
      Some(p)
  }

  /** A first fit is what FirstFit names. */
  lemma FirstFitIs(occ: set<Cell>, block: Block, plan: Plan, p: Position)
    requires IsFirstFit(occ, block, plan, p)
    ensures FirstFit(occ, block, plan) == Some(p)
  {
    var r := FirstFit(occ, block, plan);
    assert !NoFit(occ, block, plan) by {
      assert InScan(block, plan, p.tier, p.slot, p.row) && Fits(occ, plan, p.tier, p.slot, p.row);
    }
    FirstFitUnique(occ, block, plan, r.value, p);
  }

  // ---------------------------------------------------------------------------
  // The specification of GetSuggestion

  /** One block's answer: nothing without a matching plan, otherwise the first fit of the first matching plan. */
  ghost function BlockSuggestion(ref: Reference, rows: seq<Container>, block: Block, req: SuggestionRequest): Option<Position> {
    match MatchingPlan(ref, block.id, req.size, req.height, req.containerType)
    case None => None
    case Some(plan) => FirstFit(OccupiedInPlan(rows, block, plan), block, plan)
  }

  /** The first block, in list order, with an answer. */
  ghost function SearchBlocks(ref: Reference, rows: seq<Container>, blocks: seq<Block>, req: SuggestionRequest): Option<Position>
    decreases |blocks|
  {
    if |blocks| == 0 then None
    else match BlockSuggestion(ref, rows, blocks[0], req)
      case Some(p) => Some(p)
      case None => SearchBlocks(ref, rows, blocks[1..], req)
  }

  ghost function Suggestion(ref: Reference, rows: seq<Container>, req: SuggestionRequest): Result<Position> {
    match ValidateContainerSpec(req.size, req.height, req.containerType)
    case Failure(e) => Err(e)
    case Success =>
      match YardByCode(ref, req.yard)
      case None => Err(YardNotFound(req.yard))
      case Some(yard) =>
        match SearchBlocks(ref, rows, BlocksOfYard(ref, yard.id), req)
        case None => Err(NoAvailablePosition)
        case Some(p) => Ok(p)
  }

  // ---------------------------------------------------------------------------
  // The specification of PlaceContainer and PickupContainer

  /** The record Place inserts, or the error it reports, checked in the source's order. */
  ghost function PlaceResult(ref: Reference, rows: seq<Container>, req: PlacementRequest): Result<Container> {
    if req.number == "" then Err(NumberRequired)
    else match YardByCode(ref, req.yard)
      case None => Err(YardNotFound(req.yard))
      case Some(yard) =>
        match BlockByCode(ref, yard.id, req.block)
        case None => Err(BlockNotFound(req.block))
        case Some(block) =>
          match ValidatePosition(block, req.slot, req.row, req.tier)
          case Failure(e) => Err(e)
          case Success =>
            if ByNumber(rows, req.number).Some? then Err(AlreadyPlaced(req.number))
            else if Occupied(rows, block.id, req.slot, req.row, req.tier, PlacedSize) then Err(PositionOccupied)
            else if req.tier > 1 && !Occupied(rows, block.id, req.slot, req.row, req.tier - 1, PlacedSize)
            then Err(TierBelowEmpty(req.tier))
            else Ok(Container(req.number, yard.id, block.id, req.slot, req.row, req.tier,
                              PlacedSize, PlacedHeight, PlacedType))
  }

  /** The record Pickup removes (with every other record of that number), or the error it reports. */
  ghost function PickupResult(ref: Reference, rows: seq<Container>, req: PickupRequest): Result<Container> {
    if req.number == "" then Err(NumberRequired)
    else if YardByCode(ref, req.yard).None? then Err(YardNotFound(req.yard))
    else match ByNumber(rows, req.number)
      case None => Err(ContainerNotFound(req.number))
      case Some(c) =>
        if Blocked(rows, c.blockId, c.slot, c.row, c.tier) then Err(ContainerBlocked) else Ok(c)
  }

  function OutcomeOf<T>(r: Result<T>): Outcome {
    match r
    case Ok(_) => Success
    case Err(e) => Failure(e)
  }

  /** The occupied cells of `records`: each record's anchor and, for size 40, the next slot. */
  method OccupancyMap(records: seq<Container>) returns (occupiedMap: set<Cell>)
    ensures occupiedMap == OccupiedCells(records)
  {
    occupiedMap := {};
    var i := 0;
    while i < |records|
      invariant 0 <= i <= |records|
      invariant occupiedMap == OccupiedCells(records[..i])
    {
      var c := records[i];
      assert records[..i + 1][..i] == records[..i];
      occupiedMap := occupiedMap + {Cell(c.slot, c.row, c.tier)};
      if c.size == 40 {
        occupiedMap := occupiedMap + {Cell(c.slot + 1, c.row, c.tier)};
      }
      i := i + 1;
    }
    assert records[..i] == records;
  }

  /** The test of one candidate: a size-40 candidate needs slot + 1 inside the plan,
      every needed cell must be free, and above tier 1 every cell below it occupied. */
  method CandidateFits(occupiedMap: set<Cell>, plan: Plan, tier: int, slot: int, row: int) returns (fits: bool)
    ensures fits == Fits(occupiedMap, plan, tier, slot, row)
  {
    var slotsNeeded := 1;
    if plan.size == 40 {
      slotsNeeded := 2;
      if slot + 1 > plan.slotEnd {
        return false;
      }
    }

    var available := true;
    var k := 0;
    while k < slotsNeeded
      invariant 0 <= k <= slotsNeeded
      invariant available
      invariant k > 0 ==> Cell(slot, row, tier) !in occupiedMap
      invariant k > 1 ==> Cell(slot + 1, row, tier) !in occupiedMap
    {
      if Cell(slot + k, row, tier) in occupiedMap {
        available := false;
        break;
      }
      k := k + 1;
    }
    if !available {
      assert Cell(slot + k, row, tier) in Footprint(plan.size, slot, row, tier);
      return false;
    }

    if tier > 1 {
      var tierBelowOccupied := true;
      k := 0;
      while k < slotsNeeded
        invariant 0 <= k <= slotsNeeded
        invariant tierBelowOccupied
        invariant k > 0 ==> Cell(slot, row, tier - 1) in occupiedMap
        invariant k > 1 ==> Cell(slot + 1, row, tier - 1) in occupiedMap
      {
        if Cell(slot + k, row, tier - 1) !in occupiedMap {
          tierBelowOccupied := false;
          break;
        }
        k := k + 1;
      }
      if !tierBelowOccupied {
        assert Cell(slot + k, row, tier - 1) in Footprint(plan.size, slot, row, tier - 1);
        return false;
      }
    }
    return true;
  }

  class ContainerService {
    const reference: Reference
    const store: ContainerRepository

    constructor (reference: Reference, store: ContainerRepository)
      ensures this.reference == reference && this.store == store
    {
      this.reference := reference;
      this.store := store;
    }

    /** The first fit of `plan` in `block`, scanning tier, then slot, then row. */
    method FindAvailablePosition(block: Block, plan: Plan) returns (p: Option<Position>)
      ensures p.Some? ==> IsFirstFit(OccupiedInPlan(store.rows, block, plan), block, plan, p.value)
      ensures p.None? ==> NoFit(OccupiedInPlan(store.rows, block, plan), block, plan)
    {
      var occupied := store.GetOccupiedPositionsInArea(block.id, plan.slotStart, plan.slotEnd, plan.rowStart, plan.rowEnd);
      var occupiedMap := OccupancyMap(occupied);
      SameRecordsSameCells(occupied, AreaOf(store.rows, block, plan));
      ghost var occ := OccupiedInPlan(store.rows, block, plan);
      assert occupiedMap == occ;

      var tier := 1;
      while tier <= block.maxTier
        invariant 1 <= tier
        invariant NoneFitsBefore(occ, block, plan, tier, plan.slotStart, plan.rowStart)
        decreases block.maxTier + 1 - tier
      {
        var slot := plan.slotStart;
        while slot <= plan.slotEnd
          invariant plan.slotStart <= slot
          invariant NoneFitsBefore(occ, block, plan, tier, slot, plan.rowStart)
          decreases plan.slotEnd + 1 - slot
        {
          var row := plan.rowStart;
          while row <= plan.rowEnd
            invariant plan.rowStart <= row
            invariant NoneFitsBefore(occ, block, plan, tier, slot, row)
            decreases plan.rowEnd + 1 - row
          {
            var fits := CandidateFits(occupiedMap, plan, tier, slot, row);
            if fits {
              return Some(Position(block.code, slot, row, tier));
            }
            NextRow(occ, block, plan, tier, slot, row);
            row := row + 1;
          }
          NextSlot(occ, block, plan, tier, slot, row);
          slot := slot + 1;
        }
        NextTier(occ, block, plan, tier, slot);
        tier := tier + 1;
      }
      ScanDone(occ, block, plan, tier);
      return None;
    }

    method GetSuggestion(req: SuggestionRequest) returns (r: Result<Position>)
      ensures ValidateContainerSpec(req.size, req.height, req.containerType).Failure? ==>
        r == Err(ValidateContainerSpec(req.size, req.height, req.containerType).error)
      ensures r == Suggestion(reference, store.rows, req)
    {
      var valid := ValidateContainerSpec(req.size, req.height, req.containerType);
      if valid.Failure? {
        return Err(valid.error);
      }
      var yard := YardByCode(reference, req.yard);
      if yard.None? {
        return Err(YardNotFound(req.yard));
      }
      var blocks := BlocksOfYard(reference, yard.value.id);
      var i := 0;
      while i < |blocks|
        invariant 0 <= i <= |blocks|
        invariant SearchBlocks(reference, store.rows, blocks, req) == SearchBlocks(reference, store.rows, blocks[i..], req)
      {
        assert blocks[i..][1..] == blocks[i + 1..];
        var plan := MatchingPlan(reference, blocks[i].id, req.size, req.height, req.containerType);
        if plan.None? {
          i := i + 1;
          continue;
        }
        var position := FindAvailablePosition(blocks[i], plan.value);
        if position.Some? {
          FirstFitIs(OccupiedInPlan(store.rows, blocks[i], plan.value), blocks[i], plan.value, position.value);
          return Ok(position.value);
        }
        i := i + 1;
      }
      return Err(NoAvailablePosition);
    }

    method PlaceContainer(req: PlacementRequest) returns (r: Outcome)
      modifies store
      ensures r == OutcomeOf(PlaceResult(reference, old(store.rows), req))
      ensures store.rows == match PlaceResult(reference, old(store.rows), req)
                            case Ok(c) => old(store.rows) + [c]
                            case Err(_) => old(store.rows)
    {
      if req.number == "" {
        return Failure(NumberRequired);
      }
      var yard := YardByCode(reference, req.yard);
      if yard.None? {
        return Failure(YardNotFound(req.yard));
      }
      var block := BlockByCode(reference, yard.value.id, req.block);
      if block.None? {
        return Failure(BlockNotFound(req.block));
      }
      var valid := ValidatePosition(block.value, req.slot, req.row, req.tier);
      if valid.Failure? {
        return valid;
      }
      var existing := store.GetByNumber(req.number);
      if existing.Ok? {
        return Failure(AlreadyPlaced(req.number));
      }

      var containerSize, containerHeight, containerType := PlacedSize, PlacedHeight, PlacedType;

      var occupied := store.IsPositionOccupied(block.value.id, req.slot, req.row, req.tier, containerSize);
      if occupied {
        return Failure(PositionOccupied);
      }
      if req.tier > 1 {
        var below := store.IsPositionOccupied(block.value.id, req.slot, req.row, req.tier - 1, containerSize);
        if !below {
          return Failure(TierBelowEmpty(req.tier));
        }
      }

      var container := Container(req.number, yard.value.id, block.value.id, req.slot, req.row, req.tier,
                                 containerSize, containerHeight, containerType);
      store.Create(container);
      return Success;
    }

    method PickupContainer(req: PickupRequest) returns (r: Outcome)
      modifies store
      ensures r == OutcomeOf(PickupResult(reference, old(store.rows), req))
      ensures store.rows == if PickupResult(reference, old(store.rows), req).Ok?
                            then Select(old(store.rows), NumberIsNot(req.number))
                            else old(store.rows)
    {
      if req.number == "" {
        return Failure(NumberRequired);
      }
      var yard := YardByCode(reference, req.yard);
      if yard.None? {
        return Failure(YardNotFound(req.yard));
      }
      var container := store.GetByNumber(req.number);
      if container.Err? {
        return Failure(container.error);
      }
      var c := container.value;
      var blocked := store.IsContainerBlocked(c.blockId, c.slot, c.row, c.tier);
      if blocked {
        return Failure(ContainerBlocked);
      }
      r := store.Delete(req.number);
    }
  }
}

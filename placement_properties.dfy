/**
 * What the placement engine promises, stated over its specification
 * functions: where a suggestion comes from and why it is free and supported,
 * when it fails, when Place and Pickup succeed, the yard invariant both keep,
 * and that a suggested position can be placed.
 */
module PlacementProperties {
  import opened Model
  import opened Lookup
  import opened Repository
  import opened Placement

  // ---------------------------------------------------------------------------
  // GetSuggestion

  lemma {:induction false} SearchBlocksFirst(ref: Reference, rows: seq<Container>, blocks: seq<Block>,
                                             req: SuggestionRequest, p: Position) returns (i: int)
    requires SearchBlocks(ref, rows, blocks, req) == Some(p)
    ensures 0 <= i < |blocks| && BlockSuggestion(ref, rows, blocks[i], req) == Some(p)
    ensures forall j :: 0 <= j < i ==> BlockSuggestion(ref, rows, blocks[j], req) == None
    decreases |blocks|
  {
    if BlockSuggestion(ref, rows, blocks[0], req).Some? {
      i := 0;
    } else {
      var k := SearchBlocksFirst(ref, rows, blocks[1..], req, p);
      i := k + 1;
      forall j | 0 <= j < i ensures BlockSuggestion(ref, rows, blocks[j], req) == None {
        if j > 0 {
          assert blocks[j] == blocks[1..][j - 1];
        }
      }
    }
  }

  lemma {:induction false} SearchBlocksNone(ref: Reference, rows: seq<Container>, blocks: seq<Block>, req: SuggestionRequest)
    ensures SearchBlocks(ref, rows, blocks, req) == None <==>
      forall b :: b in blocks ==> BlockSuggestion(ref, rows, b, req) == None
    decreases |blocks|
  {
    if |blocks| > 0 {
      SearchBlocksNone(ref, rows, blocks[1..], req);
      assert forall b :: b in blocks <==> b == blocks[0] || b in blocks[1..];
    }
  }

  /** The block has a matching plan (the first one the store returns) with a free, supported candidate. */
  ghost predicate HasFit(ref: Reference, rows: seq<Container>, block: Block, req: SuggestionRequest) {
    match MatchingPlan(ref, block.id, req.size, req.height, req.containerType)
    case None => false
    case Some(plan) => !NoFit(OccupiedInPlan(rows, block, plan), block, plan)
  }

  /** For a valid spec in a known yard, a suggestion exists exactly when some block of
      the yard has a fit; otherwise the error is NoAvailablePosition. */
  lemma SuggestionSucceedsIff(ref: Reference, rows: seq<Container>, req: SuggestionRequest)
    requires ValidateContainerSpec(req.size, req.height, req.containerType) == Success
    requires YardByCode(ref, req.yard).Some?
    ensures Suggestion(ref, rows, req).Ok? <==>
      exists b :: b in BlocksOfYard(ref, YardByCode(ref, req.yard).value.id) && HasFit(ref, rows, b, req)
    ensures Suggestion(ref, rows, req).Err? ==> Suggestion(ref, rows, req).error == NoAvailablePosition
  {
    var blocks := BlocksOfYard(ref, YardByCode(ref, req.yard).value.id);
    SearchBlocksNone(ref, rows, blocks, req);
    forall b ensures BlockSuggestion(ref, rows, b, req).Some? <==> HasFit(ref, rows, b, req) {
    }
  }

  /** A suggestion is the answer of the first block, in the yard's block order, that has one. */
  lemma SuggestionFirstBlock(ref: Reference, rows: seq<Container>, req: SuggestionRequest, p: Position)
    returns (yard: Yard, i: int)
    requires Suggestion(ref, rows, req) == Ok(p)
    ensures ValidateContainerSpec(req.size, req.height, req.containerType) == Success
    ensures YardByCode(ref, req.yard) == Some(yard)
    ensures 0 <= i < |BlocksOfYard(ref, yard.id)|
    ensures BlockSuggestion(ref, rows, BlocksOfYard(ref, yard.id)[i], req) == Some(p)
    ensures forall j :: 0 <= j < i ==> BlockSuggestion(ref, rows, BlocksOfYard(ref, yard.id)[j], req) == None
  {
    yard := YardByCode(ref, req.yard).value;
    i := SearchBlocksFirst(ref, rows, BlocksOfYard(ref, yard.id), req, p);
  }

  /** A block's answer lies in its matching plan's rectangle, is the first candidate in
      (tier, slot, row) order that fits, covers no cell of a record anchored in the
      rectangle, and above tier 1 stands on cells such records cover. */
  lemma BlockSuggestionSound(ref: Reference, rows: seq<Container>, block: Block, req: SuggestionRequest, p: Position)
    returns (plan: Plan)
    requires BlockSuggestion(ref, rows, block, req) == Some(p)
    ensures MatchingPlan(ref, block.id, req.size, req.height, req.containerType) == Some(plan)
    ensures p.block == block.code
    ensures plan.slotStart <= p.slot <= plan.slotEnd && plan.rowStart <= p.row <= plan.rowEnd && 1 <= p.tier <= block.maxTier
    ensures req.size == 40 ==> p.slot + 1 <= plan.slotEnd
    ensures forall c :: (c in rows && Matches(c, InRect(block.id, plan.slotStart, plan.slotEnd, plan.rowStart, plan.rowEnd))
      ==> CellsOf(c) !! Footprint(req.size, p.slot, p.row, p.tier))
    ensures p.tier > 1 ==> exists c :: (c in rows
      && Matches(c, InRect(block.id, plan.slotStart, plan.slotEnd, plan.rowStart, plan.rowEnd))
      && Cell(p.slot, p.row, p.tier - 1) in CellsOf(c))
    ensures p.tier > 1 && req.size == 40 ==> exists c :: (c in rows
      && Matches(c, InRect(block.id, plan.slotStart, plan.slotEnd, plan.rowStart, plan.rowEnd))
      && Cell(p.slot + 1, p.row, p.tier - 1) in CellsOf(c))
    ensures NoneFitsBefore(OccupiedInPlan(rows, block, plan), block, plan, p.tier, p.slot, p.row)
  {
    plan := MatchingPlan(ref, block.id, req.size, req.height, req.containerType).value;
    var area := AreaOf(rows, block, plan);
    var occ := OccupiedCells(area);
    assert IsFirstFit(occ, block, plan, p);
    forall c | c in rows && Matches(c, InRect(block.id, plan.slotStart, plan.slotEnd, plan.rowStart, plan.rowEnd))
      ensures CellsOf(c) !! Footprint(req.size, p.slot, p.row, p.tier)
    {
      forall x | x in CellsOf(c) ensures x in occ {
        OccupiedCellsMembers(area, x);
      }
    }
    if p.tier > 1 {
      assert Cell(p.slot, p.row, p.tier - 1) in Footprint(req.size, p.slot, p.row, p.tier - 1);
      OccupiedCellsMembers(area, Cell(p.slot, p.row, p.tier - 1));
      if req.size == 40 {
        assert Cell(p.slot + 1, p.row, p.tier - 1) in Footprint(req.size, p.slot, p.row, p.tier - 1);
        OccupiedCellsMembers(area, Cell(p.slot + 1, p.row, p.tier - 1));
      }
    }
  }

  /** With well-formed reference data, a suggestion lies inside the bounds of a block of
      the named yard, and a size-40 suggestion's second slot does too. */
  lemma SuggestionInBlockBounds(ref: Reference, rows: seq<Container>, req: SuggestionRequest, p: Position)
    requires WellFormed(ref)
    requires Suggestion(ref, rows, req) == Ok(p)
    ensures exists b :: (b in ref.blocks && b.yardId == YardByCode(ref, req.yard).value.id && b.code == p.block
      && 1 <= p.slot && (if req.size == 40 then p.slot + 1 else p.slot) <= b.maxSlot
      && 1 <= p.row <= b.maxRow && 1 <= p.tier <= b.maxTier)
  {
    var yard, i := SuggestionFirstBlock(ref, rows, req, p);
    var block := BlocksOfYard(ref, yard.id)[i];
    assert block in BlocksOfYard(ref, yard.id);
    var plan := BlockSuggestionSound(ref, rows, block, req, p);
  }

  // ---------------------------------------------------------------------------
  // PlaceContainer

  /** Place succeeds exactly when every one of its checks passes. */
  lemma PlaceSucceedsIff(ref: Reference, rows: seq<Container>, req: PlacementRequest)
    ensures PlaceResult(ref, rows, req).Ok? <==>
      (req.number != ""
      && YardByCode(ref, req.yard).Some?
      && BlockByCode(ref, YardByCode(ref, req.yard).value.id, req.block).Some?
      && var block := BlockByCode(ref, YardByCode(ref, req.yard).value.id, req.block).value;
         1 <= req.slot <= block.maxSlot && 1 <= req.row <= block.maxRow && 1 <= req.tier <= block.maxTier
         && (forall c :: c in rows ==> c.number != req.number)
         && (forall c :: c in rows ==>
               !(c.blockId == block.id && c.slot == req.slot && c.row == req.row && c.tier == req.tier))
         && (req.tier > 1 ==> exists c :: (c in rows
               && c.blockId == block.id && c.slot == req.slot && c.row == req.row && c.tier == req.tier - 1)))
  {
  }

  /** The record Place inserts carries the request's number and position, the named
      yard and block, and the fixed spec 20 / 8.6 / DRY. */
  lemma PlaceRecord(ref: Reference, rows: seq<Container>, req: PlacementRequest, c: Container)
    requires PlaceResult(ref, rows, req) == Ok(c)
    ensures c.number == req.number && c.slot == req.slot && c.row == req.row && c.tier == req.tier
    ensures c.size == 20 && c.height == StandardHeight && c.containerType == "DRY"
    ensures exists y :: y in ref.yards && y.code == req.yard && y.id == c.yardId
    ensures exists b :: b in ref.blocks && b.code == req.block && b.id == c.blockId && b.yardId == c.yardId
  {
  }

  /** Once the earlier checks pass, Place above tier 1 fails with TierBelowEmpty exactly
      when no record is anchored at the same slot and row one tier down. */
  lemma PlaceTierBelowIff(ref: Reference, rows: seq<Container>, req: PlacementRequest, yard: Yard, block: Block)
    requires req.number != ""
    requires YardByCode(ref, req.yard) == Some(yard)
    requires BlockByCode(ref, yard.id, req.block) == Some(block)
    requires ValidatePosition(block, req.slot, req.row, req.tier) == Success
    requires forall c :: c in rows ==> c.number != req.number
    requires !Occupied(rows, block.id, req.slot, req.row, req.tier, PlacedSize)
    ensures PlaceResult(ref, rows, req) == Err(TierBelowEmpty(req.tier)) <==>
      (req.tier > 1 && forall c :: c in rows ==>
        !(c.blockId == block.id && c.slot == req.slot && c.row == req.row && c.tier == req.tier - 1))
  {
  }

  // ---------------------------------------------------------------------------
  // PickupContainer

  /** Pickup succeeds exactly when the number is given, the yard is known, a record has
      that number, and nothing in the same block, slot and row lies above the first such record. */
  lemma PickupSucceedsIff(ref: Reference, rows: seq<Container>, req: PickupRequest)
    ensures PickupResult(ref, rows, req).Ok? <==>
      (req.number != ""
      && YardByCode(ref, req.yard).Some?
      && ByNumber(rows, req.number).Some?
      && var c := ByNumber(rows, req.number).value;
         forall d :: d in rows && d.blockId == c.blockId && d.slot == c.slot && d.row == c.row ==> d.tier <= c.tier)
    ensures PickupResult(ref, rows, req).Ok? ==> PickupResult(ref, rows, req).value == ByNumber(rows, req.number).value
  {
  }

  /** Once the number, yard and record are found, Pickup fails with ContainerBlocked exactly
      when some record of the same block, slot and row has a greater tier. */
  lemma PickupBlockedIff(ref: Reference, rows: seq<Container>, req: PickupRequest, c: Container)
    requires req.number != "" && YardByCode(ref, req.yard).Some?
    requires ByNumber(rows, req.number) == Some(c)
    ensures PickupResult(ref, rows, req) == Err(ContainerBlocked) <==>
      exists d :: d in rows && d.blockId == c.blockId && d.slot == c.slot && d.row == c.row && d.tier > c.tier
  {
  }

  // ---------------------------------------------------------------------------
  // The yard invariant Place and Pickup keep

  ghost predicate Pairwise(s: seq<Container>, rel: (Container, Container) -> bool) {
    forall i, j :: 0 <= i < j < |s| ==> rel(s[i], s[j])
  }

  predicate DifferentNumbers(a: Container, b: Container) {
    a.number != b.number
  }

  predicate DifferentAnchors(a: Container, b: Container) {
    !(a.blockId == b.blockId && a.slot == b.slot && a.row == b.row && a.tier == b.tier)
  }

  /** No two records carry the same number. */
  ghost predicate UniqueNumbers(rows: seq<Container>) {
    Pairwise(rows, DifferentNumbers)
  }

  /** No two records are anchored at the same cell. */
  ghost predicate DistinctAnchors(rows: seq<Container>) {
    Pairwise(rows, DifferentAnchors)
  }

  /** Every record above tier 1 stands on a record anchored right below it. */
  ghost predicate Supported(rows: seq<Container>) {
    forall c :: c in rows && c.tier > 1 ==> Occupied(rows, c.blockId, c.slot, c.row, c.tier - 1, PlacedSize)
  }

  /** Every record is anchored inside the bounds of a known block. */
  ghost predicate InsideBlocks(ref: Reference, rows: seq<Container>) {
    forall c :: c in rows ==> exists b :: (b in ref.blocks && b.id == c.blockId
      && 1 <= c.slot <= b.maxSlot && 1 <= c.row <= b.maxRow && 1 <= c.tier <= b.maxTier)
  }

  ghost predicate YardInvariant(ref: Reference, rows: seq<Container>) {
    UniqueNumbers(rows) && DistinctAnchors(rows) && Supported(rows) && InsideBlocks(ref, rows)
  }

  lemma {:induction false} SelectKeepsPairwise(s: seq<Container>, w: Where, rel: (Container, Container) -> bool)
    requires Pairwise(s, rel)
    ensures Pairwise(Select(s, w), rel)
    decreases |s|
  {
    if |s| > 0 {
      var init := s[..|s| - 1];
      var last := s[|s| - 1];
      SelectKeepsPairwise(init, w, rel);
      var front := Select(init, w);
      var r := Select(s, w);
      assert r == front + (if Matches(last, w) then [last] else []);
      forall i, j | 0 <= i < j < |r| ensures rel(r[i], r[j]) {
        if j < |front| {
          assert r[i] == front[i] && r[j] == front[j];
        } else {
          assert r[i] == front[i] && r[j] == last;
          assert front[i] in init;
          var k :| 0 <= k < |init| && init[k] == front[i];
          assert s[k] == front[i];
        }
      }
    }
  }

  lemma AppendKeepsPairwise(s: seq<Container>, c: Container, rel: (Container, Container) -> bool)
    requires Pairwise(s, rel)
    requires forall x :: x in s ==> rel(x, c)
    ensures Pairwise(s + [c], rel)
  {
    var r := s + [c];
    forall i, j | 0 <= i < j < |r| ensures rel(r[i], r[j]) {
      if j < |s| {
        assert r[i] == s[i] && r[j] == s[j];
      } else {
        assert r[i] == s[i] && s[i] in s;
      }
    }
  }

  /** Under UniqueNumbers, a number names at most one record. */
  lemma SameNumberSameRecord(rows: seq<Container>, a: Container, b: Container)
    requires UniqueNumbers(rows)
    requires a in rows && b in rows && a.number == b.number
    ensures a == b
  {
    var i :| 0 <= i < |rows| && rows[i] == a;
    var j :| 0 <= j < |rows| && rows[j] == b;
    if i < j {
      assert false;
    } else if j < i {
      assert false;
    }
  }

  lemma PlaceKeepsInvariant(ref: Reference, rows: seq<Container>, req: PlacementRequest, c: Container)
    requires YardInvariant(ref, rows)
    requires PlaceResult(ref, rows, req) == Ok(c)
    ensures YardInvariant(ref, rows + [c])
  {
    PlacedIsNew(ref, rows, req, c);
    AppendKeepsPairwise(rows, c, DifferentNumbers);
    AppendKeepsPairwise(rows, c, DifferentAnchors);
    PlaceKeepsSupported(ref, rows, req, c);
    PlaceKeepsInsideBlocks(ref, rows, req, c);
  }

  /** The record Place inserts differs from every record in number and anchor. */
  lemma PlacedIsNew(ref: Reference, rows: seq<Container>, req: PlacementRequest, c: Container)
    requires PlaceResult(ref, rows, req) == Ok(c)
    ensures forall x :: x in rows ==> DifferentNumbers(x, c) && DifferentAnchors(x, c)
  {
    var yard := YardByCode(ref, req.yard).value;
    var block := BlockByCode(ref, yard.id, req.block).value;
    assert ByNumber(rows, req.number).None?;
    assert !Occupied(rows, block.id, req.slot, req.row, req.tier, PlacedSize);
    forall x | x in rows ensures DifferentNumbers(x, c) && DifferentAnchors(x, c) {
      assert !AnchoredAt(x, block.id, req.slot, req.row, req.tier, PlacedSize);
    }
  }

  lemma PlaceKeepsSupported(ref: Reference, rows: seq<Container>, req: PlacementRequest, c: Container)
    requires Supported(rows)
    requires PlaceResult(ref, rows, req) == Ok(c)
    ensures Supported(rows + [c])
  {
    var rows' := rows + [c];
    forall x | x in rows' && x.tier > 1 ensures Occupied(rows', x.blockId, x.slot, x.row, x.tier - 1, PlacedSize) {
      var d :| d in rows && AnchoredAt(d, x.blockId, x.slot, x.row, x.tier - 1, PlacedSize);
      assert d in rows';
    }
  }

  lemma PlaceKeepsInsideBlocks(ref: Reference, rows: seq<Container>, req: PlacementRequest, c: Container)
    requires InsideBlocks(ref, rows)
    requires PlaceResult(ref, rows, req) == Ok(c)
    ensures InsideBlocks(ref, rows + [c])
  {
    var yard := YardByCode(ref, req.yard).value;
    var block := BlockByCode(ref, yard.id, req.block).value;
    assert block in ref.blocks && block.id == c.blockId;
    assert 1 <= c.slot <= block.maxSlot && 1 <= c.row <= block.maxRow && 1 <= c.tier <= block.maxTier;
  }

  lemma PickupKeepsInvariant(ref: Reference, rows: seq<Container>, req: PickupRequest, c: Container)
    requires YardInvariant(ref, rows)
    requires PickupResult(ref, rows, req) == Ok(c)
    ensures YardInvariant(ref, Select(rows, NumberIsNot(req.number)))
  {
    assert c in rows && c.number == req.number && !Blocked(rows, c.blockId, c.slot, c.row, c.tier);
    RemoveUnblockedKeepsInvariant(ref, rows, c);
  }

  /** Removing a record with nothing stacked on it keeps the yard invariant. */
  lemma RemoveUnblockedKeepsInvariant(ref: Reference, rows: seq<Container>, c: Container)
    requires YardInvariant(ref, rows)
    requires c in rows && !Blocked(rows, c.blockId, c.slot, c.row, c.tier)
    ensures YardInvariant(ref, Select(rows, NumberIsNot(c.number)))
  {
    var rows' := Select(rows, NumberIsNot(c.number));
    SelectKeepsPairwise(rows, NumberIsNot(c.number), DifferentNumbers);
    SelectKeepsPairwise(rows, NumberIsNot(c.number), DifferentAnchors);
    forall x | x in rows' && x.tier > 1 ensures Occupied(rows', x.blockId, x.slot, x.row, x.tier - 1, PlacedSize) {
      var d :| d in rows && AnchoredAt(d, x.blockId, x.slot, x.row, x.tier - 1, PlacedSize);
      if d.number == c.number {
        SameNumberSameRecord(rows, d, c);
        assert false;
      }
      assert d in rows';
    }
  }

  // ---------------------------------------------------------------------------
  // Suggest, then Place

  /** No record is anchored at a suggestion's cell, nor, for size 40, at its second slot:
      IsPositionOccupied reports the suggestion free both for Place's size and the requested one. */
  lemma SuggestedCellFree(ref: Reference, rows: seq<Container>, block: Block, req: SuggestionRequest, p: Position)
    requires BlockSuggestion(ref, rows, block, req) == Some(p)
    ensures !Occupied(rows, block.id, p.slot, p.row, p.tier, PlacedSize)
    ensures !Occupied(rows, block.id, p.slot, p.row, p.tier, req.size)
  {
    var plan := BlockSuggestionSound(ref, rows, block, req, p);
    var w := InRect(block.id, plan.slotStart, plan.slotEnd, plan.rowStart, plan.rowEnd);
    forall c | c in rows
      ensures !AnchoredAt(c, block.id, p.slot, p.row, p.tier, PlacedSize)
      ensures !AnchoredAt(c, block.id, p.slot, p.row, p.tier, req.size)
    {
      if c.blockId == block.id && c.row == p.row && c.tier == p.tier && plan.slotStart <= c.slot <= plan.slotEnd {
        assert Matches(c, w);
        assert Cell(c.slot, c.row, c.tier) in CellsOf(c);
        assert Cell(c.slot, c.row, c.tier) !in Footprint(req.size, p.slot, p.row, p.tier);
        assert Cell(p.slot, p.row, p.tier) in Footprint(req.size, p.slot, p.row, p.tier);
        assert req.size == 40 ==> Cell(p.slot + 1, p.row, p.tier) in Footprint(req.size, p.slot, p.row, p.tier);
      }
    }
  }

  /** Without size-40 records, the cell below a suggestion above tier 1 has a record anchored at it. */
  lemma SuggestedCellSupported(ref: Reference, rows: seq<Container>, block: Block, req: SuggestionRequest, p: Position)
    requires forall c :: c in rows ==> c.size != 40
    requires BlockSuggestion(ref, rows, block, req) == Some(p)
    requires p.tier > 1
    ensures Occupied(rows, block.id, p.slot, p.row, p.tier - 1, PlacedSize)
  {
    var plan := BlockSuggestionSound(ref, rows, block, req, p);
    var w := InRect(block.id, plan.slotStart, plan.slotEnd, plan.rowStart, plan.rowEnd);
    var c :| c in rows && Matches(c, w) && Cell(p.slot, p.row, p.tier - 1) in CellsOf(c);
    assert AnchoredAt(c, block.id, p.slot, p.row, p.tier - 1, PlacedSize);
  }

  /** The checks of Place, stated as one sufficient condition. */
  lemma PlaceSucceedsWhen(ref: Reference, rows: seq<Container>, req: PlacementRequest, yard: Yard, block: Block)
    requires req.number != ""
    requires YardByCode(ref, req.yard) == Some(yard)
    requires BlockByCode(ref, yard.id, req.block) == Some(block)
    requires 1 <= req.slot <= block.maxSlot && 1 <= req.row <= block.maxRow && 1 <= req.tier <= block.maxTier
    requires forall c :: c in rows ==> c.number != req.number
    requires !Occupied(rows, block.id, req.slot, req.row, req.tier, PlacedSize)
    requires req.tier > 1 ==> Occupied(rows, block.id, req.slot, req.row, req.tier - 1, PlacedSize)
    ensures PlaceResult(ref, rows, req).Ok?
  {
  }

  /** With well-formed reference data and no size-40 records (Place never creates
      one), a suggested position placed at once under a new number succeeds. */
  lemma SuggestedPositionIsPlaceable(ref: Reference, rows: seq<Container>, req: SuggestionRequest, p: Position, number: string)
    requires WellFormed(ref)
    requires forall c :: c in rows ==> c.size != 40
    requires Suggestion(ref, rows, req) == Ok(p)
    requires number != "" && forall c :: c in rows ==> c.number != number
    ensures PlaceResult(ref, rows, PlacementRequest(req.yard, number, p.block, p.slot, p.row, p.tier)).Ok?
  {
    var yard, i := SuggestionFirstBlock(ref, rows, req, p);
    var block := BlocksOfYard(ref, yard.id)[i];
    assert block in BlocksOfYard(ref, yard.id);
    var plan := BlockSuggestionSound(ref, rows, block, req, p);
    var found := BlockByCode(ref, yard.id, p.block);
    assert found == Some(block);
    SuggestedCellFree(ref, rows, block, req, p);
    if p.tier > 1 {
      SuggestedCellSupported(ref, rows, block, req, p);
    }
    PlaceSucceedsWhen(ref, rows, PlacementRequest(req.yard, number, p.block, p.slot, p.row, p.tier), yard, block);
  }
}

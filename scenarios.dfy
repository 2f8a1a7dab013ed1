/**
 * Concrete yards and what the engine does on them: a block A1 of 10 slots,
 * 2 rows and 3 tiers reserved for 20 ft / 8.6 ft / DRY containers, and two
 * small yards that show what comparing anchor slots only (a size-40 record
 * also covers the next slot) means for Place.
 */
module Scenarios {
  import opened Model
  import opened Lookup
  import opened Repository
  import opened Placement

  /** The spec-validation table of the service's unit test, heights in tenths of a foot. */
  lemma SpecTestCases()
    ensures ValidateContainerSpec(20, 86, "DRY") == Success
    ensures ValidateContainerSpec(40, 96, "REEFER") == Success
    ensures ValidateContainerSpec(30, 86, "DRY") == Failure(InvalidSize)
    ensures ValidateContainerSpec(20, 100, "DRY") == Failure(InvalidHeight)
    ensures ValidateContainerSpec(20, 86, "INVALID") == Failure(InvalidType)
  {
  }

  function DryYard(): Reference {
    Reference([Yard(1, "YRD1")], [Block(1, 1, "A1", 10, 2, 3)], [Plan(1, 1, 1, 10, 1, 2, 20, StandardHeight, "DRY")])
  }

  function DryRequest(): SuggestionRequest {
    SuggestionRequest("YRD1", 20, StandardHeight, "DRY")
  }

  /** The record Place inserts for a DRY container of block A1. */
  function DryRecord(number: string, slot: int, row: int, tier: int): Container {
    Container(number, 1, 1, slot, row, tier, 20, StandardHeight, "DRY")
  }

  lemma DryYardLookups()
    ensures YardByCode(DryYard(), "YRD1") == Some(Yard(1, "YRD1"))
    ensures BlocksOfYard(DryYard(), 1) == [Block(1, 1, "A1", 10, 2, 3)]
    ensures BlockByCode(DryYard(), 1, "A1") == Some(Block(1, 1, "A1", 10, 2, 3))
    ensures MatchingPlan(DryYard(), 1, 20, StandardHeight, "DRY") == Some(Plan(1, 1, 1, 10, 1, 2, 20, StandardHeight, "DRY"))
  {
    assert DryYard().blocks[1..] == [];
  }

  /** In an empty yard the first suggestion is A1, slot 1, row 1, tier 1. */
  lemma EmptyYardSuggestsFirstCell()
    ensures Suggestion(DryYard(), [], DryRequest()) == Ok(Position("A1", 1, 1, 1))
  {
    DryYardLookups();
    var block := Block(1, 1, "A1", 10, 2, 3);
    var plan := Plan(1, 1, 1, 10, 1, 2, 20, StandardHeight, "DRY");
    var occ := OccupiedInPlan([], block, plan);
    assert occ == {};
    FirstFitIs(occ, block, plan, Position("A1", 1, 1, 1));
    assert [block][1..] == [];
  }

  /** Placing at the suggestion succeeds, and the next suggestion advances the row before the slot. */
  lemma SecondSuggestionAdvancesRow()
    ensures PlaceResult(DryYard(), [], PlacementRequest("YRD1", "C1", "A1", 1, 1, 1)) == Ok(DryRecord("C1", 1, 1, 1))
    ensures Suggestion(DryYard(), [DryRecord("C1", 1, 1, 1)], DryRequest()) == Ok(Position("A1", 1, 2, 1))
  {
    DryYardLookups();
    var block := Block(1, 1, "A1", 10, 2, 3);
    var plan := Plan(1, 1, 1, 10, 1, 2, 20, StandardHeight, "DRY");
    var rows := [DryRecord("C1", 1, 1, 1)];
    assert AreaOf(rows, block, plan) == rows by {
      assert rows[..0] == [];
    }
    var occ := OccupiedInPlan(rows, block, plan);
    assert occ == {Cell(1, 1, 1)} by {
      assert rows[..0] == [];
    }
    FirstFitIs(occ, block, plan, Position("A1", 1, 2, 1));
    assert [block][1..] == [];
  }

  /** Place at tier 2 with nothing below fails with TierBelowEmpty. */
  lemma PlaceOnEmptyCellBelowFails()
    ensures PlaceResult(DryYard(), [], PlacementRequest("YRD1", "C2", "A1", 1, 1, 2)) == Err(TierBelowEmpty(2))
  {
    DryYardLookups();
  }

  /** Pickup of a container with another one stacked on it fails with ContainerBlocked. */
  lemma PickupUnderStackFails()
    ensures PickupResult(DryYard(), [DryRecord("C1", 1, 1, 1), DryRecord("C2", 1, 1, 2)], PickupRequest("YRD1", "C1"))
      == Err(ContainerBlocked)
  {
    DryYardLookups();
    var rows := [DryRecord("C1", 1, 1, 1), DryRecord("C2", 1, 1, 2)];
    assert rows[1] in rows && Above(rows[1], 1, 1, 1, 1);
  }

  /** A yard whose block table lists block B before block A, each with a free DRY plan. */
  function UnsortedYard(): Reference {
    Reference([Yard(1, "YRD1")],
              [Block(2, 1, "B", 10, 2, 3), Block(1, 1, "A", 10, 2, 3)],
              [Plan(1, 1, 1, 10, 1, 2, 20, StandardHeight, "DRY"), Plan(2, 2, 1, 10, 1, 2, 20, StandardHeight, "DRY")])
  }

  /** The store lists the yard's blocks sorted by code: A before B. */
  lemma UnsortedYardLookups()
    ensures YardByCode(UnsortedYard(), "YRD1") == Some(Yard(1, "YRD1"))
    ensures BlocksOfYard(UnsortedYard(), 1) == [Block(1, 1, "A", 10, 2, 3), Block(2, 1, "B", 10, 2, 3)]
    ensures MatchingPlan(UnsortedYard(), 1, 20, StandardHeight, "DRY") == Some(Plan(1, 1, 1, 10, 1, 2, 20, StandardHeight, "DRY"))
  {
    var ref := UnsortedYard();
    var a := Block(1, 1, "A", 10, 2, 3);
    var b := Block(2, 1, "B", 10, 2, 3);
    assert ref.yards[1..] == [];
    assert ref.blocks[1..][1..] == [];
    assert Filter(ref.blocks, (x: Block) => x.yardId == 1) == [b, a];
    assert [b, a][..1] == [b] && [b][..0] == [];
    assert !CodeLeq("B", "A");
  }

  /** The search visits blocks in code order, not table order: the first suggestion is in A. */
  lemma SuggestionSearchesBlocksByCode()
    ensures Suggestion(UnsortedYard(), [], DryRequest()) == Ok(Position("A", 1, 1, 1))
  {
    UnsortedYardLookups();
    var a := Block(1, 1, "A", 10, 2, 3);
    var b := Block(2, 1, "B", 10, 2, 3);
    var plan := Plan(1, 1, 1, 10, 1, 2, 20, StandardHeight, "DRY");
    assert OccupiedInPlan([], a, plan) == {};
    FirstFitIs({}, a, plan, Position("A", 1, 1, 1));
    assert [a, b][1..] == [b];
  }

  // ---------------------------------------------------------------------------
  // Anchor-only occupancy

  /** A block of two slots, one row and two tiers, reserved for 20 ft DRY containers. */
  function NarrowYard(): Reference {
    Reference([Yard(1, "YRD1")], [Block(1, 1, "A1", 2, 1, 2)], [Plan(1, 1, 1, 2, 1, 1, 20, StandardHeight, "DRY")])
  }

  /** A 40 ft container anchored at slot 1 of A1, covering slots 1 and 2. */
  function LongRecord(): Container {
    Container("L1", 1, 1, 1, 1, 1, 40, StandardHeight, "DRY")
  }

  lemma NarrowYardLookups()
    ensures YardByCode(NarrowYard(), "YRD1") == Some(Yard(1, "YRD1"))
    ensures BlocksOfYard(NarrowYard(), 1) == [Block(1, 1, "A1", 2, 1, 2)]
    ensures BlockByCode(NarrowYard(), 1, "A1") == Some(Block(1, 1, "A1", 2, 1, 2))
    ensures MatchingPlan(NarrowYard(), 1, 20, StandardHeight, "DRY") == Some(Plan(1, 1, 1, 2, 1, 1, 20, StandardHeight, "DRY"))
  {
    assert NarrowYard().blocks[1..] == [];
  }

  /** Place accepts a container on the cell a 40 ft record's second slot covers. */
  lemma PlaceOverlapsLongRecord()
    ensures Cell(2, 1, 1) in CellsOf(LongRecord())
    ensures PlaceResult(NarrowYard(), [LongRecord()], PlacementRequest("YRD1", "C9", "A1", 2, 1, 1))
      == Ok(DryRecord("C9", 2, 1, 1))
  {
    NarrowYardLookups();
  }

  function StackedRows(): seq<Container> {
    [LongRecord(), DryRecord("C1", 1, 1, 2)]
  }

  lemma StackedCells()
    ensures OccupiedInPlan(StackedRows(), Block(1, 1, "A1", 2, 1, 2), Plan(1, 1, 1, 2, 1, 1, 20, StandardHeight, "DRY"))
      == {Cell(1, 1, 1), Cell(2, 1, 1), Cell(1, 1, 2)}
  {
    var rows := StackedRows();
    assert rows[..1][..0] == [];
    assert rows[..1] == [LongRecord()];
    var area := AreaOf(rows, Block(1, 1, "A1", 2, 1, 2), Plan(1, 1, 1, 2, 1, 1, 20, StandardHeight, "DRY"));
    assert area == rows;
    assert OccupiedCells(rows[..1]) == CellsOf(LongRecord());
    assert OccupiedCells(rows) == OccupiedCells(rows[..1]) + CellsOf(rows[1]);
  }

  /** On those records, slot 2, row 1, tier 2 is the first fit: every earlier cell is taken. */
  lemma LongRecordFirstFit()
    ensures IsFirstFit(OccupiedInPlan(StackedRows(), Block(1, 1, "A1", 2, 1, 2), Plan(1, 1, 1, 2, 1, 1, 20, StandardHeight, "DRY")),
                       Block(1, 1, "A1", 2, 1, 2), Plan(1, 1, 1, 2, 1, 1, 20, StandardHeight, "DRY"), Position("A1", 2, 1, 2))
  {
    var block := Block(1, 1, "A1", 2, 1, 2);
    var plan := Plan(1, 1, 1, 2, 1, 1, 20, StandardHeight, "DRY");
    var occ := OccupiedInPlan(StackedRows(), block, plan);
    StackedCells();
    forall t, s, r | InScan(block, plan, t, s, r) && Earlier(t, s, r, 2, 2, 1)
      ensures !Fits(occ, plan, t, s, r)
    {
      assert (t == 1 && s == 1) || (t == 1 && s == 2) || (t == 2 && s == 1);
      assert Cell(s, r, t) in occ;
    }
  }

  /** The search counts a 40 ft record's second slot as support: with the long record
      and a container on its first slot, the suggestion is slot 2, row 1, tier 2. */
  lemma SuggestionOnLongRecord()
    ensures Suggestion(NarrowYard(), StackedRows(), DryRequest()) == Ok(Position("A1", 2, 1, 2))
  {
    NarrowYardLookups();
    var block := Block(1, 1, "A1", 2, 1, 2);
    var plan := Plan(1, 1, 1, 2, 1, 1, 20, StandardHeight, "DRY");
    LongRecordFirstFit();
    FirstFitIs(OccupiedInPlan(StackedRows(), block, plan), block, plan, Position("A1", 2, 1, 2));
    assert [block][1..] == [];
  }

  /** Place does not: it refuses the suggestion of SuggestionOnLongRecord, since no record
      is anchored at slot 2, tier 1. */
  lemma SuggestionOnLongRecordRefused()
    ensures PlaceResult(NarrowYard(), StackedRows(), PlacementRequest("YRD1", "C9", "A1", 2, 1, 2))
      == Err(TierBelowEmpty(2))
  {
    NarrowYardLookups();
    var rows := StackedRows();
    assert !Occupied(rows, 1, 2, 1, 1, PlacedSize) by {
      assert rows[0].slot == 1 && rows[1].tier == 2;
    }
  }

  // ---------------------------------------------------------------------------
  // Pickup and the yard it names

  /** Two yards, each with a block A1. */
  function TwoYards(): Reference {
    Reference([Yard(1, "YRD1"), Yard(2, "YRD2")],
              [Block(1, 1, "A1", 10, 2, 3), Block(2, 2, "A1", 10, 2, 3)],
              [Plan(1, 1, 1, 10, 1, 2, 20, StandardHeight, "DRY")])
  }

  /** Pickup only checks that the named yard exists: naming YRD2 removes a container of YRD1. */
  lemma PickupIgnoresYard()
    ensures PickupResult(TwoYards(), [DryRecord("C1", 1, 1, 1)], PickupRequest("YRD2", "C1")) == Ok(DryRecord("C1", 1, 1, 1))
    ensures Select([DryRecord("C1", 1, 1, 1)], NumberIsNot("C1")) == []
  {
    var rows := [DryRecord("C1", 1, 1, 1)];
    assert TwoYards().yards[1..] == [Yard(2, "YRD2")];
    assert YardByCode(TwoYards(), "YRD2") == Some(Yard(2, "YRD2"));
    assert ByNumber(rows, "C1") == Some(DryRecord("C1", 1, 1, 1));
    assert !Blocked(rows, 1, 1, 1, 1);
    assert Select(rows, NumberIsNot("C1")) == [] by {
      assert rows[..0] == [];
    }
  }
}

/**
 * The table of active container records and the queries the service makes
 * against it (internal/repository/container_repository.go).
 *
 * The table is a sequence of records in table order.  Every query is a scan
 * of that sequence; a query with a WHERE clause is described by a `Where`
 * value, and a query with ORDER BY slot, row, tier returns the matching rows
 * ordered by that key (rows with equal keys in any order, as SQL leaves them).
 */
module Repository {
  import opened Model
  import opened Lookup

  /** The WHERE clauses of the queries that return rows. */
  datatype Where =
    | InBlock(blockId: int)
    | InRect(blockId: int, slotStart: int, slotEnd: int, rowStart: int, rowEnd: int)
    | NumberIs(number: string)
    | NumberIsNot(number: string)

  predicate Matches(c: Container, w: Where) {
    match w
    case InBlock(b) => c.blockId == b
    case InRect(b, ss, se, rs, re) => c.blockId == b && ss <= c.slot <= se && rs <= c.row <= re
    case NumberIs(n) => c.number == n
    case NumberIsNot(n) => c.number != n
  }

  /** The rows that satisfy `w`, in table order. */
  function Select(rows: seq<Container>, w: Where): (r: seq<Container>)
    ensures forall c :: c in r <==> c in rows && Matches(c, w)
    ensures |r| <= |rows|
    decreases |rows|
  {
    if |rows| == 0 then []
    else
      var last := rows[|rows| - 1];
      assert forall c :: c in rows <==> c in rows[..|rows| - 1] || c == last;
      Select(rows[..|rows| - 1], w) + (if Matches(last, w) then [last] else [])
  }

  /** Scanning one more row extends the selection by that row when it matches. */
  lemma SelectStep(rows: seq<Container>, i: int, w: Where)
    requires 0 <= i < |rows|
    ensures Select(rows[..i + 1], w) == Select(rows[..i], w) + (if Matches(rows[i], w) then [rows[i]] else [])
  {
    assert rows[..i + 1][..i] == rows[..i];
  }

  /** One step of an ordered selection: inserting the next row when it matches keeps `r`
      ordered and a permutation of the selection so far. */
  lemma SortedSelectStep(rows: seq<Container>, i: int, w: Where, r: seq<Container>)
    requires 0 <= i < |rows|
    requires multiset(r) == multiset(Select(rows[..i], w)) && Ordered(r)
    ensures var r' := if Matches(rows[i], w) then InsertOrdered(r, rows[i]) else r;
      multiset(r') == multiset(Select(rows[..i + 1], w)) && Ordered(r')
  {
    SelectStep(rows, i, w);
    InsertKeepsOrder(r, rows[i]);
  }

  /** The ORDER BY slot, row, tier key comparison. */
  predicate KeyLeq(a: Container, b: Container) {
    a.slot < b.slot || (a.slot == b.slot && (a.row < b.row || (a.row == b.row && a.tier <= b.tier)))
  }

  predicate Ordered(s: seq<Container>) {
    forall i, j :: 0 <= i < j < |s| ==> KeyLeq(s[i], s[j])
  }

  /** `s` with `c` inserted before the first element whose key is not smaller. */
  function InsertOrdered(s: seq<Container>, c: Container): (r: seq<Container>)
    ensures multiset(r) == multiset(s) + multiset{c}
    decreases |s|
  {
    if |s| == 0 || KeyLeq(c, s[0]) then [c] + s
    else
      assert s == [s[0]] + s[1..];
      [s[0]] + InsertOrdered(s[1..], c)
  }

  lemma {:induction false} InsertKeepsOrder(s: seq<Container>, c: Container)
    requires Ordered(s)
    ensures Ordered(InsertOrdered(s, c))
    decreases |s|
  {
    if |s| == 0 || KeyLeq(c, s[0]) {
      var r := [c] + s;
      forall i, j | 0 <= i < j < |r| ensures KeyLeq(r[i], r[j]) {
        if i > 0 { assert r[i] == s[i - 1] && r[j] == s[j - 1]; }
        else if j > 0 { assert KeyLeq(s[0], s[j - 1]) || j - 1 == 0; }
      }
    } else {
      InsertKeepsOrder(s[1..], c);
      var tail := InsertOrdered(s[1..], c);
      var r := [s[0]] + tail;
      assert r == InsertOrdered(s, c);
      forall k | 0 <= k < |tail| ensures KeyLeq(s[0], tail[k]) {
        assert tail[k] in multiset(tail);
        assert tail[k] in multiset(s[1..]) || tail[k] == c;
        if tail[k] != c {
          var m :| 0 <= m < |s[1..]| && s[1..][m] == tail[k];
          assert s[m + 1] == tail[k];
        }
      }
      forall i, j | 0 <= i < j < |r| ensures KeyLeq(r[i], r[j]) {
        if i > 0 { assert r[i] == tail[i - 1] && r[j] == tail[j - 1]; }
        else { assert r[j] == tail[j - 1]; }
      }
    }
  }

  /** The rows that satisfy `w`, ordered by slot, row, tier: the matching rows are
      inserted one at a time, in table order, into an ordered result. */
  function SortedSelect(rows: seq<Container>, w: Where): seq<Container>
    decreases |rows|
  {
    if |rows| == 0 then []
    else
      var init := SortedSelect(rows[..|rows| - 1], w);
      var last := rows[|rows| - 1];
      if Matches(last, w) then InsertOrdered(init, last) else init
  }

  /** The ordered selection holds exactly the selected rows, ordered by slot, row, tier. */
  lemma {:induction false} SortedSelectSorted(rows: seq<Container>, w: Where)
    ensures multiset(SortedSelect(rows, w)) == multiset(Select(rows, w))
    ensures Ordered(SortedSelect(rows, w))
    decreases |rows|
  {
    if |rows| > 0 {
      var i := |rows| - 1;
      var init := SortedSelect(rows[..i], w);
      SortedSelectSorted(rows[..i], w);
      SortedSelectStep(rows, i, w, init);
      assert rows[..i + 1] == rows;
      assert SortedSelect(rows, w) == if Matches(rows[i], w) then InsertOrdered(init, rows[i]) else init;
    }
  }

  /** The occupancy test of IsPositionOccupied: a record of the block at that row
      and tier whose anchor slot is `slot`, or for size 40 also `slot + 1`. */
  predicate AnchoredAt(c: Container, blockId: int, slot: int, row: int, tier: int, size: int) {
    c.blockId == blockId && c.row == row && c.tier == tier
    && (if size == 40 then c.slot == slot || c.slot == slot + 1 else c.slot == slot)
  }

  predicate Occupied(rows: seq<Container>, blockId: int, slot: int, row: int, tier: int, size: int) {
    exists c :: c in rows && AnchoredAt(c, blockId, slot, row, tier, size)
  }

  /** The test of IsContainerBlocked: a record of the block in the same slot and row, strictly higher. */
  predicate Above(c: Container, blockId: int, slot: int, row: int, tier: int) {
    c.blockId == blockId && c.slot == slot && c.row == row && c.tier > tier
  }

  predicate Blocked(rows: seq<Container>, blockId: int, slot: int, row: int, tier: int) {
    exists c :: c in rows && Above(c, blockId, slot, row, tier)
  }

  /** The record GetByNumber returns: the first one with that number. */
  function ByNumber(rows: seq<Container>, number: string): (r: Option<Container>)
    ensures r.Some? ==> r.value in rows && r.value.number == number
    ensures r.None? <==> forall c :: c in rows ==> c.number != number
  {
    FirstMatch(rows, (c: Container) => c.number == number)
  }

  class ContainerRepository {
    var rows: seq<Container>

    constructor (initial: seq<Container>)
      ensures rows == initial
    {
      rows := initial;
    }

    /** INSERT of one record. */
    method Create(c: Container)
      modifies this
      ensures rows == old(rows) + [c]
    {
      rows := rows + [c];
    }

    method GetByNumber(number: string) returns (r: Result<Container>)
      ensures r.Ok? ==> r.value in rows && r.value.number == number
      ensures r == match ByNumber(rows, number)
                   case Some(c) => Ok(c)
                   case None => Err(ContainerNotFound(number))
    {
      var all := rows;
      var i := 0;
      while i < |all|
        invariant 0 <= i <= |all|
        invariant forall j :: 0 <= j < i ==> all[j].number != number
      {
        if all[i].number == number {
          var found := ByNumber(all, number);
          var k :| 0 <= k < |all| && all[k] == found.value
            && forall j :: 0 <= j < k ==> !((c: Container) => c.number == number)(all[j]);
          assert k == i;
          return Ok(all[i]);
        }
        i := i + 1;
      }
      forall c | c in all ensures c.number != number {
        var j :| 0 <= j < |all| && all[j] == c;
      }
      return Err(ContainerNotFound(number));
    }

    /** DELETE of every record with that number; fails when none was affected. */
    method Delete(number: string) returns (r: Outcome)
      modifies this
      ensures rows == Select(old(rows), NumberIsNot(number))
      ensures r == if exists c :: c in old(rows) && c.number == number
                   then Success else Failure(ContainerNotFound(number))
    {
      var all := rows;
      var kept: seq<Container> := [];
      var affected := 0;
      var i := 0;
      while i < |all|
        invariant 0 <= i <= |all|
        invariant kept == Select(all[..i], NumberIsNot(number))
        invariant affected > 0 <==> exists j :: 0 <= j < i && all[j].number == number
      {
        SelectStep(all, i, NumberIsNot(number));
        if all[i].number == number {
          affected := affected + 1;
        } else {
          kept := kept + [all[i]];
        }
        ghost var hits := exists j :: 0 <= j < i && all[j].number == number;
        assert (exists j :: 0 <= j < i + 1 && all[j].number == number) <==> hits || all[i].number == number;
        i := i + 1;
      }
      assert all[..i] == all;
      rows := kept;
      if exists c :: c in all && c.number == number {
        var c :| c in all && c.number == number;
        var j :| 0 <= j < |all| && all[j] == c;
      }
      if affected == 0 {
        return Failure(ContainerNotFound(number));
      }
      return Success;
    }

    method IsPositionOccupied(blockId: int, slot: int, row: int, tier: int, size: int) returns (occupied: bool)
      ensures occupied == Occupied(rows, blockId, slot, row, tier, size)
    {
      var all := rows;
      occupied := false;
      var i := 0;
      while i < |all|
        invariant 0 <= i <= |all|
        invariant occupied <==> exists j :: 0 <= j < i && AnchoredAt(all[j], blockId, slot, row, tier, size)
      {
        if AnchoredAt(all[i], blockId, slot, row, tier, size) {
          occupied := true;
        }
        i := i + 1;
      }
      if Occupied(all, blockId, slot, row, tier, size) {
        var c :| c in all && AnchoredAt(c, blockId, slot, row, tier, size);
        var j :| 0 <= j < |all| && all[j] == c;
      }
    }

    /** The rows that satisfy `w`, ordered by slot, row, tier. */
    method SelectOrdered(w: Where) returns (r: seq<Container>)
      ensures r == SortedSelect(rows, w)
      ensures multiset(r) == multiset(Select(rows, w))
      ensures Ordered(r)
    {
      var all := rows;
      r := [];
      var i := 0;
      while i < |all|
        invariant 0 <= i <= |all|
        invariant r == SortedSelect(all[..i], w)
      {
        assert all[..i + 1][..i] == all[..i];
        if Matches(all[i], w) {
          r := InsertOrdered(r, all[i]);
        }
        i := i + 1;
      }
      assert all[..i] == all;
      SortedSelectSorted(all, w);
    }

    method GetOccupiedPositionsInArea(blockId: int, slotStart: int, slotEnd: int, rowStart: int, rowEnd: int)
      returns (r: seq<Container>)
      ensures forall c :: c in r <==> (c in rows && c.blockId == blockId
        && slotStart <= c.slot <= slotEnd && rowStart <= c.row <= rowEnd)
      ensures multiset(r) == multiset(Select(rows, InRect(blockId, slotStart, slotEnd, rowStart, rowEnd)))
      ensures Ordered(r)
    {
      r := SelectOrdered(InRect(blockId, slotStart, slotEnd, rowStart, rowEnd));
      forall c ensures c in r <==> c in Select(rows, InRect(blockId, slotStart, slotEnd, rowStart, rowEnd)) {
        assert c in r <==> c in multiset(r);
      }
    }

    method IsContainerBlocked(blockId: int, slot: int, row: int, tier: int) returns (blocked: bool)
      ensures blocked == Blocked(rows, blockId, slot, row, tier)
    {
      var all := rows;
      blocked := false;
      var i := 0;
      while i < |all|
        invariant 0 <= i <= |all|
        invariant blocked <==> exists j :: 0 <= j < i && Above(all[j], blockId, slot, row, tier)
      {
        if Above(all[i], blockId, slot, row, tier) {
          blocked := true;
        }
        i := i + 1;
      }
      if Blocked(all, blockId, slot, row, tier) {
        var c :| c in all && Above(c, blockId, slot, row, tier);
        var j :| 0 <= j < |all| && all[j] == c;
      }
    }

    method GetByBlock(blockId: int) returns (r: seq<Container>)
      ensures forall c :: c in r <==> c in rows && c.blockId == blockId
      ensures multiset(r) == multiset(Select(rows, InBlock(blockId)))
      ensures Ordered(r)
    {
      r := SelectOrdered(InBlock(blockId));
      forall c ensures c in r <==> c in Select(rows, InBlock(blockId)) {
        assert c in r <==> c in multiset(r);
      }
    }
  }
}

/**
 * The reference tables of yards, blocks and placement plans, which the
 * placement engine reads and never writes, and the four lookups it makes in
 * them.  Each table is a sequence in the order the store returns its rows;
 * the blocks of a yard are sorted by code, as the block query sorts them, and
 * a lookup that the store answers with its first matching row takes the
 * first match in table order.
 */
module Lookup {
  import opened Model

  datatype Reference = Reference(yards: seq<Yard>, blocks: seq<Block>, plans: seq<Plan>)

  /** The first element of `s` satisfying `p`, if any. */
  function FirstMatch<T>(s: seq<T>, p: T -> bool): (r: Option<T>)
    ensures r.Some? ==> r.value in s && p(r.value)
    ensures r.Some? ==> exists i :: 0 <= i < |s| && s[i] == r.value && forall j :: 0 <= j < i ==> !p(s[j])
    ensures r.None? <==> forall x :: x in s ==> !p(x)
    decreases |s|
  {
    if |s| == 0 then None
    else if p(s[0]) then Some(s[0])
    else
      var r := FirstMatch(s[1..], p);
      assert r.Some? ==> exists i :: 0 <= i < |s| && s[i] == r.value && forall j :: 0 <= j < i ==> !p(s[j]) by {
        if r.Some? {
          var i :| 0 <= i < |s[1..]| && s[1..][i] == r.value && forall j :: 0 <= j < i ==> !p(s[1..][j]);
          assert s[i + 1] == r.value;
          forall j | 0 <= j < i + 1 ensures !p(s[j]) {
            if j > 0 { assert s[j] == s[1..][j - 1]; }
          }
        }
      }
      assert r.None? ==> forall x :: x in s ==> !p(x) by {
        if r.None? {
          forall x | x in s ensures !p(x) {
            if x != s[0] { assert x in s[1..]; }
          }
        }
      }
      r
  }

  /** The elements of `s` satisfying `p`, in their order in `s`. */
  function Filter<T>(s: seq<T>, p: T -> bool): (r: seq<T>)
    ensures forall x :: x in r ==> x in s && p(x)
    ensures forall x :: x in s && p(x) ==> x in r
    decreases |s|
  {
    if |s| == 0 then []
    else
      var rest := Filter(s[1..], p);
      assert forall x :: x in s ==> x == s[0] || x in s[1..];
      if p(s[0]) then [s[0]] + rest else rest
  }

  /** The yard with the given code (yard_repository.go, GetByCode). */
  function YardByCode(ref: Reference, code: string): (r: Option<Yard>)
    ensures r.Some? ==> r.value in ref.yards && r.value.code == code
    ensures r.None? <==> forall y :: y in ref.yards ==> y.code != code
  {
    FirstMatch(ref.yards, (y: Yard) => y.code == code)
  }

  // ---------------------------------------------------------------------------
  // ORDER BY code

  /** The order of block codes: character by character, a prefix before its extensions. */
  predicate CodeLeq(a: string, b: string)
    decreases |a|
  {
    |a| == 0 || (|b| > 0 && (a[0] < b[0] || (a[0] == b[0] && CodeLeq(a[1..], b[1..]))))
  }

  lemma {:induction false} CodeLeqTotal(a: string, b: string)
    ensures CodeLeq(a, b) || CodeLeq(b, a)
    decreases |a|
  {
    if |a| > 0 && |b| > 0 && a[0] == b[0] {
      CodeLeqTotal(a[1..], b[1..]);
    }
  }

  lemma {:induction false} CodeLeqTransitive(a: string, b: string, c: string)
    requires CodeLeq(a, b) && CodeLeq(b, c)
    ensures CodeLeq(a, c)
    decreases |a|
  {
    if |a| > 0 && a[0] == b[0] && b[0] == c[0] {
      CodeLeqTransitive(a[1..], b[1..], c[1..]);
    }
  }

  predicate SortedByCode(s: seq<Block>) {
    forall i, j :: 0 <= i < j < |s| ==> CodeLeq(s[i].code, s[j].code)
  }

  /** `s` with `b` inserted after every element whose code is not greater. */
  function InsertByCode(s: seq<Block>, b: Block): (r: seq<Block>)
    ensures multiset(r) == multiset(s) + multiset{b}
    decreases |s|
  {
    if |s| == 0 || !CodeLeq(s[0].code, b.code) then [b] + s
    else
      assert s == [s[0]] + s[1..];
      [s[0]] + InsertByCode(s[1..], b)
  }

  lemma {:induction false} InsertByCodeKeepsOrder(s: seq<Block>, b: Block)
    requires SortedByCode(s)
    ensures SortedByCode(InsertByCode(s, b))
    decreases |s|
  {
    if |s| == 0 || !CodeLeq(s[0].code, b.code) {
      var r := [b] + s;
      if |s| > 0 {
        CodeLeqTotal(s[0].code, b.code);
      }
      forall i, j | 0 <= i < j < |r| ensures CodeLeq(r[i].code, r[j].code) {
        if i > 0 {
          assert r[i] == s[i - 1] && r[j] == s[j - 1];
        } else if j > 1 {
          assert r[j] == s[j - 1];
          CodeLeqTransitive(b.code, s[0].code, s[j - 1].code);
        }
      }
    } else {
      InsertByCodeKeepsOrder(s[1..], b);
      var tail := InsertByCode(s[1..], b);
      var r := [s[0]] + tail;
      assert r == InsertByCode(s, b);
      forall k | 0 <= k < |tail| ensures CodeLeq(s[0].code, tail[k].code) {
        assert tail[k] in multiset(tail);
        assert tail[k] in multiset(s[1..]) || tail[k] == b;
        if tail[k] != b {
          var m :| 0 <= m < |s[1..]| && s[1..][m] == tail[k];
          assert s[m + 1] == tail[k];
        }
      }
      forall i, j | 0 <= i < j < |r| ensures CodeLeq(r[i].code, r[j].code) {
        if i > 0 { assert r[i] == tail[i - 1] && r[j] == tail[j - 1]; }
        else { assert r[j] == tail[j - 1]; }
      }
    }
  }

  /** `s` sorted by code; blocks with equal codes keep their order in `s`. */
  function SortByCode(s: seq<Block>): (r: seq<Block>)
    ensures multiset(r) == multiset(s)
    ensures SortedByCode(r)
    decreases |s|
  {
    if |s| == 0 then []
    else
      var init := SortByCode(s[..|s| - 1]);
      InsertByCodeKeepsOrder(init, s[|s| - 1]);
      assert s == s[..|s| - 1] + [s[|s| - 1]];
      InsertByCode(init, s[|s| - 1])
  }

  /** The blocks of a yard, sorted by code (block_repository.go, GetByYardID). */
  function BlocksOfYard(ref: Reference, yardId: int): (r: seq<Block>)
    ensures forall b :: b in r <==> b in ref.blocks && b.yardId == yardId
    ensures SortedByCode(r)
  {
    var listed := Filter(ref.blocks, (b: Block) => b.yardId == yardId);
    var r := SortByCode(listed);
    assert forall b :: b in r <==> b in listed by {
      forall b ensures b in r <==> b in listed {
        assert b in r <==> b in multiset(r);
        assert b in listed <==> b in multiset(listed);
      }
    }
    r
  }

  /** The block of a yard with the given code (block_repository.go, GetByYardAndCode). */
  function BlockByCode(ref: Reference, yardId: int, code: string): (r: Option<Block>)
    ensures r.Some? ==> r.value in ref.blocks && r.value.yardId == yardId && r.value.code == code
    ensures r.None? <==> forall b :: b in ref.blocks ==> b.yardId != yardId || b.code != code
  {
    FirstMatch(ref.blocks, (b: Block) => b.yardId == yardId && b.code == code)
  }

  /** The first plan of a block bound to exactly this spec (yard_plan_repository.go, FindMatchingPlan). */
  function MatchingPlan(ref: Reference, blockId: int, size: int, height: int, containerType: string): (r: Option<Plan>)
    ensures r.Some? ==> (r.value in ref.plans && r.value.blockId == blockId
      && r.value.size == size && r.value.height == height && r.value.containerType == containerType)
    ensures r.None? <==> forall p :: p in ref.plans ==>
      !(p.blockId == blockId && p.size == size && p.height == height && p.containerType == containerType)
  {
    FirstMatch(ref.plans, (p: Plan) =>
      p.blockId == blockId && p.size == size && p.height == height && p.containerType == containerType)
  }

  /** Yard ids identify yards. */
  ghost predicate UniqueYardIds(ref: Reference) {
    forall y1, y2 :: y1 in ref.yards && y2 in ref.yards && y1.id == y2.id ==> y1 == y2
  }

  /** Block ids identify blocks. */
  ghost predicate UniqueBlockIds(ref: Reference) {
    forall b1, b2 :: b1 in ref.blocks && b2 in ref.blocks && b1.id == b2.id ==> b1 == b2
  }

  /** Within a yard, a block code names one block. */
  ghost predicate UniqueBlockCodes(ref: Reference) {
    forall b1, b2 :: b1 in ref.blocks && b2 in ref.blocks && b1.yardId == b2.yardId && b1.code == b2.code ==> b1 == b2
  }

  /** Every plan's rectangle lies inside the bounds of its block. */
  ghost predicate PlansInsideBlocks(ref: Reference) {
    forall p, b :: p in ref.plans && b in ref.blocks && b.id == p.blockId ==>
      1 <= p.slotStart && p.slotEnd <= b.maxSlot && 1 <= p.rowStart && p.rowEnd <= b.maxRow
  }

  /** What the reference data's keys and constraints guarantee. */
  ghost predicate WellFormed(ref: Reference) {
    UniqueYardIds(ref) && UniqueBlockIds(ref) && UniqueBlockCodes(ref) && PlansInsideBlocks(ref)
  }
}

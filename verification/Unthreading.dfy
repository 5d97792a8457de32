/** Taking an endpoint out of the interrupt chains.

    While slots are being visited, the cells that lead from a visited slot to the endpoint already skip
    it and the others still hold the old schedule. */
module Unthreading {
  import opened BitReverse
  import opened LoadBalance
  import opened SlotOrder
  import opened OhciTypes
  import opened Schedule
  import opened Threading
  import opened Sequences

  /** The last entry before x that serves slot s, or -1. */
  ghost function LastBefore(q: seq<Entry>, x: nat, s: nat): (l: int)
    requires x <= |q|
    ensures -1 <= l < x
  {
    if x == 0 then -1 else if s in q[x - 1].slots then x - 1 else LastBefore(q, x - 1, s)
  }

  ghost predicate IsLast(q: seq<Entry>, x: nat, s: nat, l: int)
    requires x <= |q|
  {
    -1 <= l < x && (l >= 0 ==> s in q[l].slots) && NoneCovers(q, l + 1, x, s)
  }

  lemma {:induction false} LastBeforeIsLast(q: seq<Entry>, x: nat, s: nat)
    requires x <= |q|
    ensures IsLast(q, x, s, LastBefore(q, x, s))
  {
    if x > 0 && s !in q[x - 1].slots {
      LastBeforeIsLast(q, x - 1, s);
    }
  }

  lemma {:induction false} LastIsUnique(q: seq<Entry>, x: nat, s: nat, l: int)
    requires x <= |q| && IsLast(q, x, s, l)
    ensures LastBefore(q, x, s) == l
  {
    LastBeforeIsLast(q, x, s);
  }

  /** Exactly the last entry before x has x as its successor. */
  lemma {:induction false} SuccessorOfLast(q: seq<Entry>, x: nat, j: nat, s: nat)
    requires j <= x < |q| && s in q[x].slots
    ensures First(q, j, s) == x <==> LastBefore(q, x, s) < j
  {
    LastBeforeIsLast(q, x, s);
    FirstCovers(q, j, s);
    if LastBefore(q, x, s) < j {
      FirstIs(q, j, s, x);
    }
  }

  /** The cell after position j in slot s; if it has been skipped, it leads past x. */
  ghost function SkipCell(q: seq<Entry>, x: nat, j: nat, s: nat, skipped: bool): Ed?
    requires j <= |q| && x < |q|
  {
    var f := First(q, j, s);
    if skipped && f == x then EdAt(q, First(q, x + 1, s)) else EdAt(q, f)
  }

  ghost predicate SkipHeadedAt(table: array<Ed?>, q: seq<Entry>, x: nat, visited: set<nat>, s: nat)
    requires x < |q| && s < table.Length
    reads table
  {
    table[s] == SkipCell(q, x, 0, s, s in visited)
  }

  ghost predicate SkipLinkedAt(q: seq<Entry>, x: nat, visited: set<nat>, j: nat)
    requires x < |q| && j < |q|
    reads q[j].ed`hwNextED
  {
    q[j].ed.hwNextED == SkipCell(q, x, j + 1, q[j].branch, !(q[j].slots !! visited))
  }

  ghost predicate SkipThreaded(table: array<Ed?>, q: seq<Entry>, x: nat, visited: set<nat>)
    requires x < |q|
    reads table, Eds(q)`hwNextED
  {
    && table.Length == SLOTS
    && (forall s: nat :: s < SLOTS ==> SkipHeadedAt(table, q, x, visited, s))
    && (forall j :: 0 <= j < |q| ==> SkipLinkedAt(q, x, visited, j))
  }

  lemma {:induction false} BeforeRemoval(table: array<Ed?>, q: seq<Entry>, x: nat)
    requires Headed(table, q) && Linked(q) && x < |q|
    ensures SkipThreaded(table, q, x, {})
  {
    forall s: nat | s < SLOTS
      ensures SkipHeadedAt(table, q, x, {}, s)
    {
      assert HeadedAt(table, q, s);
    }
    forall j | 0 <= j < |q|
      ensures SkipLinkedAt(q, x, {}, j)
    {
      assert LinkedAt(q, j);
    }
  }

  /** Visiting s changes the table cell of s only, and only if s has no entry before x. */
  lemma {:induction false} VisitAtTable(q: seq<Entry>, x: nat, visited: set<nat>, s: nat, t: nat)
    requires x < |q| && s in q[x].slots
    ensures SkipCell(q, x, 0, t, t in visited + {s})
         == if t == s && LastBefore(q, x, s) < 0 then EdAt(q, First(q, x + 1, s))
            else SkipCell(q, x, 0, t, t in visited)
  {
    SuccessorOfLast(q, x, 0, s);
  }

  /** Visiting s changes no entry but the last one before x that serves s. */
  lemma {:induction false} VisitAtEntry(q: seq<Entry>, x: nat, visited: set<nat>, s: nat, j: nat)
    requires WellFormed(q) && x < |q| && s in q[x].slots && j < |q|
    ensures SkipCell(q, x, j + 1, q[j].branch, !(q[j].slots !! (visited + {s})))
         == if j == LastBefore(q, x, s) then EdAt(q, First(q, x + 1, s))
            else SkipCell(q, x, j + 1, q[j].branch, !(q[j].slots !! visited))
  {
    var l := LastBefore(q, x, s);
    LastBeforeIsLast(q, x, s);
    if j < x && s in q[j].slots {
      assert EntryOk(q, j);
      SharedFirst(q, j, s, q[j].branch);
      SuccessorOfLast(q, x, j + 1, s);
      if j == l {
        assert q[j].branch in q[x].slots by {
          FirstCovers(q, j + 1, q[j].branch);
        }
        assert EntryOk(q, x) && PairOk(q, j, x);
        SharedFirst(q, x, s, q[j].branch);
      }
    }
  }

  // ---------- from the old schedule to the new one

  lemma {:induction false} FirstAfterRemove(q: seq<Entry>, x: nat, j: nat, s: nat)
    requires x < |q| && j <= |q|
    ensures j <= x ==>
      EdAt(Without(q, x), First(Without(q, x), j, s)) == SkipCell(q, x, j, s, true)
    ensures x < j ==> EdAt(Without(q, x), First(Without(q, x), j - 1, s)) == EdAt(q, First(q, j, s))
  {
    var q', f, g := Without(q, x), First(q, j, s), First(q, x + 1, s);
    FirstCovers(q, j, s);
    FirstCovers(q, x + 1, s);
    if j <= x {
      FirstIs(q', j, s, if f < x then f else if f == x then g - 1 else f - 1);
    } else {
      FirstIs(q', j - 1, s, f - 1);
    }
  }

  lemma {:induction false} RemoveWellFormed(q: seq<Entry>, x: nat)
    requires WellFormed(q) && x < |q|
    ensures WellFormed(Without(q, x))
  {
    var q' := Without(q, x);
    forall i | 0 <= i < |q'|
      ensures EntryOk(q', i)
    {
      assert EntryOk(q, if i < x then i else i + 1);
    }
    forall i, j | 0 <= i < j < |q'|
      ensures PairOk(q', i, j)
    {
      assert PairOk(q, if i < x then i else i + 1, if j < x then j else j + 1);
    }
  }

  /** Once every slot of the endpoint has been visited, the chains are those of the shorter schedule. */
  lemma {:induction false} AfterRemoval(table: array<Ed?>, q: seq<Entry>, x: nat, visited: set<nat>)
    requires WellFormed(q) && x < |q| && SkipThreaded(table, q, x, visited) && q[x].slots <= visited
    ensures Headed(table, Without(q, x)) && Linked(Without(q, x))
  {
    var q' := Without(q, x);
    forall s: nat | s < SLOTS
      ensures HeadedAt(table, q', s)
    {
      assert SkipHeadedAt(table, q, x, visited, s);
      FirstAfterRemove(q, x, 0, s);
      FirstCovers(q, 0, s);
    }
    forall j | 0 <= j < |q'|
      ensures LinkedAt(q', j)
    {
      var i := if j < x then j else j + 1;
      assert SkipLinkedAt(q, x, visited, i) && EntryOk(q, i);
      FirstAfterRemove(q, x, i + 1, q[i].branch);
      FirstCovers(q, i + 1, q[i].branch);
    }
  }

  // ---------- one slot

  /** Where the walk of slot s stands: before position j, with `last` the last entry passed. */
  ghost predicate At(q: seq<Entry>, s: nat, j: nat, last: int, cur: Ed?) {
    j <= |q| && IsLast(q, j, s, last) && cur == EdAt(q, First(q, j, s))
  }

  lemma {:induction false} StepTo(q: seq<Entry>, s: nat, j: nat, last: int, cur: Ed)
    requires At(q, s, j, last, cur)
    ensures First(q, j, s) < |q| && q[First(q, j, s)].ed == cur && s in q[First(q, j, s)].slots
    ensures IsLast(q, First(q, j, s) + 1, s, First(q, j, s))
  {
    FirstCovers(q, j, s);
  }

  /** Before x the walk meets x at the latest, and when it does it came from the last entry before x. */
  lemma {:induction false} MeetsX(q: seq<Entry>, x: nat, s: nat, j: nat, last: int, cur: Ed?)
    requires At(q, s, j, last, cur) && j <= x < |q| && s in q[x].slots
    ensures First(q, j, s) <= x
    ensures First(q, j, s) == x ==> last == LastBefore(q, x, s)
  {
    FirstCovers(q, j, s);
    if First(q, j, s) == x {
      LastIsUnique(q, x, s, last);
    }
  }

  lemma {:induction false} DistinctEds(q: seq<Entry>, i: nat, j: nat)
    requires WellFormed(q) && i < |q| && j < |q| && i != j
    ensures q[i].ed != q[j].ed
  {
    assert PairOk(q, if i < j then i else j, if i < j then j else i);
  }

  /** What an entry that serves s points to: the next entry that serves s, or past x if skipped. */
  lemma {:induction false} LinkInSlot(q: seq<Entry>, x: nat, visited: set<nat>, s: nat, f: nat)
    requires WellFormed(q) && x < |q| && f < |q| && SkipLinkedAt(q, x, visited, f)
    requires s in q[x].slots && s in q[f].slots
    ensures q[f].ed.hwNextED == SkipCell(q, x, f + 1, s, !(q[f].slots !! visited))
  {
    assert EntryOk(q, f) && EntryOk(q, x);
    SharedFirst(q, f, s, q[f].branch);
    if First(q, f + 1, s) == x {
      FirstCovers(q, f + 1, q[f].branch);
      SharedFirst(q, x, s, q[f].branch);
    }
  }

  /** Makes the cell through which slot s reaches x skip x. */
  method SkipInSlot(table: array<Ed?>, ed: Ed, s: nat, pred: Ed?,
                    ghost q: seq<Entry>, ghost x: nat, ghost visited: set<nat>)
    requires WellFormed(q) && x < |q| && SkipThreaded(table, q, x, visited)
    requires s < SLOTS && s in q[x].slots && q[x].ed == ed
    requires pred == if LastBefore(q, x, s) < 0 then null else q[LastBefore(q, x, s)].ed
    modifies table, Eds(q)`hwNextED
    ensures SkipThreaded(table, q, x, visited + {s})
    ensures ed.hwNextED == old(ed.hwNextED)
  {
    assert SkipLinkedAt(q, x, visited, x) && EntryOk(q, x);
    SharedFirst(q, x, s, q[x].branch);
    FirstCovers(q, x + 1, s);
    ghost var l := LastBefore(q, x, s);
    if l >= 0 {
      DistinctEds(q, l, x);
    }
    if pred == null {
      table[s] := ed.hwNextED;
    } else {
      pred.hwNextED := ed.hwNextED;
    }
    forall t: nat | t < SLOTS
      ensures SkipHeadedAt(table, q, x, visited + {s}, t)
    {
      assert old(SkipHeadedAt(table, q, x, visited, t));
      VisitAtTable(q, x, visited, s, t);
    }
    forall j | 0 <= j < |q|
      ensures SkipLinkedAt(q, x, visited + {s}, j)
    {
      assert old(SkipLinkedAt(q, x, visited, j));
      VisitAtEntry(q, x, visited, s, j);
      if l >= 0 && j != l {
        DistinctEds(q, j, l);
      }
    }
  }

  /** If another slot has already made the last entry before x skip x, slot s needs no change. */
  lemma {:induction false} AlreadySkipped(table: array<Ed?>, q: seq<Entry>, x: nat, visited: set<nat>, s: nat)
    requires WellFormed(q) && x < |q| && SkipThreaded(table, q, x, visited) && s in q[x].slots
    requires LastBefore(q, x, s) >= 0 && !(q[LastBefore(q, x, s)].slots !! visited)
    ensures SkipThreaded(table, q, x, visited + {s})
  {
    var l := LastBefore(q, x, s);
    LastBeforeIsLast(q, x, s);
    forall t: nat | t < SLOTS
      ensures SkipHeadedAt(table, q, x, visited + {s}, t)
    {
      assert SkipHeadedAt(table, q, x, visited, t);
      VisitAtTable(q, x, visited, s, t);
    }
    forall j | 0 <= j < |q|
      ensures SkipLinkedAt(q, x, visited + {s}, j)
    {
      assert SkipLinkedAt(q, x, visited, j);
      VisitAtEntry(q, x, visited, s, j);
      if j == l {
        LinkInSlot(q, x, visited, s, l);
        SuccessorOfLast(q, x, l + 1, s);
      }
    }
  }

  ghost predicate SkippedFor(q: seq<Entry>, x: nat, visited: set<nat>, s: nat)
    requires x <= |q|
  {
    LastBefore(q, x, s) >= 0 && !(q[LastBefore(q, x, s)].slots !! visited)
  }

  /** One step of the walk.  If it jumps over x, that is because the cell already skips x. */
  lemma {:induction false} NextStop(q: seq<Entry>, x: nat, visited: set<nat>, s: nat, f: nat)
    requires WellFormed(q) && x < |q| && f < |q| && f != x && SkipLinkedAt(q, x, visited, f)
    requires s in q[x].slots && s in q[f].slots
    ensures var over := f < x && First(q, f + 1, s) == x && !(q[f].slots !! visited);
      && (over ==> SkippedFor(q, x, visited, s) && At(q, s, x + 1, x, q[f].ed.hwNextED))
      && (!over ==> At(q, s, f + 1, f, q[f].ed.hwNextED))
  {
    LinkInSlot(q, x, visited, s, f);
    if f < x {
      SuccessorOfLast(q, x, f + 1, s);
      LastBeforeIsLast(q, x, s);
    }
  }

  /** Follows the chain of slot s until it finds ed; returns what leads to it (null for the table). */
  method SearchSlot(table: array<Ed?>, ed: Ed, s: nat,
                    ghost q: seq<Entry>, ghost x: nat, ghost visited: set<nat>)
    returns (found: bool, pred: Ed?)
    requires WellFormed(q) && x < |q| && SkipThreaded(table, q, x, visited)
    requires s < SLOTS && s in q[x].slots && s !in visited && q[x].ed == ed
    ensures found ==> pred == if LastBefore(q, x, s) < 0 then null else q[LastBefore(q, x, s)].ed
    ensures !found ==> SkippedFor(q, x, visited, s)
  {
    pred := null;
    assert SkipHeadedAt(table, q, x, visited, s);
    var cur := table[s];
    ghost var j, last := 0, -1;
    while cur != null && cur != ed
      invariant At(q, s, j, last, cur)
      invariant if j <= x then pred == (if last < 0 then null else q[last].ed) else SkippedFor(q, x, visited, s)
      decreases |q| - j
    {
      ghost var f := First(q, j, s);
      StepTo(q, s, j, last, cur);
      assert SkipLinkedAt(q, x, visited, f);
      NextStop(q, x, visited, s, f);
      if j <= x {
        MeetsX(q, x, s, j, last, cur);
      }
      pred, cur := cur, cur.hwNextED;
      last, j := f, f + 1;
      if f < x && First(q, f + 1, s) == x && !(q[f].slots !! visited) {
        last, j := x, x + 1;
      }
    }
    found := cur != null;
    if j <= x {
      MeetsX(q, x, s, j, last, cur);
    }
    if found {
      StepTo(q, s, j, last, cur);
      if First(q, j, s) != x {
        DistinctEds(q, First(q, j, s), x);
      }
    }
  }

  /** Takes ed out of the chains of all 32 slots, one slot after the other. */
  method UnthreadEverywhere(table: array<Ed?>, ed: Ed, ghost q: seq<Entry>, ghost x: nat)
    requires WellFormed(q) && x < |q| && Headed(table, q) && Linked(q) && q[x].ed == ed
    requires q[x].slots == SlotsOf(0, 0)
    modifies table, Eds(q)`hwNextED
    ensures Headed(table, Without(q, x)) && Linked(Without(q, x))
    ensures ed.hwNextED == old(ed.hwNextED)
  {
    BeforeRemoval(table, q, x);
    assert Visited(0, 0, 0) == {};
    AllSlots();
    for i := 0 to SLOTS
      invariant SkipThreaded(table, q, x, Visited(0, 0, i))
      invariant ed.hwNextED == old(ed.hwNextED)
    {
      var s := SlotForVisit(0, i);
      SlotAtInClass(0, 0, i);
      VisitOne(0, 0, i);
      var found, pred := SearchSlot(table, ed, s, q, x, Visited(0, 0, i));
      if found {
        SkipInSlot(table, ed, s, pred, q, x, Visited(0, 0, i));
      } else {
        AlreadySkipped(table, q, x, Visited(0, 0, i), s);
      }
    }
    forall s | s in q[x].slots
      ensures s in Visited(0, 0, SLOTS)
    {
      VisitedAll(0, 0, SLOTS, s);
    }
    AfterRemoval(table, q, x, Visited(0, 0, SLOTS));
  }

  lemma {:induction false} AllSlots()
    ensures Visits(0) == SLOTS && Pow2(0) == 1
  {
    SlotCount();
  }

  // ---------- the interrupt case: a stride taken from the entry stepped onto

  /** The first visit from i on in which the endpoint is reached through another one. */
  ghost function FirstBehind(q: seq<Entry>, x: nat, i: nat): (b: nat)
    requires x < |q| && q[x].k <= LEVELS && i <= Visits(q[x].k)
    ensures i <= b <= Visits(q[x].k)
    decreases Visits(q[x].k) - i
  {
    if i == Visits(q[x].k) || LastBefore(q, x, SlotAt(q[x].branch, i)) >= 0 then i else FirstBehind(q, x, i + 1)
  }

  lemma {:induction false} HeadsBefore(q: seq<Entry>, x: nat, i: nat, v: nat)
    requires x < |q| && q[x].k <= LEVELS && i <= Visits(q[x].k) && i <= v < FirstBehind(q, x, i)
    ensures LastBefore(q, x, SlotAt(q[x].branch, v)) < 0
    decreases Visits(q[x].k) - i
  {
    if i < v {
      HeadsBefore(q, x, i + 1, v);
    }
  }

  ghost predicate SamePredecessor(q: seq<Entry>, x: nat, v: nat, w: nat)
    requires x < |q|
  {
    LastBefore(q, x, SlotAt(q[x].branch, v)) == LastBefore(q, x, SlotAt(q[x].branch, w))
  }

  /** All visits from the first one behind another endpoint on reach x through that same endpoint. */
  ghost predicate OnePredecessor(q: seq<Entry>, x: nat)
    requires x < |q| && q[x].k <= LEVELS
  {
    forall v :: FirstBehind(q, x, 0) <= v < Visits(q[x].k) ==> SamePredecessor(q, x, FirstBehind(q, x, 0), v)
  }

  ghost predicate LeavesCleanly(q: seq<Entry>, x: nat) {
    x < |q| && q[x].k <= LEVELS && OnePredecessor(q, x)
  }

  /** What the driver's loop has visited when it stops: everything up to the first visit behind another
      endpoint, and that visit. */
  ghost function Touched(q: seq<Entry>, x: nat): set<nat>
    requires x < |q| && q[x].k <= LEVELS
  {
    Visited(q[x].k, q[x].branch, FirstBehind(q, x, 0) + 1)
  }

  /** A cell of an untouched slot leads to x only through an entry that touches no touched slot. */
  lemma {:induction false} TouchedSuffices(table: array<Ed?>, q: seq<Entry>, x: nat)
    requires WellFormed(q) && x < |q| && Proper(q[x]) && SkipThreaded(table, q, x, Touched(q, x))
    requires OnePredecessor(q, x)
    ensures SkipThreaded(table, q, x, q[x].slots)
  {
    forall s: nat | s < SLOTS
      ensures SkipHeadedAt(table, q, x, q[x].slots, s)
    {
      assert SkipHeadedAt(table, q, x, Touched(q, x), s);
      TouchedTable(q, x, s);
    }
    forall j | 0 <= j < |q|
      ensures SkipLinkedAt(q, x, q[x].slots, j)
    {
      assert SkipLinkedAt(q, x, Touched(q, x), j);
      TouchedEntry(q, x, j);
    }
  }

  lemma {:induction false} TouchedIsInside(q: seq<Entry>, x: nat)
    requires x < |q| && Proper(q[x])
    ensures Touched(q, x) <= q[x].slots
  {
  }

  lemma {:induction false} UntouchedIsBehind(q: seq<Entry>, x: nat, s: nat)
    requires x < |q| && Proper(q[x]) && OnePredecessor(q, x) && s in q[x].slots && s !in Touched(q, x)
    ensures FirstBehind(q, x, 0) < Visits(q[x].k)
    ensures LastBefore(q, x, s) == LastBefore(q, x, SlotAt(q[x].branch, FirstBehind(q, x, 0))) >= 0
  {
    var b, v := FirstBehind(q, x, 0), NumberOf(s, q[x].branch);
    NumberInRange(q[x].k, q[x].branch, s);
    assert SamePredecessor(q, x, b, v);
    FirstBehindIsBehind(q, x, 0);
  }

  lemma {:induction false} FirstBehindIsBehind(q: seq<Entry>, x: nat, i: nat)
    requires x < |q| && q[x].k <= LEVELS && i <= Visits(q[x].k)
    requires FirstBehind(q, x, i) < Visits(q[x].k)
    ensures LastBefore(q, x, SlotAt(q[x].branch, FirstBehind(q, x, i))) >= 0
    decreases Visits(q[x].k) - i
  {
    if LastBefore(q, x, SlotAt(q[x].branch, i)) < 0 {
      FirstBehindIsBehind(q, x, i + 1);
    }
  }

  lemma {:induction false} TouchedTable(q: seq<Entry>, x: nat, s: nat)
    requires WellFormed(q) && x < |q| && Proper(q[x]) && OnePredecessor(q, x)
    ensures SkipCell(q, x, 0, s, s in Touched(q, x)) == SkipCell(q, x, 0, s, s in q[x].slots)
  {
    TouchedIsInside(q, x);
    FirstCovers(q, 0, s);
    if s in q[x].slots && s !in Touched(q, x) {
      UntouchedIsBehind(q, x, s);
      SuccessorOfLast(q, x, 0, s);
    }
  }

  lemma {:induction false} TouchedEntry(q: seq<Entry>, x: nat, j: nat)
    requires WellFormed(q) && x < |q| && Proper(q[x]) && OnePredecessor(q, x) && j < |q|
    ensures SkipCell(q, x, j + 1, q[j].branch, !(q[j].slots !! Touched(q, x)))
         == SkipCell(q, x, j + 1, q[j].branch, !(q[j].slots !! q[x].slots))
  {
    TouchedIsInside(q, x);
    var s := q[j].branch;
    assert EntryOk(q, j);
    FirstCovers(q, j + 1, s);
    if First(q, j + 1, s) == x && q[j].slots !! Touched(q, x) {
      SuccessorOfLast(q, x, j + 1, s);
      LastBeforeIsLast(q, x, s);
      UntouchedIsBehind(q, x, s);
      var t := SlotAt(q[x].branch, FirstBehind(q, x, 0));
      LastBeforeIsLast(q, x, t);
      NextSlot(q[x], FirstBehind(q, x, 0));
      VisitOne(q[x].k, q[x].branch, FirstBehind(q, x, 0));
      assert false;
    }
  }

  /** An untouched slot that x heads keeps x. */
  lemma {:induction false} HeadStays(table: array<Ed?>, q: seq<Entry>, x: nat, s: nat)
    requires WellFormed(q) && x < |q| && Proper(q[x]) && SkipThreaded(table, q, x, Touched(q, x))
    requires s in q[x].slots && s < SLOTS && s !in Touched(q, x) && LastBefore(q, x, s) < 0
    ensures !Headed(table, Without(q, x))
  {
    SuccessorOfLast(q, x, 0, s);
    assert SkipHeadedAt(table, q, x, Touched(q, x), s);
    assert table[s] == q[x].ed;
    GoneFromTable(table, q, x, s);
  }

  /** An untouched predecessor keeps its link to x. */
  lemma {:induction false} LinkStays(table: array<Ed?>, q: seq<Entry>, x: nat, v: nat)
    requires WellFormed(q) && x < |q| && Proper(q[x]) && SkipThreaded(table, q, x, Touched(q, x))
    requires FirstBehind(q, x, 0) <= v < Visits(q[x].k) && !SamePredecessor(q, x, FirstBehind(q, x, 0), v)
    requires SlotAt(q[x].branch, v) in q[x].slots && LastBefore(q, x, SlotAt(q[x].branch, v)) >= 0
    ensures !Linked(Without(q, x))
  {
    var s := SlotAt(q[x].branch, v);
    var l := LastBefore(q, x, s);
    UntouchedPredecessor(q, x, v);
    assert SkipLinkedAt(q, x, Touched(q, x), l);
    LastBeforeIsLast(q, x, s);
    LinkInSlot(q, x, Touched(q, x), s, l);
    SuccessorOfLast(q, x, l + 1, s);
    assert q[l].ed.hwNextED == q[x].ed;
    GoneFromLinks(q, x, l);
  }

  /** If some visit reaches x in another way, some chain still contains x. */
  lemma {:induction false} TouchedFallsShort(table: array<Ed?>, q: seq<Entry>, x: nat)
    requires WellFormed(q) && x < |q| && Proper(q[x]) && SkipThreaded(table, q, x, Touched(q, x))
    requires !OnePredecessor(q, x)
    ensures !(Headed(table, Without(q, x)) && Linked(Without(q, x)))
  {
    var b := FirstBehind(q, x, 0);
    var v :| b <= v < Visits(q[x].k) && !SamePredecessor(q, x, b, v);
    var s := SlotAt(q[x].branch, v);
    NextSlot(q[x], v);
    SlotAtInClass(q[x].k, q[x].branch, v);
    if LastBefore(q, x, s) < 0 {
      assert s !in Touched(q, x);
      HeadStays(table, q, x, s);
    } else {
      LinkStays(table, q, x, v);
    }
  }

  lemma {:induction false} EdAtRemoved(q: seq<Entry>, x: nat, f: nat)
    requires WellFormed(q) && x < |q|
    ensures EdAt(Without(q, x), f) != q[x].ed
  {
    if f < |q| - 1 {
      DistinctEds(q, if f < x then f else f + 1, x);
    }
  }

  lemma {:induction false} GoneFromTable(table: array<Ed?>, q: seq<Entry>, x: nat, s: nat)
    requires WellFormed(q) && x < |q| && s < table.Length && table[s] == q[x].ed && s < SLOTS
    ensures !Headed(table, Without(q, x))
  {
    EdAtRemoved(q, x, First(Without(q, x), 0, s));
    assert table.Length == SLOTS ==> !HeadedAt(table, Without(q, x), s);
  }

  lemma {:induction false} GoneFromLinks(q: seq<Entry>, x: nat, l: nat)
    requires WellFormed(q) && l < x < |q| && q[l].ed.hwNextED == q[x].ed
    ensures !Linked(Without(q, x))
  {
    var q' := Without(q, x);
    assert q'[l] == q[l];
    EdAtRemoved(q, x, First(q', l + 1, q[l].branch));
    assert !LinkedAt(q', l);
  }

  /** A later visit's own predecessor serves none of the touched slots. */
  lemma {:induction false} UntouchedPredecessor(q: seq<Entry>, x: nat, v: nat)
    requires WellFormed(q) && x < |q| && Proper(q[x])
    requires FirstBehind(q, x, 0) <= v < Visits(q[x].k) && !SamePredecessor(q, x, FirstBehind(q, x, 0), v)
    requires LastBefore(q, x, SlotAt(q[x].branch, v)) >= 0
    ensures q[LastBefore(q, x, SlotAt(q[x].branch, v))].slots !! Touched(q, x)
  {
    var b, s := FirstBehind(q, x, 0), SlotAt(q[x].branch, v);
    var t := SlotAt(q[x].branch, b);
    var l, m := LastBefore(q, x, s), LastBefore(q, x, t);
    LastBeforeIsLast(q, x, s);
    LastBeforeIsLast(q, x, t);
    if l < m {
      assert PairOk(q, l, m);
    }
    forall u | u in q[l].slots && u in Touched(q, x)
      ensures false
    {
      NumberInRange(q[x].k, q[x].branch, u);
      var w := NumberOf(u, q[x].branch);
      if w < b {
        HeadsBefore(q, x, 0, w);
        LastBeforeIsLast(q, x, u);
        assert false;
      } else {
        assert false;
      }
    }
  }

  /** While only slots headed by x have been visited, no entry skips x yet. */
  ghost predicate OnlyHeads(q: seq<Entry>, x: nat, visited: set<nat>)
    requires x < |q|
  {
    forall j :: 0 <= j < x ==> q[j].slots !! visited
  }

  lemma {:induction false} HeadsTouchNoEntry(q: seq<Entry>, x: nat, i: nat)
    requires x < |q| && Proper(q[x]) && i <= FirstBehind(q, x, 0)
    ensures OnlyHeads(q, x, Visited(q[x].k, q[x].branch, i))
  {
    forall j | 0 <= j < x
      ensures q[j].slots !! Visited(q[x].k, q[x].branch, i)
    {
      forall u | u in q[j].slots && u in Visited(q[x].k, q[x].branch, i)
        ensures false
      {
        NumberInRange(q[x].k, q[x].branch, u);
        HeadsBefore(q, x, 0, NumberOf(u, q[x].branch));
        LastBeforeIsLast(q, x, u);
      }
    }
  }

  /** The driver's walk of slot s.  The stride is taken from the endpoint just stepped onto, so behind
      any other endpoint it is the stride of ed itself. */
  method WalkToEd(table: array<Ed?>, ed: Ed, s: nat,
                  ghost q: seq<Entry>, ghost x: nat, ghost visited: set<nat>)
    returns (pred: Ed?, stride: nat)
    requires WellFormed(q) && Labelled(q) && x < |q| && SkipThreaded(table, q, x, visited)
    requires OnlyHeads(q, x, visited)
    requires s < SLOTS && s in q[x].slots && s !in visited && q[x].ed == ed
    ensures pred == if LastBefore(q, x, s) < 0 then null else q[LastBefore(q, x, s)].ed
    ensures stride == if LastBefore(q, x, s) < 0 then 1 else Rev(LEVELS + 1, Pow2(q[x].k))
  {
    pred, stride := null, 1;
    assert SkipHeadedAt(table, q, x, visited, s);
    var cur := table[s];
    ghost var j, last := 0, -1;
    MeetsX(q, x, s, j, last, cur);
    NextOfX(q, x, visited, s);
    while cur != null && cur != ed.hwNextED
      invariant j <= x && At(q, s, j, last, cur) && First(q, j, s) <= x
      invariant pred == if last < 0 then null else q[last].ed
      invariant last >= 0 ==> stride == Rev(LEVELS + 1, Pow2(q[First(q, j, s)].k))
      invariant last < 0 ==> stride == 1
      decreases |q| - j
    {
      ghost var f := First(q, j, s);
      StepTo(q, s, j, last, cur);
      if cur == ed {
        if f != x {
          DistinctEds(q, f, x);
        }
        MeetsX(q, x, s, j, last, cur);
        return;
      }
      assert SkipLinkedAt(q, x, visited, f);
      NextStop(q, x, visited, s, f);
      pred, cur := cur, cur.hwNextED;
      last, j := f, f + 1;
      MeetsX(q, x, s, j, last, cur);
      assert LabelledAt(q, First(q, j, s));
      stride := ReverseBits(LEVELS + 1, cur.intInterval);
    }
    StopsAtX(q, x, visited, s, First(q, j, s));
    assert false;
  }

  lemma {:induction false} NextOfX(q: seq<Entry>, x: nat, visited: set<nat>, s: nat)
    requires WellFormed(q) && x < |q| && s in q[x].slots && SkipLinkedAt(q, x, visited, x)
    ensures q[x].ed.hwNextED == EdAt(q, First(q, x + 1, s))
  {
    assert EntryOk(q, x);
    SharedFirst(q, x, s, q[x].branch);
  }

  /** Up to x no endpoint equals the one behind x. */
  lemma {:induction false} StopsAtX(q: seq<Entry>, x: nat, visited: set<nat>, s: nat, f: nat)
    requires WellFormed(q) && f <= x < |q| && s in q[x].slots && SkipLinkedAt(q, x, visited, x)
    ensures q[f].ed != q[x].ed.hwNextED
  {
    NextOfX(q, x, visited, s);
    if First(q, x + 1, s) < |q| {
      DistinctEds(q, f, First(q, x + 1, s));
    }
  }

  lemma {:induction false} TouchedDecides(table: array<Ed?>, q: seq<Entry>, x: nat)
    requires WellFormed(q) && x < |q| && Proper(q[x]) && SkipThreaded(table, q, x, Touched(q, x))
    ensures Headed(table, Without(q, x)) && Linked(Without(q, x)) <==> OnePredecessor(q, x)
  {
    if OnePredecessor(q, x) {
      TouchedSuffices(table, q, x);
      AfterRemoval(table, q, x, q[x].slots);
    } else {
      TouchedFallsShort(table, q, x);
    }
  }

  // ---------- what the chains hold afterwards, cleanly unlinked or not

  /** The loop has rewritten the cell that leads slot s to x: the slot comes before the first visit behind another
      endpoint, or that same endpoint is in front of x in it. */
  ghost predicate Rewritten(q: seq<Entry>, x: nat, s: nat)
    requires x < |q| && q[x].k <= LEVELS
  {
    var b := FirstBehind(q, x, 0);
    || (exists v :: 0 <= v < b && SlotAt(q[x].branch, v) == s)
    || (b < Visits(q[x].k) && s in q[x].slots
        && LastBefore(q, x, s) == LastBefore(q, x, SlotAt(q[x].branch, b)))
  }

  /** Exactly the positions that serve s, in increasing order; but x only if its cell was not rewritten. */
  ghost predicate ServedBut(q: seq<Entry>, x: nat, s: nat, c: seq<nat>)
    requires x < |q| && q[x].k <= LEVELS
  {
    && Positions(q, c)
    && (forall a, b :: 0 <= a < b < |c| ==> c[a] < c[b])
    && forall i :: 0 <= i < |q| ==> (i in c <==> s in q[i].slots && (i == x ==> !Rewritten(q, x, s)))
  }

  /** The walk of slot s visits exactly the entries that serve it in schedule order, with x gone if the cell that led
      to it was rewritten, and in its place if not. */
  ghost predicate ChainAfter(table: array<Ed?>, q: seq<Entry>, x: nat, s: nat)
    requires x < |q| && q[x].k <= LEVELS && s < table.Length
    reads table, Eds(q)`hwNextED
  {
    exists c :: Positions(q, c) && Walk(table[s], q, c) && ServedBut(q, x, s, c)
  }

  ghost predicate ChainsAfter(table: array<Ed?>, q: seq<Entry>, x: nat)
    reads table, Eds(q)`hwNextED
  {
    table.Length == SLOTS && x < |q| && q[x].k <= LEVELS && forall s: nat :: s < SLOTS ==> ChainAfter(table, q, x, s)
  }

  /** Positions from j on that serve s; x only if it stays. */
  ghost function ServedOr(q: seq<Entry>, x: nat, j: nat, s: nat, stays: bool): seq<nat>
    requires j <= |q| && x < |q|
    decreases |q| - j
  {
    var f := First(q, j, s);
    if f == |q| then []
    else if f == x && !stays then ServedOr(q, x, f + 1, s, stays)
    else [f] + ServedOr(q, x, f + 1, s, stays)
  }

  lemma {:induction false} ServedOrIs(q: seq<Entry>, x: nat, j: nat, s: nat, stays: bool)
    requires j <= |q| && x < |q|
    ensures var c := ServedOr(q, x, j, s, stays);
            && Positions(q, c) && (forall i :: 0 <= i < |c| ==> j <= c[i])
            && (forall a, b :: 0 <= a < b < |c| ==> c[a] < c[b])
            && forall i :: j <= i < |q| ==> (i in c <==> s in q[i].slots && (i == x ==> stays))
    decreases |q| - j
  {
    var f := First(q, j, s);
    FirstCovers(q, j, s);
    if f < |q| {
      ServedOrIs(q, x, f + 1, s, stays);
    }
  }

  /** What the cell of an entry that serves s leads to, if x stays in s exactly when the cell leading to it was
      spared. */
  lemma {:induction false} NextInSlot(q: seq<Entry>, x: nat, visited: set<nat>, s: nat, f: nat, stays: bool)
    requires WellFormed(q) && x < |q| && f < |q| && s in q[f].slots && SkipLinkedAt(q, x, visited, f)
    requires s in q[x].slots && LastBefore(q, x, s) >= 0 ==>
               (stays <==> q[LastBefore(q, x, s)].slots !! visited)
    ensures q[f].ed.hwNextED == SkipCell(q, x, f + 1, s, !stays)
  {
    assert EntryOk(q, f);
    SharedFirst(q, f, s, q[f].branch);
    FirstCovers(q, f + 1, s);
    if First(q, f + 1, s) == x {
      LinkInSlot(q, x, visited, s, f);
      LastBeforeIsLast(q, x, s);
      SuccessorOfLast(q, x, f + 1, s);
    }
  }

  lemma {:induction false} WalkOr(q: seq<Entry>, x: nat, visited: set<nat>, j: nat, s: nat, stays: bool)
    requires WellFormed(q) && x < |q| && j <= |q| && forall i :: 0 <= i < |q| ==> SkipLinkedAt(q, x, visited, i)
    requires s in q[x].slots && LastBefore(q, x, s) >= 0 ==>
               (stays <==> q[LastBefore(q, x, s)].slots !! visited)
    ensures var c := ServedOr(q, x, j, s, stays);
            Positions(q, c) && Walk(SkipCell(q, x, j, s, !stays), q, c)
    decreases |q| - j
  {
    var f := First(q, j, s);
    FirstCovers(q, j, s);
    if f < |q| {
      WalkOr(q, x, visited, f + 1, s, stays);
      if f != x || stays {
        NextInSlot(q, x, visited, s, f, stays);
        var c, d := ServedOr(q, x, j, s, stays), ServedOr(q, x, f + 1, s, stays);
        forall i | 0 <= i < |c|
          ensures WalkAt(q, c, i)
        {
          if i > 0 {
            assert WalkAt(q, d, i - 1);
          }
        }
      } else {
        FirstCovers(q, x + 1, s);
      }
    }
  }

  /** Which slots come before the first visit behind another endpoint. */
  lemma {:induction false} VisitedEarly(q: seq<Entry>, x: nat, s: nat)
    requires x < |q| && Proper(q[x]) && s in q[x].slots
    ensures var v := NumberOf(s, q[x].branch);
            v < Visits(q[x].k) && SlotAt(q[x].branch, v) == s
    ensures (exists w :: 0 <= w < FirstBehind(q, x, 0) && SlotAt(q[x].branch, w) == s) <==>
            NumberOf(s, q[x].branch) < FirstBehind(q, x, 0)
    ensures LastBefore(q, x, s) >= 0 ==> NumberOf(s, q[x].branch) >= FirstBehind(q, x, 0)
  {
    var b, v := FirstBehind(q, x, 0), NumberOf(s, q[x].branch);
    NumberInRange(q[x].k, q[x].branch, s);
    forall w | 0 <= w < b && SlotAt(q[x].branch, w) == s
      ensures w == v
    {
      SlotAtInClass(q[x].k, q[x].branch, w);
    }
    if v < b {
      HeadsBefore(q, x, 0, v);
    }
  }

  /** In a slot that x heads, the loop has rewritten the cell if it has touched the slot. */
  lemma {:induction false} RewrittenHead(q: seq<Entry>, x: nat, s: nat)
    requires x < |q| && Proper(q[x]) && s in q[x].slots && LastBefore(q, x, s) < 0
    ensures Rewritten(q, x, s) <==> s in Touched(q, x)
  {
    var b, v := FirstBehind(q, x, 0), NumberOf(s, q[x].branch);
    VisitedEarly(q, x, s);
    if b < Visits(q[x].k) {
      FirstBehindIsBehind(q, x, 0);
    }
  }

  /** In another slot, if it has touched a slot of the entry in front of x. */
  lemma {:induction false} RewrittenBehind(q: seq<Entry>, x: nat, s: nat)
    requires WellFormed(q) && x < |q| && Proper(q[x]) && s in q[x].slots && LastBefore(q, x, s) >= 0
    ensures Rewritten(q, x, s) <==> !(q[LastBefore(q, x, s)].slots !! Touched(q, x))
  {
    var b, v := FirstBehind(q, x, 0), NumberOf(s, q[x].branch);
    VisitedEarly(q, x, s);
    assert SlotAt(q[x].branch, v) == s;
    if SamePredecessor(q, x, b, v) {
      LastBeforeIsLast(q, x, SlotAt(q[x].branch, b));
      NextSlot(q[x], b);
      VisitOne(q[x].k, q[x].branch, b);
    } else {
      UntouchedPredecessor(q, x, v);
    }
  }

  /** The chains when the loop ends. */
  lemma {:induction false} TouchedChains(table: array<Ed?>, q: seq<Entry>, x: nat)
    requires WellFormed(q) && x < |q| && Proper(q[x]) && SkipThreaded(table, q, x, Touched(q, x))
    ensures ChainsAfter(table, q, x)
  {
    forall s: nat | s < SLOTS
      ensures ChainAfter(table, q, x, s)
    {
      var stays := !Rewritten(q, x, s);
      assert SkipHeadedAt(table, q, x, Touched(q, x), s);
      if s in q[x].slots {
        if LastBefore(q, x, s) < 0 {
          RewrittenHead(q, x, s);
        } else {
          RewrittenBehind(q, x, s);
        }
        SuccessorOfLast(q, x, 0, s);
      }
      FirstCovers(q, 0, s);
      WalkOr(q, x, Touched(q, x), 0, s, stays);
      ServedOrIs(q, x, 0, s, stays);
      assert table[s] == SkipCell(q, x, 0, s, !stays);
      assert ServedBut(q, x, s, ServedOr(q, x, 0, s, stays));
    }
  }

  /** The state of the chains before visit i, or after the last one. */
  ghost predicate UnlinkedUpTo(table: array<Ed?>, q: seq<Entry>, x: nat, i: nat)
    requires x < |q| && q[x].k <= LEVELS
    reads table, Eds(q)`hwNextED
  {
    if i <= FirstBehind(q, x, 0) then SkipThreaded(table, q, x, Visited(q[x].k, q[x].branch, i))
    else i >= Visits(q[x].k) && SkipThreaded(table, q, x, Touched(q, x))
  }

  /** One pass of the driver's loop. */
  method VisitForUnlink(table: array<Ed?>, ed: Ed, branch: nat, i: nat, ghost q: seq<Entry>, ghost x: nat)
    returns (stride: nat)
    requires WellFormed(q) && Labelled(q) && x < |q| && Proper(q[x]) && q[x].ed == ed && branch == q[x].branch
    requires i < Visits(q[x].k) && i <= FirstBehind(q, x, 0)
    requires SkipThreaded(table, q, x, Visited(q[x].k, q[x].branch, i))
    modifies table, Eds(q)`hwNextED
    ensures stride > 0 && UnlinkedUpTo(table, q, x, i + stride) && ed.hwNextED == old(ed.hwNextED) && Labelled(q)
  {
    var s := SlotForVisit(branch, i);
    NextSlot(q[x], i);
    HeadsTouchNoEntry(q, x, i);
    VisitOne(q[x].k, q[x].branch, i);
    VisitOutcome(q, x, i);
    RevOfPow2(LEVELS, q[x].k);
    var pred;
    pred, stride := WalkToEd(table, ed, s, q, x, Visited(q[x].k, q[x].branch, i));
    SkipInSlot(table, ed, s, pred, q, x, Visited(q[x].k, q[x].branch, i));
    VisitMade(table, q, x, i, stride);
  }

  /** The driver's loop over the visits. */
  method UnlinkVisits(table: array<Ed?>, ed: Ed, branch: nat, visits: nat, ghost q: seq<Entry>, ghost x: nat)
    returns (i: nat)
    requires WellFormed(q) && Labelled(q) && x < |q| && Proper(q[x]) && q[x].ed == ed && branch == q[x].branch
    requires visits == Visits(q[x].k) && UnlinkedUpTo(table, q, x, 0)
    modifies table, Eds(q)`hwNextED
    ensures i >= visits && UnlinkedUpTo(table, q, x, i) && ed.hwNextED == old(ed.hwNextED)
  {
    i := 0;
    while i < visits
      invariant UnlinkedUpTo(table, q, x, i)
      invariant Labelled(q) && ed.hwNextED == old(ed.hwNextED)
    {
      var stride := VisitForUnlink(table, ed, branch, i, q, x);
      i := i + stride;
    }
  }

  /** Unlinks an interrupt endpoint the way the driver does.  The loop stops after the first visit
      behind another endpoint. */
  method UnthreadInterrupt(table: array<Ed?>, ed: Ed, ghost q: seq<Entry>, ghost x: nat)
    requires WellFormed(q) && Labelled(q) && x < |q| && Headed(table, q) && Linked(q) && q[x].ed == ed
    requires Proper(q[x]) && ed.kind == INT
    modifies table, Eds(q)`hwNextED
    ensures Headed(table, Without(q, x)) && Linked(Without(q, x)) <==> OnePredecessor(q, x)
    ensures ChainsAfter(table, q, x)
    ensures ed.hwNextED == old(ed.hwNextED)
  {
    assert LabelledAt(q, x);
    RevOfPow2(LEVELS, q[x].k);
    var visits := ReverseBits(LEVELS + 1, ed.intInterval);
    BeforeRemoval(table, q, x);
    assert Visited(q[x].k, q[x].branch, 0) == {};
    var i := UnlinkVisits(table, ed, ed.intBranch, visits, q, x);
    LoopDecides(table, q, x, i);
  }

  lemma {:induction false} LoopDecides(table: array<Ed?>, q: seq<Entry>, x: nat, i: nat)
    requires WellFormed(q) && x < |q| && Proper(q[x]) && i >= Visits(q[x].k) && UnlinkedUpTo(table, q, x, i)
    ensures Headed(table, Without(q, x)) && Linked(Without(q, x)) <==> OnePredecessor(q, x)
    ensures ChainsAfter(table, q, x)
  {
    if i <= FirstBehind(q, x, 0) {
      AllVisitedIsTouched(q, x);
    }
    TouchedDecides(table, q, x);
    TouchedChains(table, q, x);
  }

  lemma {:induction false} VisitMade(table: array<Ed?>, q: seq<Entry>, x: nat, i: nat, stride: nat)
    requires x < |q| && Proper(q[x]) && i < Visits(q[x].k) && i <= FirstBehind(q, x, 0)
    requires SkipThreaded(table, q, x, Visited(q[x].k, q[x].branch, i + 1))
    requires stride == if i < FirstBehind(q, x, 0) then 1 else Visits(q[x].k)
    ensures stride > 0 && UnlinkedUpTo(table, q, x, i + stride)
  {
  }

  lemma {:induction false} VisitOutcome(q: seq<Entry>, x: nat, i: nat)
    requires x < |q| && Proper(q[x]) && i < Visits(q[x].k) && i <= FirstBehind(q, x, 0)
    ensures LastBefore(q, x, SlotAt(q[x].branch, i)) < 0 <==> i < FirstBehind(q, x, 0)
  {
    if i < FirstBehind(q, x, 0) {
      HeadsBefore(q, x, 0, i);
    } else {
      FirstBehindIsBehind(q, x, 0);
    }
  }

  lemma {:induction false} AllVisitedIsTouched(q: seq<Entry>, x: nat)
    requires x < |q| && Proper(q[x]) && FirstBehind(q, x, 0) == Visits(q[x].k)
    ensures Touched(q, x) == Visited(q[x].k, q[x].branch, Visits(q[x].k))
  {
    forall s | s in q[x].slots
      ensures s in Visited(q[x].k, q[x].branch, Visits(q[x].k))
    {
      VisitedAll(q[x].k, q[x].branch, Visits(q[x].k), s);
    }
  }

  /** Unlinking is clean when nothing is in front of the endpoint in any of its slots, and when the same
      endpoint is in front of it in all of them. */
  lemma {:induction false} CleanCases(q: seq<Entry>, x: nat, l: int)
    requires x < |q| && Proper(q[x])
    requires forall s :: s in q[x].slots ==> LastBefore(q, x, s) == l
    ensures LeavesCleanly(q, x)
  {
    forall v | FirstBehind(q, x, 0) <= v < Visits(q[x].k)
      ensures SamePredecessor(q, x, FirstBehind(q, x, 0), v)
    {
      NextSlot(q[x], v);
      NextSlot(q[x], FirstBehind(q, x, 0));
    }
  }
}

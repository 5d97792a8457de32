/** Linking an endpoint into all the chains of its residue class.

    While the driver walks the class, the cells of the visited slots already point to the new endpoint
    and the others still hold the old schedule.  MidCell describes that state for any set of visited
    slots; one pass of the driver's loop moves it from `done` to `done + block`. */
module Threading {
  import opened BitReverse
  import opened LoadBalance
  import opened SlotOrder
  import opened OhciTypes
  import opened Schedule

  /** The cell that follows position j in slot s, when the new endpoint goes to position p. */
  ghost function MidCell(q: seq<Entry>, p: nat, j: nat, s: nat, done: set<nat>, ed: Ed): Ed?
    requires j <= |q|
  {
    if s in done && j <= p && First(q, j, s) >= p then ed else EdAt(q, First(q, j, s))
  }

  ghost predicate MidHeadedAt(table: array<Ed?>, q: seq<Entry>, p: nat, done: set<nat>, ed: Ed, s: nat)
    requires s < table.Length
    reads table
  {
    table[s] == MidCell(q, p, 0, s, done, ed)
  }

  ghost predicate MidLinkedAt(q: seq<Entry>, p: nat, done: set<nat>, ed: Ed, j: nat)
    requires j < |q|
    reads q[j].ed`hwNextED
  {
    q[j].ed.hwNextED == MidCell(q, p, j + 1, q[j].branch, done, ed)
  }

  ghost predicate MidThreaded(table: array<Ed?>, q: seq<Entry>, p: nat, done: set<nat>, ed: Ed)
    reads table, Eds(q)`hwNextED
  {
    && table.Length == SLOTS
    && (forall s: nat :: s < SLOTS ==> MidHeadedAt(table, q, p, done, ed, s))
    && (forall j :: 0 <= j < |q| ==> MidLinkedAt(q, p, done, ed, j))
  }

  ghost predicate FitsAt(q: seq<Entry>, p: nat, e: Entry, j: nat)
    requires j < |q|
  {
    && q[j].ed != e.ed
    && if j < p then q[j].k >= e.k && Nested(q[j].slots, e.slots) else e.k > q[j].k && Nested(e.slots, q[j].slots)
  }

  /** e may be inserted at position p of q. */
  ghost predicate Fits(q: seq<Entry>, p: nat, e: Entry) {
    && p <= |q|
    && EntryOk([e], 0)
    && (forall j :: 0 <= j < |q| ==> FitsAt(q, p, e, j))
  }

  function Insert(q: seq<Entry>, p: nat, e: Entry): seq<Entry>
    requires p <= |q|
  {
    q[..p] + [e] + q[p..]
  }

  /** No entry before p is visited in part. */
  ghost predicate WholeEntries(q: seq<Entry>, p: nat, done: set<nat>)
    requires p <= |q|
  {
    forall j :: 0 <= j < p ==> WholeAt(q, done, j)
  }

  ghost predicate WholeAt(q: seq<Entry>, done: set<nat>, j: nat)
    requires j < |q|
  {
    Nested(q[j].slots, done)
  }

  /** What one pass visits: the slot itself if nothing before p serves it, else all slots of the last
      entry before p that serves it. */
  ghost predicate IsBlock(q: seq<Entry>, p: nat, s: nat, block: set<nat>, last: int)
    requires p <= |q|
  {
    if last < 0 then block == {s} && NoneCovers(q, 0, p, s)
    else last < p && s in q[last].slots && block == q[last].slots && NoneCovers(q, last + 1, p, s)
  }

  lemma {:induction false} BlockKeepsEntriesWhole(q: seq<Entry>, p: nat, done: set<nat>, s: nat, block: set<nat>,
                                                  last: int)
    requires WellFormed(q) && p <= |q| && WholeEntries(q, p, done) && IsBlock(q, p, s, block, last)
    ensures WholeEntries(q, p, done + block)
  {
    forall j | 0 <= j < p
      ensures WholeAt(q, done + block, j)
    {
      assert WholeAt(q, done, j);
      if 0 <= last < j {
        assert PairOk(q, last, j);
        assert s !in q[j].slots;
      } else if j < last {
        assert PairOk(q, j, last);
      }
    }
  }

  /** One pass changes no table cell but its own slot's, and that only if no entry precedes. */
  lemma {:induction false} BlockAtTable(q: seq<Entry>, p: nat, done: set<nat>, s: nat, block: set<nat>, last: int,
                                        ed: Ed, t: nat)
    requires p <= |q| && IsBlock(q, p, s, block, last)
    ensures MidCell(q, p, 0, t, done + block, ed)
         == if last < 0 && t == s then ed else MidCell(q, p, 0, t, done, ed)
  {
    FirstCovers(q, 0, t);
  }

  /** One pass changes no entry's cell but that of the last entry before p. */
  lemma {:induction false} BlockAtEntry(q: seq<Entry>, p: nat, done: set<nat>, s: nat, block: set<nat>, last: int,
                                        ed: Ed, j: nat)
    requires WellFormed(q) && p <= |q| && IsBlock(q, p, s, block, last) && j < |q|
    ensures MidCell(q, p, j + 1, q[j].branch, done + block, ed)
         == if j == last then ed else MidCell(q, p, j + 1, q[j].branch, done, ed)
  {
    var b := q[j].branch;
    assert EntryOk(q, j);
    FirstCovers(q, j + 1, b);
    if j == last {
      SharedFirst(q, j, b, s);
      FirstCovers(q, j + 1, s);
    } else if 0 <= last < j {
      assert PairOk(q, last, j);
    }
  }

  // ---------- from the old schedule to the new one

  /** Where a search that used to end at f ends once e is at position p. */
  ghost function Shifted(p: nat, e: Entry, s: nat, f: nat): nat {
    if f < p then f else if s in e.slots then p else f + 1
  }

  lemma {:induction false} FirstAfterInsert(q: seq<Entry>, p: nat, e: Entry, j: nat, s: nat)
    requires p <= |q| && j <= |q|
    ensures j <= p ==> First(Insert(q, p, e), j, s) == Shifted(p, e, s, First(q, j, s))
    ensures p <= j ==> First(Insert(q, p, e), j + 1, s) == First(q, j, s) + 1
  {
    var q', f := Insert(q, p, e), First(q, j, s);
    FirstCovers(q, j, s);
    assert forall x :: 0 <= x < p ==> q'[x] == q[x];
    assert q'[p] == e;
    assert forall x :: p < x < |q'| ==> q'[x] == q[x - 1];
    if j <= p {
      FirstIs(q', j, s, Shifted(p, e, s, f));
    }
    if p <= j {
      FirstIs(q', j + 1, s, f + 1);
    }
  }

  lemma {:induction false} InsertWellFormed(q: seq<Entry>, p: nat, e: Entry)
    requires WellFormed(q) && Fits(q, p, e)
    ensures WellFormed(Insert(q, p, e))
  {
    var q' := Insert(q, p, e);
    forall i | 0 <= i < |q'|
      ensures EntryOk(q', i)
    {
      assert i != p ==> EntryOk(q, if i < p then i else i - 1);
    }
    forall i, j | 0 <= i < j < |q'|
      ensures PairOk(q', i, j)
    {
      var a, b := if i < p then i else i - 1, if j < p then j else j - 1;
      if i == p {
        assert FitsAt(q, p, e, b);
      } else if j == p {
        assert FitsAt(q, p, e, a);
      } else {
        assert PairOk(q, a, b);
      }
    }
  }

  lemma {:induction false} BeforeFirstVisit(table: array<Ed?>, q: seq<Entry>, p: nat, ed: Ed)
    requires Headed(table, q) && Linked(q)
    ensures MidThreaded(table, q, p, {}, ed)
  {
    forall s: nat | s < SLOTS
      ensures MidHeadedAt(table, q, p, {}, ed, s)
    {
      assert HeadedAt(table, q, s);
    }
    forall j | 0 <= j < |q|
      ensures MidLinkedAt(q, p, {}, ed, j)
    {
      assert LinkedAt(q, j);
    }
  }

  lemma {:induction false} TableAfterLastVisit(table: array<Ed?>, q: seq<Entry>, p: nat, e: Entry, s: nat)
    requires WellFormed(q) && Fits(q, p, e) && s < table.Length && MidHeadedAt(table, q, p, e.slots, e.ed, s)
    ensures HeadedAt(table, Insert(q, p, e), s)
  {
    FirstAfterInsert(q, p, e, 0, s);
  }

  lemma {:induction false} EntryAfterLastVisit(q: seq<Entry>, p: nat, e: Entry, j: nat)
    requires WellFormed(q) && Fits(q, p, e) && j < |q| && MidLinkedAt(q, p, e.slots, e.ed, j)
    ensures LinkedAt(Insert(q, p, e), if j < p then j else j + 1)
  {
    FirstAfterInsert(q, p, e, j + 1, q[j].branch);
  }

  lemma {:induction false} AfterLastVisit(table: array<Ed?>, q: seq<Entry>, p: nat, e: Entry)
    requires WellFormed(q) && Fits(q, p, e) && MidThreaded(table, q, p, e.slots, e.ed)
    requires e.ed.hwNextED == EdAt(q, First(q, p, e.branch))
    ensures Headed(table, Insert(q, p, e)) && Linked(Insert(q, p, e))
  {
    forall s: nat | s < SLOTS
      ensures HeadedAt(table, Insert(q, p, e), s)
    {
      assert MidHeadedAt(table, q, p, e.slots, e.ed, s);
      TableAfterLastVisit(table, q, p, e, s);
    }
    forall j | 0 <= j < |Insert(q, p, e)|
      ensures LinkedAt(Insert(q, p, e), j)
    {
      if j == p {
        FirstAfterInsert(q, p, e, p, e.branch);
      } else {
        var i := if j < p then j else j - 1;
        assert MidLinkedAt(q, p, e.slots, e.ed, i);
        EntryAfterLastVisit(q, p, e, i);
      }
    }
  }

  // ---------- the driver's loop

  ghost function SlotsOf(k: nat, branch: nat): set<nat> {
    set s: nat | s < SLOTS && InClass(s, k, branch)
  }

  /** An entry as the driver makes them: the slots are a residue class modulo 2^k. */
  ghost predicate Proper(e: Entry) {
    e.k <= LEVELS && e.branch < Pow2(e.k) && e.slots == SlotsOf(e.k, e.branch)
  }

  ghost predicate ProperAt(q: seq<Entry>, i: nat)
    requires i < |q|
  {
    Proper(q[i])
  }

  ghost predicate AllProper(q: seq<Entry>) {
    forall i :: 0 <= i < |q| ==> ProperAt(q, i)
  }

  lemma {:induction false} ProperHasBranch(e: Entry)
    requires Proper(e)
    ensures e.branch in e.slots
  {
    LowSmall(e.branch, e.k);
    SlotCount();
    Pow2Mono(e.k, LEVELS);
  }

  lemma {:induction false} ProperNested(a: Entry, b: Entry)
    requires Proper(a) && Proper(b) && a.k >= b.k
    ensures Nested(a.slots, b.slots)
  {
    if x :| x in a.slots && x in b.slots {
      forall y | y in a.slots
        ensures y in b.slots
      {
        SameHalf(x, y, a.k, b.k);
      }
    }
  }

  /** The slots of the last entry served before the new one are one finer class of the new class. */
  lemma {:induction false} LastIsFinerClass(a: Entry, e: Entry, s: nat)
    requires Proper(a) && Proper(e) && a.k >= e.k && s in a.slots && s in e.slots
    ensures a.slots == FinerClass(e.k, e.branch, a.k, s)
  {
    forall t | t in a.slots
      ensures t in FinerClass(e.k, e.branch, a.k, s)
    {
      SameHalf(s, t, a.k, e.k);
    }
  }

  ghost predicate OnSide(q: seq<Entry>, k: nat, p: nat, j: nat)
    requires j < |q|
  {
    j < p <==> q[j].k >= k
  }

  /** Where the entries with an interval of at least 2^k end. */
  ghost predicate IsPosition(q: seq<Entry>, k: nat, p: nat) {
    p <= |q| && forall j :: 0 <= j < |q| ==> OnSide(q, k, p, j)
  }

  lemma {:induction false} ProperFits(q: seq<Entry>, p: nat, e: Entry)
    requires AllProper(q) && Proper(e) && IsPosition(q, e.k, p)
    requires forall j :: 0 <= j < |q| ==> q[j].ed != e.ed
    ensures Fits(q, p, e)
  {
    ProperHasBranch(e);
    assert EntryOk([e], 0);
    forall j | 0 <= j < |q|
      ensures FitsAt(q, p, e, j)
    {
      assert ProperAt(q, j) && OnSide(q, e.k, p, j);
      if j < p {
        ProperNested(q[j], e);
      } else {
        ProperNested(e, q[j]);
      }
    }
  }

  /** What the walk of slot s has found when it stands before position j. */
  ghost predicate WalkedTo(q: seq<Entry>, p: nat, s: nat, j: nat, last: int)
    requires p <= |q|
  {
    && j <= p
    && (if last < 0 then NoneCovers(q, 0, j, s)
        else last < j && s in q[last].slots && NoneCovers(q, last + 1, j, s))
  }

  lemma {:induction false} IntervalOrder(a: nat, b: nat)
    ensures Pow2(a) >= Pow2(b) <==> a >= b
  {
    if a >= b {
      Pow2Mono(b, a);
    } else {
      Pow2Mono(a, b);
    }
  }

  /** The interval test of the driver's walk tells on which side of the new position an entry is. */
  lemma {:induction false} IntervalTest(q: seq<Entry>, k: nat, p: nat, f: nat)
    requires IsPosition(q, k, p) && f < |q| && LabelledAt(q, f)
    ensures q[f].ed.intInterval >= Pow2(k) <==> f < p
  {
    assert OnSide(q, k, p, f);
    IntervalOrder(q[f].k, k);
  }

  /** An entry that serves an unvisited slot still has its old link. */
  lemma {:induction false} OldLink(q: seq<Entry>, p: nat, done: set<nat>, ed: Ed, s: nat, f: nat)
    requires WellFormed(q) && f < p <= |q| && MidLinkedAt(q, p, done, ed, f) && WholeEntries(q, p, done)
    requires s in q[f].slots && s !in done
    ensures q[f].ed.hwNextED == EdAt(q, First(q, f + 1, s))
  {
    assert EntryOk(q, f) && WholeAt(q, done, f);
    SharedFirst(q, f, s, q[f].branch);
  }

  lemma {:induction false} WalkOn(q: seq<Entry>, p: nat, s: nat, j: nat, last: int)
    requires p <= |q| && WalkedTo(q, p, s, j, last) && First(q, j, s) < p
    ensures WalkedTo(q, p, s, First(q, j, s) + 1, First(q, j, s))
  {
    FirstCovers(q, j, s);
  }

  lemma {:induction false} WalkOver(q: seq<Entry>, p: nat, s: nat, j: nat, last: int)
    requires p <= |q| && WalkedTo(q, p, s, j, last) && First(q, j, s) >= p
    ensures WalkedTo(q, p, s, p, last) && First(q, p, s) == First(q, j, s)
  {
    FirstCovers(q, j, s);
    FirstIs(q, p, s, First(q, j, s));
  }

  /** How many visits the driver skips once the walk has passed entry `last` (none if negative). */
  ghost function StrideAfter(q: seq<Entry>, last: int): nat
    requires last < |q|
  {
    if last < 0 then 1 else Rev(LEVELS + 1, Pow2(q[last].k))
  }

  /** Walks the chain of slot s past every endpoint whose interval is at least that of the new one.
      Returns the endpoint whose cell is to be changed (null for the table cell), what that cell points
      to, and the stride to the next slot to visit. */
  method FindCell(table: array<Ed?>, interval: nat, s: nat,
                  ghost q: seq<Entry>, ghost p: nat, ghost k: nat, ghost ed: Ed, ghost done: set<nat>)
    returns (pred: Ed?, cur: Ed?, stride: nat, ghost last: int)
    requires WellFormed(q) && Labelled(q) && IsPosition(q, k, p) && interval == Pow2(k)
    requires MidThreaded(table, q, p, done, ed) && WholeEntries(q, p, done)
    requires s < SLOTS && s !in done
    ensures WalkedTo(q, p, s, p, last)
    ensures pred == if last < 0 then null else q[last].ed
    ensures cur == EdAt(q, First(q, p, s))
    ensures stride == StrideAfter(q, last)
  {
    pred, stride, last := null, 1, -1;
    ghost var j := 0;
    assert MidHeadedAt(table, q, p, done, ed, s);
    cur := table[s];
    while cur != null && cur.intInterval >= interval
      invariant WalkedTo(q, p, s, j, last)
      invariant cur == EdAt(q, First(q, j, s))
      invariant pred == if last < 0 then null else q[last].ed
      invariant stride == StrideAfter(q, last)
      decreases |q| - j
    {
      ghost var f := First(q, j, s);
      assert LabelledAt(q, f) && MidLinkedAt(q, p, done, ed, f);
      IntervalTest(q, k, p, f);
      WalkOn(q, p, s, j, last);
      OldLink(q, p, done, ed, s, f);
      stride := ReverseBits(LEVELS + 1, cur.intInterval);
      pred, cur := cur, cur.hwNextED;
      last, j := f, f + 1;
    }
    if cur != null {
      assert LabelledAt(q, First(q, j, s));
      IntervalTest(q, k, p, First(q, j, s));
    }
    WalkOver(q, p, s, j, last);
  }

  /** All slots of the new class see the same entries of shorter interval. */
  lemma {:induction false} SharedAfter(q: seq<Entry>, p: nat, e: Entry, s: nat)
    requires Fits(q, p, e) && s in e.slots
    ensures First(q, p, s) == First(q, p, e.branch)
  {
    var f := First(q, p, s);
    FirstCovers(q, p, s);
    forall x | p <= x < |q|
      ensures s in q[x].slots <==> e.branch in q[x].slots
    {
      assert FitsAt(q, p, e, x) && EntryOk([e], 0);
    }
    FirstIs(q, p, e.branch, f);
  }

  /** Points the cell that FindCell found to the new endpoint. */
  method WriteCell(table: array<Ed?>, s: nat, pred: Ed?, cur: Ed?, ed: Ed,
                   ghost q: seq<Entry>, ghost p: nat, ghost done: set<nat>, ghost block: set<nat>, ghost last: int)
    requires WellFormed(q) && p <= |q| && MidThreaded(table, q, p, done, ed) && Labelled(q)
    requires ed !in Eds(q) && s < SLOTS && IsBlock(q, p, s, block, last)
    requires pred == if last < 0 then null else q[last].ed
    modifies table, Eds(q)`hwNextED, ed`hwNextED
    ensures MidThreaded(table, q, p, done + block, ed) && ed.hwNextED == cur && Labelled(q)
  {
    ed.hwNextED := cur;
    if pred == null {
      table[s] := ed;
    } else {
      pred.hwNextED := ed;
    }
    forall t: nat | t < SLOTS
      ensures MidHeadedAt(table, q, p, done + block, ed, t)
    {
      assert old(MidHeadedAt(table, q, p, done, ed, t));
      BlockAtTable(q, p, done, s, block, last, ed, t);
    }
    forall j | 0 <= j < |q|
      ensures MidLinkedAt(q, p, done + block, ed, j)
    {
      assert old(MidLinkedAt(q, p, done, ed, j));
      BlockAtEntry(q, p, done, s, block, last, ed, j);
      if 0 <= last < j {
        assert PairOk(q, last, j);
      } else if j < last {
        assert PairOk(q, j, last);
      }
    }
  }

  lemma {:induction false} NotInSchedule(q: seq<Entry>, p: nat, e: Entry)
    requires Fits(q, p, e)
    ensures e.ed !in Eds(q)
  {
    forall j | 0 <= j < |q|
      ensures q[j].ed != e.ed
    {
      assert FitsAt(q, p, e, j);
    }
  }

  method SlotForVisit(branch: nat, i: nat) returns (s: nat)
    ensures s == SlotAt(branch, i)
  {
    s := ReverseBits(LEVELS, i);
    s := s + branch;
  }

  /** One pass of the driver's loop: visit number i. */
  method VisitSlot(table: array<Ed?>, ed: Ed, interval: nat, branch: nat, i: nat,
                   ghost q: seq<Entry>, ghost p: nat, ghost e: Entry)
    returns (stride: nat)
    requires WellFormed(q) && AllProper(q) && Labelled(q)
    requires Proper(e) && e.ed == ed && interval == Pow2(e.k) && branch == e.branch
    requires IsPosition(q, e.k, p) && Fits(q, p, e) && i < Visits(e.k)
    requires MidThreaded(table, q, p, Visited(e.k, branch, i), ed) && WholeEntries(q, p, Visited(e.k, branch, i))
    modifies table, Eds(q)`hwNextED, ed`hwNextED
    ensures stride > 0 && Labelled(q)
    ensures MidThreaded(table, q, p, Visited(e.k, branch, i + stride), ed)
    ensures WholeEntries(q, p, Visited(e.k, branch, i + stride))
    ensures ed.hwNextED == EdAt(q, First(q, p, branch))
  {
    var s := SlotForVisit(branch, i);
    NextSlot(e, i);
    var pred, cur;
    ghost var last;
    pred, cur, stride, last := FindCell(table, interval, s, q, p, e.k, ed, Visited(e.k, branch, i));
    SharedAfter(q, p, e, s);
    NotInSchedule(q, p, e);
    PassVisitsBlock(q, p, e, i, last);
    WriteCell(table, s, pred, cur, ed, q, p, Visited(e.k, branch, i), BlockOf(q, s, last), last);
  }

  /** Links ed, polled every `interval` frames at `branch`, into all chains of its residue class. */
  method ThreadEd(table: array<Ed?>, ed: Ed, interval: nat, branch: nat,
                  ghost q: seq<Entry>, ghost p: nat, ghost e: Entry)
    requires WellFormed(q) && AllProper(q) && Threaded(table, q)
    requires Proper(e) && e.ed == ed && interval == Pow2(e.k) && branch == e.branch
    requires IsPosition(q, e.k, p) && Fits(q, p, e)
    modifies table, Eds(q)`hwNextED, ed`hwNextED
    ensures Headed(table, Insert(q, p, e)) && Linked(Insert(q, p, e))
  {
    var i := 0;
    RevOfPow2(LEVELS, e.k);
    Pow2Mono(0, LEVELS - e.k);
    var visits := ReverseBits(LEVELS + 1, interval);
    BeforeFirstVisit(table, q, p, ed);
    assert Visited(e.k, branch, 0) == {};
    while i < visits
      invariant MidThreaded(table, q, p, Visited(e.k, branch, i), ed)
      invariant WholeEntries(q, p, Visited(e.k, branch, i)) && Labelled(q)
      invariant i > 0 ==> ed.hwNextED == EdAt(q, First(q, p, branch))
    {
      var stride := VisitSlot(table, ed, interval, branch, i, q, p, e);
      i := i + stride;
    }
    VisitedEverything(e, i);
    AfterLastVisit(table, q, p, e);
  }

  lemma {:induction false} VisitedEverything(e: Entry, i: nat)
    requires Proper(e) && i >= Visits(e.k)
    ensures Visited(e.k, e.branch, i) == e.slots
  {
    forall s | s in e.slots
      ensures s in Visited(e.k, e.branch, i)
    {
      VisitedAll(e.k, e.branch, i, s);
    }
  }

  ghost function BlockOf(q: seq<Entry>, s: nat, last: int): set<nat>
    requires last < |q|
  {
    if last < 0 then {s} else q[last].slots
  }

  lemma {:induction false} NextSlot(e: Entry, i: nat)
    requires Proper(e) && i < Visits(e.k)
    ensures SlotAt(e.branch, i) in e.slots && SlotAt(e.branch, i) < SLOTS
    ensures SlotAt(e.branch, i) !in Visited(e.k, e.branch, i)
  {
    SlotAtInClass(e.k, e.branch, i);
  }

  lemma {:induction false} PassVisitsBlock(q: seq<Entry>, p: nat, e: Entry, i: nat, last: int)
    requires WellFormed(q) && AllProper(q) && Proper(e) && IsPosition(q, e.k, p) && i < Visits(e.k)
    requires WholeEntries(q, p, Visited(e.k, e.branch, i))
    requires WalkedTo(q, p, SlotAt(e.branch, i), p, last)
    ensures IsBlock(q, p, SlotAt(e.branch, i), BlockOf(q, SlotAt(e.branch, i), last), last)
    ensures StrideAfter(q, last) > 0
    ensures Visited(e.k, e.branch, i + StrideAfter(q, last))
         == Visited(e.k, e.branch, i) + BlockOf(q, SlotAt(e.branch, i), last)
    ensures WholeEntries(q, p, Visited(e.k, e.branch, i + StrideAfter(q, last)))
  {
    var s := SlotAt(e.branch, i);
    StrideVisitsBlock(q, p, e, i, BlockOf(q, s, last), last);
    BlockKeepsEntriesWhole(q, p, Visited(e.k, e.branch, i), s, BlockOf(q, s, last), last);
  }

  /** The stride that FindCell returns skips exactly the slots whose chains the write has changed. */
  lemma {:induction false} StrideVisitsBlock(q: seq<Entry>, p: nat, e: Entry, i: nat, block: set<nat>, last: int)
    requires AllProper(q) && Proper(e) && IsPosition(q, e.k, p) && i < Visits(e.k)
    requires WholeEntries(q, p, Visited(e.k, e.branch, i))
    requires IsBlock(q, p, SlotAt(e.branch, i), block, last)
    ensures StrideAfter(q, last) > 0
    ensures Visited(e.k, e.branch, i + StrideAfter(q, last)) == Visited(e.k, e.branch, i) + block
  {
    VisitOne(e.k, e.branch, i);
    if last >= 0 {
      SlotAtInClass(e.k, e.branch, i);
      assert ProperAt(q, last) && OnSide(q, e.k, p, last) && WholeAt(q, Visited(e.k, e.branch, i), last);
      LastIsFinerClass(q[last], e, SlotAt(e.branch, i));
      VisitFinerClass(e.k, e.branch, q[last].k, i);
      RevOfPow2(LEVELS, q[last].k);
    }
  }
}

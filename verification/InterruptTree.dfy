/** The interrupt and isochronous endpoints of a controller: the 32-entry table of the HCCA, the load of
    every slot, and the tail of the isochronous list. */
module InterruptTree {
  import opened BitReverse
  import opened LoadBalance
  import opened OhciTypes
  import opened Schedule
  import opened Threading
  import opened Unthreading
  import opened Sequences

  /** Where an entry of interval 2^k is inserted: behind all entries of at least that interval. */
  ghost function PositionFor(q: seq<Entry>, k: nat, j: nat): (p: nat)
    requires j <= |q|
    ensures j <= p <= |q|
    decreases |q| - j
  {
    if j == |q| || q[j].k < k then j else PositionFor(q, k, j + 1)
  }

  lemma {:induction false} PositionSplits(q: seq<Entry>, k: nat, j: nat)
    requires j <= |q|
    ensures forall x :: j <= x < PositionFor(q, k, j) ==> q[x].k >= k
    ensures PositionFor(q, k, j) < |q| ==> q[PositionFor(q, k, j)].k < k
    decreases |q| - j
  {
    if j < |q| && q[j].k >= k {
      PositionSplits(q, k, j + 1);
    }
  }

  lemma {:induction false} PositionIsPosition(q: seq<Entry>, k: nat)
    requires WellFormed(q)
    ensures IsPosition(q, k, PositionFor(q, k, 0))
  {
    var p := PositionFor(q, k, 0);
    PositionSplits(q, k, 0);
    forall j | 0 <= j < |q|
      ensures OnSide(q, k, p, j)
    {
      if p < j {
        assert PairOk(q, p, j);
      }
    }
  }

  /** The schedule after linking e. */
  ghost function Link(q: seq<Entry>, e: Entry): seq<Entry> {
    Insert(q, PositionFor(q, e.k, 0), e)
  }

  /** Summed load of the entries that serve slot s. */
  ghost function LoadOf(q: seq<Entry>, s: nat): nat {
    if q == [] then 0 else LoadOf(q[..|q| - 1], s) + (if s in q[|q| - 1].slots then q[|q| - 1].load else 0)
  }

  lemma {:induction false} LoadOfSum(q: seq<Entry>, r: seq<Entry>, s: nat)
    ensures LoadOf(q + r, s) == LoadOf(q, s) + LoadOf(r, s)
  {
    if r == [] {
      assert q + r == q;
    } else {
      var t := r[..|r| - 1];
      assert (q + r)[..|q + r| - 1] == q + t;
      LoadOfSum(q, t, s);
    }
  }

  lemma {:induction false} LoadAfterInsert(q: seq<Entry>, p: nat, e: Entry, s: nat)
    requires p <= |q|
    ensures LoadOf(Insert(q, p, e), s) == LoadOf(q, s) + (if s in e.slots then e.load else 0)
  {
    assert q[..p] + q[p..] == q;
    LoadOfSum(q[..p], q[p..], s);
    LoadOfSum(q[..p] + [e], q[p..], s);
    LoadOfSum(q[..p], [e], s);
    assert [e][..0] == [];
  }

  ghost predicate AccountedAt(loads: seq<int>, q: seq<Entry>, lost: seq<Entry>, s: nat)
    requires s < |loads|
  {
    loads[s] == LoadOf(q, s) + LoadOf(lost, s)
  }

  ghost predicate Accounted(loads: seq<int>, q: seq<Entry>, lost: seq<Entry>) {
    |loads| == SLOTS && forall s: nat :: s < SLOTS ==> AccountedAt(loads, q, lost, s)
  }

  /** Entry j is isochronous exactly when it lies in the run of `count` entries from `from`; its back
      link is then the entry before it in the run. */
  ghost predicate IsoAt(q: seq<Entry>, from: nat, count: nat, j: nat)
    requires j < |q|
    reads q[j].ed`edPrev
  {
    && (q[j].ed.kind == ISO || q[j].ed.kind == INT)
    && (q[j].ed.kind == ISO <==> from <= j < from + count)
    && (from <= j < from + count ==>
          q[j].k == 0 && q[j].load == 0 && q[j].ed.edPrev == if j == from then null else q[j - 1].ed)
  }

  ghost predicate IsoRun(q: seq<Entry>, from: nat, count: nat, tail: Ed?)
    reads Eds(q)`edPrev
  {
    && from + count <= |q|
    && tail == (if count == 0 then null else q[from + count - 1].ed)
    && forall j :: 0 <= j < |q| ==> IsoAt(q, from, count, j)
  }

  /** Where the isochronous run starts after an insertion at p. */
  ghost function RunAfterInsert(p: nat, from: nat): nat {
    if p <= from then from + 1 else from
  }

  lemma {:induction false} IsoRunAfterInsert(q: seq<Entry>, from: nat, count: nat, tail: Ed?, p: nat, e: Entry)
    requires IsoRun(q, from, count, tail) && p <= |q| && e.ed.kind == INT
    requires count > 0 ==> p <= from || from + count <= p
    ensures IsoRun(Insert(q, p, e), RunAfterInsert(p, from), count, tail)
  {
    var q', from' := Insert(q, p, e), RunAfterInsert(p, from);
    forall j | 0 <= j < |q'|
      ensures IsoAt(q', from', count, j)
    {
      if j != p {
        assert IsoAt(q, from, count, if j < p then j else j - 1);
      }
    }
  }

  /** Interrupt endpoints never land inside the isochronous run. */
  lemma {:induction false} OutsideIsoRun(q: seq<Entry>, from: nat, count: nat, tail: Ed?, k: nat, p: nat)
    requires IsoRun(q, from, count, tail) && IsPosition(q, k, p) && count > 0
    ensures p <= from || from + count <= p
  {
    assert IsoAt(q, from, count, from) && OnSide(q, k, p, from);
    assert p < |q| ==> IsoAt(q, from, count, p) && OnSide(q, k, p, p);
  }

  lemma {:induction false} LabelledAfterInsert(q: seq<Entry>, p: nat, e: Entry)
    requires Labelled(q) && p <= |q| && LabelledAt([e], 0)
    ensures Labelled(Insert(q, p, e))
  {
    var q' := Insert(q, p, e);
    forall j | 0 <= j < |q'|
      ensures LabelledAt(q', j)
    {
      if j != p {
        assert LabelledAt(q, if j < p then j else j - 1);
      }
    }
  }

  lemma {:induction false} ProperAfterInsert(q: seq<Entry>, p: nat, e: Entry)
    requires AllProper(q) && Proper(e) && p <= |q|
    ensures AllProper(Insert(q, p, e))
  {
    var q' := Insert(q, p, e);
    forall j | 0 <= j < |q'|
      ensures ProperAt(q', j)
    {
      if j != p {
        assert ProperAt(q, if j < p then j else j - 1);
      }
    }
  }

  lemma {:induction false} AccountedAfterLink(loads: seq<int>, q: seq<Entry>, lost: seq<Entry>, e: Entry)
    requires Accounted(loads, q, lost) && Proper(e)
    ensures Accounted(Charge(loads, e.k, e.branch, e.load), Link(q, e), lost)
  {
    var after := Charge(loads, e.k, e.branch, e.load);
    forall s: nat | s < SLOTS
      ensures AccountedAt(after, Link(q, e), lost, s)
    {
      assert AccountedAt(loads, q, lost, s);
      LoadAfterInsert(q, PositionFor(q, e.k, 0), e, s);
    }
  }

  ghost predicate Structured(q: seq<Entry>, from: nat, count: nat, tail: Ed?)
    reads Eds(q)`edPrev, Eds(q)`intInterval, Eds(q)`intBranch, Eds(q)`intLoad
  {
    WellFormed(q) && AllProper(q) && Labelled(q) && IsoRun(q, from, count, tail)
  }

  lemma {:induction false} InsertKeepsStructure(q: seq<Entry>, from: nat, count: nat, tail: Ed?, p: nat, e: Entry)
    requires Structured(q, from, count, tail)
    requires IsPosition(q, e.k, p) && Fits(q, p, e) && Proper(e) && LabelledAt([e], 0) && e.ed.kind == INT
    ensures Structured(Insert(q, p, e), RunAfterInsert(p, from), count, tail)
  {
    InsertWellFormed(q, p, e);
    ProperAfterInsert(q, p, e);
    LabelledAfterInsert(q, p, e);
    if count > 0 {
      OutsideIsoRun(q, from, count, tail, e.k, p);
    }
    IsoRunAfterInsert(q, from, count, tail, p, e);
  }

  method ThreadInterrupt(table: array<Ed?>, ed: Ed,
                         ghost q: seq<Entry>, ghost from: nat, ghost count: nat, ghost tail: Ed?,
                         ghost p: nat, ghost e: Entry)
    requires Headed(table, q) && Linked(q) && Structured(q, from, count, tail)
    requires e.ed == ed && ed !in Eds(q) && ed.kind == INT && Proper(e) && LabelledAt([e], 0)
    requires p == PositionFor(q, e.k, 0)
    modifies table, Eds(q)`hwNextED, ed`hwNextED
    ensures Headed(table, Link(q, e)) && Linked(Link(q, e))
    ensures Structured(Link(q, e), RunAfterInsert(p, from), count, tail)
  {
    PositionIsPosition(q, e.k);
    ProperFits(q, p, e);
    assert LabelledAt([e], 0);
    ThreadEd(table, ed, ed.intInterval, ed.intBranch, q, p, e);
    InsertKeepsStructure(q, from, count, tail, p, e);
  }

  // ---------- isochronous links

  /** The schedule after an isochronous endpoint follows entry n-1: what stood behind is cut off. */
  ghost function Append(q: seq<Entry>, n: nat, e: Entry): seq<Entry>
    requires n <= |q|
  {
    q[..n] + [e]
  }

  ghost function IsoEntry(ed: Ed): Entry {
    Entry(ed, 0, 0, SlotsOf(0, 0), 0)
  }

  lemma {:induction false} IsoEntryProper(ed: Ed)
    ensures Proper(IsoEntry(ed)) && EntryOk([IsoEntry(ed)], 0)
    ensures forall s: nat :: s < SLOTS ==> s in IsoEntry(ed).slots
  {
    SlotCount();
    ProperHasBranch(IsoEntry(ed));
  }

  lemma {:induction false} ServesAll(q: seq<Entry>, x: nat)
    requires x < |q| && Proper(q[x]) && q[x].k == 0
    ensures q[x].slots == SlotsOf(0, 0) && forall s: nat :: s < SLOTS ==> s in q[x].slots
  {
    SlotCount();
  }

  /** Every chain that starts before an entry serving all slots meets it. */
  lemma {:induction false} StopsAtFull(q: seq<Entry>, x: nat, j: nat, s: nat)
    requires x < |q| && j <= x && s in q[x].slots
    ensures First(q, j, s) <= x
  {
    FirstCovers(q, j, s);
  }

  lemma {:induction false} FirstAfterAppend(q: seq<Entry>, n: nat, e: Entry, j: nat, s: nat)
    requires 0 < n <= |q| && j < n && s in q[n - 1].slots
    ensures First(Append(q, n, e), j, s) == First(q, j, s) < n
  {
    StopsAtFull(q, n - 1, j, s);
    FirstCovers(q, j, s);
    FirstIs(Append(q, n, e), j, s, First(q, j, s));
  }

  lemma {:induction false} AppendKeepsStructure(q: seq<Entry>, from: nat, count: nat, tail: Ed?, e: Entry)
    requires Structured(q, from, count, tail) && count > 0
    requires e == IsoEntry(e.ed) && e.ed !in Eds(q) && e.ed.kind == ISO && e.ed.intInterval == 1
    requires e.ed.edPrev == tail
    ensures Structured(Append(q, from + count, e), from, count + 1, e.ed)
  {
    var n := from + count;
    var r := Append(q, n, e);
    IsoEntryProper(e.ed);
    SlotCount();
    forall i | 0 <= i < |r|
      ensures EntryOk(r, i)
    {
      assert i < n ==> EntryOk(q, i);
    }
    forall i | 0 <= i < |r|
      ensures ProperAt(r, i)
    {
      assert i < n ==> ProperAt(q, i);
    }
    LabelledAfterInsert(q[..n], n, e) by {
      forall i | 0 <= i < n
        ensures LabelledAt(q[..n], i)
      {
        assert LabelledAt(q, i);
      }
    }
    assert Insert(q[..n], n, e) == r;
    var more := count + 1;
    forall i | 0 <= i < |r|
      ensures IsoAt(r, from, more, i)
    {
      assert i < n ==> IsoAt(q, from, count, i);
    }
    forall i, j | 0 <= i < j < |r|
      ensures PairOk(r, i, j)
    {
      assert EntryOk(q, i);
      if j < n {
        assert PairOk(q, i, j);
      } else {
        assert q[i] in q;
      }
    }
  }

  lemma {:induction false} AppendThreads(table: array<Ed?>, q: seq<Entry>, n: nat, e: Entry)
    requires WellFormed(q) && 0 < n <= |q| && Proper(q[n - 1]) && q[n - 1].k == 0
    requires table.Length == SLOTS && forall s: nat :: s < SLOTS ==> HeadedAt(table, q, s)
    requires forall j :: 0 <= j < n - 1 ==> LinkedAt(q, j)
    requires q[n - 1].ed.hwNextED == e.ed && e == IsoEntry(e.ed) && e.ed.hwNextED == null
    ensures Headed(table, Append(q, n, e)) && Linked(Append(q, n, e))
  {
    var r := Append(q, n, e);
    ServesAll(q, n - 1);
    forall s: nat | s < SLOTS
      ensures HeadedAt(table, r, s)
    {
      assert HeadedAt(table, q, s);
      FirstAfterAppend(q, n, e, 0, s);
    }
    forall j | 0 <= j < |r|
      ensures LinkedAt(r, j)
    {
      if j < n - 1 {
        assert LinkedAt(q, j) && EntryOk(q, j);
        FirstAfterAppend(q, n, e, j + 1, q[j].branch);
      } else if j == n - 1 {
        assert EntryOk(q, j);
        IsoEntryProper(e.ed);
        FirstIs(r, n, q[j].branch, n);
      }
    }
  }

  lemma {:induction false} AccountedAfterAppend(loads: seq<int>, q: seq<Entry>, lost: seq<Entry>, n: nat, e: Entry)
    requires Accounted(loads, q, lost) && n <= |q| && e.load == 0
    ensures Accounted(loads, Append(q, n, e), lost + q[n..])
  {
    forall s: nat | s < SLOTS
      ensures AccountedAt(loads, Append(q, n, e), lost + q[n..], s)
    {
      assert AccountedAt(loads, q, lost, s);
      assert q[..n] + q[n..] == q;
      LoadOfSum(q[..n], q[n..], s);
      LoadOfSum(q[..n], [e], s);
      LoadOfSum(lost, q[n..], s);
    }
  }

  // ---------- unlinking

  /** Position of a linked endpoint in the schedule. */
  ghost function PositionOf(q: seq<Entry>, ed: Ed): (x: nat)
    requires ed in Eds(q)
    ensures x < |q| && q[x].ed == ed
  {
    var e :| e in q && e.ed == ed;
    var x :| 0 <= x < |q| && q[x] == e;
    x
  }

  lemma {:induction false} LoadAfterRemove(q: seq<Entry>, x: nat, s: nat)
    requires x < |q|
    ensures LoadOf(Without(q, x), s) == LoadOf(q, s) - (if s in q[x].slots then q[x].load else 0)
  {
    LoadAfterInsert(Without(q, x), x, q[x], s);
    assert Insert(Without(q, x), x, q[x]) == q;
  }

  lemma {:induction false} AccountedAfterUnlink(loads: seq<int>, q: seq<Entry>, lost: seq<Entry>, x: nat)
    requires Accounted(loads, q, lost) && x < |q| && Proper(q[x])
    ensures Accounted(Charge(loads, q[x].k, q[x].branch, -(q[x].load as int)), Without(q, x), lost)
  {
    var after := Charge(loads, q[x].k, q[x].branch, -(q[x].load as int));
    forall s: nat | s < SLOTS
      ensures AccountedAt(after, Without(q, x), lost, s)
    {
      assert AccountedAt(loads, q, lost, s);
      LoadAfterRemove(q, x, s);
    }
  }

  ghost function RunAfterRemove(x: nat, from: nat): nat {
    if x < from then from - 1 else from
  }

  /** Removing an entry keeps the structure, provided the isochronous links have been mended. */
  lemma {:induction false} RemoveKeepsStructure(q: seq<Entry>, from: nat, count: nat, count': nat, tail: Ed?, x: nat)
    requires WellFormed(q) && AllProper(q) && Labelled(q) && x < |q|
    requires IsoRun(Without(q, x), RunAfterRemove(x, from), count', tail)
    ensures Structured(Without(q, x), RunAfterRemove(x, from), count', tail)
  {
    RemoveWellFormed(q, x);
    var r := Without(q, x);
    forall i | 0 <= i < |r|
      ensures ProperAt(r, i)
    {
      assert ProperAt(q, if i < x then i else i + 1);
    }
    forall i | 0 <= i < |r|
      ensures LabelledAt(r, i)
    {
      assert LabelledAt(q, if i < x then i else i + 1);
    }
  }

  lemma {:induction false} IsoRunWithoutInterrupt(q: seq<Entry>, from: nat, count: nat, tail: Ed?, x: nat)
    requires IsoRun(q, from, count, tail) && x < |q| && q[x].ed.kind == INT
    ensures IsoRun(Without(q, x), RunAfterRemove(x, from), count, tail)
  {
    var r := Without(q, x);
    assert IsoAt(q, from, count, x);
    forall j | 0 <= j < |r|
      ensures IsoAt(r, RunAfterRemove(x, from), count, j)
    {
      assert IsoAt(q, from, count, if j < x then j else j + 1);
    }
  }

  lemma {:induction false} InterruptGone(q: seq<Entry>, from: nat, count: nat, tail: Ed?, x: nat)
    requires Structured(q, from, count, tail) && x < |q| && q[x].ed.kind == INT
    ensures Structured(Without(q, x), RunAfterRemove(x, from), count, tail)
  {
    IsoRunWithoutInterrupt(q, from, count, tail, x);
    RemoveKeepsStructure(q, from, count, count, tail, x);
  }

  method UnlinkFromChains(table: array<Ed?>, loads: array<int>, ed: Ed, ghost q: seq<Entry>, ghost x: nat,
                          ghost lost: seq<Entry>, ghost from: nat, ghost count: nat, ghost tail: Ed?)
    requires Headed(table, q) && Linked(q) && Structured(q, from, count, tail) && Accounted(loads[..], q, lost)
    requires x < |q| && q[x].ed == ed && ed.kind == INT
    modifies loads, table, Eds(q)`hwNextED, ed`state
    ensures Structured(Without(q, x), RunAfterRemove(x, from), count, tail)
    ensures Accounted(loads[..], Without(q, x), lost)
    ensures Headed(table, Without(q, x)) && Linked(Without(q, x)) <==> LeavesCleanly(q, x)
    ensures ChainsAfter(table, q, x)
    ensures ed.hwNextED == old(ed.hwNextED) && ed.state == ED_UNLINK
  {
    Detach(table, ed, q, x, from, count, tail);
    Settle(table, loads, ed, q, x, lost, from, count, tail);
  }

  /** Takes the endpoint out of the chains, as far as the loop does. */
  method Detach(table: array<Ed?>, ed: Ed, ghost q: seq<Entry>, ghost x: nat, ghost from: nat, ghost count: nat,
                ghost tail: Ed?)
    requires Headed(table, q) && Linked(q) && Structured(q, from, count, tail)
    requires x < |q| && q[x].ed == ed && ed.kind == INT
    modifies table, Eds(q)`hwNextED
    ensures Structured(q, from, count, tail)
    ensures Headed(table, Without(q, x)) && Linked(Without(q, x)) <==> LeavesCleanly(q, x)
    ensures ChainsAfter(table, q, x)
    ensures ed.hwNextED == old(ed.hwNextED)
  {
    assert ProperAt(q, x);
    UnthreadInterrupt(table, ed, q, x);
  }

  /** What is left keeps its structure, and the loads are those of the rest. */
  method Settle(table: array<Ed?>, loads: array<int>, ed: Ed, ghost q: seq<Entry>, ghost x: nat,
                ghost lost: seq<Entry>, ghost from: nat, ghost count: nat, ghost tail: Ed?)
    requires Structured(q, from, count, tail) && Accounted(loads[..], q, lost)
    requires x < |q| && q[x].ed == ed && ed.kind == INT
    modifies loads, ed`state
    ensures Structured(Without(q, x), RunAfterRemove(x, from), count, tail)
    ensures Accounted(loads[..], Without(q, x), lost)
    ensures Headed(table, Without(q, x)) == old(Headed(table, Without(q, x)))
    ensures Linked(Without(q, x)) == old(Linked(Without(q, x)))
    ensures ChainsAfter(table, q, x) == old(ChainsAfter(table, q, x)) && ed.state == ED_UNLINK
  {
    assert ProperAt(q, x) && LabelledAt(q, x);
    Discharge(table, loads, ed, q, x, lost);
    InterruptGone(q, from, count, tail, x);
    ed.state := ED_UNLINK;
  }

  /** Takes the endpoint's load off its slots. */
  method Discharge(table: array<Ed?>, loads: array<int>, ed: Ed, ghost q: seq<Entry>, ghost x: nat,
                   ghost lost: seq<Entry>)
    requires x < |q| && q[x].ed == ed && ProperAt(q, x) && LabelledAt(q, x) && ed.kind == INT
    requires Accounted(loads[..], q, lost)
    modifies loads
    ensures Accounted(loads[..], Without(q, x), lost)
    ensures Headed(table, Without(q, x)) == old(Headed(table, Without(q, x)))
    ensures Linked(Without(q, x)) == old(Linked(Without(q, x)))
    ensures ChainsAfter(table, q, x) == old(ChainsAfter(table, q, x))
  {
    ghost var r := Without(q, x);
    AccountedAfterUnlink(loads[..], q, lost, x);
    ChargeSlots(loads, ed.intInterval, ed.intBranch, -(ed.intLoad as int), q[x].k);
    if Linked(r) {
      forall j | 0 <= j < |r|
        ensures old(LinkedAt(r, j))
      {
        assert LinkedAt(r, j);
      }
    }
    assert forall e: object :: e in Eds(q) ==> e != loads;
  }

  lemma {:induction false} IsoServesAll(q: seq<Entry>, from: nat, count: nat, tail: Ed?, x: nat)
    requires Structured(q, from, count, tail) && x < |q| && q[x].ed.kind == ISO
    ensures q[x].slots == SlotsOf(0, 0) && Proper(q[x]) && q[x].load == 0
  {
    assert IsoAt(q, from, count, x) && ProperAt(q, x);
    ServesAll(q, x);
  }

  lemma {:induction false} AccountedWithoutIso(loads: seq<int>, q: seq<Entry>, lost: seq<Entry>, x: nat)
    requires Accounted(loads, q, lost) && x < |q| && Proper(q[x]) && q[x].load == 0
    ensures Accounted(loads, Without(q, x), lost)
  {
    assert Charge(loads, q[x].k, q[x].branch, 0) == loads;
    AccountedAfterUnlink(loads, q, lost, x);
  }

  class Tree {
    const table: array<Ed?>
    const loads: array<int>
    var isoTail: Ed?
    ghost var sched: seq<Entry>
    ghost var isoFrom: nat
    ghost var isoCount: nat
    /** Interrupt endpoints that a later isochronous link has cut off the chains; their load stays. */
    ghost var lost: seq<Entry>

    ghost predicate Valid()
      reads this, table, loads, Eds(sched)
    {
      && Headed(table, sched)
      && Linked(sched)
      && Structured(sched, isoFrom, isoCount, isoTail)
      && Accounted(loads[..], sched, lost)
    }

    constructor ()
      ensures Valid() && sched == [] && lost == [] && isoCount == 0 && fresh(table) && fresh(loads)
    {
      table := new Ed?[SLOTS](i => null);
      loads := new int[SLOTS](i => 0);
      isoTail := null;
      sched, isoFrom, isoCount, lost := [], 0, 0, [];
      new;
      forall s: nat | s < SLOTS
        ensures HeadedAt(table, sched, s)
      {
      }
      forall s: nat | s < SLOTS
        ensures AccountedAt(loads[..], sched, lost, s)
      {
      }
    }

    /** Rounds the endpoint's period and picks and charges the branch with the least loaded slot. */
    method ChooseBranch(ed: Ed) returns (ghost e: Entry)
      requires |loads[..]| == SLOTS && ed.kind == INT
      modifies loads, ed
      ensures e == Entry(ed, e.k, Low(LeastSlot(old(loads[..]), SLOTS), e.k), SlotsOf(e.k, e.branch), old(ed.intLoad))
      ensures IsIntervalLog(old(ed.intPeriod), e.k) && Proper(e) && LabelledAt([e], 0)
      ensures loads[..] == Charge(old(loads[..]), e.k, e.branch, e.load)
      ensures ed.state == ED_OPER
    {
      ed.state := ED_OPER;
      ed.hwNextED := null;
      var interval;
      ghost var k;
      interval, k := RoundInterval(ed.intPeriod);
      ed.intInterval := interval;
      var branch := Balance(loads, interval, ed.intLoad, k);
      ed.intBranch := branch;
      e := Entry(ed, k, branch, SlotsOf(k, branch), ed.intLoad);
    }

    /** Links an interrupt endpoint: chooses its branch and threads it into every chain of the branch's
        class. */
    method LinkInterrupt(ed: Ed) returns (ghost e: Entry)
      requires Valid() && ed !in Eds(sched) && ed.kind == INT
      modifies loads, table, Eds(sched)`hwNextED, ed, `sched, `isoFrom
      ensures Valid() && sched == Link(old(sched), e) && lost == old(lost)
      ensures loads[..] == Place(old(loads[..]), Request(e.k, e.load))
      ensures e == Entry(ed, e.k, Low(LeastSlot(old(loads[..]), SLOTS), e.k), SlotsOf(e.k, e.branch), old(ed.intLoad))
      ensures IsIntervalLog(old(ed.intPeriod), e.k)
      ensures ed.state == ED_OPER
    {
      e := ChooseBranch(ed);
      ghost var p := PositionFor(sched, e.k, 0);
      ThreadInterrupt(table, ed, sched, isoFrom, isoCount, isoTail, p, e);
      AccountedAfterLink(old(loads[..]), sched, lost, e);
      sched, isoFrom := Link(sched, e), RunAfterInsert(p, isoFrom);
    }

    /** Where the next isochronous endpoint goes. */
    ghost function IsoEnd(): nat
      reads this
    {
      if isoCount == 0 then |sched| else isoFrom + isoCount
    }

    /** Linking an isochronous endpoint cuts nothing off exactly when there is none yet or none of the
        chains goes on behind the last one. */
    lemma {:induction false} NothingCutOff()
      requires Valid()
      ensures sched[IsoEnd()..] == [] <==> isoTail == null || isoTail.hwNextED == null
    {
      if isoCount > 0 {
        assert IsoAt(sched, isoFrom, isoCount, isoFrom + isoCount - 1);
        NextOfFull(sched, isoFrom + isoCount - 1);
      }
    }

    /** Links an isochronous endpoint: behind the last one, or at the end of every chain if it is the
        first. */
    method LinkIso(ed: Ed)
      requires Valid() && ed !in Eds(sched) && ed.kind == ISO
      modifies table, Eds(sched)`hwNextED, ed, `sched, `isoFrom, `isoCount, `isoTail, `lost
      ensures Valid() && isoTail == ed && isoCount == old(isoCount) + 1
      ensures sched == Append(old(sched), old(IsoEnd()), IsoEntry(ed))
      ensures lost == old(lost) + old(sched)[old(IsoEnd())..]
      ensures ed.state == ED_OPER
    {
      ed.state := ED_OPER;
      ed.hwNextED := null;
      ed.intInterval := 1;
      SlotCount();
      if isoTail != null {
        ed.edPrev := isoTail;
        FollowTail(ed);
      } else {
        ed.edPrev := null;
        FollowEverything(ed);
      }
    }

    method FollowTail(ed: Ed)
      requires Valid() && ed !in Eds(sched) && ed.kind == ISO && isoTail != null
      requires ed.hwNextED == null && ed.intInterval == 1 && ed.edPrev == isoTail
      modifies Eds(sched)`hwNextED, `sched, `isoCount, `isoTail, `lost
      ensures Valid() && isoTail == ed && isoCount == old(isoCount) + 1
      ensures sched == Append(old(sched), old(IsoEnd()), IsoEntry(ed))
      ensures lost == old(lost) + old(sched)[old(IsoEnd())..]
    {
      ghost var q, n, e := sched, isoFrom + isoCount, IsoEntry(ed);
      assert IsoAt(q, isoFrom, isoCount, n - 1) && ProperAt(q, n - 1);
      AppendKeepsStructure(q, isoFrom, isoCount, isoTail, e);
      AccountedAfterAppend(loads[..], q, lost, n, e);
      isoTail.hwNextED := ed;
      forall j | 0 <= j < n - 1
        ensures LinkedAt(q, j)
      {
        assert old(LinkedAt(q, j));
        DistinctEds(q, j, n - 1);
      }
      AppendThreads(table, q, n, e);
      sched, isoCount, isoTail, lost := Append(q, n, e), isoCount + 1, ed, lost + q[n..];
    }

    /** The first isochronous endpoint goes to the end of all 32 chains.  The driver's loop here is its
        loop for interrupt endpoints with interval 1: no interval is smaller, and what it finds behind
        the last endpoint is the null that hwNextED already holds. */
    method FollowEverything(ed: Ed)
      requires Valid() && ed !in Eds(sched) && ed.kind == ISO && isoTail == null
      requires ed.hwNextED == null && ed.intInterval == 1 && ed.edPrev == null
      modifies table, Eds(sched)`hwNextED, ed`hwNextED, `sched, `isoFrom, `isoCount, `isoTail
      ensures Valid() && isoTail == ed && isoCount == old(isoCount) + 1
      ensures sched == Append(old(sched), old(IsoEnd()), IsoEntry(ed)) && old(IsoEnd()) == |old(sched)|
    {
      ghost var q, e := sched, IsoEntry(ed);
      assert isoCount == 0;
      IsoEntryProper(ed);
      SlotCount();
      EndIsPosition(q);
      ProperFits(q, |q|, e);
      ThreadEd(table, ed, 1, 0, q, |q|, e);
      assert Insert(q, |q|, e) == Append(q, |q|, e);
      InsertWellFormed(q, |q|, e);
      ProperAfterInsert(q, |q|, e);
      assert LabelledAt([e], 0);
      LabelledAfterInsert(q, |q|, e);
      AccountedAfterAppend(loads[..], q, lost, |q|, e);
      FirstIsoRun(q, isoFrom, e);
      assert q[|q|..] == [] && lost + [] == lost;
      sched, isoFrom, isoCount, isoTail := Append(q, |q|, e), |q|, 1, ed;
    }

    /** The chain of frame slot s: the hardware's walk is finite, repeats no endpoint, polls exactly the linked
        endpoints whose branch is s modulo their interval, and the isochronous ones, in the order of the
        schedule, and so comes to longer intervals first. */
    lemma {:induction false} ChainOfFrame(s: nat) returns (c: seq<nat>)
      requires Valid() && s < SLOTS
      ensures Positions(sched, c) && Walk(table[s], sched, c)
      ensures forall x :: 0 <= x < |sched| ==> (x in c <==> Polled(sched[x].ed, s))
      ensures forall a, b :: 0 <= a < b < |c| ==> c[a] < c[b]
      ensures forall a, b :: 0 <= a < b < |c| ==>
                sched[c[a]].ed != sched[c[b]].ed && sched[c[a]].ed.intInterval >= sched[c[b]].ed.intInterval
    {
      c := Served(sched, 0, s);
      ChainOfSlot(table, sched, s);
      forall x | 0 <= x < |sched|
        ensures x in c <==> Polled(sched[x].ed, s)
      {
        SlotsArePolled(sched, isoFrom, isoCount, isoTail, x, s);
        if x in c {
          var i :| 0 <= i < |c| && c[i] == x;
          assert s in sched[c[i]].slots;
        }
      }
      forall a, b | 0 <= a < b < |c|
        ensures sched[c[a]].ed.intInterval >= sched[c[b]].ed.intInterval
      {
        assert LabelledAt(sched, c[a]) && LabelledAt(sched, c[b]);
        IntervalOrder(sched[c[a]].k, sched[c[b]].k);
      }
    }

    /** Unlinks an interrupt endpoint.  What is left is the schedule without it exactly if, from the
        first slot on that reaches it behind another endpoint, all slots reach it behind that one.  In any
        case every slot still polls all its other endpoints in their order. */
    method UnlinkInterrupt(ed: Ed)
      requires Valid() && ed in Eds(sched) && ed.kind == INT
      modifies loads, table, Eds(sched)`hwNextED, ed`state, ed`skip, `sched, `isoFrom
      ensures sched == Without(old(sched), PositionOf(old(sched), ed))
      ensures Valid() <==> LeavesCleanly(old(sched), PositionOf(old(sched), ed))
      ensures ChainsAfter(table, old(sched), PositionOf(old(sched), ed))
      ensures Structured(sched, isoFrom, isoCount, isoTail) && Accounted(loads[..], sched, lost)
      ensures ed.hwNextED == old(ed.hwNextED) && ed.state == ED_UNLINK && ed.skip
    {
      ghost var q, x := sched, PositionOf(sched, ed);
      ed.skip := true;
      sched, isoFrom := Without(q, x), RunAfterRemove(x, isoFrom);
      UnlinkFromChains(table, loads, ed, q, x, lost, old(isoFrom), isoCount, isoTail);
    }

    /** Unlinks an isochronous endpoint, from all 32 chains if it is the first of its list. */
    method UnlinkIso(ed: Ed)
      requires Valid() && ed in Eds(sched) && ed.kind == ISO
      modifies table, Eds(sched)`hwNextED, Eds(sched)`edPrev, ed`state, ed`skip, `sched, `isoCount, `isoTail
      ensures Valid() && sched == Without(old(sched), PositionOf(old(sched), ed)) && isoCount == old(isoCount) - 1
      ensures ed.hwNextED == old(ed.hwNextED) && ed.state == ED_UNLINK && ed.skip
    {
      ghost var x := PositionOf(sched, ed);
      IsoServesAll(sched, isoFrom, isoCount, isoTail, x);
      AccountedWithoutIso(loads[..], sched, lost, x);
      isoTail := UnlinkFromIsoList(table, ed, isoTail, sched, x, isoFrom, isoCount);
      sched, isoCount := Without(sched, x), isoCount - 1;
    }
  }

  /** The controller polls ed in frame slot s. */
  ghost predicate Polled(ed: Ed, s: nat)
    reads ed`intInterval, ed`intBranch
  {
    ed.kind == ISO || (ed.intInterval > 0 && s % ed.intInterval == ed.intBranch)
  }

  lemma {:induction false} SlotsArePolled(q: seq<Entry>, from: nat, count: nat, tail: Ed?, x: nat, s: nat)
    requires Structured(q, from, count, tail) && x < |q| && s < SLOTS
    ensures s in q[x].slots <==> Polled(q[x].ed, s)
  {
    assert ProperAt(q, x) && LabelledAt(q, x) && IsoAt(q, from, count, x);
    LowIsMod(s, q[x].k);
  }

  /** What slot s polls after an interrupt endpoint was unlinked: every endpoint of the old schedule that belongs there,
      once and in schedule order, but the unlinked one only if the cell that led to it was not rewritten. */
  lemma {:induction false} PolledAfterUnlink(table: array<Ed?>, q: seq<Entry>, from: nat, count: nat, tail: Ed?,
                                             x: nat, s: nat) returns (c: seq<nat>)
    requires Structured(q, from, count, tail) && ChainsAfter(table, q, x) && s < SLOTS
    ensures Positions(q, c) && Walk(table[s], q, c)
    ensures forall a, b :: 0 <= a < b < |c| ==> c[a] < c[b]
    ensures forall i :: 0 <= i < |q| ==> (i in c <==> Polled(q[i].ed, s) && (i == x ==> !Rewritten(q, x, s)))
  {
    assert ChainAfter(table, q, x, s);
    c :| Positions(q, c) && Walk(table[s], q, c) && ServedBut(q, x, s, c);
    forall i | 0 <= i < |q|
      ensures s in q[i].slots <==> Polled(q[i].ed, s)
    {
      SlotsArePolled(q, from, count, tail, i, s);
    }
  }

  method UnlinkFromIsoList(table: array<Ed?>, ed: Ed, tail: Ed?,
                           ghost q: seq<Entry>, ghost x: nat, ghost from: nat, ghost count: nat)
    returns (newTail: Ed?)
    requires Headed(table, q) && Linked(q) && Structured(q, from, count, tail)
    requires x < |q| && q[x].ed == ed && ed.kind == ISO && q[x].slots == SlotsOf(0, 0)
    modifies table, Eds(q)`hwNextED, Eds(q)`edPrev, ed`state, ed`skip
    ensures Headed(table, Without(q, x)) && Linked(Without(q, x)) && ed.hwNextED == old(ed.hwNextED)
    ensures count > 0 && Structured(Without(q, x), from, count - 1, newTail)
    ensures ed.state == ED_UNLINK && ed.skip
  {
    ed.skip := true;
    newTail := MendIsoLinks(ed, tail, q, x, from, count);
    SkipIso(table, ed, q, x);
    ed.state := ED_UNLINK;
  }

  /** The tail of the list and the back link of the endpoint behind. */
  method MendIsoLinks(ed: Ed, tail: Ed?, ghost q: seq<Entry>, ghost x: nat, ghost from: nat, ghost count: nat)
    returns (newTail: Ed?)
    requires Structured(q, from, count, tail) && Linked(q)
    requires x < |q| && q[x].ed == ed && ed.kind == ISO && q[x].slots == SlotsOf(0, 0)
    modifies Eds(q)`edPrev
    ensures count > 0 && Structured(Without(q, x), from, count - 1, newTail)
    ensures ed.edPrev != null ==> x > 0 && ed.edPrev == q[x - 1].ed && q[x - 1].slots == SlotsOf(0, 0)
  {
    assert IsoAt(q, from, count, x);
    if x > from {
      assert IsoAt(q, from, count, x - 1) && ProperAt(q, x - 1);
      DistinctEds(q, x - 1, x);
    }
    NextOfFull(q, x);
    newTail := tail;
    if tail == ed {
      newTail := ed.edPrev;
    }
    if ed.hwNextED != null {
      ed.hwNextED.edPrev := ed.edPrev;
    }
    if x < from + count - 1 {
      DistinctEds(q, x, from + count - 1);
    }
    ghost var r, fewer := Without(q, x), count - 1;
    forall j | 0 <= j < |r|
      ensures IsoAt(r, from, fewer, j)
    {
      var i := if j < x then j else j + 1;
      assert old(IsoAt(q, from, count, i));
      if x + 1 < |q| && i != x + 1 {
        DistinctEds(q, i, x + 1);
      }
    }
    RemoveKeepsStructure(q, from, count, fewer, newTail, x);
  }

  /** Behind an entry that serves all slots comes the next entry of the schedule. */
  lemma {:induction false} NextOfFull(q: seq<Entry>, x: nat)
    requires WellFormed(q) && AllProper(q) && Linked(q) && x < |q| && q[x].k == 0
    ensures q[x].ed.hwNextED == EdAt(q, x + 1)
  {
    assert LinkedAt(q, x) && EntryOk(q, x);
    if x + 1 < |q| {
      assert PairOk(q, x, x + 1) && ProperAt(q, x + 1);
      ServesAll(q, x + 1);
      FirstIs(q, x + 1, q[x].branch, x + 1);
    }
  }

  lemma {:induction false} EndIsPosition(q: seq<Entry>)
    ensures IsPosition(q, 0, |q|)
  {
    forall j | 0 <= j < |q|
      ensures OnSide(q, 0, |q|, j)
    {
    }
  }

  lemma {:induction false} FirstIsoRun(q: seq<Entry>, from: nat, e: Entry)
    requires IsoRun(q, from, 0, null) && e == IsoEntry(e.ed) && e.ed.kind == ISO && e.ed.edPrev == null
    ensures IsoRun(Append(q, |q|, e), |q|, 1, e.ed)
  {
    var r := Append(q, |q|, e);
    forall j | 0 <= j < |r|
      ensures IsoAt(r, |q|, 1, j)
    {
      assert j < |q| ==> IsoAt(q, from, 0, j);
    }
  }

  method SkipIso(table: array<Ed?>, ed: Ed, ghost q: seq<Entry>, ghost x: nat)
    requires WellFormed(q) && Headed(table, q) && Linked(q) && x < |q| && q[x].ed == ed && q[x].slots == SlotsOf(0, 0)
    requires ed.edPrev != null ==> x > 0 && ed.edPrev == q[x - 1].ed && q[x - 1].slots == SlotsOf(0, 0)
    modifies table, Eds(q)`hwNextED
    ensures Headed(table, Without(q, x)) && Linked(Without(q, x)) && ed.hwNextED == old(ed.hwNextED)
  {
    if ed.edPrev != null {
      SkipBehindPrevious(table, ed, q, x);
    } else {
      UnthreadEverywhere(table, ed, q, x);
    }
  }

  /** An isochronous endpoint behind another one is reached through that one only. */
  method SkipBehindPrevious(table: array<Ed?>, ed: Ed, ghost q: seq<Entry>, ghost x: nat)
    requires WellFormed(q) && Headed(table, q) && Linked(q) && 0 < x < |q| && q[x].ed == ed
    requires q[x - 1].slots == q[x].slots == SlotsOf(0, 0) && ed.edPrev == q[x - 1].ed
    modifies table, Eds(q)`hwNextED
    ensures Headed(table, Without(q, x)) && Linked(Without(q, x))
    ensures ed.hwNextED == old(ed.hwNextED)
  {
    BeforeRemoval(table, q, x);
    IsoEntryProper(ed);
    LastIsUnique(q, x, 0, x - 1);
    SkipInSlot(table, ed, 0, ed.edPrev, q, x, {});
    OneVisitSuffices(table, q, x);
    AfterRemoval(table, q, x, q[x].slots);
  }

  lemma {:induction false} OneVisitSuffices(table: array<Ed?>, q: seq<Entry>, x: nat)
    requires WellFormed(q) && 0 < x < |q| && SkipThreaded(table, q, x, {} + {0})
    requires q[x - 1].slots == q[x].slots == SlotsOf(0, 0) && 0 in q[x].slots
    ensures SkipThreaded(table, q, x, q[x].slots)
  {
    forall s: nat | s < SLOTS
      ensures SkipHeadedAt(table, q, x, q[x].slots, s)
    {
      assert SkipHeadedAt(table, q, x, {} + {0}, s);
      FirstCovers(q, 0, s);
      IsoEntryProper(q[x].ed);
    }
    forall j | 0 <= j < |q|
      ensures SkipLinkedAt(q, x, q[x].slots, j)
    {
      assert SkipLinkedAt(q, x, {} + {0}, j) && EntryOk(q, j);
      FirstCovers(q, j + 1, q[j].branch);
      IsoEntryProper(q[x].ed);
    }
  }
}

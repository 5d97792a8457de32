/** Isochronous endpoints beside interrupt endpoints that are polled in every second frame at most.

    Then every slot's chain is its interrupt endpoints followed by one and the same isochronous list, nothing
    is ever cut off, and the load of every slot is that of the endpoints polled in it. */
module IsoLists {
  import opened BitReverse
  import opened LoadBalance
  import opened OhciTypes
  import opened Schedule
  import opened Threading
  import opened Unthreading
  import opened Sequences
  import opened InterruptTree

  ghost predicate SlowAt(q: seq<Entry>, j: nat)
    requires j < |q|
  {
    q[j].ed.kind == INT ==> q[j].k > 0
  }

  /** No interrupt endpoint is polled in every frame. */
  ghost predicate Slow(q: seq<Entry>) {
    forall j :: 0 <= j < |q| ==> SlowAt(q, j)
  }

  ghost predicate Tidy(t: Tree)
    reads t, t.table, t.loads, Eds(t.sched)
  {
    t.Valid() && Slow(t.sched) && t.lost == []
  }

  /** The isochronous endpoints in schedule order. */
  ghost function Isos(q: seq<Entry>): seq<Ed> {
    if q == [] then [] else if q[0].ed.kind == ISO then [q[0].ed] + Isos(q[1..]) else Isos(q[1..])
  }

  /** The interrupt endpoints that slot s polls, in schedule order. */
  ghost function Interrupts(q: seq<Entry>, s: nat): seq<Ed>
    reads Eds(q)`intInterval, Eds(q)`intBranch
  {
    if q == [] then []
    else if q[0].ed.kind == INT && Polled(q[0].ed, s) then [q[0].ed] + Interrupts(q[1..], s)
    else Interrupts(q[1..], s)
  }

  /** The summed load of the interrupt endpoints that slot s polls. */
  ghost function PolledLoad(q: seq<Entry>, s: nat): nat
    reads Eds(q)`intInterval, Eds(q)`intBranch, Eds(q)`intLoad
  {
    if q == [] then 0
    else PolledLoad(q[..|q| - 1], s) +
         var ed := q[|q| - 1].ed; if ed.kind == INT && Polled(ed, s) then ed.intLoad else 0
  }

  // ---------- the isochronous entries come last

  lemma {:induction false} IsosLast(q: seq<Entry>, from: nat, count: nat, tail: Ed?)
    requires Structured(q, from, count, tail) && Slow(q)
    ensures count > 0 ==> from + count == |q|
  {
    var n := from + count;
    if count > 0 {
      assert IsoAt(q, from, count, n - 1);
      assert n < |q| ==> SlowAt(q, n);
      assert n < |q| ==> IsoAt(q, from, count, n);
      assert n < |q| ==> PairOk(q, n - 1, n);
    }
  }

  /** What a slot polls from position j on. */
  ghost function PolledFrom(q: seq<Entry>, j: nat, s: nat): seq<Ed>
    requires j <= |q|
    decreases |q| - j
  {
    if j == |q| then []
    else if s in q[j].slots then [q[j].ed] + PolledFrom(q, j + 1, s)
    else PolledFrom(q, j + 1, s)
  }

  lemma {:induction false} PathCons(ed: Ed, rest: seq<Ed>)
    requires Path(ed.hwNextED, rest)
    ensures Path(ed, [ed] + rest)
  {
    assert ([ed] + rest)[1..] == rest;
  }

  lemma {:induction false} PathFrom(q: seq<Entry>, j: nat, s: nat)
    requires WellFormed(q) && Linked(q) && j <= |q|
    ensures Path(EdAt(q, First(q, j, s)), PolledFrom(q, j, s))
    decreases |q| - j
  {
    if j < |q| {
      PathFrom(q, j + 1, s);
      if s in q[j].slots {
        assert EntryOk(q, j) && LinkedAt(q, j);
        SharedFirst(q, j, s, q[j].branch);
        PathCons(q[j].ed, PolledFrom(q, j + 1, s));
      } else {
        assert PolledFrom(q, j, s) == PolledFrom(q, j + 1, s);
      }
    }
  }

  /** Interrupt entries before `from`, isochronous ones from there on. */
  ghost predicate Sorted(q: seq<Entry>, from: nat, s: nat) {
    forall j :: 0 <= j < |q| ==> SortedAt(q, from, s, j)
  }

  ghost predicate SortedAt(q: seq<Entry>, from: nat, s: nat, j: nat)
    requires j < |q|
  {
    if j < from then q[j].ed.kind == INT else q[j].ed.kind == ISO && s in q[j].slots
  }

  lemma {:induction false} IsSorted(q: seq<Entry>, from: nat, count: nat, tail: Ed?, s: nat)
    requires Structured(q, from, count, tail) && Slow(q) && s < SLOTS
    ensures Sorted(q, if count > 0 then from else |q|, s)
  {
    IsosLast(q, from, count, tail);
    var first := if count > 0 then from else |q|;
    forall j | 0 <= j < |q|
      ensures SortedAt(q, first, s, j)
    {
      assert IsoAt(q, from, count, j) && ProperAt(q, j);
      if count > 0 && from <= j {
        ServesAll(q, j);
      }
    }
  }

  ghost function InterruptsFrom(q: seq<Entry>, j: nat, s: nat): seq<Ed>
    requires j <= |q|
    decreases |q| - j
  {
    if j == |q| then []
    else if q[j].ed.kind == INT && s in q[j].slots then [q[j].ed] + InterruptsFrom(q, j + 1, s)
    else InterruptsFrom(q, j + 1, s)
  }

  ghost function IsosFrom(q: seq<Entry>, j: nat): seq<Ed>
    requires j <= |q|
    decreases |q| - j
  {
    if j == |q| then [] else if q[j].ed.kind == ISO then [q[j].ed] + IsosFrom(q, j + 1) else IsosFrom(q, j + 1)
  }

  lemma {:induction false} PolledSplits(q: seq<Entry>, from: nat, j: nat, s: nat)
    requires Sorted(q, from, s) && j <= |q|
    ensures PolledFrom(q, j, s) == InterruptsFrom(q, j, s) + IsosFrom(q, j)
    ensures from <= j ==> InterruptsFrom(q, j, s) == []
    decreases |q| - j
  {
    if j < |q| {
      PolledSplits(q, from, j + 1, s);
      assert SortedAt(q, from, s, j);
      var here, ints, isos := [q[j].ed], InterruptsFrom(q, j + 1, s), IsosFrom(q, j + 1);
      assert here + (ints + isos) == (here + ints) + isos;
    }
  }

  lemma {:induction false} FromIsTail(q: seq<Entry>, from: nat, count: nat, tail: Ed?, j: nat, s: nat)
    requires Structured(q, from, count, tail) && j <= |q| && s < SLOTS
    ensures InterruptsFrom(q, j, s) == Interrupts(q[j..], s) && IsosFrom(q, j) == Isos(q[j..])
    decreases |q| - j
  {
    if j < |q| {
      FromIsTail(q, from, count, tail, j + 1, s);
      SlotsArePolled(q, from, count, tail, j, s);
      assert q[j..][1..] == q[j + 1..];
    }
  }

  lemma {:induction false} LoadIsPolled(q: seq<Entry>, from: nat, count: nat, tail: Ed?, n: nat, s: nat)
    requires Structured(q, from, count, tail) && n <= |q| && s < SLOTS
    ensures LoadOf(q[..n], s) == PolledLoad(q[..n], s)
  {
    if n > 0 {
      assert q[..n][..n - 1] == q[..n - 1];
      LoadIsPolled(q, from, count, tail, n - 1, s);
      SlotsArePolled(q, from, count, tail, n - 1, s);
      assert IsoAt(q, from, count, n - 1) && LabelledAt(q, n - 1);
    }
  }

  /** The chain of every slot is the interrupt endpoints it polls, longer intervals first, and then the
      isochronous list, which is the same for all slots; its load is the sum of theirs. */
  lemma {:induction false} ChainShape(t: Tree, s: nat)
    requires Tidy(t) && s < SLOTS
    ensures Path(t.table[s], Interrupts(t.sched, s) + Isos(t.sched))
    ensures t.loads[s] == PolledLoad(t.sched, s)
  {
    var q := t.sched;
    IsSorted(q, t.isoFrom, t.isoCount, t.isoTail, s);
    assert HeadedAt(t.table, q, s) && q[0..] == q && q[..|q|] == q;
    PathFrom(q, 0, s);
    PolledSplits(q, if t.isoCount > 0 then t.isoFrom else |q|, 0, s);
    FromIsTail(q, t.isoFrom, t.isoCount, t.isoTail, 0, s);
    LoadIsPolled(q, t.isoFrom, t.isoCount, t.isoTail, |q|, s);
    assert AccountedAt(t.loads[..], q, t.lost, s);
  }

  // ---------- what the operations do to the two parts

  lemma {:induction false} IsosSum(q: seq<Entry>, r: seq<Entry>)
    ensures Isos(q + r) == Isos(q) + Isos(r)
  {
    if q == [] {
      assert q + r == r;
    } else {
      assert (q + r)[1..] == q[1..] + r;
      IsosSum(q[1..], r);
    }
  }

  lemma {:induction false} IsosOne(e: Entry)
    ensures Isos([e]) == if e.ed.kind == ISO then [e.ed] else []
  {
    assert [e][1..] == [] && Isos([]) == [];
  }

  lemma {:induction false} IsosAfterInsert(q: seq<Entry>, p: nat, e: Entry)
    requires p <= |q| && e.ed.kind != ISO
    ensures Isos(Insert(q, p, e)) == Isos(q)
  {
    assert q == q[..p] + q[p..];
    IsosSum(q[..p], q[p..]);
    IsosSum(q[..p] + [e], q[p..]);
    IsosSum(q[..p], [e]);
    IsosOne(e);
  }

  lemma {:induction false} IsosAfterRemoval(q: seq<Entry>, x: nat)
    requires x < |q|
    ensures Isos(q) == Isos(q[..x]) + (if q[x].ed.kind == ISO then [q[x].ed] else []) + Isos(q[x + 1..])
    ensures Isos(Without(q, x)) == Isos(q[..x]) + Isos(q[x + 1..])
  {
    assert q == q[..x] + [q[x]] + q[x + 1..];
    IsosSum(q[..x] + [q[x]], q[x + 1..]);
    IsosSum(q[..x], [q[x]]);
    IsosSum(q[..x], q[x + 1..]);
    IsosOne(q[x]);
  }

  lemma {:induction false} SlowAfterInsert(q: seq<Entry>, p: nat, e: Entry)
    requires Slow(q) && p <= |q| && (e.ed.kind == INT ==> e.k > 0)
    ensures Slow(Insert(q, p, e))
  {
    var r := Insert(q, p, e);
    forall j | 0 <= j < |r|
      ensures SlowAt(r, j)
    {
      if j != p {
        assert SlowAt(q, if j < p then j else j - 1);
      }
    }
  }

  lemma {:induction false} SlowAfterRemoval(q: seq<Entry>, x: nat)
    requires Slow(q) && x < |q|
    ensures Slow(Without(q, x))
  {
    var r := Without(q, x);
    forall j | 0 <= j < |r|
      ensures SlowAt(r, j)
    {
      assert SlowAt(q, if j < x then j else j + 1);
    }
  }

  /** An interrupt endpoint of period 2 or more leaves the isochronous list alone. */
  method LinkInterrupt(t: Tree, ed: Ed) returns (ghost e: Entry)
    requires Tidy(t) && ed !in Eds(t.sched) && ed.kind == INT && ed.intPeriod >= 2
    modifies t.loads, t.table, Eds(t.sched)`hwNextED, ed, t`sched, t`isoFrom
    ensures Tidy(t) && t.sched == Link(old(t.sched), e) && e.ed == ed
    ensures Isos(t.sched) == old(Isos(t.sched))
  {
    ghost var q, period := t.sched, ed.intPeriod;
    e := t.LinkInterrupt(ed);
    PeriodIsSlow(period, e.k);
    SlowAfterInsert(q, PositionFor(q, e.k, 0), e);
    IsosAfterInsert(q, PositionFor(q, e.k, 0), e);
  }

  lemma {:induction false} PeriodIsSlow(period: nat, k: nat)
    requires IsIntervalLog(period, k) && period >= 2
    ensures k > 0
  {
    assert Pow2(1) == 2 * Shl(1, 0);
  }

  /** An isochronous endpoint joins the end of the list; nothing is cut off. */
  method LinkIso(t: Tree, ed: Ed)
    requires Tidy(t) && ed !in Eds(t.sched) && ed.kind == ISO
    modifies t.table, Eds(t.sched)`hwNextED, ed, t`sched, t`isoFrom, t`isoCount, t`isoTail, t`lost
    ensures Tidy(t) && t.sched == old(t.sched) + [IsoEntry(ed)]
    ensures Isos(t.sched) == old(Isos(t.sched)) + [ed]
  {
    ghost var q := t.sched;
    IsosLast(q, t.isoFrom, t.isoCount, t.isoTail);
    t.LinkIso(ed);
    assert q[..|q|] == q && q[|q|..] == [];
    assert Insert(q, |q|, IsoEntry(ed)) == q + [IsoEntry(ed)];
    SlowAfterInsert(q, |q|, IsoEntry(ed));
    IsosSum(q, [IsoEntry(ed)]);
    IsosOne(IsoEntry(ed));
  }

  /** An isochronous endpoint leaves the list, whose order stays. */
  method UnlinkIso(t: Tree, ed: Ed) returns (ghost x: nat)
    requires Tidy(t) && ed in Eds(t.sched) && ed.kind == ISO
    modifies t.table, Eds(t.sched)`hwNextED, Eds(t.sched)`edPrev, ed`state, ed`skip, t`sched, t`isoCount, t`isoTail
    ensures Tidy(t) && x < |old(t.sched)| && t.sched == Without(old(t.sched), x)
    ensures old(Isos(t.sched)) == Isos(old(t.sched)[..x]) + [ed] + Isos(old(t.sched)[x + 1..])
    ensures Isos(t.sched) == Isos(old(t.sched)[..x]) + Isos(old(t.sched)[x + 1..])
  {
    x := PositionOf(t.sched, ed);
    SlowAfterRemoval(t.sched, x);
    IsosAfterRemoval(t.sched, x);
    t.UnlinkIso(ed);
  }

  /** Unlinking cuts nothing off. */
  method UnlinkPlain(t: Tree, ed: Ed)
    requires t.Valid() && ed in Eds(t.sched) && ed.kind == INT
    modifies t.loads, t.table, Eds(t.sched)`hwNextED, ed`state, ed`skip, t`sched, t`isoFrom
    ensures t.sched == Without(old(t.sched), PositionOf(old(t.sched), ed)) && t.lost == old(t.lost)
    ensures t.Valid() <==> LeavesCleanly(old(t.sched), PositionOf(old(t.sched), ed))
    ensures ChainsAfter(t.table, old(t.sched), PositionOf(old(t.sched), ed))
  {
    t.UnlinkInterrupt(ed);
  }

  /** An interrupt endpoint that can be unlinked cleanly leaves the isochronous list alone. */
  method UnlinkInterrupt(t: Tree, ed: Ed)
    requires Tidy(t) && ed in Eds(t.sched) && ed.kind == INT
    modifies t.loads, t.table, Eds(t.sched)`hwNextED, ed`state, ed`skip, t`sched, t`isoFrom
    ensures t.sched == Without(old(t.sched), PositionOf(old(t.sched), ed))
    ensures Tidy(t) <==> LeavesCleanly(old(t.sched), PositionOf(old(t.sched), ed))
    ensures ChainsAfter(t.table, old(t.sched), PositionOf(old(t.sched), ed))
    ensures Isos(t.sched) == old(Isos(t.sched))
  {
    SlowAfterRemoval(t.sched, PositionOf(t.sched, ed));
    IsosAfterRemoval(t.sched, PositionOf(t.sched, ed));
    UnlinkPlain(t, ed);
  }
}

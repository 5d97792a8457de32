/** Two short runs of the driver on an empty interrupt tree that end badly. */
module TreeWitness {
  import opened BitReverse
  import opened LoadBalance
  import opened OhciTypes
  import opened SlotOrder
  import opened Schedule
  import opened Threading
  import opened Unthreading
  import opened InterruptTree

  method NewInterrupt(period: nat) returns (ed: Ed)
    ensures fresh(ed) && ed.kind == INT && ed.intPeriod == period && ed.intLoad == 1
  {
    ed := new Ed(INT);
    ed.intPeriod, ed.intLoad := period, 1;
  }

  lemma {:induction false} SmallLogs(k: nat)
    ensures IsIntervalLog(2, k) ==> k == 1
    ensures IsIntervalLog(1, k) ==> k == 0
  {
    assert Pow2(1) == 2 * Shl(1, 0) && Pow2(2) == 2 * Shl(1, 1) && Pow2(0) == 1;
    if 1 <= k {
      Pow2Mono(1, k);
    }
    if 2 <= k {
      Pow2Mono(2, k);
    }
  }

  /** Endpoint b, polled in every frame, comes behind a in the even slots and heads the odd ones. */
  ghost function TwoEntries(a: Ed, b: Ed): seq<Entry> {
    [Entry(a, 1, 0, SlotsOf(1, 0), 1), Entry(b, 0, 0, SlotsOf(0, 0), 1)]
  }

  lemma {:induction false} TwoEntriesAreStuck(a: Ed, b: Ed)
    ensures !LeavesCleanly(TwoEntries(a, b), 1)
  {
    var q := TwoEntries(a, b);
    SlotCount();
    RevInvolution(LEVELS, 1);
    var v := Rev(LEVELS, 1);
    RevBelow(LEVELS, 1);
    RevZero(LEVELS);
    assert SlotAt(0, 0) == 0 && SlotAt(0, v) == 1;
    assert Low(0, 1) == 0 && Low(1, 1) == 1;
    assert LastBefore(q, 1, 0) == 0 && LastBefore(q, 1, 1) == LastBefore(q, 0, 1) == -1;
    assert FirstBehind(q, 1, 0) == 0;
    assert !SamePredecessor(q, 1, 0, v);
  }

  lemma {:induction false} LinkedBehind(a: Entry, b: Entry)
    requires b.k <= a.k
    ensures Link(Link([], a), b) == [a, b]
  {
    assert PositionFor([], a.k, 0) == 0 && Link([], a) == [a];
    assert PositionFor([a], b.k, 1) == 1 && PositionFor([a], b.k, 0) == 1;
  }

  /** An empty tree has no load, so its least loaded slot is the first. */
  lemma {:induction false} FirstOfEmpty(loads: seq<int>)
    requires Accounted(loads, [], [])
    ensures LeastSlot(loads, SLOTS) == 0
  {
    var b := LeastSlot(loads, SLOTS);
    assert AccountedAt(loads, [], [], 0) && AccountedAt(loads, [], [], b);
    assert loads[b] == loads[0];
  }

  lemma {:induction false} FirstEntry(e: Entry, ed: Ed)
    requires IsIntervalLog(2, e.k) && e == Entry(ed, e.k, Low(0, e.k), SlotsOf(e.k, e.branch), 1)
    ensures e == Entry(ed, 1, 0, SlotsOf(1, 0), 1)
  {
    SmallLogs(e.k);
    assert Low(0, 1) == 0;
  }

  lemma {:induction false} SecondEntry(e: Entry, ed: Ed, slot: nat)
    requires IsIntervalLog(1, e.k) && e == Entry(ed, e.k, Low(slot, e.k), SlotsOf(e.k, e.branch), 1)
    ensures e == Entry(ed, 0, 0, SlotsOf(0, 0), 1)
  {
    SmallLogs(e.k);
  }

  method LinkTwo() returns (t: Tree, a: Ed, b: Ed)
    ensures fresh(t) && fresh(t.table) && fresh(t.loads) && fresh(a) && fresh(b) && a != b && b.kind == INT
    ensures t.Valid() && t.sched == TwoEntries(a, b)
  {
    t := new Tree();
    FirstOfEmpty(t.loads[..]);
    a := NewInterrupt(2);
    ghost var e := t.LinkInterrupt(a);
    FirstEntry(e, a);
    b := NewInterrupt(1);
    ghost var slot := LeastSlot(t.loads[..], SLOTS);
    ghost var f := t.LinkInterrupt(b);
    SecondEntry(f, b, slot);
    LinkedBehind(e, f);
  }

  /** What becomes of the two chains when b is unlinked. */
  lemma {:induction false} StillThere(table: array<Ed?>, a: Ed, b: Ed)
    requires ChainsAfter(table, TwoEntries(a, b), 1) && table.Length == SLOTS
    ensures table[0] == a && table[1] == b && a.hwNextED == null
  {
    var q := TwoEntries(a, b);
    SlotCount();
    RevZero(LEVELS);
    assert SlotAt(0, 0) == 0 && Low(0, 1) == 0 && Low(1, 1) == 1;
    assert LastBefore(q, 1, 0) == 0 && LastBefore(q, 1, 1) == LastBefore(q, 0, 1) == -1;
    assert FirstBehind(q, 1, 0) == 0;
    assert Rewritten(q, 1, 0) && !Rewritten(q, 1, 1);
    assert ChainAfter(table, q, 1, 0) && ChainAfter(table, q, 1, 1);
    var c :| Positions(q, c) && Walk(table[0], q, c) && ServedBut(q, 1, 0, c);
    var d :| Positions(q, d) && Walk(table[1], q, d) && ServedBut(q, 1, 1, d);
    assert 0 in SlotsOf(1, 0) && 1 !in SlotsOf(1, 0) && 1 in SlotsOf(0, 0);
    OneElement(c, 0);
    OneElement(d, 1);
    assert WalkAt(q, c, 0);
  }

  lemma {:induction false} OneElement(c: seq<nat>, x: nat)
    requires (forall a, b :: 0 <= a < b < |c| ==> c[a] < c[b]) && (forall i :: 0 <= i < |c| ==> c[i] < 2)
    requires x < 2 && forall i: nat :: i < 2 ==> (i in c <==> i == x)
    ensures c == [x]
  {
    assert x in c;
    forall i | 0 <= i < |c|
      ensures c[i] == x && i == 0
    {
      assert c[i] in c && c[0] in c;
    }
    assert c[|c| - 1] == x;
  }

  /** Two endpoints of periods 2 and 1 are linked into an empty tree.  Unlinking the second leaves chains that
      do not implement the schedule without it: slot 0 polls the first only, slot 1 still the second. */
  method UnlinkFails() returns (t: Tree, a: Ed, b: Ed)
    ensures fresh(t) && fresh(b) && b.state == ED_UNLINK && b !in Eds(t.sched)
    ensures t.table.Length == SLOTS && t.table[0] == a && a.hwNextED == null && t.table[1] == b
    ensures Structured(t.sched, t.isoFrom, t.isoCount, t.isoTail)
    ensures !(Headed(t.table, t.sched) && Linked(t.sched))
  {
    t, a, b := LinkTwo();
    TwoEntriesAreStuck(a, b);
    assert t.sched[0].ed == a && t.sched[1].ed == b;
    t.UnlinkInterrupt(b);
    StillThere(t.table, a, b);
  }

  method LinkFirstIso() returns (t: Tree, a: Ed)
    ensures fresh(t) && fresh(t.table) && fresh(t.loads) && fresh(a) && a.kind == ISO
    ensures t.Valid() && t.sched == [IsoEntry(a)] && t.isoTail == a && t.isoCount == 1 && t.lost == []
  {
    t := new Tree();
    a := new Ed(ISO);
    t.LinkIso(a);
    assert Append([], 0, IsoEntry(a)) == [IsoEntry(a)];
  }

  method LinkBetween() returns (t: Tree, a: Ed, b: Ed)
    ensures fresh(t) && fresh(t.table) && fresh(t.loads) && fresh(a) && fresh(b) && a.kind == ISO && b.kind == INT
    ensures t.Valid() && t.sched == [IsoEntry(a), Entry(b, 0, 0, SlotsOf(0, 0), 1)] && t.isoTail == a
    ensures t.isoCount == 1 && t.lost == [] && b.state == ED_OPER
  {
    t, a := LinkFirstIso();
    b := NewInterrupt(1);
    ghost var slot := LeastSlot(t.loads[..], SLOTS);
    ghost var f := t.LinkInterrupt(b);
    SecondEntry(f, b, slot);
    LinkedBehind(IsoEntry(a), f);
  }

  /** An endpoint polled in every frame is linked between two isochronous ones.  The second of these cuts it off:
      it is operational and its load is charged, but no chain contains it. */
  method CutOff() returns (t: Tree, b: Ed)
    ensures fresh(t) && fresh(b) && t.Valid()
    ensures b.state == ED_OPER && b !in Eds(t.sched)
    ensures t.lost == [Entry(b, 0, 0, SlotsOf(0, 0), 1)]
  {
    var a;
    t, a, b := LinkBetween();
    assert IsoAt(t.sched, t.isoFrom, 1, 0) && IsoAt(t.sched, t.isoFrom, 1, 1);
    assert t.IsoEnd() == 1;
    var c := new Ed(ISO);
    t.LinkIso(c);
    assert t.sched == [IsoEntry(a), IsoEntry(c)];
  }
}

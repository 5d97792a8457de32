/** What the 32 interrupt chains mean.

    A schedule lists the linked endpoints by non-increasing interval, each with the set of slots that
    serve it.  Slot s serves its endpoints in that order, and all 32 chains are threaded through one
    hwNextED per endpoint.  That works because the slot sets are nested or disjoint. */
module Schedule {
  import opened BitReverse
  import opened LoadBalance
  import opened OhciTypes

  /** An endpoint polled every 2^k frames, in the frames of `slots`; `branch` is one of them, `load` its
      share of each. */
  datatype Entry = Entry(ed: Ed, k: nat, branch: nat, slots: set<nat>, load: nat)

  ghost predicate NoneCovers(q: seq<Entry>, i: nat, j: nat, s: nat)
    requires j <= |q|
  {
    forall x :: i <= x < j ==> s !in q[x].slots
  }

  /** Position of the first entry from j on that serves slot s; |q| if there is none. */
  ghost function First(q: seq<Entry>, j: nat, s: nat): (f: nat)
    requires j <= |q|
    ensures j <= f <= |q|
    decreases |q| - j
  {
    if j == |q| || s in q[j].slots then j else First(q, j + 1, s)
  }

  lemma {:induction false} FirstCovers(q: seq<Entry>, j: nat, s: nat)
    requires j <= |q|
    ensures NoneCovers(q, j, First(q, j, s), s)
    ensures First(q, j, s) < |q| ==> s in q[First(q, j, s)].slots
    decreases |q| - j
  {
    if j < |q| && s !in q[j].slots {
      FirstCovers(q, j + 1, s);
    }
  }

  lemma {:induction false} FirstIs(q: seq<Entry>, j: nat, s: nat, f: nat)
    requires j <= f <= |q| && NoneCovers(q, j, f, s)
    requires f < |q| ==> s in q[f].slots
    ensures First(q, j, s) == f
    decreases |q| - j
  {
    if j < f {
      FirstIs(q, j + 1, s, f);
    }
  }

  ghost function EdAt(q: seq<Entry>, f: nat): Ed? {
    if f < |q| then q[f].ed else null
  }

  ghost predicate Nested(a: set<nat>, b: set<nat>) {
    a <= b || a !! b
  }

  ghost predicate EntryOk(q: seq<Entry>, i: nat)
    requires i < |q|
  {
    q[i].branch in q[i].slots && forall s :: s in q[i].slots ==> s < SLOTS
  }

  ghost predicate PairOk(q: seq<Entry>, i: nat, j: nat)
    requires i < |q| && j < |q|
  {
    q[i].ed != q[j].ed && q[i].k >= q[j].k && Nested(q[i].slots, q[j].slots)
  }

  ghost predicate WellFormed(q: seq<Entry>) {
    && (forall i :: 0 <= i < |q| ==> EntryOk(q, i))
    && (forall i, j :: 0 <= i < j < |q| ==> PairOk(q, i, j))
  }

  ghost function Eds(q: seq<Entry>): set<Ed> {
    set e | e in q :: e.ed
  }

  /** The table cell of slot s points to the first entry that serves s. */
  ghost predicate HeadedAt(table: array<Ed?>, q: seq<Entry>, s: nat)
    requires s < table.Length
    reads table
  {
    table[s] == EdAt(q, First(q, 0, s))
  }

  ghost predicate Headed(table: array<Ed?>, q: seq<Entry>)
    reads table
  {
    table.Length == SLOTS && forall s: nat :: s < SLOTS ==> HeadedAt(table, q, s)
  }

  /** An entry's hwNextED points to the next entry that serves its own branch. */
  ghost predicate LinkedAt(q: seq<Entry>, j: nat)
    requires j < |q|
    reads q[j].ed`hwNextED
  {
    q[j].ed.hwNextED == EdAt(q, First(q, j + 1, q[j].branch))
  }

  ghost predicate Linked(q: seq<Entry>)
    reads Eds(q)`hwNextED
  {
    forall j :: 0 <= j < |q| ==> LinkedAt(q, j)
  }

  ghost predicate LabelledAt(q: seq<Entry>, j: nat)
    requires j < |q|
    reads q[j].ed`intInterval, q[j].ed`intBranch, q[j].ed`intLoad
  {
    && q[j].ed.intInterval == Pow2(q[j].k)
    && (q[j].ed.kind == INT ==> q[j].ed.intBranch == q[j].branch && q[j].ed.intLoad == q[j].load)
  }

  ghost predicate Labelled(q: seq<Entry>)
    reads Eds(q)`intInterval, Eds(q)`intBranch, Eds(q)`intLoad
  {
    forall j :: 0 <= j < |q| ==> LabelledAt(q, j)
  }

  ghost predicate Threaded(table: array<Ed?>, q: seq<Entry>)
    reads table, Eds(q)
  {
    Headed(table, q) && Linked(q) && Labelled(q)
  }

  // ---------- the chain of a slot

  /** Positions of the entries from j on that serve slot s. */
  ghost function Served(q: seq<Entry>, j: nat, s: nat): seq<nat>
    requires j <= |q|
    decreases |q| - j
  {
    var f := First(q, j, s);
    if f == |q| then [] else [f] + Served(q, f + 1, s)
  }

  ghost predicate Positions(q: seq<Entry>, c: seq<nat>) {
    forall i :: 0 <= i < |c| ==> c[i] < |q|
  }

  ghost function PointerTo(q: seq<Entry>, c: seq<nat>, i: nat): Ed? {
    if i < |c| then EdAt(q, c[i]) else null
  }

  ghost predicate WalkAt(q: seq<Entry>, c: seq<nat>, i: nat)
    requires Positions(q, c) && i < |c|
    reads q[c[i]].ed`hwNextED
  {
    q[c[i]].ed.hwNextED == PointerTo(q, c, i + 1)
  }

  /** Following hwNextED from p visits exactly the entries at positions c and ends at null. */
  ghost predicate Walk(p: Ed?, q: seq<Entry>, c: seq<nat>)
    requires Positions(q, c)
    reads Eds(q)`hwNextED
  {
    p == PointerTo(q, c, 0) && forall i :: 0 <= i < |c| ==> WalkAt(q, c, i)
  }

  /** Exactly the positions from j on that serve s, in increasing order. */
  ghost predicate AllServed(q: seq<Entry>, j: nat, s: nat, c: seq<nat>) {
    && Positions(q, c)
    && (forall i :: 0 <= i < |c| ==> j <= c[i] && s in q[c[i]].slots)
    && (forall x :: j <= x < |q| && s in q[x].slots ==> x in c)
    && (forall a, b :: 0 <= a < b < |c| ==> c[a] < c[b])
  }

  lemma {:induction false} ServedIsAll(q: seq<Entry>, j: nat, s: nat)
    requires j <= |q|
    ensures AllServed(q, j, s, Served(q, j, s))
    decreases |q| - j
  {
    var f := First(q, j, s);
    FirstCovers(q, j, s);
    if f < |q| {
      ServedIsAll(q, f + 1, s);
    }
  }

  /** Two slots of one entry see the same later entries. */
  lemma {:induction false} SharedFirst(q: seq<Entry>, j: nat, s: nat, t: nat)
    requires WellFormed(q) && j < |q| && s in q[j].slots && t in q[j].slots
    ensures First(q, j + 1, s) == First(q, j + 1, t)
  {
    var f := First(q, j + 1, s);
    FirstCovers(q, j + 1, s);
    forall x | j + 1 <= x < |q|
      ensures s in q[x].slots <==> t in q[x].slots
    {
      assert PairOk(q, j, x);
    }
    FirstIs(q, j + 1, t, f);
  }

  lemma {:induction false} WalkFrom(q: seq<Entry>, j: nat, s: nat)
    requires WellFormed(q) && Linked(q) && j <= |q|
    ensures Positions(q, Served(q, j, s)) && Walk(EdAt(q, First(q, j, s)), q, Served(q, j, s))
    decreases |q| - j
  {
    var f := First(q, j, s);
    if f < |q| {
      FirstCovers(q, j, s);
      WalkFrom(q, f + 1, s);
      assert EntryOk(q, f) && LinkedAt(q, f);
      SharedFirst(q, f, s, q[f].branch);
      var c, d := Served(q, j, s), Served(q, f + 1, s);
      forall i | 0 <= i < |c|
        ensures WalkAt(q, c, i)
      {
        if i > 0 {
          assert WalkAt(q, d, i - 1);
        }
      }
    }
  }

  /** The hardware's walk of slot s is finite, never repeats an endpoint, and visits exactly the
      endpoints served in s, longer intervals first. */
  lemma {:induction false} ChainOfSlot(table: array<Ed?>, q: seq<Entry>, s: nat)
    requires WellFormed(q) && Threaded(table, q) && s < SLOTS
    ensures AllServed(q, 0, s, Served(q, 0, s)) && Walk(table[s], q, Served(q, 0, s))
    ensures forall a, b :: 0 <= a < b < |Served(q, 0, s)| ==>
      q[Served(q, 0, s)[a]].ed != q[Served(q, 0, s)[b]].ed && q[Served(q, 0, s)[a]].k >= q[Served(q, 0, s)[b]].k
  {
    ServedIsAll(q, 0, s);
    WalkFrom(q, 0, s);
    assert HeadedAt(table, q, s);
    var c := Served(q, 0, s);
    forall a, b | 0 <= a < b < |c|
      ensures q[c[a]].ed != q[c[b]].ed && q[c[a]].k >= q[c[b]].k
    {
      assert PairOk(q, c[a], c[b]);
    }
  }
}

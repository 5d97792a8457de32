/** The greedy balancer that picks a branch of the interrupt tree for a new endpoint.

    An endpoint polled every 2^k frames at branch b burdens the slots s with s mod 2^k == b. */
module LoadBalance {
  import opened BitReverse

  const SLOTS := 32
  const LEVELS := 5

  lemma {:induction false} SlotCount()
    ensures Pow2(LEVELS) == SLOTS && Pow2(0) == 1
  {
    assert Pow2(5) == 2 * Shl(1, 4) && Shl(1, 4) == 2 * Shl(1, 3) && Shl(1, 3) == 2 * Shl(1, 2);
    assert Shl(1, 2) == 2 * Shl(1, 1);
  }

  /** The first slot with the least load among slots 0..n-1. */
  function LeastSlot(loads: seq<int>, n: nat): (b: nat)
    requires 0 < n <= |loads|
    ensures b < n
    ensures forall i :: 0 <= i < n ==> loads[b] <= loads[i]
    ensures forall i :: 0 <= i < b ==> loads[b] < loads[i]
  {
    if n == 1 then 0 else
      var b := LeastSlot(loads, n - 1);
      if loads[b] > loads[n - 1] then n - 1 else b
  }

  /** Adds load to every slot of a residue class. */
  function Charge(loads: seq<int>, k: nat, branch: nat, load: int): (r: seq<int>)
    ensures |r| == |loads|
    ensures forall s :: 0 <= s < |r| ==> r[s] == loads[s] + (if Low(s, k) == branch then load else 0)
  {
    seq(|loads|, s requires 0 <= s < |loads| => loads[s] + (if Low(s, k) == branch then load else 0))
  }

  /** Stepping by 2^k from one member of a class reaches the next one. */
  lemma {:induction false} NextInClass(i: nat, k: nat, s: nat)
    requires i <= s < i + Pow2(k) && Low(s, k) == Low(i, k)
    ensures s == i
  {
    Parts(i, k);
    Parts(s, k);
    var p, q := Shr(i, k), Shr(s, k);
    if q > p {
      ShlMono(p + 1, q, k);
      ShlSum(p, 1, k);
    } else {
      ShlMono(q, p, k);
    }
  }

  method ChargeSlots(loads: array<int>, interval: nat, branch: nat, load: int, ghost k: nat)
    requires loads.Length == SLOTS && interval == Pow2(k) && branch < interval
    modifies loads
    ensures loads[..] == Charge(old(loads[..]), k, branch, load)
  {
    var i := branch;
    ghost var before := loads[..];
    LowSmall(branch, k);
    forall s | 0 <= s < branch
      ensures Low(s, k) != branch
    {
      LowSmall(s, k);
    }
    while i < SLOTS
      invariant Low(i, k) == branch
      invariant forall s :: 0 <= s < SLOTS ==>
        loads[s] == before[s] + (if Low(s, k) == branch && s < i then load else 0)
    {
      forall s | i <= s < i + interval && Low(s, k) == branch
        ensures s == i
      {
        NextInClass(i, k, s);
      }
      LowAdd(i, k);
      loads[i] := loads[i] + load;
      i := i + interval;
    }
    assert loads[..] == Charge(before, k, branch, load);
  }

  /** Chooses the branch that contains the least loaded slot and charges it. */
  method Balance(loads: array<int>, interval: nat, load: int, ghost k: nat) returns (branch: nat)
    requires loads.Length == SLOTS && interval == Pow2(k)
    modifies loads
    ensures branch == Low(LeastSlot(old(loads[..]), SLOTS), k) < interval
    ensures loads[..] == Charge(old(loads[..]), k, branch, load)
  {
    branch := 0;
    var i := 0;
    while i < SLOTS
      invariant i <= SLOTS
      invariant if i == 0 then branch == 0 else branch == LeastSlot(loads[..], i)
    {
      if loads[branch] > loads[i] {
        branch := i;
      }
      i := i + 1;
    }
    LowIsMod(branch, k);
    branch := branch % interval;
    ChargeSlots(loads, interval, branch, load, k);
  }

  // ---------- how uneven the slots can get

  /** A request to be polled every 2^k frames. */
  datatype Request = Request(k: nat, load: nat)

  ghost predicate Admissible(run: seq<Request>, bound: nat) {
    forall i :: 0 <= i < |run| ==> run[i].k <= LEVELS && run[i].load <= bound
  }

  /** One greedy placement. */
  function Place(loads: seq<int>, r: Request): (out: seq<int>)
    requires |loads| == SLOTS
    ensures |out| == SLOTS
  {
    Charge(loads, r.k, Low(LeastSlot(loads, SLOTS), r.k), r.load)
  }

  function NoLoad(): (z: seq<int>)
    ensures |z| == SLOTS && forall s :: 0 <= s < SLOTS ==> z[s] == 0
  {
    seq(SLOTS, s => 0)
  }

  /** The loads after a run of placements. */
  ghost function Loads(run: seq<Request>): (out: seq<int>)
    ensures |out| == SLOTS
  {
    if run == [] then NoLoad() else Place(Loads(run[..|run| - 1]), run[|run| - 1])
  }

  /** t lies in the sibling of the class of s modulo 2^(m+1). */
  ghost predicate Siblings(s: nat, t: nat, m: nat) {
    Low(s, m) == Low(t, m) && Low(s, m + 1) != Low(t, m + 1)
  }

  ghost predicate HasLightSibling(loads: seq<int>, s: nat, m: nat, bound: nat)
    requires s < |loads|
  {
    exists t: nat :: t < |loads| && Siblings(s, t, m) && loads[t] <= loads[s] + bound
  }

  /** The least loads of any two sibling classes differ by at most bound: whatever slot one takes,
      the sibling class has a slot that is at most bound heavier. */
  ghost predicate Even(loads: seq<int>, bound: nat) {
    forall s: nat, m: nat :: s < |loads| && m < LEVELS ==> HasLightSibling(loads, s, m, bound)
  }

  /** Of three slots in one class, two are in the same half. */
  lemma {:induction false} TwoHalves(s: nat, t: nat, u: nat, m: nat)
    requires Siblings(t, u, m) && Low(s, m) == Low(t, m) && Low(s, m + 1) != Low(t, m + 1)
    ensures Low(s, m + 1) == Low(u, m + 1)
  {
    LowHalves(s, m);
    LowHalves(t, m);
    LowHalves(u, m);
  }

  lemma {:induction false} SameHalf(s: nat, t: nat, k: nat, m: nat)
    requires m <= k && Low(s, k) == Low(t, k)
    ensures Low(s, m) == Low(t, m)
  {
    LowLow(s, k, m);
    LowLow(t, k, m);
  }

  /** Charging the class of a least loaded slot keeps siblings even: if the light sibling of a slot
      got heavier, the least loaded slot takes its place. */
  lemma {:induction false} PlaceKeepsEven(loads: seq<int>, r: Request, bound: nat)
    requires |loads| == SLOTS && Even(loads, bound) && r.load <= bound
    ensures Even(Place(loads, r), bound)
  {
    var after, least := Place(loads, r), LeastSlot(loads, SLOTS);
    forall s: nat, m: nat | s < |after| && m < LEVELS
      ensures HasLightSibling(after, s, m, bound)
    {
      assert HasLightSibling(loads, s, m, bound);
      var t: nat :| t < |loads| && Siblings(s, t, m) && loads[t] <= loads[s] + bound;
      if Low(t, r.k) == Low(least, r.k) && Low(s, r.k) != Low(least, r.k) {
        if r.k <= m {
          SameHalf(s, t, m, r.k);
          assert false;
        }
        SameHalf(t, least, r.k, m);
        SameHalf(t, least, r.k, m + 1);
        assert Siblings(s, least, m) && after[least] <= after[s] + bound;
      } else {
        assert Siblings(s, t, m) && after[t] <= after[s] + bound;
      }
    }
  }

  lemma {:induction false} NoLoadIsEven(bound: nat)
    ensures Even(NoLoad(), bound)
  {
    forall s: nat, m: nat | s < SLOTS && m < LEVELS
      ensures HasLightSibling(NoLoad(), s, m, bound)
    {
      var t := SiblingOf(s, m);
      assert t < |NoLoad()| && Siblings(s, t, m) && NoLoad()[t] <= NoLoad()[s] + bound;
    }
  }

  /** Flipping bit m of a slot gives a sibling. */
  lemma {:induction false} SiblingOf(s: nat, m: nat) returns (t: nat)
    requires m < LEVELS && s < SLOTS
    ensures t < SLOTS && Siblings(s, t, m)
  {
    SlotCount();
    t := Flip(s, m, LEVELS);
  }

  lemma {:induction false} Flip(s: nat, m: nat, n: nat) returns (t: nat)
    requires m < n && s < Pow2(n)
    ensures t < Pow2(n) && Siblings(s, t, m)
  {
    if m == 0 {
      t := if s % 2 == 0 then s + 1 else s - 1;
      assert Low(s, 1) == 2 * Low(s / 2, 0) + s % 2 && Low(t, 1) == 2 * Low(t / 2, 0) + t % 2;
    } else {
      var u := Flip(s / 2, m - 1, n - 1);
      t := 2 * u + s % 2;
    }
  }

  lemma {:induction false} RunStaysEven(run: seq<Request>, bound: nat)
    requires Admissible(run, bound)
    ensures Even(Loads(run), bound)
  {
    if run == [] {
      NoLoadIsEven(bound);
    } else {
      RunStaysEven(run[..|run| - 1], bound);
      PlaceKeepsEven(Loads(run[..|run| - 1]), run[|run| - 1], bound);
    }
  }

  /** Climbing from t towards s, one level of the class tree costs at most bound. */
  lemma {:induction false} Climb(loads: seq<int>, s: nat, t: nat, m: nat, bound: nat)
    requires |loads| == SLOTS && Even(loads, bound) && s < SLOTS && t < SLOTS
    requires m <= LEVELS && Low(s, m) == Low(t, m)
    ensures loads[s] <= loads[t] + (LEVELS - m) * bound
    decreases LEVELS - m
  {
    if m == LEVELS {
      SlotCount();
      LowSmall(s, m);
      LowSmall(t, m);
    } else {
      OneLevel(m, bound);
      if Low(s, m + 1) == Low(t, m + 1) {
        Climb(loads, s, t, m + 1, bound);
      } else {
        assert HasLightSibling(loads, t, m, bound);
        var u: nat :| u < |loads| && Siblings(t, u, m) && loads[u] <= loads[t] + bound;
        TwoHalves(s, t, u, m);
        Climb(loads, s, u, m + 1, bound);
      }
    }
  }

  lemma {:induction false} OneLevel(m: nat, bound: nat)
    requires m < LEVELS
    ensures (LEVELS - m) * bound == (LEVELS - (m + 1)) * bound + bound
  {
  }

  /** After any run of links from an empty tree the heaviest slot carries at most five endpoints'
      worth more than the lightest, whatever the mix of intervals. */
  lemma {:induction false} BalancingBound(run: seq<Request>, bound: nat, s: nat, t: nat)
    requires Admissible(run, bound)
    requires s < SLOTS && t < SLOTS
    ensures Loads(run)[s] - Loads(run)[t] <= LEVELS * bound
  {
    RunStaysEven(run, bound);
    Climb(Loads(run), s, t, 0, bound);
  }
}

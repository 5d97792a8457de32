/** The order in which one link operation visits the slots of a residue class.

    Slots of class b modulo 2^k are numbered 0 .. 2^(5-k)-1 by reversing their bits.  A narrower class
    modulo 2^m is then an aligned run of 2^(5-m) consecutive numbers, so one stride skips it. */
module SlotOrder {
  import opened BitReverse
  import opened LoadBalance

  ghost predicate InClass(s: nat, k: nat, branch: nat) {
    s < SLOTS && Low(s, k) == branch
  }

  function SlotAt(branch: nat, i: nat): nat {
    Rev(LEVELS, i) + branch
  }

  ghost function NumberOf(s: nat, branch: nat): nat {
    if s < branch then 0 else Rev(LEVELS, s - branch)
  }

  function Visits(k: nat): nat
    requires k <= LEVELS
  {
    Pow2(LEVELS - k)
  }

  lemma {:induction false} RevZero(n: nat)
    ensures Rev(n, 0) == 0
  {
    if n > 0 {
      ShlZero(n - 1);
      RevZero(n - 1);
    }
  }

  /** The reversal of a single bit: intervals become strides. */
  lemma {:induction false} RevOfPow2(n: nat, m: nat)
    requires m <= n
    ensures Rev(n + 1, Pow2(m)) == Pow2(n - m)
  {
    if m == 0 {
      RevZero(n);
    } else {
      ShlZero(n);
      RevOfPow2(n - 1, m - 1);
    }
  }

  lemma {:induction false} LowJoin(q: nat, b: nat, k: nat, m: nat)
    requires k <= m && b < Pow2(k)
    ensures Low(Shl(q, k) + b, m) == Shl(Low(q, m - k), k) + b
  {
    if k > 0 {
      assert (Shl(q, k) + b) / 2 == Shl(q, k - 1) + b / 2;
      LowJoin(q, b / 2, k - 1, m - 1);
    }
  }

  /** Within a class, dropping the branch shifts every finer residue by the branch. */
  lemma {:induction false} LowMinusBranch(s: nat, k: nat, branch: nat, m: nat)
    requires k <= m && Low(s, k) == branch
    ensures s >= branch && Low(s, m) == Low(s - branch, m) + branch
  {
    Parts(s, k);
    LowJoin(Shr(s, k), branch, k, m);
    Pow2Mono(0, k);
    LowJoin(Shr(s, k), 0, k, m);
  }

  /** A number below 2^(n-k) reverses to a multiple of 2^k. */
  lemma {:induction false} ReversedVisit(n: nat, k: nat, branch: nat, i: nat)
    requires k <= n && branch < Pow2(k) && i < Pow2(n - k)
    ensures Low(Rev(n, i) + branch, k) == branch && Rev(n, i) + branch < Pow2(n)
    ensures Rev(n, Rev(n, i)) == i
  {
    var r := Rev(n, i);
    Pow2Mono(n - k, n);
    RevInvolution(n, i);
    RevBelow(n, i);
    MultipleOfBlock(n, k, i);
    Parts(r, k);
    JoinParts(Shr(r, k), branch, k);
    BelowBlockEnd(Shr(r, k), branch, k, n);
  }

  lemma {:induction false} MultipleOfBlock(n: nat, k: nat, i: nat)
    requires k <= n && i < Pow2(n - k)
    ensures Low(Rev(n, i), k) == 0
  {
    RevResidue(n, k, i);
    ShrBelow(i, 0, n - k);
    RevZero(k);
  }

  /** Visit number i is a slot of the class ... */
  lemma {:induction false} SlotAtInClass(k: nat, branch: nat, i: nat)
    requires k <= LEVELS && branch < Pow2(k) && i < Visits(k)
    ensures InClass(SlotAt(branch, i), k, branch)
    ensures NumberOf(SlotAt(branch, i), branch) == i
  {
    SlotCount();
    ReversedVisit(LEVELS, k, branch, i);
  }

  lemma {:induction false} BelowBlockEnd(q: nat, b: nat, k: nat, n: nat)
    requires k <= n && b < Pow2(k) && Shl(q, k) < Pow2(n)
    ensures Shl(q, k) + b < Pow2(n)
  {
    ShlShl(1, n - k, k);
    if q >= Pow2(n - k) {
      ShlMono(Pow2(n - k), q, k);
    } else {
      ShlMono(q + 1, Pow2(n - k), k);
      ShlSum(q, 1, k);
    }
  }

  /** ... and every slot of the class has a visit number. */
  lemma {:induction false} NumberInRange(k: nat, branch: nat, s: nat)
    requires k <= LEVELS && InClass(s, k, branch)
    ensures NumberOf(s, branch) < Visits(k) && SlotAt(branch, NumberOf(s, branch)) == s
  {
    SlotCount();
    LowMinusBranch(s, k, branch, k);
    var w := s - branch;
    Parts(s, k);
    RevSplit(k, LEVELS, w);
    ShlZero(LEVELS - k);
    RevIgnoresHighBits(k, 0, Shr(s, k));
    RevZero(k);
    RevBelow(LEVELS - k, Shr(w, k));
    RevInvolution(LEVELS, w);
  }

  lemma {:induction false} SameResidueSameBlock(n: nat, m: nat, v: nat, w: nat)
    requires m <= n && v < Pow2(n) && w < Pow2(n)
    ensures Low(v, m) == Low(w, m) <==> Shr(Rev(n, v), n - m) == Shr(Rev(n, w), n - m)
  {
    var i, j := Rev(n, v), Rev(n, w);
    RevBelow(n, v);
    RevBelow(n, w);
    RevInvolution(n, v);
    RevInvolution(n, w);
    ShrBelow(j, m, n - m);
    BlockIsResidueClass(n, m, Shr(j, n - m), i);
    RevResidue(n, m, j);
  }

  /** Two slots of a class share a finer residue exactly when their numbers share an aligned block. */
  lemma {:induction false} FinerClassIsBlock(k: nat, branch: nat, m: nat, s: nat, t: nat)
    requires k <= m <= LEVELS && InClass(s, k, branch) && InClass(t, k, branch)
    ensures Low(s, m) == Low(t, m)
       <==> Shr(NumberOf(s, branch), LEVELS - m) == Shr(NumberOf(t, branch), LEVELS - m)
  {
    SlotCount();
    LowMinusBranch(s, k, branch, m);
    LowMinusBranch(t, k, branch, m);
    SameResidueSameBlock(LEVELS, m, s - branch, t - branch);
  }

  /** The slots already visited when the counter stands at i. */
  ghost function Visited(k: nat, branch: nat, i: nat): set<nat> {
    set s: nat | s < SLOTS && InClass(s, k, branch) && NumberOf(s, branch) < i
  }

  /** The slots of a class that share the finer residue of s. */
  ghost function FinerClass(k: nat, branch: nat, m: nat, s: nat): set<nat> {
    set t: nat | t < SLOTS && InClass(t, k, branch) && Low(t, m) == Low(s, m)
  }

  lemma {:induction false} VisitedAll(k: nat, branch: nat, i: nat, s: nat)
    requires k <= LEVELS && i >= Visits(k) && InClass(s, k, branch)
    ensures s in Visited(k, branch, i)
  {
    NumberInRange(k, branch, s);
  }

  lemma {:induction false} VisitOne(k: nat, branch: nat, i: nat)
    requires k <= LEVELS && branch < Pow2(k) && i < Visits(k)
    ensures Visited(k, branch, i + 1) == Visited(k, branch, i) + {SlotAt(branch, i)}
    ensures SlotAt(branch, i) !in Visited(k, branch, i)
  {
    SlotAtInClass(k, branch, i);
    forall s: nat | InClass(s, k, branch) && NumberOf(s, branch) == i
      ensures s == SlotAt(branch, i)
    {
      NumberInRange(k, branch, s);
    }
  }

  /** If nothing of the finer class of the current slot has been visited, the counter stands at the
      start of that class's block. */
  lemma {:induction false} StandsAtBlockStart(k: nat, branch: nat, m: nat, i: nat)
    requires k <= m <= LEVELS && branch < Pow2(k) && i < Visits(k)
    requires FinerClass(k, branch, m, SlotAt(branch, i)) !! Visited(k, branch, i)
    ensures i == Shl(Shr(i, LEVELS - m), LEVELS - m)
  {
    var s, z := SlotAt(branch, i), LEVELS - m;
    SlotAtInClass(k, branch, i);
    var start := Shl(Shr(i, z), z);
    Parts(i, z);
    Pow2Mono(0, z);
    JoinParts(Shr(i, z), 0, z);
    SlotAtInClass(k, branch, start);
    FinerClassIsBlock(k, branch, m, SlotAt(branch, start), s);
    assert SlotAt(branch, start) in FinerClass(k, branch, m, s);
  }

  /** Skipping 2^(5-m) numbers visits the finer class of the current slot, provided none of that class
      has been visited before. */
  lemma {:induction false} VisitFinerClass(k: nat, branch: nat, m: nat, i: nat)
    requires k <= m <= LEVELS && branch < Pow2(k) && i < Visits(k)
    requires FinerClass(k, branch, m, SlotAt(branch, i)) !! Visited(k, branch, i)
    ensures Visited(k, branch, i + Pow2(LEVELS - m))
         == Visited(k, branch, i) + FinerClass(k, branch, m, SlotAt(branch, i))
  {
    var s := SlotAt(branch, i);
    SlotAtInClass(k, branch, i);
    StandsAtBlockStart(k, branch, m, i);
    forall t: nat | InClass(t, k, branch)
      ensures NumberOf(t, branch) < i + Pow2(LEVELS - m) <==> NumberOf(t, branch) < i || Low(t, m) == Low(s, m)
    {
      FinerClassIsBlock(k, branch, m, t, s);
      SameBlock(NumberOf(t, branch), i, LEVELS - m);
    }
  }

  /** Numbers in the block that starts at i. */
  lemma {:induction false} SameBlock(x: nat, i: nat, z: nat)
    requires i == Shl(Shr(i, z), z)
    ensures Shr(x, z) == Shr(i, z) <==> i <= x < i + Pow2(z)
  {
    Parts(x, z);
    var p, q := Shr(i, z), Shr(x, z);
    if q > p {
      ShlMono(p + 1, q, z);
      ShlSum(p, 1, z);
    } else if q < p {
      ShlMono(q + 1, p, z);
      ShlSum(q, 1, z);
    }
  }
}

/** The local-memory allocator as a function on lists of blocks: first fit, split from the tail, merge
    with a free block that ends where the freed block begins. */
module MemoryModel {
  import opened Sequences

  const UNIT := 65536
  const MAX_REGIONS := 16
  const GRAIN := 256

  datatype Block = Block(p: nat, size: nat)

  /** What the platform gives when asked for another region, already mapped to an address. */
  datatype Grant = NoRegion | Region(base: nat)

  /** The allocator's state; `regions` lists the granted regions. */
  datatype Mem = Mem(free: seq<Block>, used: seq<Block>, regions: seq<Block>, insufficient: nat)

  function RoundUp(size: nat): nat {
    ((size + 255) / 256) * 256
  }

  // ---------- the operations

  /** Asking for another region; past the limit nothing happens. */
  function Grow(m: Mem, g: Grant): Mem {
    if MAX_REGIONS < |m.regions| || g.NoRegion? then m
    else m.(free := [Block(g.base, UNIT)] + m.free, regions := m.regions + [Block(g.base, UNIT)])
  }

  function FirstFit(bs: seq<Block>, n: nat, i: nat): (f: nat)
    requires i <= |bs|
    ensures i <= f <= |bs|
    ensures f < |bs| ==> bs[f].size >= n
    ensures forall x :: i <= x < f ==> bs[x].size < n
    decreases |bs| - i
  {
    if i == |bs| || bs[i].size >= n then i else FirstFit(bs, n, i + 1)
  }

  /** Takes n bytes from the first free block that has them: the block itself if it fits exactly, else its
      tail, which is lost if no list cell can be had for it. */
  function Take(m: Mem, n: nat, cell: bool): (Mem, nat) {
    var f := FirstFit(m.free, n, 0);
    if f == |m.free| then (m.(insufficient := m.insufficient + 1), 0)
    else
      var b := m.free[f];
      if b.size == n then (m.(free := Without(m.free, f), used := [b] + m.used), b.p)
      else
        var rest, tail := Block(b.p, b.size - n), Block(b.p + (b.size - n), n);
        if cell then (m.(free := m.free[f := rest], used := [tail] + m.used), tail.p)
        else (m.(free := m.free[f := rest]), 0)
  }

  function Fits(m: Mem, n: nat): bool {
    FirstFit(m.free, n, 0) < |m.free|
  }

  /** Outside interrupts an earlier shortage is answered by growing first. */
  function Refill(m: Mem, inInterrupt: bool, g: Grant): Mem {
    if !inInterrupt && m.insufficient > 0 then Grow(m.(insufficient := 0), g) else m
  }

  function Alloc(m: Mem, size: nat, inInterrupt: bool, first: Grant, second: Grant, cell: bool): (Mem, nat) {
    var n := RoundUp(size);
    var a := Refill(m, inInterrupt, first);
    if Fits(a, n) then Take(a, n, cell) else Take(Refill(Take(a, n, cell).0, inInterrupt, second), n, cell)
  }

  function FindAddress(bs: seq<Block>, p: nat, i: nat): (f: nat)
    requires i <= |bs|
    ensures i <= f <= |bs|
    ensures f < |bs| ==> bs[f].p == p
    ensures forall x :: i <= x < f ==> bs[x].p != p
    decreases |bs| - i
  {
    if i == |bs| || bs[i].p == p then i else FindAddress(bs, p, i + 1)
  }

  function FindEnd(bs: seq<Block>, p: nat, i: nat): (f: nat)
    requires i <= |bs|
    ensures i <= f <= |bs|
    ensures f < |bs| ==> bs[f].p + bs[f].size == p
    ensures forall x :: i <= x < f ==> bs[x].p + bs[x].size != p
    decreases |bs| - i
  {
    if i == |bs| || bs[i].p + bs[i].size == p then i else FindEnd(bs, p, i + 1)
  }

  /** Gives back the block at p; address 0 and unknown addresses change nothing. */
  function Free(m: Mem, p: nat): (Mem, bool) {
    var u := FindAddress(m.used, p, 0);
    if p == 0 || u == |m.used| then (m, false)
    else
      var b, f := m.used[u], FindEnd(m.free, p, 0);
      if f < |m.free| then
        (m.(free := m.free[f := Block(m.free[f].p, m.free[f].size + b.size)], used := Without(m.used, u)), true)
      else (m.(free := [b] + m.free, used := Without(m.used, u)), true)
  }

  // ---------- the partition

  predicate Holds(b: Block, a: int) {
    b.p <= a < b.p + b.size
  }

  /** How many blocks of bs hold address a. */
  ghost function Count(bs: seq<Block>, a: int): nat {
    if bs == [] then 0 else Count(bs[..|bs| - 1], a) + (if Holds(bs[|bs| - 1], a) then 1 else 0)
  }

  ghost predicate Aligned(b: Block, r: Block) {
    (exists a :: Holds(b, a) && Holds(r, a)) ==> (b.p - r.p) % GRAIN == 0
  }

  /** A block is a positive number of grains and starts on a grain of every region it touches. */
  ghost predicate GoodBlock(b: Block, regions: seq<Block>) {
    b.size > 0 && b.size % GRAIN == 0 && b.p > 0 && forall r :: r in regions ==> Aligned(b, r)
  }

  ghost predicate Good(bs: seq<Block>, regions: seq<Block>) {
    forall i :: 0 <= i < |bs| ==> GoodBlock(bs[i], regions)
  }

  ghost predicate CountedAt(m: Mem, a: int) {
    Count(m.free, a) + Count(m.used, a) == Count(m.regions, a) <= 1
  }

  /** The free and the used blocks together hold every byte of the granted regions exactly once. */
  ghost predicate Partition(m: Mem) {
    && Good(m.free, m.regions)
    && Good(m.used, m.regions)
    && (forall i :: 0 <= i < |m.regions| ==> m.regions[i].p > 0 && m.regions[i].size == UNIT)
    && forall a :: CountedAt(m, a)
  }

  lemma {:induction false} CountSum(bs: seq<Block>, cs: seq<Block>, a: int)
    ensures Count(bs + cs, a) == Count(bs, a) + Count(cs, a)
  {
    if cs == [] {
      assert bs + cs == bs;
    } else {
      assert (bs + cs)[..|bs + cs| - 1] == bs + cs[..|cs| - 1];
      CountSum(bs, cs[..|cs| - 1], a);
    }
  }

  lemma {:induction false} CountOne(b: Block, a: int)
    ensures Count([b], a) == if Holds(b, a) then 1 else 0
  {
    assert [b][..0] == [];
  }

  lemma {:induction false} CountSplit(bs: seq<Block>, i: nat, a: int)
    requires i < |bs|
    ensures Count(bs, a) == Count(bs[..i], a) + (if Holds(bs[i], a) then 1 else 0) + Count(bs[i + 1..], a)
  {
    assert bs == bs[..i] + [bs[i]] + bs[i + 1..];
    CountSum(bs[..i] + [bs[i]], bs[i + 1..], a);
    CountSum(bs[..i], [bs[i]], a);
    CountOne(bs[i], a);
  }

  lemma {:induction false} CountDrop(bs: seq<Block>, i: nat, a: int)
    requires i < |bs|
    ensures Count(Without(bs, i), a) == Count(bs, a) - (if Holds(bs[i], a) then 1 else 0)
  {
    CountSplit(bs, i, a);
    CountSum(bs[..i], bs[i + 1..], a);
  }

  lemma {:induction false} CountUpdate(bs: seq<Block>, i: nat, b: Block, a: int)
    requires i < |bs|
    ensures Count(bs[i := b], a)
         == Count(bs, a) - (if Holds(bs[i], a) then 1 else 0) + (if Holds(b, a) then 1 else 0)
  {
    CountSplit(bs, i, a);
    CountSplit(bs[i := b], i, a);
    assert bs[i := b][..i] == bs[..i] && bs[i := b][i + 1..] == bs[i + 1..];
  }

  lemma {:induction false} CountPrepend(b: Block, bs: seq<Block>, a: int)
    ensures Count([b] + bs, a) == (if Holds(b, a) then 1 else 0) + Count(bs, a)
  {
    CountSum([b], bs, a);
    CountOne(b, a);
  }

  lemma {:induction false} CountsMember(bs: seq<Block>, i: nat, a: int)
    requires i < |bs| && Holds(bs[i], a)
    ensures Count(bs, a) >= 1
  {
    CountSplit(bs, i, a);
  }

  // ---------- the operations keep the partition

  lemma {:induction false} RoundUpIsGrain(size: nat)
    requires size > 0
    ensures RoundUp(size) % GRAIN == 0 && size <= RoundUp(size) < size + GRAIN
  {
  }

  lemma {:induction false} GrainSums(x: int, y: int)
    requires x % GRAIN == 0 && y % GRAIN == 0
    ensures (x + y) % GRAIN == 0 && (x - y) % GRAIN == 0
  {
  }

  lemma {:induction false} PartAligned(b: Block, part: Block, r: Block)
    requires Aligned(b, r) && b.p <= part.p && part.p + part.size <= b.p + b.size && (part.p - b.p) % GRAIN == 0
    ensures Aligned(part, r)
  {
    if a :| Holds(part, a) && Holds(r, a) {
      assert Holds(b, a);
      GrainSums(b.p - r.p, part.p - b.p);
      assert (b.p - r.p) + (part.p - b.p) == part.p - r.p;
    }
  }

  lemma {:induction false} GoodTail(b: Block, n: nat, regions: seq<Block>)
    requires GoodBlock(b, regions) && 0 < n < b.size && n % GRAIN == 0
    ensures GoodBlock(Block(b.p, b.size - n), regions)
    ensures GoodBlock(Block(b.p + (b.size - n), n), regions)
  {
    var rest, tail := Block(b.p, b.size - n), Block(b.p + (b.size - n), n);
    GrainSums(b.size, n);
    forall r | r in regions
      ensures Aligned(rest, r) && Aligned(tail, r)
    {
      PartAligned(b, rest, r);
      PartAligned(b, tail, r);
    }
  }

  lemma {:induction false} GoodMerge(b: Block, c: Block, regions: seq<Block>)
    requires GoodBlock(b, regions) && GoodBlock(c, regions) && b.p + b.size == c.p
    ensures GoodBlock(Block(b.p, b.size + c.size), regions)
  {
    var d := Block(b.p, b.size + c.size);
    forall r | r in regions
      ensures Aligned(d, r)
    {
      assert Aligned(b, r) && Aligned(c, r);
      forall a | Holds(d, a) && Holds(r, a)
        ensures Holds(b, a) || Holds(c, a)
      {
      }
    }
  }

  lemma {:induction false} TakeCounts(m: Mem, n: nat, a: int)
    requires CountedAt(m, a)
    ensures CountedAt(Take(m, n, true).0, a)
  {
    var f := FirstFit(m.free, n, 0);
    if f < |m.free| {
      var b := m.free[f];
      if b.size == n {
        CountDrop(m.free, f, a);
        CountPrepend(b, m.used, a);
      } else {
        CountUpdate(m.free, f, Block(b.p, b.size - n), a);
        CountPrepend(Block(b.p + (b.size - n), n), m.used, a);
      }
    }
  }

  lemma {:induction false} TakeKeepsPartition(m: Mem, n: nat)
    requires Partition(m) && n > 0 && n % GRAIN == 0
    ensures Partition(Take(m, n, true).0)
  {
    var f := FirstFit(m.free, n, 0);
    if f < |m.free| && m.free[f].size > n {
      GoodTail(m.free[f], n, m.regions);
    }
    forall a
      ensures CountedAt(Take(m, n, true).0, a)
    {
      assert CountedAt(m, a);
      TakeCounts(m, n, a);
    }
  }

  lemma {:induction false} FreeCounts(m: Mem, p: nat, a: int)
    requires CountedAt(m, a)
    ensures CountedAt(Free(m, p).0, a)
  {
    var u := FindAddress(m.used, p, 0);
    if p != 0 && u < |m.used| {
      var b, f := m.used[u], FindEnd(m.free, p, 0);
      CountDrop(m.used, u, a);
      if f < |m.free| {
        CountUpdate(m.free, f, Block(m.free[f].p, m.free[f].size + b.size), a);
      } else {
        CountPrepend(b, m.free, a);
      }
    }
  }

  lemma {:induction false} FreeKeepsPartition(m: Mem, p: nat)
    requires Partition(m)
    ensures Partition(Free(m, p).0)
  {
    var u, t := FindAddress(m.used, p, 0), Free(m, p).0;
    forall a
      ensures CountedAt(t, a)
    {
      assert CountedAt(m, a);
      FreeCounts(m, p, a);
    }
    if p != 0 && u < |m.used| {
      var b, f := m.used[u], FindEnd(m.free, p, 0);
      if f < |m.free| {
        GoodMerge(m.free[f], b, m.regions);
      }
    }
  }

  /** A granted region shares no byte with the regions granted before. */
  ghost predicate Apart(m: Mem, g: Grant) {
    g.Region? ==> g.base > 0 && forall a :: Holds(Block(g.base, UNIT), a) ==> Count(m.regions, a) == 0
  }

  lemma {:induction false} GoodWithRegion(bs: seq<Block>, m: Mem, g: Block)
    requires Good(bs, m.regions) && (forall a :: Holds(g, a) ==> Count(m.regions, a) == 0)
    requires forall a :: Count(bs, a) <= Count(m.regions, a)
    ensures Good(bs, m.regions + [g])
  {
    forall i | 0 <= i < |bs|
      ensures GoodBlock(bs[i], m.regions + [g])
    {
      assert GoodBlock(bs[i], m.regions);
      forall a | Holds(bs[i], a) && Holds(g, a)
        ensures false
      {
        CountsMember(bs, i, a);
      }
      assert Aligned(bs[i], g);
    }
  }

  lemma {:induction false} GrowCounts(m: Mem, r: Block, a: int)
    requires CountedAt(m, a) && (Holds(r, a) ==> Count(m.regions, a) == 0)
    ensures Count([r] + m.free, a) + Count(m.used, a) == Count(m.regions + [r], a) <= 1
  {
    CountPrepend(r, m.free, a);
    CountSum(m.regions, [r], a);
    CountOne(r, a);
  }

  /** A region is aligned with itself, and with those it shares no byte with. */
  lemma {:induction false} GoodRegion(r: Block, regions: seq<Block>)
    requires r.size == UNIT && r.p > 0 && forall a :: Holds(r, a) ==> Count(regions, a) == 0
    ensures GoodBlock(r, regions + [r])
  {
    forall x | x in regions + [r]
      ensures Aligned(r, x)
    {
      if x != r {
        var i :| 0 <= i < |regions| && regions[i] == x;
        if a :| Holds(r, a) && Holds(x, a) {
          CountsMember(regions, i, a);
          assert false;
        }
      }
    }
  }

  /** Old blocks stay good when a region joins. */
  lemma {:induction false} StayGood(m: Mem, bs: seq<Block>, r: Block)
    requires Partition(m) && Good(bs, m.regions) && (bs == m.free || bs == m.used)
    requires forall a :: Holds(r, a) ==> Count(m.regions, a) == 0
    ensures Good(bs, m.regions + [r])
  {
    forall a
      ensures Count(bs, a) <= Count(m.regions, a)
    {
      assert CountedAt(m, a);
    }
    GoodWithRegion(bs, m, r);
  }

  lemma {:induction false} GrowKeepsPartition(m: Mem, g: Grant)
    requires Partition(m) && Apart(m, g)
    ensures Partition(Grow(m, g))
  {
    if |m.regions| <= MAX_REGIONS && g.Region? {
      var r, t := Block(g.base, UNIT), Grow(m, g);
      StayGood(m, m.free, r);
      StayGood(m, m.used, r);
      GoodRegion(r, m.regions);
      forall a
        ensures CountedAt(t, a)
      {
        assert CountedAt(m, a);
        GrowCounts(m, r, a);
      }
    }
  }

  lemma {:induction false} RefillKeepsPartition(m: Mem, inInterrupt: bool, g: Grant)
    requires Partition(m) && Apart(m, g)
    ensures Partition(Refill(m, inInterrupt, g))
  {
    var n := m.(insufficient := 0);
    forall a
      ensures CountedAt(n, a)
    {
      assert CountedAt(m, a);
    }
    GrowKeepsPartition(n, g);
  }

  /** An allocation keeps the partition, with or without growing. */
  lemma {:induction false} AllocKeepsPartition(m: Mem, size: nat, inInterrupt: bool, first: Grant, second: Grant)
    requires Partition(m) && size > 0 && Apart(m, first) && Apart(Refill(m, inInterrupt, first), second)
    ensures Partition(Alloc(m, size, inInterrupt, first, second, true).0)
  {
    var n := RoundUp(size);
    RoundUpIsGrain(size);
    var a := Refill(m, inInterrupt, first);
    RefillKeepsPartition(m, inInterrupt, first);
    TakeKeepsPartition(a, n);
    if !Fits(a, n) {
      RefillKeepsPartition(Take(a, n, true).0, inInterrupt, second);
      TakeKeepsPartition(Refill(Take(a, n, true).0, inInterrupt, second), n);
    }
  }

  /** In a partition no two blocks share a byte. */
  lemma {:induction false} BlocksAreDisjoint(m: Mem, i: nat, j: nat, a: int)
    requires Partition(m) && i < j < |m.free + m.used|
    ensures !(Holds((m.free + m.used)[i], a) && Holds((m.free + m.used)[j], a))
  {
    var bs := m.free + m.used;
    assert CountedAt(m, a);
    CountSum(m.free, m.used, a);
    CountSplit(bs, i, a);
    if Holds(bs[i], a) && Holds(bs[j], a) {
      assert bs[i + 1..][j - i - 1] == bs[j];
      CountsMember(bs[i + 1..], j - i - 1, a);
    }
  }

  /** In a partition, the newest used block has an address of its own. */
  lemma {:induction false} NewestIsAlone(t: Mem, b: Block)
    requires Partition(t) && t.used != [] && b in t.used[1..]
    ensures b.p != t.used[0].p
  {
    var j :| 0 <= j < |t.used[1..]| && t.used[1..][j] == b;
    var i := |t.free|;
    assert (t.free + t.used)[i] == t.used[0] && (t.free + t.used)[i + 1 + j] == b;
    assert GoodBlock(t.used[0], t.regions) && GoodBlock(t.used[1 + j], t.regions);
    BlocksAreDisjoint(t, i, i + 1 + j, b.p);
  }

  /** A successful allocation hands out one new block; what was in use stays in use, elsewhere. */
  lemma {:induction false} AllocIsNew(m: Mem, size: nat, inInterrupt: bool, first: Grant, second: Grant)
    requires Partition(m) && size > 0 && Apart(m, first) && Apart(Refill(m, inInterrupt, first), second)
    ensures var (t, p) := Alloc(m, size, inInterrupt, first, second, true);
            if p == 0 then t.used == m.used
            else t.used == [Block(p, RoundUp(size))] + m.used && forall b :: b in m.used ==> b.p != p
  {
    var (t, p) := Alloc(m, size, inInterrupt, first, second, true);
    AllocKeepsPartition(m, size, inInterrupt, first, second);
    AllocSource(m, size, inInterrupt, first, second);
    if p != 0 {
      assert t.used[1..] == m.used;
      forall b | b in m.used
        ensures b.p != p
      {
        NewestIsAlone(t, b);
      }
    }
  }

  lemma {:induction false} TakeUses(m: Mem, n: nat)
    requires Partition(m) && n > 0
    ensures var (t, p) := Take(m, n, true);
            t.used == if Fits(m, n) then [Block(p, n)] + m.used else m.used
    ensures Take(m, n, true).1 != 0 <==> Fits(m, n)
  {
    TakeSucceeds(m, n);
  }

  lemma {:induction false} AllocSource(m: Mem, size: nat, inInterrupt: bool, first: Grant, second: Grant)
    requires Partition(m) && size > 0 && Apart(m, first) && Apart(Refill(m, inInterrupt, first), second)
    ensures var (t, p) := Alloc(m, size, inInterrupt, first, second, true);
            t.used == if p == 0 then m.used else [Block(p, RoundUp(size))] + m.used
  {
    var n := RoundUp(size);
    RoundUpIsGrain(size);
    var a := Refill(m, inInterrupt, first);
    RefillKeepsPartition(m, inInterrupt, first);
    TakeUses(a, n);
    if !Fits(a, n) {
      var b := Take(a, n, true).0;
      TakeKeepsPartition(a, n);
      RefillKeepsPartition(b, inInterrupt, second);
      TakeUses(Refill(b, inInterrupt, second), n);
    }
  }

  // ---------- runs

  datatype Call =
    | GrowCall(g: Grant)
    | AllocCall(size: nat, inInterrupt: bool, first: Grant, second: Grant)
    | FreeCall(p: nat)

  /** The platform grants regions apart from those it granted before. */
  ghost predicate Proper(m: Mem, c: Call) {
    match c
    case GrowCall(g) => Apart(m, g)
    case AllocCall(size, i, first, second) => size > 0 && Apart(m, first) && Apart(Refill(m, i, first), second)
    case FreeCall(p) => true
  }

  function After(m: Mem, c: Call): Mem {
    match c
    case GrowCall(g) => Grow(m, g)
    case AllocCall(size, i, first, second) => Alloc(m, size, i, first, second, true).0
    case FreeCall(p) => Free(m, p).0
  }

  ghost predicate ProperRun(m: Mem, calls: seq<Call>)
    decreases |calls|
  {
    calls == [] || (Proper(m, calls[0]) && ProperRun(After(m, calls[0]), calls[1..]))
  }

  function AfterAll(m: Mem, calls: seq<Call>): Mem
    decreases |calls|
  {
    if calls == [] then m else AfterAll(After(m, calls[0]), calls[1..])
  }

  const EMPTY := Mem([], [], [], 0)

  /** After any run of calls from nothing, the lists partition the granted regions. */
  lemma {:induction false} RunKeepsPartition(m: Mem, calls: seq<Call>)
    requires Partition(m) && ProperRun(m, calls)
    ensures Partition(AfterAll(m, calls))
    decreases |calls|
  {
    if calls != [] {
      match calls[0] {
        case GrowCall(g) => GrowKeepsPartition(m, g);
        case AllocCall(size, i, first, second) => AllocKeepsPartition(m, size, i, first, second);
        case FreeCall(p) => FreeKeepsPartition(m, p);
      }
      RunKeepsPartition(After(m, calls[0]), calls[1..]);
    }
  }

  lemma {:induction false} EmptyIsPartition()
    ensures Partition(EMPTY)
  {
    forall a
      ensures CountedAt(EMPTY, a)
    {
    }
  }

  /** Exactly when a split finds no list cell are bytes lost, and then exactly the split-off tail. */
  lemma {:induction false} TailIsLost(m: Mem, n: nat, a: int)
    requires Partition(m) && n > 0 && n % GRAIN == 0
    ensures var t, f := Take(m, n, false).0, FirstFit(m.free, n, 0);
      Count(t.free, a) + Count(t.used, a) == Count(t.regions, a)
        - (if f < |m.free| && m.free[f].size > n
              && Holds(Block(m.free[f].p + (m.free[f].size - n), n), a) then 1 else 0)
  {
    var f := FirstFit(m.free, n, 0);
    assert CountedAt(m, a);
    if f < |m.free| {
      var b := m.free[f];
      if b.size == n {
        CountDrop(m.free, f, a);
        CountPrepend(b, m.used, a);
      } else {
        CountUpdate(m.free, f, Block(b.p, b.size - n), a);
      }
    }
  }

  // ---------- allocating and giving back

  /** A block handed out is found again under its address. */
  lemma {:induction false} TakenIsFound(m: Mem, n: nat)
    requires Partition(m) && n > 0 && Fits(m, n)
    ensures var (t, p) := Take(m, n, true); p != 0 && t.used != [] && t.used[0].p == p
    ensures FindAddress(Take(m, n, true).0.used, Take(m, n, true).1, 0) == 0
  {
    assert GoodBlock(m.free[FirstFit(m.free, n, 0)], m.regions);
  }

  /** A split followed by giving the piece back restores both lists exactly. */
  lemma {:induction false} SplitThenFree(m: Mem, n: nat)
    requires Partition(m) && n > 0 && n % GRAIN == 0 && Fits(m, n)
    requires m.free[FirstFit(m.free, n, 0)].size > n
    ensures Free(Take(m, n, true).0, Take(m, n, true).1) == (m, true)
  {
    var f := FirstFit(m.free, n, 0);
    var b := m.free[f];
    var (t, p) := Take(m, n, true);
    TakenIsFound(m, n);
    TakeKeepsPartition(m, n);
    var g := FindEnd(t.free, p, 0);
    assert t.free[f].p + t.free[f].size == p;
    if g < f {
      assert GoodBlock(t.free[g], t.regions);
      BlocksAreDisjoint(t, g, f, p - 1);
      assert false;
    }
    assert t.free[f := b] == m.free;
    assert Without(t.used, 0) == m.used;
  }

  /** Giving back a block just taken restores the set of free addresses, split or not. */
  lemma {:induction false} TakeThenFree(m: Mem, n: nat, a: int)
    requires Partition(m) && n > 0 && n % GRAIN == 0 && Fits(m, n)
    ensures Count(Free(Take(m, n, true).0, Take(m, n, true).1).0.free, a) == Count(m.free, a)
  {
    var (t, p) := Take(m, n, true);
    TakenIsFound(m, n);
    TakeKeepsPartition(m, n);
    FreeKeepsPartition(t, p);
    assert CountedAt(Free(t, p).0, a) && CountedAt(m, a);
    assert Without(t.used, 0) == m.used;
  }

  /** The state in which the block of a successful allocation is found, after growing at most twice. */
  function Source(m: Mem, size: nat, inInterrupt: bool, first: Grant, second: Grant): Mem {
    var n := RoundUp(size);
    var a := Refill(m, inInterrupt, first);
    if Fits(a, n) then a else Refill(Take(a, n, true).0, inInterrupt, second)
  }

  /** s is m after growing at most k times: new blocks are in front of the free list, and nothing else changes. */
  ghost predicate GrownFrom(m: Mem, s: Mem, k: nat) {
    && s.used == m.used
    && |m.regions| <= |s.regions| <= |m.regions| + k && s.regions[..|m.regions|] == m.regions
    && |s.free| == |m.free| + (|s.regions| - |m.regions|)
    && s.free[|s.regions| - |m.regions|..] == m.free
  }

  lemma {:induction false} RefillGrows(m: Mem, inInterrupt: bool, g: Grant)
    ensures GrownFrom(m, Refill(m, inInterrupt, g), 1)
  {
  }

  lemma {:induction false} GrownTwice(m: Mem, a: Mem, s: Mem)
    requires GrownFrom(m, a, 1) && GrownFrom(a, s, 1)
    ensures GrownFrom(m, s, 2)
  {
    var i, j := |s.regions| - |a.regions|, |a.regions| - |m.regions|;
    assert s.free[i..][j..] == s.free[i + j..];
    assert s.regions[..|a.regions|][..|m.regions|] == s.regions[..|m.regions|];
  }

  lemma {:induction false} SourceGrows(m: Mem, size: nat, inInterrupt: bool, first: Grant, second: Grant)
    ensures GrownFrom(m, Source(m, size, inInterrupt, first, second), 2)
  {
    var a, n := Refill(m, inInterrupt, first), RoundUp(size);
    RefillGrows(m, inInterrupt, first);
    if !Fits(a, n) {
      var b := Take(a, n, true).0;
      RefillGrows(b, inInterrupt, second);
      assert GrownFrom(a, Refill(b, inInterrupt, second), 1);
      GrownTwice(m, a, Refill(b, inInterrupt, second));
    }
  }

  lemma {:induction false} AllocIsTake(m: Mem, size: nat, inInterrupt: bool, first: Grant, second: Grant)
    requires Partition(m) && size > 0 && Apart(m, first) && Apart(Refill(m, inInterrupt, first), second)
    requires Alloc(m, size, inInterrupt, first, second, true).1 != 0
    ensures var s := Source(m, size, inInterrupt, first, second);
            && Partition(s) && Fits(s, RoundUp(size))
            && Alloc(m, size, inInterrupt, first, second, true) == Take(s, RoundUp(size), true)
  {
    var n := RoundUp(size);
    RoundUpIsGrain(size);
    var a := Refill(m, inInterrupt, first);
    RefillKeepsPartition(m, inInterrupt, first);
    if !Fits(a, n) {
      TakeKeepsPartition(a, n);
      RefillKeepsPartition(Take(a, n, true).0, inInterrupt, second);
      TakeSucceeds(Refill(Take(a, n, true).0, inInterrupt, second), n);
    }
  }

  /** An allocation that splits a block, followed by freeing the piece, leaves exactly the lists as they were before
      the block was taken: the old ones, behind what the allocation grew. */
  lemma {:induction false} SplitAllocThenFree(m: Mem, size: nat, inInterrupt: bool, first: Grant, second: Grant)
    requires Partition(m) && size > 0 && Apart(m, first) && Apart(Refill(m, inInterrupt, first), second)
    requires Alloc(m, size, inInterrupt, first, second, true).1 != 0
    requires var s := Source(m, size, inInterrupt, first, second);
             FirstFit(s.free, RoundUp(size), 0) < |s.free|
             && s.free[FirstFit(s.free, RoundUp(size), 0)].size > RoundUp(size)
    ensures var (t, p) := Alloc(m, size, inInterrupt, first, second, true);
            Free(t, p) == (Source(m, size, inInterrupt, first, second), true)
  {
    RoundUpIsGrain(size);
    AllocIsTake(m, size, inInterrupt, first, second);
    SplitThenFree(Source(m, size, inInterrupt, first, second), RoundUp(size));
  }

  /** Any successful allocation followed by freeing its block restores the used blocks, and the free addresses but
      for those of regions it was granted. */
  lemma {:induction false} AllocThenFree(m: Mem, size: nat, inInterrupt: bool, first: Grant, second: Grant, a: int)
    requires Partition(m) && size > 0 && Apart(m, first) && Apart(Refill(m, inInterrupt, first), second)
    requires Alloc(m, size, inInterrupt, first, second, true).1 != 0
    ensures var (t, p) := Alloc(m, size, inInterrupt, first, second, true);
            var r := Free(t, p).0;
            && r.used == m.used && r.regions == t.regions
            && Count(r.free, a) - Count(m.free, a) == Count(r.regions, a) - Count(m.regions, a)
  {
    var n, s := RoundUp(size), Source(m, size, inInterrupt, first, second);
    RoundUpIsGrain(size);
    AllocIsTake(m, size, inInterrupt, first, second);
    SourceGrows(m, size, inInterrupt, first, second);
    TakenIsFound(s, n);
    TakeThenFree(s, n, a);
    assert Without(Take(s, n, true).0.used, 0) == s.used;
    assert CountedAt(m, a) && CountedAt(s, a);
  }

  // ---------- progress

  lemma {:induction false} GrownFits(m: Mem, n: nat, g: Grant)
    requires n <= UNIT && g.Region? && |m.regions| <= MAX_REGIONS
    ensures Fits(Grow(m, g), n)
  {
  }

  lemma {:induction false} TakeSucceeds(m: Mem, n: nat)
    requires Partition(m) && n > 0
    ensures Take(m, n, true).1 != 0 <==> Fits(m, n)
  {
    if Fits(m, n) {
      TakenIsFound(m, n);
    }
  }

  /** Outside interrupts a request of at most one region fails only if no free block has it and the
      second growth is refused. */
  lemma {:induction false} AllocSucceeds(m: Mem, size: nat, first: Grant, second: Grant)
    requires Partition(m) && 0 < size <= UNIT && Apart(m, first) && Apart(Refill(m, false, first), second)
    ensures Alloc(m, size, false, first, second, true).1 != 0
       <==> Fits(Refill(m, false, first), RoundUp(size))
            || (second.Region? && |Refill(m, false, first).regions| <= MAX_REGIONS)
  {
    var n := RoundUp(size);
    RoundUpIsGrain(size);
    var a := Refill(m, false, first);
    RefillKeepsPartition(m, false, first);
    TakeSucceeds(a, n);
    if !Fits(a, n) {
      var b := Take(a, n, true).0;
      TakeKeepsPartition(a, n);
      RefillKeepsPartition(b, false, second);
      TakeSucceeds(Refill(b, false, second), n);
      if second.Region? && |a.regions| <= MAX_REGIONS {
        GrownFits(b.(insufficient := 0), n, second);
      }
    }
  }

  /** In an interrupt the allocator never grows. */
  lemma {:induction false} AllocInInterrupt(m: Mem, size: nat, first: Grant, second: Grant)
    requires Partition(m) && size > 0
    ensures Alloc(m, size, true, first, second, true).1 != 0 <==> Fits(m, RoundUp(size))
    ensures Alloc(m, size, true, first, second, true).0.regions == m.regions
  {
    RoundUpIsGrain(size);
    TakeSucceeds(m, RoundUp(size));
  }

  // ---------- when the platform is asked for a region

  /** Some free block holds a request of this size. */
  ghost predicate HasRoom(m: Mem, size: nat) {
    exists i :: 0 <= i < |m.free| && m.free[i].size >= RoundUp(size)
  }

  /** The regions after the platform was asked once. */
  function AskedOnce(m: Mem, g: Grant): seq<Block> {
    if g.Region? && |m.regions| <= MAX_REGIONS then m.regions + [Block(g.base, UNIT)] else m.regions
  }

  lemma {:induction false} RoomIsFit(m: Mem, size: nat)
    ensures HasRoom(m, size) <==> Fits(m, RoundUp(size))
  {
    var f := FirstFit(m.free, RoundUp(size), 0);
    if f < |m.free| {
      assert m.free[f].size >= RoundUp(size);
    }
  }

  /** Without a shortage, and with a free block that is large enough, nobody is asked, in an interrupt or not. */
  lemma {:induction false} NoNeedToGrow(m: Mem, size: nat, inInterrupt: bool, first: Grant, second: Grant, cell: bool)
    requires m.insufficient == 0 && HasRoom(m, size)
    ensures var t := Alloc(m, size, inInterrupt, first, second, cell).0;
            t.regions == m.regions && t.insufficient == 0
  {
    RoomIsFit(m, size);
  }

  lemma {:induction false} TakeFromFirst(m: Mem, n: nat, i: nat)
    requires i < |m.free| && m.free[i].size >= n && forall j :: 0 <= j < i ==> m.free[j].size < n
    ensures var (t, p) := Take(m, n, true);
            var b, rest := m.free[i], m.free[i].size - n;
            && p == b.p + rest && t.used == [Block(p, n)] + m.used
            && t.free == m.free[..i] + (if rest > 0 then [Block(b.p, rest)] else []) + m.free[i + 1..]
  {
    assert FirstFit(m.free, n, 0) == i;
    var b := m.free[i];
    if b.size == n {
      assert b == Block(b.p, n);
    }
  }

  /** A block is taken from the first free one that is large enough: that block itself, or the end of it. */
  lemma {:induction false} TakenFromFirst(m: Mem, size: nat, inInterrupt: bool, first: Grant, second: Grant, i: nat)
    requires m.insufficient == 0 && i < |m.free| && m.free[i].size >= RoundUp(size)
    requires forall j :: 0 <= j < i ==> m.free[j].size < RoundUp(size)
    ensures var (t, p) := Alloc(m, size, inInterrupt, first, second, true);
            var b, rest := m.free[i], m.free[i].size - RoundUp(size);
            && p == b.p + rest && t.used == [Block(p, RoundUp(size))] + m.used
            && t.free == m.free[..i] + (if rest > 0 then [Block(b.p, rest)] else []) + m.free[i + 1..]
  {
    TakeFromFirst(m, RoundUp(size), i);
    RoomIsFit(m, size);
  }

  /** Outside interrupts a successful allocation leaves no shortage behind, and one that fails for want of a block
      leaves one. */
  lemma {:induction false} ShortageSettled(m: Mem, size: nat, first: Grant, second: Grant)
    requires Partition(m) && size > 0 && Apart(m, first) && Apart(Refill(m, false, first), second)
    ensures var (t, p) := Alloc(m, size, false, first, second, true);
            t.insufficient == if p != 0 then 0 else 1
  {
    var n, a := RoundUp(size), Refill(m, false, first);
    RoundUpIsGrain(size);
    RefillKeepsPartition(m, false, first);
    TakeSucceeds(a, n);
    if !Fits(a, n) {
      var b := Take(a, n, true).0;
      TakeKeepsPartition(a, n);
      RefillKeepsPartition(b, false, second);
      TakeSucceeds(Refill(b, false, second), n);
    }
  }

  /** In an interrupt nobody is asked; a shortage is noted, once for each of the two passes. */
  lemma {:induction false} ShortageNoted(m: Mem, size: nat, first: Grant, second: Grant, cell: bool)
    ensures var t := Alloc(m, size, true, first, second, cell).0;
            t.regions == m.regions && t.insufficient == m.insufficient + if HasRoom(m, size) then 0 else 2
  {
    RoomIsFit(m, size);
  }

  /** After a shortage the next call outside interrupts asks exactly once, before it looks for a block; it asks again
      only if it finds none even so. */
  lemma {:induction false} ShortageAnswered(m: Mem, size: nat, first: Grant, second: Grant, cell: bool)
    requires m.insufficient > 0
    ensures var t := Alloc(m, size, false, first, second, cell).0;
            && (HasRoom(m, size) || (AskedOnce(m, first) != m.regions && RoundUp(size) <= UNIT)
                ==> t.regions == AskedOnce(m, first) && t.insufficient == 0)
            && AskedOnce(m, first) <= t.regions && |t.regions| <= |AskedOnce(m, first)| + 1
  {
    var n, a := RoundUp(size), Refill(m, false, first);
    RoomIsFit(m, size);
    RoomIsFit(a, size);
    assert a.regions == AskedOnce(m, first);
    if HasRoom(m, size) {
      var i :| 0 <= i < |m.free| && m.free[i].size >= n;
      var k := if a.free == m.free then i else i + 1;
      assert a.free[k] == m.free[i];
    }
    if a.free != m.free {
      assert a.free[0].size == UNIT;
    }
  }

  /** Without an earlier shortage a call outside interrupts asks only if no block is large enough, and then once. */
  lemma {:induction false} AsksWhenShort(m: Mem, size: nat, first: Grant, second: Grant, cell: bool)
    requires m.insufficient == 0 && !HasRoom(m, size)
    ensures Alloc(m, size, false, first, second, cell).0.regions == AskedOnce(m, second)
  {
    RoomIsFit(m, size);
  }
}

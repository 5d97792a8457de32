/** The driver on the allocator: every descriptor and bounce buffer is allocated from the local memory and given
    back to it.

    The platform's regions are those of a supply, in the order in which it grants them; each time it is asked it
    may also refuse. */
module DriverMemory {
  import opened Sequences
  import Ownership
  import opened MemoryModel
  import opened TdQueue

  const TD_SIZE := 32

  const SETUP_SIZE := 8

  const CHUNK := 64

  datatype World = World(mem: Mem, s: Ownership.State, supply: seq<nat>)

  /** What the platform says while a block is allocated: whether this is an interrupt, and whether it grants the
      regions that may be asked for. */
  datatype Answer = Answer(inInterrupt: bool, first: bool, second: bool)

  // ---------- the platform's regions

  ghost predicate DisjointAt(supply: seq<nat>, i: nat, j: nat)
    requires i < |supply| && j < |supply|
  {
    supply[i] + UNIT <= supply[j] || supply[j] + UNIT <= supply[i]
  }

  ghost predicate OfferAt(m: Mem, supply: seq<nat>, i: nat)
    requires i < |supply|
  {
    supply[i] > 0 && Apart(m, Region(supply[i]))
  }

  /** The regions to come are apart from each other and from those granted. */
  ghost predicate SupplyOk(m: Mem, supply: seq<nat>) {
    && (forall i :: |m.regions| <= i < |supply| ==> OfferAt(m, supply, i))
    && (forall i, j :: 0 <= i < j < |supply| ==> DisjointAt(supply, i, j))
  }

  /** What the platform offers when it is asked next. */
  function Offer(m: Mem, supply: seq<nat>, yes: bool): Grant {
    if yes && |m.regions| < |supply| then Region(supply[|m.regions|]) else NoRegion
  }

  lemma {:induction false} OfferApart(m: Mem, supply: seq<nat>, yes: bool)
    requires SupplyOk(m, supply)
    ensures Apart(m, Offer(m, supply, yes))
  {
    assert |m.regions| < |supply| ==> OfferAt(m, supply, |m.regions|);
  }

  /** The same regions, the same supply. */
  lemma {:induction false} SupplyStays(m: Mem, n: Mem, supply: seq<nat>)
    requires SupplyOk(m, supply) && n.regions == m.regions
    ensures SupplyOk(n, supply)
  {
    forall i | |m.regions| <= i < |supply|
      ensures OfferAt(n, supply, i)
    {
      assert OfferAt(m, supply, i);
    }
  }

  lemma {:induction false} RefillSupply(m: Mem, inInterrupt: bool, supply: seq<nat>, yes: bool)
    requires SupplyOk(m, supply)
    ensures SupplyOk(Refill(m, inInterrupt, Offer(m, supply, yes)), supply)
  {
    var a, k := Refill(m, inInterrupt, Offer(m, supply, yes)), |m.regions|;
    if a.regions == m.regions {
      SupplyStays(m, a, supply);
    } else {
      var r := Block(supply[k], UNIT);
      assert a.regions == m.regions + [r];
      forall i | k < i < |supply|
        ensures OfferAt(a, supply, i)
      {
        assert OfferAt(m, supply, i) && DisjointAt(supply, k, i);
        forall x | Holds(Block(supply[i], UNIT), x)
          ensures Count(a.regions, x) == 0
        {
          CountSum(m.regions, [r], x);
          CountOne(r, x);
        }
      }
    }
  }

  // ---------- one block

  /** Asking for a block: the memory and the block's address, or 0. */
  function Obtain(m: Mem, supply: seq<nat>, size: nat, answer: Answer): (Mem, nat) {
    var first := Offer(m, supply, answer.first);
    var second := Offer(Refill(m, answer.inInterrupt, first), supply, answer.second);
    Alloc(m, size, answer.inInterrupt, first, second, true)
  }

  lemma {:induction false} SecondSupply(a: Mem, n: nat, inInterrupt: bool, supply: seq<nat>, yes: bool)
    requires SupplyOk(a, supply)
    ensures SupplyOk(if Fits(a, n) then Take(a, n, true).0
                     else Take(Refill(Take(a, n, true).0, inInterrupt, Offer(a, supply, yes)), n, true).0, supply)
  {
    var b := Take(a, n, true).0;
    SupplyStays(a, b, supply);
    if !Fits(a, n) {
      var c := Refill(b, inInterrupt, Offer(b, supply, yes));
      RefillSupply(b, inInterrupt, supply, yes);
      SupplyStays(c, Take(c, n, true).0, supply);
    }
  }

  lemma {:induction false} ObtainKeeps(m: Mem, supply: seq<nat>, size: nat, answer: Answer)
    requires Partition(m) && SupplyOk(m, supply) && size > 0
    ensures var (n, p) := Obtain(m, supply, size, answer);
            && Partition(n) && SupplyOk(n, supply)
            && if p == 0 then n.used == m.used
               else n.used == [Block(p, RoundUp(size))] + m.used && forall b :: b in m.used ==> b.p != p
  {
    var first := Offer(m, supply, answer.first);
    var a := Refill(m, answer.inInterrupt, first);
    var second := Offer(a, supply, answer.second);
    OfferApart(m, supply, answer.first);
    RefillSupply(m, answer.inInterrupt, supply, answer.first);
    OfferApart(a, supply, answer.second);
    AllocKeepsPartition(m, size, answer.inInterrupt, first, second);
    AllocIsNew(m, size, answer.inInterrupt, first, second);
    SecondSupply(a, RoundUp(size), answer.inInterrupt, supply, answer.second);
  }

  // ---------- the tie between memory and owners

  /** The addresses of a list of blocks. */
  ghost function Addresses(bs: seq<Block>): set<nat> {
    set b | b in bs :: b.p
  }

  /** How many bytes the block for role r must hold. */
  function Need(s: Ownership.State, r: Ownership.Role): nat {
    match r
    case Setup(_) => SETUP_SIZE
    case Data(u) => if u in s.live then s.live[u].data else 0
    case _ => TD_SIZE
  }

  /** Blocks other than bounce buffers come in one size. */
  predicate SizeFits(r: Ownership.Role, size: nat) {
    match r
    case Setup(_) => size == SETUP_SIZE
    case Data(_) => size > 0
    case _ => size == TD_SIZE
  }

  /** A used block at address a holds n bytes. */
  ghost predicate Room(used: seq<Block>, a: nat, n: nat) {
    exists i :: 0 <= i < |used| && used[i].p == a && used[i].size >= n
  }

  /** Every owner's block is large enough. */
  ghost predicate Roomy(used: seq<Block>, s: Ownership.State) {
    forall r :: r in s.at ==> Room(used, s.at[r], Need(s, r))
  }

  /** The memory is a partition, its used blocks are exactly those the driver owns, and each of these has one
      owner and is large enough for it. */
  ghost predicate Tie(w: World) {
    && Partition(w.mem)
    && SupplyOk(w.mem, w.supply)
    && Ownership.Inv(w.s)
    && Addresses(w.mem.used) == w.s.used
    && Roomy(w.mem.used, w.s)
  }

  /** Asks for a block for role r. */
  function Allocate(w: World, r: Ownership.Role, size: nat, answer: Answer): (t: (World, bool))
    requires r.Dummy? || r.urb in w.s.live
    ensures r.Dummy? || r.urb in t.0.s.live
  {
    var (m, p) := Obtain(w.mem, w.supply, size, answer);
    if p == 0 then (w.(mem := m), false) else (w.(mem := m, s := Ownership.Allocated(w.s, r, p, size)), true)
  }

  lemma {:induction false} AddressesCons(b: Block, bs: seq<Block>)
    ensures Addresses([b] + bs) == {b.p} + Addresses(bs)
  {
    forall x | x in Addresses(bs)
      ensures x in Addresses([b] + bs)
    {
      var c :| c in bs && c.p == x;
      assert c in [b] + bs;
    }
    assert b in [b] + bs;
  }

  lemma {:induction false} RoomInFront(b: Block, used: seq<Block>, a: nat, n: nat)
    requires Room(used, a, n) || (b.p == a && b.size >= n)
    ensures Room([b] + used, a, n)
  {
    if b.p == a && b.size >= n {
      assert ([b] + used)[0] == b;
    } else {
      var i :| 0 <= i < |used| && used[i].p == a && used[i].size >= n;
      assert ([b] + used)[i + 1] == used[i];
    }
  }

  lemma {:induction false} AllocatedRoomy(s: Ownership.State, used: seq<Block>, r: Ownership.Role, b: Block, size: nat)
    requires Ownership.Inv(s) && Roomy(used, s) && r !in s.at && (r.Dummy? || r.urb in s.live) && b.size >= size
    requires SizeFits(r, size)
    ensures Roomy([b] + used, Ownership.Allocated(s, r, b.p, size))
  {
    var t := Ownership.Allocated(s, r, b.p, size);
    forall q | q in t.at
      ensures Room([b] + used, t.at[q], Need(t, q))
    {
      assert q != r ==> Room(used, s.at[q], Need(s, q)) && Need(t, q) == Need(s, q);
      RoomInFront(b, used, t.at[q], Need(t, q));
    }
  }

  lemma {:induction false} AllocateKeepsTie(w: World, r: Ownership.Role, size: nat, answer: Answer)
    requires Tie(w) && SizeFits(r, size) && r !in w.s.at && (r.Dummy? || r.urb in w.s.live)
    requires r.Td? ==> r.index == w.s.live[r.urb].length
    ensures Tie(Allocate(w, r, size, answer).0)
    ensures var (t, ok) := Allocate(w, r, size, answer);
            if ok then
              && t.s.used - w.s.used != {}
              && t.s == Ownership.Allocated(w.s, r, Obtain(w.mem, w.supply, size, answer).1, size)
            else t.s == w.s
  {
    var p := Obtain(w.mem, w.supply, size, answer).1;
    ObtainKeeps(w.mem, w.supply, size, answer);
    if p != 0 {
      AddressesCons(Block(p, RoundUp(size)), w.mem.used);
      Ownership.AllocatedInv(w.s, r, p, size);
      RoundUpIsGrain(size);
      AllocatedRoomy(w.s, w.mem.used, r, Block(p, RoundUp(size)), size);
      assert p in Ownership.Allocated(w.s, r, p, size).used;
    }
  }

  // ---------- giving back

  /** Freeing an address takes exactly it from the used ones; 0 and unknown addresses take nothing. */
  lemma {:induction false} FreeRemoves(m: Mem, p: nat)
    requires Partition(m)
    ensures Addresses(Free(m, p).0.used) == Addresses(m.used) - {p}
    ensures Free(m, p).0.regions == m.regions
  {
    var u := FindAddress(m.used, p, 0);
    ZeroIsFree(m);
    if p != 0 && u < |m.used| {
      WithoutAddress(m, u);
    }
  }

  lemma {:induction false} WithoutAddress(m: Mem, u: nat)
    requires Partition(m) && u < |m.used|
    ensures Addresses(Without(m.used, u)) == Addresses(m.used) - {m.used[u].p}
  {
    var rest, p := Without(m.used, u), m.used[u].p;
    forall b | b in rest
      ensures b.p != p && b in m.used
    {
      var i :| 0 <= i < |rest| && rest[i] == b;
      var j := if i < u then i else i + 1;
      assert m.used[j] == b;
      OwnAddress(m, u, j);
    }
    forall b | b in m.used && b.p != p
      ensures b in rest
    {
      var j :| 0 <= j < |m.used| && m.used[j] == b;
      assert rest[if j < u then j else j - 1] == b;
    }
  }

  /** The other blocks stay. */
  lemma {:induction false} FreeRoom(m: Mem, p: nat, a: nat, n: nat)
    requires Room(m.used, a, n) && a != p
    ensures Room(Free(m, p).0.used, a, n)
  {
    var u := FindAddress(m.used, p, 0);
    if p != 0 && u < |m.used| {
      var i :| 0 <= i < |m.used| && m.used[i].p == a && m.used[i].size >= n;
      assert Without(m.used, u)[if i < u then i else i - 1] == m.used[i];
    }
  }

  /** In a partition no two used blocks have one address. */
  lemma {:induction false} OwnAddress(m: Mem, i: nat, j: nat)
    requires Partition(m) && i < |m.used| && j < |m.used| && i != j
    ensures m.used[i].p != m.used[j].p
  {
    var k, f := if i < j then i else j, |m.free|;
    var l := i + j - k;
    assert (m.free + m.used)[f + k] == m.used[k] && (m.free + m.used)[f + l] == m.used[l];
    assert GoodBlock(m.used[k], m.regions) && GoodBlock(m.used[l], m.regions);
    BlocksAreDisjoint(m, f + k, f + l, m.used[k].p);
  }

  /** The address of the block for r, or 0. */
  function AddressOf(s: Ownership.State, r: Ownership.Role): nat {
    if r in s.at then s.at[r] else 0
  }

  /** The first n descriptors of request u are given back, those that it has. */
  function FreeTds(m: Mem, s: Ownership.State, u: nat, n: nat): Mem {
    if n == 0 then m
    else
      var before, p := FreeTds(m, s, u, n - 1), AddressOf(s, Ownership.Td(u, n - 1));
      if p != 0 then Free(before, p).0 else before
  }

  /** urb_rm_priv on a request with room for `size` descriptors. */
  function RmPriv(w: World, u: nat, size: nat): World {
    var a := FreeTds(w.mem, w.s, u, size);
    var b := Free(a, AddressOf(w.s, Ownership.Data(u))).0;
    var c := Free(b, AddressOf(w.s, Ownership.Setup(u))).0;
    World(c, Ownership.Released(w.s, u), w.supply)
  }

  /** The addresses of the first n descriptors. */
  ghost function TdAddresses(s: Ownership.State, u: nat, n: nat): set<nat> {
    if n == 0 then {} else TdAddresses(s, u, n - 1) + {AddressOf(s, Ownership.Td(u, n - 1))}
  }

  lemma {:induction false} FreeTdsKeeps(m: Mem, s: Ownership.State, u: nat, n: nat)
    requires Partition(m)
    ensures var t := FreeTds(m, s, u, n);
            Partition(t) && t.regions == m.regions && Addresses(t.used) == Addresses(m.used) - TdAddresses(s, u, n)
  {
    ZeroIsFree(m);
    if n > 0 {
      var before, p := FreeTds(m, s, u, n - 1), AddressOf(s, Ownership.Td(u, n - 1));
      FreeTdsKeeps(m, s, u, n - 1);
      FreeKeepsPartition(before, p);
      FreeRemoves(before, p);
    }
  }

  lemma {:induction false} ZeroIsFree(m: Mem)
    requires Partition(m)
    ensures 0 !in Addresses(m.used)
  {
    forall b | b in m.used
      ensures b.p != 0
    {
      var i :| 0 <= i < |m.used| && m.used[i] == b;
      assert GoodBlock(m.used[i], m.regions);
    }
  }

  lemma {:induction false} InTdAddresses(s: Ownership.State, u: nat, n: nat, a: nat)
    ensures a in TdAddresses(s, u, n) <==> exists i :: 0 <= i < n && AddressOf(s, Ownership.Td(u, i)) == a
  {
    if n > 0 {
      InTdAddresses(s, u, n - 1, a);
    }
  }

  /** The blocks that are given back are exactly those of the request. */
  lemma {:induction false} GivenBack(s: Ownership.State, u: nat, size: nat, a: nat)
    requires Ownership.Inv(s) && (u in s.live ==> s.live[u].length <= size) && a in s.used && a != 0
    ensures a in Ownership.Released(s, u).used <==>
            && a !in TdAddresses(s, u, size)
            && a != AddressOf(s, Ownership.Data(u)) && a != AddressOf(s, Ownership.Setup(u))
  {
    var q :| q in s.at && s.at[q] == a;
    InTdAddresses(s, u, size, a);
    assert Ownership.RoleOk(s, q);
    var gone := map r | r in s.at && Ownership.Of(r, u) :: s.at[r];
    if Ownership.Of(q, u) {
      assert gone[q] == a;
      assert q.Td? ==> AddressOf(s, Ownership.Td(u, q.index)) == a;
    } else {
      forall r | r in s.at && r != q
        ensures s.at[r] != a
      {
        assert Ownership.Apart(s.at, q, r);
      }
    }
  }

  lemma {:induction false} FreeTdsRoom(m: Mem, s: Ownership.State, u: nat, n: nat, a: nat, size: nat)
    requires Room(m.used, a, size) && a !in TdAddresses(s, u, n)
    ensures Room(FreeTds(m, s, u, n).used, a, size)
  {
    if n > 0 {
      FreeTdsRoom(m, s, u, n - 1, a, size);
      FreeRoom(FreeTds(m, s, u, n - 1), AddressOf(s, Ownership.Td(u, n - 1)), a, size);
    }
  }

  /** What is left when a request is given back is large enough. */
  lemma {:induction false} ReleasedRoomy(w: World, u: nat, size: nat)
    requires Tie(w) && (u in w.s.live ==> w.s.live[u].length <= size)
    ensures Roomy(RmPriv(w, u, size).mem.used, Ownership.Released(w.s, u))
  {
    var s, t := w.s, Ownership.Released(w.s, u);
    var a := FreeTds(w.mem, s, u, size);
    var b := Free(a, AddressOf(s, Ownership.Data(u))).0;
    ZeroIsFree(w.mem);
    Ownership.ReleasedInv(s, u);
    forall r | r in t.at
      ensures Room(RmPriv(w, u, size).mem.used, t.at[r], Need(t, r))
    {
      var x := s.at[r];
      assert x in t.at.Values && Room(w.mem.used, x, Need(s, r)) && Need(t, r) == Need(s, r);
      GivenBack(s, u, size, x);
      FreeTdsRoom(w.mem, s, u, size, x, Need(s, r));
      FreeRoom(a, AddressOf(s, Ownership.Data(u)), x, Need(s, r));
      FreeRoom(b, AddressOf(s, Ownership.Setup(u)), x, Need(s, r));
    }
  }

  lemma {:induction false} RmPrivKeepsTie(w: World, u: nat, size: nat)
    requires Tie(w) && (u in w.s.live ==> w.s.live[u].length <= size)
    ensures Tie(RmPriv(w, u, size))
  {
    var s, t := w.s, RmPriv(w, u, size);
    var a := FreeTds(w.mem, s, u, size);
    var b := Free(a, AddressOf(s, Ownership.Data(u))).0;
    FreeTdsKeeps(w.mem, s, u, size);
    FreeKeepsPartition(a, AddressOf(s, Ownership.Data(u)));
    FreeRemoves(a, AddressOf(s, Ownership.Data(u)));
    FreeKeepsPartition(b, AddressOf(s, Ownership.Setup(u)));
    FreeRemoves(b, AddressOf(s, Ownership.Setup(u)));
    SupplyStays(w.mem, t.mem, w.supply);
    Ownership.ReleasedInv(s, u);
    ReleasedRoomy(w, u, size);
    ZeroIsFree(w.mem);
    forall x | x in s.used
      ensures x in t.s.used <==> x in Addresses(t.mem.used)
    {
      GivenBack(s, u, size, x);
    }
  }

  /** The loop over the descriptors, and the two buffers. */
  method RemovePrivate(w: World, u: nat, size: nat) returns (t: World)
    ensures t == RmPriv(w, u, size)
  {
    var m := w.mem;
    for i := 0 to size
      invariant m == FreeTds(w.mem, w.s, u, i)
    {
      var p := AddressOf(w.s, Ownership.Td(u, i));
      if p != 0 {
        m := Free(m, p).0;
      }
    }
    m := Free(m, AddressOf(w.s, Ownership.Data(u))).0;
    m := Free(m, AddressOf(w.s, Ownership.Setup(u))).0;
    t := World(m, Ownership.Released(w.s, u), w.supply);
  }

  // ---------- submitting

  /** A request: how many descriptors it reserves and fills, how many bytes it moves, whether its buffer is aligned,
      and whether it has a set-up packet. */
  datatype Request = Request(size: nat, filled: nat, bytes: nat, aligned: bool, setup: bool)

  datatype Status = Ok | NoMemory | Invalid

  function AnswerAt(answers: seq<Answer>, k: nat): Answer {
    if k < |answers| then answers[k] else Answer(false, false, false)
  }

  /** The size of the bounce buffer: whole chunks, and always one more, if the copy goes by chunks. */
  function BounceBytes(bytes: nat, aligned: bool): (n: nat)
    ensures aligned ==> n % CHUNK == 0 && bytes < n <= bytes + CHUNK
    ensures !aligned ==> n == bytes
  {
    if aligned then ((bytes + CHUNK) / CHUNK) * CHUNK else bytes
  }

  /** What the request asks for its bounce buffer, 0 for none. */
  function Bounce(r: Request): nat {
    if r.bytes > 0 then BounceBytes(r.bytes, r.aligned) else 0
  }

  function ShapeOf(r: Request): Ownership.Shape {
    Ownership.Shape(r.size, Bounce(r), r.setup)
  }

  /** A new endpoint gets its dummy. */
  function AddEd(w: World, e: nat, answer: Answer): (World, bool) {
    if e in w.s.eds then (w, true) else Allocate(w, Ownership.Dummy(e), TD_SIZE, answer)
  }

  function Begin(w: World, u: nat): World {
    w.(s := Ownership.Grown(w.s, u, Ownership.Shape(0, 0, false)))
  }

  /** Descriptors k .. size-1 of request u are allocated, until one is refused. */
  function AllocTds(w: World, u: nat, k: nat, size: nat, answers: seq<Answer>): (World, bool)
    requires u in w.s.live
    decreases size - k
  {
    if k >= size then (w, true)
    else
      var (t, ok) := Allocate(w, Ownership.Td(u, k), TD_SIZE, AnswerAt(answers, k));
      if ok then AllocTds(t, u, k + 1, size, answers) else (t, false)
  }

  function AllocIf(w: World, wanted: bool, r: Ownership.Role, size: nat, answer: Answer): (t: (World, bool))
    requires r.Dummy? || r.urb in w.s.live
    ensures r.Dummy? || r.urb in t.0.s.live
  {
    if wanted then Allocate(w, r, size, answer) else (w, true)
  }

  lemma {:induction false} TdsStayLive(w: World, u: nat, k: nat, size: nat, answers: seq<Answer>)
    requires u in w.s.live
    ensures u in AllocTds(w, u, k, size, answers).0.s.live
    decreases size - k
  {
    if k < size {
      var (t, ok) := Allocate(w, Ownership.Td(u, k), TD_SIZE, AnswerAt(answers, k));
      if ok {
        TdsStayLive(t, u, k + 1, size, answers);
      }
    }
  }

  function Settled(c: (World, bool), u: nat, size: nat): (World, Status) {
    if c.1 then (c.0, Ok) else (RmPriv(c.0, u, size), NoMemory)
  }

  /** The buffer for the set-up packet, or everything is undone. */
  function SetupBuffer(w: World, u: nat, r: Request, answers: seq<Answer>): (World, Status)
    requires u in w.s.live
  {
    Settled(AllocIf(w, r.setup, Ownership.Setup(u), SETUP_SIZE, AnswerAt(answers, r.size + 1)), u, r.size)
  }

  /** The bounce buffers; if one is refused, everything is undone. */
  function Buffers(w: World, u: nat, r: Request, answers: seq<Answer>): (World, Status)
    requires u in w.s.live
  {
    var bytes := BounceBytes(r.bytes, r.aligned);
    var (b, data) := AllocIf(w, r.bytes > 0, Ownership.Data(u), bytes, AnswerAt(answers, r.size));
    if data then SetupBuffer(b, u, r, answers) else (RmPriv(b, u, r.size), NoMemory)
  }

  /** The allocations for the request itself: a refusal, or an endpoint that is gone, undoes them all. */
  function Prepare(w: World, u: nat, r: Request, doomed: bool, answers: seq<Answer>): (World, Status) {
    var (a, tds) := AllocTds(Begin(w, u), u, 0, r.size, answers);
    TdsStayLive(Begin(w, u), u, 0, r.size, answers);
    if !tds then (RmPriv(a, u, r.size), NoMemory)
    else if doomed then (RmPriv(a, u, r.size), Invalid)
    else Buffers(a, u, r, answers)
  }

  /** The request for an endpoint that has its dummy. */
  function Place(d: World, e: nat, u: nat, r: Request, doomed: bool, answers: seq<Answer>): (World, Status) {
    var (t, status) := Prepare(d, u, r, doomed, answers);
    if status == Ok then (t.(s := Ownership.FillAll(t.s, e, u, r.filled)), Ok) else (t, status)
  }

  /** The request for an endpoint that may be new. */
  function Admit(w: World, e: nat, u: nat, r: Request, doomed: bool, answers: seq<Answer>): (World, Status) {
    var (d, added) := AddEd(w, e, AnswerAt(answers, r.size + 2));
    if added then Place(d, e, u, r, doomed, answers) else (d, NoMemory)
  }

  /** Submits request u to endpoint e.  `pending` says that a removal of the endpoint is requested, `doomed` that it
      is gone when the state is looked at again. */
  function SubmitUrb(w: World, e: nat, u: nat, r: Request, pending: bool, doomed: bool, answers: seq<Answer>)
    : (World, Status)
  {
    if u in w.s.live then (w, Invalid)
    else if pending then (w, NoMemory)
    else Admit(w, e, u, r, doomed, answers)
  }

  /** One more block of the request. */
  lemma {:induction false} AddedMore(s: Ownership.State, t: Ownership.State, u: nat, r: Ownership.Role, p: nat,
                                     size: nat)
    requires u in t.live && Ownership.OnlyAdded(s, t, u, t.live[u]) && Ownership.Of(r, u) && r !in t.at
    ensures var a := Ownership.Allocated(t, r, p, size);
            u in a.live && Ownership.OnlyAdded(s, a, u, a.live[u])
  {
    var a := Ownership.Allocated(t, r, p, size);
    assert a.live == s.live[u := a.live[u]];
  }

  /** Allocating keeps the tie, and adds to the request or leaves all owners alone. */
  lemma {:induction false} AllocateAdds(s: Ownership.State, w: World, u: nat, r: Ownership.Role, size: nat,
                                        answer: Answer)
    requires Tie(w) && SizeFits(r, size) && u in w.s.live && Ownership.OnlyAdded(s, w.s, u, w.s.live[u])
    requires Ownership.Of(r, u) && r !in w.s.at && (r.Td? ==> r.index == w.s.live[u].length)
    ensures var (t, ok) := Allocate(w, r, size, answer);
            && Tie(t) && u in t.s.live && Ownership.OnlyAdded(s, t.s, u, t.s.live[u])
            && (if ok then r in t.s.at && t.s.live[u] == Extended(w.s.live[u], r, size) else t.s == w.s)
  {
    AllocateKeepsTie(w, r, size, answer);
    AddedMore(s, w.s, u, r, Obtain(w.mem, w.supply, size, answer).1, size);
  }

  function Extended(shape: Ownership.Shape, r: Ownership.Role, size: nat): Ownership.Shape {
    match r
    case Td(_, i) => shape.(length := i + 1)
    case Data(_) => shape.(data := size)
    case Setup(_) => shape.(setup := true)
    case Dummy(_) => shape
  }

  lemma {:induction false} BeginAdds(w: World, u: nat)
    requires Tie(w) && u !in w.s.live
    ensures var t := Begin(w, u); Tie(t) && Ownership.OnlyAdded(w.s, t.s, u, Ownership.Shape(0, 0, false))
  {
    var t := Begin(w, u);
    forall r
      ensures Ownership.RoleOk(t.s, r)
    {
      assert Ownership.RoleOk(w.s, r);
    }
  }

  lemma {:induction false} TdsAdd(s: Ownership.State, w: World, u: nat, k: nat, size: nat, answers: seq<Answer>)
    requires Tie(w) && k <= size && u in w.s.live && w.s.live[u] == Ownership.Shape(k, 0, false)
    requires Ownership.OnlyAdded(s, w.s, u, w.s.live[u])
    ensures var (t, ok) := AllocTds(w, u, k, size, answers);
            && Tie(t) && u in t.s.live && Ownership.OnlyAdded(s, t.s, u, t.s.live[u])
            && t.s.live[u].length <= size && (ok ==> t.s.live[u] == Ownership.Shape(size, 0, false))
    decreases size - k
  {
    if k < size {
      assert Ownership.RoleOk(w.s, Ownership.Td(u, k));
      AllocateAdds(s, w, u, Ownership.Td(u, k), TD_SIZE, AnswerAt(answers, k));
      var (t, ok) := Allocate(w, Ownership.Td(u, k), TD_SIZE, AnswerAt(answers, k));
      if ok {
        TdsAdd(s, t, u, k + 1, size, answers);
      }
    }
  }

  /** Undoing a partly prepared request restores all owners. */
  lemma {:induction false} Undone(s: Ownership.State, w: World, u: nat, size: nat)
    requires Ownership.Inv(s) && Tie(w) && u in w.s.live && w.s.live[u].length <= size
    requires Ownership.OnlyAdded(s, w.s, u, w.s.live[u])
    ensures Tie(RmPriv(w, u, size)) && RmPriv(w, u, size).s == s
  {
    RmPrivKeepsTie(w, u, size);
    Ownership.ReleaseRestores(s, w.s, u, w.s.live[u]);
  }

  /** One buffer, if it is wanted. */
  lemma {:induction false} BufferAdds(s: Ownership.State, w: World, u: nat, wanted: bool, r: Ownership.Role, size: nat,
                                      answer: Answer)
    requires Tie(w) && (wanted ==> SizeFits(r, size)) && u in w.s.live && Ownership.OnlyAdded(s, w.s, u, w.s.live[u])
    requires (r == Ownership.Data(u) && w.s.live[u].data == 0) || (r == Ownership.Setup(u) && !w.s.live[u].setup)
    ensures var (t, ok) := AllocIf(w, wanted, r, size, answer);
            && Tie(t) && u in t.s.live && Ownership.OnlyAdded(s, t.s, u, t.s.live[u])
            && t.s.live[u] == if wanted && ok then Extended(w.s.live[u], r, size) else w.s.live[u]
  {
    assert Ownership.RoleOk(w.s, r);
    if wanted {
      AllocateAdds(s, w, u, r, size, answer);
    }
  }

  /** What a request gets while it is prepared, or nothing has changed. */
  ghost predicate Prepared(s: Ownership.State, t: World, status: Status, u: nat, r: Request) {
    && Tie(t)
    && if status == Ok then Ownership.OnlyAdded(s, t.s, u, ShapeOf(r)) else t.s == s
  }

  lemma {:induction false} SettledKeeps(s: Ownership.State, c: (World, bool), u: nat, r: Request)
    requires Ownership.Inv(s) && Tie(c.0) && u in c.0.s.live && Ownership.OnlyAdded(s, c.0.s, u, c.0.s.live[u])
    requires c.0.s.live[u].length == r.size
    requires c.1 ==> c.0.s.live[u] == ShapeOf(r)
    ensures var (t, status) := Settled(c, u, r.size); Prepared(s, t, status, u, r)
  {
    if !c.1 {
      Undone(s, c.0, u, r.size);
    }
  }

  lemma {:induction false} SetupKeeps(s: Ownership.State, w: World, u: nat, r: Request, answers: seq<Answer>)
    requires Ownership.Inv(s) && Tie(w) && u in w.s.live
    requires w.s.live[u] == Ownership.Shape(r.size, Bounce(r), false)
    requires Ownership.OnlyAdded(s, w.s, u, w.s.live[u])
    ensures var (t, status) := SetupBuffer(w, u, r, answers); Prepared(s, t, status, u, r)
  {
    var answer := AnswerAt(answers, r.size + 1);
    BufferAdds(s, w, u, r.setup, Ownership.Setup(u), SETUP_SIZE, answer);
    SettledKeeps(s, AllocIf(w, r.setup, Ownership.Setup(u), SETUP_SIZE, answer), u, r);
  }

  lemma {:induction false} BuffersKeep(s: Ownership.State, w: World, u: nat, r: Request, answers: seq<Answer>)
    requires Ownership.Inv(s) && Tie(w) && u in w.s.live && w.s.live[u] == Ownership.Shape(r.size, 0, false)
    requires Ownership.OnlyAdded(s, w.s, u, w.s.live[u])
    ensures var (t, status) := Buffers(w, u, r, answers); Prepared(s, t, status, u, r)
  {
    var bytes := BounceBytes(r.bytes, r.aligned);
    BufferAdds(s, w, u, r.bytes > 0, Ownership.Data(u), bytes, AnswerAt(answers, r.size));
    var (b, data) := AllocIf(w, r.bytes > 0, Ownership.Data(u), bytes, AnswerAt(answers, r.size));
    if data {
      SetupKeeps(s, b, u, r, answers);
    } else {
      Undone(s, b, u, r.size);
    }
  }

  lemma {:induction false} PrepareKeeps(w: World, u: nat, r: Request, doomed: bool, answers: seq<Answer>)
    requires Tie(w) && u !in w.s.live
    ensures var (t, status) := Prepare(w, u, r, doomed, answers); Prepared(w.s, t, status, u, r)
  {
    var b := Begin(w, u);
    BeginAdds(w, u);
    TdsAdd(w.s, b, u, 0, r.size, answers);
    var (a, tds) := AllocTds(b, u, 0, r.size, answers);
    if !tds || doomed {
      Undone(w.s, a, u, r.size);
    } else {
      BuffersKeep(w.s, a, u, r, answers);
    }
  }

  /** A failing submission leaves at most a new endpoint's dummy; a successful one owns exactly its descriptors and
      buffers, the first descriptor being the old dummy. */
  ghost predicate Outcome(s: Ownership.State, t: Ownership.State, status: Status, e: nat, u: nat, r: Request) {
    if status != Ok then Ownership.OnlyNew(s, t, e)
    else
      && u !in s.live && t.eds == s.eds + {e}
      && t.live == s.live[u := ShapeOf(r)]
      && (forall q :: q in s.at && q != Ownership.Dummy(e) ==> q in t.at && t.at[q] == s.at[q])
      && (r.filled > 0 ==> Ownership.TookDummy(s, t, e, u))
  }

  /** Memory and owners are tied after a submission that came out like this. */
  ghost predicate Kept(s: Ownership.State, t: World, status: Status, e: nat, u: nat, r: Request) {
    Tie(t) && Outcome(s, t.s, status, e, u, r)
  }

  lemma {:induction false} OutcomeAfterAdd(s: Ownership.State, d: Ownership.State, t: Ownership.State, e: nat, u: nat,
                                           r: Request)
    requires Ownership.OnlyNew(s, d, e) && e in d.eds && u !in s.live
    requires Ownership.Submitted(d, t, e, u, r.filled, ShapeOf(r))
    ensures Outcome(s, t, Ok, e, u, r)
  {
  }

  lemma {:induction false} PlaceKeeps(s: Ownership.State, d: World, e: nat, u: nat, r: Request, doomed: bool,
                                      answers: seq<Answer>)
    requires Tie(d) && r.filled <= r.size && u !in s.live && Ownership.OnlyNew(s, d.s, e) && e in d.s.eds
    ensures var (t, status) := Place(d, e, u, r, doomed, answers); Kept(s, t, status, e, u, r)
  {
    PrepareKeeps(d, u, r, doomed, answers);
    var (t, status) := Prepare(d, u, r, doomed, answers);
    if status == Ok {
      FilledKeeps(d, t, e, u, r);
      OutcomeAfterAdd(s, d.s, Ownership.FillAll(t.s, e, u, r.filled), e, u, r);
    }
  }

  lemma {:induction false} AdmitKeeps(w: World, e: nat, u: nat, r: Request, doomed: bool, answers: seq<Answer>)
    requires Tie(w) && r.filled <= r.size && u !in w.s.live
    ensures var (t, status) := Admit(w, e, u, r, doomed, answers); Kept(w.s, t, status, e, u, r)
  {
    var answer := AnswerAt(answers, r.size + 2);
    AddEdKeeps(w, e, answer);
    var (d, added) := AddEd(w, e, answer);
    if added {
      PlaceKeeps(w.s, d, e, u, r, doomed, answers);
      assert Admit(w, e, u, r, doomed, answers) == Place(d, e, u, r, doomed, answers);
    } else {
      assert Admit(w, e, u, r, doomed, answers) == (d, NoMemory);
      assert Kept(w.s, d, NoMemory, e, u, r);
    }
  }

  /** Whatever a submission comes to, memory and owners stay tied. */
  lemma {:induction false} SubmitKeeps(w: World, e: nat, u: nat, r: Request, pending: bool, doomed: bool,
                                       answers: seq<Answer>)
    requires Tie(w) && r.filled <= r.size
    ensures var (t, status) := SubmitUrb(w, e, u, r, pending, doomed, answers); Kept(w.s, t, status, e, u, r)
  {
    if u !in w.s.live && !pending {
      AdmitKeeps(w, e, u, r, doomed, answers);
    }
  }

  lemma {:induction false} AddEdKeeps(w: World, e: nat, answer: Answer)
    requires Tie(w)
    ensures var (d, added) := AddEd(w, e, answer);
            && Tie(d) && Ownership.OnlyNew(w.s, d.s, e) && (added <==> e in d.s.eds)
  {
    assert Ownership.RoleOk(w.s, Ownership.Dummy(e));
    if e !in w.s.eds {
      AllocateKeepsTie(w, Ownership.Dummy(e), TD_SIZE, answer);
    }
  }

  /** Dummies and descriptors are of one size. */
  lemma {:induction false} FillAllRoomy(used: seq<Block>, s: Ownership.State, e: nat, u: nat, cnt: nat)
    requires Roomy(used, s)
    ensures Roomy(used, Ownership.FillAll(s, e, u, cnt)) && Ownership.FillAll(s, e, u, cnt).live == s.live
  {
    if cnt > 0 {
      FillAllRoomy(used, s, e, u, cnt - 1);
      var t, d, x := Ownership.FillAll(s, e, u, cnt - 1), Ownership.Dummy(e), Ownership.Td(u, cnt - 1);
      if d in t.at && x in t.at {
        var f := Ownership.Filled(t, e, u, cnt - 1);
        forall r | r in f.at
          ensures Room(used, f.at[r], Need(f, r))
        {
          assert Room(used, t.at[if r == d then x else if r == x then d else r], Need(t, r));
        }
      }
    }
  }

  lemma {:induction false} FilledKeeps(d: World, m: World, e: nat, u: nat, r: Request)
    requires Tie(d) && Tie(m) && e in d.s.eds && r.filled <= r.size
    requires Ownership.OnlyAdded(d.s, m.s, u, ShapeOf(r))
    ensures var t := m.(s := Ownership.FillAll(m.s, e, u, r.filled));
            Tie(t) && Ownership.Submitted(d.s, t.s, e, u, r.filled, ShapeOf(r))
  {
    Ownership.FillAllRotates(m.s, e, u, r.filled);
    FillAllRoomy(m.mem.used, m.s, e, u, r.filled);
    Ownership.AddedThenFilled(d.s, m.s, Ownership.FillAll(m.s, e, u, r.filled), e, u, r.filled,
                              ShapeOf(r));
  }

  // ---------- the driver's loops

  method AllocateTds(w: World, u: nat, size: nat, answers: seq<Answer>) returns (t: World, ok: bool)
    requires u in w.s.live
    ensures (t, ok) == AllocTds(w, u, 0, size, answers)
  {
    t, ok := w, true;
    var k := 0;
    while k < size
      invariant k <= size && u in t.s.live
      invariant AllocTds(w, u, 0, size, answers) == AllocTds(t, u, k, size, answers)
    {
      var (next, granted) := Allocate(t, Ownership.Td(u, k), TD_SIZE, AnswerAt(answers, k));
      if !granted {
        return next, false;
      }
      t, k := next, k + 1;
    }
  }

  method Settle(c: World, granted: bool, u: nat, size: nat) returns (t: World, status: Status)
    ensures (t, status) == Settled((c, granted), u, size)
  {
    if granted {
      return c, Ok;
    }
    t := RemovePrivate(c, u, size);
    status := NoMemory;
  }

  method PrepareSetup(w: World, u: nat, r: Request, answers: seq<Answer>) returns (t: World, status: Status)
    requires u in w.s.live
    ensures (t, status) == SetupBuffer(w, u, r, answers)
  {
    var c := AllocIf(w, r.setup, Ownership.Setup(u), SETUP_SIZE, AnswerAt(answers, r.size + 1));
    t, status := Settle(c.0, c.1, u, r.size);
  }

  method PrepareBuffers(w: World, u: nat, r: Request, answers: seq<Answer>) returns (t: World, status: Status)
    requires u in w.s.live
    ensures (t, status) == Buffers(w, u, r, answers)
  {
    var bytes := BounceBytes(r.bytes, r.aligned);
    var (b, data) := AllocIf(w, r.bytes > 0, Ownership.Data(u), bytes, AnswerAt(answers, r.size));
    if data {
      t, status := PrepareSetup(b, u, r, answers);
    } else {
      t := RemovePrivate(b, u, r.size);
      status := NoMemory;
    }
  }

  method PrepareRequest(w: World, u: nat, r: Request, doomed: bool, answers: seq<Answer>)
    returns (t: World, status: Status)
    ensures (t, status) == Prepare(w, u, r, doomed, answers)
  {
    var ok;
    TdsStayLive(Begin(w, u), u, 0, r.size, answers);
    t, ok := AllocateTds(Begin(w, u), u, r.size, answers);
    if !ok {
      t := RemovePrivate(t, u, r.size);
      return t, NoMemory;
    }
    if doomed {
      t := RemovePrivate(t, u, r.size);
      return t, Invalid;
    }
    t, status := PrepareBuffers(t, u, r, answers);
  }

  method PlaceRequest(d: World, e: nat, u: nat, r: Request, doomed: bool, answers: seq<Answer>)
    returns (t: World, status: Status)
    ensures (t, status) == Place(d, e, u, r, doomed, answers)
  {
    t, status := PrepareRequest(d, u, r, doomed, answers);
    if status == Ok {
      var s := Ownership.FillTds(t.s, e, u, r.filled);
      t := t.(s := s);
    }
  }

  /** sohci_submit_urb as far as memory is concerned. */
  method Submit(w: World, e: nat, u: nat, r: Request, pending: bool, doomed: bool, answers: seq<Answer>)
    returns (t: World, status: Status)
    ensures (t, status) == SubmitUrb(w, e, u, r, pending, doomed, answers)
  {
    if u in w.s.live {
      return w, Invalid;
    }
    if pending {
      return w, NoMemory;
    }
    var (d, added) := AddEd(w, e, AnswerAt(answers, r.size + 2));
    if !added {
      return d, NoMemory;
    }
    t, status := PlaceRequest(d, e, u, r, doomed, answers);
  }

  // ---------- runs

  datatype Event =
    | SubmitEvent(ed: nat, urb: nat, request: Request, pending: bool, doomed: bool, answers: seq<Answer>)
    | CompleteEvent(urb: nat)   // a bulk or control request is returned, or a withdrawn one freed
    | DeleteEvent(ed: nat)      // an endpoint that was to be freed is dealt with

  function Complete(w: World, u: nat): World {
    if u in w.s.live then RmPriv(w, u, w.s.live[u].length) else w
  }

  function Delete(w: World, e: nat): World {
    var d := Ownership.Dummy(e);
    if e in w.s.eds && d in w.s.at then
      w.(mem := Free(w.mem, w.s.at[d]).0, s := Ownership.Freed(w.s, e))
    else w
  }

  function Next(w: World, event: Event): World {
    match event
    case SubmitEvent(e, u, r, pending, doomed, answers) => SubmitUrb(w, e, u, r, pending, doomed, answers).0
    case CompleteEvent(u) => Complete(w, u)
    case DeleteEvent(e) => Delete(w, e)
  }

  function AfterRun(w: World, events: seq<Event>): World {
    if events == [] then w else Next(AfterRun(w, events[..|events| - 1]), events[|events| - 1])
  }

  /** The driver when it is loaded, on a platform with these regions. */
  function Start(supply: seq<nat>): World {
    World(EMPTY, Ownership.START, supply)
  }

  predicate EventOk(event: Event) {
    event.SubmitEvent? ==> event.request.filled <= event.request.size
  }

  lemma {:induction false} StartTied(supply: seq<nat>)
    requires SupplyOk(EMPTY, supply)
    ensures Tie(Start(supply))
  {
    EmptyIsPartition();
    forall r
      ensures Ownership.RoleOk(Ownership.START, r)
    {
    }
  }

  lemma {:induction false} DeletedRoomy(w: World, e: nat)
    requires Tie(w) && Ownership.Dummy(e) in w.s.at
    ensures Roomy(Free(w.mem, w.s.at[Ownership.Dummy(e)]).0.used, Ownership.Freed(w.s, e))
  {
    var d, t := Ownership.Dummy(e), Ownership.Freed(w.s, e);
    forall r | r in t.at
      ensures Room(Free(w.mem, w.s.at[d]).0.used, t.at[r], Need(t, r))
    {
      assert Room(w.mem.used, w.s.at[r], Need(w.s, r)) && Ownership.Apart(w.s.at, r, d);
      FreeRoom(w.mem, w.s.at[d], w.s.at[r], Need(t, r));
    }
  }

  lemma {:induction false} DeleteKeepsTie(w: World, e: nat)
    requires Tie(w)
    ensures Tie(Delete(w, e))
  {
    var d := Ownership.Dummy(e);
    assert Ownership.RoleOk(w.s, d);
    if e in w.s.eds {
      FreeKeepsPartition(w.mem, w.s.at[d]);
      FreeRemoves(w.mem, w.s.at[d]);
      SupplyStays(w.mem, Free(w.mem, w.s.at[d]).0, w.supply);
      Ownership.FreedInv(w.s, e);
      DeletedRoomy(w, e);
    }
  }

  /** A request that completes is live no more, its blocks are free again, and nobody else notices. */
  lemma {:induction false} CompleteFrees(w: World, u: nat)
    requires Tie(w)
    ensures var c := Complete(w, u);
            && c.s.live == w.s.live - {u} && c.s.eds == w.s.eds
            && (forall r :: r in c.s.at <==> r in w.s.at && !Ownership.Of(r, u))
            && (forall r :: r in c.s.at ==> c.s.at[r] == w.s.at[r])
            && forall r :: r in w.s.at && Ownership.Of(r, u) ==> w.s.at[r] !in Addresses(c.mem.used)
  {
    var c := Complete(w, u);
    if u in w.s.live {
      RmPrivKeepsTie(w, u, w.s.live[u].length);
    } else {
      forall r | r in w.s.at
        ensures !Ownership.Of(r, u)
      {
        assert Ownership.RoleOk(w.s, r);
      }
    }
    forall q, r | q in c.s.at && r in w.s.at && Ownership.Of(r, u)
      ensures c.s.at[q] != w.s.at[r]
    {
      assert Ownership.Apart(w.s.at, q, r);
    }
  }

  /** An endpoint that is dealt with is in use no more, its dummy is free again, and nobody else notices. */
  lemma {:induction false} DeleteFrees(w: World, e: nat)
    requires Tie(w)
    ensures var c, d := Delete(w, e), Ownership.Dummy(e);
            && c.s.live == w.s.live && c.s.eds == w.s.eds - {e} && c.s.at == w.s.at - {d}
            && (d in w.s.at ==> w.s.at[d] !in Addresses(c.mem.used))
  {
    var c, d := Delete(w, e), Ownership.Dummy(e);
    assert Ownership.RoleOk(w.s, d);
    DeleteKeepsTie(w, e);
    if d in w.s.at {
      forall q | q in c.s.at
        ensures c.s.at[q] != w.s.at[d]
      {
        assert Ownership.Apart(w.s.at, q, d);
      }
    }
  }

  lemma {:induction false} NextKeepsTie(w: World, event: Event)
    requires Tie(w) && EventOk(event)
    ensures Tie(Next(w, event))
  {
    match event
    case SubmitEvent(e, u, r, pending, doomed, answers) => SubmitKeeps(w, e, u, r, pending, doomed, answers);
    case CompleteEvent(u) =>
      if u in w.s.live {
        RmPrivKeepsTie(w, u, w.s.live[u].length);
      }
    case DeleteEvent(e) => DeleteKeepsTie(w, e);
  }

  /** After any run of submissions, completions and deletions, with any answers of the platform, the used blocks of the
      local memory are exactly the blocks of endpoints in use and live requests. */
  lemma {:induction false} RunKeepsTie(supply: seq<nat>, events: seq<Event>)
    requires SupplyOk(EMPTY, supply) && forall i :: 0 <= i < |events| ==> EventOk(events[i])
    ensures Tie(AfterRun(Start(supply), events))
  {
    if events == [] {
      StartTied(supply);
    } else {
      RunKeepsTie(supply, events[..|events| - 1]);
      NextKeepsTie(AfterRun(Start(supply), events[..|events| - 1]), events[|events| - 1]);
    }
  }

  lemma {:induction false} UsedCount(bs: seq<Block>)
    requires forall i, j :: 0 <= i < j < |bs| ==> bs[i].p != bs[j].p
    ensures |Addresses(bs)| == |bs|
  {
    if bs != [] {
      UsedCount(bs[1..]);
      AddressesCons(bs[0], bs[1..]);
      assert bs == [bs[0]] + bs[1..];
      forall b | b in bs[1..]
        ensures b.p != bs[0].p
      {
        var i :| 0 <= i < |bs[1..]| && bs[1..][i] == b;
      }
      assert bs[0].p !in Addresses(bs[1..]);
    }
  }

  lemma {:induction false} TiedCount(w: World)
    requires Tie(w)
    ensures |w.mem.used| == |w.s.used|
  {
    forall i, j | 0 <= i < j < |w.mem.used|
      ensures w.mem.used[i].p != w.mem.used[j].p
    {
      OwnAddress(w.mem, i, j);
    }
    UsedCount(w.mem.used);
  }

  /** However two runs came to the same endpoints in use and live requests, they have the same number of blocks in
      use: nothing that failed, completed or was deleted in between has left any behind. */
  lemma {:induction false} NothingLeaks(supply: seq<nat>, events: seq<Event>, other: seq<nat>, events2: seq<Event>)
    requires SupplyOk(EMPTY, supply) && forall i :: 0 <= i < |events| ==> EventOk(events[i])
    requires SupplyOk(EMPTY, other) && forall i :: 0 <= i < |events2| ==> EventOk(events2[i])
    requires AfterRun(Start(supply), events).s.eds == AfterRun(Start(other), events2).s.eds
    requires AfterRun(Start(supply), events).s.live == AfterRun(Start(other), events2).s.live
    ensures |AfterRun(Start(supply), events).mem.used| == |AfterRun(Start(other), events2).mem.used|
  {
    RunKeepsTie(supply, events);
    RunKeepsTie(other, events2);
    var v, w := AfterRun(Start(supply), events), AfterRun(Start(other), events2);
    Ownership.CountIsDetermined(v.s, w.s);
    TiedCount(v);
    TiedCount(w);
  }

  /** With no endpoint in use and no live request left, every byte of the granted regions is free. */
  lemma {:induction false} EverythingReturned(supply: seq<nat>, events: seq<Event>, a: int)
    requires SupplyOk(EMPTY, supply) && forall i :: 0 <= i < |events| ==> EventOk(events[i])
    requires AfterRun(Start(supply), events).s.eds == {} && AfterRun(Start(supply), events).s.live == map[]
    ensures var m := AfterRun(Start(supply), events).mem; m.used == [] && Count(m.free, a) == Count(m.regions, a)
  {
    var w := AfterRun(Start(supply), events);
    RunKeepsTie(supply, events);
    Ownership.NothingLeft(w.s);
    TiedCount(w);
    assert CountedAt(w.mem, a);
  }

  // ---------- copying back

  /** However much of a bulk request the controller has moved, the number of bytes that are copied back fits the
      request's buffer and the bounce buffer. */
  lemma {:induction false} CopyBackFits(w: World, u: nat, r: Request, out: bool, toggle: Toggle, data: nat,
                                        moved: seq<nat>)
    returns (i: nat)
    requires Tie(w) && u in w.s.live && w.s.live[u] == ShapeOf(r) && r.bytes > 0 && data > 0
    requires 0 < |moved| <= BulkSize(r.bytes)
    requires forall k :: 0 <= k < |moved| - 1 ==> moved[k] == BulkJobs(out, toggle, data, r.bytes)[k].len
    requires moved[|moved| - 1] <= BulkJobs(out, toggle, data, r.bytes)[|moved| - 1].len
    ensures Ownership.Data(u) in w.s.at && i < |w.mem.used| && w.mem.used[i].p == w.s.at[Ownership.Data(u)]
    ensures ActualLength(false, BulkSize(r.bytes), BulkJobs(out, toggle, data, r.bytes), moved, data) <= r.bytes
    ensures r.bytes <= w.mem.used[i].size
  {
    BulkLengthExact(out, toggle, data, r.bytes, moved);
    assert Ownership.RoleOk(w.s, Ownership.Data(u));
    assert Room(w.mem.used, w.s.at[Ownership.Data(u)], Need(w.s, Ownership.Data(u)));
    i :| 0 <= i < |w.mem.used| && w.mem.used[i].p == w.s.at[Ownership.Data(u)] && w.mem.used[i].size >= Bounce(r);
  }
}

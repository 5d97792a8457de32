/** What a submission answers.

    It asks for blocks one after the other, in a fixed order; its status depends on the endpoint and on whether all
    of them are obtained. */
module Submission {
  import Ownership
  import opened MemoryModel
  import opened DriverMemory

  /** A block that is asked for, and what the platform says meanwhile. */
  datatype Ask = Ask(bytes: nat, answer: Answer)

  /** The descriptors from the k-th on. */
  function TdAsks(k: nat, size: nat, answers: seq<Answer>): seq<Ask>
    decreases size - k
  {
    if k >= size then [] else [Ask(TD_SIZE, AnswerAt(answers, k))] + TdAsks(k + 1, size, answers)
  }

  /** A dummy if the endpoint is new, and the descriptors. */
  function FirstAsks(isNew: bool, r: Request, answers: seq<Answer>): seq<Ask> {
    (if isNew then [Ask(TD_SIZE, AnswerAt(answers, r.size + 2))] else []) + TdAsks(0, r.size, answers)
  }

  /** Then the bounce buffers. */
  function BufferAsks(r: Request, answers: seq<Answer>): seq<Ask> {
    (if r.bytes > 0 then [Ask(BounceBytes(r.bytes, r.aligned), AnswerAt(answers, r.size))] else []) +
    (if r.setup then [Ask(SETUP_SIZE, AnswerAt(answers, r.size + 1))] else [])
  }

  /** The memory after these were asked for. */
  function MemAfter(m: Mem, supply: seq<nat>, asks: seq<Ask>): Mem
    decreases |asks|
  {
    if asks == [] then m else MemAfter(Obtain(m, supply, asks[0].bytes, asks[0].answer).0, supply, asks[1..])
  }

  /** All of these are obtained, one after the other. */
  predicate AllGranted(m: Mem, supply: seq<nat>, asks: seq<Ask>)
    decreases |asks|
  {
    asks == [] ||
    var (n, p) := Obtain(m, supply, asks[0].bytes, asks[0].answer);
    p != 0 && AllGranted(n, supply, asks[1..])
  }

  lemma {:induction false} GrantedSum(m: Mem, supply: seq<nat>, a: seq<Ask>, b: seq<Ask>)
    ensures AllGranted(m, supply, a + b) <==> AllGranted(m, supply, a) && AllGranted(MemAfter(m, supply, a), supply, b)
    ensures MemAfter(m, supply, a + b) == MemAfter(MemAfter(m, supply, a), supply, b)
    decreases |a|
  {
    if a == [] {
      assert a + b == b;
    } else {
      assert (a + b)[1..] == a[1..] + b;
      GrantedSum(Obtain(m, supply, a[0].bytes, a[0].answer).0, supply, a[1..], b);
    }
  }

  lemma {:induction false} GrantedOne(m: Mem, supply: seq<nat>, bytes: nat, answer: Answer)
    ensures AllGranted(m, supply, [Ask(bytes, answer)]) <==> Obtain(m, supply, bytes, answer).1 != 0
    ensures MemAfter(m, supply, [Ask(bytes, answer)]) == Obtain(m, supply, bytes, answer).0
  {
    assert [Ask(bytes, answer)][1..] == [];
    assert AllGranted(Obtain(m, supply, bytes, answer).0, supply, []);
  }

  lemma {:induction false} TdsGranted(w: World, u: nat, k: nat, size: nat, answers: seq<Answer>)
    requires u in w.s.live && k <= size
    ensures var (t, ok) := AllocTds(w, u, k, size, answers);
            && (ok <==> AllGranted(w.mem, w.supply, TdAsks(k, size, answers)))
            && (ok ==> t.mem == MemAfter(w.mem, w.supply, TdAsks(k, size, answers)))
            && t.supply == w.supply
    decreases size - k
  {
    if k < size {
      var (t, ok) := Allocate(w, Ownership.Td(u, k), TD_SIZE, AnswerAt(answers, k));
      assert TdAsks(k, size, answers)[1..] == TdAsks(k + 1, size, answers);
      if ok {
        TdsGranted(t, u, k + 1, size, answers);
      }
    }
  }

  lemma {:induction false} SetupGranted(w: World, u: nat, r: Request, answers: seq<Answer>)
    requires u in w.s.live
    ensures SetupBuffer(w, u, r, answers).1 ==
            if AllGranted(w.mem, w.supply, if r.setup then [Ask(SETUP_SIZE, AnswerAt(answers, r.size + 1))] else [])
            then Ok else NoMemory
  {
    GrantedOne(w.mem, w.supply, SETUP_SIZE, AnswerAt(answers, r.size + 1));
  }

  lemma {:induction false} BuffersGranted(w: World, u: nat, r: Request, answers: seq<Answer>)
    requires u in w.s.live
    ensures Buffers(w, u, r, answers).1 ==
            if AllGranted(w.mem, w.supply, BufferAsks(r, answers)) then Ok else NoMemory
  {
    var bytes, answer := BounceBytes(r.bytes, r.aligned), AnswerAt(answers, r.size);
    var last := if r.setup then [Ask(SETUP_SIZE, AnswerAt(answers, r.size + 1))] else [];
    var (b, data) := AllocIf(w, r.bytes > 0, Ownership.Data(u), bytes, answer);
    if r.bytes > 0 {
      GrantedOne(w.mem, w.supply, bytes, answer);
      GrantedSum(w.mem, w.supply, [Ask(bytes, answer)], last);
    } else {
      assert BufferAsks(r, answers) == last;
    }
    if data {
      SetupGranted(b, u, r, answers);
    }
  }

  /** The status of the part for an endpoint that has its dummy. */
  lemma {:induction false} PlaceStatus(d: World, e: nat, u: nat, r: Request, doomed: bool, answers: seq<Answer>)
    ensures Place(d, e, u, r, doomed, answers).1 ==
            if !AllGranted(d.mem, d.supply, TdAsks(0, r.size, answers)) then NoMemory
            else if doomed then Invalid
            else if AllGranted(d.mem, d.supply, TdAsks(0, r.size, answers) + BufferAsks(r, answers)) then Ok
            else NoMemory
  {
    var b := Begin(d, u);
    TdsGranted(b, u, 0, r.size, answers);
    TdsStayLive(b, u, 0, r.size, answers);
    var (a, tds) := AllocTds(b, u, 0, r.size, answers);
    GrantedSum(d.mem, d.supply, TdAsks(0, r.size, answers), BufferAsks(r, answers));
    if tds && !doomed {
      BuffersGranted(a, u, r, answers);
    }
  }

  /** A submission is invalid if the request is in use; for want of memory it fails while a removal is pending or if
      a dummy or descriptor is refused; then it is invalid if the endpoint is gone; and it is accepted exactly if all
      blocks are obtained. */
  lemma {:induction false} SubmitStatus(w: World, e: nat, u: nat, r: Request, pending: bool, doomed: bool,
                                        answers: seq<Answer>)
    ensures var first := FirstAsks(e !in w.s.eds, r, answers);
            SubmitUrb(w, e, u, r, pending, doomed, answers).1 ==
            if u in w.s.live then Invalid
            else if pending || !AllGranted(w.mem, w.supply, first) then NoMemory
            else if doomed then Invalid
            else if AllGranted(w.mem, w.supply, first + BufferAsks(r, answers)) then Ok
            else NoMemory
    ensures u in w.s.live || pending ==> SubmitUrb(w, e, u, r, pending, doomed, answers).0 == w
  {
    if u in w.s.live || pending {
      return;
    }
    var answer, tds, rest := AnswerAt(answers, r.size + 2), TdAsks(0, r.size, answers), BufferAsks(r, answers);
    var (d, added) := AddEd(w, e, answer);
    if e in w.s.eds {
      assert FirstAsks(false, r, answers) == tds;
    } else {
      GrantedOne(w.mem, w.supply, TD_SIZE, answer);
      GrantedSum(w.mem, w.supply, [Ask(TD_SIZE, answer)], tds);
      GrantedSum(w.mem, w.supply, [Ask(TD_SIZE, answer)], tds + rest);
      assert [Ask(TD_SIZE, answer)] + tds + rest == [Ask(TD_SIZE, answer)] + (tds + rest);
    }
    if added {
      PlaceStatus(d, e, u, r, doomed, answers);
    }
  }

  // ---------- when all blocks are obtained

  /** A free block of at least n bytes. */
  ghost predicate HasBlock(m: Mem, n: nat) {
    n == 0 || exists i :: 0 <= i < |m.free| && m.free[i].size >= n
  }

  /** The bytes of all the blocks together. */
  function Total(asks: seq<Ask>): nat {
    if asks == [] then 0 else RoundUp(asks[0].bytes) + Total(asks[1..])
  }

  lemma {:induction false} RefillKeepsBlock(m: Mem, inInterrupt: bool, g: Grant, n: nat)
    requires HasBlock(m, n)
    ensures HasBlock(Refill(m, inInterrupt, g), n)
  {
    var a := Refill(m, inInterrupt, g);
    if n > 0 {
      var i :| 0 <= i < |m.free| && m.free[i].size >= n;
      assert a.free[|a.free| - |m.free| + i] == m.free[i];
    }
  }

  lemma {:induction false} TakeFromBlock(m: Mem, n: nat, rest: nat)
    requires HasBlock(m, n + rest) && n > 0
    ensures Fits(m, n) && HasBlock(Take(m, n, true).0, rest)
  {
    var f, t := FirstFit(m.free, n, 0), Take(m, n, true).0;
    var i :| 0 <= i < |m.free| && m.free[i].size >= n + rest;
    if i != f {
      if m.free[f].size == n {
        assert t.free[if i < f then i else i - 1] == m.free[i];
      } else {
        assert t.free[i] == m.free[i];
      }
    } else if m.free[f].size > n {
      assert t.free[f].size == m.free[f].size - n;
    }
  }

  lemma {:induction false} ObtainFromBlock(m: Mem, supply: seq<nat>, size: nat, answer: Answer, rest: nat)
    requires Partition(m) && SupplyOk(m, supply) && size > 0 && HasBlock(m, RoundUp(size) + rest)
    ensures var (n, p) := Obtain(m, supply, size, answer);
            p != 0 && HasBlock(n, rest) && Partition(n) && SupplyOk(n, supply)
  {
    var first := Offer(m, supply, answer.first);
    var a := Refill(m, answer.inInterrupt, first);
    RoundUpIsGrain(size);
    ObtainKeeps(m, supply, size, answer);
    RefillKeepsBlock(m, answer.inInterrupt, first, RoundUp(size) + rest);
    TakeFromBlock(a, RoundUp(size), rest);
    OfferApart(m, supply, answer.first);
    RefillKeepsPartition(m, answer.inInterrupt, first);
    TakeSucceeds(a, RoundUp(size));
  }

  /** With a free block that holds them all together, all are obtained, whatever the platform says and even in an
      interrupt. */
  lemma {:induction false} EnoughRoom(m: Mem, supply: seq<nat>, asks: seq<Ask>)
    requires Partition(m) && SupplyOk(m, supply) && HasBlock(m, Total(asks))
    requires forall i :: 0 <= i < |asks| ==> asks[i].bytes > 0
    ensures AllGranted(m, supply, asks)
    decreases |asks|
  {
    if asks != [] {
      var bytes, answer, rest := asks[0].bytes, asks[0].answer, asks[1..];
      ObtainFromBlock(m, supply, bytes, answer, Total(rest));
      EnoughRoom(Obtain(m, supply, bytes, answer).0, supply, rest);
    }
  }

  /** Outside interrupts, and the platform grants whenever it is asked. */
  predicate Generous(ask: Ask) {
    0 < ask.bytes <= UNIT && ask.answer == Answer(false, true, true)
  }

  lemma {:induction false} ObtainGenerous(m: Mem, supply: seq<nat>, size: nat)
    requires Partition(m) && SupplyOk(m, supply) && 0 < size <= UNIT
    requires |m.regions| + 2 <= |supply| && |m.regions| + 2 <= MAX_REGIONS + 1
    ensures var (n, p) := Obtain(m, supply, size, Answer(false, true, true));
            p != 0 && |n.regions| <= |m.regions| + 2 && Partition(n) && SupplyOk(n, supply)
  {
    var first := Offer(m, supply, true);
    var a := Refill(m, false, first);
    var second := Offer(a, supply, true);
    ObtainKeeps(m, supply, size, Answer(false, true, true));
    OfferApart(m, supply, true);
    RefillSupply(m, false, supply, true);
    OfferApart(a, supply, true);
    AllocSucceeds(m, size, first, second);
  }

  /** While the platform has regions left, and the driver room for them, all requests of at most a region are
      obtained. */
  lemma {:induction false} GrantedWhenever(m: Mem, supply: seq<nat>, asks: seq<Ask>)
    requires Partition(m) && SupplyOk(m, supply) && forall i :: 0 <= i < |asks| ==> Generous(asks[i])
    requires |m.regions| + 2 * |asks| <= |supply| && |m.regions| + 2 * |asks| <= MAX_REGIONS + 1
    ensures AllGranted(m, supply, asks)
    decreases |asks|
  {
    if asks != [] {
      assert Generous(asks[0]);
      ObtainGenerous(m, supply, asks[0].bytes);
      GrantedWhenever(Obtain(m, supply, asks[0].bytes, asks[0].answer).0, supply, asks[1..]);
    }
  }

  lemma {:induction false} GrowGivesBlock(m: Mem, base: nat, n: nat)
    requires |m.regions| <= MAX_REGIONS && n <= UNIT
    ensures HasBlock(Grow(m, Region(base)), n)
  {
    assert Grow(m, Region(base)).free[0].size == UNIT;
  }

  /** One of these needs no region, or a region that then holds all the others. */
  lemma {:induction false} ObtainOrGrow(m: Mem, supply: seq<nat>, size: nat, rest: nat)
    requires Partition(m) && SupplyOk(m, supply) && size > 0 && RoundUp(size) + rest <= UNIT
    requires |m.regions| < |supply| && |m.regions| <= MAX_REGIONS
    ensures var (n, p) := Obtain(m, supply, size, Answer(false, true, true));
            p != 0 && (HasBlock(n, rest) || n.regions == m.regions)
  {
    var n, first := RoundUp(size), Offer(m, supply, true);
    RoundUpIsGrain(size);
    OfferApart(m, supply, true);
    RefillKeepsPartition(m, false, first);
    if m.insufficient > 0 {
      GrowGivesBlock(m.(insufficient := 0), first.base, n + rest);
      ObtainFromGrown(m, supply, size, rest);
    } else if Fits(m, n) {
      TakeSucceeds(m, n);
    } else {
      var b := Take(m, n, true).0;
      GrowGivesBlock(b.(insufficient := 0), first.base, n + rest);
      var c := Refill(b, false, first);
      TakeKeepsPartition(m, n);
      RefillKeepsPartition(b, false, first);
      TakeFromBlock(c, n, rest);
      TakeSucceeds(c, n);
    }
  }

  lemma {:induction false} ObtainFromGrown(m: Mem, supply: seq<nat>, size: nat, rest: nat)
    requires Partition(m) && SupplyOk(m, supply) && size > 0
    requires HasBlock(Refill(m, false, Offer(m, supply, true)), RoundUp(size) + rest)
    ensures var (n, p) := Obtain(m, supply, size, Answer(false, true, true)); p != 0 && HasBlock(n, rest)
  {
    var first := Offer(m, supply, true);
    RoundUpIsGrain(size);
    OfferApart(m, supply, true);
    RefillKeepsPartition(m, false, first);
    TakeFromBlock(Refill(m, false, first), RoundUp(size), rest);
    TakeSucceeds(Refill(m, false, first), RoundUp(size));
  }

  /** Blocks that fit into one region together are all obtained if the platform has one more region and grants it when
      asked. */
  lemma {:induction false} GrantedWithin(m: Mem, supply: seq<nat>, asks: seq<Ask>)
    requires Partition(m) && SupplyOk(m, supply) && Total(asks) <= UNIT
    requires forall i :: 0 <= i < |asks| ==> Generous(asks[i])
    requires |m.regions| < |supply| && |m.regions| <= MAX_REGIONS
    ensures AllGranted(m, supply, asks)
    decreases |asks|
  {
    if asks != [] {
      var bytes, answer, rest := asks[0].bytes, asks[0].answer, asks[1..];
      assert Generous(asks[0]) && forall i :: 0 <= i < |rest| ==> Generous(rest[i]);
      ObtainOrGrow(m, supply, bytes, Total(rest));
      ObtainKeeps(m, supply, bytes, answer);
      var n := Obtain(m, supply, bytes, answer).0;
      if n.regions == m.regions {
        GrantedWithin(n, supply, rest);
      } else {
        EnoughRoom(n, supply, rest);
      }
    }
  }

  // ---------- when a submission is accepted

  /** A descriptor or a buffer of the request, asked for with one of the answers. */
  predicate Usual(ask: Ask, r: Request, answers: seq<Answer>) {
    && (|| ask.bytes == TD_SIZE || ask.bytes == SETUP_SIZE
        || (r.bytes > 0 && ask.bytes == BounceBytes(r.bytes, r.aligned)))
    && exists k :: 0 <= k < r.size + 3 && ask.answer == AnswerAt(answers, k)
  }

  lemma {:induction false} TdAsksUsual(k: nat, r: Request, answers: seq<Answer>)
    requires k <= r.size
    ensures forall ask :: ask in TdAsks(k, r.size, answers) ==> Usual(ask, r, answers)
    decreases r.size - k
  {
    if k < r.size {
      TdAsksUsual(k + 1, r, answers);
    }
  }

  lemma {:induction false} AsksUsual(isNew: bool, r: Request, answers: seq<Answer>)
    ensures forall ask :: ask in FirstAsks(isNew, r, answers) + BufferAsks(r, answers) ==> Usual(ask, r, answers)
  {
    TdAsksUsual(0, r, answers);
  }

  /** A new request to an endpoint that is neither being removed nor gone is accepted when there is a free block for all
      of it. */
  lemma {:induction false} AcceptedWithRoom(w: World, e: nat, u: nat, r: Request, answers: seq<Answer>)
    requires Tie(w) && u !in w.s.live
    requires HasBlock(w.mem, Total(FirstAsks(e !in w.s.eds, r, answers) + BufferAsks(r, answers)))
    ensures SubmitUrb(w, e, u, r, false, false, answers).1 == Ok
  {
    var first, rest := FirstAsks(e !in w.s.eds, r, answers), BufferAsks(r, answers);
    var asks: seq<Ask> := first + rest;
    AsksUsual(e !in w.s.eds, r, answers);
    forall i | 0 <= i < |asks|
      ensures asks[i].bytes > 0
    {
      assert Usual(asks[i], r, answers);
    }
    EnoughRoom(w.mem, w.supply, asks);
    GrantedSum(w.mem, w.supply, first, rest);
    SubmitStatus(w, e, u, r, false, false, answers);
  }

  /** And outside interrupts, if all of it fits into one region, when the platform grants one more for the asking. */
  lemma {:induction false} AcceptedWhenGranted(w: World, e: nat, u: nat, r: Request, answers: seq<Answer>)
    requires Tie(w) && u !in w.s.live && |w.mem.regions| < |w.supply| && |w.mem.regions| <= MAX_REGIONS
    requires Total(FirstAsks(e !in w.s.eds, r, answers) + BufferAsks(r, answers)) <= UNIT
    requires forall k :: 0 <= k < r.size + 3 ==> AnswerAt(answers, k) == Answer(false, true, true)
    ensures SubmitUrb(w, e, u, r, false, false, answers).1 == Ok
  {
    var first, rest := FirstAsks(e !in w.s.eds, r, answers), BufferAsks(r, answers);
    var asks: seq<Ask> := first + rest;
    AsksUsual(e !in w.s.eds, r, answers);
    forall i | 0 <= i < |asks|
      ensures Generous(asks[i])
    {
      assert Usual(asks[i], r, answers);
      TotalCovers(asks, i);
    }
    GrantedWithin(w.mem, w.supply, asks);
    GrantedSum(w.mem, w.supply, first, rest);
    SubmitStatus(w, e, u, r, false, false, answers);
  }

  lemma {:induction false} TotalCovers(asks: seq<Ask>, i: nat)
    requires i < |asks|
    ensures asks[i].bytes <= Total(asks)
  {
    if i > 0 {
      TotalCovers(asks[1..], i - 1);
    }
  }
}

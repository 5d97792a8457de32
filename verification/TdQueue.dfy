/** The queue of transfer descriptors of one endpoint, and how a request's descriptors get into it.

    The last descriptor of a queue is a dummy that tells the controller where to stop.  Filling a
    descriptor for a request uses the dummy and makes one of the request's spare descriptors the new
    dummy, so the descriptors of requests and queues rotate. */
module TdQueue {
  import opened OhciTypes
  import opened Sequences

  datatype Pid = SETUP | OUT | IN

  datatype Toggle = FromEndpoint | Data0 | Data1

  datatype Info = Info(pid: Pid, toggle: Toggle, shortOk: bool)

  const NOT_ACCESSED := 15

  const PAGE := 4096

  class Td {
    var hwNextTD: Td?
    var queue: Queue?
    var urb: Urb?
    var index: nat
    var info: Info
    var cc: nat
    var cbp: nat        // current buffer pointer, 0 when all is moved
    var be: nat         // address of the last byte
    var nextDone: Td?

    constructor ()
      ensures hwNextTD == null
    {
      hwNextTD, queue, urb, nextDone := null, null, null, null;
      index, cbp, be, cc := 0, 0, 0, NOT_ACCESSED;
      info := Info(SETUP, Data0, false);
    }
  }

  /** The private part of a request. */
  class Urb {
    const td: array<Td>
    const asyncUnlink: bool
    var count: nat            // td_cnt
    var deleted: bool         // URB_DEL
    var freed: bool           // the private part is released

    constructor (td: array<Td>, asyncUnlink: bool)
      ensures this.td == td && this.asyncUnlink == asyncUnlink && count == 0 && !deleted && !freed
    {
      this.td, this.asyncUnlink := td, asyncUnlink;
      count, deleted, freed := 0, false, false;
    }
  }

  ghost function FirstOf(queue: seq<Td>, tail: Td): Td {
    if queue == [] then tail else queue[0]
  }

  ghost predicate LeadsOn(queue: seq<Td>, tail: Td, i: nat)
    requires i < |queue|
    reads {queue[i]}`hwNextTD
  {
    queue[i].hwNextTD == if i + 1 < |queue| then queue[i + 1] else tail
  }

  ghost predicate Chained(queue: seq<Td>, tail: Td)
    reads (set td | td in queue)`hwNextTD
  {
    forall i :: 0 <= i < |queue| ==> LeadsOn(queue, tail, i)
  }

  /** From the head the links lead through the descriptors tds to the dummy. */
  ghost predicate Leads(head: Td?, tail: Td, tds: seq<Td>)
    reads tail`hwNextTD, (set td | td in tds)`hwNextTD
  {
    && head == FirstOf(tds, tail)
    && tail.hwNextTD == null
    && Distinct(tds + [tail])
    && Chained(tds, tail)
  }

  /** The descriptor part of an endpoint: hwHeadP with its two flag bits, and hwTailP. */
  class Queue {
    const ed: Ed
    var head: Td?
    var tail: Td
    var halted: bool
    var toggle: bool
    ghost var tds: seq<Td>    // from the head up to the dummy

    ghost predicate Valid()
      reads this`head, this`tail, this`tds, tail`hwNextTD, (set td | td in tds)`hwNextTD
    {
      Leads(head, tail, tds)
    }

    /** A new endpoint's queue holds its dummy only. */
    constructor (ed: Ed, dummy: Td)
      requires dummy.hwNextTD == null
      ensures Valid() && this.ed == ed && tds == [] && tail == dummy && !halted && !toggle
    {
      this.ed := ed;
      head, tail := dummy, dummy;
      halted, toggle := false, false;
      tds := [];
    }
  }

  /** What one descriptor is to do: move len bytes at address data. */
  datatype Job = Job(info: Info, data: nat, len: nat)

  /** Descriptor td is number `index` of request u and does job j. */
  ghost predicate Filled(td: Td, q: Queue, u: Urb, index: nat, j: Job)
    reads td`queue, td`urb, td`index, td`info, td`cc, td`cbp, td`be
  {
    && td.queue == q && td.urb == u && td.index == index && td.info == j.info && td.cc == NOT_ACCESSED
    && td.cbp == (if j.data == 0 || j.len == 0 then 0 else j.data)
    && td.be == (if j.data == 0 || j.len == 0 then 0 else j.data + j.len - 1)
  }

  /** The request's next descriptors join the queue: the old dummy first. */
  method Fill(q: Queue, u: Urb, j: Job, index: nat)
    requires q.Valid()
    requires index < u.td.Length ==> u.td[index] !in q.tds && u.td[index] != q.tail
    modifies q`tail, q`tds, u.td, q.tail, if index < u.td.Length then {u.td[index]} else {}
    ensures q.Valid()
    ensures u.td.Length <= index ==> q.tds == old(q.tds) && q.tail == old(q.tail) && u.td[..] == old(u.td[..])
    ensures index < u.td.Length ==>
              && q.tds == old(q.tds) + [old(q.tail)]
              && q.tail == old(u.td[index])
              && u.td[..] == old(u.td[..])[index := old(q.tail)]
              && Filled(old(q.tail), q, u, index, j)
  {
    if index >= u.td.Length {
      return;
    }
    var spare, td := u.td[index], q.tail;
    u.td[index] := td;
    Describe(td, q, u, index, j);
    Join(q, td, spare);
    td.nextDone := null;
  }

  method Describe(td: Td, q: Queue, u: Urb, index: nat, j: Job)
    modifies td`queue, td`urb, td`index, td`info, td`cc, td`cbp, td`be
    ensures Filled(td, q, u, index, j)
  {
    td.queue, td.index, td.urb := q, index, u;
    td.info, td.cc := j.info, NOT_ACCESSED;
    td.cbp := if j.data == 0 || j.len == 0 then 0 else j.data;
    td.be := if j.data == 0 || j.len == 0 then 0 else j.data + j.len - 1;
  }

  /** The dummy td joins the queue, and `spare` is the new dummy. */
  method Join(q: Queue, td: Td, spare: Td)
    requires q.Valid() && td == q.tail && spare !in q.tds && spare != td
    modifies q`tail, q`tds, td`hwNextTD, spare`hwNextTD
    ensures q.Valid() && q.tds == old(q.tds) + [td] && q.tail == spare
  {
    td.hwNextTD := spare;
    spare.hwNextTD := null;
    q.tail := spare;
    ghost var before := q.tds;
    q.tds := before + [td];
    forall i | 0 <= i < |q.tds|
      ensures LeadsOn(q.tds, q.tail, i)
    {
      if i < |before| {
        assert old(LeadsOn(before, q.tail, i));
        assert Differ(before + [td], i, |before|);
      }
    }
    forall i, j | 0 <= i < j < |q.tds + [spare]|
      ensures Differ(q.tds + [spare], i, j)
    {
      assert j < |q.tds| ==> Differ(before + [td], i, j);
    }
  }

  // ---------- submitting a request

  /** The request's spare descriptors behind the old dummy: the order in which they are used. */
  ghost function Order(tail: Td, spare: seq<Td>): seq<Td> {
    [tail] + spare
  }

  /** cnt descriptors of u are filled; before, the queue was tds with dummy tail and u's array was spare. */
  ghost predicate Progress(q: Queue, u: Urb, tds: seq<Td>, tail: Td, spare: seq<Td>, cnt: nat)
    reads q`head, q`tail, q`tds, q.tail`hwNextTD, (set td | td in q.tds)`hwNextTD, u.td
  {
    && u.td.Length == |spare| && cnt <= |spare|
    && Distinct(tds + Order(tail, spare))
    && q.Valid()
    && q.tds == tds + Order(tail, spare)[..cnt]
    && q.tail == Order(tail, spare)[cnt]
    && u.td[..] == Order(tail, spare)[..cnt] + spare[cnt..]
  }

  ghost predicate FilledAt(tds: seq<Td>, q: Queue, u: Urb, jobs: seq<Job>, i: nat)
    requires i < |jobs| && i < |tds|
    reads {tds[i]}`queue, {tds[i]}`urb, {tds[i]}`index, {tds[i]}`info, {tds[i]}`cc, {tds[i]}`cbp, {tds[i]}`be
  {
    Filled(tds[i], q, u, i, jobs[i])
  }

  /** The first cnt descriptors of tds are those of request u and do its first cnt jobs. */
  ghost predicate FilledUpTo(tds: seq<Td>, q: Queue, u: Urb, jobs: seq<Job>, cnt: nat)
    reads set td | td in tds
  {
    cnt <= |jobs| && cnt <= |tds| && forall i :: 0 <= i < cnt ==> FilledAt(tds, q, u, jobs, i)
  }

  method FillNext(q: Queue, u: Urb, j: Job, ghost jobs: seq<Job>, ghost tds: seq<Td>, ghost tail: Td,
                  ghost spare: seq<Td>, cnt: nat)
    requires cnt < |spare| && Progress(q, u, tds, tail, spare, cnt) && cnt < |jobs| && j == jobs[cnt]
    requires FilledUpTo(Order(tail, spare), q, u, jobs, cnt)
    modifies q`tail, q`tds, u.td, tail, spare
    ensures Progress(q, u, tds, tail, spare, cnt + 1) && FilledUpTo(Order(tail, spare), q, u, jobs, cnt + 1)
  {
    var d, o := tds + Order(tail, spare), Order(tail, spare);
    assert u.td[cnt] == u.td[..][cnt] == spare[cnt] == o[cnt + 1] == d[|tds| + cnt + 1];
    assert q.tail == d[|tds| + cnt];
    forall i | 0 <= i < |q.tds|
      ensures q.tds[i] != u.td[cnt]
    {
      assert q.tds[i] == d[i];
      assert Differ(d, i, |tds| + cnt + 1);
    }
    assert Differ(d, |tds| + cnt, |tds| + cnt + 1);
    Fill(q, u, j, cnt);
    assert o[..cnt + 1] == o[..cnt] + [o[cnt]];
    assert u.td[..] == o[..cnt + 1] + spare[cnt + 1..];
    forall i | 0 <= i < cnt + 1
      ensures FilledAt(o, q, u, jobs, i)
    {
      if i < cnt {
        assert o[i] == d[|tds| + i];
        assert Differ(d, |tds| + i, |tds| + cnt) && Differ(d, |tds| + i, |tds| + cnt + 1);
        assert old(FilledAt(o, q, u, jobs, i));
      }
    }
  }

  /** Division of the C language: towards zero. */
  function CDiv(a: int, b: int): int
    requires b > 0
  {
    if a < 0 then -((-a) / b) else a / b
  }

  /** How many descriptors a bulk request gets, one for every page. */
  function BulkSize(len: nat): int {
    CDiv(len - 1, PAGE) + 1
  }

  /** How many a control request gets: set-up, status and one for every page. */
  function ControlSize(len: nat): int {
    if len == 0 then 2 else CDiv(len - 1, PAGE) + 3
  }

  lemma {:induction false} BulkSizeIs(len: nat)
    ensures BulkSize(len) >= 1
    ensures (BulkSize(len) - 1) * PAGE < len <= BulkSize(len) * PAGE || (len == 0 && BulkSize(len) == 1)
  {
  }

  function BulkJob(out: bool, toggle: Toggle, data: nat, len: nat, i: nat): Job
    requires i < BulkSize(len)
  {
    BulkSizeIs(len);
    var last := i == BulkSize(len) - 1;
    Job(Info(if out then OUT else IN, if i == 0 then toggle else FromEndpoint, last && !out),
        data + PAGE * i, if last then len - PAGE * i else PAGE)
  }

  function BulkJobs(out: bool, toggle: Toggle, data: nat, len: nat): (r: seq<Job>)
    ensures |r| == BulkSize(len)
  {
    BulkSizeIs(len);
    seq(BulkSize(len), i requires 0 <= i < BulkSize(len) => BulkJob(out, toggle, data, len, i))
  }

  lemma {:induction false} FullPage(out: bool, toggle: Toggle, data: nat, len: nat, i: nat)
    requires len - PAGE * i > PAGE
    ensures i + 1 < BulkSize(len)
    ensures BulkJobs(out, toggle, data, len)[i] ==
            Job(Info(if out then OUT else IN, if i == 0 then toggle else FromEndpoint, false), data + PAGE * i, PAGE)
  {
    BulkSizeIs(len);
  }

  lemma {:induction false} LastPage(out: bool, toggle: Toggle, data: nat, len: nat, i: nat)
    requires 0 <= len - PAGE * i <= PAGE && i < BulkSize(len)
    ensures i + 1 == BulkSize(len)
    ensures BulkJobs(out, toggle, data, len)[i] ==
            Job(Info(if out then OUT else IN, if i == 0 then toggle else FromEndpoint, !out),
                data + PAGE * i, len - PAGE * i)
  {
    BulkSizeIs(len);
  }

  function ControlJobs(out: bool, setup: nat, data: nat, len: nat): (r: seq<Job>)
    ensures |r| == if len > 0 then 3 else 2
  {
    [Job(Info(SETUP, Data0, false), setup, 8)] +
    (if len > 0 then [Job(Info(if out then OUT else IN, Data1, true), data, len)] else []) +
    [Job(Info(if out then IN else OUT, Data1, false), 0, 0)]
  }

  function InterruptJobs(out: bool, toggle: Toggle, data: nat, len: nat): (r: seq<Job>)
    ensures |r| == 1
  {
    [Job(Info(if out then OUT else IN, toggle, !out), data, len)]
  }

  /** Request u may be submitted to q: its descriptors and the queue's are all different. */
  ghost predicate Ready(q: Queue, u: Urb)
    reads q`head, q`tail, q`tds, q.tail`hwNextTD, (set td | td in q.tds)`hwNextTD, u.td
  {
    q.Valid() && Distinct(q.tds + Order(q.tail, u.td[..]))
  }

  /** `at` is where page i of the buffer begins and `rest` what is left from there. */
  ghost predicate AtPage(data: nat, len: nat, i: nat, at: nat, rest: int) {
    at == data + PAGE * i && rest == len - PAGE * i && i < BulkSize(len)
  }

  /** The descriptor for a page that is not the last. */
  method FillPage(q: Queue, u: Urb, out: bool, toggle: Toggle, ghost data: nat, ghost len: nat, ghost tds: seq<Td>,
                  ghost tail: Td, ghost spare: seq<Td>, cnt: nat, at: nat, ghost rest: int)
    requires cnt < |spare| && Progress(q, u, tds, tail, spare, cnt) && AtPage(data, len, cnt, at, rest) && rest > PAGE
    requires FilledUpTo(Order(tail, spare), q, u, BulkJobs(out, toggle, data, len), cnt)
    modifies q`tail, q`tds, u.td, tail, spare
    ensures Progress(q, u, tds, tail, spare, cnt + 1) && AtPage(data, len, cnt + 1, at + PAGE, rest - PAGE)
    ensures FilledUpTo(Order(tail, spare), q, u, BulkJobs(out, toggle, data, len), cnt + 1)
  {
    FullPage(out, toggle, data, len, cnt);
    var j := Job(Info(if out then OUT else IN, if cnt == 0 then toggle else FromEndpoint, false), at, PAGE);
    FillNext(q, u, j, BulkJobs(out, toggle, data, len), tds, tail, spare, cnt);
  }

  method FillLastPage(q: Queue, u: Urb, out: bool, toggle: Toggle, ghost data: nat, ghost len: nat,
                      ghost tds: seq<Td>, ghost tail: Td, ghost spare: seq<Td>, cnt: nat, at: nat, rest: nat)
    requires cnt < |spare| && Progress(q, u, tds, tail, spare, cnt) && AtPage(data, len, cnt, at, rest) && rest <= PAGE
    requires FilledUpTo(Order(tail, spare), q, u, BulkJobs(out, toggle, data, len), cnt)
    modifies q`tail, q`tds, u.td, tail, spare
    ensures cnt + 1 == BulkSize(len) && Progress(q, u, tds, tail, spare, cnt + 1)
    ensures FilledUpTo(Order(tail, spare), q, u, BulkJobs(out, toggle, data, len), cnt + 1)
  {
    LastPage(out, toggle, data, len, cnt);
    var j := Job(Info(if out then OUT else IN, if cnt == 0 then toggle else FromEndpoint, !out), at, rest);
    FillNext(q, u, j, BulkJobs(out, toggle, data, len), tds, tail, spare, cnt);
  }

  method SubmitBulk(q: Queue, u: Urb, out: bool, toggle: Toggle, data: nat, len: nat) returns (cnt: nat)
    requires Ready(q, u) && BulkSize(len) <= u.td.Length
    modifies q`tail, q`tds, u`count, u.td, q.tail, u.td[..]
    ensures cnt == BulkSize(len) && u.count == 0
    ensures Progress(q, u, old(q.tds), old(q.tail), old(u.td[..]), cnt)
    ensures FilledUpTo(old(Order(q.tail, u.td[..])), q, u, BulkJobs(out, toggle, data, len), cnt)
    ensures (len > 0 ==> data > 0) ==> BulkStages(old(Order(q.tail, u.td[..])), q, u, out, toggle, data, len, cnt)
  {
    ghost var tds, tail, spare, jobs := q.tds, q.tail, u.td[..], BulkJobs(out, toggle, data, len);
    BulkSizeIs(len);
    u.count, cnt := 0, 0;
    var at: nat, rest: int := data, len;
    while rest > PAGE
      invariant u.count == 0 && AtPage(data, len, cnt, at, rest) && tds == old(q.tds) && spare == old(u.td[..])
      invariant Progress(q, u, tds, tail, spare, cnt) && FilledUpTo(Order(tail, spare), q, u, jobs, cnt)
    {
      FillPage(q, u, out, toggle, data, len, tds, tail, spare, cnt, at, rest);
      at, rest, cnt := at + PAGE, rest - PAGE, cnt + 1;
    }
    FillLastPage(q, u, out, toggle, data, len, tds, tail, spare, cnt, at, rest);
    cnt := cnt + 1;
    if len > 0 ==> data > 0 {
      BulkIsStages(Order(tail, spare), q, u, out, toggle, data, len);
    }
  }

  method SubmitInterrupt(q: Queue, u: Urb, out: bool, toggle: Toggle, data: nat, len: nat) returns (cnt: nat)
    requires Ready(q, u) && u.td.Length >= 1
    modifies q`tail, q`tds, u`count, u.td, q.tail, u.td[..]
    ensures cnt == 1 && u.count == 0
    ensures Progress(q, u, old(q.tds), old(q.tail), old(u.td[..]), cnt)
    ensures FilledUpTo(old(Order(q.tail, u.td[..])), q, u, InterruptJobs(out, toggle, data, len), cnt)
    ensures (len > 0 ==> data > 0) ==> InterruptStage(old(q.tail), q, u, out, toggle, data, len)
  {
    ghost var tds, tail, spare, jobs := q.tds, q.tail, u.td[..], InterruptJobs(out, toggle, data, len);
    u.count, cnt := 0, 0;
    FillNext(q, u, Job(Info(if out then OUT else IN, toggle, !out), data, len), jobs, tds, tail, spare, cnt);
    cnt := cnt + 1;
    if len > 0 ==> data > 0 {
      InterruptIsStage(Order(tail, spare), q, u, out, toggle, data, len);
    }
  }

  method SubmitControl(q: Queue, u: Urb, out: bool, setup: nat, data: nat, len: nat) returns (cnt: nat)
    requires Ready(q, u) && ControlSize(len) <= u.td.Length
    modifies q`tail, q`tds, u`count, u.td, q.tail, u.td[..]
    ensures cnt == |ControlJobs(out, setup, data, len)| && u.count == 0
    ensures Progress(q, u, old(q.tds), old(q.tail), old(u.td[..]), cnt)
    ensures FilledUpTo(old(Order(q.tail, u.td[..])), q, u, ControlJobs(out, setup, data, len), cnt)
    ensures setup > 0 && (len > 0 ==> data > 0) ==>
              ControlStages(old(Order(q.tail, u.td[..])), q, u, out, setup, data, len, cnt)
  {
    ghost var tds, tail, spare, jobs := q.tds, q.tail, u.td[..], ControlJobs(out, setup, data, len);
    u.count, cnt := 0, 0;
    FillNext(q, u, Job(Info(SETUP, Data0, false), setup, 8), jobs, tds, tail, spare, cnt);
    cnt := cnt + 1;
    if len > 0 {
      FillNext(q, u, Job(Info(if out then OUT else IN, Data1, true), data, len), jobs, tds, tail, spare, cnt);
      cnt := cnt + 1;
    }
    FillNext(q, u, Job(Info(if out then IN else OUT, Data1, false), 0, 0), jobs, tds, tail, spare, cnt);
    cnt := cnt + 1;
    if setup > 0 && (len > 0 ==> data > 0) {
      ControlIsStages(Order(tail, spare), q, u, out, setup, data, len, cnt);
    }
  }

  // ---------- what the filled descriptors say

  /** The controller is to move the byte at x for this descriptor. */
  ghost predicate Reaches(td: Td, x: int)
    reads td`cbp, td`be
  {
    0 < td.cbp <= x <= td.be
  }

  /** The descriptor covers exactly len bytes from data on. */
  ghost predicate ReachesExactly(td: Td, data: nat, len: nat)
    reads td`cbp, td`be
  {
    forall x: int :: Reaches(td, x) <==> data <= x < data + len
  }

  /** The direction of a request's data, and the other one. */
  ghost predicate Runs(td: Td, out: bool)
    reads td`info
  {
    td.info.pid == if out then OUT else IN
  }

  /** Number i of request u, not yet looked at by the controller. */
  ghost predicate IsNext(td: Td, q: Queue, u: Urb, i: nat)
    reads td`queue, td`urb, td`index, td`cc
  {
    td.queue == q && td.urb == u && td.index == i && td.cc == NOT_ACCESSED
  }

  /** The stages of a control request: the set-up packet with DATA0; the data, if any, in the request's direction with
      DATA1; and a status descriptor that moves nothing, against that direction, with DATA1. */
  ghost predicate ControlStages(tds: seq<Td>, q: Queue, u: Urb, out: bool, setup: nat, data: nat, len: nat, cnt: nat)
    reads set td | td in tds
  {
    && cnt == (if len > 0 then 3 else 2) && cnt <= |tds|
    && (forall i :: 0 <= i < cnt ==> IsNext(tds[i], q, u, i))
    && tds[0].info.pid == SETUP && tds[0].info.toggle == Data0 && ReachesExactly(tds[0], setup, 8)
    && (len > 0 ==> Runs(tds[1], out) && tds[1].info.toggle == Data1 && tds[1].info.shortOk
                    && ReachesExactly(tds[1], data, len))
    && var last := tds[cnt - 1];
       Runs(last, !out) && last.info.toggle == Data1 && !last.info.shortOk && ReachesExactly(last, 0, 0)
  }

  /** An interrupt request has one descriptor: all its data, in its direction, with the given toggle; only reading may
      come up short. */
  ghost predicate InterruptStage(td: Td, q: Queue, u: Urb, out: bool, toggle: Toggle, data: nat, len: nat)
    reads td
  {
    && IsNext(td, q, u, 0) && Runs(td, out) && td.info.toggle == toggle && td.info.shortOk == !out
    && ReachesExactly(td, data, len)
  }

  /** Descriptor i of a bulk request runs in its direction; the first has the given toggle, and only the last may come
      up short, when reading. */
  ghost predicate BulkStage(td: Td, q: Queue, u: Urb, out: bool, toggle: Toggle, i: nat, cnt: nat)
    reads td
  {
    && IsNext(td, q, u, i) && Runs(td, out) && td.info.toggle == (if i == 0 then toggle else FromEndpoint)
    && td.info.shortOk == (!out && i == cnt - 1)
  }

  ghost predicate ReachesOne(tds: seq<Td>, cnt: nat, x: int)
    requires cnt <= |tds|
    reads set td | td in tds
  {
    exists i :: 0 <= i < cnt && Reaches(tds[i], x)
  }

  /** Every byte of the buffer is reached by exactly one descriptor, and no other byte is. */
  ghost predicate ReachedOnce(tds: seq<Td>, data: nat, len: nat, cnt: nat)
    requires cnt <= |tds|
    reads set td | td in tds
  {
    && (forall x: int :: ReachesOne(tds, cnt, x) <==> data <= x < data + len)
    && (forall x: int, i, j :: 0 <= i < j < cnt && Reaches(tds[i], x) ==> !Reaches(tds[j], x))
  }

  /** The stages of a bulk request. */
  ghost predicate BulkStages(tds: seq<Td>, q: Queue, u: Urb, out: bool, toggle: Toggle, data: nat, len: nat, cnt: nat)
    reads set td | td in tds
  {
    && 0 < cnt <= |tds| && (forall i :: 0 <= i < cnt ==> BulkStage(tds[i], q, u, out, toggle, i, cnt))
    && ReachedOnce(tds, data, len, cnt)
  }

  lemma {:induction false} ControlIsStages(tds: seq<Td>, q: Queue, u: Urb, out: bool, setup: nat, data: nat, len: nat,
                                           cnt: nat)
    requires FilledUpTo(tds, q, u, ControlJobs(out, setup, data, len), cnt)
    requires cnt == |ControlJobs(out, setup, data, len)| && setup > 0 && (len > 0 ==> data > 0)
    ensures ControlStages(tds, q, u, out, setup, data, len, cnt)
  {
    assert FilledAt(tds, q, u, ControlJobs(out, setup, data, len), 0);
    assert FilledAt(tds, q, u, ControlJobs(out, setup, data, len), 1);
    assert FilledAt(tds, q, u, ControlJobs(out, setup, data, len), cnt - 1);
  }

  lemma {:induction false} InterruptIsStage(tds: seq<Td>, q: Queue, u: Urb, out: bool, toggle: Toggle, data: nat,
                                            len: nat)
    requires FilledUpTo(tds, q, u, InterruptJobs(out, toggle, data, len), 1) && (len > 0 ==> data > 0)
    ensures InterruptStage(tds[0], q, u, out, toggle, data, len)
  {
    assert FilledAt(tds, q, u, InterruptJobs(out, toggle, data, len), 0);
  }

  lemma {:induction false} BulkReaches(tds: seq<Td>, q: Queue, u: Urb, out: bool, toggle: Toggle, data: nat, len: nat,
                                       i: nat, x: int)
    requires FilledUpTo(tds, q, u, BulkJobs(out, toggle, data, len), BulkSize(len))
    requires (len > 0 ==> data > 0) && i < BulkSize(len)
    ensures Reaches(tds[i], x) <==> x >= 0 && Covers(BulkJobs(out, toggle, data, len)[i], x)
  {
    assert FilledAt(tds, q, u, BulkJobs(out, toggle, data, len), i);
  }

  lemma {:induction false} BulkIsStages(tds: seq<Td>, q: Queue, u: Urb, out: bool, toggle: Toggle, data: nat, len: nat)
    requires FilledUpTo(tds, q, u, BulkJobs(out, toggle, data, len), BulkSize(len)) && (len > 0 ==> data > 0)
    ensures BulkStages(tds, q, u, out, toggle, data, len, BulkSize(len))
  {
    var jobs, cnt := BulkJobs(out, toggle, data, len), BulkSize(len);
    BulkSizeIs(len);
    forall i | 0 <= i < cnt
      ensures BulkStage(tds[i], q, u, out, toggle, i, cnt)
    {
      assert FilledAt(tds, q, u, jobs, i);
    }
    forall x: int
      ensures ReachesOne(tds, cnt, x) <==> data <= x < data + len
    {
      if data <= x < data + len {
        var i := JobsTile(out, toggle, data, len, x);
        BulkReaches(tds, q, u, out, toggle, data, len, i, x);
      } else if ReachesOne(tds, cnt, x) {
        var i :| 0 <= i < cnt && Reaches(tds[i], x);
        BulkReaches(tds, q, u, out, toggle, data, len, i, x);
      }
    }
    forall x: int, i, j | 0 <= i < j < cnt && Reaches(tds[i], x)
      ensures !Reaches(tds[j], x)
    {
      BulkReaches(tds, q, u, out, toggle, data, len, i, x);
      BulkReaches(tds, q, u, out, toggle, data, len, j, x);
      var k := JobsTile(out, toggle, data, len, x);
    }
  }

  /** A control request fills all the descriptors it was given exactly if its data fit one page. */
  lemma {:induction false} ControlFillsAll(out: bool, setup: nat, data: nat, len: nat)
    ensures |ControlJobs(out, setup, data, len)| == ControlSize(len) <==> len <= PAGE
  {
  }

  /** Once all are filled, the queue has grown by exactly the request's descriptors; the request owns the
      old dummy, and the queue's new dummy is a former spare that the request no longer owns. */
  lemma {:induction false} Rotation(q: Queue, u: Urb, tds: seq<Td>, tail: Td, spare: seq<Td>)
    requires Progress(q, u, tds, tail, spare, |spare|) && spare != []
    ensures u.td[..] == [tail] + spare[..|spare| - 1] && q.tail == spare[|spare| - 1]
    ensures q.tds == tds + u.td[..] && q.tail !in u.td[..]
    ensures multiset(u.td[..]) + multiset{q.tail} == multiset(spare) + multiset{tail}
  {
    var o, n := Order(tail, spare), |spare|;
    assert spare == spare[..n - 1] + [spare[n - 1]];
    assert o[..n] == [tail] + spare[..n - 1];
    assert u.td[..] == o[..n];
    forall i | 0 <= i < n
      ensures u.td[i] != q.tail
    {
      assert u.td[i] == u.td[..][i] == o[i] == (tds + o)[|tds| + i];
      assert Differ(tds + o, |tds| + i, |tds| + n);
    }
  }

  // ---------- what a bulk request's descriptors cover

  /** Every byte of the buffer lies in exactly one descriptor's part. */
  lemma {:induction false} JobsTile(out: bool, toggle: Toggle, data: nat, len: nat, x: nat) returns (i: nat)
    requires data <= x < data + len
    ensures i < BulkSize(len) && Covers(BulkJobs(out, toggle, data, len)[i], x)
    ensures forall k :: 0 <= k < BulkSize(len) && Covers(BulkJobs(out, toggle, data, len)[k], x) ==> k == i
  {
    i := (x - data) / PAGE;
  }

  predicate Covers(j: Job, x: nat) {
    j.data <= x < j.data + j.len
  }

  /** The parts follow each other without a gap, none is larger than a page or empty, and nothing outside the buffer
      is covered. */
  lemma {:induction false} JobsFollow(out: bool, toggle: Toggle, data: nat, len: nat, i: nat)
    requires i < BulkSize(len) && len > 0
    ensures var jobs := BulkJobs(out, toggle, data, len);
            && 0 < jobs[i].len <= PAGE
            && jobs[i].data == (if i == 0 then data else jobs[i - 1].data + jobs[i - 1].len)
            && (i == |jobs| - 1 ==> jobs[i].data + jobs[i].len == data + len)
  {
  }

  // ---------- how much was moved

  /** The buffer pointer the controller leaves when it has moved m bytes of a job. */
  function PointerAfter(j: Job, m: nat): nat {
    if j.data == 0 || j.len == 0 || m == j.len then 0 else j.data + m
  }

  function EndOf(j: Job): nat {
    if j.data == 0 || j.len == 0 then 0 else j.data + j.len - 1
  }

  /** actual_length after a descriptor is looked at. */
  function TransferLength(control: bool, index: nat, length: nat, cbp: nat, be: nat, buffer: nat, actual: int): int {
    if control && (index == 0 || index == length - 1) then actual
    else if be == 0 then actual
    else if cbp == 0 then be - buffer + 1
    else cbp - buffer
  }

  /** actual_length after the first |moved| descriptors of a request are looked at in order. */
  function ActualLength(control: bool, length: nat, jobs: seq<Job>, moved: seq<nat>, buffer: nat): int
    requires |moved| <= |jobs|
  {
    if moved == [] then 0
    else
      var i := |moved| - 1;
      TransferLength(control, i, length, PointerAfter(jobs[i], moved[i]), EndOf(jobs[i]), buffer,
                     ActualLength(control, length, jobs, moved[..i], buffer))
  }

  function Sum(s: seq<nat>): nat {
    if s == [] then 0 else Sum(s[..|s| - 1]) + s[|s| - 1]
  }

  /** A bulk request whose descriptors were worked on in order, the last of them perhaps only in part,
      reports exactly the bytes moved, and never more than its buffer holds. */
  lemma {:induction false} BulkLengthExact(out: bool, toggle: Toggle, data: nat, len: nat, moved: seq<nat>)
    requires data > 0 && 0 < |moved| <= BulkSize(len)
    requires forall i :: 0 <= i < |moved| - 1 ==> moved[i] == BulkJobs(out, toggle, data, len)[i].len
    requires moved[|moved| - 1] <= BulkJobs(out, toggle, data, len)[|moved| - 1].len
    ensures ActualLength(false, BulkSize(len), BulkJobs(out, toggle, data, len), moved, data) == Sum(moved) <= len
  {
    var i := |moved| - 1;
    FullPagesSum(out, toggle, data, len, moved[..i]);
  }

  lemma {:induction false} FullPagesSum(out: bool, toggle: Toggle, data: nat, len: nat, moved: seq<nat>)
    requires |moved| < BulkSize(len)
    requires forall i :: 0 <= i < |moved| ==> moved[i] == BulkJobs(out, toggle, data, len)[i].len
    ensures Sum(moved) == PAGE * |moved|
  {
    if moved != [] {
      FullPagesSum(out, toggle, data, len, moved[..|moved| - 1]);
    }
  }

  /** A control request reports the bytes of its data stage alone. */
  lemma {:induction false} ControlLengthExact(out: bool, setup: nat, data: nat, len: nat, m: nat)
    requires data > 0 && setup > 0 && m <= len
    ensures var jobs := ControlJobs(out, setup, data, len);
            ActualLength(true, ControlSize(len), jobs, if len > 0 then [8, m, 0] else [8, 0], data) == m
  {
    var jobs, length := ControlJobs(out, setup, data, len), ControlSize(len);
    assert ActualLength(true, length, jobs, [], data) == 0;
    assert [8][..0] == [];
    assert ActualLength(true, length, jobs, [8], data) == 0;
    if len > 0 {
      assert [8, m][..1] == [8];
      assert [8, m, 0][..2] == [8, m];
    } else {
      assert [8, 0][..1] == [8];
    }
  }
}

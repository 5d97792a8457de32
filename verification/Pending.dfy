/** The descriptors of all queues and all pending requests, over any number of submissions.

    Every queue is the concatenation of the descriptors of its pending requests in the order of submission, the
    dummies belong to no request, no descriptor belongs to two, and none is lost or made up. */
module Pending {
  import opened Sequences
  import opened TdQueue

  /** A pending request, its descriptors, and how many of them are filled. */
  datatype Part = Part(urb: Urb, tds: seq<Td>, filled: nat)

  ghost predicate PartAt(ps: seq<Part>, k: nat)
    requires k < |ps|
    reads ps[k].urb.td
  {
    ps[k].filled <= |ps[k].tds| && ps[k].urb.td[..] == ps[k].tds
  }

  /** The filled descriptors of a request. */
  ghost function FilledOf(p: Part): seq<Td> {
    if p.filled <= |p.tds| then p.tds[..p.filled] else p.tds
  }

  /** The filled descriptors of the requests, in order. */
  ghost function Queued(ps: seq<Part>): seq<Td> {
    if ps == [] then [] else Queued(ps[..|ps| - 1]) + FilledOf(ps[|ps| - 1])
  }

  /** All their descriptors. */
  ghost function Owned(ps: seq<Part>): seq<Td> {
    if ps == [] then [] else Owned(ps[..|ps| - 1]) + ps[|ps| - 1].tds
  }

  lemma {:induction false} PrefixTimes(s: seq<Td>, n: nat, td: Td)
    requires n <= |s|
    ensures multiset(s[..n])[td] <= multiset(s)[td]
  {
    assert s == s[..n] + s[n..];
  }

  lemma {:induction false} QueuedIsOwned(ps: seq<Part>, td: Td)
    ensures multiset(Queued(ps))[td] <= multiset(Owned(ps))[td]
  {
    if ps != [] {
      var p := ps[|ps| - 1];
      QueuedIsOwned(ps[..|ps| - 1], td);
      PrefixTimes(p.tds, |FilledOf(p)|, td);
      assert FilledOf(p) == p.tds[..|FilledOf(p)|];
    }
  }

  // ---------- the descriptors of all queues

  /** The dummies and the requests' descriptors of the first n queues. */
  ghost function All(tails: seq<Td>, owned: seq<seq<Td>>, n: nat): multiset<Td>
    requires n <= |tails| == |owned|
  {
    if n == 0 then multiset{} else All(tails, owned, n - 1) + multiset{tails[n - 1]} + multiset(owned[n - 1])
  }

  ghost predicate Once(m: multiset<Td>) {
    forall td :: td in m ==> m[td] == 1
  }

  /** How often a descriptor occurs in queue i's share. */
  ghost function Share(tails: seq<Td>, owned: seq<seq<Td>>, i: nat, td: Td): nat
    requires i < |tails| == |owned|
  {
    multiset{tails[i]}[td] + multiset(owned[i])[td]
  }

  /** How often it occurs in the first n. */
  ghost function Shares(tails: seq<Td>, owned: seq<seq<Td>>, n: nat, td: Td): nat
    requires n <= |tails| == |owned|
  {
    if n == 0 then 0 else Shares(tails, owned, n - 1, td) + Share(tails, owned, n - 1, td)
  }

  lemma {:induction false} AllIsShares(tails: seq<Td>, owned: seq<seq<Td>>, n: nat, td: Td)
    requires n <= |tails| == |owned|
    ensures All(tails, owned, n)[td] == Shares(tails, owned, n, td)
  {
    if n > 0 {
      AllIsShares(tails, owned, n - 1, td);
    }
  }

  /** Queue i gets another dummy and other descriptors. */
  lemma {:induction false} SharesUpdated(tails: seq<Td>, owned: seq<seq<Td>>, i: nat, t: Td, o: seq<Td>, n: nat, td: Td)
    requires i < |tails| == |owned| && n <= |tails|
    ensures Shares(tails[i := t], owned[i := o], n, td) + (if i < n then Share(tails, owned, i, td) else 0)
         == Shares(tails, owned, n, td) + (if i < n then Share(tails[i := t], owned[i := o], i, td) else 0)
    ensures i < n ==> Share(tails, owned, i, td) <= Shares(tails, owned, n, td)
  {
    if n > 0 {
      SharesUpdated(tails, owned, i, t, o, n - 1, td);
    }
  }

  lemma {:induction false} AllUpdated(tails: seq<Td>, owned: seq<seq<Td>>, i: nat, t: Td, o: seq<Td>, td: Td)
    requires i < |tails| == |owned|
    ensures All(tails[i := t], owned[i := o], |tails|)[td] + Share(tails, owned, i, td)
         == All(tails, owned, |tails|)[td] + multiset{t}[td] + multiset(o)[td]
    ensures Share(tails, owned, i, td) <= All(tails, owned, |tails|)[td]
  {
    SharesUpdated(tails, owned, i, t, o, |tails|, td);
    AllIsShares(tails, owned, |tails|, td);
    AllIsShares(tails[i := t], owned[i := o], |tails|, td);
  }

  lemma {:induction false} TwiceIn(s: seq<Td>, i: nat, j: nat)
    requires i < j < |s| && s[i] == s[j]
    ensures multiset(s)[s[i]] >= 2
  {
    assert s == (s[..i] + [s[i]]) + (s[i + 1..j] + ([s[j]] + s[j + 1..]));
  }

  lemma {:induction false} OnceIsDistinct(s: seq<Td>, m: multiset<Td>)
    requires Once(m) && multiset(s) <= m
    ensures Distinct(s)
  {
    forall i, j | 0 <= i < j < |s|
      ensures Differ(s, i, j)
    {
      if s[i] == s[j] {
        TwiceIn(s, i, j);
        assert false;
      }
    }
  }

  /** Filling exchanges the dummy for the last spare used: nothing is lost or made up. */
  lemma {:induction false} Exchanged(tail: Td, spare: seq<Td>, cnt: nat, td: Td)
    requires cnt <= |spare|
    ensures multiset(Order(tail, spare)[..cnt] + spare[cnt..])[td] + multiset{Order(tail, spare)[cnt]}[td]
         == multiset(spare)[td] + multiset{tail}[td]
  {
    TimesExchanged(tail, spare, cnt, td);
    assert multiset([tail])[td] == multiset{tail}[td];
  }

  // ---------- the system

  ghost predicate PartsOk(ps: seq<Part>)
    reads set x | x in ps :: x.urb.td
  {
    forall k :: 0 <= k < |ps| ==> PartAt(ps, k)
  }

  /** Queue i with its pending requests. */
  ghost predicate QueueOk(qs: seq<Queue>, ps: seq<seq<Part>>, tails: seq<Td>, owned: seq<seq<Td>>, i: nat)
    requires i < |qs| == |ps| == |tails| == |owned|
    reads {qs[i]}`head, {qs[i]}`tail, {qs[i]}`tds, {qs[i].tail}`hwNextTD, (set t | t in qs[i].tds)`hwNextTD
    reads set x | x in ps[i] :: x.urb.td
  {
    && qs[i].Valid()
    && PartsOk(ps[i])
    && qs[i].tds == Queued(ps[i])
    && tails[i] == qs[i].tail && owned[i] == Owned(ps[i])
  }

  /** Every queue is the concatenation of what its pending requests have filled, and no descriptor is in two
      places: the dummies belong to no request, and no two requests share one. */
  ghost predicate System(qs: seq<Queue>, ps: seq<seq<Part>>, tails: seq<Td>, owned: seq<seq<Td>>)
    reads set q | q in qs
    reads set q | q in qs :: q.tail
    reads set q, t | q in qs && t in q.tds :: t
    reads set p, x | p in ps && x in p :: x.urb.td
  {
    && |qs| == |ps| == |tails| == |owned|
    && (forall i :: 0 <= i < |qs| ==> QueueOk(qs, ps, tails, owned, i))
    && Once(All(tails, owned, |qs|))
  }

  /** What request u brings along is in nobody else's hands. */
  ghost predicate Fresh(qs: seq<Queue>, ps: seq<seq<Part>>, tails: seq<Td>, owned: seq<seq<Td>>, u: Urb)
    requires |qs| == |tails| == |owned|
    reads u.td
  {
    && Once(All(tails, owned, |qs|) + multiset(u.td[..]))
    && forall i :: 0 <= i < |ps| ==> NotAmong(ps[i], u)
  }

  ghost predicate NotAmong(ps: seq<Part>, u: Urb) {
    forall k :: 0 <= k < |ps| ==> NotAt(ps, k, u)
  }

  ghost predicate NotAt(ps: seq<Part>, k: nat, u: Urb)
    requires k < |ps|
  {
    ps[k].urb.td != u.td
  }

  lemma {:induction false} AllHas(tails: seq<Td>, owned: seq<seq<Td>>, i: nat)
    requires i < |tails| == |owned|
    ensures multiset{tails[i]} + multiset(owned[i]) <= All(tails, owned, |tails|)
  {
    forall td: Td
      ensures multiset{tails[i]}[td] + multiset(owned[i])[td] <= All(tails, owned, |tails|)[td]
    {
      AllUpdated(tails, owned, i, tails[i], owned[i], td);
    }
  }

  lemma {:induction false} ReadyToSubmit(qs: seq<Queue>, ps: seq<seq<Part>>, tails: seq<Td>, owned: seq<seq<Td>>,
                                         i: nat, u: Urb)
    requires System(qs, ps, tails, owned) && i < |qs| && Fresh(qs, ps, tails, owned, u)
    ensures Ready(qs[i], u)
  {
    assert QueueOk(qs, ps, tails, owned, i);
    AllHas(tails, owned, i);
    var s := qs[i].tds + Order(qs[i].tail, u.td[..]);
    forall td | td in multiset(qs[i].tds)
      ensures multiset(qs[i].tds)[td] <= multiset(owned[i])[td]
    {
      QueuedIsOwned(ps[i], td);
    }
    assert multiset(s) == multiset(qs[i].tds) + multiset{qs[i].tail} + multiset(u.td[..]);
    OnceIsDistinct(s, All(tails, owned, |qs|) + multiset(u.td[..]));
  }

  ghost predicate NewAt(qs: seq<Queue>, tails: seq<Td>, i: nat)
    requires i < |qs| == |tails|
    reads {qs[i]}`head, {qs[i]}`tail, {qs[i]}`tds, {qs[i].tail}`hwNextTD, (set t | t in qs[i].tds)`hwNextTD
  {
    qs[i].Valid() && qs[i].tds == [] && qs[i].tail == tails[i]
  }

  function Nothing<T>(n: nat): seq<seq<T>> {
    if n == 0 then [] else Nothing(n - 1) + [[]]
  }

  lemma {:induction false} NothingAt<T>(n: nat)
    ensures |Nothing<T>(n)| == n && forall i :: 0 <= i < n ==> Nothing<T>(n)[i] == []
  {
    if n > 0 {
      NothingAt<T>(n - 1);
    }
  }

  lemma {:induction false} DummiesOnce(tails: seq<Td>, owned: seq<seq<Td>>, n: nat, td: Td)
    requires n <= |tails| == |owned| && Distinct(tails) && forall i :: 0 <= i < |owned| ==> owned[i] == []
    ensures Shares(tails, owned, n, td) <= 1
    ensures Shares(tails, owned, n, td) == 1 ==> exists i :: 0 <= i < n && tails[i] == td
  {
    if n > 0 {
      DummiesOnce(tails, owned, n - 1, td);
      forall i | 0 <= i < n - 1
        ensures tails[i] != tails[n - 1]
      {
        assert Differ(tails, i, n - 1);
      }
    }
  }

  /** New queues with dummies of their own are a system without pending requests. */
  lemma {:induction false} NewSystem(qs: seq<Queue>, tails: seq<Td>)
    requires |qs| == |tails| && Distinct(tails) && forall i :: 0 <= i < |qs| ==> NewAt(qs, tails, i)
    ensures System(qs, Nothing(|qs|), tails, Nothing(|qs|))
  {
    NothingAt<Part>(|qs|);
    NothingAt<Td>(|qs|);
    var ps, owned := Nothing<Part>(|qs|), Nothing<Td>(|qs|);
    forall i | 0 <= i < |qs|
      ensures QueueOk(qs, ps, tails, owned, i)
    {
      assert NewAt(qs, tails, i);
    }
    forall td | td in All(tails, owned, |qs|)
      ensures All(tails, owned, |qs|)[td] == 1
    {
      AllIsShares(tails, owned, |qs|, td);
      DummiesOnce(tails, owned, |qs|, td);
    }
  }

  // ---------- submitting

  datatype Transfer =
    | Bulk(out: bool, toggle: Toggle, data: nat, len: nat)
    | Interrupt(out: bool, toggle: Toggle, data: nat, len: nat)
    | Control(out: bool, setup: nat, data: nat, len: nat)

  /** How many descriptors a request reserves, and what those it fills are to do. */
  function Reserved(t: Transfer): int {
    match t
    case Bulk(_, _, _, len) => BulkSize(len)
    case Interrupt(_, _, _, _) => 1
    case Control(_, _, _, len) => ControlSize(len)
  }

  function JobsOf(t: Transfer): seq<Job> {
    match t
    case Bulk(out, toggle, data, len) => BulkJobs(out, toggle, data, len)
    case Interrupt(out, toggle, data, len) => InterruptJobs(out, toggle, data, len)
    case Control(out, setup, data, len) => ControlJobs(out, setup, data, len)
  }

  /** All that are filled were reserved, and all reserved are filled but for a control request of more than a
      page. */
  lemma {:induction false} FilledAndReserved(t: Transfer)
    ensures |JobsOf(t)| <= Reserved(t)
    ensures |JobsOf(t)| == Reserved(t) <==> !(t.Control? && t.len > PAGE)
  {
  }

  /** Fills a request's descriptors and puts them at the end of the queue. */
  method SubmitTo(q: Queue, u: Urb, t: Transfer) returns (cnt: nat)
    requires Ready(q, u) && u.td.Length == Reserved(t)
    modifies q`tail, q`tds, u`count, u.td, q.tail, u.td[..]
    ensures cnt == |JobsOf(t)| && u.count == 0
    ensures Progress(q, u, old(q.tds), old(q.tail), old(u.td[..]), cnt)
    ensures FilledUpTo(old(Order(q.tail, u.td[..])), q, u, JobsOf(t), cnt)
  {
    FilledAndReserved(t);
    match t {
      case Bulk(out, toggle, data, len) => cnt := SubmitBulk(q, u, out, toggle, data, len);
      case Interrupt(out, toggle, data, len) => cnt := SubmitInterrupt(q, u, out, toggle, data, len);
      case Control(out, setup, data, len) => cnt := SubmitControl(q, u, out, setup, data, len);
    }
  }

  lemma {:induction false} SharesOfTwo(tails: seq<Td>, owned: seq<seq<Td>>, i: nat, j: nat, n: nat, td: Td)
    requires i < |tails| == |owned| && j < |tails| && i != j && n <= |tails|
    ensures (if i < n then Share(tails, owned, i, td) else 0) + (if j < n then Share(tails, owned, j, td) else 0)
         <= Shares(tails, owned, n, td)
  {
    if n > 0 {
      SharesOfTwo(tails, owned, i, j, n - 1, td);
    }
  }

  lemma {:induction false} MemberTimes(s: seq<Td>, td: Td)
    ensures td in s <==> multiset(s)[td] > 0
  {
  }

  /** Whatever queue j holds is neither queue i's nor u's. */
  lemma {:induction false} Elsewhere(qs: seq<Queue>, ps: seq<seq<Part>>, tails: seq<Td>, owned: seq<seq<Td>>, i: nat,
                                     j: nat, u: Urb, td: Td)
    requires System(qs, ps, tails, owned) && i < |qs| && j < |qs| && i != j && Fresh(qs, ps, tails, owned, u)
    requires td == qs[j].tail || td in qs[j].tds
    ensures td != qs[i].tail && td !in u.td[..] && td !in qs[i].tds
  {
    assert QueueOk(qs, ps, tails, owned, i) && QueueOk(qs, ps, tails, owned, j);
    SharesOfTwo(tails, owned, i, j, |qs|, td);
    AllIsShares(tails, owned, |qs|, td);
    QueuedIsOwned(ps[j], td);
    QueuedIsOwned(ps[i], td);
    MemberTimes(qs[j].tds, td);
    MemberTimes(qs[i].tds, td);
    MemberTimes(u.td[..], td);
    var all := All(tails, owned, |qs|);
    assert td in all + multiset(u.td[..]);
  }

  /** What a queue holds is none of the given descriptors. */
  ghost predicate Distant(tds: seq<Td>, dummy: Td, tail: Td, spare: seq<Td>) {
    dummy != tail && dummy !in spare && forall k :: 0 <= k < |tds| ==> tds[k] != tail && tds[k] !in spare
  }

  ghost predicate OtherAt(qs: seq<Queue>, i: nat, j: nat, tail: Td, spare: seq<Td>)
    requires i < |qs| && j < |qs|
    reads {qs[j]}`tds, {qs[j]}`tail
  {
    qs[j] != qs[i] && Distant(qs[j].tds, qs[j].tail, tail, spare)
  }

  lemma {:induction false} OtherQueue(qs: seq<Queue>, ps: seq<seq<Part>>, tails: seq<Td>, owned: seq<seq<Td>>, i: nat,
                                      j: nat, u: Urb)
    requires System(qs, ps, tails, owned) && i < |qs| && j < |qs| && i != j && Fresh(qs, ps, tails, owned, u)
    ensures OtherAt(qs, i, j, qs[i].tail, u.td[..])
  {
    forall k | 0 <= k < |qs[j].tds|
      ensures qs[j].tds[k] != qs[i].tail && qs[j].tds[k] !in u.td[..]
    {
      Elsewhere(qs, ps, tails, owned, i, j, u, qs[j].tds[k]);
    }
    Elsewhere(qs, ps, tails, owned, i, j, u, qs[j].tail);
  }

  /** After a submission every descriptor occurs as often as before, and the request's own once more. */
  lemma {:induction false} NothingLost(tails: seq<Td>, owned: seq<seq<Td>>, i: nat, tail: Td, spare: seq<Td>, cnt: nat)
    requires i < |tails| == |owned| && cnt <= |spare| && tail == tails[i]
    ensures var o := Order(tail, spare);
            forall td: Td :: All(tails[i := o[cnt]], owned[i := owned[i] + (o[..cnt] + spare[cnt..])], |tails|)[td]
                          == All(tails, owned, |tails|)[td] + multiset(spare)[td]
  {
    var o := Order(tail, spare);
    var mine := o[..cnt] + spare[cnt..];
    forall td: Td
      ensures All(tails[i := o[cnt]], owned[i := owned[i] + mine], |tails|)[td]
           == All(tails, owned, |tails|)[td] + multiset(spare)[td]
    {
      AllUpdated(tails, owned, i, o[cnt], owned[i] + mine, td);
      TimesSum(owned[i], mine, td);
      Exchanged(tail, spare, cnt, td);
    }
  }

  lemma {:induction false} OnceStays(m: multiset<Td>, n: multiset<Td>, spare: multiset<Td>)
    requires Once(m + spare) && forall td: Td :: n[td] == m[td] + spare[td]
    ensures Once(n)
  {
    forall td: Td | td in n
      ensures n[td] == 1
    {
      assert td in m + spare;
    }
  }

  /** The request's part of the queue after cnt descriptors are filled. */
  lemma {:induction false} QueueGrown(ps: seq<Part>, u: Urb, tail: Td, spare: seq<Td>, cnt: nat)
    requires cnt <= |spare| == u.td.Length && u.td[..] == Order(tail, spare)[..cnt] + spare[cnt..] && PartsOk(ps)
    ensures Queued(ps + [Part(u, u.td[..], cnt)]) == Queued(ps) + Order(tail, spare)[..cnt]
    ensures Owned(ps + [Part(u, u.td[..], cnt)]) == Owned(ps) + u.td[..]
    ensures PartsOk(ps + [Part(u, u.td[..], cnt)])
  {
    var p := Part(u, u.td[..], cnt);
    var more := ps + [p];
    assert more[..|more| - 1] == ps;
    assert FilledOf(p) == u.td[..][..cnt] == Order(tail, spare)[..cnt];
    forall k | 0 <= k < |more|
      ensures PartAt(more, k)
    {
      assert k < |ps| ==> PartAt(ps, k);
    }
  }

  /** The other queues stay as they are. */
  method SubmitBeside(q: Queue, u: Urb, t: Transfer, ghost qs: seq<Queue>, ghost ps: seq<seq<Part>>,
                      ghost tails: seq<Td>, ghost owned: seq<seq<Td>>, ghost i: nat)
    returns (cnt: nat)
    requires System(qs, ps, tails, owned) && i < |qs| && qs[i] == q && Fresh(qs, ps, tails, owned, u)
    requires u.td.Length == Reserved(t)
    modifies q`tail, q`tds, u`count, u.td, q.tail, u.td[..]
    ensures cnt == |JobsOf(t)| && u.count == 0
    ensures FilledUpTo(old(Order(q.tail, u.td[..])), q, u, JobsOf(t), cnt)
    ensures Progress(q, u, old(q.tds), old(q.tail), old(u.td[..]), cnt)
    ensures forall j :: 0 <= j < |qs| && j != i ==> QueueOk(qs, ps, tails, owned, j)
    ensures Queued(ps[i]) == old(q.tds) && Owned(ps[i]) == owned[i] && PartsOk(ps[i])
  {
    ghost var tail, spare := q.tail, u.td[..];
    ReadyToSubmit(qs, ps, tails, owned, i, u);
    assert QueueOk(qs, ps, tails, owned, i) && NotAmong(ps[i], u);
    forall j | 0 <= j < |qs| && j != i
      ensures OtherAt(qs, i, j, tail, spare)
    {
      OtherQueue(qs, ps, tails, owned, i, j, u);
    }
    cnt := SubmitTo(q, u, t);
    forall j | 0 <= j < |qs|
      ensures PartsOk(ps[j])
    {
      assert old(QueueOk(qs, ps, tails, owned, j)) && NotAmong(ps[j], u);
      forall k | 0 <= k < |ps[j]|
        ensures PartAt(ps[j], k)
      {
        assert NotAt(ps[j], k, u) && PartAt(ps[j], k) == old(PartAt(ps[j], k));
      }
    }
    forall j | 0 <= j < |qs| && j != i
      ensures QueueOk(qs, ps, tails, owned, j)
    {
      assert old(QueueOk(qs, ps, tails, owned, j)) && old(OtherAt(qs, i, j, tail, spare));
      assert qs[j].Valid() == old(qs[j].Valid());
    }
    assert old(QueueOk(qs, ps, tails, owned, i));
  }

  /** Any request submitted to any queue keeps the whole system, and the descriptors of all queues together are
      those from before and the request's. */
  method Submit(q: Queue, u: Urb, t: Transfer, ghost qs: seq<Queue>, ghost ps: seq<seq<Part>>, ghost tails: seq<Td>,
                ghost owned: seq<seq<Td>>, ghost i: nat)
    returns (cnt: nat, ghost tails2: seq<Td>, ghost owned2: seq<seq<Td>>)
    requires System(qs, ps, tails, owned) && i < |qs| && qs[i] == q && Fresh(qs, ps, tails, owned, u)
    requires u.td.Length == Reserved(t)
    modifies q`tail, q`tds, u`count, u.td, q.tail, u.td[..]
    ensures cnt == |JobsOf(t)| && u.count == 0
    ensures FilledUpTo(old(Order(q.tail, u.td[..])), q, u, JobsOf(t), cnt)
    ensures System(qs, ps[i := ps[i] + [Part(u, u.td[..], cnt)]], tails2, owned2)
    ensures tails2 == tails[i := q.tail] && owned2 == owned[i := owned[i] + u.td[..]]
    ensures forall td: Td :: All(tails2, owned2, |qs|)[td] == All(tails, owned, |qs|)[td] + multiset(old(u.td[..]))[td]
  {
    ghost var tail, spare := q.tail, u.td[..];
    assert QueueOk(qs, ps, tails, owned, i);
    cnt := SubmitBeside(q, u, t, qs, ps, tails, owned, i);
    tails2, owned2 := tails[i := q.tail], owned[i := owned[i] + u.td[..]];
    SystemAfter(qs, ps, tails, owned, i, u, tail, spare, cnt);
  }

  lemma {:induction false} SystemAfter(qs: seq<Queue>, ps: seq<seq<Part>>, tails: seq<Td>, owned: seq<seq<Td>>, i: nat,
                                       u: Urb, tail: Td, spare: seq<Td>, cnt: nat)
    requires i < |qs| == |ps| == |tails| == |owned| && cnt <= |spare| && tails[i] == tail
    requires Progress(qs[i], u, Queued(ps[i]), tail, spare, cnt) && Owned(ps[i]) == owned[i] && PartsOk(ps[i])
    requires forall j :: 0 <= j < |qs| && j != i ==> QueueOk(qs, ps, tails, owned, j)
    requires Once(All(tails, owned, |qs|) + multiset(spare))
    ensures var ps2, tails2 := ps[i := ps[i] + [Part(u, u.td[..], cnt)]], tails[i := qs[i].tail];
            var owned2 := owned[i := owned[i] + u.td[..]];
            && System(qs, ps2, tails2, owned2)
            && forall td: Td :: All(tails2, owned2, |qs|)[td] == All(tails, owned, |qs|)[td] + multiset(spare)[td]
  {
    var tails2, owned2 := tails[i := qs[i].tail], owned[i := owned[i] + u.td[..]];
    NothingLost(tails, owned, i, tail, spare, cnt);
    OnceStays(All(tails, owned, |qs|), All(tails2, owned2, |qs|), multiset(spare));
    Assembled(qs, ps, tails, owned, i, u, tail, spare, cnt);
  }

  lemma {:induction false} Assembled(qs: seq<Queue>, ps: seq<seq<Part>>, tails: seq<Td>, owned: seq<seq<Td>>, i: nat,
                                     u: Urb, tail: Td, spare: seq<Td>, cnt: nat)
    requires i < |qs| == |ps| == |tails| == |owned| && cnt <= |spare|
    requires Progress(qs[i], u, Queued(ps[i]), tail, spare, cnt) && Owned(ps[i]) == owned[i]
    requires PartsOk(ps[i])
    requires forall j :: 0 <= j < |qs| && j != i ==> QueueOk(qs, ps, tails, owned, j)
    ensures var ps2, tails2 := ps[i := ps[i] + [Part(u, u.td[..], cnt)]], tails[i := qs[i].tail];
            var owned2 := owned[i := owned[i] + u.td[..]];
            forall j :: 0 <= j < |qs| ==> QueueOk(qs, ps2, tails2, owned2, j)
  {
    var ps2, tails2 := ps[i := ps[i] + [Part(u, u.td[..], cnt)]], tails[i := qs[i].tail];
    var owned2 := owned[i := owned[i] + u.td[..]];
    QueueGrown(ps[i], u, tail, spare, cnt);
    forall j | 0 <= j < |qs|
      ensures QueueOk(qs, ps2, tails2, owned2, j)
    {
      assert j != i ==> QueueOk(qs, ps, tails, owned, j);
    }
  }
}

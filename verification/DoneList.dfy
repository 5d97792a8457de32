/** The driver's passes over descriptors the controller is finished with, and over queues from which
    requests are withdrawn. */
module DoneList {
  import opened OhciTypes
  import opened Sequences
  import opened TdQueue
  import Completion

  // ---------- releasing a halted queue

  lemma {:induction false} BehindIsSuffix(tds: seq<Td>, t: Td) returns (k: nat)
    requires t in tds
    ensures k < |tds| && tds[k] == t && Completion.Behind(tds, t) == tds[k + 1..]
  {
    if tds[0] == t {
      k := 0;
    } else {
      var j := BehindIsSuffix(tds[1..], t);
      k := j + 1;
    }
  }

  /** The error of td halted its queue in the middle of its request. */
  ghost predicate CutsShort(td: Td, q: Queue, u: Urb)
    reads td`cc, td`index, q`halted, u`freed
  {
    td.cc != 0 && q.halted && !u.freed && td.index + 1 < u.td.Length
  }

  /** What the last descriptor of a request leads to. */
  ghost function NextOfLast(u: Urb): Td?
    requires u.td.Length > 0
    reads u.td, {u.td[u.td.Length - 1]}`hwNextTD
  {
    u.td[u.td.Length - 1].hwNextTD
  }

  /** A head that is moved to `next` stays in its queue. */
  ghost predicate Lands(tds: seq<Td>, tail: Td, next: Td?) {
    next == tail || next in tds
  }

  /** The part of a queue from descriptor `next` on. */
  ghost function StartingAt(tds: seq<Td>, next: Td?): seq<Td> {
    if tds == [] then [] else if tds[0] == next then tds else StartingAt(tds[1..], next)
  }

  lemma {:induction false} StartIsSuffix(tds: seq<Td>, next: Td?) returns (k: nat)
    ensures k <= |tds| && StartingAt(tds, next) == tds[k..]
    ensures if next in tds then k < |tds| && tds[k] == next else k == |tds|
  {
    if tds == [] {
      k := 0;
    } else if tds[0] == next {
      k := 0;
    } else {
      var j := StartIsSuffix(tds[1..], next);
      k := j + 1;
    }
  }

  /** Moving the head leaves a queue exactly if the head stays in it. */
  lemma {:induction false} HeadMoved(head: Td?, tail: Td, tds: seq<Td>, next: Td?)
    requires Leads(head, tail, tds)
    ensures Leads(next, tail, StartingAt(tds, next)) <==> Lands(tds, tail, next)
  {
    var k := StartIsSuffix(tds, next);
    SuffixChained(tds, tail, k);
    assert forall t :: t in tds[k..] ==> t in tds;
  }

  lemma {:induction false} TailIsOutside(tds: seq<Td>, tail: Td)
    requires Distinct(tds + [tail])
    ensures tail !in tds
  {
    forall i | 0 <= i < |tds|
      ensures tds[i] != tail
    {
      assert Differ(tds + [tail], i, |tds|);
    }
  }

  /** While the last descriptor of the request is queued, the queue is left with what is behind it. */
  lemma {:induction false} BehindLast(head: Td?, tail: Td, tds: seq<Td>, last: Td)
    requires Leads(head, tail, tds) && last in tds
    ensures Lands(tds, tail, last.hwNextTD)
    ensures StartingAt(tds, last.hwNextTD) == Completion.Behind(tds, last)
  {
    var k := BehindIsSuffix(tds, last);
    var j := StartIsSuffix(tds, last.hwNextTD);
    assert LeadsOn(tds, tail, k);
    if k + 1 < |tds| {
      assert tds[j] == tds[k + 1];
      assert j < k + 1 ==> Differ(tds + [tail], j, k + 1);
      assert k + 1 < j ==> Differ(tds + [tail], k + 1, j);
    } else {
      TailIsOutside(tds, tail);
    }
  }

  /** What matters of a descriptor's queue and request before the pass. */
  datatype Before = Before(cut: bool, head: Td?, tds: seq<Td>, halted: bool, count: nat)

  ghost function Look(td: Td, q: Queue, u: Urb): Before
    reads td`cc, td`index, q`halted, q`head, q`tds, u`freed, u`count
  {
    Before(CutsShort(td, q, u), q.head, q.tds, q.halted, u.count)
  }

  /** After a failed descriptor td of u was passed. */
  ghost predicate Outcome(td: Td, q: Queue, u: Urb, was: Before)
    reads td`index, q`head, q`tds, q`halted, u`count, u.td, (set t | t in u.td[..])`hwNextTD
  {
    && !q.halted
    && (was.cut ==> td.index + 1 < u.td.Length)
    && q.head == (if was.cut then NextOfLast(u) else was.head)
    && q.tds == (if was.cut then StartingAt(was.tds, NextOfLast(u)) else was.tds)
    && u.count == was.count + if was.cut then u.td.Length - td.index - 1 else 0
  }

  /** On an error that halted the queue: move the head behind the request and lift the halt.  The result is a queue
      exactly if what the request's last descriptor leads to is still queued, or the dummy. */
  method Release(td: Td, q: Queue, u: Urb)
    requires td.cc != 0
    modifies q`head, q`halted, q`tds, u`count
    ensures Outcome(td, q, u, old(Look(td, q, u)))
    ensures old(q.Valid()) ==> (q.Valid() <==> (old(CutsShort(td, q, u)) ==> Lands(old(q.tds), q.tail, NextOfLast(u))))
  {
    ghost var head, tds := q.head, q.tds;
    if q.halted {
      if !u.freed && td.index + 1 < u.td.Length {
        q.head := u.td[u.td.Length - 1].hwNextTD;
        q.halted := false;
        q.tds := StartingAt(tds, q.head);
        u.count := u.count + (u.td.Length - td.index - 1);
        if old(q.Valid()) {
          HeadMoved(head, q.tail, tds, q.head);
        }
      } else {
        q.halted := false;
      }
    }
  }

  lemma {:induction false} SuffixChained(tds: seq<Td>, tail: Td, k: nat)
    requires Chained(tds, tail) && Distinct(tds + [tail]) && k <= |tds|
    ensures Chained(tds[k..], tail) && Distinct(tds[k..] + [tail])
  {
    forall i | 0 <= i < |tds[k..]|
      ensures LeadsOn(tds[k..], tail, i)
    {
      assert LeadsOn(tds, tail, i + k);
    }
    forall i, j | 0 <= i < j < |tds[k..] + [tail]|
      ensures Differ(tds[k..] + [tail], i, j)
    {
      assert Differ(tds + [tail], i + k, j + k);
    }
  }

  // ---------- reversing the done list

  ghost predicate DoneAt(done: seq<Td>, i: nat)
    requires i < |done|
    reads {done[i]}`hwNextTD
  {
    done[i].hwNextTD == if i + 1 < |done| then done[i + 1] else null
  }

  /** The controller's done list, newest first. */
  ghost predicate DoneChain(done: seq<Td>)
    reads (set td | td in done)`hwNextTD
  {
    forall i :: 0 <= i < |done| ==> DoneAt(done, i)
  }

  ghost predicate FifoAt(list: seq<Td>, i: nat)
    requires i < |list|
    reads {list[i]}`nextDone
  {
    list[i].nextDone == if i + 1 < |list| then list[i + 1] else null
  }

  /** The driver's list, oldest first. */
  ghost predicate FifoChain(list: seq<Td>)
    reads (set td | td in list)`nextDone
  {
    forall i :: 0 <= i < |list| ==> FifoAt(list, i)
  }

  /** Descriptor i's request, queue and count; at most one failed descriptor of each queue and request. */
  ghost predicate Owned(done: seq<Td>, qs: seq<Queue>, us: seq<Urb>, i: nat)
    requires i < |done| == |qs| == |us|
    reads {done[i]}`queue, {done[i]}`urb
  {
    done[i].queue == qs[i] && done[i].urb == us[i]
  }

  ghost predicate Clash(done: seq<Td>, qs: seq<Queue>, us: seq<Urb>, i: nat, j: nat)
    requires i < |done| == |qs| == |us| && j < |done|
    reads {done[i]}`cc, {done[j]}`cc
  {
    done[i].cc != 0 && done[j].cc != 0 && (qs[i] == qs[j] || us[i] == us[j])
  }

  ghost predicate Reversible(done: seq<Td>, qs: seq<Queue>, us: seq<Urb>)
    reads (set td | td in done)`hwNextTD, (set td | td in done)`queue, (set td | td in done)`urb
    reads (set td | td in done)`cc
  {
    && |done| == |qs| == |us|
    && DoneChain(done) && Distinct(done)
    && (forall i :: 0 <= i < |done| ==> Owned(done, qs, us, i))
    && forall i, j :: 0 <= i < j < |done| ==> !Clash(done, qs, us, i, j)
  }

  ghost predicate WaitsAt(done: seq<Td>, qs: seq<Queue>, us: seq<Urb>, was: seq<Before>, i: nat)
    requires i < |done| == |qs| == |us| == |was|
    reads {done[i]}`cc, {done[i]}`index, {qs[i]}`halted, {qs[i]}`head, {qs[i]}`tds, {us[i]}`freed, {us[i]}`count
  {
    done[i].cc != 0 ==> Look(done[i], qs[i], us[i]) == was[i]
  }

  ghost predicate PassedAt(done: seq<Td>, qs: seq<Queue>, us: seq<Urb>, was: seq<Before>, i: nat)
    requires i < |done| == |qs| == |us| == |was|
    reads {done[i]}`cc, {done[i]}`index, {qs[i]}`head, {qs[i]}`halted, {qs[i]}`tds, {us[i]}`count
    reads us[i].td, (set t | t in us[i].td[..])`hwNextTD
  {
    done[i].cc != 0 ==> Outcome(done[i], qs[i], us[i], was[i])
  }

  /** The first k descriptors are passed. */
  ghost predicate Stage(done: seq<Td>, qs: seq<Queue>, us: seq<Urb>, was: seq<Before>, k: nat)
    requires |done| == |qs| == |us| == |was|
    reads (set td | td in done)`cc, (set td | td in done)`index
    reads (set q | q in qs)`halted, (set q | q in qs)`head, (set q | q in qs)`tds
    reads (set u | u in us)`freed, (set u | u in us)`count, set u | u in us :: u.td
    reads (set u, t | u in us && t in u.td[..] :: t)`hwNextTD
  {
    && (forall i :: 0 <= i < k && i < |done| ==> PassedAt(done, qs, us, was, i))
    && (forall i :: k <= i < |done| ==> WaitsAt(done, qs, us, was, i))
  }

  method ReleaseAt(td: Td, ghost done: seq<Td>, ghost qs: seq<Queue>, ghost us: seq<Urb>, ghost was: seq<Before>,
                   ghost k: nat)
    requires Reversible(done, qs, us) && k < |done| == |was| && td == done[k] && td.cc != 0
    requires Stage(done, qs, us, was, k)
    modifies {qs[k]}`head, {qs[k]}`halted, {qs[k]}`tds, {us[k]}`count
    ensures Reversible(done, qs, us) && Stage(done, qs, us, was, k + 1)
  {
    assert Owned(done, qs, us, k) && WaitsAt(done, qs, us, was, k);
    Release(td, td.queue, td.urb);
    forall i | 0 <= i < |done| && done[i].cc != 0 && i != k
      ensures qs[i] != qs[k] && us[i] != us[k]
    {
      assert i < k ==> !Clash(done, qs, us, i, k);
      assert k < i ==> !Clash(done, qs, us, k, i);
    }
    forall i | 0 <= i < k + 1
      ensures PassedAt(done, qs, us, was, i)
    {
      assert i < k ==> old(PassedAt(done, qs, us, was, i));
    }
    forall i | k + 1 <= i < |done|
      ensures WaitsAt(done, qs, us, was, i)
    {
      assert old(WaitsAt(done, qs, us, was, i));
    }
  }

  ghost predicate TurnedAt(done: seq<Td>, i: nat)
    requires i < |done|
    reads {done[i]}`nextDone
  {
    done[i].nextDone == if i == 0 then null else done[i - 1]
  }

  /** The first k descriptors of the done list are turned round. */
  ghost predicate Turned(done: seq<Td>, k: nat)
    reads (set td | td in done)`nextDone
  {
    forall i :: 0 <= i < k && i < |done| ==> TurnedAt(done, i)
  }

  lemma {:induction false} TurnedIsFifo(done: seq<Td>)
    requires Turned(done, |done|)
    ensures FifoChain(Completion.Reversed(done))
  {
    var r := Completion.Reversed(done);
    ReversedAt(done);
    forall i | 0 <= i < |r|
      ensures FifoAt(r, i)
    {
      assert TurnedAt(done, |done| - 1 - i);
    }
  }

  method PushDone(td: Td, list: Td?, ghost done: seq<Td>, ghost k: nat)
    requires Distinct(done) && k < |done| && td == done[k]
    requires Turned(done, k) && list == if k == 0 then null else done[k - 1]
    modifies td`nextDone
    ensures Turned(done, k + 1)
  {
    td.nextDone := list;
    forall i | 0 <= i < k + 1
      ensures TurnedAt(done, i)
    {
      if i < k {
        assert old(TurnedAt(done, i)) && Differ(done, i, k);
      }
    }
  }

  lemma {:induction false} ReversedAt(s: seq<Td>)
    ensures |Completion.Reversed(s)| == |s|
    ensures forall i :: 0 <= i < |s| ==> Completion.Reversed(s)[i] == s[|s| - 1 - i]
  {
    if s != [] {
      ReversedAt(s[1..]);
    }
  }

  /** One iteration of the pass. */
  method PassOne(td: Td, list: Td?, ghost done: seq<Td>, ghost qs: seq<Queue>, ghost us: seq<Urb>,
                 ghost was: seq<Before>, ghost k: nat)
    requires Reversible(done, qs, us) && k < |done| == |was| && td == done[k] && Stage(done, qs, us, was, k)
    requires Turned(done, k) && list == if k == 0 then null else done[k - 1]
    modifies td`nextDone
    modifies (if done[k].cc != 0 then {qs[k]} else {})`head, (if done[k].cc != 0 then {qs[k]} else {})`halted
    modifies (if done[k].cc != 0 then {qs[k]} else {})`tds, (if done[k].cc != 0 then {us[k]} else {})`count
    ensures Reversible(done, qs, us) && Stage(done, qs, us, was, k + 1) && Turned(done, k + 1)
  {
    if td.cc != 0 {
      ReleaseAt(td, done, qs, us, was, k);
    } else {
      PassOver(done, qs, us, was, k);
    }
    PushDone(td, list, done, k);
  }

  /** The pass over the whole list: it is turned round, and each failed descriptor that halted its queue
      lifts the halt, moving the head to what the last descriptor of its request leads to. */
  method ReverseDoneList(head: Td?, ghost done: seq<Td>, ghost qs: seq<Queue>, ghost us: seq<Urb>,
                         ghost was: seq<Before>, ghost failedQs: set<Queue>, ghost failedUs: set<Urb>)
    returns (list: Td?)
    requires Reversible(done, qs, us) && |was| == |done| && Stage(done, qs, us, was, 0)
    requires head == if done == [] then null else done[0]
    requires forall i :: 0 <= i < |done| && done[i].cc != 0 ==> qs[i] in failedQs && us[i] in failedUs
    modifies (set td | td in done)`nextDone, failedQs`head, failedQs`halted, failedQs`tds, failedUs`count
    ensures FifoChain(Completion.Reversed(done))
    ensures list == if done == [] then null else done[|done| - 1]
    ensures Reversible(done, qs, us) && Stage(done, qs, us, was, |done|)
  {
    var td := head;
    list := null;
    ghost var k := 0;
    while td != null
      invariant k <= |done|
      invariant td == if k < |done| then done[k] else null
      invariant list == if k == 0 then null else done[k - 1]
      invariant Turned(done, k)
      invariant Reversible(done, qs, us)
      invariant Stage(done, qs, us, was, k)
      decreases |done| - k
    {
      PassOne(td, list, done, qs, us, was, k);
      assert DoneAt(done, k);
      list := td;
      td := td.hwNextTD;
      k := k + 1;
    }
    TurnedIsFifo(done);
  }

  lemma {:induction false} PassOver(done: seq<Td>, qs: seq<Queue>, us: seq<Urb>, was: seq<Before>, k: nat)
    requires k < |done| == |qs| == |us| == |was| && done[k].cc == 0 && Stage(done, qs, us, was, k)
    ensures Stage(done, qs, us, was, k + 1)
  {
    assert PassedAt(done, qs, us, was, k);
  }

  // ---------- withdrawing requests from a queue

  ghost predicate HasUrb(tds: seq<Td>, us: seq<Urb>, i: nat)
    requires i < |tds| == |us|
    reads {tds[i]}`urb
  {
    tds[i].urb == us[i]
  }

  /** us are the requests of the descriptors. */
  ghost predicate UrbsOf(tds: seq<Td>, us: seq<Urb>)
    reads (set td | td in tds)`urb
  {
    |us| == |tds| && forall i :: 0 <= i < |tds| ==> HasUrb(tds, us, i)
  }

  /** The requests whose descriptors go: the withdrawn ones, or all. */
  ghost function Doomed(us: seq<Urb>, all: bool): set<Urb>
    reads (set u | u in us)`deleted
  {
    set u | u in us && (u.deleted || all)
  }

  /** Of the first n descriptors those of other requests, in order; descriptor i is of request us[i]. */
  ghost function Kept(tds: seq<Td>, us: seq<Urb>, doomed: set<Urb>, n: nat): seq<Td>
    requires n <= |tds| == |us|
  {
    if n == 0 then [] else Kept(tds, us, doomed, n - 1) + if us[n - 1] in doomed then [] else [tds[n - 1]]
  }

  /** The completion calls of requests withdrawn without waiting: one for each descriptor. */
  ghost function Calls(us: seq<Urb>, doomed: set<Urb>, n: nat): seq<Urb>
    requires n <= |us|
  {
    if n == 0 then []
    else Calls(us, doomed, n - 1) + if us[n - 1] in doomed && us[n - 1].asyncUnlink then [us[n - 1]] else []
  }

  /** Request u after the first n descriptors have been dealt with; c is its count before, `freed` says whether its
      private part was gone already. */
  ghost predicate UrbAfter(us: seq<Urb>, u: Urb, doomed: set<Urb>, c: nat, freed: bool, n: nat)
    requires n <= |us|
    reads u`count, u`freed
  {
    && u.count == c + (if u in doomed then Times(us, u, n) else 0)
    && (u.freed <==> freed || c < u.td.Length <= u.count)
  }

  /** Not all of u's descriptors have been counted; c is its count. */
  ghost predicate Unfinished(us: seq<Urb>, u: Urb, c: nat) {
    c + Times(us, u, |us|) <= u.td.Length
  }

  /** Take the i-th descriptor out of the queue; the link that leads to it now leads past it. */
  method RemoveAt(q: Queue, prev: Td?, td: Td, ghost i: nat)
    requires q.Valid() && i < |q.tds| && q.tds[i] == td
    requires prev == if i == 0 then null else q.tds[i - 1]
    modifies q`head, q`tds, (if prev == null then {} else {prev})`hwNextTD
    ensures q.Valid() && q.tds == Without(old(q.tds), i)
    ensures td.hwNextTD == old(td.hwNextTD)
  {
    ghost var tds := q.tds;
    assert LeadsOn(tds, q.tail, i);
    assert i > 0 ==> Differ(tds + [q.tail], i - 1, i) && Differ(tds + [q.tail], i - 1, |tds|);
    if prev == null {
      q.head := td.hwNextTD;
    } else {
      prev.hwNextTD := td.hwNextTD;
    }
    q.tds := Without(tds, i);
    forall k | 0 <= k < |q.tds|
      ensures LeadsOn(q.tds, q.tail, k)
    {
      if i > 0 {
        assert k != i - 1 ==> Differ(tds + [q.tail], if k < i then k else i - 1, if k < i then i - 1 else k + 1);
      }
      assert old(LeadsOn(tds, q.tail, if k < i then k else k + 1));
    }
    forall j, k | 0 <= j < k < |q.tds + [q.tail]|
      ensures Differ(q.tds + [q.tail], j, k)
    {
      assert Differ(tds + [q.tail], if j < i then j else j + 1, if k < i then k else k + 1);
    }
  }

  ghost function TdAt(tds: seq<Td>, tail: Td, k: nat): Td {
    if k < |tds| then tds[k] else tail
  }

  /** The descriptors from the n-th on. */
  ghost function From(tds: seq<Td>, n: nat): (r: seq<Td>)
    requires n <= |tds|
    ensures |r| == |tds| - n
    decreases |tds| - n
  {
    if n == |tds| then [] else [tds[n]] + From(tds, n + 1)
  }

  lemma {:induction false} FromStart(tds: seq<Td>, n: nat)
    requires n <= |tds|
    ensures From(tds, n) == tds[n..]
    decreases |tds| - n
  {
    if n < |tds| {
      FromStart(tds, n + 1);
    }
  }

  /** What is left of the queue when its first n descriptors have been looked at. */
  ghost function Remaining(tds: seq<Td>, us: seq<Urb>, doomed: set<Urb>, n: nat): seq<Td>
    requires n <= |tds| == |us|
  {
    Kept(tds, us, doomed, n) + From(tds, n)
  }

  lemma {:induction false} RemainingStep(tds: seq<Td>, us: seq<Urb>, doomed: set<Urb>, k: nat)
    requires k < |tds| == |us|
    ensures var r, i := Remaining(tds, us, doomed, k), |Kept(tds, us, doomed, k)|;
            && i < |r| && r[i] == tds[k] && |r| - i == |tds| - k
            && (i + 1 < |r| <==> k + 1 < |tds|) && (k + 1 < |tds| ==> r[i + 1] == tds[k + 1])
            && Remaining(tds, us, doomed, k + 1) == if us[k] in doomed then Without(r, i) else r
  {
    var rest := From(tds, k + 1);
    assert From(tds, k) == [tds[k]] + rest;
    assert k + 1 < |tds| ==> rest[0] == tds[k + 1];
  }

  lemma {:induction false} TimesGrows(us: seq<Urb>, u: Urb, n: nat, m: nat)
    requires n <= m <= |us|
    ensures Times(us, u, n) <= Times(us, u, m)
  {
    if n < m {
      TimesGrows(us, u, n, m - 1);
    }
  }

  /** One more descriptor of u is out of the queue; with its last one the private part goes. */
  method CountRemoved(u: Urb, ghost us: seq<Urb>, ghost doomed: set<Urb>, ghost counts: map<Urb, nat>,
                      ghost freed: set<Urb>, ghost k: nat)
    requires k < |us| && us[k] == u && u in doomed && UrbsAfter(us, doomed, counts, freed, k)
    modifies u`count, u`freed
    ensures UrbsAfter(us, doomed, counts, freed, k + 1)
  {
    assert UrbAfterAt(us, doomed, counts, freed, k, k);
    u.count := u.count + 1;
    if u.count == u.td.Length {
      u.freed := true;
    }
    ghost var more := k + 1;
    forall j | 0 <= j < |us|
      ensures UrbAfterAt(us, doomed, counts, freed, more, j)
    {
      assert old(UrbAfterAt(us, doomed, counts, freed, k, j));
    }
  }

  /** The requests after the first n descriptors; counts are those before, and `freed` were freed before. */
  ghost predicate UrbsAfter(us: seq<Urb>, doomed: set<Urb>, counts: map<Urb, nat>, freed: set<Urb>, n: nat)
    requires n <= |us|
    reads (set u | u in us)`count, (set u | u in us)`freed
  {
    forall j :: 0 <= j < |us| ==> UrbAfterAt(us, doomed, counts, freed, n, j)
  }

  ghost predicate UrbAfterAt(us: seq<Urb>, doomed: set<Urb>, counts: map<Urb, nat>, freed: set<Urb>, n: nat, j: nat)
    requires n <= |us| && j < |us|
    reads {us[j]}`count, {us[j]}`freed
  {
    us[j] in counts && UrbAfter(us, us[j], doomed, counts[us[j]], us[j] in freed, n)
  }

  ghost predicate AllUnfinished(us: seq<Urb>, counts: map<Urb, nat>) {
    forall j :: 0 <= j < |us| ==> UnfinishedAt(us, counts, j)
  }

  ghost predicate UnfinishedAt(us: seq<Urb>, counts: map<Urb, nat>, j: nat)
    requires j < |us|
  {
    us[j] in counts && Unfinished(us, us[j], counts[us[j]])
  }

  /** If no count together with the queued descriptors passes the length, the pass never comes to a descriptor of a
      request whose private part it has freed. */
  lemma {:induction false} NotYetFreed(us: seq<Urb>, doomed: set<Urb>, counts: map<Urb, nat>, freed: set<Urb>, k: nat)
    requires k < |us| && UrbsAfter(us, doomed, counts, freed, k) && AllUnfinished(us, counts)
    requires us[k] !in freed
    ensures !us[k].freed
  {
    assert UnfinishedAt(us, counts, k) && UrbAfterAt(us, doomed, counts, freed, k, k);
    TimesGrows(us, us[k], k + 1, |us|);
  }

  lemma {:induction false} UrbsKept(us: seq<Urb>, doomed: set<Urb>, counts: map<Urb, nat>, freed: set<Urb>, k: nat)
    requires k < |us| && us[k] !in doomed && UrbsAfter(us, doomed, counts, freed, k)
    ensures UrbsAfter(us, doomed, counts, freed, k + 1)
  {
    var more := k + 1;
    forall j | 0 <= j < |us|
      ensures UrbAfterAt(us, doomed, counts, freed, more, j)
    {
      assert UrbAfterAt(us, doomed, counts, freed, k, j);
    }
  }

  /** The first k descriptors have been looked at; td is next, and prev, or the head, leads to it. */
  ghost predicate LookingAt(q: Queue, td: Td, prev: Td?, tds: seq<Td>, us: seq<Urb>, doomed: set<Urb>, k: nat)
    reads q`head, q`tail, q`tds, q.tail`hwNextTD, (set t | t in q.tds)`hwNextTD
  {
    && k <= |tds| == |us|
    && td == TdAt(tds, q.tail, k)
    && q.Valid() && q.tds == Remaining(tds, us, doomed, k)
    && prev == (if Kept(tds, us, doomed, k) == [] then null else q.tds[|Kept(tds, us, doomed, k)| - 1])
    && (prev == null || prev in tds)
  }

  method TakeOut(q: Queue, td: Td, prev: Td?, ghost tds: seq<Td>, ghost us: seq<Urb>, ghost doomed: set<Urb>,
                 ghost k: nat)
    returns (next: Td)
    requires LookingAt(q, td, prev, tds, us, doomed, k) && k < |tds| && us[k] in doomed
    modifies q`head, q`tds, (if prev == null then {} else {prev})`hwNextTD
    ensures LookingAt(q, next, prev, tds, us, doomed, k + 1)
  {
    RemainingStep(tds, us, doomed, k);
    ghost var i := |Kept(tds, us, doomed, k)|;
    assert LeadsOn(q.tds, q.tail, i);
    next := td.hwNextTD;
    RemoveAt(q, prev, td, i);
  }

  method StepOver(q: Queue, td: Td, prev: Td?, ghost tds: seq<Td>, ghost us: seq<Urb>, ghost doomed: set<Urb>,
                  ghost k: nat)
    returns (next: Td)
    requires LookingAt(q, td, prev, tds, us, doomed, k) && k < |tds| && us[k] !in doomed
    ensures LookingAt(q, next, td, tds, us, doomed, k + 1)
  {
    RemainingStep(tds, us, doomed, k);
    ghost var i := |Kept(tds, us, doomed, k)|;
    assert LeadsOn(q.tds, q.tail, i);
    next := td.hwNextTD;
  }

  lemma {:induction false} NotTheDummy(q: Queue, i: nat)
    requires q.Valid() && i < |q.tds|
    ensures q.tds[i] != q.tail
  {
    assert Differ(q.tds + [q.tail], i, |q.tds|);
  }

  /** The dummy is reached only when all descriptors have been looked at. */
  lemma {:induction false} DummyIsLast(q: Queue, prev: Td?, tds: seq<Td>, us: seq<Urb>, doomed: set<Urb>, k: nat)
    requires LookingAt(q, q.tail, prev, tds, us, doomed, k)
    ensures k == |tds| && q.tds == Kept(tds, us, doomed, k)
  {
    var i := |Kept(tds, us, doomed, k)|;
    if i < |q.tds| {
      NotTheDummy(q, i);
    }
  }

  ghost predicate DoomedAt(us: seq<Urb>, all: bool, doomed: set<Urb>, k: nat)
    requires k < |us|
    reads {us[k]}`deleted
  {
    us[k] in doomed <==> us[k].deleted || all
  }

  ghost predicate DoomedAre(us: seq<Urb>, all: bool, doomed: set<Urb>)
    reads (set u | u in us)`deleted
  {
    forall k :: 0 <= k < |us| ==> DoomedAt(us, all, doomed, k)
  }

  /** The pass over a queue after k descriptors: td is next, prev the last one kept. */
  ghost predicate Passing(q: Queue, td: Td, prev: Td?, tds: seq<Td>, us: seq<Urb>, doomed: set<Urb>,
                          counts: map<Urb, nat>, freed: set<Urb>, k: nat)
    reads q`head, q`tail, q`tds, q.tail`hwNextTD, (set t | t in q.tds)`hwNextTD
    reads (set u | u in us)`count, (set u | u in us)`freed
  {
    && LookingAt(q, td, prev, tds, us, doomed, k)
    && UrbsAfter(us, doomed, counts, freed, k)
  }

  /** One iteration of the pass over the queue. */
  method LookAtOne(q: Queue, td: Td, prev: Td?, all: bool, ghost tds: seq<Td>, ghost us: seq<Urb>,
                   ghost doomed: set<Urb>, ghost counts: map<Urb, nat>, ghost freed: set<Urb>, ghost k: nat,
                   called: seq<Urb>)
    returns (next: Td, before: Td?, more: seq<Urb>)
    requires Passing(q, td, prev, tds, us, doomed, counts, freed, k) && k < |tds| && td.urb == us[k]
    requires DoomedAt(us, all, doomed, k) && called == Calls(us, doomed, k)
    modifies q`head, q`tds, (if prev == null then {} else {prev})`hwNextTD, {us[k]}`count, {us[k]}`freed
    ensures Passing(q, next, before, tds, us, doomed, counts, freed, k + 1)
    ensures more == Calls(us, doomed, k + 1)
  {
    var u: Urb := td.urb;
    more := called;
    if u.deleted || all {
      next := TakeOut(q, td, prev, tds, us, doomed, k);
      before := prev;
      CountRemoved(u, us, doomed, counts, freed, k);
      if u.asyncUnlink {
        more := called + [u];
      }
    } else {
      UrbsKept(us, doomed, counts, freed, k);
      next := StepOver(q, td, prev, tds, us, doomed, k);
      before := td;
    }
  }

  /** The pass over the queue. */
  method LookAtAll(q: Queue, all: bool, ghost us: seq<Urb>, ghost doomed: set<Urb>, ghost counts: map<Urb, nat>,
                   ghost freed: set<Urb>)
    returns (called: seq<Urb>, ghost prev: Td?, ghost k: nat)
    requires q.Valid() && Passing(q, q.head, null, q.tds, us, doomed, counts, freed, 0) && UrbsOf(q.tds, us)
    requires DoomedAre(us, all, doomed)
    modifies q`head, q`tds, (set t | t in q.tds)`hwNextTD, (set u | u in us)`count, (set u | u in us)`freed
    ensures Passing(q, q.tail, prev, old(q.tds), us, doomed, counts, freed, k)
    ensures called == Calls(us, doomed, k)
  {
    ghost var tds := q.tds;
    var td: Td, before: Td? := q.head, null;
    called, prev, k := [], null, 0;
    while td != q.tail
      invariant Passing(q, td, before, tds, us, doomed, counts, freed, k)
      invariant called == Calls(us, doomed, k)
      decreases |tds| - k
    {
      assert HasUrb(tds, us, k) && old(DoomedAt(us, all, doomed, k));
      td, before, called := LookAtOne(q, td, before, all, tds, us, doomed, counts, freed, k, called);
      k := k + 1;
    }
    prev := before;
  }

  /** Withdraw: the queue keeps exactly the descriptors of other requests, in order; counts grow by what is
      taken out, and a request's private part is freed when its count comes to its length. */
  method DeleteFrom(q: Queue, all: bool, ghost us: seq<Urb>, ghost counts: map<Urb, nat>, ghost freed: set<Urb>)
    returns (called: seq<Urb>)
    requires q.Valid() && UrbsOf(q.tds, us) && UrbsAfter(us, Doomed(us, all), counts, freed, 0)
    modifies q`head, q`tds, (set t | t in q.tds)`hwNextTD, (set u | u in us)`count, (set u | u in us)`freed
    ensures q.Valid() && q.tds == Kept(old(q.tds), us, Doomed(us, all), |us|)
    ensures UrbsAfter(us, Doomed(us, all), counts, freed, |us|)
    ensures called == Calls(us, Doomed(us, all), |us|)
  {
    ghost var tds, doomed, prev, k := q.tds, Doomed(us, all), null, 0;
    FromStart(tds, 0);
    assert tds[0..] == tds;
    called, prev, k := LookAtAll(q, all, us, doomed, counts, freed);
    DummyIsLast(q, prev, tds, us, doomed, k);
  }

  /** What stays belongs to requests that are not withdrawn, so a freed request has nothing left. */
  lemma {:induction false} KeptBelongs(tds: seq<Td>, us: seq<Urb>, doomed: set<Urb>, n: nat, td: Td)
    requires n <= |tds| == |us|
    ensures td in Kept(tds, us, doomed, n) <==> exists i :: 0 <= i < n && tds[i] == td && us[i] !in doomed
  {
    if n > 0 {
      KeptBelongs(tds, us, doomed, n - 1, td);
    }
  }

  lemma {:induction false} TimesPrefix(s: seq<Urb>, v: Urb, u: Urb, n: nat)
    requires n <= |s|
    ensures Times(s + [v], u, n) == Times(s, u, n)
  {
    if n > 0 {
      TimesPrefix(s, v, u, n - 1);
    }
  }

  /** A request withdrawn without waiting is completed once for every descriptor it still had in the queue,
      that is exactly once only if it had exactly one. */
  lemma {:induction false} CallsPerDescriptor(us: seq<Urb>, doomed: set<Urb>, n: nat, u: Urb)
    requires n <= |us|
    ensures var called := Calls(us, doomed, n);
            Times(called, u, |called|) == if u in doomed && u.asyncUnlink then Times(us, u, n) else 0
  {
    if n > 0 {
      CallsPerDescriptor(us, doomed, n - 1, u);
      var before, called, v := Calls(us, doomed, n - 1), Calls(us, doomed, n), us[n - 1];
      if v in doomed && v.asyncUnlink {
        TimesPrefix(before, v, u, |before|);
        assert called == before + [v] && |called| - 1 == |before|;
      } else {
        assert called == before;
      }
    }
  }

  // ---------- counting the done list off

  /** Requests after the first n finished descriptors; the private part of one is freed when its count reaches
      its length. */
  ghost predicate Counted(us: seq<Urb>, counts: map<Urb, nat>, n: nat)
    requires n <= |us|
    reads (set u | u in us)`count, (set u | u in us)`freed
  {
    forall u :: u in us ==> u in counts && CountedUrb(us, u, counts[u], n)
  }

  ghost predicate CountedUrb(us: seq<Urb>, u: Urb, c: nat, n: nat)
    requires n <= |us|
    reads u`count, u`freed
  {
    u.count == c + Times(us, u, n) && (u.freed <==> c < u.td.Length <= u.count)
  }

  /** The endpoint's removal is requested or done. */
  predicate Gone(state: EdState) {
    state.del || state == ED_NEW
  }

  /** The requests whose count reaches their length among the first n, in order.  Withdrawn ones and those of
      endpoints that are gone are not completed. */
  ghost function Reached(us: seq<Urb>, counts: map<Urb, nat>, withdrawn: set<Urb>, states: seq<EdState>,
                         n: nat): seq<Urb>
    requires n <= |us| == |states| && forall u :: u in us ==> u in counts
  {
    if n == 0 then []
    else
      var u := us[n - 1];
      Reached(us, counts, withdrawn, states, n - 1) +
      if counts[u] + Times(us, u, n) == u.td.Length && u !in withdrawn && !Gone(states[n - 1]) then [u] else []
  }

  /** One iteration of the counting pass: td_cnt grows, and at the length the request completes or is freed. */
  method CountOne(u: Urb, state: EdState, ghost us: seq<Urb>, ghost counts: map<Urb, nat>, ghost withdrawn: set<Urb>,
                  ghost states: seq<EdState>, ghost k: nat)
    returns (done: seq<Urb>)
    requires k < |us| == |states| && us[k] == u && Counted(us, counts, k) && (u in withdrawn <==> u.deleted)
    requires Gone(state) <==> Gone(states[k])
    modifies u`count, u`freed
    ensures Counted(us, counts, k + 1)
    ensures Reached(us, counts, withdrawn, states, k) + done == Reached(us, counts, withdrawn, states, k + 1)
  {
    assert CountedUrb(us, u, counts[u], k);
    u.count := u.count + 1;
    done := [];
    if u.count == u.td.Length {
      if !u.deleted && !state.del && state != ED_NEW {
        done := [u];
      }
      u.freed := true;
    }
    ghost var more := k + 1;
    forall v | v in us
      ensures CountedUrb(us, v, counts[v], more)
    {
      assert old(CountedUrb(us, v, counts[v], k));
    }
  }

  /** A request of an endpoint that is gone is never completed here, whatever is counted. */
  lemma {:induction false} GoneCompletesNothing(us: seq<Urb>, counts: map<Urb, nat>, withdrawn: set<Urb>,
                                                states: seq<EdState>, n: nat, u: Urb)
    requires n <= |us| == |states| && forall u :: u in us ==> u in counts
    requires forall i :: 0 <= i < n && us[i] == u ==> Gone(states[i])
    ensures u !in Reached(us, counts, withdrawn, states, n)
  {
    if n > 0 {
      GoneCompletesNothing(us, counts, withdrawn, states, n - 1, u);
    }
  }

  /** At number i the request's count comes to its length, the request is not withdrawn, and its endpoint is neither new
      nor to be deleted. */
  ghost predicate CompletesAt(us: seq<Urb>, counts: map<Urb, nat>, withdrawn: set<Urb>, states: seq<EdState>, i: nat)
    requires i < |us| == |states| && us[i] in counts
  {
    && counts[us[i]] + Times(us, us[i], i + 1) == us[i].td.Length
    && us[i] !in withdrawn && !states[i].del && states[i] != ED_NEW
  }

  /** What completes is what completes at some number, in the order of those numbers. */
  lemma {:induction false} CompletedAt(us: seq<Urb>, counts: map<Urb, nat>, withdrawn: set<Urb>, states: seq<EdState>,
                                       n: nat)
    returns (at: seq<nat>)
    requires n <= |us| == |states| && forall u :: u in us ==> u in counts
    ensures var done := Reached(us, counts, withdrawn, states, n);
            && |at| == |done| && (forall i, j :: 0 <= i < j < |at| ==> at[i] < at[j])
            && (forall j :: 0 <= j < |at| ==> at[j] < n && done[j] == us[at[j]])
            && (forall i :: 0 <= i < n ==> (i in at <==> CompletesAt(us, counts, withdrawn, states, i)))
  {
    at := [];
    if n > 0 {
      at := CompletedAt(us, counts, withdrawn, states, n - 1);
      if CompletesAt(us, counts, withdrawn, states, n - 1) {
        at := at + [n - 1];
      }
    }
  }

  /** No request completes twice. */
  lemma {:induction false} CompletedOnce(us: seq<Urb>, counts: map<Urb, nat>, withdrawn: set<Urb>, states: seq<EdState>,
                                         n: nat)
    requires n <= |us| == |states| && forall u :: u in us ==> u in counts
    ensures Distinct(Reached(us, counts, withdrawn, states, n))
  {
    var done := Reached(us, counts, withdrawn, states, n);
    var at := CompletedAt(us, counts, withdrawn, states, n);
    forall i, j | 0 <= i < j < |done|
      ensures Differ(done, i, j)
    {
      assert at[i] in at && at[j] in at;
      if done[i] == done[j] {
        TimesGrows(us, done[i], at[i] + 1, at[j]);
      }
    }
  }
}

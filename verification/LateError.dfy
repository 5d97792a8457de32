/** A request that has failed is withdrawn, and the withdrawal is dealt with before the driver has seen the error.

    Then the descriptors that were still queued are counted twice: when they are taken out of the queue, and again
    when the error is noticed. */
module LateError {
  import opened OhciTypes
  import opened Sequences
  import opened TdQueue
  import opened DoneList
  import Completion
  import EndpointQueues

  /** How many descriptors of the request are behind the failed one. */
  function Rest(td: Td, u: Urb): nat
    requires td.index < u.td.Length
    reads td`index
  {
    u.td.Length - td.index - 1
  }

  /** Descriptor td of request u has failed and halted its queue, which begins with the rest of the request; the
      descriptors before it are counted off. */
  ghost predicate Failed(td: Td, q: Queue, u: Urb, us: seq<Urb>)
    reads td`cc, td`index, td`urb, q, q.tail`hwNextTD, u, u.td
    reads (set t | t in q.tds)`hwNextTD, (set t | t in q.tds)`urb
  {
    && q.Valid() && UrbsOf(q.tds, us) && CutsShort(td, q, u) && u.count == td.index
    && Rest(td, u) <= |us| && q.tds[Rest(td, u) - 1] == u.td[u.td.Length - 1]
    && forall i :: 0 <= i < |us| ==> (us[i] == u <==> i < Rest(td, u))
  }

  lemma {:induction false} TimesOfFirst(us: seq<Urb>, u: Urb, m: nat, n: nat)
    requires n <= |us| && forall i :: 0 <= i < n ==> (us[i] == u <==> i < m)
    ensures Times(us, u, n) == if n <= m then n else m
  {
    if n > 0 {
      TimesOfFirst(us, u, m, n - 1);
    }
  }

  /** The counting pass comes to the failed descriptor. */
  method CountFailed(u: Urb, state: EdState) returns (done: seq<Urb>)
    requires !u.freed
    modifies u`count, u`freed
    ensures u.count == old(u.count) + 1 && (u.freed <==> old(u.count) + 1 == u.td.Length)
    ensures done == if old(u.count) + 1 == u.td.Length && !u.deleted && !Gone(state) then [u] else []
  {
    ghost var us, counts, withdrawn := [u], map[u := u.count], if u.deleted then {u} else {};
    done := CountOne(u, state, us, counts, withdrawn, [state], 0);
    assert CountedUrb(us, u, counts[u], 1) && Times(us, u, 1) == Times(us, u, 0) + 1;
    assert Reached(us, counts, withdrawn, [state], 0) + done == done;
    assert us[0] == u && [state][0] == state;
  }

  /** The withdrawals are dealt with first, then the error is noticed and the descriptor counted.  The count comes to
      the length, and the request is completed or freed, if and only if the request is not among those taken out;
      otherwise what was taken out is counted once more, and the request is neither completed nor freed. */
  method WithdrawnFirst(td: Td, q: Queue, u: Urb, all: bool, state: EdState, ghost us: seq<Urb>)
    returns (done: seq<Urb>)
    requires Failed(td, q, u, us)
    modifies q`head, q`tds, q`halted, (set t | t in q.tds)`hwNextTD, (set v | v in us)`count, (set v | v in us)`freed
    ensures u.freed <==> !(u.deleted || all)
    ensures u.count == u.td.Length + if u.deleted || all then Rest(td, u) else 0
    ensures done == if u.deleted || all || Gone(state) then [] else [u]
  {
    ghost var rest := Rest(td, u);
    ghost var doomed := Doomed(us, all);
    assert us[0] == u && u in us;
    TimesOfFirst(us, u, rest, |us|);
    ghost var counts, freed := map v | v in us :: v.count, set v | v in us && v.freed;
    var called := DeleteFrom(q, all, us, counts, freed);
    assert UrbAfterAt(us, doomed, counts, freed, |us|, 0);
    Release(td, q, u);
    done := CountFailed(u, state);
  }

  lemma {:induction false} BehindRest(td: Td, q: Queue, u: Urb, us: seq<Urb>)
    requires Failed(td, q, u, us)
    ensures Completion.Behind(q.tds, u.td[u.td.Length - 1]) == q.tds[Rest(td, u)..]
  {
    var tds, m := q.tds, Rest(td, u);
    var k := BehindIsSuffix(tds, tds[m - 1]);
    if k != m - 1 {
      DistinctAt(tds + [q.tail], k, m - 1);
      assert false;
    }
  }

  /** Lifting the halt leaves the requests behind. */
  method ReleaseFailed(td: Td, q: Queue, u: Urb, ghost us: seq<Urb>, ghost them: seq<Urb>)
    requires Failed(td, q, u, us) && them == us[Rest(td, u)..]
    modifies q`head, q`tds, q`halted, u`count
    ensures q.Valid() && UrbsOf(q.tds, them) && !u.freed && u.count + 1 == u.td.Length
    ensures forall t :: t in q.tds ==> t in old(q.tds)
  {
    ghost var m, tds, head := Rest(td, u), q.tds, q.head;
    BehindRest(td, q, u, us);
    BehindLast(head, q.tail, tds, tds[m - 1]);
    Release(td, q, u);
    forall i | 0 <= i < |them|
      ensures HasUrb(q.tds, them, i)
    {
      assert HasUrb(tds, us, i + m);
    }
  }

  /** The error is noticed first.  Then the count comes to the length whatever is withdrawn. */
  method NoticedFirst(td: Td, q: Queue, u: Urb, all: bool, state: EdState, ghost us: seq<Urb>)
    returns (done: seq<Urb>)
    requires Failed(td, q, u, us)
    modifies q`head, q`tds, q`halted, (set t | t in q.tds)`hwNextTD, (set v | v in us)`count, (set v | v in us)`freed
    ensures u.freed && u.count == u.td.Length
    ensures done == if u.deleted || Gone(state) then [] else [u]
  {
    assert us[0] == u && u in us;
    ghost var them := us[Rest(td, u)..];
    forall v | v in them
      ensures v in us && v != u
    {
      var i :| 0 <= i < |them| && them[i] == v;
      assert us[i + Rest(td, u)] == v;
    }
    ReleaseFailed(td, q, u, us, them);
    var called := DeleteFrom(q, all, them, map v | v in them :: v.count, set v | v in them && v.freed);
    done := CountFailed(u, state);
  }

  method NewRequest() returns (q: Queue, u: Urb, dummy: Td, a: Td, b: Td)
    ensures fresh(q) && fresh(u) && fresh(u.td) && fresh(dummy) && fresh(a) && fresh(b)
    ensures Ready(q, u) && q.tds == [] && q.tail == dummy && u.td[..] == [a, b] && !u.freed && !q.halted
  {
    var ed := new Ed(BULK);
    dummy := new Td();
    a := new Td();
    b := new Td();
    q := new Queue(ed, dummy);
    var td := new Td[2][a, b];
    u := new Urb(td, false);
    assert u.td[..] == [a, b];
    assert q.tds + Order(q.tail, u.td[..]) == [dummy, a, b];
  }

  /** The queue and the request after the request is submitted. */
  lemma {:induction false} BothQueued(q: Queue, u: Urb, dummy: Td, a: Td, b: Td, jobs: seq<Job>)
    requires Progress(q, u, [], dummy, [a, b], 2) && FilledUpTo([dummy, a, b], q, u, jobs, 2)
    ensures EndpointQueues.Content(q) && q.tds == [dummy, a] == u.td[..] && q.tail == b
    ensures dummy.index == 0 && dummy.urb == u && a.urb == u
  {
    assert Order(dummy, [a, b]) == [dummy, a, b] && [dummy, a, b][..2] == [dummy, a];
    EndpointQueues.OwnedAfter(q, u, [], [dummy, a, b], jobs, 2);
    assert [] + [dummy, a] == [dummy, a] && [a, b][2..] == [];
    assert FilledAt([dummy, a, b], q, u, jobs, 0) && FilledAt([dummy, a, b], q, u, jobs, 1);
  }

  /** A request of two pages has been submitted to a new endpoint. */
  method TwoPages() returns (q: Queue, u: Urb, first: Td, second: Td)
    ensures fresh(q) && fresh(u) && fresh(u.td) && !u.freed && u.count == 0 && fresh(first) && fresh(second)
    ensures EndpointQueues.Content(q) && q.tds == u.td[..] == [first, second] && fresh(q.tail)
    ensures first.index == 0 && first.urb == u && second.urb == u && !q.halted
  {
    var b;
    q, u, first, second, b := NewRequest();
    assert Order(first, [second, b]) == [first, second, b];
    var cnt := SubmitBulk(q, u, true, Data0, PAGE, 2 * PAGE);
    BothQueued(q, u, first, second, b, BulkJobs(true, Data0, PAGE, 2 * PAGE));
  }

  /** A request of two pages fails on the first and is withdrawn at once. */
  method Lost() returns (u: Urb)
    ensures fresh(u) && u.deleted && !u.freed && u.count == u.td.Length + 1
  {
    var q, first, second;
    q, u, first, second := TwoPages();
    var td := EndpointQueues.Leave(q);
    td.cc, q.halted := 8, true;
    u.deleted := true;
    assert HasUrb(q.tds, [u], 0);
    var done := WithdrawnFirst(td, q, u, false, ED_OPER, [u]);
  }
}

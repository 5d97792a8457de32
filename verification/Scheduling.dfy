/** Endpoints with their queues: whatever is queued is polled.

    In every state reached from new endpoints by submissions, the controller's retirements, releases of halted
    queues, counting off, withdrawals, freeing, frames and start-of-frame interrupts, an endpoint that has
    descriptors and is not to be deleted is in the chain the controller walks. */
module Scheduling {
  import opened OhciTypes
  import opened Sequences
  import opened TdQueue
  import opened DoneList
  import opened EndpointQueues
  import opened Removal
  import Endpoints
  import Requests = Pending

  ghost predicate ServedAt(qs: Queues, ed: Ed)
    requires ed in qs.of
    reads ed`state, {qs.of[ed]}`tds
  {
    qs.of[ed].tds != [] && !ed.state.del ==> ed.state.base == Operational
  }

  /** Every endpoint has a queue of its own. */
  ghost predicate Paired(qs: Queues, eds: set<Ed>) {
    qs.of.Keys == eds && Keyed(qs)
  }

  ghost predicate Keyed(qs: Queues) {
    forall ed :: ed in qs.of ==> qs.of[ed].ed == ed
  }

  ghost predicate AllServed(qs: Queues)
    reads qs.of.Keys`state, qs.of.Values`tds
  {
    forall ed :: ed in qs.of ==> ServedAt(qs, ed)
  }

  /** These endpoints, with these queues, are served. */
  ghost predicate Served(qs: Queues, eds: set<Ed>, rest: set<Queue>)
    reads eds`state, rest`tds
  {
    forall e :: e in eds ==> e in qs.of && qs.of[e] in rest && ServedAt(qs, e)
  }

  /** Every endpoint with descriptors is operational unless it is to be deleted. */
  ghost predicate Serving(d: Endpoints.Driver, qs: Queues)
    reads qs.of.Keys`state, qs.of.Values`tds
  {
    Paired(qs, d.remover.eds) && AllServed(qs)
  }

  /** Chains and queues are in order, and every endpoint with descriptors is served. */
  ghost predicate Fit(d: Endpoints.Driver, qs: Queues)
    reads d`strays, d.remover, d.remover.evenList, d.remover.oddList, d.remover.eds`state
    reads (set ed | ed in d.remover.evenList.eds)`edRmList, (set ed | ed in d.remover.oddList.eds)`edRmList
    reads d.control, d.control.linkedAt.Keys`hwNextED
    reads (set e | e in d.control.eds)`hwNextED, (set e | e in d.control.eds)`edPrev
    reads d.bulk, d.bulk.linkedAt.Keys`hwNextED
    reads (set e | e in d.bulk.eds)`hwNextED, (set e | e in d.bulk.eds)`edPrev
    reads qs, qs.of.Values`head, qs.of.Values`tail, qs.of.Values`tds, (set r | r in qs.of.Values :: r.tail)`hwNextTD
    reads (set r, td | r in qs.of.Values && td in r.tds :: td)`hwNextTD
    reads (set r, td | r in qs.of.Values && td in r.tds :: td)`queue
    reads (set r, td | r in qs.of.Values && td in r.tds :: td)`urb
    reads (set td | td in qs.done)`hwNextTD, (set td | td in qs.done)`queue, (set td | td in qs.done)`urb
    reads qs.of.Keys`state
  {
    d.Sound() && qs.Valid() && Serving(d, qs)
  }

  /** An endpoint with descriptors that is not to be deleted is in its chain, to which the head register leads. */
  lemma {:induction false} Scheduled(d: Endpoints.Driver, qs: Queues, ed: Ed)
    requires Fit(d, qs) && ed in qs.of && qs.of[ed].tds != [] && !ed.state.del
    ensures d.InChain(ed) && Path(d.ChainOf(ed.kind).head, d.ChainOf(ed.kind).eds)
  {
    var chain := d.ChainOf(ed.kind);
    assert ServedAt(qs, ed) && d.LinkedAt(ed);
    chain.RestOfList(0);
    assert chain.eds[0..] == chain.eds;
  }

  lemma {:induction false} ServingIff(d: Endpoints.Driver, qs: Queues, ed: Ed)
    requires Paired(qs, d.remover.eds) && ed in qs.of
    ensures Serving(d, qs) <==> Served(qs, qs.of.Keys - {ed}, qs.of.Values - {qs.of[ed]}) && ServedAt(qs, ed)
  {
  }

  // ---------- submitting

  /** A dummy for a new endpoint: neither in a queue, nor on the done list, nor one of the request's. */
  ghost predicate FreshDummy(qs: Queues, u: Urb, dummy: Td)
    reads qs, qs.of.Values`tds, qs.of.Values`tail, u.td
  {
    && (forall r :: r in qs.of.Values ==> Foreign(r, dummy))
    && NoneIs(qs.done, dummy) && NoneIs(u.td[..], dummy)
  }

  method GiveDummy(qs: Queues, q: Queue, u: Urb, dummy: Td)
    requires qs.Valid() && qs.Has(q) && q.tds == [] && Spare(qs, u) && FreshDummy(qs, u, dummy)
    modifies qs`home, q`head, q`tail, q`halted, q`toggle, dummy`hwNextTD
    ensures qs.Valid() && Spare(qs, u) && q.tail == dummy
  {
    Renew(qs, q, dummy);
    forall r | r in qs.of.Values
      ensures AllForeign(r, u.td[..])
    {
      assert old(AllForeign(r, u.td[..]));
      forall i | 0 <= i < |u.td[..]|
        ensures Foreign(r, u.td[..][i])
      {
        assert old(Foreign(r, u.td[..][i]));
      }
    }
  }

  /** Descriptors that a submission may write to: the request's, the dummy and its successor. */
  ghost predicate Within(q: Queue, u: Urb, dummy: Td, mine: set<Td>)
    reads q`tail, u.td
  {
    q.tail in mine && dummy in mine && forall i :: 0 <= i < u.td.Length ==> u.td[i] in mine
  }

  /** The queue can take the request in, writing to these descriptors; a new one gets this dummy. */
  ghost predicate Acceptable(qs: Queues, q: Queue, u: Urb, t: Requests.Transfer, isNew: bool, dummy: Td, mine: set<Td>)
    reads qs, qs.of.Values`head, qs.of.Values`tail, qs.of.Values`tds, (set r | r in qs.of.Values :: r.tail)`hwNextTD
    reads (set r, td | r in qs.of.Values && td in r.tds :: td)`hwNextTD
    reads (set r, td | r in qs.of.Values && td in r.tds :: td)`queue
    reads (set r, td | r in qs.of.Values && td in r.tds :: td)`urb
    reads (set td | td in qs.done)`hwNextTD, (set td | td in qs.done)`queue, (set td | td in qs.done)`urb
    reads u.td, q`tds, q`tail
  {
    && qs.Valid() && qs.Has(q) && Spare(qs, u) && u.td.Length == Requests.Reserved(t) && Within(q, u, dummy, mine)
    && (isNew ==> q.tds == [] && FreshDummy(qs, u, dummy))
  }

  /** The queue part of submitting a request. */
  method Enqueue(qs: Queues, q: Queue, u: Urb, t: Requests.Transfer, isNew: bool, dummy: Td, ghost mine: set<Td>)
    requires Acceptable(qs, q, u, t, isNew, dummy, mine)
    modifies qs`home, q, u, u.td, mine
    ensures qs.Valid() && |q.tds| > |old(q.tds)|
  {
    if isNew {
      GiveDummy(qs, q, u, dummy);
    }
    var cnt := Accept(qs, q, u, t);
  }

  /** The invariant of the chains holds, and these endpoints are served. */
  ghost predicate Well(d: Endpoints.Driver, qs: Queues, eds: set<Ed>, rest: set<Queue>)
    reads d`strays, d.remover, d.remover.evenList, d.remover.oddList, d.remover.eds`state
    reads (set ed | ed in d.remover.evenList.eds)`edRmList, (set ed | ed in d.remover.oddList.eds)`edRmList
    reads d.control, d.control.linkedAt.Keys`hwNextED
    reads (set e | e in d.control.eds)`hwNextED, (set e | e in d.control.eds)`edPrev
    reads d.bulk, d.bulk.linkedAt.Keys`hwNextED
    reads (set e | e in d.bulk.eds)`hwNextED, (set e | e in d.bulk.eds)`edPrev
    reads eds`state, rest`tds
  {
    d.Sound() && Served(qs, eds, rest)
  }

  /** The other endpoints do not notice. */
  method EnqueueAmong(qs: Queues, q: Queue, u: Urb, t: Requests.Transfer, isNew: bool, dummy: Td, ghost mine: set<Td>,
                      ghost eds: set<Ed>, ghost rest: set<Queue>)
    requires Acceptable(qs, q, u, t, isNew, dummy, mine) && q !in rest
    modifies qs`home, q, u, u.td, mine
    ensures qs.Valid() && |q.tds| > |old(q.tds)|
    ensures Served(qs, eds, rest) == old(Served(qs, eds, rest))
  {
    Enqueue(qs, q, u, t, isNew, dummy, mine);
  }

  /** Nor do the chains. */
  method EnqueueBeside(d: Endpoints.Driver, qs: Queues, q: Queue, u: Urb, t: Requests.Transfer, isNew: bool, dummy: Td,
                       ghost mine: set<Td>, ghost eds: set<Ed>, ghost rest: set<Queue>)
    requires Well(d, qs, eds, rest)
    requires Acceptable(qs, q, u, t, isNew, dummy, mine) && q !in rest
    modifies qs`home, q, u, u.td, mine
    ensures qs.Valid() && |q.tds| > |old(q.tds)|
    ensures Well(d, qs, eds, rest) == old(Well(d, qs, eds, rest))
  {
    EnqueueAmong(qs, q, u, t, isNew, dummy, mine, eds, rest);
    assert d.Sound() == old(d.Sound());
  }

  /** Linking the endpoint leaves the other endpoints alone. */
  method LinkAmong(d: Endpoints.Driver, qs: Queues, ed: Ed, ghost eds: set<Ed>, ghost rest: set<Queue>)
    returns (ok: bool)
    requires Well(d, qs, eds, rest) && ed in d.remover.eds && ed !in d.strays && ed !in eds
    modifies d.ChainOf(ed.kind), ed`state, ed`hwNextED, ed`edPrev, (set e | e in d.ChainOf(ed.kind).eds)`hwNextED
    ensures Well(d, qs, eds, rest) == old(Well(d, qs, eds, rest)) && (ok <==> !old(Pending(ed.state)))
    ensures ed.state == if ok then ED_OPER else old(ed.state)
  {
    ok := Endpoints.Submit(d, ed);
    assert Served(qs, eds, rest) == old(Served(qs, eds, rest));
  }

  /** And all queues. */
  method LinkBeside(d: Endpoints.Driver, qs: Queues, ed: Ed, q: Queue, u: Urb, t: Requests.Transfer, isNew: bool,
                    dummy: Td, ghost mine: set<Td>, ghost eds: set<Ed>, ghost rest: set<Queue>)
    returns (ok: bool)
    requires Well(d, qs, eds, rest) && ed in d.remover.eds && ed !in d.strays && ed !in eds
    modifies d.ChainOf(ed.kind), ed`state, ed`hwNextED, ed`edPrev, (set e | e in d.ChainOf(ed.kind).eds)`hwNextED
    ensures Well(d, qs, eds, rest) == old(Well(d, qs, eds, rest)) && (ok <==> !old(Pending(ed.state)))
    ensures ed.state == if ok then ED_OPER else old(ed.state)
    ensures Acceptable(qs, q, u, t, isNew, dummy, mine) == old(Acceptable(qs, q, u, t, isNew, dummy, mine))
  {
    ok := LinkAmong(d, qs, ed, eds, rest);
  }

  method SubmitBeside(d: Endpoints.Driver, qs: Queues, ed: Ed, q: Queue, u: Urb, t: Requests.Transfer, isNew: bool,
                      dummy: Td, ghost mine: set<Td>, ghost eds: set<Ed>, ghost rest: set<Queue>)
    returns (ok: bool)
    requires Well(d, qs, eds, rest) && ed in d.remover.eds && ed !in d.strays && ed !in eds && q !in rest
    requires Acceptable(qs, q, u, t, isNew, dummy, mine)
    modifies d.ChainOf(ed.kind), ed`state, ed`hwNextED, ed`edPrev, (set e | e in d.ChainOf(ed.kind).eds)`hwNextED
    modifies qs`home, q, u, u.td, mine
    ensures Well(d, qs, eds, rest) == old(Well(d, qs, eds, rest)) && qs.Valid() == old(qs.Valid())
    ensures ok <==> !old(Pending(ed.state))
    ensures ok ==> ed.state == ED_OPER && |q.tds| > |old(q.tds)|
    ensures !ok ==> ed.state == old(ed.state) && q.tds == old(q.tds)
  {
    ok := LinkBeside(d, qs, ed, q, u, t, isNew, dummy, mine, eds, rest);
    assert q.tds == old(q.tds);
    if ok {
      EnqueueBeside(d, qs, q, u, t, isNew, dummy, mine, eds, rest);
    }
  }

  /** A request is submitted: refused while a removal of its endpoint is pending; else the endpoint is operational,
      and so in its chain, and its queue has grown. */
  method Submit(d: Endpoints.Driver, qs: Queues, ed: Ed, q: Queue, u: Urb, t: Requests.Transfer, dummy: Td,
                ghost mine: set<Td>)
    returns (ok: bool)
    requires Fit(d, qs) && ed in qs.of && qs.of[ed] == q && ed !in d.strays
    requires Acceptable(qs, q, u, t, ed.state == ED_NEW, dummy, mine)
    modifies d.ChainOf(ed.kind), ed`state, ed`hwNextED, ed`edPrev, (set e | e in d.ChainOf(ed.kind).eds)`hwNextED
    modifies qs`home, q, u, u.td, mine
    ensures Fit(d, qs)
    ensures ok <==> !old(Pending(ed.state))
    ensures ok ==> ed.state == ED_OPER && |q.tds| > |old(q.tds)|
    ensures !ok ==> ed.state == old(ed.state) && q.tds == old(q.tds)
  {
    ServingIff(d, qs, ed);
    ok := SubmitBeside(d, qs, ed, q, u, t, ed.state == ED_NEW, dummy, mine, qs.of.Keys - {ed}, qs.of.Values - {q});
    ServingIff(d, qs, ed);
  }

  // ---------- the controller's and the driver's work on one queue

  method RetireAmong(qs: Queues, q: Queue, cc: nat, ghost eds: set<Ed>, ghost rest: set<Queue>)
    requires qs.Valid() && qs.Has(q) && q.tds != [] && q !in rest
    modifies qs`doneHead, qs`done, qs`home, q, {q.tds[0]}`hwNextTD, {q.tds[0]}`cc
    ensures qs.Valid() == old(qs.Valid()) && q.tds == old(q.tds)[1..]
    ensures Served(qs, eds, rest) == old(Served(qs, eds, rest))
  {
    EndpointQueues.Retire(qs, q, cc);
  }

  method RetireBeside(d: Endpoints.Driver, qs: Queues, q: Queue, cc: nat, ghost eds: set<Ed>, ghost rest: set<Queue>)
    requires Well(d, qs, eds, rest) && qs.Valid() && qs.Has(q) && q.tds != [] && q !in rest
    modifies qs`doneHead, qs`done, qs`home, q, {q.tds[0]}`hwNextTD, {q.tds[0]}`cc
    ensures qs.Valid() == old(qs.Valid()) && q.tds == old(q.tds)[1..]
    ensures Well(d, qs, eds, rest) == old(Well(d, qs, eds, rest))
  {
    RetireAmong(qs, q, cc, eds, rest);
    assert d.Sound() == old(d.Sound());
  }

  /** The controller is finished with the first descriptor of a queue. */
  method Retire(d: Endpoints.Driver, qs: Queues, ed: Ed, q: Queue, cc: nat)
    requires Fit(d, qs) && ed in qs.of && qs.of[ed] == q && q.tds != []
    modifies qs`doneHead, qs`done, qs`home, q, {q.tds[0]}`hwNextTD, {q.tds[0]}`cc
    ensures Fit(d, qs) && q.tds == old(q.tds)[1..]
  {
    ServingIff(d, qs, ed);
    RetireBeside(d, qs, q, cc, qs.of.Keys - {ed}, qs.of.Values - {q});
    ServingIff(d, qs, ed);
  }

  method ReleaseAmong(qs: Queues, q: Queue, td: Td, u: Urb, ghost eds: set<Ed>, ghost rest: set<Queue>)
    requires qs.Valid() && qs.Has(q) && td.cc != 0 && (CutsShort(td, q, u) ==> Lands(q.tds, q.tail, NextOfLast(u)))
    requires q !in rest
    modifies q, u`count
    ensures qs.Valid() == old(qs.Valid()) && Subset(q.tds, old(q.tds)) && (old(q.tds) == [] ==> q.tds == [])
    ensures Outcome(td, q, u, old(Look(td, q, u)))
    ensures Served(qs, eds, rest) == old(Served(qs, eds, rest))
  {
    EndpointQueues.ReleaseAt(qs, q, td, u);
    assert q.tds != [] ==> q.tds[0] in old(q.tds);
  }

  method ReleaseBeside(d: Endpoints.Driver, qs: Queues, q: Queue, td: Td, u: Urb, ghost eds: set<Ed>,
                       ghost rest: set<Queue>)
    requires Well(d, qs, eds, rest) && qs.Valid() && qs.Has(q) && td.cc != 0 && q !in rest
    requires CutsShort(td, q, u) ==> Lands(q.tds, q.tail, NextOfLast(u))
    modifies q, u`count
    ensures qs.Valid() == old(qs.Valid()) && Subset(q.tds, old(q.tds)) && (old(q.tds) == [] ==> q.tds == [])
    ensures Outcome(td, q, u, old(Look(td, q, u)))
    ensures Well(d, qs, eds, rest) == old(Well(d, qs, eds, rest))
  {
    ReleaseAmong(qs, q, td, u, eds, rest);
    assert d.Sound() == old(d.Sound());
  }

  /** The driver releases a queue that a failed descriptor has halted. */
  method Release(d: Endpoints.Driver, qs: Queues, ed: Ed, q: Queue, td: Td, u: Urb)
    requires Fit(d, qs) && ed in qs.of && qs.of[ed] == q && td.cc != 0
    requires CutsShort(td, q, u) ==> Lands(q.tds, q.tail, NextOfLast(u))
    modifies q, u`count
    ensures Fit(d, qs) && Subset(q.tds, old(q.tds)) && Outcome(td, q, u, old(Look(td, q, u)))
  {
    ServingIff(d, qs, ed);
    ReleaseBeside(d, qs, q, td, u, qs.of.Keys - {ed}, qs.of.Values - {q});
    ServingIff(d, qs, ed);
  }

  /** The driver takes the done list over. */
  method TakeDone(d: Endpoints.Driver, qs: Queues) returns (list: Td?)
    requires Fit(d, qs)
    modifies qs`doneHead, qs`done, qs`home
    ensures Fit(d, qs) && qs.done == []
    ensures list == if old(qs.done) == [] then null else old(qs.done)[0]
  {
    list := EndpointQueues.TakeDone(qs);
    assert d.Sound() == old(d.Sound());
    assert Serving(d, qs) == old(Serving(d, qs));
  }

  // ---------- what the driver does to one endpoint

  method LeaveAmong(d: Endpoints.Driver, qs: Queues, ed: Ed, ghost eds: set<Ed>, ghost rest: set<Queue>)
    requires Well(d, qs, eds, rest) && ed in d.remover.eds && ed.state == ED_OPER && ed !in eds
    modifies d.ChainOf(ed.kind)`head, d.ChainOf(ed.kind)`tail, d.ChainOf(ed.kind)`eds, ed`state, ed`skip
    modifies (set e | e in d.ChainOf(ed.kind).eds)`hwNextED, (set e | e in d.ChainOf(ed.kind).eds)`edPrev
    ensures Well(d, qs, eds, rest) == old(Well(d, qs, eds, rest)) && ed.state == ED_UNLINK
  {
    Endpoints.LeaveChain(d, ed);
    assert Served(qs, eds, rest) == old(Served(qs, eds, rest));
  }

  method LeaveBeside(d: Endpoints.Driver, qs: Queues, ed: Ed, ghost eds: set<Ed>, ghost rest: set<Queue>)
    requires Well(d, qs, eds, rest) && ed in d.remover.eds && ed.state == ED_OPER && ed !in eds
    modifies d.ChainOf(ed.kind)`head, d.ChainOf(ed.kind)`tail, d.ChainOf(ed.kind)`eds, ed`state, ed`skip
    modifies (set e | e in d.ChainOf(ed.kind).eds)`hwNextED, (set e | e in d.ChainOf(ed.kind).eds)`edPrev
    ensures Well(d, qs, eds, rest) == old(Well(d, qs, eds, rest)) && ed.state == ED_UNLINK
    ensures qs.Valid() == old(qs.Valid())
  {
    LeaveAmong(d, qs, ed, eds, rest);
  }

  /** Endpoint i's state after the first n descriptors: unlinked if it was operational and its queue is empty. */
  ghost predicate IdleAt(owners: seq<Queue>, states: seq<EdState>, i: nat, n: nat)
    requires i < |owners| == |states| && n <= |owners|
    reads {owners[i]}`tds, {owners[i].ed}`state
  {
    owners[i].ed.state ==
      if states[i] == ED_OPER && owners[i].tds == [] && owners[i] in owners[..n] then ED_UNLINK else states[i]
  }

  ghost predicate IdleUnlinked(owners: seq<Queue>, states: seq<EdState>, n: nat)
    requires n <= |owners| == |states|
    reads (set q | q in owners)`tds, (set q | q in owners :: q.ed)`state
  {
    forall i :: 0 <= i < |owners| ==> IdleAt(owners, states, i, n)
  }

  /** The state endpoint i should have. */
  ghost function IdleState(state: EdState, empty: bool, seen: bool): EdState {
    if state == ED_OPER && empty && seen then ED_UNLINK else state
  }

  lemma {:induction false} SeenNext(owners: seq<Queue>, i: nat, k: nat)
    requires i < |owners| && k < |owners|
    ensures owners[i] in owners[..k + 1] <==> owners[i] in owners[..k] || owners[i] == owners[k]
  {
    assert owners[..k + 1] == owners[..k] + [owners[k]];
  }

  /** The states of these endpoints are as they should be. */
  ghost predicate IdleAmong(owners: seq<Queue>, states: seq<EdState>, eds: set<Ed>, n: nat)
    requires n <= |owners| == |states|
    reads (set r | r in owners)`tds, eds`state
  {
    forall i :: 0 <= i < |owners| && owners[i].ed in eds ==> IdleAt(owners, states, i, n)
  }

  /** The pass over finished descriptors after k endpoints and n descriptors, but for the states of endpoints that are
      not among eds. */
  ghost predicate Tally(owners: seq<Queue>, states: seq<EdState>, eds: set<Ed>, k: nat, us: seq<Urb>,
                        counts: map<Urb, nat>, n: nat)
    requires k <= |owners| == |states| && n <= |us|
    reads (set r | r in owners)`tds, eds`state, (set u | u in us)`count, (set u | u in us)`freed
  {
    IdleAmong(owners, states, eds, k) && Counted(us, counts, n)
  }

  method LeaveKeeping(d: Endpoints.Driver, qs: Queues, ed: Ed, ghost eds: set<Ed>, ghost rest: set<Queue>,
                      ghost owners: seq<Queue>, ghost states: seq<EdState>, ghost k: nat, ghost us: seq<Urb>,
                      ghost counts: map<Urb, nat>, ghost n: nat)
    requires Well(d, qs, eds, rest) && ed in d.remover.eds && ed.state == ED_OPER && ed !in eds
    requires k <= |owners| == |states| && n <= |us|
    modifies d.ChainOf(ed.kind)`head, d.ChainOf(ed.kind)`tail, d.ChainOf(ed.kind)`eds, ed`state, ed`skip
    modifies (set e | e in d.ChainOf(ed.kind).eds)`hwNextED, (set e | e in d.ChainOf(ed.kind).eds)`edPrev
    ensures Well(d, qs, eds, rest) == old(Well(d, qs, eds, rest)) && ed.state == ED_UNLINK
    ensures qs.Valid() == old(qs.Valid())
    ensures Tally(owners, states, eds, k, us, counts, n) == old(Tally(owners, states, eds, k, us, counts, n))
  {
    LeaveBeside(d, qs, ed, eds, rest);
  }

  lemma {:induction false} EmptyIff(q: Queue)
    requires q.Valid()
    ensures q.head == q.tail <==> q.tds == []
  {
    if q.tds != [] {
      NotTheDummy(q, 0);
    }
  }

  /** Takes an endpoint whose queue is empty out of its chain; nothing else changes for the pass it is part of. */
  method IdleBeside(d: Endpoints.Driver, qs: Queues, ed: Ed, q: Queue, ghost eds: set<Ed>, ghost owners: seq<Queue>,
                    ghost states: seq<EdState>, ghost k: nat, ghost us: seq<Urb>, ghost counts: map<Urb, nat>,
                    ghost n: nat)
    requires Fit(d, qs) && ed in qs.of && qs.of[ed] == q && eds == qs.of.Keys - {ed}
    requires k <= |owners| == |states| && n <= |us|
    modifies d.ChainOf(ed.kind)`head, d.ChainOf(ed.kind)`tail, d.ChainOf(ed.kind)`eds, ed`state, ed`skip
    modifies (set e | e in d.ChainOf(ed.kind).eds)`hwNextED, (set e | e in d.ChainOf(ed.kind).eds)`edPrev
    ensures Fit(d, qs) && ed.state == IdleState(old(ed.state), q.tds == [], true)
    ensures Tally(owners, states, eds, k, us, counts, n) == old(Tally(owners, states, eds, k, us, counts, n))
  {
    assert q in qs.of.Values;
    assert qs.QueueOk(q);
    EmptyIff(q);
    if ed.state != ED_NEW {
      if q.head == q.tail && ed.state == ED_OPER {
        ServingIff(d, qs, ed);
        LeaveKeeping(d, qs, ed, eds, qs.of.Values - {q}, owners, states, k, us, counts, n);
        ServingIff(d, qs, ed);
      }
    }
  }

  /** An endpoint leaves its chain if its state is exactly ED_OPER and its queue is empty. */
  method Idle(d: Endpoints.Driver, qs: Queues, ed: Ed, q: Queue)
    requires Fit(d, qs) && ed in qs.of && qs.of[ed] == q
    modifies d.ChainOf(ed.kind)`head, d.ChainOf(ed.kind)`tail, d.ChainOf(ed.kind)`eds, ed`state, ed`skip
    modifies (set e | e in d.ChainOf(ed.kind).eds)`hwNextED, (set e | e in d.ChainOf(ed.kind).eds)`edPrev
    ensures Fit(d, qs)
    ensures ed.state == if old(ed.state) == ED_OPER && q.tds == [] then ED_UNLINK else old(ed.state)
  {
    IdleBeside(d, qs, ed, q, qs.of.Keys - {ed}, [], [], 0, [], map[], 0);
  }

  method WithdrawAmong(d: Endpoints.Driver, qs: Queues, ed: Ed, u: Urb, ghost eds: set<Ed>, ghost rest: set<Queue>)
    requires Well(d, qs, eds, rest) && ed in d.remover.eds && ed !in eds
    modifies d.remover`ctrlOn, d.remover`bulkOn, d.remover`sofOn, d.remover`sofSeen, d.remover`since
    modifies d.remover.evenList, d.remover.oddList, ed`skip, ed`edRmList, ed`state, u`deleted
    ensures Well(d, qs, eds, rest) == old(Well(d, qs, eds, rest)) && ed.state == old(ed.state).(urbDel := true)
    ensures u.deleted
  {
    u.deleted := true;
    Endpoints.UnlinkUrb(d, ed);
    assert Served(qs, eds, rest) == old(Served(qs, eds, rest));
  }

  method WithdrawBeside(d: Endpoints.Driver, qs: Queues, ed: Ed, u: Urb, ghost eds: set<Ed>, ghost rest: set<Queue>)
    requires Well(d, qs, eds, rest) && ed in d.remover.eds && ed !in eds
    modifies d.remover`ctrlOn, d.remover`bulkOn, d.remover`sofOn, d.remover`sofSeen, d.remover`since
    modifies d.remover.evenList, d.remover.oddList, ed`skip, ed`edRmList, ed`state, u`deleted
    ensures Well(d, qs, eds, rest) == old(Well(d, qs, eds, rest)) && ed.state == old(ed.state).(urbDel := true)
    ensures u.deleted
    ensures qs.Valid() == old(qs.Valid())
  {
    WithdrawAmong(d, qs, ed, u, eds, rest);
  }

  /** A request of the endpoint is withdrawn. */
  method UnlinkUrb(d: Endpoints.Driver, qs: Queues, ed: Ed, u: Urb)
    requires Fit(d, qs) && ed in qs.of
    modifies d.remover`ctrlOn, d.remover`bulkOn, d.remover`sofOn, d.remover`sofSeen, d.remover`since
    modifies d.remover.evenList, d.remover.oddList, ed`skip, ed`edRmList, ed`state, u`deleted
    ensures Fit(d, qs)
    ensures u.deleted && ed.state == old(ed.state).(urbDel := true)
  {
    ServingIff(d, qs, ed);
    WithdrawBeside(d, qs, ed, u, qs.of.Keys - {ed}, qs.of.Values - {qs.of[ed]});
    ServingIff(d, qs, ed);
  }

  method FreeAmong(d: Endpoints.Driver, qs: Queues, ed: Ed, ghost eds: set<Ed>, ghost rest: set<Queue>)
    requires Well(d, qs, eds, rest) && ed in d.remover.eds && ed !in eds
    modifies d.remover`ctrlOn, d.remover`bulkOn, d.remover`sofOn, d.remover`sofSeen, d.remover`since, d`strays
    modifies d.remover.evenList, d.remover.oddList, ed`skip, ed`edRmList, ed`state
    modifies d.ChainOf(ed.kind)`head, d.ChainOf(ed.kind)`tail, d.ChainOf(ed.kind)`eds
    modifies (set e | e in d.ChainOf(ed.kind).eds)`hwNextED, (set e | e in d.ChainOf(ed.kind).eds)`edPrev
    ensures Well(d, qs, eds, rest) == old(Well(d, qs, eds, rest))
    ensures ed.state == if old(ed.state) == ED_NEW then ED_NEW else ED_DEL
  {
    Endpoints.FreeEd(d, ed);
    assert Served(qs, eds, rest) == old(Served(qs, eds, rest));
  }

  method FreeBeside(d: Endpoints.Driver, qs: Queues, ed: Ed, ghost eds: set<Ed>, ghost rest: set<Queue>)
    requires Well(d, qs, eds, rest) && ed in d.remover.eds && ed !in eds
    modifies d.remover`ctrlOn, d.remover`bulkOn, d.remover`sofOn, d.remover`sofSeen, d.remover`since, d`strays
    modifies d.remover.evenList, d.remover.oddList, ed`skip, ed`edRmList, ed`state
    modifies d.ChainOf(ed.kind)`head, d.ChainOf(ed.kind)`tail, d.ChainOf(ed.kind)`eds
    modifies (set e | e in d.ChainOf(ed.kind).eds)`hwNextED, (set e | e in d.ChainOf(ed.kind).eds)`edPrev
    ensures Well(d, qs, eds, rest) == old(Well(d, qs, eds, rest)) && qs.Valid() == old(qs.Valid())
    ensures ed.state == if old(ed.state) == ED_NEW then ED_NEW else ED_DEL
  {
    FreeAmong(d, qs, ed, eds, rest);
  }

  /** The endpoint is to be freed. */
  method FreeEd(d: Endpoints.Driver, qs: Queues, ed: Ed)
    requires Fit(d, qs) && ed in qs.of
    modifies d.remover`ctrlOn, d.remover`bulkOn, d.remover`sofOn, d.remover`sofSeen, d.remover`since, d`strays
    modifies d.remover.evenList, d.remover.oddList, ed`skip, ed`edRmList, ed`state
    modifies d.ChainOf(ed.kind)`head, d.ChainOf(ed.kind)`tail, d.ChainOf(ed.kind)`eds
    modifies (set e | e in d.ChainOf(ed.kind).eds)`hwNextED, (set e | e in d.ChainOf(ed.kind).eds)`edPrev
    ensures Fit(d, qs)
    ensures ed.state == if old(ed.state) == ED_NEW then ED_NEW else ED_DEL
  {
    ServingIff(d, qs, ed);
    FreeBeside(d, qs, ed, qs.of.Keys - {ed}, qs.of.Values - {qs.of[ed]});
    ServingIff(d, qs, ed);
  }

  /** The controller begins the next frame. */
  method NextFrame(d: Endpoints.Driver, qs: Queues)
    requires Fit(d, qs)
    modifies d.remover`frame, d.remover`sofSeen
    ensures d.Sound()
    ensures qs.Valid() == old(qs.Valid())
    ensures Serving(d, qs) == old(Serving(d, qs))
  {
    Endpoints.NextFrame(d);
  }

  // ---------- the start of a frame

  /** The queue's descriptors and their requests are among these. */
  ghost predicate Covered(q: Queue, tds: set<Td>, urbs: set<Urb>)
    reads q`tds, (set td | td in q.tds)`urb
  {
    forall i :: 0 <= i < |q.tds| ==> q.tds[i] in tds && (q.tds[i].urb != null ==> q.tds[i].urb in urbs)
  }

  /** What a pass over due queues comes to: the descriptors that stay and the requests of those that go, queue by queue;
      the queues, and the descriptors and requests it may write to; and the requests' counts, and which of them are
      freed, before it. */
  datatype Plan = Plan(left: seq<seq<Td>>, taken: seq<seq<Urb>>, due: set<Queue>, tds: set<Td>, urbs: set<Urb>,
                       counts: map<Urb, nat>, freed: set<Urb>)

  /** The requests of all that go from the first n queues, in order. */
  function Joined(taken: seq<seq<Urb>>, n: nat): seq<Urb>
    requires n <= |taken|
  {
    if n == 0 then [] else Joined(taken, n - 1) + taken[n - 1]
  }

  lemma {:induction false} SurvivorsOfAll(tds: seq<Td>)
    ensures Survivors(tds, true) == []
  {
    if tds != [] {
      SurvivorsOfAll(tds[..|tds| - 1]);
    }
  }

  /** One more request's count. */
  lemma {:induction false} TallyMore(counts: map<Urb, nat>, freed: set<Urb>, before: seq<Urb>, taken: seq<Urb>, u: Urb,
                                     c: nat, f: bool)
    requires u in counts && c == counts[u] + Times(before, u, |before|)
    requires f <==> u in freed || counts[u] < u.td.Length <= c
    requires u.count == c + Times(taken, u, |taken|) && (u.freed <==> f || c < u.td.Length <= u.count)
    ensures TalliedAt(counts, freed, before + taken, u)
  {
    TimesOfSum(before, taken, u, |taken|);
  }

  lemma {:induction false} TakenTimes(q: Queue, us: seq<Urb>, all: bool, u: Urb)
    requires UrbsOf(q.tds, us) && AllOwned(q, q.tds)
    ensures var taken := TakenUrbs(q.tds, all);
            Times(taken, u, |taken|) == if u in Doomed(us, all) then Times(us, u, |us|) else 0
  {
    AsKept(q, q.tds, us, all, |us|);
    assert q.tds[..|us|] == q.tds;
    TimesOfTaken(us, Doomed(us, all), |us|, u);
  }

  /** The descriptors that go leave the queue. */
  method DeleteOwn(qs: Queues, q: Queue, all: bool, ghost tds: set<Td>, ghost urbs: set<Urb>, ghost us: seq<Urb>)
    returns (called: seq<Urb>)
    requires qs.Valid() && qs.Has(q) && Covered(q, tds, urbs) && UrbsOf(q.tds, us)
    modifies q`head, q`tds, tds`hwNextTD, (set u | u in us)`count, (set u | u in us)`freed
    ensures qs.Valid() == old(qs.Valid()) && q.tds == old(Survivors(q.tds, all))
    ensures called == CallsOf(old(TakenUrbs(q.tds, all))) && ((all || old(q.tds) == []) ==> q.tds == [])
    ensures UrbsAfter(us, old(Doomed(us, all)), old(map u | u in us :: u.count), old(set u | u in us && u.freed), |us|)
  {
    called := DeleteAt(qs, q, all, us);
    assert q.tds != [] ==> q.tds[0] in q.tds;
  }

  /** Their requests count them. */
  method DeleteCovered(qs: Queues, q: Queue, all: bool, ghost p: Plan, ghost before: seq<Urb>)
    returns (called: seq<Urb>)
    requires qs.Valid() && qs.Has(q) && Covered(q, p.tds, p.urbs) && Tallied(p.urbs, p.counts, p.freed, before)
    modifies q`head, q`tds, p.tds`hwNextTD, p.urbs`count, p.urbs`freed
    ensures qs.Valid() == old(qs.Valid()) && q.tds == old(Survivors(q.tds, all))
    ensures called == CallsOf(old(TakenUrbs(q.tds, all))) && ((all || old(q.tds) == []) ==> q.tds == [])
    ensures Tallied(p.urbs, p.counts, p.freed, before + old(TakenUrbs(q.tds, all)))
  {
    assert q in qs.of.Values;
    assert qs.QueueOk(q);
    ghost var us, taken := UrbList(q, q.tds), TakenUrbs(q.tds, all);
    ghost var doomed, counts, freed := Doomed(us, all), map u | u in us :: u.count, set u | u in us && u.freed;
    UrbListIs(q, q.tds);
    forall i | 0 <= i < |us|
      ensures us[i] in p.urbs
    {
      assert HasUrb(q.tds, us, i);
    }
    forall u | u in p.urbs
      ensures Times(taken, u, |taken|) == if u in doomed then Times(us, u, |us|) else 0
      ensures TalliedAt(p.counts, p.freed, before, u)
    {
      TakenTimes(q, us, all, u);
    }
    called := DeleteOwn(qs, q, all, p.tds, p.urbs, us);
    forall u | u in p.urbs
      ensures TalliedAt(p.counts, p.freed, before + taken, u)
    {
      if u in us {
        var i :| 0 <= i < |us| && us[i] == u;
        assert UrbAfterAt(us, doomed, counts, freed, |us|, i);
      }
      TallyMore(p.counts, p.freed, before, taken, u, old(u.count), old(u.freed));
    }
  }

  /** The queue holds what is planned for it. */
  ghost predicate LeftAt(q: Queue, was: EdState, left: seq<Td>)
    reads q`tds
  {
    q.tds == left && (was.del ==> left == [])
  }

  /** What is planned for a queue is what stays, and goes, when withdrawn requests are taken out, or all. */
  ghost predicate PlannedAt(q: Queue, was: EdState, left: seq<Td>, taken: seq<Urb>)
    reads q`tds, (set td | td in q.tds)`urb, (set td | td in q.tds && td.urb != null :: td.urb)`deleted
  {
    left == Survivors(q.tds, was.del) && taken == TakenUrbs(q.tds, was.del)
  }

  /** The plan fits the list. */
  ghost predicate Fits(qs: Queues, list: seq<Ed>, was: seq<EdState>, p: Plan) {
    && |list| == |was| == |p.left| == |p.taken|
    && (forall i :: 0 <= i < |list| ==> list[i] in qs.of && qs.of[list[i]] in p.due)
    && forall q :: q in p.due ==> q.ed in list
  }

  /** The first n endpoints of the list have been dealt with as planned; the others are still to be. */
  ghost predicate DeletedUpTo(qs: Queues, list: seq<Ed>, was: seq<EdState>, n: nat, p: Plan)
    reads (set e | e in list)`state, (set e | e in list)`edRmList, qs.of.Values`tds
    reads (set q, td | q in qs.of.Values && td in q.tds :: td)`urb
    reads (set q, td | q in qs.of.Values && td in q.tds && td.urb != null :: td.urb)`deleted
    reads p.urbs`count, p.urbs`freed
  {
    && Fits(qs, list, was, p) && n <= |list|
    && (forall i :: 0 <= i < |list| ==> UntouchedAt(list, was, i) && Removal.WaitsAt(list, i))
    && (forall i :: 0 <= i < n ==> LeftAt(qs.of[list[i]], was[i], p.left[i]))
    && (forall i :: n <= i < |list| ==> PlannedAt(qs.of[list[i]], was[i], p.left[i], p.taken[i]))
    && (forall i :: n <= i < |list| ==> Covered(qs.of[list[i]], p.tds, p.urbs))
    && Tallied(p.urbs, p.counts, p.freed, Joined(p.taken, n))
  }

  method DeleteServed(qs: Queues, ed: Ed, q: Queue, ghost p: Plan, ghost before: seq<Urb>) returns (called: seq<Urb>)
    requires qs.Valid() && Keyed(qs) && AllServed(qs) && ed in qs.of && q == qs.of[ed] && Covered(q, p.tds, p.urbs)
    requires Tallied(p.urbs, p.counts, p.freed, before)
    modifies q`head, q`tds, p.tds`hwNextTD, p.urbs`count, p.urbs`freed
    ensures qs.Valid() == old(qs.Valid()) && AllServed(qs) && q.tds == old(Survivors(q.tds, ed.state.del))
    ensures called == CallsOf(old(TakenUrbs(q.tds, ed.state.del)))
    ensures Tallied(p.urbs, p.counts, p.freed, before + old(TakenUrbs(q.tds, ed.state.del)))
  {
    called := DeleteCovered(qs, q, ed.state.del, p, before);
    forall e | e in qs.of
      ensures ServedAt(qs, e)
    {
      assert old(ServedAt(qs, e));
    }
  }

  /** What holds of the list's other endpoints while the n-th is dealt with; `rest` has their queues. */
  ghost predicate Elsewhere(qs: Queues, list: seq<Ed>, was: seq<EdState>, n: nat, p: Plan, rest: set<Queue>)
    reads rest`tds, (set q, td | q in rest && td in q.tds :: td)`urb
    reads (set q, td | q in rest && td in q.tds && td.urb != null :: td.urb)`deleted
  {
    && Fits(qs, list, was, p)
    && (forall i :: 0 <= i < |list| && i != n ==> qs.of[list[i]] in rest)
    && (forall i :: 0 <= i < n && i < |list| ==> LeftAt(qs.of[list[i]], was[i], p.left[i]))
    && (forall i :: n < i < |list| ==> PlannedAt(qs.of[list[i]], was[i], p.left[i], p.taken[i]))
    && (forall i :: n < i < |list| ==> Covered(qs.of[list[i]], p.tds, p.urbs))
  }

  method DeleteAmong(qs: Queues, ed: Ed, q: Queue, ghost list: seq<Ed>, ghost was: seq<EdState>, ghost n: nat,
                     ghost p: Plan, ghost before: seq<Urb>, ghost rest: set<Queue>)
    returns (called: seq<Urb>)
    requires qs.Valid() && Keyed(qs) && AllServed(qs) && ed in qs.of && q == qs.of[ed] && Covered(q, p.tds, p.urbs)
    requires Tallied(p.urbs, p.counts, p.freed, before) && q !in rest
    modifies q`head, q`tds, p.tds`hwNextTD, p.urbs`count, p.urbs`freed
    ensures qs.Valid() == old(qs.Valid()) && AllServed(qs) && q.tds == old(Survivors(q.tds, ed.state.del))
    ensures called == CallsOf(old(TakenUrbs(q.tds, ed.state.del)))
    ensures Tallied(p.urbs, p.counts, p.freed, before + old(TakenUrbs(q.tds, ed.state.del)))
    ensures Elsewhere(qs, list, was, n, p, rest) == old(Elsewhere(qs, list, was, n, p, rest))
  {
    called := DeleteServed(qs, ed, q, p, before);
  }

  /** What the n-th endpoint's turn starts from. */
  lemma {:induction false} ElsewhereBefore(qs: Queues, list: seq<Ed>, was: seq<EdState>, n: nat, p: Plan, q: Queue)
    requires Keyed(qs) && Distinct(list) && DeletedUpTo(qs, list, was, n, p) && n < |list| && q == qs.of[list[n]]
    ensures Elsewhere(qs, list, was, n, p, qs.of.Values - {q}) && Covered(q, p.tds, p.urbs)
    ensures p.left[n] == Survivors(q.tds, list[n].state.del) && p.taken[n] == TakenUrbs(q.tds, list[n].state.del)
    ensures list[n].state == was[n] && (was[n].del ==> p.left[n] == [])
  {
    assert UntouchedAt(list, was, n) && PlannedAt(q, was[n], p.left[n], p.taken[n]);
    SurvivorsOfAll(q.tds);
    forall i | 0 <= i < |list| && i != n
      ensures qs.of[list[i]] != qs.of[list[n]]
    {
      DistinctAt(list, i, n);
    }
  }

  lemma {:induction false} ElsewhereAfter(qs: Queues, list: seq<Ed>, was: seq<EdState>, n: nat, p: Plan,
                                          rest: set<Queue>)
    requires n < |list| && Elsewhere(qs, list, was, n, p, rest) && LeftAt(qs.of[list[n]], was[n], p.left[n])
    requires forall i :: 0 <= i < |list| ==> UntouchedAt(list, was, i) && Removal.WaitsAt(list, i)
    requires Tallied(p.urbs, p.counts, p.freed, Joined(p.taken, n) + p.taken[n])
    ensures DeletedUpTo(qs, list, was, n + 1, p)
  {
  }

  method DeleteNext(qs: Queues, ed: Ed, q: Queue, ghost list: seq<Ed>, ghost was: seq<EdState>, ghost n: nat,
                    ghost p: Plan)
    returns (called: seq<Urb>)
    requires qs.Valid() && Keyed(qs) && AllServed(qs) && Distinct(list) && DeletedUpTo(qs, list, was, n, p)
    requires n < |list| && ed == list[n] && q == qs.of[ed]
    modifies q`head, q`tds, p.tds`hwNextTD, p.urbs`count, p.urbs`freed
    ensures qs.Valid() && AllServed(qs) && DeletedUpTo(qs, list, was, n + 1, p) && called == CallsOf(p.taken[n])
  {
    ElsewhereBefore(qs, list, was, n, p, q);
    called := DeleteAmong(qs, ed, q, list, was, n, p, Joined(p.taken, n), qs.of.Values - {q});
    ElsewhereAfter(qs, list, was, n, p, qs.of.Values - {q});
  }

  /** The queues are in order, endpoints with descriptors are served, and the pass is at the n-th endpoint. */
  ghost predicate Midway(qs: Queues, eds: seq<Ed>, was: seq<EdState>, n: nat, p: Plan)
    reads qs, qs.of.Values`head, qs.of.Values`tail, qs.of.Values`tds, (set r | r in qs.of.Values :: r.tail)`hwNextTD
    reads (set r, td | r in qs.of.Values && td in r.tds :: td)`hwNextTD
    reads (set r, td | r in qs.of.Values && td in r.tds :: td)`queue
    reads (set r, td | r in qs.of.Values && td in r.tds :: td)`urb
    reads (set td | td in qs.done)`hwNextTD, (set td | td in qs.done)`queue, (set td | td in qs.done)`urb
    reads (set r, td | r in qs.of.Values && td in r.tds && td.urb != null :: td.urb)`deleted
    reads qs.of.Keys`state, (set e | e in eds)`state, (set e | e in eds)`edRmList, p.urbs`count, p.urbs`freed
  {
    qs.Valid() && Keyed(qs) && AllServed(qs) && DeletedUpTo(qs, eds, was, n, p)
  }

  method DeleteAny(qs: Queues, ed: Ed, ghost eds: seq<Ed>, ghost was: seq<EdState>, ghost n: nat, ghost p: Plan)
    returns (called: seq<Urb>)
    requires Midway(qs, eds, was, n, p) && Distinct(eds) && n < |eds| && ed == eds[n]
    modifies p.due`head, p.due`tds, p.tds`hwNextTD, p.urbs`count, p.urbs`freed
    ensures Midway(qs, eds, was, n + 1, p) == old(Midway(qs, eds, was, n, p))
    ensures CallsOf(Joined(p.taken, n)) + called == CallsOf(Joined(p.taken, n + 1))
  {
    CallsSum(Joined(p.taken, n), p.taken[n]);
    called := DeleteNext(qs, ed, qs.of[ed], eds, was, n, p);
  }

  method DeleteStep(qs: Queues, ed: Ed, ghost eds: seq<Ed>, ghost was: seq<EdState>, ghost n: nat,
                    ghost p: Plan)
    returns (next: Ed?, called: seq<Urb>)
    requires Midway(qs, eds, was, n, p) && Distinct(eds) && n < |eds| && ed == eds[n]
    modifies p.due`head, p.due`tds, p.tds`hwNextTD, p.urbs`count, p.urbs`freed
    ensures Midway(qs, eds, was, n + 1, p) == old(Midway(qs, eds, was, n, p))
    ensures next == if n + 1 < |eds| then eds[n + 1] else null
    ensures CallsOf(Joined(p.taken, n)) + called == CallsOf(Joined(p.taken, n + 1))
  {
    assert Removal.WaitsAt(eds, n);
    next := ed.edRmList;
    called := DeleteAny(qs, ed, eds, was, n, p);
  }

  /** The descriptors of withdrawn requests leave the queues of the endpoints that are due; where an endpoint is to be
      deleted, all do.  The rest stays in order, requests count what they lose, and the calls are made in the order of
      the list. */
  method DeleteDue(qs: Queues, list: WaitingList, ghost eds: seq<Ed>, ghost was: seq<EdState>, ghost p: Plan)
    returns (called: seq<Urb>)
    requires Midway(qs, eds, was, 0, p) && list.Valid() && list.eds == eds
    modifies p.due`head, p.due`tds, p.tds`hwNextTD, p.urbs`count, p.urbs`freed
    ensures Midway(qs, eds, was, |eds|, p) && called == CallsOf(Joined(p.taken, |eds|))
  {
    var ed := list.head;
    ghost var n := 0;
    called := [];
    while ed != null
      invariant n <= |eds| && ed == if n < |eds| then eds[n] else null
      invariant Midway(qs, eds, was, n, p) && called == CallsOf(Joined(p.taken, n))
      decreases |eds| - n
    {
      var more;
      ed, more := DeleteStep(qs, ed, eds, was, n, p);
      called, n := called + more, n + 1;
    }
  }

  /** These endpoints are due, the interrupt is seen, and it is enabled. */
  ghost predicate Raised(d: Endpoints.Driver, eds: seq<Ed>)
    reads d.remover, d.remover.evenList, d.remover.oddList
  {
    d.remover.Due().eds == eds && d.remover.sofSeen && d.remover.sofOn
  }

  /** The waiting lists stay. */
  method DeleteRaised(d: Endpoints.Driver, qs: Queues, ghost eds: seq<Ed>, ghost was: seq<EdState>, ghost p: Plan)
    returns (called: seq<Urb>)
    requires d.remover.Due().Valid() && Raised(d, eds) && Midway(qs, eds, was, 0, p)
    modifies p.due`head, p.due`tds, p.tds`hwNextTD, p.urbs`count, p.urbs`freed
    ensures Midway(qs, eds, was, |eds|, p) == old(Midway(qs, eds, was, 0, p))
    ensures called == CallsOf(Joined(p.taken, |eds|)) && Raised(d, eds) == old(Raised(d, eds))
  {
    called := DeleteDue(qs, d.remover.Due(), eds, was, p);
  }

  /** So do the chains. */
  method DeleteBeside(d: Endpoints.Driver, qs: Queues, ghost eds: seq<Ed>, ghost was: seq<EdState>, ghost p: Plan)
    returns (called: seq<Urb>)
    requires d.Sound() && Raised(d, eds) && Midway(qs, eds, was, 0, p)
    modifies p.due`head, p.due`tds, p.tds`hwNextTD, p.urbs`count, p.urbs`freed
    ensures Midway(qs, eds, was, |eds|, p) == old(Midway(qs, eds, was, 0, p))
    ensures called == CallsOf(Joined(p.taken, |eds|)) && Raised(d, eds) == old(Raised(d, eds))
    ensures d.Sound() == old(d.Sound())
  {
    called := DeleteRaised(d, qs, eds, was, p);
  }

  /** The pass is over: every due queue holds what stays of it, and the requests have counted what they lost. */
  ghost predicate Deleted(qs: Queues, eds: seq<Ed>, was: seq<EdState>, p: Plan)
    reads qs, qs.of.Values`head, qs.of.Values`tail, qs.of.Values`tds, (set r | r in qs.of.Values :: r.tail)`hwNextTD
    reads (set r, td | r in qs.of.Values && td in r.tds :: td)`hwNextTD
    reads (set r, td | r in qs.of.Values && td in r.tds :: td)`queue
    reads (set r, td | r in qs.of.Values && td in r.tds :: td)`urb
    reads (set td | td in qs.done)`hwNextTD, (set td | td in qs.done)`queue, (set td | td in qs.done)`urb
    reads p.urbs`count, p.urbs`freed
  {
    && qs.Valid() && Fits(qs, eds, was, p)
    && (forall i :: 0 <= i < |eds| ==> LeftAt(qs.of[eds[i]], was[i], p.left[i]))
    && Tallied(p.urbs, p.counts, p.freed, Joined(p.taken, |eds|))
  }

  lemma {:induction false} AllDone(d: Endpoints.Driver, qs: Queues, eds: seq<Ed>, was: seq<EdState>, p: Plan)
    requires Paired(qs, d.remover.eds) && Midway(qs, eds, was, |eds|, p)
    ensures Serving(d, qs) && Deleted(qs, eds, was, p) && Processed(eds, was, 0) && |was| == |eds|
  {
  }

  /** The endpoints' states change. */
  method ProcessAmong(d: Endpoints.Driver, qs: Queues, ghost eds: seq<Ed>, ghost was: seq<EdState>, ghost p: Plan)
    requires d.Sound() && Raised(d, eds) && Serving(d, qs) && Deleted(qs, eds, was, p)
    requires Processed(eds, was, 0)
    modifies d.remover`ctrlOn, d.remover`bulkOn, d.remover`sofOn, d.remover`sofSeen, d.remover.Due()
    modifies (set ed | ed in eds)`state, (set ed | ed in eds)`skip
    ensures d.Sound() && Serving(d, qs)
    ensures d.remover.Due().eds == [] && Processed(eds, was, |was|)
    ensures d.remover.sofOn <==> d.remover.Current().eds != []
  {
    Endpoints.SofInterrupt(d, was);
    forall e | e in qs.of
      ensures ServedAt(qs, e)
    {
      assert old(ServedAt(qs, e));
      if e in eds {
        var i :| 0 <= i < |eds| && eds[i] == e;
        assert old(UntouchedAt(eds, was, i)) && LeftAt(qs.of[eds[i]], was[i], p.left[i]);
        assert ProcessedAt(eds, was, i);
      }
    }
  }

  method ProcessBeside(d: Endpoints.Driver, qs: Queues, ghost eds: seq<Ed>, ghost was: seq<EdState>, ghost p: Plan)
    requires d.Sound() && Raised(d, eds) && Serving(d, qs) && Deleted(qs, eds, was, p)
    requires Processed(eds, was, 0)
    modifies d.remover`ctrlOn, d.remover`bulkOn, d.remover`sofOn, d.remover`sofSeen, d.remover.Due()
    modifies (set ed | ed in eds)`state, (set ed | ed in eds)`skip
    ensures d.Sound() && Serving(d, qs)
    ensures d.remover.Due().eds == [] && Processed(eds, was, |was|)
    ensures d.remover.sofOn <==> d.remover.Current().eds != []
    ensures Deleted(qs, eds, was, p) == old(Deleted(qs, eds, was, p))
  {
    ProcessAmong(d, qs, eds, was, p);
  }

  /** What the interrupt does when it is seen and enabled. */
  method SofRaised(d: Endpoints.Driver, qs: Queues, ghost eds: seq<Ed>, ghost was: seq<EdState>, ghost p: Plan)
    returns (called: seq<Urb>)
    requires d.Sound() && Raised(d, eds) && Paired(qs, d.remover.eds) && Midway(qs, eds, was, 0, p)
    modifies d.remover`ctrlOn, d.remover`bulkOn, d.remover`sofOn, d.remover`sofSeen, d.remover.Due()
    modifies (set ed | ed in eds)`state, (set ed | ed in eds)`skip
    modifies p.due`head, p.due`tds, p.tds`hwNextTD, p.urbs`count, p.urbs`freed
    ensures d.Sound() && Serving(d, qs) && Deleted(qs, eds, was, p) && called == CallsOf(Joined(p.taken, |eds|))
    ensures d.remover.Due().eds == [] && Processed(eds, was, |was|)
    ensures d.remover.sofOn <==> d.remover.Current().eds != []
  {
    called := DeleteBeside(d, qs, eds, was, p);
    AllDone(d, qs, eds, was, p);
    ProcessBeside(d, qs, eds, was, p);
  }

  /** The start-of-frame interrupt, if it is seen and enabled: what is planned for the due queues happens, and the
      endpoints become new or may run again; no other queue changes. */
  method SofInterrupt(d: Endpoints.Driver, qs: Queues, ghost eds: seq<Ed>, ghost was: seq<EdState>, ghost p: Plan)
    returns (called: seq<Urb>)
    requires Fit(d, qs) && d.remover.Due().eds == eds && Midway(qs, eds, was, 0, p)
    modifies d.remover`ctrlOn, d.remover`bulkOn, d.remover`sofOn, d.remover`sofSeen, d.remover.Due()
    modifies (set ed | ed in eds)`state, (set ed | ed in eds)`skip
    modifies p.due`head, p.due`tds, p.tds`hwNextTD, p.urbs`count, p.urbs`freed
    ensures Fit(d, qs) == old(Fit(d, qs))
    ensures old(Raised(d, eds)) ==> Deleted(qs, eds, was, p) && called == CallsOf(Joined(p.taken, |eds|))
    ensures old(Raised(d, eds)) ==> d.remover.Due().eds == [] && Processed(eds, was, |was|)
    ensures old(Raised(d, eds)) ==> (d.remover.sofOn <==> d.remover.Current().eds != [])
    ensures !old(Raised(d, eds)) ==> called == [] && unchanged(d.remover, d.remover.Due(), set ed | ed in eds)
    ensures !old(Raised(d, eds)) ==> unchanged(p.due, p.tds, p.urbs)
  {
    called := [];
    if d.remover.sofSeen && d.remover.sofOn {
      called := SofRaised(d, qs, eds, was, p);
    }
  }

  ghost function StatesOf(eds: seq<Ed>): (states: seq<EdState>)
    reads (set e | e in eds)`state
    ensures |states| == |eds| && forall i :: 0 <= i < |eds| ==> states[i] == eds[i].state
  {
    if eds == [] then [] else StatesOf(eds[..|eds| - 1]) + [eds[|eds| - 1].state]
  }

  /** What stays in the queues of these endpoints. */
  ghost function LeftOf(qs: Queues, eds: seq<Ed>): (left: seq<seq<Td>>)
    requires forall ed :: ed in eds ==> ed in qs.of
    reads qs.of.Keys`state, qs.of.Values`tds, (set r, td | r in qs.of.Values && td in r.tds :: td)`urb
    reads (set r, td | r in qs.of.Values && td in r.tds && td.urb != null :: td.urb)`deleted
    ensures |left| == |eds|
    ensures forall i :: 0 <= i < |eds| ==> left[i] == Survivors(qs.of[eds[i]].tds, eds[i].state.del)
  {
    if eds == [] then []
    else
      var ed := eds[|eds| - 1];
      LeftOf(qs, eds[..|eds| - 1]) + [Survivors(qs.of[ed].tds, ed.state.del)]
  }

  /** The requests of what goes from them. */
  ghost function TakenOf(qs: Queues, eds: seq<Ed>): (taken: seq<seq<Urb>>)
    requires forall ed :: ed in eds ==> ed in qs.of
    reads qs.of.Keys`state, qs.of.Values`tds, (set r, td | r in qs.of.Values && td in r.tds :: td)`urb
    reads (set r, td | r in qs.of.Values && td in r.tds && td.urb != null :: td.urb)`deleted
    ensures |taken| == |eds|
    ensures forall i :: 0 <= i < |eds| ==> taken[i] == TakenUrbs(qs.of[eds[i]].tds, eds[i].state.del)
  {
    if eds == [] then []
    else
      var ed := eds[|eds| - 1];
      TakenOf(qs, eds[..|eds| - 1]) + [TakenUrbs(qs.of[ed].tds, ed.state.del)]
  }

  ghost function TdsIn(due: set<Queue>): set<Td>
    reads due`tds
  {
    set q, td | q in due && td in q.tds :: td
  }

  ghost function RequestsOf(tds: set<Td>): set<Urb>
    reads tds`urb
  {
    set td | td in tds && td.urb != null :: td.urb
  }

  lemma {:induction false} AllCovered(due: set<Queue>, q: Queue)
    requires q in due
    ensures Covered(q, TdsIn(due), RequestsOf(TdsIn(due)))
  {
    forall j | 0 <= j < |q.tds|
      ensures q.tds[j] in TdsIn(due)
    {
      assert q.tds[j] in q.tds;
    }
  }

  ghost function CountsOf(urbs: set<Urb>): map<Urb, nat>
    reads urbs`count
  {
    map u: Urb | u in urbs :: u.count
  }

  ghost function FreedOf(urbs: set<Urb>): set<Urb>
    reads urbs`freed
  {
    set u | u in urbs && u.freed
  }

  lemma {:induction false} NothingTaken(urbs: set<Urb>)
    ensures Tallied(urbs, CountsOf(urbs), FreedOf(urbs), [])
  {
    forall u | u in urbs
      ensures TalliedAt(CountsOf(urbs), FreedOf(urbs), [], u)
    {
    }
  }

  lemma {:induction false} AtStart(qs: Queues, eds: seq<Ed>, was: seq<EdState>, p: Plan)
    requires Fits(qs, eds, was, p) && Tallied(p.urbs, p.counts, p.freed, [])
    requires forall i :: 0 <= i < |eds| ==> UntouchedAt(eds, was, i) && Removal.WaitsAt(eds, i)
    requires forall i :: 0 <= i < |eds| ==> PlannedAt(qs.of[eds[i]], was[i], p.left[i], p.taken[i])
    requires forall i :: 0 <= i < |eds| ==> Covered(qs.of[eds[i]], p.tds, p.urbs)
    ensures DeletedUpTo(qs, eds, was, 0, p)
  {
  }

  lemma {:induction false} PlanOver(qs: Queues, eds: seq<Ed>, due: set<Queue>) returns (was: seq<EdState>, p: Plan)
    requires Keyed(qs) && forall i :: 0 <= i < |eds| ==> eds[i] in qs.of && Removal.WaitsAt(eds, i)
    requires (forall i :: 0 <= i < |eds| ==> qs.of[eds[i]] in due) && forall q :: q in due ==> q.ed in eds
    ensures DeletedUpTo(qs, eds, was, 0, p)
  {
    var urbs := RequestsOf(TdsIn(due));
    was := StatesOf(eds);
    p := Plan(LeftOf(qs, eds), TakenOf(qs, eds), due, TdsIn(due), urbs, CountsOf(urbs), FreedOf(urbs));
    NothingTaken(urbs);
    forall i | 0 <= i < |eds|
      ensures Covered(qs.of[eds[i]], p.tds, p.urbs) && PlannedAt(qs.of[eds[i]], was[i], p.left[i], p.taken[i])
      ensures UntouchedAt(eds, was, i)
    {
      AllCovered(due, qs.of[eds[i]]);
    }
    AtStart(qs, eds, was, p);
  }

  /** There is a plan for whatever is due. */
  lemma {:induction false} PlanFor(d: Endpoints.Driver, qs: Queues) returns (was: seq<EdState>, p: Plan)
    requires Fit(d, qs)
    ensures Midway(qs, d.remover.Due().eds, was, 0, p)
  {
    var eds := d.remover.Due().eds;
    was, p := PlanOver(qs, eds, set q | q in qs.of.Values && q.ed in eds);
  }

  // ---------- counting the done list off

  lemma {:induction false} IdleStep(owners: seq<Queue>, states: seq<EdState>, q: Queue, eds: set<Ed>, k: nat,
                                    was: EdState)
    requires k < |owners| == |states| && owners[k] == q && IdleAmong(owners, states, eds, k)
    requires forall i :: 0 <= i < |owners| && owners[i] != q ==> owners[i].ed in eds
    requires forall i :: 0 <= i < |owners| && owners[i] == q ==>
               was == IdleState(states[i], q.tds == [], q in owners[..k])
    requires q.ed.state == IdleState(was, q.tds == [], true)
    ensures IdleUnlinked(owners, states, k + 1)
  {
    var more := k + 1;
    forall i | 0 <= i < |owners|
      ensures IdleAt(owners, states, i, more)
    {
      SeenNext(owners, i, k);
      assert owners[i] != q ==> IdleAt(owners, states, i, k);
    }
  }

  method IdleNext(d: Endpoints.Driver, qs: Queues, ed: Ed, q: Queue, ghost owners: seq<Queue>,
                  ghost states: seq<EdState>, ghost k: nat, ghost us: seq<Urb>, ghost counts: map<Urb, nat>)
    requires Fit(d, qs) && ed in qs.of && qs.of[ed] == q && q.ed == ed
    requires k < |owners| == |states| == |us| && owners[k] == q && IdleUnlinked(owners, states, k)
    requires (forall i :: 0 <= i < |owners| ==> qs.Has(owners[i])) && Counted(us, counts, k + 1)
    modifies d.ChainOf(ed.kind)`head, d.ChainOf(ed.kind)`tail, d.ChainOf(ed.kind)`eds, ed`state, ed`skip
    modifies (set e | e in d.ChainOf(ed.kind).eds)`hwNextED, (set e | e in d.ChainOf(ed.kind).eds)`edPrev
    ensures Fit(d, qs) == old(Fit(d, qs))
    ensures IdleUnlinked(owners, states, k + 1) && Counted(us, counts, k + 1)
  {
    ghost var was, eds := ed.state, qs.of.Keys - {ed};
    forall i | 0 <= i < |owners|
      ensures IdleAt(owners, states, i, k)
      ensures owners[i] != q ==> owners[i].ed in eds
      ensures owners[i] == q ==> was == IdleState(states[i], q.tds == [], q in owners[..k])
    {
      assert qs.Has(owners[i]);
    }
    IdleBeside(d, qs, ed, q, eds, owners, states, k, us, counts, k + 1);
    IdleStep(owners, states, q, eds, k, was);
  }

  /** The same for an endpoint of either chain. */
  method IdleAny(d: Endpoints.Driver, qs: Queues, q: Queue, ghost owners: seq<Queue>, ghost states: seq<EdState>,
                 ghost k: nat, ghost us: seq<Urb>, ghost counts: map<Urb, nat>)
    requires Fit(d, qs) && k < |owners| == |states| == |us| && owners[k] == q && IdleUnlinked(owners, states, k)
    requires (forall i :: 0 <= i < |owners| ==> qs.Has(owners[i])) && Counted(us, counts, k + 1)
    modifies d.control`head, d.control`tail, d.control`eds, d.bulk`head, d.bulk`tail, d.bulk`eds
    modifies q.ed`state, q.ed`skip, d.remover.eds`hwNextED, d.remover.eds`edPrev
    ensures Fit(d, qs) == old(Fit(d, qs))
    ensures IdleUnlinked(owners, states, k + 1) && Counted(us, counts, k + 1)
  {
    assert forall e :: e in d.ChainOf(q.ed.kind).eds ==> e in d.remover.eds;
    assert qs.Has(q);
    IdleNext(d, qs, q.ed, q, owners, states, k, us, counts);
  }

  method CountBeside(d: Endpoints.Driver, qs: Queues, q: Queue, u: Urb, ghost us: seq<Urb>, ghost owners: seq<Queue>,
                     ghost counts: map<Urb, nat>, ghost withdrawn: set<Urb>, ghost states: seq<EdState>, ghost k: nat)
    returns (done: seq<Urb>)
    requires Fit(d, qs) && k < |us| == |owners| == |states| && us[k] == u && owners[k] == q
    requires Counted(us, counts, k) && (u in withdrawn <==> u.deleted) && IdleUnlinked(owners, states, k)
    modifies u`count, u`freed
    ensures Counted(us, counts, k + 1) && IdleUnlinked(owners, states, k) == old(IdleUnlinked(owners, states, k))
    ensures Reached(us, counts, withdrawn, states, k) + done == Reached(us, counts, withdrawn, states, k + 1)
    ensures Fit(d, qs) == old(Fit(d, qs))
  {
    assert IdleAt(owners, states, k, k);
    done := CountOne(u, q.ed.state, us, counts, withdrawn, states, k);
  }

  /** One iteration of the counting pass. */
  method CountNext(d: Endpoints.Driver, qs: Queues, q: Queue, u: Urb, ghost us: seq<Urb>, ghost owners: seq<Queue>,
                   ghost counts: map<Urb, nat>, ghost withdrawn: set<Urb>, ghost states: seq<EdState>, ghost k: nat)
    returns (done: seq<Urb>)
    requires Fit(d, qs) && k < |us| == |owners| == |states| && us[k] == u && owners[k] == q
    requires forall i :: 0 <= i < |owners| ==> qs.Has(owners[i])
    requires Counted(us, counts, k) && (u in withdrawn <==> u.deleted) && IdleUnlinked(owners, states, k)
    modifies d.control`head, d.control`tail, d.control`eds, d.bulk`head, d.bulk`tail, d.bulk`eds
    modifies q.ed`state, q.ed`skip, d.remover.eds`hwNextED, d.remover.eds`edPrev, u`count, u`freed
    ensures Fit(d, qs) == old(Fit(d, qs))
    ensures IdleUnlinked(owners, states, k + 1) && Counted(us, counts, k + 1)
    ensures Reached(us, counts, withdrawn, states, k) + done == Reached(us, counts, withdrawn, states, k + 1)
  {
    done := CountBeside(d, qs, q, u, us, owners, counts, withdrawn, states, k);
    IdleAny(d, qs, q, owners, states, k, us, counts);
  }

  /** A list of finished descriptors with their queues and requests, of which some are withdrawn. */
  ghost predicate Listed(qs: Queues, fifo: seq<Td>, owners: seq<Queue>, us: seq<Urb>, withdrawn: set<Urb>)
    reads (set td | td in fifo)`nextDone, (set td | td in fifo)`queue, (set td | td in fifo)`urb
    reads (set u | u in us)`deleted
  {
    && FifoChain(fifo) && |owners| == |us| == |fifo|
    && (forall i :: 0 <= i < |fifo| ==> Owned(fifo, owners, us, i) && qs.Has(owners[i]))
    && forall u :: u in us ==> (u in withdrawn <==> u.deleted)
  }

  method CountStep(d: Endpoints.Driver, qs: Queues, td: Td, ghost fifo: seq<Td>, ghost us: seq<Urb>,
                   ghost owners: seq<Queue>, ghost counts: map<Urb, nat>, ghost withdrawn: set<Urb>,
                   ghost states: seq<EdState>, ghost k: nat)
    returns (next: Td?, done: seq<Urb>)
    requires Fit(d, qs) && Listed(qs, fifo, owners, us, withdrawn) && k < |fifo| == |states| && td == fifo[k]
    requires Counted(us, counts, k) && IdleUnlinked(owners, states, k)
    modifies (set u | u in us)`count, (set u | u in us)`freed
    modifies d.control`head, d.control`tail, d.control`eds, d.bulk`head, d.bulk`tail, d.bulk`eds
    modifies d.remover.eds`state, d.remover.eds`skip, d.remover.eds`hwNextED, d.remover.eds`edPrev
    ensures Fit(d, qs) == old(Fit(d, qs))
    ensures IdleUnlinked(owners, states, k + 1) && Counted(us, counts, k + 1)
    ensures Reached(us, counts, withdrawn, states, k) + done == Reached(us, counts, withdrawn, states, k + 1)
    ensures next == if k + 1 < |fifo| then fifo[k + 1] else null
  {
    assert Owned(fifo, owners, us, k) && FifoAt(fifo, k) && qs.Has(owners[k]);
    next := td.nextDone;
    done := CountNext(d, qs, td.queue, td.urb, us, owners, counts, withdrawn, states, k);
  }

  method CountListed(d: Endpoints.Driver, qs: Queues, td: Td, ghost fifo: seq<Td>, ghost us: seq<Urb>,
                     ghost owners: seq<Queue>, ghost counts: map<Urb, nat>, ghost withdrawn: set<Urb>,
                     ghost states: seq<EdState>, ghost k: nat)
    returns (next: Td?, done: seq<Urb>)
    requires Fit(d, qs) && Listed(qs, fifo, owners, us, withdrawn) && k < |fifo| == |states| && td == fifo[k]
    requires Counted(us, counts, k) && IdleUnlinked(owners, states, k)
    modifies (set u | u in us)`count, (set u | u in us)`freed
    modifies d.control`head, d.control`tail, d.control`eds, d.bulk`head, d.bulk`tail, d.bulk`eds
    modifies d.remover.eds`state, d.remover.eds`skip, d.remover.eds`hwNextED, d.remover.eds`edPrev
    ensures Fit(d, qs) == old(Fit(d, qs))
    ensures IdleUnlinked(owners, states, k + 1) && Counted(us, counts, k + 1)
    ensures Reached(us, counts, withdrawn, states, k) + done == Reached(us, counts, withdrawn, states, k + 1)
    ensures next == if k + 1 < |fifo| then fifo[k + 1] else null
    ensures Listed(qs, fifo, owners, us, withdrawn) == old(Listed(qs, fifo, owners, us, withdrawn))
  {
    next, done := CountStep(d, qs, td, fifo, us, owners, counts, withdrawn, states, k);
  }

  /** The counting pass: every descriptor counts for its request, a request completes when its count reaches
      its length unless it is withdrawn or its endpoint is gone, and endpoints whose queue has run empty leave
      their chain. */
  method CountDoneList(d: Endpoints.Driver, qs: Queues, list: Td?, ghost fifo: seq<Td>, ghost us: seq<Urb>,
                       ghost owners: seq<Queue>, ghost counts: map<Urb, nat>, ghost withdrawn: set<Urb>,
                       ghost states: seq<EdState>)
    returns (completed: seq<Urb>)
    requires Fit(d, qs) && Listed(qs, fifo, owners, us, withdrawn) && |states| == |fifo|
    requires list == if fifo == [] then null else fifo[0]
    requires Counted(us, counts, 0) && IdleUnlinked(owners, states, 0)
    modifies (set u | u in us)`count, (set u | u in us)`freed
    modifies d.control`head, d.control`tail, d.control`eds, d.bulk`head, d.bulk`tail, d.bulk`eds
    modifies d.remover.eds`state, d.remover.eds`skip, d.remover.eds`hwNextED, d.remover.eds`edPrev
    ensures Fit(d, qs)
    ensures Counted(us, counts, |us|) && IdleUnlinked(owners, states, |us|)
    ensures completed == Reached(us, counts, withdrawn, states, |us|)
  {
    var td := list;
    completed := [];
    ghost var k := 0;
    while td != null
      invariant k <= |fifo| && td == if k < |fifo| then fifo[k] else null
      invariant Fit(d, qs) && Listed(qs, fifo, owners, us, withdrawn)
      invariant Counted(us, counts, k) && IdleUnlinked(owners, states, k)
      invariant completed == Reached(us, counts, withdrawn, states, k)
      decreases |fifo| - k
    {
      var done;
      td, done := CountListed(d, qs, td, fifo, us, owners, counts, withdrawn, states, k);
      completed, k := completed + done, k + 1;
    }
  }

  // ---------- the start

  /** A driver with new endpoints. */
  method Start(of: map<Ed, Queue>) returns (d: Endpoints.Driver, qs: Queues)
    requires NewQueues(of) && forall ed :: ed in of ==> ed.state == ED_NEW && (ed.kind == CTRL || ed.kind == BULK)
    ensures fresh(d) && fresh(qs) && Fit(d, qs) && d.strays == {} && qs.of == of
  {
    d := new Endpoints.Driver(of.Keys);
    qs := new Queues(of);
    forall ed | ed in qs.of
      ensures ServedAt(qs, ed)
    {
      assert qs.of[ed] in of.Values;
    }
  }
}

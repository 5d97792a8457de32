/** The queues of all endpoints together with the controller's done list. */
module EndpointQueues {
  import opened OhciTypes
  import opened Sequences
  import opened TdQueue
  import opened DoneList
  import Requests = Pending

  // ---------- where a descriptor is

  /** For every descriptor known, the queue it is in, as one of its descriptors or as its dummy. */
  type Homes = map<Td, Queue?>

  ghost predicate LivesIn(home: Homes, td: Td, q: Queue?) {
    td in home && home[td] == q
  }

  /** The queue's descriptors, and its dummy, live in it. */
  ghost predicate Lodged(home: Homes, q: Queue, tds: seq<Td>, tail: Td) {
    LivesIn(home, tail, q) && forall i :: 0 <= i < |tds| ==> LivesIn(home, tds[i], q)
  }

  ghost predicate OwnedBy(q: Queue, td: Td)
    reads td`queue, td`urb
  {
    td.queue == q && td.urb != null
  }

  /** All descriptors of the queue are filled for requests to its endpoint. */
  ghost predicate AllOwned(q: Queue, tds: seq<Td>)
    reads (set td | td in tds)`queue, (set td | td in tds)`urb
  {
    forall i :: 0 <= i < |tds| ==> OwnedBy(q, tds[i])
  }

  ghost predicate Content(q: Queue)
    reads q`head, q`tail, q`tds, {q.tail}`hwNextTD
    reads (set td | td in q.tds)`hwNextTD, (set td | td in q.tds)`queue, (set td | td in q.tds)`urb
  {
    q.Valid() && AllOwned(q, q.tds)
  }

  ghost predicate Settled(home: Homes, q: Queue)
    reads q`head, q`tail, q`tds, {q.tail}`hwNextTD
    reads (set td | td in q.tds)`hwNextTD, (set td | td in q.tds)`queue, (set td | td in q.tds)`urb
  {
    Content(q) && Lodged(home, q, q.tds, q.tail)
  }

  /** A descriptor on the done list is in no queue any more. */
  ghost predicate Finished(home: Homes, td: Td)
    reads td`queue, td`urb
  {
    td.queue != null && td.urb != null && LivesIn(home, td, null)
  }

  /** The controller's done list, newest first. */
  ghost predicate DoneOk(home: Homes, head: Td?, done: seq<Td>)
    reads (set td | td in done)`hwNextTD, (set td | td in done)`queue, (set td | td in done)`urb
  {
    && head == (if done == [] then null else done[0])
    && DoneChain(done) && Distinct(done)
    && forall i :: 0 <= i < |done| ==> Finished(home, done[i])
  }

  class Queues {
    /** The descriptor part of every endpoint. */
    const of: map<Ed, Queue>
    /** The controller's done list register. */
    var doneHead: Td?
    ghost var done: seq<Td>
    ghost var home: Homes

    ghost predicate Has(q: Queue) {
      q.ed in of && of[q.ed] == q
    }

    ghost predicate QueueOk(q: Queue)
      reads this`home, q`head, q`tail, q`tds, {q.tail}`hwNextTD
      reads (set td | td in q.tds)`hwNextTD, (set td | td in q.tds)`queue, (set td | td in q.tds)`urb
    {
      Settled(home, q)
    }

    ghost predicate AllOk()
      reads this`home, of.Values`head, of.Values`tail, of.Values`tds, (set q | q in of.Values :: q.tail)`hwNextTD
      reads (set q, td | q in of.Values && td in q.tds :: td)`hwNextTD
      reads (set q, td | q in of.Values && td in q.tds :: td)`queue
      reads (set q, td | q in of.Values && td in q.tds :: td)`urb
    {
      forall q :: q in of.Values ==> Has(q) && QueueOk(q)
    }

    ghost predicate Valid()
      reads this, of.Values`head, of.Values`tail, of.Values`tds, (set q | q in of.Values :: q.tail)`hwNextTD
      reads (set q, td | q in of.Values && td in q.tds :: td)`hwNextTD
      reads (set q, td | q in of.Values && td in q.tds :: td)`queue
      reads (set q, td | q in of.Values && td in q.tds :: td)`urb
      reads (set td | td in done)`hwNextTD, (set td | td in done)`queue, (set td | td in done)`urb
    {
      AllOk() && DoneOk(home, doneHead, done)
    }

    /** New endpoints' queues hold their dummies only, and no descriptor is finished. */
    constructor (of: map<Ed, Queue>)
      requires NewQueues(of)
      ensures Valid() && this.of == of && done == []
    {
      this.of, doneHead, done := of, null, [];
      home := map q | q in of.Values :: q.tail := q;
      new;
      forall q | q in of.Values
        ensures Has(q) && QueueOk(q)
      {
        assert NewAt(q);
        assert LivesIn(home, q.tail, q);
      }
    }
  }

  ghost predicate NewAt(q: Queue)
    reads q, {q.tail}`hwNextTD
  {
    q.tds == [] && q.Valid()
  }

  ghost predicate OtherDummy(q: Queue, r: Queue)
    reads q`tail, r`tail
  {
    q.tail != r.tail
  }

  /** Descriptor parts of new endpoints. */
  ghost predicate NewQueues(of: map<Ed, Queue>)
    reads of.Values, (set q | q in of.Values :: q.tail)`hwNextTD
  {
    && (forall ed :: ed in of ==> of[ed].ed == ed)
    && (forall q :: q in of.Values ==> NewAt(q))
    && (forall q, r :: q in of.Values && r in of.Values && q != r ==> OtherDummy(q, r))
  }

  // ---------- the controller

  /** The head moves on. */
  method Leave(q: Queue) returns (td: Td)
    requires Content(q) && q.tds != []
    modifies q`head, q`tds
    ensures Content(q) && q.tds == old(q.tds)[1..] && td == old(q.tds)[0] && td != q.tail && td !in q.tds
  {
    ghost var tds := q.tds;
    assert LeadsOn(tds, q.tail, 0);
    TailIsOutside(tds, q.tail);
    SuffixChained(tds, q.tail, 1);
    td := q.head;
    q.head := td.hwNextTD;
    q.tds := tds[1..];
    forall i | 0 <= i < |q.tds|
      ensures OwnedBy(q, q.tds[i]) && q.tds[i] != td
    {
      assert Differ(tds + [q.tail], 0, i + 1);
      assert old(OwnedBy(q, tds[i + 1]));
    }
  }

  ghost predicate NoneIs(tds: seq<Td>, td: Td) {
    forall i :: 0 <= i < |tds| ==> tds[i] != td
  }

  /** A descriptor that is on no list goes to the front of the done list. */
  method PushDone(td: Td, doneHead: Td?, ghost done: seq<Td>)
    requires DoneChain(done) && Distinct(done) && NoneIs(done, td) && doneHead == (if done == [] then null else done[0])
    modifies td`hwNextTD
    ensures DoneChain([td] + done) && Distinct([td] + done)
  {
    td.hwNextTD := doneHead;
    ghost var more := [td] + done;
    forall i | 0 <= i < |more|
      ensures DoneAt(more, i)
    {
      assert i > 0 ==> old(DoneAt(done, i - 1));
    }
    forall i, j | 0 <= i < j < |more|
      ensures Differ(more, i, j)
    {
      assert i > 0 ==> Differ(done, i - 1, j - 1);
    }
  }

  ghost predicate Foreign(q: Queue, td: Td)
    reads q`tds, q`tail
  {
    td != q.tail && NoneIs(q.tds, td)
  }

  /** What lives in one queue is not in another. */
  lemma {:induction false} LivesElsewhere(home: Homes, r: Queue, td: Td, q: Queue?)
    requires Lodged(home, r, r.tds, r.tail) && LivesIn(home, td, q) && r != q
    ensures Foreign(r, td)
  {
    forall i | 0 <= i < |r.tds|
      ensures r.tds[i] != td
    {
      assert LivesIn(home, r.tds[i], r);
    }
  }

  /** Descriptor td moves. */
  lemma {:induction false} LodgedStill(home: Homes, q: Queue, tds: seq<Td>, tail: Td, td: Td, to: Queue?)
    requires Lodged(home, q, tds, tail) && td != tail && NoneIs(tds, td)
    ensures Lodged(home[td := to], q, tds, tail)
  {
    forall i | 0 <= i < |tds|
      ensures LivesIn(home[td := to], tds[i], q)
    {
      assert LivesIn(home, tds[i], q);
    }
  }

  lemma {:induction false} LodgedRest(home: Homes, q: Queue, tds: seq<Td>, tail: Td)
    requires Lodged(home, q, tds, tail) && tds != []
    ensures Lodged(home, q, tds[1..], tail)
  {
    forall i | 0 <= i < |tds[1..]|
      ensures LivesIn(home, tds[1..][i], q)
    {
      assert LivesIn(home, tds[i + 1], q);
    }
  }

  lemma {:induction false} FinishedStill(home: Homes, done: seq<Td>, td: Td)
    requires td.queue != null && td.urb != null && forall i :: 0 <= i < |done| ==> Finished(home, done[i])
    ensures forall i :: 0 <= i < |[td] + done| ==> Finished(home[td := null], ([td] + done)[i])
  {
    forall i | 0 <= i < |[td] + done|
      ensures Finished(home[td := null], ([td] + done)[i])
    {
      assert i > 0 ==> Finished(home, done[i - 1]);
    }
  }

  lemma {:induction false} NotFinished(home: Homes, done: seq<Td>, td: Td)
    requires (forall i :: 0 <= i < |done| ==> Finished(home, done[i])) && !LivesIn(home, td, null)
    ensures NoneIs(done, td)
  {
    forall i | 0 <= i < |done|
      ensures done[i] != td
    {
      assert Finished(home, done[i]);
    }
  }

  /** The first descriptor of a queue goes to the front of the done list; an error halts the queue. */
  method RetireFirst(q: Queue, doneHead: Td?, cc: nat, ghost home: Homes, ghost done: seq<Td>) returns (td: Td)
    requires Content(q) && q.tds != [] && Lodged(home, q, q.tds, q.tail) && DoneOk(home, doneHead, done)
    modifies q`head, q`halted, q`tds, {q.tds[0]}`hwNextTD, {q.tds[0]}`cc
    ensures q.tds == old(q.tds)[1..] && td == old(q.tds)[0] && q.halted == (old(q.halted) || cc != 0)
    ensures Content(q) && Lodged(home[td := null], q, q.tds, q.tail) && DoneOk(home[td := null], td, [td] + done)
  {
    ghost var tds := q.tds;
    assert OwnedBy(q, tds[0]) && LivesIn(home, tds[0], q);
    td := Leave(q);
    LodgedRest(home, q, tds, q.tail);
    LodgedStill(home, q, q.tds, q.tail, td, null);
    NotFinished(home, done, td);
    FinishedStill(home, done, td);
    PushDone(td, doneHead, done);
    td.cc := cc;
    q.halted := q.halted || cc != 0;
  }

  /** Sets the done list register. */
  method Record(qs: Queues, head: Td?, ghost done: seq<Td>, ghost home: Homes)
    requires (forall q :: q in qs.of.Values ==> qs.Has(q) && Settled(home, q)) && DoneOk(home, head, done)
    modifies qs`doneHead, qs`done, qs`home
    ensures qs.Valid() && qs.done == done && qs.home == home
  {
    qs.doneHead, qs.done, qs.home := head, done, home;
    forall q | q in qs.of.Values
      ensures qs.QueueOk(q)
    {
      assert Settled(home, q) == old(Settled(home, q));
    }
  }

  /** The controller is finished with the first descriptor of a queue. */
  method Retire(qs: Queues, q: Queue, cc: nat)
    requires qs.Valid() && qs.Has(q) && q.tds != []
    modifies qs`doneHead, qs`done, qs`home, q`head, q`halted, q`tds, {q.tds[0]}`hwNextTD, {q.tds[0]}`cc
    ensures qs.Valid()
    ensures q.tds == old(q.tds)[1..] && qs.done == [old(q.tds)[0]] + old(qs.done)
    ensures q.halted == (old(q.halted) || cc != 0)
  {
    assert q in qs.of.Values;
    assert qs.QueueOk(q);
    ghost var first, home := q.tds[0], qs.home;
    ghost var moved := home[first := null];
    assert LivesIn(home, first, q);
    forall r | r in qs.of.Values && r != q
      ensures Foreign(r, first) && Settled(moved, r)
    {
      assert qs.QueueOk(r);
      LivesElsewhere(home, r, first, q);
      LodgedStill(home, r, r.tds, r.tail, first, null);
    }
    var td := RetireFirst(q, qs.doneHead, cc, home, qs.done);
    forall r | r in qs.of.Values
      ensures Settled(moved, r)
    {
      if r != q {
        assert old(Foreign(r, first));
        assert Settled(moved, r) == old(Settled(moved, r));
      }
    }
    Record(qs, td, [td] + qs.done, moved);
  }

  // ---------- the driver

  /** The homes when all of tds have moved into q. */
  ghost function MovedIn(home: Homes, tds: seq<Td>, q: Queue): Homes {
    if tds == [] then home else MovedIn(home, tds[..|tds| - 1], q)[tds[|tds| - 1] := q]
  }

  lemma {:induction false} MovedInAt(home: Homes, tds: seq<Td>, q: Queue, td: Td, p: Queue?)
    ensures LivesIn(MovedIn(home, tds, q), td, p) <==> if td in tds then p == q else LivesIn(home, td, p)
  {
    if tds != [] {
      MovedInAt(home, tds[..|tds| - 1], q, td, p);
      assert tds == tds[..|tds| - 1] + [tds[|tds| - 1]];
    }
  }

  /** None of the descriptors is in the queue. */
  ghost predicate AllForeign(q: Queue, tds: seq<Td>)
    reads q`tds, q`tail
  {
    forall i :: 0 <= i < |tds| ==> Foreign(q, tds[i])
  }

  ghost predicate NoneOf(done: seq<Td>, tds: seq<Td>) {
    forall i :: 0 <= i < |tds| ==> NoneIs(done, tds[i])
  }

  /** The request's descriptors are all different, and neither in a queue nor on the done list. */
  ghost predicate Spare(qs: Queues, u: Urb)
    reads qs, qs.of.Values`tds, qs.of.Values`tail, u.td
  {
    && Distinct(u.td[..])
    && (forall q :: q in qs.of.Values ==> AllForeign(q, u.td[..]))
    && NoneOf(qs.done, u.td[..])
  }

  lemma {:induction false} SpareIsReady(q: Queue, u: Urb)
    requires q.Valid() && Distinct(u.td[..]) && AllForeign(q, u.td[..])
    ensures Ready(q, u)
  {
    var spare, n := u.td[..], |q.tds|;
    var s := q.tds + Order(q.tail, spare);
    forall i, j | 0 <= i < j < |s|
      ensures Differ(s, i, j)
    {
      if j <= n {
        assert Differ(q.tds + [q.tail], i, j);
      } else {
        assert Foreign(q, spare[j - n - 1]);
        if i > n {
          assert Differ(spare, i - n - 1, j - n - 1);
        }
      }
    }
  }

  lemma {:induction false} PartsDiffer(tds: seq<Td>, o: seq<Td>)
    requires Distinct(tds + o)
    ensures forall i :: 0 <= i < |tds| ==> tds[i] !in o
  {
    forall i, j | 0 <= i < |tds| && 0 <= j < |o|
      ensures tds[i] != o[j]
    {
      assert (tds + o)[i] == tds[i] && (tds + o)[|tds| + j] == o[j];
      assert Differ(tds + o, i, |tds| + j);
    }
  }

  lemma {:induction false} OwnedAfter(q: Queue, u: Urb, tds: seq<Td>, o: seq<Td>, jobs: seq<Job>, cnt: nat)
    requires AllOwned(q, tds) && FilledUpTo(o, q, u, jobs, cnt)
    ensures AllOwned(q, tds + o[..cnt])
  {
    var s := tds + o[..cnt];
    forall i | 0 <= i < |s|
      ensures OwnedBy(q, s[i])
    {
      if i < |tds| {
        assert OwnedBy(q, tds[i]);
      } else {
        assert FilledAt(o, q, u, jobs, i - |tds|);
      }
    }
  }

  /** The part that queue q itself has in a submission. */
  method FillFor(q: Queue, u: Urb, t: Requests.Transfer, ghost home: Homes) returns (cnt: nat)
    requires Settled(home, q) && Ready(q, u) && u.td.Length == Requests.Reserved(t)
    modifies q`tail, q`tds, u`count, u.td, q.tail, u.td[..]
    ensures 0 < cnt <= |old(u.td[..])| && q.tds == old(q.tds) + old(Order(q.tail, u.td[..]))[..cnt]
    ensures Settled(MovedIn(home, Used(old(q.tail), old(u.td[..]), cnt), q), q)
  {
    ghost var tds, o := q.tds, Order(q.tail, u.td[..]);
    PartsDiffer(tds, o);
    cnt := Requests.SubmitTo(q, u, t);
    assert AllOwned(q, tds) == old(AllOwned(q, tds));
    OwnedAfter(q, u, tds, o, Requests.JobsOf(t), cnt);
    LodgedAfter(home, q, tds, o, cnt);
  }

  lemma {:induction false} LodgedAfter(home: Homes, q: Queue, tds: seq<Td>, o: seq<Td>, cnt: nat)
    requires cnt < |o| && forall i :: 0 <= i < |tds| ==> LivesIn(home, tds[i], q)
    ensures Lodged(MovedIn(home, o[..cnt + 1], q), q, tds + o[..cnt], o[cnt])
  {
    var s, moved := o[..cnt + 1], MovedIn(home, o[..cnt + 1], q);
    assert s[cnt] == o[cnt];
    MovedInAt(home, s, q, o[cnt], q);
    forall i | 0 <= i < |tds + o[..cnt]|
      ensures LivesIn(moved, (tds + o[..cnt])[i], q)
    {
      MovedInAt(home, s, q, (tds + o[..cnt])[i], q);
      if i >= |tds| {
        assert s[i - |tds|] == o[i - |tds|];
      }
    }
  }

  /** Another queue does not notice. */
  lemma {:induction false} LodgedApart(home: Homes, r: Queue, tds: seq<Td>, q: Queue)
    requires Lodged(home, r, r.tds, r.tail) && AllForeign(r, tds)
    ensures Lodged(MovedIn(home, tds, q), r, r.tds, r.tail)
  {
    forall i | 0 <= i < |tds|
      ensures tds[i] != r.tail && forall k :: 0 <= k < |r.tds| ==> r.tds[k] != tds[i]
    {
      assert Foreign(r, tds[i]);
    }
    MovedInAt(home, tds, q, r.tail, r);
    forall i | 0 <= i < |r.tds|
      ensures LivesIn(MovedIn(home, tds, q), r.tds[i], r)
    {
      assert LivesIn(home, r.tds[i], r);
      MovedInAt(home, tds, q, r.tds[i], r);
    }
  }

  lemma {:induction false} DoneApart(home: Homes, done: seq<Td>, head: Td?, tds: seq<Td>, q: Queue)
    requires DoneOk(home, head, done) && NoneOf(done, tds)
    ensures DoneOk(MovedIn(home, tds, q), head, done)
  {
    forall i | 0 <= i < |done|
      ensures Finished(MovedIn(home, tds, q), done[i])
    {
      assert Finished(home, done[i]);
      forall k | 0 <= k < |tds|
        ensures tds[k] != done[i]
      {
        assert NoneIs(done, tds[k]);
      }
      MovedInAt(home, tds, q, done[i], null);
    }
  }

  /** The descriptors that are filled, and the new dummy. */
  ghost function Used(tail: Td, spare: seq<Td>, cnt: nat): seq<Td>
    requires cnt <= |spare|
  {
    Order(tail, spare)[..cnt + 1]
  }

  /** Another queue's descriptors stay where they are. */
  lemma {:induction false} OthersStay(home: Homes, r: Queue, q: Queue, tail: Td, spare: seq<Td>, cnt: nat)
    requires Lodged(home, r, r.tds, r.tail) && Untouched(r, tail, spare) && cnt <= |spare|
    ensures Lodged(MovedIn(home, Used(tail, spare, cnt), q), r, r.tds, r.tail)
  {
    var used := Used(tail, spare, cnt);
    forall i | 0 <= i < |used|
      ensures Foreign(r, used[i])
    {
      assert i > 0 ==> Foreign(r, spare[i - 1]);
    }
    LodgedApart(home, r, used, q);
  }

  lemma {:induction false} DoneStays(home: Homes, done: seq<Td>, head: Td?, q: Queue, tail: Td, spare: seq<Td>,
                                     cnt: nat)
    requires DoneOk(home, head, done) && LivesIn(home, tail, q) && NoneOf(done, spare) && cnt <= |spare|
    ensures DoneOk(MovedIn(home, Used(tail, spare, cnt), q), head, done)
  {
    NotFinished(home, done, tail);
    var used := Used(tail, spare, cnt);
    forall i | 0 <= i < |used|
      ensures NoneIs(done, used[i])
    {
      assert i > 0 ==> NoneIs(done, spare[i - 1]);
    }
    DoneApart(home, done, head, used, q);
  }

  /** A queue that has none of the descriptors is not touched by filling them. */
  ghost predicate Untouched(q: Queue, tail: Td, spare: seq<Td>)
    reads q`tds, q`tail
  {
    Foreign(q, tail) && AllForeign(q, spare)
  }

  /** Filling the request's descriptors leaves the other queues and the done list alone. */
  method FillBeside(qs: Queues, q: Queue, u: Urb, t: Requests.Transfer) returns (cnt: nat)
    requires qs.Valid() && qs.Has(q) && Spare(qs, u) && u.td.Length == Requests.Reserved(t)
    modifies q`tail, q`tds, u`count, u.td, q.tail, u.td[..]
    ensures 0 < cnt <= |old(u.td[..])| && q.tds == old(q.tds) + old(Order(q.tail, u.td[..]))[..cnt]
    ensures forall r :: r in qs.of.Values && r != q ==> Settled(qs.home, r) && Untouched(r, old(q.tail), old(u.td[..]))
    ensures Settled(MovedIn(qs.home, Used(old(q.tail), old(u.td[..]), cnt), q), q)
    ensures DoneOk(qs.home, qs.doneHead, qs.done)
  {
    assert q in qs.of.Values;
    assert qs.QueueOk(q);
    ghost var tail, spare, home := q.tail, u.td[..], qs.home;
    SpareIsReady(q, u);
    forall r | r in qs.of.Values && r != q
      ensures Settled(home, r) && Untouched(r, tail, spare)
    {
      assert qs.QueueOk(r);
      LivesElsewhere(home, r, tail, q);
    }
    NotFinished(home, qs.done, tail);
    cnt := FillFor(q, u, t, home);
    forall r | r in qs.of.Values && r != q
      ensures Settled(home, r) && Untouched(r, tail, spare)
    {
      assert old(Untouched(r, tail, spare));
      assert Untouched(r, tail, spare) == old(Untouched(r, tail, spare));
      assert Settled(home, r) == old(Settled(home, r));
    }
    assert DoneOk(home, qs.doneHead, qs.done) == old(DoneOk(qs.home, qs.doneHead, qs.done));
  }

  /** A request joins the queue of its endpoint. */
  method Accept(qs: Queues, q: Queue, u: Urb, t: Requests.Transfer) returns (cnt: nat)
    requires qs.Valid() && qs.Has(q) && Spare(qs, u) && u.td.Length == Requests.Reserved(t)
    modifies qs`home, q`tail, q`tds, u`count, u.td, q.tail, u.td[..]
    ensures qs.Valid() && 0 < cnt <= |old(u.td[..])|
    ensures q.tds == old(q.tds) + old(Order(q.tail, u.td[..]))[..cnt]
  {
    assert q in qs.of.Values;
    assert qs.QueueOk(q);
    ghost var tail, spare := q.tail, u.td[..];
    cnt := FillBeside(qs, q, u, t);
    ghost var moved := MovedIn(qs.home, Used(tail, spare, cnt), q);
    forall r | r in qs.of.Values
      ensures qs.Has(r) && Settled(moved, r)
    {
      assert old(qs.QueueOk(r));
      if r != q {
        OthersStay(qs.home, r, q, tail, spare, cnt);
      }
    }
    DoneStays(qs.home, qs.done, qs.doneHead, q, tail, spare, cnt);
    Rehome(qs, moved);
  }

  method Rehome(qs: Queues, ghost home: Homes)
    requires (forall q :: q in qs.of.Values ==> qs.Has(q) && Settled(home, q)) && DoneOk(home, qs.doneHead, qs.done)
    modifies qs`home
    ensures qs.Valid() && qs.home == home
  {
    qs.home := home;
    forall q | q in qs.of.Values
      ensures qs.QueueOk(q)
    {
      assert Settled(home, q) == old(Settled(home, q));
    }
  }

  /** A new endpoint gets a dummy, so its queue is empty. */
  method Renew(qs: Queues, q: Queue, dummy: Td)
    requires qs.Valid() && qs.Has(q) && q.tds == []
    requires (forall r :: r in qs.of.Values ==> Foreign(r, dummy)) && NoneIs(qs.done, dummy)
    modifies qs`home, q`head, q`tail, q`halted, q`toggle, dummy`hwNextTD
    ensures qs.Valid() && q.tail == dummy
  {
    assert q in qs.of.Values;
    ghost var home := qs.home;
    ghost var moved := MovedIn(home, [dummy], q);
    forall r | r in qs.of.Values
      ensures Settled(home, r) && Foreign(r, dummy) && (r != q ==> Lodged(moved, r, r.tds, r.tail))
    {
      assert qs.QueueOk(r);
      if r != q {
        LodgedApart(home, r, [dummy], q);
      }
    }
    dummy.hwNextTD := null;
    q.tail, q.head := dummy, dummy;
    q.halted, q.toggle := false, false;
    MovedInAt(home, [dummy], q, dummy, q);
    forall r | r in qs.of.Values
      ensures Settled(moved, r)
    {
      if r != q {
        assert old(Foreign(r, dummy));
        assert Content(r) == old(Content(r));
      }
    }
    DoneApart(home, qs.done, qs.doneHead, [dummy], q);
    Rehome(qs, moved);
  }

  /** The requests of a queue's descriptors. */
  ghost function UrbList(q: Queue, tds: seq<Td>): seq<Urb>
    requires AllOwned(q, tds)
    reads (set td | td in tds)`queue, (set td | td in tds)`urb
  {
    if tds == [] then []
    else
      assert OwnedBy(q, tds[|tds| - 1]);
      assert forall i :: 0 <= i < |tds| - 1 ==> OwnedBy(q, tds[i]) ==> OwnedBy(q, tds[..|tds| - 1][i]);
      UrbList(q, tds[..|tds| - 1]) + [tds[|tds| - 1].urb]
  }

  lemma {:induction false} UrbListIs(q: Queue, tds: seq<Td>)
    requires AllOwned(q, tds)
    ensures UrbsOf(tds, UrbList(q, tds))
  {
    if tds != [] {
      var less := tds[..|tds| - 1];
      forall i | 0 <= i < |less|
        ensures OwnedBy(q, less[i])
      {
        assert OwnedBy(q, tds[i]);
      }
      UrbListIs(q, less);
      forall i | 0 <= i < |tds|
        ensures HasUrb(tds, UrbList(q, tds), i)
      {
        assert i < |less| ==> HasUrb(less, UrbList(q, less), i);
      }
    }
  }

  ghost predicate Subset(a: seq<Td>, b: seq<Td>) {
    forall td :: td in a ==> td in b
  }

  lemma {:induction false} SubsetSettled(home: Homes, q: Queue, tds: seq<Td>, tail: Td, less: seq<Td>)
    requires Lodged(home, q, tds, tail) && AllOwned(q, tds) && Subset(less, tds)
    ensures Lodged(home, q, less, tail) && AllOwned(q, less)
  {
    forall i | 0 <= i < |less|
      ensures LivesIn(home, less[i], q) && OwnedBy(q, less[i])
    {
      assert less[i] in less;
      var k :| 0 <= k < |tds| && tds[k] == less[i];
      assert LivesIn(home, tds[k], q) && OwnedBy(q, tds[k]);
    }
  }

  lemma {:induction false} KeptSubset(tds: seq<Td>, us: seq<Urb>, doomed: set<Urb>, n: nat)
    requires n <= |tds| == |us|
    ensures Subset(Kept(tds, us, doomed, n), tds)
  {
    if n > 0 {
      KeptSubset(tds, us, doomed, n - 1);
    }
  }

  /** What the pass keeps are the descriptors of requests that are not doomed. */
  lemma {:induction false} KeptIff(tds: seq<Td>, us: seq<Urb>, doomed: set<Urb>, td: Td)
    requires UrbsOf(tds, us)
    ensures td in Kept(tds, us, doomed, |us|) <==> td in tds && td.urb !in doomed
  {
    KeptBelongs(tds, us, doomed, |us|, td);
    if td in tds {
      var i :| 0 <= i < |tds| && tds[i] == td;
      assert HasUrb(tds, us, i);
      forall k | 0 <= k < |tds| && tds[k] == td
        ensures us[k] == td.urb
      {
        assert HasUrb(tds, us, k);
      }
    }
  }

  /** The request of a queued descriptor is withdrawn. */
  ghost predicate Withdrawn(td: Td)
    reads td`urb, (if td.urb == null then {} else {td.urb})`deleted
  {
    td.urb != null && td.urb.deleted
  }

  lemma {:induction false} DoomedIff(tds: seq<Td>, us: seq<Urb>, all: bool, td: Td)
    requires UrbsOf(tds, us) && td in tds && td.urb != null
    ensures td.urb in Doomed(us, all) <==> all || Withdrawn(td)
  {
    var i :| 0 <= i < |tds| && tds[i] == td;
    assert HasUrb(tds, us, i) && us[i] in us;
  }

  /** The descriptors that stay, in order. */
  ghost function Survivors(tds: seq<Td>, all: bool): seq<Td>
    reads (set td | td in tds)`urb, (set td | td in tds && td.urb != null :: td.urb)`deleted
  {
    if tds == [] then []
    else
      var td := tds[|tds| - 1];
      Survivors(tds[..|tds| - 1], all) + if all || Withdrawn(td) then [] else [td]
  }

  /** The requests of those that go, one for each descriptor. */
  ghost function TakenUrbs(tds: seq<Td>, all: bool): seq<Urb>
    reads (set td | td in tds)`urb, (set td | td in tds && td.urb != null :: td.urb)`deleted
  {
    if tds == [] then []
    else
      var td := tds[|tds| - 1];
      TakenUrbs(tds[..|tds| - 1], all) + if td.urb != null && (all || Withdrawn(td)) then [td.urb] else []
  }

  /** The completion calls: one for each that goes and whose request was withdrawn without waiting. */
  function CallsOf(taken: seq<Urb>): seq<Urb> {
    if taken == [] then []
    else CallsOf(taken[..|taken| - 1]) + if taken[|taken| - 1].asyncUnlink then [taken[|taken| - 1]] else []
  }

  lemma {:induction false} CallsSum(a: seq<Urb>, b: seq<Urb>)
    ensures CallsOf(a + b) == CallsOf(a) + CallsOf(b)
  {
    if b == [] {
      assert a + b == a;
    } else {
      assert (a + b)[..|a + b| - 1] == a + b[..|b| - 1];
      CallsSum(a, b[..|b| - 1]);
    }
  }

  lemma {:induction false} TimesFront(a: seq<Urb>, b: seq<Urb>, u: Urb, n: nat)
    requires n <= |a|
    ensures Times(a + b, u, n) == Times(a, u, n)
  {
    if n > 0 {
      TimesFront(a, b, u, n - 1);
    }
  }

  lemma {:induction false} TimesOfSum(a: seq<Urb>, b: seq<Urb>, u: Urb, n: nat)
    requires n <= |b|
    ensures Times(a + b, u, |a| + n) == Times(a, u, |a|) + Times(b, u, n)
  {
    if n == 0 {
      TimesFront(a, b, u, |a|);
    } else {
      TimesOfSum(a, b, u, n - 1);
    }
  }

  /** The requests that occur among the doomed ones of the first n. */
  ghost function Taken(us: seq<Urb>, doomed: set<Urb>, n: nat): seq<Urb>
    requires n <= |us|
  {
    if n == 0 then [] else Taken(us, doomed, n - 1) + if us[n - 1] in doomed then [us[n - 1]] else []
  }

  lemma {:induction false} CallsOfTaken(us: seq<Urb>, doomed: set<Urb>, n: nat)
    requires n <= |us|
    ensures CallsOf(Taken(us, doomed, n)) == Calls(us, doomed, n)
  {
    if n > 0 {
      CallsOfTaken(us, doomed, n - 1);
      var taken, u := Taken(us, doomed, n - 1), us[n - 1];
      if u in doomed {
        assert (taken + [u])[..|taken|] == taken;
      } else {
        assert taken + [] == taken;
      }
    }
  }

  lemma {:induction false} TimesOfTaken(us: seq<Urb>, doomed: set<Urb>, n: nat, u: Urb)
    requires n <= |us|
    ensures var taken := Taken(us, doomed, n);
            Times(taken, u, |taken|) == if u in doomed then Times(us, u, n) else 0
  {
    if n > 0 {
      TimesOfTaken(us, doomed, n - 1, u);
      var taken, v := Taken(us, doomed, n - 1), us[n - 1];
      if v in doomed {
        TimesFront(taken, [v], u, |taken|);
      } else {
        assert taken + [] == taken;
      }
    }
  }

  /** What the loop keeps and takes, in terms of the descriptors alone. */
  lemma {:induction false} AsKept(q: Queue, tds: seq<Td>, us: seq<Urb>, all: bool, n: nat)
    requires UrbsOf(tds, us) && AllOwned(q, tds) && n <= |tds|
    ensures Kept(tds, us, Doomed(us, all), n) == Survivors(tds[..n], all)
    ensures Taken(us, Doomed(us, all), n) == TakenUrbs(tds[..n], all)
  {
    if n > 0 {
      AsKept(q, tds, us, all, n - 1);
      assert OwnedBy(q, tds[n - 1]) && HasUrb(tds, us, n - 1);
      assert tds[..n][..n - 1] == tds[..n - 1];
      DoomedIff(tds, us, all, tds[n - 1]);
    }
  }

  lemma {:induction false} KeptSettled(home: Homes, q: Queue, us: seq<Urb>, all: bool)
    requires Settled(home, q) && UrbsOf(q.tds, us)
    ensures var kept := Kept(q.tds, us, Doomed(us, all), |us|);
            && kept == Survivors(q.tds, all) && Lodged(home, q, kept, q.tail) && AllOwned(q, kept)
            && forall td :: td in kept <==> td in q.tds && !all && !Withdrawn(td)
    ensures Calls(us, Doomed(us, all), |us|) == CallsOf(TakenUrbs(q.tds, all))
  {
    var tds, doomed := q.tds, Doomed(us, all);
    forall td | td in tds
      ensures td.urb in doomed <==> all || Withdrawn(td)
    {
      var i :| 0 <= i < |tds| && tds[i] == td;
      assert OwnedBy(q, tds[i]);
      DoomedIff(tds, us, all, td);
    }
    forall td: Td
      ensures td in Kept(tds, us, doomed, |us|) <==> td in tds && !all && !Withdrawn(td)
    {
      KeptIff(tds, us, doomed, td);
    }
    KeptSubset(tds, us, doomed, |us|);
    SubsetSettled(home, q, tds, q.tail, Kept(tds, us, doomed, |us|));
    AsKept(q, tds, us, all, |us|);
    CallsOfTaken(us, doomed, |us|);
    assert tds[..|us|] == tds;
  }

  /** Every request has been counted once for each of its descriptors among those taken out, and freed when its count
      came to its length; counts and freed are what was before. */
  ghost predicate Tallied(urbs: set<Urb>, counts: map<Urb, nat>, freed: set<Urb>, taken: seq<Urb>)
    reads urbs`count, urbs`freed
  {
    forall u :: u in urbs ==> TalliedAt(counts, freed, taken, u)
  }

  ghost predicate TalliedAt(counts: map<Urb, nat>, freed: set<Urb>, taken: seq<Urb>, u: Urb)
    reads u`count, u`freed
  {
    && u in counts && u.count == counts[u] + Times(taken, u, |taken|)
    && (u.freed <==> u in freed || counts[u] < u.td.Length <= u.count)
  }

  /** The descriptors of withdrawn requests, or all of them, leave the queue. */
  method DeleteIn(q: Queue, all: bool, ghost home: Homes, ghost us: seq<Urb>) returns (called: seq<Urb>)
    requires Settled(home, q) && UrbsOf(q.tds, us)
    modifies q`head, q`tds, (set t | t in q.tds)`hwNextTD, (set u | u in us)`count, (set u | u in us)`freed
    ensures Settled(home, q) && q.tds == old(Survivors(q.tds, all)) && called == CallsOf(old(TakenUrbs(q.tds, all)))
    ensures forall td :: td in q.tds <==> td in old(q.tds) && !all && !old(Withdrawn(td))
    ensures UrbsAfter(us, old(Doomed(us, all)), old(map u | u in us :: u.count), old(set u | u in us && u.freed), |us|)
  {
    KeptSettled(home, q, us, all);
    ghost var kept := Kept(q.tds, us, Doomed(us, all), |us|);
    called := DeleteFrom(q, all, us, map u | u in us :: u.count, set u | u in us && u.freed);
    assert AllOwned(q, kept);
  }

  /** The descriptors of withdrawn requests, or all of them, leave one of the queues. */
  method DeleteAt(qs: Queues, q: Queue, all: bool, ghost us: seq<Urb>) returns (called: seq<Urb>)
    requires qs.Valid() && qs.Has(q) && UrbsOf(q.tds, us)
    modifies q`head, q`tds, (set t | t in q.tds)`hwNextTD, (set u | u in us)`count, (set u | u in us)`freed
    ensures qs.Valid() && q.tds == old(Survivors(q.tds, all)) && called == CallsOf(old(TakenUrbs(q.tds, all)))
    ensures UrbsAfter(us, old(Doomed(us, all)), old(map u | u in us :: u.count), old(set u | u in us && u.freed), |us|)
    ensures forall td :: td in q.tds <==> td in old(q.tds) && !all && !old(Withdrawn(td))
  {
    assert q in qs.of.Values;
    assert qs.QueueOk(q);
    ghost var tds := q.tds;
    forall r | r in qs.of.Values && r != q
      ensures Settled(qs.home, r) && AllForeign(r, tds)
    {
      assert qs.QueueOk(r);
      forall i | 0 <= i < |tds|
        ensures Foreign(r, tds[i])
      {
        assert LivesIn(qs.home, tds[i], q);
        LivesElsewhere(qs.home, r, tds[i], q);
      }
    }
    forall i | 0 <= i < |tds|
      ensures NoneIs(qs.done, tds[i])
    {
      assert LivesIn(qs.home, tds[i], q);
      NotFinished(qs.home, qs.done, tds[i]);
    }
    called := DeleteIn(q, all, qs.home, us);
    forall r | r in qs.of.Values
      ensures qs.QueueOk(r)
    {
      if r != q {
        assert old(AllForeign(r, tds));
        assert Settled(qs.home, r) == old(Settled(qs.home, r));
      }
    }
    assert DoneOk(qs.home, qs.doneHead, qs.done) == old(DoneOk(qs.home, qs.doneHead, qs.done));
  }

  /** A failed descriptor's queue goes on behind its request, if what the request's last descriptor leads to is
      queued. */
  method ReleaseIn(q: Queue, td: Td, u: Urb, ghost home: Homes)
    requires Settled(home, q) && td.cc != 0 && (CutsShort(td, q, u) ==> Lands(q.tds, q.tail, NextOfLast(u)))
    modifies q`head, q`halted, q`tds, u`count
    ensures Settled(home, q) && Subset(q.tds, old(q.tds)) && Outcome(td, q, u, old(Look(td, q, u)))
  {
    ghost var tds, was := q.tds, Look(td, q, u);
    if was.cut {
      var k := StartIsSuffix(tds, NextOfLast(u));
      SubsetSettled(home, q, tds, q.tail, StartingAt(tds, NextOfLast(u)));
    }
    Release(td, q, u);
  }

  method ReleaseAt(qs: Queues, q: Queue, td: Td, u: Urb)
    requires qs.Valid() && qs.Has(q) && td.cc != 0 && (CutsShort(td, q, u) ==> Lands(q.tds, q.tail, NextOfLast(u)))
    modifies q`head, q`halted, q`tds, u`count
    ensures qs.Valid() && Subset(q.tds, old(q.tds)) && Outcome(td, q, u, old(Look(td, q, u)))
  {
    assert q in qs.of.Values;
    assert qs.QueueOk(q);
    ReleaseIn(q, td, u, qs.home);
    forall r | r in qs.of.Values
      ensures qs.QueueOk(r)
    {
      assert r != q ==> Settled(qs.home, r) == old(Settled(qs.home, r)) && old(qs.QueueOk(r));
    }
  }

  /** The driver takes the done list over. */
  method TakeDone(qs: Queues) returns (list: Td?)
    requires qs.Valid()
    modifies qs`doneHead, qs`done, qs`home
    ensures qs.Valid() && qs.done == [] && DoneChain(old(qs.done))
    ensures list == if old(qs.done) == [] then null else old(qs.done)[0]
  {
    forall q | q in qs.of.Values
      ensures qs.Has(q)
    {
      assert qs.QueueOk(q);
    }
    list := qs.doneHead;
    Record(qs, null, [], qs.home);
  }
}

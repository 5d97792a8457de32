/** The control list and the bulk list of a controller: a doubly linked list whose forward links the
    hardware follows.

    An unlinked endpoint keeps its forward link, so that the hardware can finish with it.  That link may
    grow stale; following links nevertheless always ends, because a link only ever leads to an endpoint
    that was linked later. */
module AsyncList {
  import opened OhciTypes
  import opened Sequences

  ghost predicate Forward(eds: seq<Ed>, i: nat)
    requires i < |eds|
    reads {eds[i]}`hwNextED
  {
    eds[i].hwNextED == At(eds, i + 1, null)
  }

  ghost predicate Backward(eds: seq<Ed>, i: nat)
    requires i < |eds|
    reads {eds[i]}`edPrev
  {
    eds[i].edPrev == At(eds, i - 1, null)
  }

  ghost predicate ForwardLinks(eds: seq<Ed>)
    reads (set ed | ed in eds)`hwNextED
  {
    forall i :: 0 <= i < |eds| ==> Forward(eds, i)
  }

  ghost predicate BackwardLinks(eds: seq<Ed>)
    reads (set ed | ed in eds)`edPrev
  {
    forall i :: 0 <= i < |eds| ==> Backward(eds, i)
  }

  /** The forward link of ed leads to an endpoint that was linked after ed, or nowhere. */
  ghost predicate LeadsLater(ed: Ed, linkedAt: map<Ed, nat>)
    requires ed in linkedAt
    reads ed`hwNextED
  {
    ed.hwNextED == null || (ed.hwNextED in linkedAt && linkedAt[ed.hwNextED] > linkedAt[ed])
  }

  class List {
    /** The hardware's head register, 0 as null. */
    var head: Ed?
    var tail: Ed?
    ghost var eds: seq<Ed>
    /** For every endpoint ever linked, when it was last linked. */
    ghost var linkedAt: map<Ed, nat>
    ghost var clock: nat

    ghost predicate Known()
      reads this
    {
      && Distinct(eds)
      && (forall ed :: ed in eds ==> ed in linkedAt)
      && (forall ed :: ed in linkedAt ==> linkedAt[ed] < clock)
    }

    ghost predicate Ranked()
      reads this, linkedAt.Keys`hwNextED
    {
      forall ed :: ed in linkedAt ==> LeadsLater(ed, linkedAt)
    }

    ghost predicate Valid()
      reads this, linkedAt.Keys`hwNextED, (set e | e in eds)`hwNextED, (set e | e in eds)`edPrev
    {
      && Known()
      && head == At(eds, 0, null)
      && tail == At(eds, |eds| - 1, null)
      && ForwardLinks(eds)
      && BackwardLinks(eds)
      && Ranked()
    }

    constructor ()
      ensures Valid() && eds == [] && linkedAt == map[]
    {
      head, tail, eds, linkedAt, clock := null, null, [], map[], 0;
    }

    /** Appends an endpoint. */
    method Link(ed: Ed)
      requires Valid() && ed !in eds
      modifies this, ed`state, ed`hwNextED, ed`edPrev, (set e | e in eds)`hwNextED
      ensures Valid() && eds == old(eds) + [ed]
      ensures linkedAt == old(linkedAt)[ed := old(clock)]
      ensures forall x :: x in old(linkedAt) && x != ed && x !in old(eds) ==> x.hwNextED == old(x.hwNextED)
      ensures ed.state == ED_OPER
    {
      ed.state := ED_OPER;
      ed.hwNextED := null;
      if tail == null {
        head := ed;
      } else {
        tail.hwNextED := ed;
      }
      ed.edPrev := tail;
      tail := ed;
      linkedAt, clock := linkedAt[ed := clock], clock + 1;
      eds := eds + [ed];
      forall i | 0 <= i < |eds|
        ensures Forward(eds, i)
      {
        if i < |eds| - 2 {
          assert old(Forward(eds, i));
          DistinctAt(old(eds), i, |eds| - 2);
        }
      }
      forall i | 0 <= i < |eds|
        ensures Backward(eds, i)
      {
        assert i < |eds| - 1 ==> old(Backward(eds, i));
      }
      forall i, j | 0 <= i < j < |eds|
        ensures Differ(eds, i, j)
      {
        if j < |eds| - 1 {
          DistinctAt(old(eds), i, j);
        }
      }
      forall e | e in linkedAt
        ensures LeadsLater(e, linkedAt)
      {
        assert e in old(linkedAt) ==> old(LeadsLater(e, linkedAt));
      }
    }

    /** The head register or the predecessor now leads past ed. */
    method LeadPast(ed: Ed, ghost x: nat)
      requires Valid() && x < |eds| && eds[x] == ed
      modifies `head, (set e | e in eds)`hwNextED, ed`skip
      ensures ForwardLinks(Without(eds, x)) && Ranked() && ed.skip
      ensures head == At(Without(eds, x), 0, null) && ed.hwNextED == old(ed.hwNextED) == At(eds, x + 1, null)
    {
      assert Forward(eds, x) && Backward(eds, x) && LeadsLater(ed, linkedAt);
      if x > 0 {
        assert Forward(eds, x - 1) && LeadsLater(eds[x - 1], linkedAt);
      }
      ed.skip := true;
      if ed.edPrev == null {
        head := ed.hwNextED;
      } else {
        ed.edPrev.hwNextED := ed.hwNextED;
      }
      forall i | 0 <= i < |Without(eds, x)|
        ensures Forward(Without(eds, x), i)
      {
        var k := if i < x then i else i + 1;
        assert old(Forward(eds, k));
        if x > 0 && k != x - 1 {
          DistinctAt(eds, k, x - 1);
          assert Forward(eds, k) == old(Forward(eds, k));
        }
      }
      forall e | e in linkedAt
        ensures LeadsLater(e, linkedAt)
      {
        assert old(LeadsLater(e, linkedAt));
      }
    }

    /** The tail or the successor now leads back past ed. */
    method LeadBackPast(ed: Ed, ghost x: nat)
      requires Distinct(eds) && BackwardLinks(eds) && x < |eds| && eds[x] == ed
      requires tail == At(eds, |eds| - 1, null) && ed.hwNextED == At(eds, x + 1, null)
      modifies `tail, (set e | e in eds)`edPrev, ed`state
      ensures ed.state == ED_UNLINK && BackwardLinks(Without(eds, x)) && tail == At(Without(eds, x), |eds| - 2, null)
    {
      assert Backward(eds, x);
      if x < |eds| - 1 {
        DistinctAt(eds, x, |eds| - 1);
      }
      if tail == ed {
        tail := ed.edPrev;
      } else {
        ed.hwNextED.edPrev := ed.edPrev;
      }
      ed.state := ED_UNLINK;
      forall i | 0 <= i < |Without(eds, x)|
        ensures Backward(Without(eds, x), i)
      {
        var k := if i < x then i else i + 1;
        assert old(Backward(eds, k));
        if x + 1 < |eds| && k != x + 1 {
          DistinctAt(eds, k, x + 1);
        }
      }
    }

    /** Takes an endpoint out of the list; its own forward link stays. */
    method Unlink(ed: Ed, ghost x: nat)
      requires Valid() && x < |eds| && eds[x] == ed
      modifies `head, `tail, `eds, ed`state, ed`skip, (set e | e in eds)`hwNextED, (set e | e in eds)`edPrev
      ensures Valid() && eds == Without(old(eds), x)
      ensures linkedAt == old(linkedAt) && ed.hwNextED == old(ed.hwNextED)
      ensures ed.state == ED_UNLINK && ed.skip
    {
      DistinctWithout(eds, x);
      LeadPast(ed, x);
      LeadBackPast(ed, x);
      eds := Without(eds, x);
    }

    /** From any endpoint that was ever linked, linked now or not, following the hardware's links ends. */
    lemma {:induction false} LinksEnd(p: Ed?) returns (path: seq<Ed>)
      requires Valid() && (p != null ==> p in linkedAt)
      ensures Path(p, path) && forall i :: 0 <= i < |path| ==> path[i] in linkedAt
      ensures forall i, j :: 0 <= i < j < |path| ==> linkedAt[path[i]] < linkedAt[path[j]]
      decreases if p == null then 0 else clock - linkedAt[p]
    {
      if p == null {
        path := [];
      } else {
        assert LeadsLater(p, linkedAt);
        var rest := LinksEnd(p.hwNextED);
        path := [p] + rest;
        assert path[1..] == rest;
        assert rest != [] ==> rest[0] == p.hwNextED;
      }
    }

    /** Once the hardware reaches a linked endpoint, it visits exactly the rest of the list. */
    lemma {:induction false} RestOfList(i: nat)
      requires Valid() && i <= |eds|
      ensures Path(if i < |eds| then eds[i] else null, eds[i..])
      decreases |eds| - i
    {
      if i < |eds| {
        RestOfList(i + 1);
        assert Forward(eds, i) && eds[i..][1..] == eds[i + 1..];
      }
    }
  }
}

/** The life of control and bulk endpoints: linked into a chain for a request, taken out when idle, withdrawn
    from, and freed.

    An endpoint's state byte is meant to say whether the controller's chain contains it.  That every operational
    endpoint is in its chain always holds; that no other one is does not.  The queues of the endpoints are added
    in Scheduling. */
module Endpoints {
  import opened OhciTypes
  import opened Sequences
  import opened AsyncList
  import opened Removal

  class Driver {
    const remover: Remover
    const control: List
    const bulk: List
    /** Endpoints that are in a chain although their state does not say so. */
    ghost var strays: set<Ed>

    function ChainOf(kind: Kind): List {
      if kind == CTRL then control else bulk
    }

    ghost predicate InChain(ed: Ed)
      reads control`eds, bulk`eds
    {
      ed in ChainOf(ed.kind).eds
    }

    /** All endpoints here are control or bulk endpoints, and each chain has those of its kind. */
    ghost predicate Kinds()
      reads control`eds, bulk`eds, control`linkedAt, bulk`linkedAt
    {
      && (forall ed :: ed in remover.eds ==> ed.kind == CTRL || ed.kind == BULK)
      && (forall ed :: ed in control.eds ==> ed in remover.eds)
      && (forall ed :: ed in bulk.eds ==> ed in remover.eds)
      && (forall ed :: ed in control.linkedAt ==> ed.kind == CTRL)
      && (forall ed :: ed in bulk.linkedAt ==> ed.kind == BULK)
    }

    /** An endpoint to be deleted is not operational. */
    ghost predicate StateOk(ed: Ed)
      reads ed`state
    {
      ed.state.del ==> ed.state.base == Absent
    }

    ghost predicate States()
      reads remover.eds`state
    {
      forall ed :: ed in remover.eds ==> StateOk(ed)
    }

    ghost predicate Valid()
      reads remover, remover.evenList, remover.oddList, remover.eds`state
      reads (set ed | ed in remover.evenList.eds)`edRmList, (set ed | ed in remover.oddList.eds)`edRmList
      reads control, control.linkedAt.Keys`hwNextED
      reads (set e | e in control.eds)`hwNextED, (set e | e in control.eds)`edPrev
      reads bulk, bulk.linkedAt.Keys`hwNextED
      reads (set e | e in bulk.eds)`hwNextED, (set e | e in bulk.eds)`edPrev
    {
      remover.Valid() && control != bulk && control.Valid() && bulk.Valid() && Kinds() && States()
    }

    /** An endpoint is in its chain if its state says so, or if it has strayed. */
    ghost predicate LinkedAt(ed: Ed)
      reads this`strays, control`eds, bulk`eds, ed`state
    {
      && (InChain(ed) <==> ed.state.base == Operational || ed in strays)
      && (ed in strays ==> ed.state.base != Operational)
    }

    ghost predicate Linked()
      reads this`strays, control`eds, bulk`eds, remover.eds`state
    {
      strays <= remover.eds && forall ed :: ed in remover.eds ==> LinkedAt(ed)
    }

    /** What always holds. */
    ghost predicate Sound()
      reads this`strays, remover, remover.evenList, remover.oddList, remover.eds`state
      reads (set ed | ed in remover.evenList.eds)`edRmList, (set ed | ed in remover.oddList.eds)`edRmList
      reads control, control.linkedAt.Keys`hwNextED
      reads (set e | e in control.eds)`hwNextED, (set e | e in control.eds)`edPrev
      reads bulk, bulk.linkedAt.Keys`hwNextED
      reads (set e | e in bulk.eds)`hwNextED, (set e | e in bulk.eds)`edPrev
    {
      Valid() && Linked()
    }

    /** The chains contain exactly the endpoints whose state says so. */
    ghost predicate InStep()
      reads control`eds, bulk`eds, remover.eds`state
    {
      forall ed :: ed in remover.eds ==> (InChain(ed) <==> ed.state.base == Operational)
    }

    lemma {:induction false} InStepIff()
      requires Linked()
      ensures InStep() <==> strays == {}
    {
      forall ed | ed in remover.eds
        ensures LinkedAt(ed)
      {
      }
      if ed :| ed in strays {
        assert LinkedAt(ed);
      }
    }

    constructor (ghost eds: set<Ed>)
      requires forall ed :: ed in eds ==> ed.state == ED_NEW && (ed.kind == CTRL || ed.kind == BULK)
      ensures Sound() && strays == {} && remover.eds == eds
      ensures fresh(remover) && fresh(remover.evenList) && fresh(remover.oddList) && fresh(control) && fresh(bulk)
    {
      remover := new Remover(eds);
      control := new List();
      bulk := new List();
      strays := {};
      new;
      forall ed | ed in remover.eds
        ensures StateOk(ed)
      {
      }
      forall ed | ed in remover.eds
        ensures LinkedAt(ed)
      {
      }
    }
  }

  /** Links an endpoint into its chain. */
  method LinkChain(d: Driver, ed: Ed)
    requires d.Valid() && ed in d.remover.eds && ed.state == ED_UNLINK && !d.InChain(ed)
    modifies d.ChainOf(ed.kind), ed`state, ed`hwNextED, ed`edPrev, (set e | e in d.ChainOf(ed.kind).eds)`hwNextED
    ensures d.Valid() && ed.state == ED_OPER
    ensures d.ChainOf(ed.kind).eds == old(d.ChainOf(ed.kind).eds) + [ed]
  {
    assert d.remover.StateOk(ed);
    d.ChainOf(ed.kind).Link(ed);
    forall e | e in d.remover.eds
      ensures d.remover.StateOk(e)
    {
      assert old(d.remover.StateOk(e));
    }
    forall e | e in d.remover.eds
      ensures d.StateOk(e)
    {
      assert old(d.StateOk(e));
    }
  }

  /** Takes an operational endpoint out of its chain. */
  method UnlinkChain(d: Driver, ed: Ed, ghost x: nat)
    requires d.Valid() && ed in d.remover.eds && ed.state == ED_OPER
    requires x < |d.ChainOf(ed.kind).eds| && d.ChainOf(ed.kind).eds[x] == ed
    modifies d.ChainOf(ed.kind)`head, d.ChainOf(ed.kind)`tail, d.ChainOf(ed.kind)`eds, ed`state, ed`skip
    modifies (set e | e in d.ChainOf(ed.kind).eds)`hwNextED, (set e | e in d.ChainOf(ed.kind).eds)`edPrev
    ensures d.Valid() && ed.state == ED_UNLINK
    ensures d.ChainOf(ed.kind).eds == Without(old(d.ChainOf(ed.kind).eds), x)
  {
    assert d.remover.StateOk(ed);
    DistinctWithout(d.ChainOf(ed.kind).eds, x);
    d.ChainOf(ed.kind).Unlink(ed, x);
    forall e | e in d.remover.eds
      ensures d.remover.StateOk(e)
    {
      assert old(d.remover.StateOk(e));
    }
    forall e | e in d.remover.eds
      ensures d.StateOk(e)
    {
      assert old(d.StateOk(e));
    }
  }

  lemma {:induction false} GoneWithout(eds: seq<Ed>, x: nat, e: Ed)
    requires Distinct(eds) && x < |eds|
    ensures e in Without(eds, x) <==> e in eds && e != eds[x]
  {
    if e in eds {
      var i :| 0 <= i < |eds| && eds[i] == e;
      if i != x {
        DistinctAt(eds, i, x);
        assert Without(eds, x)[if i < x then i else i - 1] == e;
      }
    }
    forall i | 0 <= i < |Without(eds, x)|
      ensures Without(eds, x)[i] != eds[x] && Without(eds, x)[i] in eds
    {
      DistinctAt(eds, if i < x then i else i + 1, x);
    }
  }

  // ---------- what the driver does to an endpoint

  /** The endpoint part of submitting a request: refused while a removal is pending; else a new endpoint becomes
      idle and one that is not operational is linked. */
  method Submit(d: Driver, ed: Ed) returns (ok: bool)
    requires d.Sound() && ed in d.remover.eds && ed !in d.strays
    modifies d.ChainOf(ed.kind), ed`state, ed`hwNextED, ed`edPrev, (set e | e in d.ChainOf(ed.kind).eds)`hwNextED
    ensures d.Sound()
    ensures ok <==> !old(Pending(ed.state))
    ensures ok ==> ed.state == ED_OPER && d.InChain(ed)
    ensures !ok ==> ed.state == old(ed.state)
  {
    if ed.state.del || ed.state.urbDel {
      return false;
    }
    assert d.remover.StateOk(ed) && d.StateOk(ed) && d.LinkedAt(ed);
    if ed.state == ED_NEW {
      Awake(d, ed);
    }
    if ed.state != ED_OPER {
      LinkChain(d, ed);
    }
    forall e | e in d.remover.eds
      ensures d.LinkedAt(e)
    {
      assert old(d.LinkedAt(e));
    }
    ok := true;
  }

  /** A new endpoint becomes idle. */
  method Awake(d: Driver, ed: Ed)
    requires d.Valid() && ed in d.remover.eds && ed.state == ED_NEW
    modifies ed`state
    ensures d.Valid() && ed.state == ED_UNLINK
  {
    assert d.remover.StateOk(ed);
    ed.state := ED_UNLINK;
    forall e | e in d.remover.eds
      ensures d.remover.StateOk(e)
    {
      assert e != ed ==> old(d.remover.StateOk(e));
    }
    forall e | e in d.remover.eds
      ensures d.StateOk(e)
    {
      assert old(d.StateOk(e));
    }
  }

  /** An endpoint whose state is exactly ED_OPER leaves its chain. */
  method LeaveChain(d: Driver, ed: Ed)
    requires d.Sound() && ed in d.remover.eds && ed.state == ED_OPER
    modifies d.ChainOf(ed.kind)`head, d.ChainOf(ed.kind)`tail, d.ChainOf(ed.kind)`eds, ed`state, ed`skip
    modifies (set e | e in d.ChainOf(ed.kind).eds)`hwNextED, (set e | e in d.ChainOf(ed.kind).eds)`edPrev
    ensures d.Sound() && ed.state == ED_UNLINK
    ensures forall e :: e in d.ChainOf(ed.kind).eds <==> e in old(d.ChainOf(ed.kind).eds) && e != ed
  {
    assert d.LinkedAt(ed);
    ghost var chain := d.ChainOf(ed.kind).eds;
    ghost var x :| 0 <= x < |chain| && chain[x] == ed;
    forall e: Ed
      ensures e in Without(chain, x) <==> e in chain && e != ed
    {
      GoneWithout(chain, x, e);
    }
    UnlinkChain(d, ed, x);
    forall e | e in d.remover.eds
      ensures d.LinkedAt(e)
    {
      assert old(d.LinkedAt(e));
    }
  }

  /** Puts the endpoint on a removal list unless it waits already, and gives it a state with a deletion bit. */
  method Withdraw(d: Driver, ed: Ed, state: EdState)
    requires d.Valid() && ed in d.remover.eds && Pending(state) && (state.del ==> state.base == Absent)
    modifies d.remover`ctrlOn, d.remover`bulkOn, d.remover`sofOn, d.remover`sofSeen, d.remover`since
    modifies d.remover.evenList, d.remover.oddList, ed`skip, ed`edRmList, ed`state
    ensures d.Valid() && ed.state == state
    ensures d.remover.since == if old(Pending(ed.state)) then old(d.remover.since)
                               else old(d.remover.since)[ed := d.remover.frame]
  {
    RemoveEd(d.remover, ed, state);
    forall e | e in d.remover.eds
      ensures d.StateOk(e)
    {
      assert e != ed ==> old(d.StateOk(e));
    }
  }

  /** A request of the endpoint is withdrawn. */
  method UnlinkUrb(d: Driver, ed: Ed)
    requires d.Sound() && ed in d.remover.eds
    modifies d.remover`ctrlOn, d.remover`bulkOn, d.remover`sofOn, d.remover`sofSeen, d.remover`since
    modifies d.remover.evenList, d.remover.oddList, ed`skip, ed`edRmList, ed`state
    ensures d.Sound() && ed.state == old(ed.state).(urbDel := true)
    ensures d.remover.since == if old(Pending(ed.state)) then old(d.remover.since)
                               else old(d.remover.since)[ed := d.remover.frame]
  {
    assert d.StateOk(ed);
    Withdraw(d, ed, ed.state.(urbDel := true));
    forall e | e in d.remover.eds
      ensures d.LinkedAt(e)
    {
      assert old(d.LinkedAt(e));
    }
  }

  /** The endpoint is to be freed.  It leaves its chain only if its state is exactly ED_OPER, so it strays exactly if
      it was operational with a removal pending. */
  method FreeEd(d: Driver, ed: Ed)
    requires d.Sound() && ed in d.remover.eds
    modifies d.remover`ctrlOn, d.remover`bulkOn, d.remover`sofOn, d.remover`sofSeen, d.remover`since, d`strays
    modifies d.remover.evenList, d.remover.oddList, ed`skip, ed`edRmList, ed`state
    modifies d.ChainOf(ed.kind)`head, d.ChainOf(ed.kind)`tail, d.ChainOf(ed.kind)`eds
    modifies (set e | e in d.ChainOf(ed.kind).eds)`hwNextED, (set e | e in d.ChainOf(ed.kind).eds)`edPrev
    ensures d.Sound()
    ensures ed.state == if old(ed.state) == ED_NEW then ED_NEW else ED_DEL
    ensures d.strays == old(d.strays) +
                        if old(ed.state).base == Operational && old(Pending(ed.state)) then {ed} else {}
    ensures d.remover.since == if old(Pending(ed.state)) || old(ed.state) == ED_NEW then old(d.remover.since)
                               else old(d.remover.since)[ed := d.remover.frame]
  {
    if ed.state == ED_NEW {
      return;
    }
    assert d.LinkedAt(ed);
    if ed.state == ED_OPER {
      LeaveChain(d, ed);
    }
    Doom(d, ed);
  }

  ghost predicate LinkedBut(d: Driver, eds: set<Ed>)
    reads d`strays, d.control`eds, d.bulk`eds, eds`state
  {
    forall e :: e in eds ==> d.LinkedAt(e)
  }

  method WithdrawBeside(d: Driver, ed: Ed, state: EdState, ghost eds: set<Ed>)
    requires d.Valid() && ed in d.remover.eds && Pending(state) && (state.del ==> state.base == Absent) && ed !in eds
    modifies d.remover`ctrlOn, d.remover`bulkOn, d.remover`sofOn, d.remover`sofSeen, d.remover`since
    modifies d.remover.evenList, d.remover.oddList, ed`skip, ed`edRmList, ed`state
    ensures d.Valid() && ed.state == state
    ensures d.remover.since == if old(Pending(ed.state)) then old(d.remover.since)
                               else old(d.remover.since)[ed := d.remover.frame]
    ensures LinkedBut(d, eds) == old(LinkedBut(d, eds))
  {
    Withdraw(d, ed, state);
  }

  /** An endpoint that is not operational any more strays if it is still in its chain. */
  method Stray(d: Driver, ed: Ed, ghost eds: set<Ed>, ghost strayed: bool)
    requires d.Valid() && eds == d.remover.eds - {ed} && LinkedBut(d, eds) && d.strays <= d.remover.eds
    requires ed in d.remover.eds && ed.state.base != Operational && (d.InChain(ed) <==> strayed || ed in d.strays)
    modifies d`strays
    ensures d.Sound() && d.strays == old(d.strays) + if strayed then {ed} else {}
  {
    d.strays := d.strays + if strayed then {ed} else {};
    assert d.Valid() == old(d.Valid());
    forall e | e in d.remover.eds
      ensures d.LinkedAt(e)
    {
      assert e in eds ==> old(d.LinkedAt(e));
    }
  }

  /** The endpoint, not operational unless its removal is pending, is put on a removal list for deletion. */
  method Doom(d: Driver, ed: Ed)
    requires d.Sound() && ed in d.remover.eds && ed.state != ED_OPER
    modifies d.remover`ctrlOn, d.remover`bulkOn, d.remover`sofOn, d.remover`sofSeen, d.remover`since, d`strays
    modifies d.remover.evenList, d.remover.oddList, ed`skip, ed`edRmList, ed`state
    ensures d.Sound() && ed.state == ED_DEL
    ensures d.strays == old(d.strays) + if old(ed.state).base == Operational then {ed} else {}
    ensures d.remover.since == if old(Pending(ed.state)) then old(d.remover.since)
                               else old(d.remover.since)[ed := d.remover.frame]
  {
    ghost var eds, strayed := d.remover.eds - {ed}, ed.state.base == Operational;
    assert d.LinkedAt(ed);
    WithdrawBeside(d, ed, ED_DEL, eds);
    Stray(d, ed, eds, strayed);
  }

  /** The controller begins the next frame. */
  method NextFrame(d: Driver)
    requires d.Sound()
    modifies d.remover`frame, d.remover`sofSeen
    ensures d.Sound()
    ensures d.remover.frame == old(d.remover.frame) + 1 && d.remover.sofSeen
    ensures d.remover.Due() == old(d.remover.Current()) && d.remover.Current() == old(d.remover.Due())
  {
    Removal.NextFrame(d.remover);
    forall e | e in d.remover.eds
      ensures d.LinkedAt(e) && d.StateOk(e)
    {
      assert old(d.StateOk(e)) && old(d.LinkedAt(e));
    }
  }

  /** The start-of-frame interrupt: endpoints that are due become new or may run again; chains stay as they
      are. */
  method SofInterrupt(d: Driver, ghost was: seq<EdState>)
    requires d.Sound() && |was| == |d.remover.Due().eds| && Processed(d.remover.Due().eds, was, 0)
    modifies d.remover`ctrlOn, d.remover`bulkOn, d.remover`sofOn, d.remover`sofSeen, d.remover.Due()
    modifies (set ed | ed in d.remover.Due().eds)`state, (set ed | ed in d.remover.Due().eds)`skip
    ensures d.Sound()
    ensures !(old(d.remover.sofSeen) && old(d.remover.sofOn)) ==> Processed(old(d.remover.Due().eds), was, 0)
    ensures old(d.remover.sofSeen) && old(d.remover.sofOn) ==>
              (d.remover.sofOn <==> d.remover.Current().eds != [])
    ensures old(d.remover.sofSeen) && old(d.remover.sofOn) ==>
              d.remover.Due().eds == [] && Processed(old(d.remover.Due().eds), was, |was|)
  {
    ghost var due := d.remover.Due().eds;
    Removal.SofInterrupt(d.remover, was);
    forall e | e in d.remover.eds
      ensures d.StateOk(e) && d.LinkedAt(e)
    {
      assert old(d.StateOk(e)) && old(d.LinkedAt(e));
      if e in due {
        var i :| 0 <= i < |due| && due[i] == e;
        assert old(UntouchedAt(due, was, i));
        assert ProcessedAt(due, was, i) || UntouchedAt(due, was, i);
      }
    }
  }

  // ---------- a bad run

  /** With a single endpoint, it alone is due in the frame after it was put on a list. */
  lemma {:induction false} AloneDue(r: Remover, ed: Ed)
    requires r.Valid() && r.eds == {ed} && Pending(ed.state) && ed in r.since && r.since[ed] == r.frame
    ensures r.Current().eds == [ed] && r.Due().eds == [] && r.sofOn
  {
    assert r.StateOk(ed) && TimeOk(r.evenList.eds, r.oddList.eds, r.since, r.frame, ed);
    assert EnableOk(r.evenList.eds, r.oddList.eds, r.sofOn, r.ctrlOn, r.bulkOn, ed);
    assert ed in r.Current().eds && ed !in r.Due().eds;
    OnlyOne(r.Current().eds, ed);
    OnlyOne(r.Due().eds, ed);
  }

  lemma {:induction false} OnlyOne(eds: seq<Ed>, ed: Ed)
    requires Distinct(eds) && forall e :: e in eds ==> e in {ed}
    ensures eds == if ed in eds then [ed] else []
  {
    forall i | 0 <= i < |eds|
      ensures eds[i] == ed
    {
      assert eds[i] in eds;
    }
    if |eds| > 1 {
      DistinctAt(eds, 0, 1);
      assert false;
    }
    if eds != [] {
      assert eds[0] == ed;
    }
  }

  /** There is one endpoint, a control endpoint. */
  ghost predicate Single(d: Driver, ed: Ed)
    reads d`strays, d.remover, d.remover.evenList, d.remover.oddList, d.remover.eds`state
    reads (set ed | ed in d.remover.evenList.eds)`edRmList, (set ed | ed in d.remover.oddList.eds)`edRmList
    reads d.control, d.control.linkedAt.Keys`hwNextED
    reads (set e | e in d.control.eds)`hwNextED, (set e | e in d.control.eds)`edPrev
    reads d.bulk, d.bulk.linkedAt.Keys`hwNextED
    reads (set e | e in d.bulk.eds)`hwNextED, (set e | e in d.bulk.eds)`edPrev
  {
    d.Sound() && d.remover.eds == {ed} && ed.kind == CTRL
  }

  /** A request is submitted and withdrawn. */
  method SubmitAndWithdraw(d: Driver, ed: Ed)
    requires Single(d, ed) && d.strays == {} && ed.state == ED_NEW
    modifies d.control, ed
    modifies d.remover`ctrlOn, d.remover`bulkOn, d.remover`sofOn, d.remover`sofSeen, d.remover`since
    modifies d.remover.evenList, d.remover.oddList
    ensures Single(d, ed) && d.strays == {} && ed.state == ED_OPER.(urbDel := true)
    ensures ed in d.remover.since && d.remover.since[ed] == d.remover.frame
  {
    var ok := Submit(d, ed);
    UnlinkUrb(d, ed);
  }

  /** A control endpoint gets a request, the request is withdrawn, and the endpoint is freed before the withdrawal
      is dealt with. */
  method FreeWithdrawn(d: Driver, ed: Ed)
    requires Single(d, ed) && d.strays == {} && ed.state == ED_NEW
    modifies d.control, d`strays, ed
    modifies d.remover`ctrlOn, d.remover`bulkOn, d.remover`sofOn, d.remover`sofSeen, d.remover`since
    modifies d.remover.evenList, d.remover.oddList
    ensures Single(d, ed) && ed.state == ED_DEL && d.InChain(ed)
    ensures ed in d.remover.since && d.remover.since[ed] == d.remover.frame
  {
    SubmitAndWithdraw(d, ed);
    FreeEd(d, ed);
  }

  /** The next frame begins and its interrupt is served. */
  method ServeNext(d: Driver, ed: Ed)
    requires Single(d, ed) && ed.state == ED_DEL && d.InChain(ed)
    requires ed in d.remover.since && d.remover.since[ed] == d.remover.frame
    modifies d.remover, d.remover.evenList, d.remover.oddList, ed`state, ed`skip
    ensures Single(d, ed) && ed.state == ED_NEW && d.InChain(ed)
    ensures d.remover.Due().eds == [] && d.remover.Current().eds == []
  {
    AloneDue(d.remover, ed);
    NextFrame(d);
    SofInterrupt(d, [ED_DEL]);
    assert ProcessedAt([ed], [ED_DEL], 0);
  }

  /** Afterwards the endpoint counts as new, its memory may be given away, and the hardware still comes to it. */
  method StaysChained() returns (d: Driver, ed: Ed)
    ensures d.Sound() && !d.InStep()
    ensures ed.state == ED_NEW && d.remover.Due().eds == [] && d.remover.Current().eds == []
    ensures Path(d.control.head, d.control.eds) && ed in d.control.eds
  {
    ed := new Ed(CTRL);
    d := new Driver({ed});
    FreeWithdrawn(d, ed);
    ServeNext(d, ed);
    d.control.RestOfList(0);
    assert d.control.eds[0..] == d.control.eds;
    d.InStepIff();
  }
}

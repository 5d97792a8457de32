/** Taking endpoints, or requests of endpoints, away from a running controller.

    An endpoint to be dealt with is put on one of two lists, chosen by the parity of the current frame, and
    the start-of-frame interrupt works off the list of the other parity: the controller may still hold on to
    the endpoint in the frame in which it was put there.  While a control (bulk) endpoint waits, the control
    (bulk) list is stopped. */
module Removal {
  import opened OhciTypes
  import opened Sequences

  predicate Odd(frame: nat) {
    frame % 2 == 1
  }

  predicate Pending(state: EdState) {
    state.del || state.urbDel
  }

  ghost predicate WaitsAt(eds: seq<Ed>, i: nat)
    requires i < |eds|
    reads {eds[i]}`edRmList
  {
    eds[i].edRmList == if i + 1 < |eds| then eds[i + 1] else null
  }

  ghost predicate Waiting(head: Ed?, eds: seq<Ed>)
    reads (set ed | ed in eds)`edRmList
  {
    && head == (if eds == [] then null else eds[0])
    && forall i :: 0 <= i < |eds| ==> WaitsAt(eds, i)
  }

  /** One of the two lists ed_rm_list. */
  class WaitingList {
    var head: Ed?
    ghost var eds: seq<Ed>

    ghost predicate Valid()
      reads this, (set ed | ed in eds)`edRmList
    {
      Waiting(head, eds) && Distinct(eds)
    }

    constructor ()
      ensures Valid() && eds == []
    {
      head, eds := null, [];
    }

    method Push(ed: Ed)
      requires Valid() && ed !in eds
      modifies this, ed`edRmList
      ensures Valid() && eds == [ed] + old(eds)
    {
      ed.edRmList := head;
      head := ed;
      eds := [ed] + eds;
      forall i | 0 <= i < |eds|
        ensures WaitsAt(eds, i)
      {
        assert i > 0 ==> old(WaitsAt(eds, i - 1));
      }
      forall i, j | 0 <= i < j < |eds|
        ensures Differ(eds, i, j)
      {
        assert i > 0 ==> old(Differ(eds, i - 1, j - 1));
      }
    }
  }

  // ---------- what waits, and since when

  ghost predicate Waits(even: seq<Ed>, odd: seq<Ed>, ed: Ed) {
    ed in even || ed in odd
  }

  /** An endpoint waits on the list of the frame it was put there in. */
  ghost predicate TimeOk(even: seq<Ed>, odd: seq<Ed>, since: map<Ed, nat>, frame: nat, ed: Ed) {
    && (Waits(even, odd, ed) ==> ed in since && since[ed] <= frame)
    && (ed in odd ==> Odd(since[ed]))
    && (ed in even ==> !Odd(since[ed]))
  }

  ghost predicate Parities(even: seq<Ed>, odd: seq<Ed>, since: map<Ed, nat>, frame: nat, eds: set<Ed>) {
    forall ed :: ed in eds ==> TimeOk(even, odd, since, frame, ed)
  }

  /** While it waits the interrupt is enabled and the list of its kind is stopped. */
  ghost predicate EnableOk(even: seq<Ed>, odd: seq<Ed>, sof: bool, ctrl: bool, bulk: bool, ed: Ed) {
    Waits(even, odd, ed) ==> sof && (ed.kind == CTRL ==> !ctrl) && (ed.kind == BULK ==> !bulk)
  }

  ghost predicate Enables(even: seq<Ed>, odd: seq<Ed>, sof: bool, ctrl: bool, bulk: bool, eds: set<Ed>) {
    && (forall ed :: ed in eds ==> EnableOk(even, odd, sof, ctrl, bulk, ed))
    && (even == [] && odd == [] ==> ctrl && bulk)
  }

  function Pushed(list: seq<Ed>, ed: Ed, here: bool): seq<Ed> {
    if here then [ed] + list else list
  }

  lemma {:induction false} ParitiesPushed(even: seq<Ed>, odd: seq<Ed>, since: map<Ed, nat>, frame: nat, eds: set<Ed>,
                                       ed: Ed)
    requires Parities(even, odd, since, frame, eds) && !Waits(even, odd, ed)
    ensures Parities(Pushed(even, ed, !Odd(frame)), Pushed(odd, ed, Odd(frame)), since[ed := frame], frame, eds)
  {
    forall e | e in eds
      ensures TimeOk(Pushed(even, ed, !Odd(frame)), Pushed(odd, ed, Odd(frame)), since[ed := frame], frame, e)
    {
      assert TimeOk(even, odd, since, frame, e);
    }
  }

  lemma {:induction false} EnablesPushed(even: seq<Ed>, odd: seq<Ed>, sof: bool, ctrl: bool, bulk: bool, eds: set<Ed>,
                                         ed: Ed, frame: nat)
    requires Enables(even, odd, sof, ctrl, bulk, eds)
    ensures Enables(Pushed(even, ed, !Odd(frame)), Pushed(odd, ed, Odd(frame)), true, ctrl && ed.kind != CTRL,
                    bulk && ed.kind != BULK, eds)
  {
    var c, b := ctrl && ed.kind != CTRL, bulk && ed.kind != BULK;
    forall e | e in eds
      ensures EnableOk(Pushed(even, ed, !Odd(frame)), Pushed(odd, ed, Odd(frame)), true, c, b, e)
    {
      assert EnableOk(even, odd, sof, ctrl, bulk, e);
    }
  }

  /** The part of the controller's and the driver's state that removal is about. */
  class Remover {
    const evenList: WaitingList   // ed_rm_list[0]
    const oddList: WaitingList    // ed_rm_list[1]
    var ctrlOn: bool              // CLE
    var bulkOn: bool              // BLE
    var sofOn: bool               // SF in the interrupt enable register
    var sofSeen: bool             // SF in the interrupt status register
    var frame: nat                // frame number
    ghost const eds: set<Ed>        // all endpoints
    ghost var since: map<Ed, nat> // the frame in which an endpoint was put on a list

    function ListOf(odd: bool): WaitingList {
      if odd then oddList else evenList
    }

    /** The list the next start-of-frame interrupt works off, and the one it leaves. */
    function Due(): WaitingList
      reads this`frame
    {
      ListOf(!Odd(frame))
    }

    function Current(): WaitingList
      reads this`frame
    {
      ListOf(Odd(frame))
    }

    ghost predicate Lists()
      reads evenList, oddList
      reads (set ed | ed in evenList.eds)`edRmList, (set ed | ed in oddList.eds)`edRmList
    {
      && Two(evenList, oddList)
      && (forall ed :: ed in evenList.eds ==> ed in eds) && (forall ed :: ed in oddList.eds ==> ed in eds)
    }

    /** An endpoint waits exactly while one of its deletion bits is set. */
    ghost predicate StateOk(ed: Ed)
      reads evenList`eds, oddList`eds, ed`state
    {
      Waits(evenList.eds, oddList.eds, ed) <==> Pending(ed.state)
    }

    ghost predicate States()
      reads evenList`eds, oddList`eds, eds`state
    {
      forall ed :: ed in eds ==> StateOk(ed)
    }

    /** Everything but the endpoints' states. */
    ghost predicate Orderly()
      reads this, evenList, oddList
      reads (set ed | ed in evenList.eds)`edRmList, (set ed | ed in oddList.eds)`edRmList
    {
      && Lists()
      && Parities(evenList.eds, oddList.eds, since, frame, eds)
      && Enables(evenList.eds, oddList.eds, sofOn, ctrlOn, bulkOn, eds)
    }

    ghost predicate Valid()
      reads this, evenList, oddList, eds`state
      reads (set ed | ed in evenList.eds)`edRmList, (set ed | ed in oddList.eds)`edRmList
    {
      Orderly() && States()
    }

    constructor (ghost eds: set<Ed>)
      requires forall ed :: ed in eds ==> !Pending(ed.state)
      ensures Valid() && this.eds == eds && frame == 0
      ensures fresh(evenList) && fresh(oddList) && evenList.eds == [] && oddList.eds == []
    {
      evenList := new WaitingList();
      oddList := new WaitingList();
      ctrlOn, bulkOn, sofOn, sofSeen := true, true, false, false;
      frame := 0;
      this.eds, since := eds, map[];
    }

    /** No endpoint is on the lists twice. */
    lemma {:induction false} OnOneList(ed: Ed)
      requires Valid()
      ensures multiset(evenList.eds)[ed] + multiset(oddList.eds)[ed] <= 1
    {
      OnceIn(evenList.eds, ed);
      OnceIn(oddList.eds, ed);
      if Waits(evenList.eds, oddList.eds, ed) {
        assert TimeOk(evenList.eds, oddList.eds, since, frame, ed);
      }
    }
  }

  ghost predicate Two(even: WaitingList, odd: WaitingList)
    reads even, odd, (set ed | ed in even.eds)`edRmList, (set ed | ed in odd.eds)`edRmList
  {
    even != odd && even.Valid() && odd.Valid()
  }

  method PushOn(even: WaitingList, odd: WaitingList, ed: Ed, frame: nat)
    requires Two(even, odd) && !Waits(even.eds, odd.eds, ed)
    modifies even, odd, ed`edRmList
    ensures Two(even, odd)
    ensures even.eds == Pushed(old(even.eds), ed, !Odd(frame)) && odd.eds == Pushed(old(odd.eds), ed, Odd(frame))
  {
    if frame % 2 == 1 {
      odd.Push(ed);
    } else {
      even.Push(ed);
    }
  }

  /** Enable the start-of-frame interrupt and stop the list of the endpoint's kind. */
  method StopList(r: Remover, ed: Ed)
    modifies r`ctrlOn, r`bulkOn, r`sofOn, r`sofSeen, r`since
    ensures r.sofOn && !r.sofSeen && r.since == old(r.since)[ed := r.frame]
    ensures r.ctrlOn == (old(r.ctrlOn) && ed.kind != CTRL) && r.bulkOn == (old(r.bulkOn) && ed.kind != BULK)
  {
    r.sofSeen, r.sofOn := false, true;
    r.since := r.since[ed := r.frame];
    match ed.kind {
      case CTRL => r.ctrlOn := false;
      case BULK => r.bulkOn := false;
      case _ =>
    }
  }

  /** Put an endpoint that does not wait on the list of the current frame. */
  method Add(r: Remover, ed: Ed)
    requires r.Orderly() && ed in r.eds && !Waits(r.evenList.eds, r.oddList.eds, ed)
    modifies r`ctrlOn, r`bulkOn, r`sofOn, r`sofSeen, r`since
    modifies r.evenList, r.oddList, ed`skip, ed`edRmList
    ensures r.Orderly() && ed.skip && r.sofOn && r.since == old(r.since)[ed := r.frame]
    ensures r.evenList.eds == Pushed(old(r.evenList.eds), ed, !Odd(r.frame))
    ensures r.oddList.eds == Pushed(old(r.oddList.eds), ed, Odd(r.frame))
    ensures r.ctrlOn == (old(r.ctrlOn) && ed.kind != CTRL) && r.bulkOn == (old(r.bulkOn) && ed.kind != BULK)
  {
    ParitiesPushed(r.evenList.eds, r.oddList.eds, r.since, r.frame, r.eds, ed);
    EnablesPushed(r.evenList.eds, r.oddList.eds, r.sofOn, r.ctrlOn, r.bulkOn, r.eds, ed, r.frame);
    ed.skip := true;
    PushOn(r.evenList, r.oddList, ed, r.frame);
    StopList(r, ed);
  }

  /** Give ed a new state; it waits if the state has a deletion bit. */
  method SetState(r: Remover, ed: Ed, state: EdState)
    requires r.Orderly() && ed in r.eds && (Waits(r.evenList.eds, r.oddList.eds, ed) <==> Pending(state))
    requires forall e :: e in r.eds && e != ed ==> r.StateOk(e)
    modifies ed`state
    ensures r.Valid() && ed.state == state
  {
    ed.state := state;
    forall e | e in r.eds
      ensures r.StateOk(e)
    {
      assert e != ed ==> old(r.StateOk(e));
    }
  }

  /** Request a removal: unless the endpoint waits already it is put on a list; then its caller gives it a
      state with a deletion bit. */
  method RemoveEd(r: Remover, ed: Ed, state: EdState)
    requires r.Valid() && ed in r.eds && Pending(state)
    modifies r`ctrlOn, r`bulkOn, r`sofOn, r`sofSeen, r`since
    modifies r.evenList, r.oddList, ed`skip, ed`edRmList, ed`state
    ensures r.Valid() && ed.state == state
    ensures r.since == if old(Pending(ed.state)) then old(r.since) else old(r.since)[ed := r.frame]
  {
    assert r.StateOk(ed);
    if ed.state.del || ed.state.urbDel {
      SetState(r, ed, state);
      return;
    }
    Add(r, ed);
    forall e | e in r.eds && e != ed
      ensures r.StateOk(e)
    {
      assert old(r.StateOk(e));
    }
    SetState(r, ed, state);
  }

  /** Ask for the removal of an endpoint's withdrawn requests. */
  method UnlinkUrb(r: Remover, ed: Ed)
    requires r.Valid() && ed in r.eds
    modifies r`ctrlOn, r`bulkOn, r`sofOn, r`sofSeen, r`since
    modifies r.evenList, r.oddList, ed`skip, ed`edRmList, ed`state
    ensures r.Valid() && ed.state == old(ed.state).(urbDel := true)
    ensures r.since == if old(Pending(ed.state)) then old(r.since) else old(r.since)[ed := r.frame]
  {
    RemoveEd(r, ed, ed.state.(urbDel := true));
  }

  // ---------- working a list off

  function StateAfter(state: EdState): EdState {
    if state.del then ED_NEW else state.(urbDel := false)
  }

  ghost predicate ProcessedAt(eds: seq<Ed>, was: seq<EdState>, i: nat)
    requires i < |eds| == |was|
    reads {eds[i]}`state, {eds[i]}`skip
  {
    eds[i].state == StateAfter(was[i]) && eds[i].skip == was[i].del
  }

  ghost predicate UntouchedAt(eds: seq<Ed>, was: seq<EdState>, i: nat)
    requires i < |eds| == |was|
    reads {eds[i]}`state
  {
    eds[i].state == was[i]
  }

  /** The first n endpoints of the list are dealt with. */
  ghost predicate Processed(eds: seq<Ed>, was: seq<EdState>, n: nat)
    requires n <= |eds| == |was|
    reads (set ed | ed in eds)`state, (set ed | ed in eds)`skip
  {
    && (forall i :: 0 <= i < n ==> ProcessedAt(eds, was, i))
    && (forall i :: n <= i < |eds| ==> UntouchedAt(eds, was, i))
  }

  ghost predicate HasKind(eds: seq<Ed>, n: nat, kind: Kind)
    requires n <= |eds|
  {
    exists i :: 0 <= i < n && eds[i].kind == kind
  }

  method ProcessOne(ed: Ed, ghost eds: seq<Ed>, ghost was: seq<EdState>, ghost n: nat)
    requires Distinct(eds) && n < |eds| == |was| && ed == eds[n] && Processed(eds, was, n)
    modifies ed`state, ed`skip
    ensures Processed(eds, was, n + 1)
  {
    assert UntouchedAt(eds, was, n);
    if ed.state.del {
      ed.skip, ed.state := true, ED_NEW;
    } else {
      ed.state := ed.state.(urbDel := false);
      ed.skip := false;
    }
    ghost var more := n + 1;
    forall i | 0 <= i < more
      ensures ProcessedAt(eds, was, i)
    {
      assert i < n ==> old(ProcessedAt(eds, was, i)) && Differ(eds, i, n);
    }
    forall i | more <= i < |eds|
      ensures UntouchedAt(eds, was, i)
    {
      assert old(UntouchedAt(eds, was, i)) && Differ(eds, n, i);
    }
  }

  /** Deal with all endpoints of a list: a removed one becomes new, another may run again. */
  method ProcessList(list: WaitingList, ghost was: seq<EdState>) returns (ctrl: bool, bulk: bool)
    requires list.Valid() && |was| == |list.eds| && Processed(list.eds, was, 0)
    modifies (set ed | ed in list.eds)`state, (set ed | ed in list.eds)`skip
    ensures Processed(list.eds, was, |was|)
    ensures ctrl == HasKind(list.eds, |was|, CTRL) && bulk == HasKind(list.eds, |was|, BULK)
  {
    var ed := list.head;
    ghost var n := 0;
    ctrl, bulk := false, false;
    while ed != null
      invariant n <= |was| && ed == if n < |was| then list.eds[n] else null
      invariant list.Valid() && Processed(list.eds, was, n)
      invariant ctrl == HasKind(list.eds, n, CTRL) && bulk == HasKind(list.eds, n, BULK)
      decreases |was| - n
    {
      assert WaitsAt(list.eds, n);
      ProcessOne(ed, list.eds, was, n);
      ctrl := ctrl || ed.kind == CTRL;
      bulk := bulk || ed.kind == BULK;
      ed := ed.edRmList;
      n := n + 1;
    }
  }

  lemma {:induction false} ParitiesCleared(even: seq<Ed>, odd: seq<Ed>, since: map<Ed, nat>, frame: nat, eds: set<Ed>,
                                        gone: bool)
    requires Parities(even, odd, since, frame, eds)
    ensures Parities(Rest(even, gone, false), Rest(odd, gone, true), since, frame, eds)
  {
    forall ed | ed in eds
      ensures TimeOk(Rest(even, gone, false), Rest(odd, gone, true), since, frame, ed)
    {
      assert TimeOk(even, odd, since, frame, ed);
    }
  }

  /** A list of parity p after the list of parity gone was worked off. */
  function Rest(list: seq<Ed>, gone: bool, p: bool): seq<Ed> {
    if p == gone then [] else list
  }

  lemma {:induction false} EnablesCleared(even: seq<Ed>, odd: seq<Ed>, ctrl: bool, bulk: bool, eds: set<Ed>, gone: bool)
    requires Enables(even, odd, true, ctrl, bulk, eds)
    ensures var e, o := Rest(even, gone, false), Rest(odd, gone, true);
            Enables(e, o, true, ctrl || (e == [] && o == []), bulk || (e == [] && o == []), eds)
  {
    var e, o := Rest(even, gone, false), Rest(odd, gone, true);
    var c, b := ctrl || (e == [] && o == []), bulk || (e == [] && o == []);
    forall ed | ed in eds
      ensures EnableOk(e, o, true, c, b, ed)
    {
      assert EnableOk(even, odd, true, ctrl, bulk, ed);
    }
  }

  /** The interrupt may be off while a list is being worked off. */
  ghost predicate Working(r: Remover)
    reads r, r.evenList, r.oddList
    reads (set ed | ed in r.evenList.eds)`edRmList, (set ed | ed in r.oddList.eds)`edRmList
  {
    && r.Lists()
    && Parities(r.evenList.eds, r.oddList.eds, r.since, r.frame, r.eds)
    && Enables(r.evenList.eds, r.oddList.eds, true, r.ctrlOn, r.bulkOn, r.eds)
  }

  /** The list of one parity is worked off; with the other list empty, control and bulk lists run again.
      Returns which of them start again from the beginning. */
  method DelList(r: Remover, odd: bool, ghost was: seq<EdState>) returns (resetCtrl: bool, resetBulk: bool)
    requires Working(r) && r.States()
    requires |was| == |r.ListOf(odd).eds| && Processed(r.ListOf(odd).eds, was, 0)
    modifies r`ctrlOn, r`bulkOn, r.ListOf(odd)
    modifies (set ed | ed in r.ListOf(odd).eds)`state, (set ed | ed in r.ListOf(odd).eds)`skip
    ensures Working(r) && r.States()
    ensures Processed(old(r.ListOf(odd).eds), was, |was|)
    ensures r.ListOf(odd).eds == [] && (r.ListOf(!odd).eds == [] ==> r.ctrlOn && r.bulkOn)
    ensures r.ListOf(!odd).eds != [] ==> r.ctrlOn == old(r.ctrlOn) && r.bulkOn == old(r.bulkOn)
    ensures resetCtrl == HasKind(old(r.ListOf(odd).eds), |was|, CTRL)
    ensures resetBulk == HasKind(old(r.ListOf(odd).eds), |was|, BULK)
  {
    ghost var eds := r.ListOf(odd).eds;
    resetCtrl, resetBulk := ProcessList(r.ListOf(odd), was);
    forall ed | ed in r.eds
      ensures DoneWith(r, odd, ed)
    {
      assert old(r.StateOk(ed)) && TimeOk(r.evenList.eds, r.oddList.eds, r.since, r.frame, ed);
      if ed in eds {
        var i :| 0 <= i < |eds| && eds[i] == ed;
        assert ProcessedAt(eds, was, i);
      }
    }
    ClearList(r, odd);
  }

  /** The endpoint is not pending because of the list of this parity any more. */
  ghost predicate DoneWith(r: Remover, odd: bool, ed: Ed)
    reads r, r.evenList`eds, r.oddList`eds, ed`state
  {
    Waits(Rest(r.evenList.eds, odd, false), Rest(r.oddList.eds, odd, true), ed) <==> Pending(ed.state)
  }

  /** Empties a list that was worked off. */
  method ClearList(r: Remover, odd: bool)
    requires Working(r) && forall ed :: ed in r.eds ==> DoneWith(r, odd, ed)
    modifies r`ctrlOn, r`bulkOn, r.ListOf(odd)
    ensures Working(r) && r.States()
    ensures r.ListOf(odd).eds == [] && (r.ListOf(!odd).eds == [] ==> r.ctrlOn && r.bulkOn)
    ensures r.ListOf(!odd).eds != [] ==> r.ctrlOn == old(r.ctrlOn) && r.bulkOn == old(r.bulkOn)
  {
    var list := r.ListOf(odd);
    ParitiesCleared(r.evenList.eds, r.oddList.eds, r.since, r.frame, r.eds, odd);
    EnablesCleared(r.evenList.eds, r.oddList.eds, r.ctrlOn, r.bulkOn, r.eds, odd);
    if r.ListOf(!odd).head == null {
      r.ctrlOn, r.bulkOn := true, true;
    }
    list.head, list.eds := null, [];
    forall ed | ed in r.eds
      ensures r.StateOk(ed)
    {
      assert old(DoneWith(r, odd, ed));
    }
  }

  /** The interrupt stays enabled exactly while the current list is not empty. */
  method Rearm(r: Remover)
    requires Working(r) && r.States() && r.Due().eds == []
    modifies r`sofOn
    ensures r.Valid() && (r.sofOn <==> r.Current().eds != [])
  {
    r.sofOn := r.Current().head != null;
    forall ed | ed in r.eds
      ensures EnableOk(r.evenList.eds, r.oddList.eds, r.sofOn, r.ctrlOn, r.bulkOn, ed)
    {
      assert EnableOk(r.evenList.eds, r.oddList.eds, true, r.ctrlOn, r.bulkOn, ed);
    }
    assert r.States() == old(r.States());
  }

  /** What the interrupt does when it is raised and enabled. */
  method WorkOff(r: Remover, ghost was: seq<EdState>)
    requires Working(r) && r.States() && |was| == |r.Due().eds| && Processed(r.Due().eds, was, 0)
    modifies r`ctrlOn, r`bulkOn, r`sofOn, r.Due()
    modifies (set ed | ed in r.Due().eds)`state, (set ed | ed in r.Due().eds)`skip
    ensures r.Valid() && r.Due().eds == [] && (r.sofOn <==> r.Current().eds != [])
    ensures Processed(old(r.Due().eds), was, |was|)
  {
    r.sofOn := false;
    var odd := r.frame % 2 == 1;
    if r.ListOf(!odd).head != null {
      var ctrl, bulk := DelList(r, !odd, was);
    }
    Rearm(r);
  }

  /** The start-of-frame interrupt: whatever was put on a list in an earlier frame of the other parity is
      dealt with, and the interrupt stays enabled exactly while something waits. */
  method SofInterrupt(r: Remover, ghost was: seq<EdState>)
    requires r.Valid() && |was| == |r.Due().eds| && Processed(r.Due().eds, was, 0)
    modifies r`ctrlOn, r`bulkOn, r`sofOn, r`sofSeen, r.Due()
    modifies (set ed | ed in r.Due().eds)`state, (set ed | ed in r.Due().eds)`skip
    ensures r.Valid()
    ensures !(old(r.sofSeen) && old(r.sofOn)) ==> r.Due().eds == old(r.Due().eds) && Processed(old(r.Due().eds), was, 0)
    ensures old(r.sofSeen) && old(r.sofOn) ==>
              r.Due().eds == [] && (r.sofOn <==> r.Current().eds != []) && Processed(old(r.Due().eds), was, |was|)
  {
    if r.sofSeen && r.sofOn {
      WorkOff(r, was);
      r.sofSeen := false;
    }
  }

  /** What is due was put on its list in an earlier frame. */
  lemma {:induction false} DueIsOlder(r: Remover, ed: Ed)
    requires r.Valid() && ed in r.Due().eds
    ensures ed in r.since && r.since[ed] < r.frame
  {
    assert TimeOk(r.evenList.eds, r.oddList.eds, r.since, r.frame, ed);
  }

  /** The controller begins the next frame. */
  method NextFrame(r: Remover)
    requires r.Valid()
    modifies r`frame, r`sofSeen
    ensures r.Valid() && r.frame == old(r.frame) + 1 && r.sofSeen
    ensures r.Due() == old(r.Current()) && r.Current() == old(r.Due())
  {
    r.frame := r.frame + 1;
    r.sofSeen := true;
    forall ed | ed in r.eds
      ensures TimeOk(r.evenList.eds, r.oddList.eds, r.since, r.frame, ed)
    {
      assert TimeOk(r.evenList.eds, r.oddList.eds, r.since, old(r.frame), ed);
    }
  }

  /** If every frame's interrupt is served, an endpoint waits for one frame only: all that were put on a list
      in a frame are dealt with in the next. */
  method ServeFrame(r: Remover, ghost was: seq<EdState>)
    requires r.Valid() && r.Due().eds == []
    requires |was| == |r.Current().eds| && Processed(r.Current().eds, was, 0)
    modifies r`frame, r`ctrlOn, r`bulkOn, r`sofOn, r`sofSeen, r.Current()
    modifies (set ed | ed in r.Current().eds)`state, (set ed | ed in r.Current().eds)`skip
    ensures r.Valid() && r.evenList.eds == [] && r.oddList.eds == [] && r.ctrlOn && r.bulkOn
    ensures Processed(old(r.Current().eds), was, |was|)
  {
    assert r.sofOn || r.Current().eds == [] by {
      if r.Current().eds != [] {
        assert EnableOk(r.evenList.eds, r.oddList.eds, r.sofOn, r.ctrlOn, r.bulkOn, r.Current().eds[0]);
      }
    }
    NextFrame(r);
    SofInterrupt(r, was);
  }

  lemma {:induction false} OnceIn(eds: seq<Ed>, ed: Ed)
    requires Distinct(eds)
    ensures multiset(eds)[ed] <= 1
  {
    if eds != [] {
      forall i, j | 0 <= i < j < |eds[1..]|
        ensures Differ(eds[1..], i, j)
      {
        assert Differ(eds, i + 1, j + 1);
      }
      OnceIn(eds[1..], ed);
      assert eds == [eds[0]] + eds[1..];
      if ed == eds[0] {
        forall i | 0 <= i < |eds[1..]|
          ensures eds[1..][i] != ed
        {
          assert Differ(eds, 0, i + 1);
        }
      }
    }
  }
}

/** Every run of the completion machine: the invariant holds throughout, requests complete once and in
    order, exactly at their last or their failing descriptor, and none is ever stranded. */
module CompletionRuns {
  import opened Completion
  import opened CompletionSteps

  const START := State(map[], map[], map[], [], [], [], [])

  // ---------- one step keeps the invariant

  /** The requests of endpoint e, and their counts, are in t what they are in s. */
  ghost predicate SameRequests(s: State, t: State, e: nat) {
    forall u :: u in s.urbs && s.urbs[u].ed == e ==> SameRequest(s, t, u)
  }

  ghost predicate SameRequest(s: State, t: State, u: nat)
    requires u in s.urbs
  {
    u in t.urbs && t.urbs[u] == s.urbs[u] && (u in s.count ==> u in t.count && t.count[u] == s.count[u])
  }

  lemma {:induction false} OtherEd(s: State, t: State, e: nat, ed: Endpoint, l: seq<Done>)
    requires EdInv(s, e, ed, l) && SameRequests(s, t, e)
    ensures EdInv(t, e, ed, l)
  {
    var p := ed.pending;
    forall k | 0 <= k < |p|
      ensures SegmentOk(t, e, p, k)
    {
      assert SegmentOk(s, e, p, k);
      assert SameRequest(s, t, p[k].urb);
    }
    forall k | 0 <= k < |p|
      ensures EndOk(t, l, p, k)
    {
      assert SegmentOk(s, e, p, k);
      assert SameRequest(s, t, p[k].urb);
      EndOkTransfer(s, t, l, l, p, p, k);
    }
  }

  lemma {:induction false} OnEdExtends(urbs: map<nat, Urb>, more: map<nat, Urb>, ds: seq<Done>, e: nat)
    requires forall i :: 0 <= i < |ds| ==> ds[i].td.urb in urbs
    requires forall u :: u in urbs ==> u in more && more[u] == urbs[u]
    ensures OnEd(more, ds, e) == OnEd(urbs, ds, e)
  {
    if ds != [] {
      OnEdExtends(urbs, more, ds[1..], e);
    }
  }

  lemma {:induction false} CompletedExtends(urbs: map<nat, Urb>, more: map<nat, Urb>, c: seq<nat>, e: nat)
    requires forall u :: u in c ==> u in urbs
    requires forall u :: u in urbs ==> u in more && more[u] == urbs[u]
    ensures CompletedOn(more, c, e) == CompletedOn(urbs, c, e)
  {
    if c != [] {
      CompletedExtends(urbs, more, c[..|c| - 1], e);
    }
  }

  lemma {:induction false} ReversedMembers(ds: seq<Done>)
    ensures |Reversed(ds)| == |ds| && forall d :: d in Reversed(ds) <==> d in ds
  {
    if ds != [] {
      ReversedMembers(ds[1..]);
    }
  }

  lemma {:induction false} DonesKnown(s: State)
    requires Inv(s)
    ensures forall i :: 0 <= i < |Dones(s)| ==> Dones(s)[i].td.urb in s.urbs
  {
    ReversedMembers(s.handed);
    ReversedMembers(s.retired);
    forall i | 0 <= i < |Dones(s)|
      ensures Dones(s)[i].td.urb in s.urbs
    {
      var d := Dones(s)[i];
      assert d in Reversed(s.handed) || d in s.fifo || d in Reversed(s.retired);
      if d in s.handed {
        var j :| 0 <= j < |s.handed| && s.handed[j] == d;
        assert DoneOk(s, s.handed, j, false);
      } else if d in s.fifo {
        var j :| 0 <= j < |s.fifo| && s.fifo[j] == d;
        assert DoneOk(s, s.fifo, j, true);
      } else {
        var j :| 0 <= j < |s.retired| && s.retired[j] == d;
        assert DoneOk(s, s.retired, j, false);
      }
    }
  }

  /** Known descriptors stay known when requests are added and counts change. */
  lemma {:induction false} ListStays(s: State, t: State, ds: seq<Done>, released: bool)
    requires ListOk(s, ds, released)
    requires forall u :: u in s.urbs ==> u in t.urbs && t.urbs[u] == s.urbs[u]
    requires forall u :: u in s.count ==> u in t.count
    ensures ListOk(t, ds, released)
  {
    forall i | 0 <= i < |ds|
      ensures DoneOk(t, ds, i, released)
    {
      assert DoneOk(s, ds, i, released);
    }
  }

  // submitting

  lemma {:induction false} SubmitEd(s: State, u: nat, e: nat, n: nat, x: nat)
    requires EdOk(s, x) && u !in s.urbs && n > 0
    requires forall i :: 0 <= i < |Dones(s)| ==> Dones(s)[i].td.urb in s.urbs
    ensures EdOk(AfterSubmit(s, u, e, n), x)
  {
    var t := AfterSubmit(s, u, e, n);
    OnEdExtends(s.urbs, t.urbs, Dones(s), x);
    if x == e {
      SubmitKeepsEd(s, t, e, EdOf(s, e), Waiting(s, e), u, n);
    } else {
      OtherEd(s, t, x, EdOf(s, x), Waiting(s, x));
    }
  }

  lemma {:induction false} SubmitHistory(s: State, u: nat, e: nat, n: nat, x: nat)
    requires HistoryOk(s, x) && u !in s.urbs && n > 0
    requires forall u :: u in s.completed ==> u in s.urbs
    ensures HistoryOk(AfterSubmit(s, u, e, n), x)
  {
    var t := AfterSubmit(s, u, e, n);
    CompletedExtends(s.urbs, t.urbs, s.completed, x);
    if x == e {
      assert Urbs(EdOf(t, e).pending) == Urbs(EdOf(s, e).pending) + [u];
    }
  }

  lemma {:induction false} SubmitInv(s: State, u: nat, e: nat, n: nat)
    requires Inv(s) && u !in s.urbs && n > 0
    ensures Inv(AfterSubmit(s, u, e, n))
  {
    var t := AfterSubmit(s, u, e, n);
    DonesKnown(s);
    forall x: nat
      ensures EdOk(t, x)
    {
      assert EdOk(s, x);
      SubmitEd(s, u, e, n, x);
    }
    forall x: nat
      ensures HistoryOk(t, x)
    {
      assert HistoryOk(s, x);
      SubmitHistory(s, u, e, n, x);
    }
    ListStays(s, t, s.retired, false);
    ListStays(s, t, s.handed, false);
    ListStays(s, t, s.fifo, true);
  }

  // retiring

  lemma {:induction false} RetireWaiting(s: State, e: nat, cc: nat, x: nat)
    requires EdOf(s, e).queue != []
    ensures Waiting(AfterRetire(s, e, cc), x) ==
            Waiting(s, x) + if Of(s.urbs, Done(EdOf(s, e).queue[0], cc, false), x)
                            then [Done(EdOf(s, e).queue[0], cc, false)] else []
  {
    var t, d := AfterRetire(s, e, cc), Done(EdOf(s, e).queue[0], cc, false);
    assert t.retired[1..] == s.retired;
    assert Dones(t) == Dones(s) + [d];
    OnEdSum(s.urbs, Dones(s), [d], x);
    OnEdOne(s.urbs, d, x);
  }

  lemma {:induction false} RetireEd(s: State, e: nat, cc: nat, x: nat)
    requires Inv(s) && Enabled(s, Retire(e, cc))
    ensures EdOk(AfterRetire(s, e, cc), x)
    ensures Known(s, Done(EdOf(s, e).queue[0], cc, false))
  {
    var t := AfterRetire(s, e, cc);
    RetireWaiting(s, e, cc, x);
    assert EdOk(s, x) && EdOk(s, e);
    RetireKeepsEd(s, t, e, EdOf(s, e), Waiting(s, e), cc);
    if x != e {
      OtherEd(s, t, x, EdOf(s, x), Waiting(s, x));
      assert Waiting(t, x) == Waiting(s, x);
    }
  }

  lemma {:induction false} RetireInv(s: State, e: nat, cc: nat)
    requires Inv(s) && Enabled(s, Retire(e, cc))
    ensures Inv(AfterRetire(s, e, cc))
  {
    var t := AfterRetire(s, e, cc);
    forall x: nat
      ensures EdOk(t, x)
    {
      RetireEd(s, e, cc, x);
    }
    forall x: nat
      ensures HistoryOk(t, x)
    {
      assert HistoryOk(s, x);
    }
    RetireEd(s, e, cc, e);
    ListStays(s, t, s.handed, false);
    ListStays(s, t, s.fifo, true);
    forall i | 0 <= i < |t.retired|
      ensures DoneOk(t, t.retired, i, false)
    {
      assert i > 0 ==> DoneOk(s, s.retired, i - 1, false);
    }
  }

  lemma {:induction false} HandOverInv(s: State)
    requires Inv(s) && Enabled(s, HandOver)
    ensures Inv(s.(handed := s.retired, retired := []))
  {
    var t := s.(handed := s.retired, retired := []);
    assert Dones(t) == Dones(s);
    forall x: nat
      ensures EdOk(t, x)
    {
      assert EdOk(s, x);
      OtherEd(s, t, x, EdOf(s, x), Waiting(s, x));
    }
    forall x: nat
      ensures HistoryOk(t, x)
    {
      assert HistoryOk(s, x);
    }
    ListStays(s, t, s.retired, false);
  }

  // reversing

  /** What waits before and after the entry at the head of the handed-over list. */
  lemma {:induction false} ReverseWaiting(s: State, x: nat) returns (a: seq<Done>, b: seq<Done>)
    requires s.handed != [] && Known(s, s.handed[0])
    ensures Waiting(s, x) == a + (if Of(s.urbs, s.handed[0], x) then [s.handed[0]] else []) + b
    ensures Waiting(AfterReverse(s), x) ==
            a + (if Of(s.urbs, s.handed[0], x) then [s.handed[0].(released := true)] else []) + b
  {
    var t, d := AfterReverse(s), s.handed[0];
    var c := d.(released := true);
    var before, after := Reversed(s.handed[1..]), s.fifo + Reversed(s.retired);
    a, b := OnEd(s.urbs, before, x), OnEd(s.urbs, after, x);
    assert Dones(s) == before + [d] + after;
    assert Dones(t) == before + [c] + after;
    OnEdSum(s.urbs, before + [d], after, x);
    OnEdSum(s.urbs, before, [d], x);
    OnEdSum(s.urbs, before + [c], after, x);
    OnEdSum(s.urbs, before, [c], x);
    OnEdOne(s.urbs, d, x);
    OnEdOne(s.urbs, c, x);
  }

  /** An unreleased error is the newest of its endpoint. */
  lemma {:induction false} NewestError(s: State, e: nat, ed: Endpoint, a: seq<Done>, d: Done, b: seq<Done>)
    requires EdInv(s, e, ed, a + [d] + b) && d.cc != 0 && !d.released
    ensures b == [] && ed.halted && a + [d] + b == a + [d]
  {
    assert ErrorOk(a + [d] + b, |a|, ed.halted, ed.pending);
  }

  lemma {:induction false} ReverseErrorEd(s: State, x: nat, a: seq<Done>)
    requires Enabled(s, ReverseOne) && s.handed[0].cc != 0 && !s.handed[0].released
    requires x == s.urbs[s.handed[0].td.urb].ed && EdOf(s, x).halted
    requires EdInv(s, x, EdOf(s, x), a + [s.handed[0]])
    ensures EdInv(AfterReverse(s), x, EdOf(AfterReverse(s), x), a + [s.handed[0].(released := true)])
  {
    var t, d, ed := AfterReverse(s), s.handed[0], EdOf(s, x);
    if d.td.index + 1 < s.urbs[d.td.urb].length {
      CutKeepsEd(s, t, x, ed, a, d);
    } else {
      LiftKeepsEd(s, t, x, ed, a, d);
    }
  }

  lemma {:induction false} ReverseOtherEd(s: State, x: nat)
    requires EdOk(s, x) && Enabled(s, ReverseOne) && !Of(s.urbs, s.handed[0], x)
    ensures EdOk(AfterReverse(s), x)
  {
    var a, b := ReverseWaiting(s, x);
    assert Waiting(AfterReverse(s), x) == Waiting(s, x);
    OtherEd(s, AfterReverse(s), x, EdOf(s, x), Waiting(s, x));
  }

  lemma {:induction false} ReverseEd(s: State, x: nat)
    requires EdOk(s, x) && Enabled(s, ReverseOne) && !s.handed[0].released && Of(s.urbs, s.handed[0], x)
    ensures EdOk(AfterReverse(s), x)
  {
    var d, ed := s.handed[0], EdOf(s, x);
    var a, b := ReverseWaiting(s, x);
    if d.cc == 0 {
      MarkKeepsEd(s, AfterReverse(s), x, ed, a, d, b);
    } else {
      NewestError(s, x, ed, a, d, b);
      assert Waiting(AfterReverse(s), x) == a + [d.(released := true)];
      ReverseErrorEd(s, x, a);
    }
  }

  lemma {:induction false} ShortenUrbs(p: seq<Segment>, t: Td)
    ensures Urbs(Shorten(p, t)) == Urbs(p)
  {
    if p != [] && p[0].urb != t.urb {
      ShortenUrbs(p[1..], t);
      assert Urbs(p) == [p[0].urb] + Urbs(p[1..]);
    }
  }

  lemma {:induction false} ReverseHistory(s: State, x: nat)
    requires HistoryOk(s, x) && Enabled(s, ReverseOne)
    ensures HistoryOk(AfterReverse(s), x)
  {
    var t, p := AfterReverse(s), EdOf(s, x).pending;
    ShortenUrbs(p, s.handed[0].td);
    assert EdOf(t, x).pending == p || EdOf(t, x).pending == Shorten(p, s.handed[0].td);
    assert EdOf(t, x).submitted == EdOf(s, x).submitted;
  }

  lemma {:induction false} ReverseLists(s: State)
    requires Inv(s) && Enabled(s, ReverseOne)
    ensures var t := AfterReverse(s);
            ListOk(t, t.retired, false) && ListOk(t, t.handed, false) && ListOk(t, t.fifo, true)
  {
    var t := AfterReverse(s);
    ListStays(s, t, s.retired, false);
    forall i | 0 <= i < |t.handed|
      ensures DoneOk(t, t.handed, i, false)
    {
      assert DoneOk(s, s.handed, i + 1, false);
    }
    forall i | 0 <= i < |t.fifo|
      ensures DoneOk(t, t.fifo, i, true)
    {
      assert i > 0 ==> DoneOk(s, s.fifo, i - 1, true);
    }
  }

  lemma {:induction false} ReverseInv(s: State)
    requires Inv(s) && Enabled(s, ReverseOne)
    ensures Inv(AfterReverse(s))
  {
    var t := AfterReverse(s);
    assert DoneOk(s, s.handed, 0, false);
    forall x: nat
      ensures EdOk(t, x)
    {
      assert EdOk(s, x);
      if Of(s.urbs, s.handed[0], x) {
        ReverseEd(s, x);
      } else {
        ReverseOtherEd(s, x);
      }
    }
    forall x: nat
      ensures HistoryOk(t, x)
    {
      assert HistoryOk(s, x);
      ReverseHistory(s, x);
    }
    ReverseLists(s);
  }

  // counting

  lemma {:induction false} CountWaiting(s: State, x: nat)
    requires s.handed == [] && s.fifo != [] && Known(s, s.fifo[0])
    ensures Waiting(s, x) == (if Of(s.urbs, s.fifo[0], x) then [s.fifo[0]] else []) + Waiting(AfterCount(s), x)
  {
    var t, d := AfterCount(s), s.fifo[0];
    assert Dones(s) == [d] + Dones(t);
    OnEdSum(s.urbs, [d], Dones(t), x);
    OnEdOne(s.urbs, d, x);
  }

  lemma {:induction false} CountEd(s: State, x: nat)
    requires EdOk(s, x) && Enabled(s, CountOne) && s.fifo[0].released && Of(s.urbs, s.fifo[0], x)
    ensures EdOk(AfterCount(s), x)
  {
    var l := Waiting(s, x);
    CountWaiting(s, x);
    assert l[0] == s.fifo[0] && l[1..] == Waiting(AfterCount(s), x);
    CountKeepsEd(s, AfterCount(s), x, EdOf(s, x), l);
  }

  lemma {:induction false} CountOtherEd(s: State, x: nat)
    requires EdOk(s, x) && Enabled(s, CountOne) && !Of(s.urbs, s.fifo[0], x)
    ensures EdOk(AfterCount(s), x)
  {
    CountWaiting(s, x);
    assert Waiting(AfterCount(s), x) == Waiting(s, x);
    OtherEd(s, AfterCount(s), x, EdOf(s, x), Waiting(s, x));
  }

  /** The front entry belongs to the oldest pending request p[0] of its endpoint, and completes it
      exactly if it ends the segment. */
  ghost predicate FrontOk(s: State, d: Done, p: seq<Segment>)
    requires Known(s, d)
  {
    && p != [] && p[0].urb == d.td.urb && p[0].first == d.td.index
    && (s.count[d.td.urb] + 1 == s.urbs[d.td.urb].length <==> p[0].first + 1 >= p[0].end)
    && s.count[d.td.urb] < s.urbs[d.td.urb].length
  }

  lemma {:induction false} FrontEntry(s: State)
    requires Enabled(s, CountOne) && EdOk(s, s.urbs[s.fifo[0].td.urb].ed)
    ensures FrontOk(s, s.fifo[0], EdOf(s, s.urbs[s.fifo[0].td.urb].ed).pending)
  {
    var e := s.urbs[s.fifo[0].td.urb].ed;
    CountWaiting(s, e);
    FrontOfSegment(s, e, EdOf(s, e), Waiting(s, e));
  }

  /** Counting moves the oldest pending request to the completed ones exactly when it completes it. */
  lemma {:induction false} CountMoves(s: State)
    requires Enabled(s, CountOne)
    requires FrontOk(s, s.fifo[0], EdOf(s, s.urbs[s.fifo[0].td.urb].ed).pending)
    ensures var t, x := AfterCount(s), s.urbs[s.fifo[0].td.urb].ed;
            CompletedOn(s.urbs, t.completed, x) + Urbs(EdOf(t, x).pending)
            == CompletedOn(s.urbs, s.completed, x) + Urbs(EdOf(s, x).pending)
  {
    var t, u, x := AfterCount(s), s.fifo[0].td.urb, s.urbs[s.fifo[0].td.urb].ed;
    var p, q := EdOf(s, x).pending, EdOf(t, x).pending;
    if s.count[u] + 1 == s.urbs[u].length {
      assert t.completed[..|s.completed|] == s.completed;
      assert q == p[1..] && Urbs(p) == [u] + Urbs(q);
    } else {
      assert Urbs(q) == Urbs(p);
    }
  }

  lemma {:induction false} CountElsewhere(s: State, x: nat)
    requires Enabled(s, CountOne) && s.urbs[s.fifo[0].td.urb].ed != x
    ensures CompletedOn(s.urbs, AfterCount(s).completed, x) == CompletedOn(s.urbs, s.completed, x)
    ensures EdOf(AfterCount(s), x) == EdOf(s, x)
  {
    var t := AfterCount(s);
    if t.completed != s.completed {
      assert t.completed[..|s.completed|] == s.completed;
    }
  }

  lemma {:induction false} CountHistory(s: State, x: nat)
    requires EdOk(s, x) && HistoryOk(s, x) && Enabled(s, CountOne)
    ensures HistoryOk(AfterCount(s), x)
  {
    if s.urbs[s.fifo[0].td.urb].ed == x {
      FrontEntry(s);
      CountMoves(s);
    } else {
      CountElsewhere(s, x);
    }
  }

  lemma {:induction false} CountInv(s: State)
    requires Inv(s) && Enabled(s, CountOne)
    ensures Inv(AfterCount(s))
  {
    var t := AfterCount(s);
    assert DoneOk(s, s.fifo, 0, true);
    forall x: nat
      ensures EdOk(t, x)
    {
      assert EdOk(s, x);
      if Of(s.urbs, s.fifo[0], x) {
        CountEd(s, x);
      } else {
        CountOtherEd(s, x);
      }
    }
    forall x: nat
      ensures HistoryOk(t, x)
    {
      assert EdOk(s, x) && HistoryOk(s, x);
      CountHistory(s, x);
    }
    ListStays(s, t, s.retired, false);
    forall i | 0 <= i < |t.fifo|
      ensures DoneOk(t, t.fifo, i, true)
    {
      assert DoneOk(s, s.fifo, i + 1, true);
    }
  }

  lemma {:induction false} StepKeepsInv(s: State, step: Step)
    requires Inv(s) && Enabled(s, step)
    ensures Inv(Next(s, step))
  {
    match step
    case Submit(u, e, n) => SubmitInv(s, u, e, n);
    case Retire(e, cc) => RetireInv(s, e, cc);
    case HandOver => HandOverInv(s);
    case ReverseOne => ReverseInv(s);
    case CountOne => CountInv(s);
  }

  // ---------- runs

  /** The states of a run: it starts with nothing submitted, and each state follows from the one before. */
  ghost predicate Run(states: seq<State>, steps: seq<Step>) {
    && |states| == |steps| + 1 && states[0] == START
    && forall i :: 0 <= i < |steps| ==> Enabled(states[i], steps[i]) && states[i + 1] == Next(states[i], steps[i])
  }

  lemma {:induction false} RunKeepsInv(states: seq<State>, steps: seq<Step>, i: nat)
    requires Run(states, steps) && i < |states|
    ensures Inv(states[i])
  {
    if i > 0 {
      RunKeepsInv(states, steps, i - 1);
      StepKeepsInv(states[i - 1], steps[i - 1]);
    }
  }

  // ---------- in order, and once

  /** The requests that the steps submit to endpoint e, in order. */
  ghost function SubmittedBy(steps: seq<Step>, e: nat): seq<nat> {
    if steps == [] then []
    else SubmittedBy(steps[..|steps| - 1], e) +
         match steps[|steps| - 1]
         case Submit(u, ed, n) => if ed == e then [u] else []
         case _ => []
  }

  lemma {:induction false} SubmittedInRun(states: seq<State>, steps: seq<Step>, i: nat, e: nat)
    requires Run(states, steps) && i < |states|
    ensures EdOf(states[i], e).submitted == SubmittedBy(steps[..i], e)
  {
    if i > 0 {
      SubmittedInRun(states, steps, i - 1, e);
      assert steps[..i][..i - 1] == steps[..i - 1];
      assert Enabled(states[i - 1], steps[i - 1]) && states[i] == Next(states[i - 1], steps[i - 1]);
    }
  }

  lemma {:induction false} CompletedTimes(urbs: map<nat, Urb>, c: seq<nat>, u: nat)
    requires u in urbs
    ensures multiset(CompletedOn(urbs, c, urbs[u].ed))[u] == multiset(c)[u]
  {
    if c != [] {
      CompletedTimes(urbs, c[..|c| - 1], u);
      assert c == c[..|c| - 1] + [c[|c| - 1]];
    }
  }

  lemma {:induction false} AtMostOnce(c: seq<nat>, u: nat)
    requires forall i, j :: 0 <= i < j < |c| ==> c[i] != c[j]
    ensures multiset(c)[u] <= 1
  {
    if c != [] {
      AtMostOnce(c[1..], u);
      assert c == [c[0]] + c[1..];
      if c[0] == u {
        assert u !in c[1..];
      }
    }
  }

  /** At every moment of every run, the completions on an endpoint are an initial part of the submissions
      to it, in their order; the rest is pending; and no request completes twice. */
  lemma {:induction false} CompletionsInOrder(states: seq<State>, steps: seq<Step>, i: nat, e: nat)
    requires Run(states, steps) && i < |states|
    ensures var s := states[i];
            SubmittedBy(steps[..i], e) == CompletedOn(s.urbs, s.completed, e) + Urbs(EdOf(s, e).pending)
    ensures forall u :: u in states[i].completed ==> multiset(states[i].completed)[u] == 1
  {
    var s := states[i];
    RunKeepsInv(states, steps, i);
    SubmittedInRun(states, steps, i, e);
    assert HistoryOk(s, e);
    forall u | u in s.completed
      ensures multiset(s.completed)[u] == 1
    {
      OnlyOnce(s, u);
    }
  }

  lemma {:induction false} OnlyOnce(s: State, u: nat)
    requires Inv(s) && u in s.completed
    ensures multiset(s.completed)[u] == 1
  {
    var x := s.urbs[u].ed;
    var c, p := CompletedOn(s.urbs, s.completed, x), Urbs(EdOf(s, x).pending);
    assert HistoryOk(s, x) && EdOf(s, x).submitted == c + p;
    forall i, j | 0 <= i < j < |c|
      ensures c[i] != c[j]
    {
      assert (c + p)[i] == c[i] && (c + p)[j] == c[j];
    }
    CompletedTimes(s.urbs, s.completed, u);
    AtMostOnce(c, u);
  }

  // ---------- when

  /** A request completes exactly when its last descriptor or a descriptor with an error is counted off,
      and its count never passes its length. */
  lemma {:induction false} CompletesAtLastOrError(s: State)
    requires Inv(s) && Enabled(s, CountOne)
    ensures var d, t := s.fifo[0], AfterCount(s);
            && t.count[d.td.urb] <= t.urbs[d.td.urb].length
            && t.completed == s.completed +
                 if d.td.index + 1 == s.urbs[d.td.urb].length || d.cc != 0 then [d.td.urb] else []
  {
    var d := s.fifo[0];
    var e := s.urbs[d.td.urb].ed;
    var ed, l := EdOf(s, e), Waiting(s, e);
    assert EdOk(s, e) && DoneOk(s, s.fifo, 0, true);
    FrontEntry(s);
    CountWaiting(s, e);
    assert l[0] == d;
    SegmentEnd(s, e, ed, l);
  }

  lemma {:induction false} SegmentEnd(s: State, e: nat, ed: Endpoint, l: seq<Done>)
    requires EdInv(s, e, ed, l) && l != [] && l[0].released && Known(s, l[0])
    requires FrontOk(s, l[0], ed.pending)
    ensures ed.pending[0].first + 1 == ed.pending[0].end
            <==> l[0].td.index + 1 == s.urbs[l[0].td.urb].length || l[0].cc != 0
  {
    var p := ed.pending;
    assert SegmentOk(s, e, p, 0) && EndOk(s, l, p, 0) && ErrorOk(l, 0, ed.halted, p);
    if l[0].cc != 0 {
      var k :| 0 <= k < |p| && EndsAt(p, k, l[0].td);
      assert k > 0 ==> SegmentPair(p, 0, k);
    }
    if p[0].first + 1 == p[0].end && p[0].end != s.urbs[p[0].urb].length {
      var i :| 0 <= i < |l| && ReleasedError(l, i, p[0]);
      if i > 0 {
        LaterInSegment(s, e, ed, l, 0, i);
        assert false;
      }
    }
  }

  /** Endpoint e runs again and its queue is what follows pending request k: it starts with the first
      descriptor of the next request, or there is only the dummy. */
  ghost predicate ResumesBehind(ed: Endpoint, p: seq<Segment>, k: nat)
    requires k < |p| && Ordered(p)
  {
    && !ed.halted
    && ed.queue == Flat(p[k + 1..])
    && (ed.queue != [] ==> k + 1 < |p| && ed.queue[0] == Td(p[k + 1].urb, 0) && p[k + 1].urb != p[k].urb)
  }

  lemma {:induction false} RestStarts(s: State, e: nat, p: seq<Segment>, k: nat)
    requires Segments(s, e, p) && Ordered(p) && k < |p| && Flat(p[k + 1..]) != []
    ensures k + 1 < |p| && Flat(p[k + 1..])[0] == Td(p[k + 1].urb, 0) && p[k + 1].urb != p[k].urb
  {
    assert SegmentPair(p, k, k + 1);
  }

  lemma {:induction false} ReleaseCut(s: State, e: nat, a: seq<Done>) returns (k: nat)
    requires Enabled(s, ReverseOne) && s.handed[0].cc != 0 && !s.handed[0].released
    requires EdOf(s, e).halted && e == s.urbs[s.handed[0].td.urb].ed
    requires EdInv(s, e, EdOf(s, e), a + [s.handed[0]])
    ensures k < |EdOf(s, e).pending| && EdOf(s, e).pending[k].urb == s.handed[0].td.urb
    ensures EdOf(AfterReverse(s), e).queue == Flat(EdOf(s, e).pending[k + 1..])
  {
    var d, ed, p := s.handed[0], EdOf(s, e), EdOf(s, e).pending;
    if d.td.index + 1 < s.urbs[d.td.urb].length {
      k := CutShape(s, e, ed, a, d);
    } else {
      k := ErrorSegment(s, e, ed, a, d);
      CutFlat(p, TdsOf(a + [d]), ed.queue, d.td, k);
    }
  }

  lemma {:induction false} ReleaseEd(s: State, e: nat, a: seq<Done>) returns (k: nat)
    requires Enabled(s, ReverseOne) && s.handed[0].cc != 0 && !s.handed[0].released
    requires EdOf(s, e).halted && e == s.urbs[s.handed[0].td.urb].ed
    requires EdInv(s, e, EdOf(s, e), a + [s.handed[0]])
    ensures k < |EdOf(s, e).pending| && EdOf(s, e).pending[k].urb == s.handed[0].td.urb
    ensures ResumesBehind(EdOf(AfterReverse(s), e), EdOf(s, e).pending, k)
  {
    var p := EdOf(s, e).pending;
    k := ReleaseCut(s, e, a);
    if Flat(p[k + 1..]) != [] {
      RestStarts(s, e, p, k);
    }
  }

  /** Releasing a halted endpoint leaves at its head what follows the failing request. */
  lemma {:induction false} ResumesAtNextRequest(s: State) returns (k: nat)
    requires Inv(s) && Enabled(s, ReverseOne) && s.handed[0].cc != 0
    ensures var e := s.urbs[s.handed[0].td.urb].ed;
            && EdOf(s, e).halted && Ordered(EdOf(s, e).pending)
            && k < |EdOf(s, e).pending| && EdOf(s, e).pending[k].urb == s.handed[0].td.urb
            && ResumesBehind(EdOf(AfterReverse(s), e), EdOf(s, e).pending, k)
  {
    var d, e := s.handed[0], s.urbs[s.handed[0].td.urb].ed;
    assert EdOk(s, e) && DoneOk(s, s.handed, 0, false);
    var a, b := ReverseWaiting(s, e);
    NewestError(s, e, EdOf(s, e), a, d, b);
    k := ReleaseEd(s, e, a);
  }

  // ---------- nothing is stranded

  predicate Moves(s: State, step: Step) {
    !step.Submit? && Enabled(s, step)
  }

  ghost predicate Quiet(s: State) {
    forall step :: !Moves(s, step)
  }

  lemma {:induction false} OnEdHas(urbs: map<nat, Urb>, ds: seq<Done>, i: nat, e: nat)
    requires i < |ds| && Of(urbs, ds[i], e)
    ensures OnEd(urbs, ds, e) != []
  {
    if i > 0 {
      OnEdHas(urbs, ds[1..], i - 1, e);
    }
  }

  ghost predicate AllCounted(s: State, e: nat) {
    EdOf(s, e).pending == []
  }

  lemma {:induction false} QuietEd(s: State, e: nat)
    requires EdOk(s, e) && Dones(s) == [] && !Moves(s, Retire(e, 0))
    ensures AllCounted(s, e)
  {
    assert Waiting(s, e) == [];
  }

  lemma {:induction false} CountedEd(s: State, e: nat)
    requires EdOk(s, e) && AllCounted(s, e)
    ensures Waiting(s, e) == [] && EdOf(s, e).queue == []
  {
    assert |TdsOf(Waiting(s, e)) + EdOf(s, e).queue| == 0;
  }

  /** An endpoint with something on the done lists has something pending. */
  lemma {:induction false} BusyEd(s: State) returns (e: nat)
    requires Inv(s)
    ensures Dones(s) != [] ==> !AllCounted(s, e)
  {
    e := 0;
    if Dones(s) != [] {
      DonesKnown(s);
      e := s.urbs[Dones(s)[0].td.urb].ed;
      OnEdHas(s.urbs, Dones(s), 0, e);
      assert EdOk(s, e);
      assert |Flat(EdOf(s, e).pending)| > 0;
    }
  }

  lemma {:induction false} NothingToMove(s: State)
    requires Inv(s) && forall e: nat :: AllCounted(s, e)
    ensures Quiet(s)
  {
    ReversedMembers(s.handed);
    ReversedMembers(s.retired);
    var e := BusyEd(s);
    assert AllCounted(s, e);
    forall step
      ensures !Moves(s, step)
    {
      if step.Retire? {
        assert EdOk(s, step.ed) && AllCounted(s, step.ed);
        CountedEd(s, step.ed);
      }
    }
  }

  lemma {:induction false} QuietLists(s: State)
    requires Quiet(s) && ListOk(s, s.handed, false) && ListOk(s, s.fifo, true)
    ensures Dones(s) == []
  {
    assert !Moves(s, CountOne) && !Moves(s, ReverseOne) && !Moves(s, HandOver);
    assert s.handed != [] ==> DoneOk(s, s.handed, 0, false);
    assert s.fifo != [] ==> DoneOk(s, s.fifo, 0, true);
  }

  lemma {:induction false} QuietIsCounted(s: State, e: nat)
    requires Inv(s) && Quiet(s)
    ensures AllCounted(s, e)
  {
    QuietLists(s);
    assert EdOk(s, e) && !Moves(s, Retire(e, 0));
    QuietEd(s, e);
  }

  /** If neither the controller nor the driver can move, every submitted request has completed; and the
      other way round. */
  lemma {:induction false} QuietMeansComplete(s: State)
    requires Inv(s)
    ensures Quiet(s) <==> forall e: nat :: AllCounted(s, e)
    ensures Quiet(s) ==> forall e: nat :: CompletedOn(s.urbs, s.completed, e) == EdOf(s, e).submitted
  {
    if Quiet(s) {
      forall e: nat
        ensures AllCounted(s, e)
      {
        QuietIsCounted(s, e);
      }
      forall e: nat
        ensures CompletedOn(s.urbs, s.completed, e) == EdOf(s, e).submitted
      {
        assert AllCounted(s, e) && HistoryOk(s, e);
      }
    }
    if forall e: nat :: AllCounted(s, e) {
      NothingToMove(s);
    }
  }

  /** In every reachable state an endpoint with descriptors in its queue is linked, and a halted one has its
      failed descriptor on a done list that the driver has yet to reverse. */
  lemma {:induction false} BusyMeansLinked(states: seq<State>, steps: seq<Step>, i: nat, e: nat)
    requires Run(states, steps) && i < |states|
    ensures EdOf(states[i], e).queue != [] ==> EdOf(states[i], e).linked
    ensures EdOf(states[i], e).halted ==>
              exists k :: 0 <= k < |Waiting(states[i], e)| &&
                          Waiting(states[i], e)[k].cc != 0 && !Waiting(states[i], e)[k].released
  {
    RunKeepsInv(states, steps, i);
    assert EdOk(states[i], e);
  }

  /** A run that ends with nothing left to do has completed, on every endpoint, exactly what was submitted to
      it, in the order of submission. */
  lemma {:induction false} QuietRunCompletesAll(states: seq<State>, steps: seq<Step>, e: nat)
    requires Run(states, steps) && Quiet(states[|steps|])
    ensures CompletedOn(states[|steps|].urbs, states[|steps|].completed, e) == SubmittedBy(steps, e)
  {
    RunKeepsInv(states, steps, |steps|);
    QuietMeansComplete(states[|steps|]);
    SubmittedInRun(states, steps, |steps|, e);
    assert steps[..|steps|] == steps;
  }

  /** Descriptors in the queues of the first n endpoints. */
  ghost function Queued(s: State, n: nat): nat {
    if n == 0 then 0 else Queued(s, n - 1) + |EdOf(s, n - 1).queue|
  }

  /** How much is left to do. */
  ghost function Work(s: State, n: nat): nat {
    4 * Queued(s, n) + 3 * |s.retired| + 2 * |s.handed| + |s.fifo|
  }

  ghost predicate Within(s: State, n: nat) {
    forall e: nat :: n <= e ==> EdOf(s, e).queue == []
  }

  /** Only endpoint e's queue changes, and it gets no longer. */
  lemma {:induction false} QueuedChanges(s: State, t: State, e: nat, n: nat)
    requires forall x: nat :: x != e ==> EdOf(t, x).queue == EdOf(s, x).queue
    requires |EdOf(t, e).queue| <= |EdOf(s, e).queue|
    ensures Queued(t, n) == Queued(s, n) - if e < n then |EdOf(s, e).queue| - |EdOf(t, e).queue| else 0
  {
    if n > 0 {
      QueuedChanges(s, t, e, n - 1);
    }
  }

  lemma {:induction false} BehindIsShorter(q: seq<Td>, t: Td)
    ensures |Behind(q, t)| <= |q|
  {
    if q != [] && q[0] != t {
      BehindIsShorter(q[1..], t);
    }
  }

  lemma {:induction false} MoveReducesWork(s: State, step: Step, n: nat)
    requires Moves(s, step) && Within(s, n)
    ensures Within(Next(s, step), n) && Work(Next(s, step), n) < Work(s, n)
  {
    var t := Next(s, step);
    match step
    case Retire(e, cc) =>
      assert e < n;
      QueuedChanges(s, t, e, n);
    case HandOver =>
      QueuedChanges(s, t, 0, n);
    case ReverseOne =>
      var e := s.urbs[s.handed[0].td.urb].ed;
      BehindIsShorter(EdOf(s, e).queue, Td(s.handed[0].td.urb, s.urbs[s.handed[0].td.urb].length - 1));
      QueuedChanges(s, t, e, n);
    case CountOne =>
      QueuedChanges(s, t, s.urbs[s.fifo[0].td.urb].ed, n);
  }

  /** Without new submissions only finitely many steps remain, so that, by QuietMeansComplete, every
      request completes whatever the controller does with it. */
  lemma {:induction false} RunsDry(states: seq<State>, steps: seq<Step>, n: nat)
    requires |states| == |steps| + 1 && Within(states[0], n)
    requires forall i :: 0 <= i < |steps| ==> Moves(states[i], steps[i]) && states[i + 1] == Next(states[i], steps[i])
    ensures |steps| + Work(states[|steps|], n) <= Work(states[0], n)
  {
    if steps != [] {
      MoveReducesWork(states[0], steps[0], n);
      assert states[1] == Next(states[0], steps[0]);
      RunsDry(states[1..], steps[1..], n);
    }
  }
}

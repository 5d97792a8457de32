/** How transfer descriptors travel from an endpoint's queue over the controller's done list to the
    completion of their request.

    The controller retires the head of a queue onto a last-in-first-out list and now and then hands the
    list to the driver.  The driver first reverses it, releasing halted endpoints on the way, and then
    counts the descriptors off in order.  Requests here are never unlinked; completion handlers submit
    nothing themselves.  Each retirement, hand-over, reversed entry and counted entry is one step, so
    the controller may act between any two of the driver's loop iterations. */
module Completion {

  /** Descriptor number `index` of a request. */
  datatype Td = Td(urb: nat, index: nat)

  datatype Urb = Urb(ed: nat, length: nat)

  /** A retired descriptor with its condition code; `released` once the reversing pass has seen it. */
  datatype Done = Done(td: Td, cc: nat, released: bool)

  /** Descriptors first .. end-1 of a request are still to be counted off. */
  datatype Segment = Segment(urb: nat, first: nat, end: nat)

  datatype Endpoint = Endpoint(
    queue: seq<Td>,            // from hwHeadP up to the dummy at hwTailP
    halted: bool,
    linked: bool,              // state ED_OPER: in the controller's chain
    submitted: seq<nat>,       // history: every request ever submitted here, in order
    pending: seq<Segment>)     // history: what is still to be counted off, in order

  datatype State = State(
    urbs: map<nat, Urb>,
    count: map<nat, nat>,      // td_cnt
    eds: map<nat, Endpoint>,
    retired: seq<Done>,        // the controller's done list, newest first
    handed: seq<Done>,         // HCCA done_head, newest first
    fifo: seq<Done>,           // the driver's next_dl_td list, oldest first
    completed: seq<nat>)       // completion calls, in order

  const IDLE := Endpoint([], false, false, [], [])

  function EdOf(s: State, e: nat): Endpoint {
    if e in s.eds then s.eds[e] else IDLE
  }

  /** Descriptors first .. end-1 of a request. */
  function Tds(urb: nat, first: nat, end: nat): (r: seq<Td>)
    requires first <= end
    ensures |r| == end - first && forall i :: 0 <= i < |r| ==> r[i] == Td(urb, first + i)
  {
    seq(end - first, i requires 0 <= i < end - first => Td(urb, first + i))
  }

  /** The part of a queue behind descriptor t: what t's hwNextTD leads to. */
  function Behind<T(==)>(q: seq<T>, t: T): seq<T> {
    if q == [] then [] else if q[0] == t then q[1..] else Behind(q[1..], t)
  }

  // ---------- steps

  datatype Step =
    | Submit(urb: nat, ed: nat, length: nat)
    | Retire(ed: nat, cc: nat)
    | HandOver
    | ReverseOne
    | CountOne

  predicate Enabled(s: State, step: Step) {
    match step
    case Submit(u, e, n) => u !in s.urbs && n > 0
    case Retire(e, cc) => EdOf(s, e).queue != [] && !EdOf(s, e).halted && EdOf(s, e).linked
    case HandOver => s.handed == [] && s.fifo == [] && s.retired != []
    case ReverseOne => s.handed != [] && Known(s, s.handed[0])
    case CountOne => s.handed == [] && s.fifo != [] && Known(s, s.fifo[0])
  }

  /** The descriptor belongs to a request the driver knows. */
  predicate Known(s: State, d: Done) {
    && d.td.urb in s.urbs
    && d.td.urb in s.count
    && d.td.index < s.urbs[d.td.urb].length
  }

  function Next(s: State, step: Step): State
    requires Enabled(s, step)
  {
    match step
    case Submit(u, e, n) => AfterSubmit(s, u, e, n)
    case Retire(e, cc) => AfterRetire(s, e, cc)
    case HandOver => s.(handed := s.retired, retired := [])
    case ReverseOne => AfterReverse(s)
    case CountOne => AfterCount(s)
  }

  /** The endpoint is linked if it is not, and the request's descriptors join the queue. */
  function AfterSubmit(s: State, u: nat, e: nat, n: nat): State
    requires n > 0
  {
    var ed := EdOf(s, e);
    s.(urbs := s.urbs[u := Urb(e, n)],
       count := s.count[u := 0],
       eds := s.eds[e := Endpoint(ed.queue + Tds(u, 0, n), ed.halted, true,
                                  ed.submitted + [u], ed.pending + [Segment(u, 0, n)])])
  }

  /** The controller works on the head descriptor; on an error it halts the endpoint. */
  function AfterRetire(s: State, e: nat, cc: nat): State
    requires EdOf(s, e).queue != []
  {
    var ed := EdOf(s, e);
    s.(eds := s.eds[e := ed.(queue := ed.queue[1..], halted := ed.halted || cc != 0)],
       retired := [Done(ed.queue[0], cc, false)] + s.retired)
  }

  /** One iteration of the reversing pass.  An error on a halted endpoint releases the endpoint behind
      the rest of the request, which counts as done. */
  function AfterReverse(s: State): State
    requires s.handed != [] && Known(s, s.handed[0])
  {
    var d := s.handed[0];
    var u := d.td.urb;
    var e, n := s.urbs[u].ed, s.urbs[u].length;
    var ed := EdOf(s, e);
    var t := s.(handed := s.handed[1..], fifo := [d.(released := true)] + s.fifo);
    if d.cc == 0 || !ed.halted then t
    else if d.td.index + 1 < n then
      t.(eds := s.eds[e := ed.(queue := Behind(ed.queue, Td(u, n - 1)), halted := false,
                               pending := Shorten(ed.pending, d.td))],
         count := s.count[u := s.count[u] + (n - d.td.index - 1)])
    else t.(eds := s.eds[e := ed.(halted := false)])
  }

  /** One iteration of the counting pass. */
  function AfterCount(s: State): State
    requires s.fifo != [] && Known(s, s.fifo[0])
  {
    var d := s.fifo[0];
    var u := d.td.urb;
    var e := s.urbs[u].ed;
    var ed := EdOf(s, e);
    var c := s.count[u] + 1;
    s.(fifo := s.fifo[1..],
       count := s.count[u := c],
       completed := if c == s.urbs[u].length then s.completed + [u] else s.completed,
       eds := s.eds[e := ed.(linked := ed.linked && ed.queue != [], pending := CountOff(ed.pending))])
  }

  // ---------- history

  /** The segment that holds t now ends with t. */
  function Shorten(p: seq<Segment>, t: Td): seq<Segment> {
    if p == [] then []
    else if p[0].urb == t.urb then [p[0].(end := t.index + 1)] + p[1..]
    else [p[0]] + Shorten(p[1..], t)
  }

  function CountOff(p: seq<Segment>): seq<Segment> {
    if p == [] then []
    else if p[0].first + 1 >= p[0].end then p[1..]
    else [p[0].(first := p[0].first + 1)] + p[1..]
  }

  predicate Ordered(p: seq<Segment>) {
    forall i :: 0 <= i < |p| ==> p[i].first < p[i].end
  }

  ghost function Flat(p: seq<Segment>): seq<Td>
    requires Ordered(p)
  {
    if p == [] then [] else Tds(p[0].urb, p[0].first, p[0].end) + Flat(p[1..])
  }

  function Reversed<T>(s: seq<T>): seq<T> {
    if s == [] then [] else Reversed(s[1..]) + [s[0]]
  }

  /** All retired descriptors that are not counted off yet, oldest first. */
  ghost function Dones(s: State): seq<Done> {
    Reversed(s.handed) + s.fifo + Reversed(s.retired)
  }

  ghost predicate Of(urbs: map<nat, Urb>, d: Done, e: nat) {
    d.td.urb in urbs && urbs[d.td.urb].ed == e
  }

  /** Those of one endpoint. */
  ghost function OnEd(urbs: map<nat, Urb>, ds: seq<Done>, e: nat): seq<Done> {
    if ds == [] then [] else (if Of(urbs, ds[0], e) then [ds[0]] else []) + OnEd(urbs, ds[1..], e)
  }

  ghost function TdsOf(ds: seq<Done>): (r: seq<Td>)
    ensures |r| == |ds| && forall i :: 0 <= i < |ds| ==> r[i] == ds[i].td
  {
    seq(|ds|, i requires 0 <= i < |ds| => ds[i].td)
  }

  ghost function Urbs(p: seq<Segment>): (r: seq<nat>)
    ensures |r| == |p| && forall i :: 0 <= i < |p| ==> r[i] == p[i].urb
  {
    seq(|p|, i requires 0 <= i < |p| => p[i].urb)
  }

  /** The completions of requests of one endpoint. */
  ghost function CompletedOn(urbs: map<nat, Urb>, c: seq<nat>, e: nat): seq<nat> {
    if c == [] then []
    else CompletedOn(urbs, c[..|c| - 1], e) +
         (if c[|c| - 1] in urbs && urbs[c[|c| - 1]].ed == e then [c[|c| - 1]] else [])
  }

  // ---------- the invariant

  /** A segment of a request of endpoint e: what is not in it has been counted. */
  ghost predicate SegmentOk(s: State, e: nat, p: seq<Segment>, k: nat)
    requires k < |p|
  {
    && p[k].urb in s.urbs && p[k].urb in s.count && s.urbs[p[k].urb].ed == e
    && p[k].first < p[k].end <= s.urbs[p[k].urb].length
    && s.count[p[k].urb] == s.urbs[p[k].urb].length - (p[k].end - p[k].first)
  }

  /** Segments are of different requests, and all but the oldest are untouched at the front. */
  ghost predicate SegmentPair(p: seq<Segment>, j: nat, k: nat)
    requires j < |p| && k < |p|
  {
    p[j].urb != p[k].urb && p[k].first == 0
  }

  ghost predicate Segments(s: State, e: nat, p: seq<Segment>) {
    && (forall k :: 0 <= k < |p| ==> SegmentOk(s, e, p, k))
    && (forall j, k :: 0 <= j < k < |p| ==> SegmentPair(p, j, k))
  }

  ghost predicate ReleasedError(l: seq<Done>, i: nat, g: Segment)
    requires i < |l|
  {
    l[i].td == Td(g.urb, l[i].td.index) && l[i].td.index + 1 == g.end && l[i].cc != 0 && l[i].released
  }

  /** A request is cut short only behind a released error. */
  ghost predicate EndOk(s: State, l: seq<Done>, p: seq<Segment>, k: nat)
    requires k < |p|
  {
    p[k].urb in s.urbs &&
    (p[k].end != s.urbs[p[k].urb].length ==>
       exists i :: 0 <= i < |l| && ReleasedError(l, i, p[k]))
  }

  ghost predicate EndsAt(p: seq<Segment>, k: nat, t: Td)
    requires k < |p|
  {
    p[k].urb == t.urb && p[k].end == t.index + 1
  }

  /** An unreleased error is the endpoint's newest descriptor and has it halted; a released one ends its
      segment. */
  ghost predicate ErrorOk(l: seq<Done>, i: nat, halted: bool, p: seq<Segment>)
    requires i < |l|
  {
    l[i].cc != 0 ==>
      if l[i].released then exists k :: 0 <= k < |p| && EndsAt(p, k, l[i].td)
      else i == |l| - 1 && halted
  }

  /** One endpoint, of whose descriptors those in l are retired and not counted off. */
  ghost predicate EdInv(s: State, e: nat, ed: Endpoint, l: seq<Done>) {
    && Segments(s, e, ed.pending)
    && Ordered(ed.pending)
    && Flat(ed.pending) == TdsOf(l) + ed.queue
    && (forall i :: 0 <= i < |l| ==> ErrorOk(l, i, ed.halted, ed.pending))
    && (forall k :: 0 <= k < |ed.pending| ==> EndOk(s, l, ed.pending, k))
    && (ed.halted ==> l != [] && l[|l| - 1].cc != 0 && !l[|l| - 1].released)
    && (ed.queue != [] ==> ed.linked)
  }

  /** What endpoint e has retired and the driver has not counted off, oldest first. */
  ghost function Waiting(s: State, e: nat): seq<Done> {
    OnEd(s.urbs, Dones(s), e)
  }

  ghost predicate EdOk(s: State, e: nat) {
    EdInv(s, e, EdOf(s, e), Waiting(s, e))
  }

  /** What was submitted to e is what has completed followed by what is pending, and no request was
      submitted twice. */
  ghost predicate HistoryOk(s: State, e: nat) {
    && EdOf(s, e).submitted == CompletedOn(s.urbs, s.completed, e) + Urbs(EdOf(s, e).pending)
    && (forall u :: u in EdOf(s, e).submitted ==> u in s.urbs && s.urbs[u].ed == e)
    && forall i, j :: 0 <= i < j < |EdOf(s, e).submitted| ==> EdOf(s, e).submitted[i] != EdOf(s, e).submitted[j]
  }

  ghost predicate DoneOk(s: State, ds: seq<Done>, i: nat, released: bool)
    requires i < |ds|
  {
    Known(s, ds[i]) && ds[i].released == released
  }

  ghost predicate ListOk(s: State, ds: seq<Done>, released: bool) {
    forall i :: 0 <= i < |ds| ==> DoneOk(s, ds, i, released)
  }

  ghost predicate Inv(s: State) {
    && (forall e: nat :: EdOk(s, e))
    && (forall e: nat :: HistoryOk(s, e))
    && ListOk(s, s.retired, false) && ListOk(s, s.handed, false) && ListOk(s, s.fifo, true)
    && (forall u :: u in s.completed ==> u in s.urbs)
  }

  // ---------- sequences

  lemma {:induction false} ReversedSum<T>(a: seq<T>, b: seq<T>)
    ensures Reversed(a + b) == Reversed(b) + Reversed(a)
  {
    if a == [] {
      assert a + b == b;
    } else {
      assert (a + b)[1..] == a[1..] + b;
      ReversedSum(a[1..], b);
    }
  }

  lemma {:induction false} OnEdSum(urbs: map<nat, Urb>, a: seq<Done>, b: seq<Done>, e: nat)
    ensures OnEd(urbs, a + b, e) == OnEd(urbs, a, e) + OnEd(urbs, b, e)
  {
    if a == [] {
      assert a + b == b;
    } else {
      assert (a + b)[1..] == a[1..] + b;
      OnEdSum(urbs, a[1..], b, e);
    }
  }

  lemma {:induction false} OnEdMembers(urbs: map<nat, Urb>, ds: seq<Done>, e: nat)
    ensures forall i :: 0 <= i < |OnEd(urbs, ds, e)| ==> OnEd(urbs, ds, e)[i] in ds && Of(urbs, OnEd(urbs, ds, e)[i], e)
  {
    if ds != [] {
      OnEdMembers(urbs, ds[1..], e);
    }
  }

  lemma {:induction false} OnEdOne(urbs: map<nat, Urb>, d: Done, e: nat)
    ensures OnEd(urbs, [d], e) == if Of(urbs, d, e) then [d] else []
  {
    assert [d][1..] == [];
    assert OnEd(urbs, [], e) == [];
  }

  lemma {:induction false} FlatSum(p: seq<Segment>, q: seq<Segment>)
    requires Ordered(p) && Ordered(q)
    ensures Ordered(p + q) && Flat(p + q) == Flat(p) + Flat(q)
  {
    if p == [] {
      assert p + q == q;
    } else {
      assert (p + q)[1..] == p[1..] + q;
      FlatSum(p[1..], q);
    }
  }

  lemma {:induction false} FlatCons(g: Segment, r: seq<Segment>)
    requires g.first < g.end && Ordered(r)
    ensures Ordered([g] + r) && Flat([g] + r) == Tds(g.urb, g.first, g.end) + Flat(r)
  {
    var p := [g] + r;
    assert p[1..] == r;
    forall i | 0 <= i < |p|
      ensures p[i].first < p[i].end
    {
    }
  }

  /** Every descriptor in the flat list lies in a segment. */
  lemma {:induction false} FlatAt(p: seq<Segment>, m: nat) returns (k: nat)
    requires Ordered(p) && m < |Flat(p)|
    ensures k < |p| && p[k].urb == Flat(p)[m].urb && p[k].first <= Flat(p)[m].index < p[k].end
    ensures m == |Flat(p[..k])| + (Flat(p)[m].index - p[k].first)
  {
    var h := p[0].end - p[0].first;
    if m < h {
      k := 0;
    } else {
      var j := FlatAt(p[1..], m - h);
      k := j + 1;
      assert p[..k] == [p[0]] + p[1..][..j];
      FlatCons(p[0], p[1..][..j]);
    }
  }

  lemma {:induction false} FlatSplit(p: seq<Segment>, k: nat)
    requires Ordered(p) && k < |p|
    ensures Flat(p) == Flat(p[..k]) + (Tds(p[k].urb, p[k].first, p[k].end) + Flat(p[k + 1..]))
  {
    FlatSum(p[..k], p[k..]);
    assert p == p[..k] + p[k..];
    FlatCons(p[k], p[k + 1..]);
    assert p[k..] == [p[k]] + p[k + 1..];
  }

  lemma {:induction false} ShortenAt(p: seq<Segment>, t: Td, k: nat)
    requires k < |p| && p[k].urb == t.urb && forall j :: 0 <= j < k ==> p[j].urb != t.urb
    ensures Shorten(p, t) == p[k := p[k].(end := t.index + 1)]
  {
    if k > 0 {
      ShortenAt(p[1..], t, k - 1);
    }
  }

  lemma {:induction false} BehindTds(u: nat, first: nat, end: nat, rest: seq<Td>)
    requires first < end
    ensures Behind(Tds(u, first, end) + rest, Td(u, end - 1)) == rest
    decreases end - first
  {
    var q := Tds(u, first, end) + rest;
    if first + 1 < end {
      assert q[1..] == Tds(u, first + 1, end) + rest;
      BehindTds(u, first + 1, end, rest);
    } else {
      assert q[1..] == rest;
    }
  }
}

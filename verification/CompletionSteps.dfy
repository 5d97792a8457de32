/** What each step of the completion machine does to the invariant of one endpoint. */
module CompletionSteps {
  import opened Completion

  // ---------- submitting and retiring

  lemma {:induction false} SegmentsAfterSubmit(s: State, t: State, e: nat, p: seq<Segment>, u: nat, n: nat)
    requires Segments(s, e, p) && n > 0 && u !in s.urbs
    requires t.urbs == s.urbs[u := Urb(e, n)] && t.count == s.count[u := 0]
    ensures Segments(t, e, p + [Segment(u, 0, n)])
  {
    var q := p + [Segment(u, 0, n)];
    forall k | 0 <= k < |q|
      ensures SegmentOk(t, e, q, k)
    {
      assert k < |p| ==> SegmentOk(s, e, p, k);
    }
    forall j, k | 0 <= j < k < |q|
      ensures SegmentPair(q, j, k)
    {
      assert SegmentOk(s, e, p, j);
      assert k < |p| ==> SegmentPair(p, j, k);
    }
  }

  lemma {:induction false} SubmitKeepsEd(s: State, t: State, e: nat, ed: Endpoint, l: seq<Done>, u: nat, n: nat)
    requires EdInv(s, e, ed, l) && n > 0 && u !in s.urbs
    requires t.urbs == s.urbs[u := Urb(e, n)] && t.count == s.count[u := 0]
    ensures EdInv(t, e, Endpoint(ed.queue + Tds(u, 0, n), ed.halted, true, ed.submitted + [u],
                                 ed.pending + [Segment(u, 0, n)]), l)
  {
    var g, p := Segment(u, 0, n), ed.pending + [Segment(u, 0, n)];
    FlatSum(ed.pending, [g]);
    assert Flat([g]) == Tds(u, 0, n) + Flat([]) by {
      assert [g][1..] == [];
    }
    SegmentsAfterSubmit(s, t, e, ed.pending, u, n);
    forall i | 0 <= i < |l|
      ensures ErrorOk(l, i, ed.halted, p)
    {
      assert ErrorOk(l, i, ed.halted, ed.pending);
      if l[i].cc != 0 && l[i].released {
        var k :| 0 <= k < |ed.pending| && EndsAt(ed.pending, k, l[i].td);
        assert EndsAt(p, k, l[i].td);
      }
    }
    forall k | 0 <= k < |p|
      ensures EndOk(t, l, p, k)
    {
      if k < |ed.pending| {
        assert SegmentOk(s, e, ed.pending, k);
        EndOkTransfer(s, t, l, l, ed.pending, p, k);
      }
    }
  }

  lemma {:induction false} RetireKeepsEd(s: State, t: State, e: nat, ed: Endpoint, l: seq<Done>, cc: nat)
    requires EdInv(s, e, ed, l) && ed.queue != [] && !ed.halted
    requires t.urbs == s.urbs && t.count == s.count
    ensures Of(s.urbs, Done(ed.queue[0], cc, false), e) && Known(s, Done(ed.queue[0], cc, false))
    ensures EdInv(t, e, ed.(queue := ed.queue[1..], halted := ed.halted || cc != 0),
                  l + [Done(ed.queue[0], cc, false)])
  {
    var d, m, p := Done(ed.queue[0], cc, false), l + [Done(ed.queue[0], cc, false)], ed.pending;
    assert Flat(p)[|l|] == d.td;
    var k := FlatAt(p, |l|);
    assert SegmentOk(s, e, p, k);
    assert TdsOf(m) + ed.queue[1..] == TdsOf(l) + ed.queue;
    forall j | 0 <= j < |p|
      ensures SegmentOk(t, e, p, j)
    {
      assert SegmentOk(s, e, p, j);
    }
    var halted := ed.halted || cc != 0;
    forall i | 0 <= i < |m|
      ensures ErrorOk(m, i, halted, p)
    {
      if i < |l| {
        assert ErrorOk(l, i, ed.halted, p);
      }
    }
    forall j | 0 <= j < |p|
      ensures EndOk(t, m, p, j)
    {
      EndOkTransfer(s, t, l, m, p, p, j);
    }
  }

  ghost predicate StaysReleased(l: seq<Done>, m: seq<Done>, i: nat)
    requires i < |l| <= |m|
  {
    l[i].released ==> m[i] == l[i]
  }

  /** More retired descriptors leave the released errors where they are. */
  lemma {:induction false} EndOkTransfer(s: State, t: State, l: seq<Done>, m: seq<Done>, p: seq<Segment>,
                                         q: seq<Segment>, k: nat)
    requires k < |p| && k < |q| && p[k] == q[k] && EndOk(s, l, p, k) && |l| <= |m|
    requires p[k].urb in t.urbs && t.urbs[p[k].urb] == s.urbs[p[k].urb]
    requires forall i :: 0 <= i < |l| ==> StaysReleased(l, m, i)
    ensures EndOk(t, m, q, k)
  {
    if p[k].end != s.urbs[p[k].urb].length {
      var i :| 0 <= i < |l| && ReleasedError(l, i, p[k]);
      assert StaysReleased(l, m, i);
      assert ReleasedError(m, i, q[k]);
    }
  }

  // ---------- counting off

  /** The oldest retired descriptor of an endpoint is the front of its oldest segment, and the count
      reaches the length exactly at the end of that segment. */
  lemma {:induction false} FrontOfSegment(s: State, e: nat, ed: Endpoint, l: seq<Done>)
    requires EdInv(s, e, ed, l) && l != []
    ensures ed.pending != [] && SegmentOk(s, e, ed.pending, 0)
    ensures l[0].td == Td(ed.pending[0].urb, ed.pending[0].first)
    ensures s.count[l[0].td.urb] + 1 == s.urbs[l[0].td.urb].length <==> ed.pending[0].first + 1 == ed.pending[0].end
    ensures s.count[l[0].td.urb] + 1 <= s.urbs[l[0].td.urb].length
  {
    assert Flat(ed.pending)[0] == l[0].td;
    assert SegmentOk(s, e, ed.pending, 0);
  }

  lemma {:induction false} SegmentsAfterCount(s: State, t: State, e: nat, p: seq<Segment>)
    requires Segments(s, e, p) && p != [] && t.urbs == s.urbs
    requires p[0].urb in s.count && t.count == s.count[p[0].urb := s.count[p[0].urb] + 1]
    ensures Segments(t, e, CountOff(p))
  {
    var q := CountOff(p);
    var z := |p| - |q|;
    assert SegmentOk(s, e, p, 0);
    forall k | 0 <= k < |q|
      ensures SegmentOk(t, e, q, k)
    {
      assert SegmentOk(s, e, p, k + z);
      if k + z > 0 {
        assert SegmentPair(p, 0, k + z);
      }
    }
    forall j, k | 0 <= j < k < |q|
      ensures SegmentPair(q, j, k)
    {
      assert SegmentPair(p, j + z, k + z);
    }
  }

  lemma {:induction false} FlatAfterCount(p: seq<Segment>)
    requires Ordered(p) && p != []
    ensures Ordered(CountOff(p)) && Flat(p) == [Td(p[0].urb, p[0].first)] + Flat(CountOff(p))
  {
    var g, r := p[0], p[1..];
    assert p == [g] + r;
    FlatCons(g, r);
    if g.first + 1 < g.end {
      var h := g.(first := g.first + 1);
      FlatCons(h, r);
      TdsFront(g.urb, g.first, g.end, Flat(r));
    } else {
      assert Tds(g.urb, g.first, g.end) == [Td(g.urb, g.first)];
    }
  }

  lemma {:induction false} TdsFront(u: nat, first: nat, end: nat, rest: seq<Td>)
    requires first < end
    ensures Tds(u, first, end) + rest == [Td(u, first)] + (Tds(u, first + 1, end) + rest)
  {
    assert Tds(u, first, end) == [Td(u, first)] + Tds(u, first + 1, end);
  }

  lemma {:induction false} FlatBehindFront(p: seq<Segment>, l: seq<Done>, queue: seq<Td>)
    requires Ordered(p) && p != [] && l != [] && Flat(p) == TdsOf(l) + queue
    ensures Ordered(CountOff(p)) && Flat(CountOff(p)) == TdsOf(l[1..]) + queue
  {
    FlatAfterCount(p);
    assert TdsOf(l) == [l[0].td] + TdsOf(l[1..]);
    assert Flat(CountOff(p)) == Flat(p)[1..];
  }

  lemma {:induction false} CountKeepsEd(s: State, t: State, e: nat, ed: Endpoint, l: seq<Done>)
    requires EdInv(s, e, ed, l) && l != [] && l[0].released && t.urbs == s.urbs
    requires l[0].td.urb in s.count && t.count == s.count[l[0].td.urb := s.count[l[0].td.urb] + 1]
    ensures EdInv(t, e, ed.(linked := ed.linked && ed.queue != [], pending := CountOff(ed.pending)), l[1..])
  {
    var p, q, m := ed.pending, CountOff(ed.pending), l[1..];
    FrontOfSegment(s, e, ed, l);
    SegmentsAfterCount(s, t, e, p);
    FlatBehindFront(p, l, ed.queue);
    forall i | 0 <= i < |m|
      ensures ErrorOk(m, i, ed.halted, q)
    {
      ErrorAfterCount(s, e, ed, l, i);
    }
    forall k | 0 <= k < |q|
      ensures EndOk(t, m, q, k)
    {
      EndAfterCount(s, t, e, ed, l, k);
    }
  }

  lemma {:induction false} ErrorAfterCount(s: State, e: nat, ed: Endpoint, l: seq<Done>, i: nat)
    requires EdInv(s, e, ed, l) && l != [] && i < |l[1..]|
    ensures ErrorOk(l[1..], i, ed.halted, CountOff(ed.pending))
  {
    var p, q, m := ed.pending, CountOff(ed.pending), l[1..];
    FrontOfSegment(s, e, ed, l);
    assert ErrorOk(l, i + 1, ed.halted, p) && m[i] == l[i + 1];
    if m[i].cc != 0 && m[i].released {
      var k :| 0 <= k < |p| && EndsAt(p, k, m[i].td);
      if k == 0 && |q| < |p| {
        SegmentIsGone(s, e, ed, l, i + 1);
        assert false;
      }
      assert EndsAt(q, k - (|p| - |q|), m[i].td);
    }
  }

  /** When the last descriptor of the oldest segment is counted, no later one has the same request. */
  lemma {:induction false} SegmentIsGone(s: State, e: nat, ed: Endpoint, l: seq<Done>, i: nat)
    requires EdInv(s, e, ed, l) && 0 < i < |l| && ed.pending != []
    requires ed.pending[0].first + 1 == ed.pending[0].end
    ensures l[i].td.urb != ed.pending[0].urb
  {
    var p := ed.pending;
    assert Flat(p)[i] == l[i].td;
    var k := FlatAt(p[1..], i - 1);
    assert SegmentPair(p, 0, k + 1);
  }

  lemma {:induction false} EndAfterCount(s: State, t: State, e: nat, ed: Endpoint, l: seq<Done>, k: nat)
    requires EdInv(s, e, ed, l) && l != [] && t.urbs == s.urbs && k < |CountOff(ed.pending)|
    ensures EndOk(t, l[1..], CountOff(ed.pending), k)
  {
    var p, q, m := ed.pending, CountOff(ed.pending), l[1..];
    FrontOfSegment(s, e, ed, l);
    var j := k + (|p| - |q|);
    assert EndOk(s, l, p, j);
    if q[k].end != s.urbs[q[k].urb].length {
      var i :| 0 <= i < |l| && ReleasedError(l, i, p[j]);
      assert j > 0 ==> SegmentPair(p, 0, j);
      if i == 0 {
        assert false;
      }
      assert ReleasedError(m, i - 1, q[k]);
    }
  }

  // ---------- reversing

  /** Marking a descriptor that carries no error changes nothing. */
  lemma {:induction false} MarkKeepsEd(s: State, t: State, e: nat, ed: Endpoint, a: seq<Done>, d: Done, b: seq<Done>)
    requires EdInv(s, e, ed, a + [d] + b) && d.cc == 0 && t.urbs == s.urbs && t.count == s.count
    ensures EdInv(t, e, ed, a + [d.(released := true)] + b)
  {
    var l, m, p := a + [d] + b, a + [d.(released := true)] + b, ed.pending;
    assert TdsOf(l) == TdsOf(m);
    forall k | 0 <= k < |p|
      ensures SegmentOk(t, e, p, k)
    {
      assert SegmentOk(s, e, p, k);
    }
    forall i | 0 <= i < |m|
      ensures ErrorOk(m, i, ed.halted, p)
    {
      assert ErrorOk(l, i, ed.halted, p);
    }
    forall k | 0 <= k < |p|
      ensures EndOk(t, m, p, k)
    {
      assert EndOk(s, l, p, k);
      if p[k].end != s.urbs[p[k].urb].length {
        var i :| 0 <= i < |l| && ReleasedError(l, i, p[k]);
        assert ReleasedError(m, i, p[k]);
      }
    }
  }

  /** Cutting segment k short behind t, the last descriptor of x. */
  lemma {:induction false} CutFlat(p: seq<Segment>, x: seq<Td>, y: seq<Td>, t: Td, k: nat)
    requires Ordered(p) && k < |p| && p[k].first <= t.index < p[k].end && p[k].urb == t.urb
    requires Flat(p) == x + y && |x| == |Flat(p[..k])| + (t.index + 1 - p[k].first)
    ensures y == Tds(t.urb, t.index + 1, p[k].end) + Flat(p[k + 1..])
    ensures Ordered(p[k := p[k].(end := t.index + 1)])
    ensures Flat(p[k := p[k].(end := t.index + 1)]) == x + Flat(p[k + 1..])
  {
    var q := p[k := p[k].(end := t.index + 1)];
    FlatSplit(p, k);
    FlatSplit(q, k);
    assert q[..k] == p[..k] && q[k + 1..] == p[k + 1..];
    var a, b := Flat(p[..k]), Tds(t.urb, p[k].first, t.index + 1);
    var c, d := Tds(t.urb, t.index + 1, p[k].end), Flat(p[k + 1..]);
    assert Tds(t.urb, p[k].first, p[k].end) == b + c;
    SameCut(a, b, c, d, x, y);
  }

  lemma {:induction false} SameCut<T>(a: seq<T>, b: seq<T>, c: seq<T>, d: seq<T>, x: seq<T>, y: seq<T>)
    requires a + (b + c + d) == x + y && |a| + |b| == |x|
    ensures x + d == a + (b + d) && y == c + d
  {
    assert a + (b + c + d) == (a + b) + (c + d);
    assert (a + b) + (c + d) == x + y;
    assert x == (x + y)[..|x|] == a + b;
    assert y == (x + y)[|x|..] == c + d;
  }

  // ---------- releasing a halted endpoint

  /** A descriptor of a segment's request behind flat position m is not at the segment's end at or before m. */
  lemma {:induction false} LaterInSegment(s: State, e: nat, ed: Endpoint, l: seq<Done>, i: nat, m: nat)
    requires EdInv(s, e, ed, l) && i < m < |l| && l[i].td.urb == l[m].td.urb
    ensures l[i].td.index < l[m].td.index
  {
    var p := ed.pending;
    assert Flat(p)[i] == l[i].td && Flat(p)[m] == l[m].td;
    var j := FlatAt(p, i);
    var k := FlatAt(p, m);
    assert j < k ==> SegmentPair(p, j, k);
    assert k < j ==> SegmentPair(p, k, j);
    assert j == k;
  }

  /** The segment of an unreleased error: it is complete, and behind the error the queue continues
      with the rest of the request and then the later segments. */
  lemma {:induction false} ErrorSegment(s: State, e: nat, ed: Endpoint, a: seq<Done>, d: Done) returns (k: nat)
    requires EdInv(s, e, ed, a + [d]) && d.cc != 0 && !d.released
    ensures k < |ed.pending| && SegmentOk(s, e, ed.pending, k) && ed.pending[k].urb == d.td.urb
    ensures ed.pending[k].first <= d.td.index < ed.pending[k].end == s.urbs[d.td.urb].length
    ensures |TdsOf(a + [d])| == |Flat(ed.pending[..k])| + (d.td.index + 1 - ed.pending[k].first)
  {
    var l, p := a + [d], ed.pending;
    assert Flat(p)[|a|] == l[|a|].td;
    k := FlatAt(p, |a|);
    assert SegmentOk(s, e, p, k) && EndOk(s, l, p, k);
    if p[k].end != s.urbs[p[k].urb].length {
      var i :| 0 <= i < |l| && ReleasedError(l, i, p[k]);
      assert i != |a|;
      LaterInSegment(s, e, ed, l, i, |a|);
      assert false;
    }
  }

  ghost predicate Releases(s: State, t: State, d: Done)
    requires Known(s, d)
  {
    && t.urbs == s.urbs
    && t.count == s.count[d.td.urb := s.count[d.td.urb] + (s.urbs[d.td.urb].length - d.td.index - 1)]
  }

  /** The endpoint afterwards, if the error was not the request's last descriptor. */
  ghost function CutEndpoint(s: State, ed: Endpoint, d: Done): Endpoint
    requires Known(s, d)
  {
    ed.(queue := Behind(ed.queue, Td(d.td.urb, s.urbs[d.td.urb].length - 1)), halted := false,
        pending := Shorten(ed.pending, d.td))
  }

  lemma {:induction false} CutShape(s: State, e: nat, ed: Endpoint, a: seq<Done>, d: Done) returns (k: nat)
    requires EdInv(s, e, ed, a + [d]) && d.cc != 0 && !d.released && Known(s, d)
    requires d.td.index + 1 < s.urbs[d.td.urb].length
    ensures k < |ed.pending| && SegmentOk(s, e, ed.pending, k) && ed.pending[k].urb == d.td.urb
    ensures ed.pending[k].first <= d.td.index < ed.pending[k].end == s.urbs[d.td.urb].length
    ensures Shorten(ed.pending, d.td) == ed.pending[k := ed.pending[k].(end := d.td.index + 1)]
    ensures CutEndpoint(s, ed, d).queue == Flat(ed.pending[k + 1..])
    ensures Ordered(Shorten(ed.pending, d.td))
    ensures Flat(Shorten(ed.pending, d.td)) == TdsOf(a + [d]) + Flat(ed.pending[k + 1..])
  {
    var p := ed.pending;
    k := ErrorSegment(s, e, ed, a, d);
    forall j | 0 <= j < k
      ensures p[j].urb != d.td.urb
    {
      assert SegmentPair(p, j, k);
    }
    ShortenAt(p, d.td, k);
    CutFlat(p, TdsOf(a + [d]), ed.queue, d.td, k);
    BehindTds(d.td.urb, d.td.index + 1, p[k].end, Flat(p[k + 1..]));
  }

  lemma {:induction false} SegmentsAfterCut(s: State, t: State, e: nat, p: seq<Segment>, d: Done, k: nat)
    requires Segments(s, e, p) && Known(s, d) && Releases(s, t, d) && k < |p| && p[k].urb == d.td.urb
    requires p[k].first <= d.td.index < p[k].end == s.urbs[d.td.urb].length
    ensures Segments(t, e, p[k := p[k].(end := d.td.index + 1)])
  {
    var q := p[k := p[k].(end := d.td.index + 1)];
    forall j | 0 <= j < |q|
      ensures SegmentOk(t, e, q, j)
    {
      assert SegmentOk(s, e, p, j);
      if j < k {
        assert SegmentPair(p, j, k);
      } else if k < j {
        assert SegmentPair(p, k, j);
      }
    }
    forall i, j | 0 <= i < j < |q|
      ensures SegmentPair(q, i, j)
    {
      assert SegmentPair(p, i, j);
    }
  }

  lemma {:induction false} ErrorAfterCut(s: State, e: nat, ed: Endpoint, a: seq<Done>, d: Done, k: nat, i: nat)
    requires EdInv(s, e, ed, a + [d]) && d.cc != 0 && !d.released && i <= |a|
    requires k < |ed.pending| && ed.pending[k].urb == d.td.urb && d.td.index < ed.pending[k].end
    ensures ErrorOk(a + [d.(released := true)], i, false, ed.pending[k := ed.pending[k].(end := d.td.index + 1)])
  {
    var l, m, p := a + [d], a + [d.(released := true)], ed.pending;
    var q := p[k := p[k].(end := d.td.index + 1)];
    if i == |a| {
      assert EndsAt(q, k, m[i].td);
    } else {
      assert ErrorOk(l, i, ed.halted, p) && m[i] == l[i];
      if l[i].cc != 0 {
        var j :| 0 <= j < |p| && EndsAt(p, j, l[i].td);
        if j == k {
          LaterInSegment(s, e, ed, l, i, |a|);
          assert false;
        }
        assert EndsAt(q, j, m[i].td);
      }
    }
  }

  lemma {:induction false} CutKeepsEd(s: State, t: State, e: nat, ed: Endpoint, a: seq<Done>, d: Done)
    requires EdInv(s, e, ed, a + [d]) && d.cc != 0 && !d.released && Known(s, d) && Releases(s, t, d)
    requires d.td.index + 1 < s.urbs[d.td.urb].length
    ensures EdInv(t, e, CutEndpoint(s, ed, d), a + [d.(released := true)])
  {
    var l, m, p, q := a + [d], a + [d.(released := true)], ed.pending, Shorten(ed.pending, d.td);
    var k := CutShape(s, e, ed, a, d);
    SegmentsAfterCut(s, t, e, p, d, k);
    assert TdsOf(m) == TdsOf(l);
    forall i | 0 <= i < |m|
      ensures ErrorOk(m, i, false, q)
    {
      ErrorAfterCut(s, e, ed, a, d, k, i);
    }
    forall j | 0 <= j < |q|
      ensures EndOk(t, m, q, j)
    {
      assert SegmentOk(t, e, q, j);
      if j == k {
        assert ReleasedError(m, |a|, q[j]);
      } else {
        EndOkTransfer(s, t, l, m, p, q, j);
      }
    }
    assert ed.queue == [] ==> CutEndpoint(s, ed, d).queue == [];
  }

  /** An error on the last descriptor of its request only lifts the halt. */
  lemma {:induction false} LiftKeepsEd(s: State, t: State, e: nat, ed: Endpoint, a: seq<Done>, d: Done)
    requires EdInv(s, e, ed, a + [d]) && d.cc != 0 && !d.released && Known(s, d)
    requires t.urbs == s.urbs && t.count == s.count && d.td.index + 1 == s.urbs[d.td.urb].length
    ensures EdInv(t, e, ed.(halted := false), a + [d.(released := true)])
  {
    var l, m, p := a + [d], a + [d.(released := true)], ed.pending;
    var k := ErrorSegment(s, e, ed, a, d);
    assert p[k := p[k].(end := d.td.index + 1)] == p;
    assert TdsOf(m) == TdsOf(l);
    forall i | 0 <= i < |m|
      ensures ErrorOk(m, i, false, p)
    {
      ErrorAfterCut(s, e, ed, a, d, k, i);
    }
    forall j | 0 <= j < |p|
      ensures EndOk(t, m, p, j)
    {
      EndOkTransfer(s, t, l, m, p, p, j);
    }
    forall j | 0 <= j < |p|
      ensures SegmentOk(t, e, p, j)
    {
      assert SegmentOk(s, e, p, j);
    }
  }
}

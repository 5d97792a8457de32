/** Who owns the blocks of the local memory: one dummy descriptor for every endpoint in use, and the
    descriptors and bounce buffers of every live request.

    Here a granted block is any that is not in use; DriverMemory takes it from the allocator. */
module Ownership {
  /** What a block is for. */
  datatype Role = Dummy(ed: nat) | Td(urb: nat, index: nat) | Data(urb: nat) | Setup(urb: nat)

  /** The blocks a request has: its first `length` descriptors, and its bounce buffers; `data` is how many bytes were
      asked for, 0 for none. */
  datatype Shape = Shape(length: nat, data: nat, setup: bool)

  datatype State = State(
    used: set<nat>,             // the allocated blocks
    at: map<Role, nat>,         // hwTailP of endpoints; td[], transfer_buffer and setup_packet of requests
    eds: set<nat>,              // endpoints that are not ED_NEW
    live: map<nat, Shape>)      // requests with a private part

  const START := State({}, map[], {}, map[])

  ghost predicate RoleOk(s: State, r: Role) {
    r in s.at <==>
      match r
      case Dummy(e) => e in s.eds
      case Td(u, i) => u in s.live && i < s.live[u].length
      case Data(u) => u in s.live && s.live[u].data > 0
      case Setup(u) => u in s.live && s.live[u].setup
  }

  predicate Apart(at: map<Role, nat>, q: Role, r: Role)
    requires q in at && r in at
  {
    at[q] != at[r]
  }

  /** No block has two owners. */
  ghost predicate Injective(at: map<Role, nat>) {
    forall q, r :: q in at && r in at && q != r ==> Apart(at, q, r)
  }

  /** The allocated blocks are exactly the owned ones: nothing is shared and nothing is lost. */
  ghost predicate Inv(s: State) {
    && Injective(s.at)
    && s.used == s.at.Values
    && forall r :: RoleOk(s, r)
  }

  // ---------- allocating, releasing, filling

  function Grown(s: State, u: nat, shape: Shape): State {
    s.(live := s.live[u := shape])
  }

  function Grant(s: State, r: Role, a: nat): State {
    s.(used := s.used + {a}, at := s.at[r := a])
  }

  lemma {:induction false} GrantInjective(s: State, r: Role, a: nat)
    requires Injective(s.at) && s.used == s.at.Values && a !in s.used && r !in s.at
    ensures Injective(Grant(s, r, a).at) && Grant(s, r, a).used == Grant(s, r, a).at.Values
  {
    var t := Grant(s, r, a);
    forall p, q | p in t.at && q in t.at && p != q
      ensures Apart(t.at, p, q)
    {
      assert p != r ==> s.at[p] in s.at.Values;
      assert q != r ==> s.at[q] in s.at.Values;
      assert p != r && q != r ==> Apart(s.at, p, q);
    }
    forall b | b in t.used
      ensures b in t.at.Values
    {
      if b == a {
        assert t.at[r] == a;
      } else {
        var q :| q in s.at && s.at[q] == b;
        assert t.at[q] == b;
      }
    }
  }

  /** The state after a block of some size was granted for role r, which the endpoint or request now has. */
  function Allocated(s: State, r: Role, a: nat, size: nat): State
    requires r.Dummy? || r.urb in s.live
  {
    var t := Grant(s, r, a);
    match r
    case Dummy(e) => t.(eds := t.eds + {e})
    case Td(u, i) => Grown(t, u, s.live[u].(length := i + 1))
    case Data(u) => Grown(t, u, s.live[u].(data := size))
    case Setup(u) => Grown(t, u, s.live[u].(setup := true))
  }

  lemma {:induction false} AllocatedInv(s: State, r: Role, a: nat, size: nat)
    requires Inv(s) && a !in s.used && r !in s.at && (r.Dummy? || r.urb in s.live) && size > 0
    requires r.Td? ==> r.index == s.live[r.urb].length
    ensures Inv(Allocated(s, r, a, size))
  {
    var t := Allocated(s, r, a, size);
    GrantInjective(s, r, a);
    forall q
      ensures RoleOk(t, q)
    {
      assert RoleOk(s, q);
    }
  }

  predicate Of(r: Role, u: nat) {
    !r.Dummy? && r.urb == u
  }

  /** urb_rm_priv: every block of the request is freed. */
  function Released(s: State, u: nat): State {
    s.(used := s.used - (map r | r in s.at && Of(r, u) :: s.at[r]).Values,
       at := map r | r in s.at && !Of(r, u) :: s.at[r],
       live := s.live - {u})
  }

  lemma {:induction false} ReleasedInv(s: State, u: nat)
    requires Inv(s)
    ensures Inv(Released(s, u))
  {
    var t := Released(s, u);
    forall q, r | q in t.at && r in t.at && q != r
      ensures Apart(t.at, q, r)
    {
      assert Apart(s.at, q, r);
    }
    var gone := map r | r in s.at && Of(r, u) :: s.at[r];
    forall r | r in s.at && Of(r, u)
      ensures s.at[r] !in t.used
    {
      assert gone[r] == s.at[r];
    }
    forall b | b in t.used
      ensures b in t.at.Values
    {
      var q :| q in s.at && s.at[q] == b;
      assert t.at[q] == b;
    }
    forall b | b in t.at.Values
      ensures b in t.used
    {
      var q :| q in t.at && t.at[q] == b;
      forall r | r in gone
        ensures gone[r] != b
      {
        assert Apart(s.at, q, r);
      }
    }
    forall r
      ensures RoleOk(t, r)
    {
      assert RoleOk(s, r);
    }
  }

  /** dl_del_list: an endpoint's dummy is freed. */
  function Freed(s: State, e: nat): State
    requires Dummy(e) in s.at
  {
    s.(used := s.used - {s.at[Dummy(e)]}, at := s.at - {Dummy(e)}, eds := s.eds - {e})
  }

  lemma {:induction false} FreedInv(s: State, e: nat)
    requires Inv(s) && Dummy(e) in s.at
    ensures Inv(Freed(s, e))
  {
    var t, d := Freed(s, e), Dummy(e);
    forall q, r | q in t.at && r in t.at && q != r
      ensures Apart(t.at, q, r)
    {
      assert Apart(s.at, q, r);
    }
    forall b | b in t.used
      ensures b in t.at.Values
    {
      var q :| q in s.at && s.at[q] == b;
      assert t.at[q] == b;
    }
    forall b | b in t.at.Values
      ensures b in t.used
    {
      var q :| q in t.at && t.at[q] == b;
      assert Apart(s.at, q, d);
    }
    forall r
      ensures RoleOk(t, r)
    {
      assert RoleOk(s, r);
    }
  }

  /** td_fill: the request takes the endpoint's dummy and gives its own descriptor for it. */
  function Filled(s: State, e: nat, u: nat, i: nat): State
    requires Dummy(e) in s.at && Td(u, i) in s.at
  {
    s.(at := s.at[Dummy(e) := s.at[Td(u, i)]][Td(u, i) := s.at[Dummy(e)]])
  }

  lemma {:induction false} FilledInv(s: State, e: nat, u: nat, i: nat)
    requires Inv(s) && Dummy(e) in s.at && Td(u, i) in s.at
    ensures Inv(Filled(s, e, u, i))
  {
    var t, d, x := Filled(s, e, u, i), Dummy(e), Td(u, i);
    forall q, r | q in t.at && r in t.at && q != r
      ensures Apart(t.at, q, r)
    {
      var q' := if q == d then x else if q == x then d else q;
      var r' := if r == d then x else if r == x then d else r;
      assert Apart(s.at, q', r');
    }
    forall b | b in t.used
      ensures b in t.at.Values
    {
      var q :| q in s.at && s.at[q] == b;
      assert t.at[if q == d then x else if q == x then d else q] == b;
    }
    forall r
      ensures RoleOk(t, r)
    {
      assert RoleOk(s, r);
    }
  }

  // ---------- what a submission changes

  /** Everything of other requests is where it was; so are all dummies but, maybe, that of endpoint e, which
      only can be new. */
  ghost predicate OnlyNew(s: State, t: State, e: nat) {
    && t.live == s.live
    && (t.eds == s.eds || t.eds == s.eds + {e})
    && (forall r :: r in s.at ==> r in t.at && t.at[r] == s.at[r])
    && (forall r :: r in t.at && r !in s.at ==> r == Dummy(e))
  }

  /** Request u has, in t, its first n descriptors and maybe buffers, and everything else is as in s. */
  ghost predicate OnlyAdded(s: State, t: State, u: nat, shape: Shape) {
    && u !in s.live && t.live == s.live[u := shape] && t.eds == s.eds
    && (forall r :: r in s.at ==> r in t.at && t.at[r] == s.at[r])
    && (forall r :: r in t.at && r !in s.at ==> Of(r, u))
  }

  /** Releasing what was added restores the state exactly. */
  lemma {:induction false} ReleaseRestores(s: State, t: State, u: nat, shape: Shape)
    requires Inv(s) && Inv(t) && OnlyAdded(s, t, u, shape)
    ensures Released(t, u) == s
  {
    var r := Released(t, u);
    forall q
      ensures q in r.at <==> q in s.at
    {
      assert RoleOk(s, q);
    }
    assert r.at == s.at;
    assert r.live == s.live;
    ReleasedInv(t, u);
  }

  /** Only descriptors of u and the dummy of e may have changed places. */
  ghost predicate OnlyRotated(s: State, t: State, e: nat, u: nat) {
    && t.used == s.used && t.live == s.live && t.eds == s.eds && t.at.Keys == s.at.Keys
    && forall r :: r in s.at && r != Dummy(e) && !Of(r, u) ==> t.at[r] == s.at[r]
  }

  /** Where descriptor i of u was before the first cnt of them went through the dummy's place. */
  function Source(e: nat, u: nat, cnt: nat, i: nat): Role {
    if i >= cnt then Td(u, i) else if i == 0 then Dummy(e) else Td(u, i - 1)
  }

  ghost predicate RotatedAt(s: State, t: State, e: nat, u: nat, cnt: nat, i: nat) {
    Td(u, i) in t.at && Source(e, u, cnt, i) in s.at && t.at[Td(u, i)] == s.at[Source(e, u, cnt, i)]
  }

  ghost predicate Rotated(s: State, t: State, e: nat, u: nat, cnt: nat, length: nat) {
    && (forall i :: 0 <= i < length ==> RotatedAt(s, t, e, u, cnt, i))
    && Dummy(e) in t.at && (cnt > 0 ==> Td(u, cnt - 1) in s.at)
    && Dummy(e) in s.at && t.at[Dummy(e)] == s.at[if cnt == 0 then Dummy(e) else Td(u, cnt - 1)]
  }

  /** The state after the request's first cnt descriptors went through the dummy's place. */
  function FillAll(s: State, e: nat, u: nat, cnt: nat): State {
    if cnt == 0 then s
    else
      var t := FillAll(s, e, u, cnt - 1);
      if Dummy(e) in t.at && Td(u, cnt - 1) in t.at then Filled(t, e, u, cnt - 1) else t
  }

  lemma {:induction false} StillRotated(s: State, t: State, e: nat, u: nat, i: nat)
    requires OnlyRotated(s, t, e, u) && Dummy(e) in t.at && Td(u, i) in t.at && t.used == t.at.Values
    ensures OnlyRotated(s, Filled(t, e, u, i), e, u)
  {
    assert Filled(t, e, u, i).at.Keys == t.at.Keys;
  }

  lemma {:induction false} FillAllKeeps(s: State, e: nat, u: nat, cnt: nat)
    requires Inv(s) && e in s.eds && u in s.live && cnt <= s.live[u].length
    ensures Inv(FillAll(s, e, u, cnt)) && OnlyRotated(s, FillAll(s, e, u, cnt), e, u)
  {
    if cnt > 0 {
      var t := FillAll(s, e, u, cnt - 1);
      FillAllKeeps(s, e, u, cnt - 1);
      AllThere(t, e, u);
      FilledInv(t, e, u, cnt - 1);
      StillRotated(s, t, e, u, cnt - 1);
    }
  }

  lemma {:induction false} FillAllNext(s: State, e: nat, u: nat, k: nat)
    requires Inv(s) && e in s.eds && u in s.live && k < s.live[u].length
    ensures Dummy(e) in FillAll(s, e, u, k).at && Td(u, k) in FillAll(s, e, u, k).at
    ensures FillAll(s, e, u, k + 1) == Filled(FillAll(s, e, u, k), e, u, k)
  {
    FillAllKeeps(s, e, u, k);
    AllThere(FillAll(s, e, u, k), e, u);
  }

  lemma {:induction false} FillAllRotated(s: State, e: nat, u: nat, cnt: nat, length: nat)
    requires Inv(s) && e in s.eds && u in s.live && cnt <= s.live[u].length == length
    ensures Rotated(s, FillAll(s, e, u, cnt), e, u, cnt, length)
  {
    if cnt > 0 {
      var k := cnt - 1;
      FillAllRotated(s, e, u, k, length);
      FillAllNext(s, e, u, k);
      RotatedStep(s, FillAll(s, e, u, k), e, u, k, length);
    } else {
      AllThere(s, e, u);
    }
  }

  /** The old dummy becomes the first descriptor, every other moves up by one, and the last of them becomes the
      new dummy. */
  lemma {:induction false} FillAllRotates(s: State, e: nat, u: nat, cnt: nat)
    requires Inv(s) && e in s.eds && u in s.live && cnt <= s.live[u].length
    ensures Inv(FillAll(s, e, u, cnt)) && OnlyRotated(s, FillAll(s, e, u, cnt), e, u)
    ensures Rotated(s, FillAll(s, e, u, cnt), e, u, cnt, s.live[u].length)
  {
    FillAllKeeps(s, e, u, cnt);
    FillAllRotated(s, e, u, cnt, s.live[u].length);
  }

  /** The loop; a descriptor the request does not have is not filled. */
  method FillTds(s: State, e: nat, u: nat, cnt: nat) returns (t: State)
    ensures t == FillAll(s, e, u, cnt)
  {
    t := s;
    for k := 0 to cnt
      invariant t == FillAll(s, e, u, k)
    {
      if Dummy(e) in t.at && Td(u, k) in t.at {
        t := Filled(t, e, u, k);
      }
    }
  }

  lemma {:induction false} RotatedStep(s: State, t: State, e: nat, u: nat, k: nat, length: nat)
    requires Rotated(s, t, e, u, k, length) && k < length && Td(u, k) in t.at
    ensures Rotated(s, Filled(t, e, u, k), e, u, k + 1, length)
  {
    assert RotatedAt(s, t, e, u, k, k);
    var f, more := Filled(t, e, u, k), k + 1;
    forall i | 0 <= i < length
      ensures RotatedAt(s, f, e, u, more, i)
    {
      assert RotatedAt(s, t, e, u, k, i);
    }
  }

  lemma {:induction false} AllThere(s: State, e: nat, u: nat)
    requires Inv(s) && e in s.eds && u in s.live
    ensures Dummy(e) in s.at && forall i :: 0 <= i < s.live[u].length ==> Td(u, i) in s.at
  {
    assert RoleOk(s, Dummy(e));
    forall i | 0 <= i < s.live[u].length
      ensures Td(u, i) in s.at
    {
      assert RoleOk(s, Td(u, i));
    }
  }

  /** The request's first descriptor is the endpoint's old dummy. */
  ghost predicate TookDummy(s: State, t: State, e: nat, u: nat) {
    Dummy(e) in s.at ==> Td(u, 0) in t.at && t.at[Td(u, 0)] == s.at[Dummy(e)]
  }

  ghost predicate Submitted(s: State, t: State, e: nat, u: nat, cnt: nat, shape: Shape) {
    && t.live == s.live[u := shape] && t.eds == s.eds
    && (forall r :: r in s.at && r != Dummy(e) ==> r in t.at && t.at[r] == s.at[r])
    && (cnt > 0 ==> TookDummy(s, t, e, u))
  }

  lemma {:induction false} AddedThenFilled(s: State, m: State, t: State, e: nat, u: nat, cnt: nat, shape: Shape)
    requires OnlyAdded(s, m, u, shape) && OnlyRotated(m, t, e, u) && Rotated(m, t, e, u, cnt, shape.length)
    requires Inv(s) && e in s.eds && cnt <= shape.length
    ensures Submitted(s, t, e, u, cnt, shape)
  {
    forall r | r in s.at
      ensures !Of(r, u)
    {
      assert RoleOk(s, r);
    }
    if cnt > 0 {
      assert RotatedAt(m, t, e, u, cnt, 0) && RoleOk(s, Dummy(e));
    }
  }

  // ---------- nothing leaks

  lemma {:induction false} ValuesCount(at: map<Role, nat>)
    requires Injective(at)
    ensures |at.Values| == |at.Keys|
  {
    if at != map[] {
      var r :| r in at;
      var less := at - {r};
      assert less.Keys == at.Keys - {r};
      forall p, q | p in less && q in less && p != q
        ensures Apart(less, p, q)
      {
        assert Apart(at, p, q);
      }
      ValuesCount(less);
      forall b | b in at.Values && b != at[r]
        ensures b in less.Values
      {
        var q :| q in at && at[q] == b;
        assert less[q] == b;
      }
      forall q | q in less
        ensures less[q] != at[r]
      {
        assert Apart(at, q, r);
      }
      assert at.Values == less.Values + {at[r]};
    } else {
      assert at.Keys == {} && at.Values == {};
    }
  }

  /** The number of allocated blocks depends on the endpoints in use and the live requests only, not on
      what happened before. */
  lemma {:induction false} CountIsDetermined(s: State, t: State)
    requires Inv(s) && Inv(t) && s.eds == t.eds && s.live == t.live
    ensures |s.used| == |t.used|
  {
    forall r
      ensures r in s.at.Keys <==> r in t.at.Keys
    {
      assert RoleOk(s, r) && RoleOk(t, r);
    }
    ValuesCount(s.at);
    ValuesCount(t.at);
    assert s.at.Keys == t.at.Keys;
  }

  /** Without endpoints and requests nothing is allocated. */
  lemma {:induction false} NothingLeft(s: State)
    requires Inv(s) && s.eds == {} && s.live == map[]
    ensures s.used == {}
  {
    forall r
      ensures r !in s.at
    {
      assert RoleOk(s, r);
    }
  }
}

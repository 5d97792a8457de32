/** The allocator on its linked lists of cells.  Every operation is the corresponding operation of
    MemoryModel on what the lists hold. */
module LocalMem {
  import opened MemoryModel
  import opened Sequences

  class Cell {
    var p: nat
    var size: nat
    var next: Cell?

    constructor (p: nat, size: nat, next: Cell?)
      ensures this.p == p && this.size == size && this.next == next
    {
      this.p, this.size, this.next := p, size, next;
    }
  }

  ghost function Members(cs: seq<Cell>): set<Cell> {
    set c | c in cs
  }

  ghost predicate NextAt(cs: seq<Cell>, i: nat)
    requires i < |cs|
    reads {cs[i]}`next
  {
    cs[i].next == At(cs, i + 1, null)
  }

  ghost predicate HoldsAt(cs: seq<Cell>, bs: seq<Block>, i: nat)
    requires i < |cs| == |bs|
    reads {cs[i]}`p, {cs[i]}`size
  {
    bs[i] == Block(cs[i].p, cs[i].size)
  }

  /** A list that starts at head, runs through the cells cs and holds the blocks bs. */
  ghost predicate IsList(head: Cell?, cs: seq<Cell>, bs: seq<Block>)
    reads Members(cs)
  {
    && head == At(cs, 0, null)
    && Distinct(cs)
    && (forall i :: 0 <= i < |cs| ==> NextAt(cs, i))
    && |bs| == |cs|
    && (forall i :: 0 <= i < |cs| ==> HoldsAt(cs, bs, i))
  }

  lemma {:induction false} ConsIsList(c: Cell, cs: seq<Cell>, bs: seq<Block>)
    requires IsList(c.next, cs, bs) && c !in Members(cs)
    ensures IsList(c, [c] + cs, [Block(c.p, c.size)] + bs)
    ensures Members([c] + cs) == {c} + Members(cs)
  {
    var ds, es := [c] + cs, [Block(c.p, c.size)] + bs;
    forall i, j | 0 <= i < j < |ds|
      ensures Differ(ds, i, j)
    {
      if i > 0 {
        DistinctAt(cs, i - 1, j - 1);
      } else {
        assert cs[j - 1] in Members(cs);
      }
    }
    forall i | 0 <= i < |ds|
      ensures NextAt(ds, i)
    {
      if i > 0 {
        assert NextAt(cs, i - 1);
      }
    }
    forall i | 0 <= i < |ds|
      ensures HoldsAt(ds, es, i)
    {
      if i > 0 {
        assert HoldsAt(cs, bs, i - 1);
      }
    }
  }

  lemma {:induction false} MembersWithout(cs: seq<Cell>, x: nat)
    requires Distinct(cs) && x < |cs|
    ensures Members(Without(cs, x)) == Members(cs) - {cs[x]} && Distinct(Without(cs, x))
  {
    forall c | c in cs && c != cs[x]
      ensures c in Without(cs, x)
    {
      var i :| 0 <= i < |cs| && cs[i] == c;
      assert Without(cs, x)[if i < x then i else i - 1] == c;
    }
    forall i | 0 <= i < |Without(cs, x)|
      ensures Without(cs, x)[i] in cs && Without(cs, x)[i] != cs[x]
    {
      DistinctAt(cs, if i < x then i else i + 1, x);
    }
    forall i, j | 0 <= i < j < |Without(cs, x)|
      ensures Differ(Without(cs, x), i, j)
    {
      DistinctAt(cs, if i < x then i else i + 1, if j < x then j else j + 1);
    }
  }

  /** Takes cell x out of a list; returns the list's new head. */
  method Unchain(head: Cell?, prev: Cell?, current: Cell, ghost cs: seq<Cell>, ghost bs: seq<Block>, ghost x: nat)
    returns (newHead: Cell?)
    requires IsList(head, cs, bs) && x < |cs| && current == cs[x] && prev == At(cs, x - 1, null)
    modifies Members(cs)`next
    ensures IsList(newHead, Without(cs, x), Without(bs, x)) && Members(Without(cs, x)) == Members(cs) - {current}
    ensures bs[x] == Block(current.p, current.size)
  {
    assert NextAt(cs, x) && HoldsAt(cs, bs, x);
    MembersWithout(cs, x);
    newHead := head;
    if prev != null {
      DistinctAt(cs, x - 1, x);
      prev.next := current.next;
    } else {
      newHead := current.next;
    }
    forall i | 0 <= i < |Without(cs, x)|
      ensures NextAt(Without(cs, x), i)
    {
      var k := if i < x then i else i + 1;
      assert old(NextAt(cs, k));
      if x > 0 && k != x - 1 {
        DistinctAt(cs, k, x - 1);
      }
    }
    forall i | 0 <= i < |Without(cs, x)|
      ensures HoldsAt(Without(cs, x), Without(bs, x), i)
    {
      assert old(HoldsAt(cs, bs, if i < x then i else i + 1));
    }
  }

  /** Puts a cell in front of a list. */
  method Prepend(c: Cell, head: Cell?, ghost cs: seq<Cell>, ghost bs: seq<Block>)
    requires IsList(head, cs, bs) && c !in Members(cs)
    modifies c`next
    ensures IsList(c, [c] + cs, [Block(c.p, c.size)] + bs) && Members([c] + cs) == {c} + Members(cs)
  {
    c.next := head;
    ConsIsList(c, cs, bs);
  }

  /** Takes cell x out of one list and puts it in front of another. */
  method MoveCell(fromHead: Cell?, toHead: Cell?, prev: Cell?, current: Cell,
                  ghost from: seq<Cell>, ghost to: seq<Cell>, ghost bs: seq<Block>, ghost cs: seq<Block>, ghost x: nat)
    returns (newHead: Cell?)
    requires IsList(fromHead, from, bs) && IsList(toHead, to, cs) && Members(from) !! Members(to)
    requires x < |from| && current == from[x] && prev == At(from, x - 1, null)
    modifies Members(from)`next
    ensures IsList(newHead, Without(from, x), Without(bs, x)) && IsList(current, [current] + to, [bs[x]] + cs)
    ensures Members(Without(from, x)) == Members(from) - {current} && Members([current] + to) == {current} + Members(to)
    ensures bs[x].p == current.p
  {
    newHead := Unchain(fromHead, prev, current, from, bs, x);
    Prepend(current, toHead, to, cs);
  }

  /** Changes the size of one cell of a list. */
  method Resize(c: Cell, size: nat, ghost head: Cell?, ghost cs: seq<Cell>, ghost bs: seq<Block>, ghost x: nat)
    requires IsList(head, cs, bs) && x < |cs| && c == cs[x]
    modifies c`size
    ensures c.size == size && IsList(head, cs, bs[x := Block(c.p, size)])
  {
    c.size := size;
    ghost var resized := bs[x := Block(c.p, size)];
    forall i | 0 <= i < |cs|
      ensures HoldsAt(cs, resized, i)
    {
      assert old(HoldsAt(cs, bs, i));
      if i != x {
        DistinctAt(cs, i, x);
      }
    }
  }

  class Allocator {
    var freeList: Cell?
    var allocList: Cell?
    var nlocalMems: nat
    var insufficient: nat
    ghost var free: seq<Cell>
    ghost var used: seq<Cell>
    ghost var freeBlocks: seq<Block>
    ghost var usedBlocks: seq<Block>
    ghost var regions: seq<Block>

    ghost function Cells(): set<Cell>
      reads this
    {
      Members(free) + Members(used)
    }

    ghost predicate Valid()
      reads this, Cells()
    {
      && IsList(freeList, free, freeBlocks)
      && IsList(allocList, used, usedBlocks)
      && Members(free) !! Members(used)
      && nlocalMems == |regions|
    }

    ghost function View(): Mem
      reads this
    {
      Mem(freeBlocks, usedBlocks, regions, insufficient)
    }

    constructor ()
      ensures Valid() && View() == Mem([], [], [], 0) && Cells() == {}
    {
      freeList, allocList, nlocalMems, insufficient := null, null, 0, 0;
      free, used, freeBlocks, usedBlocks, regions := [], [], [], [], [];
    }

    /** Puts another region at the front of the free list. */
    method GrowLocalMem(g: Grant)
      requires Valid()
      modifies this
      ensures Valid() && View() == Grow(old(View()), g) && fresh(Cells() - old(Cells()))
    {
      if MAX_REGIONS < nlocalMems || g.NoRegion? {
        return;
      }
      var c := new Cell(g.base, UNIT, freeList);
      ConsIsList(c, free, freeBlocks);
      nlocalMems := nlocalMems + 1;
      freeList := c;
      free, freeBlocks := [c] + free, [Block(g.base, UNIT)] + freeBlocks;
      regions := regions + [Block(g.base, UNIT)];
    }

    /** The lists are these from now on. */
    method Relist(freeHead: Cell?, allocHead: Cell?, ghost fs: seq<Cell>, ghost us: seq<Cell>, ghost bs: seq<Block>,
                  ghost cs: seq<Block>)
      requires IsList(freeHead, fs, bs) && IsList(allocHead, us, cs) && Members(fs) !! Members(us)
      requires nlocalMems == |regions|
      modifies `freeList, `allocList, `free, `used, `freeBlocks, `usedBlocks
      ensures Valid() && free == fs && used == us && freeBlocks == bs && usedBlocks == cs
    {
      freeList, allocList := freeHead, allocHead;
      free, used, freeBlocks, usedBlocks := fs, us, bs, cs;
    }

    /** Moves free cell x to the front of the used list. */
    method MoveToUsed(prev: Cell?, current: Cell, ghost x: nat)
      requires Valid() && x < |free| && current == free[x] && prev == At(free, x - 1, null)
      modifies `freeList, `allocList, `free, `used, `freeBlocks, `usedBlocks, Members(free)`next
      ensures Valid() && Cells() == old(Cells())
      ensures freeBlocks == Without(old(freeBlocks), x) && usedBlocks == [old(freeBlocks)[x]] + old(usedBlocks)
      ensures usedBlocks[0].p == current.p
    {
      var rest := MoveCell(freeList, allocList, prev, current, free, used, freeBlocks, usedBlocks, x);
      Relist(rest, current, Without(free, x), [current] + used, Without(freeBlocks, x), [freeBlocks[x]] + usedBlocks);
    }

    /** Cuts the last n bytes off free cell x; without a cell for them they belong to no list. */
    method CutTail(current: Cell, n: nat, cell: bool, ghost x: nat) returns (p: nat)
      requires Valid() && x < |free| && current == free[x] && n < current.size
      modifies `allocList, `used, `freeBlocks, `usedBlocks, current`size
      ensures Valid() && fresh(Cells() - old(Cells()))
      ensures freeBlocks == old(freeBlocks)[x := Block(current.p, old(current.size) - n)]
      ensures p == if cell then current.p + (old(current.size) - n) else 0
      ensures usedBlocks == if cell then [Block(p, n)] + old(usedBlocks) else old(usedBlocks)
    {
      var q := current.p + (current.size - n);
      Resize(current, current.size - n, freeList, free, freeBlocks, x);
      freeBlocks := freeBlocks[x := Block(current.p, current.size)];
      if !cell {
        return 0;
      }
      var c := new Cell(q, n, allocList);
      ConsIsList(c, used, usedBlocks);
      allocList := c;
      used, usedBlocks := [c] + used, [Block(q, n)] + usedBlocks;
      p := q;
    }

    /** The first free cell with at least n bytes, and the cell before it. */
    method FindFit(n: nat) returns (prev: Cell?, current: Cell?, ghost i: nat)
      requires Valid()
      ensures i == FirstFit(freeBlocks, n, 0) && current == At(free, i, null) && prev == At(free, i - 1, null)
      ensures i < |free| ==> freeBlocks[i] == Block(free[i].p, free[i].size)
    {
      current, prev, i := freeList, null, 0;
      while current != null
        invariant i <= |free| && current == At(free, i, null) && prev == At(free, i - 1, null)
        invariant FirstFit(freeBlocks, n, 0) == FirstFit(freeBlocks, n, i)
        decreases |free| - i
      {
        assert HoldsAt(free, freeBlocks, i) && NextAt(free, i);
        if current.size >= n {
          return;
        }
        prev := current;
        current := current.next;
        i := i + 1;
      }
    }

    /** One search of the free list. */
    method TryTake(n: nat, cell: bool) returns (found: bool, p: nat)
      requires Valid()
      modifies this, Cells()
      ensures Valid() && fresh(Cells() - old(Cells()))
      ensures (View(), p) == Take(old(View()), n, cell) && found == Fits(old(View()), n)
    {
      var prev, current;
      ghost var i;
      prev, current, i := FindFit(n);
      if current == null {
        insufficient := insufficient + 1;
        found, p := false, 0;
      } else if current.size == n {
        MoveToUsed(prev, current, i);
        found, p := true, current.p;
      } else {
        p := CutTail(current, n, cell, i);
        found := true;
      }
    }

    /** Allocates size bytes; 0 is failure.  The platform's answers to at most two requests for a region
        are parameters, and so is whether a list cell can be had for a split. */
    method AllocLocalMem(size: nat, inInterrupt: bool, first: Grant, second: Grant, cell: bool) returns (p: nat)
      requires Valid()
      modifies this, Cells()
      ensures Valid() && fresh(Cells() - old(Cells()))
      ensures (View(), p) == Alloc(old(View()), size, inInterrupt, first, second, cell)
    {
      var size256 := ((size + 255) / 256) * 256;
      var found;
      found, p := Attempt(size256, inInterrupt, first, cell);
      if !found {
        found, p := Attempt(size256, inInterrupt, second, cell);
      }
    }

    /** One pass through the retry label. */
    method Attempt(n: nat, inInterrupt: bool, g: Grant, cell: bool) returns (found: bool, p: nat)
      requires Valid()
      modifies this, Cells()
      ensures Valid() && fresh(Cells() - old(Cells()))
      ensures (View(), p) == Take(Refill(old(View()), inInterrupt, g), n, cell)
      ensures found == Fits(Refill(old(View()), inInterrupt, g), n)
    {
      if !inInterrupt && insufficient != 0 {
        insufficient := 0;
        GrowLocalMem(g);
      }
      found, p := TryTake(n, cell);
    }

    /** The used cell with address p, and the cell before it. */
    method FindUsed(p: nat) returns (prev: Cell?, current: Cell?, ghost i: nat)
      requires Valid()
      ensures i == FindAddress(usedBlocks, p, 0) && current == At(used, i, null) && prev == At(used, i - 1, null)
      ensures i < |used| ==> usedBlocks[i] == Block(used[i].p, used[i].size)
    {
      current, prev, i := allocList, null, 0;
      while current != null
        invariant i <= |used| && current == At(used, i, null) && prev == At(used, i - 1, null)
        invariant FindAddress(usedBlocks, p, 0) == FindAddress(usedBlocks, p, i)
        decreases |used| - i
      {
        assert HoldsAt(used, usedBlocks, i) && NextAt(used, i);
        if current.p == p {
          return;
        }
        prev := current;
        current := current.next;
        i := i + 1;
      }
    }

    /** The free cell that ends at address p. */
    method FindFreeEnd(p: nat) returns (current: Cell?, ghost i: nat)
      requires Valid()
      ensures i == FindEnd(freeBlocks, p, 0) && current == At(free, i, null)
      ensures i < |free| ==> freeBlocks[i] == Block(free[i].p, free[i].size)
    {
      current, i := freeList, 0;
      while current != null
        invariant i <= |free| && current == At(free, i, null)
        invariant FindEnd(freeBlocks, p, 0) == FindEnd(freeBlocks, p, i)
        decreases |free| - i
      {
        assert HoldsAt(free, freeBlocks, i) && NextAt(free, i);
        if current.p + current.size == p {
          return;
        }
        current := current.next;
        i := i + 1;
      }
    }

    /** Merges used cell x into free cell y. */
    method Absorb(prev: Cell?, current: Cell, target: Cell, ghost x: nat, ghost y: nat)
      requires Valid() && x < |used| && current == used[x] && prev == At(used, x - 1, null)
      requires y < |free| && target == free[y]
      modifies `freeList, `allocList, `free, `used, `freeBlocks, `usedBlocks, target`size, Members(used)`next
      ensures Valid() && Cells() <= old(Cells())
      ensures freeBlocks == old(freeBlocks)[y := Block(target.p, old(target.size) + old(usedBlocks)[x].size)]
      ensures usedBlocks == Without(old(usedBlocks), x)
    {
      assert HoldsAt(used, usedBlocks, x);
      Resize(target, target.size + current.size, freeList, free, freeBlocks, y);
      var rest := Unchain(allocList, prev, current, used, usedBlocks, x);
      Relist(freeList, rest, free, Without(used, x), freeBlocks[y := Block(target.p, target.size)],
             Without(usedBlocks, x));
    }

    /** Moves used cell x to the front of the free list. */
    method MoveToFree(prev: Cell?, current: Cell, ghost x: nat)
      requires Valid() && x < |used| && current == used[x] && prev == At(used, x - 1, null)
      modifies `freeList, `allocList, `free, `used, `freeBlocks, `usedBlocks, Members(used)`next
      ensures Valid() && Cells() == old(Cells())
      ensures freeBlocks == [old(usedBlocks)[x]] + old(freeBlocks) && usedBlocks == Without(old(usedBlocks), x)
    {
      var rest := MoveCell(allocList, freeList, prev, current, used, free, usedBlocks, freeBlocks, x);
      Relist(current, rest, [current] + free, Without(used, x), [usedBlocks[x]] + freeBlocks, Without(usedBlocks, x));
    }

    /** Gives back the block at p. */
    method FreeLocalMem(p: nat) returns (done: bool)
      requires Valid()
      modifies this, Cells()
      ensures Valid() && Cells() <= old(Cells())
      ensures (View(), done) == Free(old(View()), p)
    {
      if p == 0 {
        return false;
      }
      var prev, current;
      ghost var u;
      prev, current, u := FindUsed(p);
      if current == null {
        return false;
      }
      var target;
      ghost var f;
      target, f := FindFreeEnd(p);
      if target != null {
        Absorb(prev, current, target, u, f);
      } else {
        MoveToFree(prev, current, u);
      }
      done := true;
    }
  }
}

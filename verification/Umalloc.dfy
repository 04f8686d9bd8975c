/**
  * The user allocator (user/umalloc.c): a circular, address-ordered free list threaded through block headers.
  * Addresses count header-sized units.
  */
module Umalloc {

  const HEADER: nat := 16
  const MINCORE: nat := 4096
  const NULL: nat := 0

  /** Units for nbytes of payload and the header. */
  function Units(nbytes: nat): (n: nat)
    ensures n >= 1 && nbytes <= (n - 1) * HEADER < nbytes + HEADER
  { (nbytes + HEADER - 1) / HEADER + 1 }

  /**
    * ring: the free list, from base upward.  ptr, size: the fields of every header.  live: the blocks handed out.
    * owner: for each unit taken from sbrk, the block it belongs to.
    */
  datatype State = State(
    base: nat, ring: seq<nat>, ptr: map<nat, nat>, size: map<nat, nat>, live: set<nat>, owner: map<nat, nat>)

  function Next(n: nat, i: nat): (j: nat) { if i + 1 < n then i + 1 else 0 }

  ghost predicate Sorted(ring: seq<nat>) { forall i, j :: 0 <= i < j < |ring| ==> ring[i] < ring[j] }

  /** Following ptr from any node of the ring visits the nodes in address order and closes the circle. */
  ghost predicate Linked(ring: seq<nat>, ptr: map<nat, nat>) { forall i: nat :: i < |ring| ==> LinkAt(ring, ptr, i) }

  ghost predicate LinkAt(ring: seq<nat>, ptr: map<nat, nat>, i: nat) {
    i < |ring| && ring[i] in ptr && ptr[ring[i]] == ring[Next(|ring|, i)]
  }

  /** The units owned by block b are exactly those its header claims. */
  ghost predicate Block(b: nat, size: map<nat, nat>, owner: map<nat, nat>) {
    && b in size && size[b] >= 1
    && forall u: nat :: u in owner && owner[u] == b <==> b <= u < b + size[b]
  }

  /** The blocks are disjoint and cover exactly the memory taken. */
  ghost predicate Tiled(base: nat, blocks: set<nat>, size: map<nat, nat>, owner: map<nat, nat>) {
    && (forall b :: b in blocks ==> Block(b, size, owner))
    && (forall u :: u in owner ==> u > base && owner[u] in blocks)
  }

  /** The free blocks, those on the ring but base, and the live ones. */
  ghost function Blocks(h: State): (r: set<nat>) { (set b | b in h.ring && b != h.base) + h.live }

  ghost predicate Heaped(h: State) {
    && |h.ring| >= 1 && h.ring[0] == h.base > NULL && Sorted(h.ring) && Linked(h.ring, h.ptr)
    && h.base in h.size && h.size[h.base] == 0 && h.base !in h.live
    && (forall b :: b in h.live ==> b !in h.ring)
    && Tiled(h.base, Blocks(h), h.size, h.owner)
  }

  /** Free neighbours i and i + 1 do not touch, except perhaps where `but` says. */
  ghost predicate Apart(ring: seq<nat>, size: map<nat, nat>, but: set<nat>) {
    forall i: nat :: 1 <= i < |ring| - 1 && i !in but ==> GapAt(ring, size, i)
  }

  ghost predicate GapAt(ring: seq<nat>, size: map<nat, nat>, i: nat) {
    i + 1 < |ring| && ring[i] in size && ring[i] + size[ring[i]] < ring[i + 1]
  }

  ghost predicate Inv(h: State) { Heaped(h) && Apart(h.ring, h.size, {}) }

  lemma RingBlock(h: State, i: nat)
    requires Heaped(h) && i < |h.ring|
    ensures h.ring[i] in h.size && h.ring[i] in h.ptr && h.ptr[h.ring[i]] == h.ring[Next(|h.ring|, i)]
    ensures i > 0 ==> h.ring[i] in Blocks(h) && Block(h.ring[i], h.size, h.owner)
  {
    assert LinkAt(h.ring, h.ptr, i);
    assert h.ring[i] in h.ring;
  }

  /** Blocks do not overlap. */
  lemma Disjoint(h: State, b: nat, c: nat)
    requires Block(b, h.size, h.owner) && Block(c, h.size, h.owner) && b < c
    ensures b + h.size[b] <= c
  {
    assert c in h.owner && h.owner[c] == c;
  }

  /** No block starts inside another. */
  lemma NoneInside(base: nat, blocks: set<nat>, size: map<nat, nat>, owner: map<nat, nat>, p: nat, q: nat)
    requires Tiled(base, blocks, size, owner) && p in blocks && p in size && p < q < p + size[p]
    ensures q !in blocks
  {
    assert Block(p, size, owner);
    assert q in owner && owner[q] == p;
  }

  // ---------------------------------------------------------------- the ring

  function Insert(ring: seq<nat>, i: nat, b: nat): (r: seq<nat>)
    requires i < |ring|
  { ring[..i + 1] + [b] + ring[i + 1..] }

  function Remove(ring: seq<nat>, i: nat): (r: seq<nat>)
    requires i < |ring|
  { ring[..i] + ring[i + 1..] }

  /** b belongs right after index i of the ring. */
  ghost predicate Fits(ring: seq<nat>, i: nat, b: nat) {
    i < |ring| && ring[i] < b && (i + 1 < |ring| ==> b < ring[i + 1])
  }

  lemma {:induction false} FindSpot(ring: seq<nat>, b: nat, n: nat) returns (t: nat)
    requires Sorted(ring) && 1 <= n <= |ring| && ring[0] < b && b !in ring && (n < |ring| ==> b < ring[n])
    ensures Fits(ring, t, b)
    decreases n
  {
    if ring[n - 1] < b {
      t := n - 1;
    } else {
      t := FindSpot(ring, b, n - 1);
    }
  }

  lemma Between(ring: seq<nat>, i: nat, b: nat)
    requires Sorted(ring) && Fits(ring, i, b)
    ensures forall x :: x in ring ==> x <= ring[i] || b < x
  {}

  lemma InsertSorted(ring: seq<nat>, i: nat, b: nat)
    requires Sorted(ring) && Fits(ring, i, b)
    ensures Sorted(Insert(ring, i, b)) && b !in ring
  {}

  lemma InsertLinked(ring: seq<nat>, ptr: map<nat, nat>, i: nat, b: nat)
    requires Sorted(ring) && Linked(ring, ptr) && Fits(ring, i, b)
    ensures ring[i] in ptr && Linked(Insert(ring, i, b), ptr[b := ptr[ring[i]]][ring[i] := b])
  {
    assert LinkAt(ring, ptr, i);
    var r, p := Insert(ring, i, b), ptr[b := ptr[ring[i]]][ring[i] := b];
    InsertSorted(ring, i, b);
    forall k: nat | k < |r| ensures LinkAt(r, p, k) {
      assert k != i + 1 ==> LinkAt(ring, ptr, if k <= i then k else k - 1);
    }
  }

  lemma InsertMembers(ring: seq<nat>, i: nat, b: nat)
    requires i < |ring|
    ensures forall x :: x in Insert(ring, i, b) <==> x in ring || x == b
  {
    assert ring == ring[..i + 1] + ring[i + 1..];
  }

  lemma InsertApart(ring: seq<nat>, size: map<nat, nat>, i: nat, b: nat)
    requires Apart(ring, size, {}) && i < |ring|
    ensures Apart(Insert(ring, i, b), size, {i, i + 1})
  {
    var r := Insert(ring, i, b);
    forall k: nat | 1 <= k < |r| - 1 && k !in {i, i + 1} ensures GapAt(r, size, k) {
      assert GapAt(ring, size, if k < i then k else k - 1);
    }
  }

  lemma RemoveLinked(ring: seq<nat>, ptr: map<nat, nat>, i: nat)
    requires Sorted(ring) && Linked(ring, ptr) && 1 <= i < |ring|
    ensures Sorted(Remove(ring, i)) && ring[i] in ptr && Linked(Remove(ring, i), ptr[ring[i - 1] := ptr[ring[i]]])
  {
    assert LinkAt(ring, ptr, i);
    var r, p := Remove(ring, i), ptr[ring[i - 1] := ptr[ring[i]]];
    forall k: nat | k < |r| ensures LinkAt(r, p, k) {
      assert LinkAt(ring, ptr, if k < i then k else k + 1);
    }
  }

  lemma RemoveMembers(ring: seq<nat>, i: nat)
    requires i < |ring| && Sorted(ring)
    ensures forall x :: x in Remove(ring, i) <==> x in ring && x != ring[i]
  {
    assert ring == ring[..i] + [ring[i]] + ring[i + 1..];
  }

  // ---------------------------------------------------------------- the moves of a block

  ghost function Moved(owner: map<nat, nat>, from: nat, lo: nat, to: nat): (r: map<nat, nat>)
    ensures r.Keys == owner.Keys
  { map u | u in owner :: if owner[u] == from && u >= lo then to else owner[u] }

  /** A live block goes on the free list after index i. */
  ghost function Freed(h: State, i: nat, b: nat): (r: State)
    requires i < |h.ring| && h.ring[i] in h.ptr
  { h.(ring := Insert(h.ring, i, b), ptr := h.ptr[b := h.ptr[h.ring[i]]][h.ring[i] := b], live := h.live - {b}) }

  lemma FreedKeeps(h: State, i: nat, b: nat)
    requires Inv(h) && b in h.live && Fits(h.ring, i, b)
    ensures h.ring[i] in h.ptr && Heaped(Freed(h, i, b)) && Apart(Freed(h, i, b).ring, h.size, {i, i + 1})
  {
    hide Tiled, Linked;
    InsertSorted(h.ring, i, b);
    InsertLinked(h.ring, h.ptr, i, b);
    InsertMembers(h.ring, i, b);
    InsertApart(h.ring, h.size, i, b);
    assert Blocks(Freed(h, i, b)) == Blocks(h);
  }

  ghost predicate Touch(h: State, i: nat) {
    && 1 <= i && i + 1 < |h.ring| && h.ring[i] in h.size && h.ring[i + 1] in h.size
    && h.ring[i] + h.size[h.ring[i]] == h.ring[i + 1]
  }

  /** Free block i swallows free block i + 1, which it touches. */
  ghost function Merged(h: State, i: nat): (r: State)
    requires i + 1 < |h.ring| && h.ring[i + 1] in h.ptr && h.ring[i] in h.size && h.ring[i + 1] in h.size
  {
    var b, c := h.ring[i], h.ring[i + 1];
    h.(ring := Remove(h.ring, i + 1), ptr := h.ptr[b := h.ptr[c]], size := h.size[b := h.size[b] + h.size[c]],
       owner := Moved(h.owner, c, 0, b))
  }

  lemma MergedTiled(base: nat, blocks: set<nat>, size: map<nat, nat>, owner: map<nat, nat>, b: nat, c: nat)
    requires Tiled(base, blocks, size, owner) && b in blocks && c in blocks && b in size && c in size &&
        b + size[b] == c && size[b] > 0
    ensures Tiled(base, blocks - {c}, size[b := size[b] + size[c]], Moved(owner, c, 0, b))
  {
    forall x | x in blocks - {c} ensures Block(x, size[b := size[b] + size[c]], Moved(owner, c, 0, b)) {
      assert Block(x, size, owner) && Block(b, size, owner) && Block(c, size, owner);
    }
  }

  lemma MergedBlocks(h: State, i: nat)
    requires Heaped(h) && Touch(h, i) && h.ring[i + 1] in h.ptr
    ensures h.ring[i + 1] !in h.live && h.ring[i] != h.base && Blocks(Merged(h, i)) == Blocks(h) - {h.ring[i + 1]}
    ensures forall b <- Merged(h, i).ring :: b in h.ring
  {
    hide Tiled, Linked;
    RemoveMembers(h.ring, i + 1);
    assert h.ring[i + 1] in h.ring && h.ring[0] < h.ring[i] && h.ring[0] < h.ring[i + 1];
  }

  lemma MergedKeeps(h: State, i: nat)
    requires Heaped(h) && Touch(h, i)
    ensures h.ring[i + 1] in h.ptr && Heaped(Merged(h, i))
  {
    RingBlock(h, i);
    RingBlock(h, i + 1);
    hide Tiled, Linked, Sorted, Blocks, Block, Next;
    RemoveLinked(h.ring, h.ptr, i + 1);
    MergedBlocks(h, i);
    MergedTiled(h.base, Blocks(h), h.size, h.owner, h.ring[i], h.ring[i + 1]);
  }

  lemma MergedApart(h: State, i: nat, but: set<nat>)
    requires Sorted(h.ring) && Touch(h, i) && h.ring[i + 1] in h.ptr
    requires (but == {} || but == {i - 1}) && Apart(h.ring, h.size, but + {i})
    ensures Apart(Merged(h, i).ring, Merged(h, i).size, but)
  {
    var r, size := Merged(h, i).ring, Merged(h, i).size;
    forall k: nat | 1 <= k < |r| - 1 && k !in but ensures GapAt(r, size, k) {
      assert GapAt(h.ring, h.size, if k < i then k else k + 1);
    }
  }

  /** Free block i is handed out whole. */
  ghost function Taken(h: State, i: nat): (r: State)
    requires 1 <= i < |h.ring| && h.ring[i] in h.ptr
  { h.(ring := Remove(h.ring, i), ptr := h.ptr[h.ring[i - 1] := h.ptr[h.ring[i]]], live := h.live + {h.ring[i]}) }

  lemma TakenKeeps(h: State, i: nat)
    requires Inv(h) && 1 <= i < |h.ring|
    ensures h.ring[i] in h.ptr && Inv(Taken(h, i)) && h.ring[i] !in h.live
  {
    hide Tiled, Linked;
    RingBlock(h, i);
    RemoveLinked(h.ring, h.ptr, i);
    RemoveMembers(h.ring, i);
    assert Blocks(Taken(h, i)) == Blocks(h);
    TakenApart(h.ring, h.size, i);
  }

  lemma TakenApart(ring: seq<nat>, size: map<nat, nat>, i: nat)
    requires Sorted(ring) && Apart(ring, size, {}) && 1 <= i < |ring|
    ensures Apart(Remove(ring, i), size, {})
  {
    var r := Remove(ring, i);
    forall k: nat | 1 <= k < |r| - 1 ensures GapAt(r, size, k) {
      assert GapAt(ring, size, if k < i then k else k + 1);
    }
  }

  /** The top n units of free block i are handed out. */
  ghost function Split(h: State, i: nat, n: nat): (r: State)
    requires i < |h.ring| && h.ring[i] in h.size && n < h.size[h.ring[i]]
  {
    var p := h.ring[i];
    var q := p + h.size[p] - n;
    h.(size := h.size[p := h.size[p] - n][q := n], live := h.live + {q}, owner := Moved(h.owner, p, q, q))
  }

  lemma SplitTiled(base: nat, blocks: set<nat>, size: map<nat, nat>, owner: map<nat, nat>, p: nat, n: nat)
    requires Tiled(base, blocks, size, owner) && p in blocks && p in size && 1 <= n < size[p]
    ensures var q := p + size[p] - n;
      q !in blocks && Tiled(base, blocks + {q}, size[p := size[p] - n][q := n], Moved(owner, p, q, q))
  {
    var q := p + size[p] - n;
    NoneInside(base, blocks, size, owner, p, q);
    forall x | x in blocks + {q} ensures Block(x, size[p := size[p] - n][q := n], Moved(owner, p, q, q)) {
      assert Block(p, size, owner) && (x != q ==> Block(x, size, owner));
    }
  }

  lemma SplitKeeps(h: State, i: nat, n: nat)
    requires Inv(h) && 1 <= i < |h.ring| && h.ring[i] in h.size && 1 <= n < h.size[h.ring[i]]
    ensures Inv(Split(h, i, n)) && h.ring[i] + h.size[h.ring[i]] - n !in h.live
  {
    hide Tiled, Linked;
    RingBlock(h, i);
    var q, s := h.ring[i] + h.size[h.ring[i]] - n, Split(h, i, n);
    SplitTiled(h.base, Blocks(h), h.size, h.owner, h.ring[i], n);
    assert Blocks(s) == Blocks(h) + {q};
    assert h.ring[0] < h.ring[i] < q;
    forall k: nat | 1 <= k < |h.ring| - 1 ensures GapAt(h.ring, s.size, k) {
      RingBlock(h, k);
      assert GapAt(h.ring, h.size, k);
    }
  }

  predicate Within(u: int, hp: nat, n: nat) { hp <= u < hp + n }

  /** n fresh units at hp join the heap as a live block. */
  ghost function Grown(h: State, hp: nat, n: nat): (r: State) {
    h.(size := h.size[hp := n], live := h.live + {hp},
       owner := h.owner + map u | 0 <= u < hp + n && Within(u, hp, n) :: hp)
  }

  ghost predicate Fresh(h: State, hp: nat, n: nat) {
    hp > h.base && forall u: nat :: Within(u, hp, n) ==> u !in h.owner
  }

  lemma GrownTiled(h: State, hp: nat, n: nat)
    requires Heaped(h) && Fresh(h, hp, n) && n >= 1
    ensures hp !in Blocks(h) && Tiled(h.base, Blocks(h) + {hp}, Grown(h, hp, n).size, Grown(h, hp, n).owner)
  {
    hide Linked, Sorted, Blocks;
    var s := Grown(h, hp, n);
    assert Within(hp, hp, n);
    forall x | x in Blocks(h) ensures x != hp && Block(x, s.size, s.owner) {
      assert Block(x, h.size, h.owner) && x in h.owner;
    }
    assert Block(hp, s.size, s.owner);
  }

  lemma GrownKeeps(h: State, hp: nat, n: nat)
    requires Inv(h) && Fresh(h, hp, n) && n >= 1
    ensures Inv(Grown(h, hp, n)) && hp !in h.live
  {
    hide Tiled, Linked;
    var s := Grown(h, hp, n);
    GrownTiled(h, hp, n);
    assert Blocks(s) == Blocks(h) + {hp};
    forall k: nat | 1 <= k < |h.ring| - 1 ensures GapAt(h.ring, s.size, k) {
      RingBlock(h, k);
      assert GapAt(h.ring, h.size, k);
    }
  }

  /** Free blocks that do not touch leave a gap. */
  lemma NoTouch(h: State, i: nat)
    requires Heaped(h) && 1 <= i < |h.ring| - 1 && !Touch(h, i)
    ensures GapAt(h.ring, h.size, i)
  {
    hide Tiled, Linked;
    RingBlock(h, i);
    RingBlock(h, i + 1);
    Disjoint(h, h.ring[i], h.ring[i + 1]);
  }

  /** free's two merges, upward and then downward, of the block at index i + 1. */
  ghost function MergedIf(h: State, i: nat): (r: State) {
    if Touch(h, i) && h.ring[i + 1] in h.ptr then Merged(h, i) else h
  }

  ghost function Coalesced(h: State, i: nat, b: nat): (r: State)
    requires i < |h.ring| && h.ring[i] in h.ptr
  { MergedIf(MergedIf(Freed(h, i, b), i + 1), i) }

  lemma MergedIfKeeps(h: State, i: nat, but: set<nat>)
    requires Heaped(h) && (but == {} || but == {i - 1}) && Apart(h.ring, h.size, but + {i})
    ensures Heaped(MergedIf(h, i)) && Apart(MergedIf(h, i).ring, MergedIf(h, i).size, but)
    ensures MergedIf(h, i).live == h.live && MergedIf(h, i).owner.Keys == h.owner.Keys
    ensures forall b :: b in h.live && b in h.size ==> b in MergedIf(h, i).size && MergedIf(h, i).size[b] == h.size[b]
  {
    hide Tiled, Linked;
    if Touch(h, i) {
      MergedKeeps(h, i);
      MergedApart(h, i, but);
      assert h.ring[i] in h.ring;
    } else if 1 <= i < |h.ring| - 1 {
      NoTouch(h, i);
    }
  }

  /** Other live blocks keep their size, and the memory taken stays the same. */
  ghost predicate SameLive(h: State, r: State, live: set<nat>) {
    && r.base == h.base && r.owner.Keys == h.owner.Keys
    && forall b :: b in live ==> b in h.size && b in r.size && r.size[b] == h.size[b]
  }

  lemma CoalescedKeeps(h: State, i: nat, b: nat)
    requires Inv(h) && b in h.live && Fits(h.ring, i, b)
    ensures h.ring[i] in h.ptr && Inv(Coalesced(h, i, b)) && Coalesced(h, i, b).live == h.live - {b}
    ensures SameLive(h, Coalesced(h, i, b), h.live - {b})
  {
    hide Apart, Linked, Sorted, Touch;
    FreedKeeps(h, i, b);
    var f := Freed(h, i, b);
    assert {i} + {i + 1} == {i, i + 1} && {} + {i} == {i};
    MergedIfKeeps(f, i + 1, {i});
    MergedIfKeeps(MergedIf(f, i + 1), i, {});
    forall x | x in h.live ensures x in h.size { assert Block(x, h.size, h.owner); }
  }

  class Heap {
    const base: nat
    var freep: nat
    var ptr: map<nat, nat>
    var size: map<nat, nat>
    ghost var ring: seq<nat>
    ghost var live: set<nat>
    ghost var owner: map<nat, nat>

    ghost function Now(): (h: State)
      reads this
    { State(base, ring, ptr, size, live, owner) }

    /** Before the first malloc nothing is taken; afterwards freep is on the ring. */
    ghost predicate Valid()
      reads this
    {
      if freep == NULL then base > NULL && ring == [] && live == {} && owner == map[] else Inv(Now()) && freep in ring
    }

    constructor (at: nat)
      requires at > NULL
      ensures Valid() && live == {} && owner == map[] && base == at
    {
      base, freep, ptr, size := at, NULL, map[], map[];
      ring, live, owner := [], {}, map[];
    }

    /** The search loop of free: the node after which bp belongs, going round the ring from freep. */
    method Search(bp: nat) returns (p: nat, ghost k: nat)
      requires Valid() && bp in live
      ensures freep != NULL && Fits(ring, k, bp) && p == ring[k]
      ensures p in ring && p < bp && forall x :: x in ring ==> x <= p || bp < x
    {
      hide Tiled, Apart, Linked;
      p := freep;
      k :| k < |ring| && ring[k] == p;
      ghost var t := Spot(Now(), bp);
      RingBlock(Now(), k);
      while !(bp > p && bp < ptr[p])
        invariant k < |ring| && p == ring[k] && p in ptr && ptr[p] == ring[Next(|ring|, k)]
        decreases if k <= t then t - k else |ring| - k + t
      {
        if p >= ptr[p] && (bp > p || bp < ptr[p]) {
          break;
        }
        p := ptr[p];
        k := Next(|ring|, k);
        RingBlock(Now(), k);
      }
      Between(ring, k, bp);
    }

    /** The two merges of free, after the search has found p. */
    method Coalesce(p: nat, bp: nat, ghost k: nat)
      requires Valid() && freep != NULL && bp in live && Fits(ring, k, bp) && p == ring[k]
      modifies this
      ensures freep == p != NULL && p in ring && old(ring[k] in ptr) && Now() == Coalesced(old(Now()), k, bp)
    {
      hide Inv, Coalesced, Holds;
      ghost var h := Now();
      CodeCoalesces(h, k, bp);
      ghost var c := Coalesced(h, k, bp);
      if bp + size[bp] == ptr[p] {
        size := size[bp := size[bp] + size[ptr[p]]];
        ptr := ptr[bp := ptr[ptr[p]]];
      } else {
        ptr := ptr[bp := ptr[p]];
      }
      assert size == SizeUp(h.size, bp, h.ptr[p]) && ptr == PtrUp(h.ptr, h.size, bp, h.ptr[p]);
      hide SizeUp, PtrUp;
      if p + size[p] == bp {
        size := size[p := size[p] + size[bp]];
        ptr := ptr[p := ptr[bp]];
      } else {
        ptr := ptr[p := bp];
      }
      assert size == c.size && ptr == c.ptr;
      hide SizeDown, PtrDown;
      freep := p;
      ring, live, owner := c.ring, c.live, c.owner;
    }

    /** free: the block goes back in address order and joins the neighbours it touches. */
    method Free(ap: nat)
      requires Valid() && ap >= 1 && ap - 1 in live
      modifies this
      ensures Valid() && freep != NULL && live == old(live) - {ap - 1} && SameLive(old(Now()), Now(), live)
      ensures ap - 1 in old(size) && Holds(Now(), freep, old(size)[ap - 1])
    {
      hide Inv, Coalesced, SameLive, Holds;
      var bp := ap - 1;
      var p, k := Search(bp);
      CodeCoalesces(Now(), k, bp);
      CoalescedKeeps(Now(), k, bp);
      Coalesce(p, bp, k);
    }

    /** morecore: at least MINCORE units from sbrk, which gives `grant` or fails (NULL). */
    method Morecore(nu: nat, grant: nat) returns (p: nat)
      requires Valid() && freep != NULL && nu >= 1
      requires grant != NULL ==> Fresh(Now(), grant, Core(nu))
      modifies this
      ensures Valid() && freep != NULL && p == (if grant == NULL then NULL else freep) && live == old(live)
      ensures grant == NULL ==> Now() == old(Now()) && freep == old(freep)
      ensures grant != NULL ==> Holds(Now(), freep, nu)
      ensures grant != NULL ==> SameLive(Grown(old(Now()), grant, Core(nu)), Now(), live)
    {
      hide Heaped, Apart, SameLive, Holds, Fresh;
      var n := Core(nu);
      if grant == NULL { return NULL; }
      GrownKeeps(Now(), grant, n);
      ghost var g := Grown(Now(), grant, n);
      size := size[grant := n];
      live, owner := g.live, g.owner;
      Free(grant + 1);
      HoldsLess(Now(), freep, n, nu);
      assert live == old(live);
      return freep;
    }

    /** The branch of malloc that has found a big enough block p after prevp. */
    method Carve(prevp: nat, p: nat, n: nat, ghost i: nat, ghost j: nat) returns (q: nat)
      requires Valid() && freep != NULL && n >= 1 && i < |ring| && j < |ring| && i == Next(|ring|, j) &&
          ring[i] == p && ring[j] == prevp
      requires p in size && size[p] >= n
      modifies this
      ensures Valid() && freep == prevp != NULL && q !in old(live) && live == old(live) + {q} && q in size &&
          size[q] == n
      ensures SameLive(old(Now()), Now(), old(live))
      ensures old(size)[p] == n ==> q == p && ring == Remove(old(ring), i) && size == old(size)
      ensures old(size)[p] > n ==>
          q == p + old(size)[p] - n && ring == old(ring) && size == old(size)[p := old(size)[p] - n][q := n]
    {
      hide Heaped, Apart, SameLive;
      Chosen(Now(), i, j, n);
      q := p;
      if size[p] == n {
        ghost var s := Taken(Now(), i);
        ptr := ptr[prevp := ptr[p]];
        ring, live := s.ring, s.live;
        assert Now() == s;
      } else {
        ghost var s := Split(Now(), i, n);
        size := size[p := size[p] - n];
        q := p + size[p];
        size := size[q := n];
        live, owner := s.live, s.owner;
        assert Now() == s;
      }
      freep := prevp;
    }

    /** malloc's prologue: on the first call base becomes a ring of its own. */
    method Begin() returns (prevp: nat)
      requires Valid()
      modifies this
      ensures Valid() && freep != NULL && prevp == freep && live == old(live) && owner == old(owner)
      ensures SameLive(old(Now()), Now(), live) && (old(freep) != NULL ==> Now() == old(Now()))
    {
      hide Apart, SameLive, Linked, Tiled;
      prevp := freep;
      if prevp == NULL {
        ptr, size, freep, prevp := ptr[base := base], size[base := 0], base, base;
        ring := [base];
        FirstHeap(Now());
      }
      SameStart(old(Now()), Now());
    }

    /**
      * malloc: a block of the right size that no one holds, cut from a free block or from memory sbrk has just
      * given; NULL only if sbrk fails.
      */
    method Malloc(nbytes: nat, grant: nat) returns (ap: nat)
      requires Valid() && (grant != NULL ==> Fresh(Now(), grant, Core(Units(nbytes))))
      modifies this
      ensures Valid() && freep != NULL
      ensures ap == NULL ==> grant == NULL && live == old(live) && SameLive(old(Now()), Now(), live)
      ensures ap != NULL ==>
        || Gave(old(Now()), Now(), old(live), ap - 1, Units(nbytes))
        || (&& grant != NULL
            && Gave(Grown(old(Now()), grant, Core(Units(nbytes))), Now(), old(live), ap - 1, Units(nbytes)))
      ensures BigEnough(old(Now()), Units(nbytes)) ==>
          ap != NULL && Gave(old(Now()), Now(), old(live), ap - 1, Units(nbytes))
    {
      hide Inv, SameLive, Holds, Grown, Gave, BigEnough, Core, Units, Seeking, Left, Within;
      var n := Units(nbytes);
      if freep == NULL { NothingYet(Now(), n); }
      var prevp := Begin();
      ghost var o, h := old(Now()), Now();
      ghost var c := SeekStart(o, h, prevp, n, grant);
      var p := ptr[prevp];
      while true
        invariant Valid() && freep != NULL && Seeking(o, h, Now(), c, freep, prevp, p, n, grant)
        decreases !c.asked, Left(Now(), c)
      {
        ghost var m := Now();
        SeekAt(o, h, m, c, freep, prevp, p, n, grant);
        if size[p] >= n {
          p := Carve(prevp, p, n, c.i, c.j);
          GaveFrom(o, h, m, Now(), old(live), p, n, c.asked, grant);
          return p + 1;
        }
        if p == freep {
          SeekWrapped(o, h, m, c, freep, prevp, p, n, grant);
          p := Morecore(n, grant);
          if p == NULL { return NULL; }
          c := SeekGrown(o, h, Now(), p, n, grant);
        } else {
          c := SeekNext(o, h, m, c, freep, prevp, p, n, grant);
        }
        prevp, p := p, ptr[p];
      }
    }
  }

  /** The node p or the one after it has at least n units. */
  ghost predicate Holds(h: State, p: nat, n: nat) {
    p in h.size && p in h.ptr && h.ptr[p] in h.size && (h.size[p] >= n || h.size[h.ptr[p]] >= n)
  }

  /** What free's assignments make of size and ptr. */
  function SizeUp(size: map<nat, nat>, bp: nat, nx: nat): (r: map<nat, nat>)
    requires bp in size && nx in size
  { if bp + size[bp] == nx then size[bp := size[bp] + size[nx]] else size }

  function PtrUp(ptr: map<nat, nat>, size: map<nat, nat>, bp: nat, nx: nat): (r: map<nat, nat>)
    requires bp in size && nx in ptr
  { ptr[bp := if bp + size[bp] == nx then ptr[nx] else nx] }

  function SizeDown(size: map<nat, nat>, p: nat, bp: nat): (r: map<nat, nat>)
    requires bp in size && p in size
  { if p + size[p] == bp then size[p := size[p] + size[bp]] else size }

  function PtrDown(ptr: map<nat, nat>, size: map<nat, nat>, p: nat, bp: nat): (r: map<nat, nat>)
    requires p in size && bp in ptr
  { ptr[p := if p + size[p] == bp then ptr[bp] else bp] }

  lemma CodeUp(h: State, k: nat, bp: nat)
    requires Inv(h) && bp in h.live && Fits(h.ring, k, bp)
    ensures var p := h.ring[k]; p in h.ptr && p in h.size && bp in h.size && h.ptr[p] in h.size && h.ptr[p] in h.ptr
    ensures var p := h.ring[k]; var nx := h.ptr[p]; var m := MergedIf(Freed(h, k, bp), k + 1);
      && m.size == SizeUp(h.size, bp, nx) && m.ptr == PtrUp(h.ptr, h.size, bp, nx)[p := bp]
      && k + 1 < |m.ring| && m.ring[k] == p && m.ring[k + 1] == bp
  {
    hide Tiled, Apart, Linked, Sorted, Blocks;
    var t := Spot(h, bp);
    FreedKeeps(h, k, bp);
    RingBlock(h, k);
    RingBlock(h, Next(|h.ring|, k));
    UpShape(h, k, bp);
    var p := h.ring[k];
    MapSwap(h.ptr, p, bp, h.ptr[p], h.ptr[h.ptr[p]]);
  }

  lemma UpShape(h: State, k: nat, bp: nat)
    requires Heaped(h) && Fits(h.ring, k, bp) && bp in h.size && h.ring[k] in h.ptr && bp > h.base
    requires h.ptr[h.ring[k]] in h.size && h.ptr[h.ring[k]] == h.ring[Next(|h.ring|, k)]
    ensures var f := Freed(h, k, bp); var nx := h.ptr[h.ring[k]];
      && f.ring[k] == h.ring[k] && k + 1 < |f.ring| && f.ring[k + 1] == bp
      && (k + 2 < |f.ring| ==> f.ring[k + 2] == nx && nx != h.ring[k])
      && (bp + h.size[bp] == nx <==> Touch(f, k + 1))
  {
    hide Tiled, Linked;
  }

  lemma MapSwap(m: map<nat, nat>, p: nat, b: nat, x: nat, y: nat)
    requires p != b
    ensures m[b := x][p := b][b := y] == m[b := y][p := b]
  {}

  lemma CodeDown(m: State, k: nat, p: nat, bp: nat, ptr: map<nat, nat>, n: nat)
    requires Heaped(m) && k + 1 < |m.ring| && m.ring[k] == p && m.ring[k + 1] == bp && bp in ptr &&
        m.ptr == ptr[p := bp]
    requires p in m.size && bp in m.size && m.size[bp] >= n
    ensures var c := MergedIf(m, k);
      && c.size == SizeDown(m.size, p, bp) && c.ptr == PtrDown(ptr, m.size, p, bp)
      && k < |c.ring| && c.ring[k] == p
      && p in c.size && (c.size[p] >= n || (c.ptr[p] == bp && bp in c.size && c.size[bp] >= n))
  {
    hide Tiled, Linked;
    assert m.ring[0] < bp && p < bp;
    assert Touch(m, k) <==> p + m.size[p] == bp;
  }

  lemma CodeCoalesces(h: State, k: nat, bp: nat)
    requires Inv(h) && bp in h.live && Fits(h.ring, k, bp)
    ensures var p := h.ring[k]; p in h.ptr && p in h.size && bp in h.size && h.ptr[p] in h.size && h.ptr[p] in h.ptr
    ensures var p := h.ring[k]; var nx := h.ptr[p]; var c := Coalesced(h, k, bp);
      var size := SizeUp(h.size, bp, nx); var ptr := PtrUp(h.ptr, h.size, bp, nx);
      && p in size && c.size == SizeDown(size, p, bp) && c.ptr == PtrDown(ptr, size, p, bp)
      && c.base == h.base && p in c.ring && p != NULL && Holds(c, p, h.size[bp])
  {
    hide Tiled, Apart, Linked, Sorted, Touch;
    CodeUp(h, k, bp);
    FreedKeeps(h, k, bp);
    var p, m, c := h.ring[k], MergedIf(Freed(h, k, bp), k + 1), Coalesced(h, k, bp);
    MergeUpHeaped(h, k, bp);
    CodeDown(m, k, p, bp, PtrUp(h.ptr, h.size, bp, h.ptr[p]), h.size[bp]);
    CoalescedKeeps(h, k, bp);
    RingBlock(c, k);
    RingBlock(c, Next(|c.ring|, k));
    assert p > NULL by { RingAbove(h, k); }
  }

  lemma MergeUpHeaped(h: State, k: nat, bp: nat)
    requires Inv(h) && bp in h.live && Fits(h.ring, k, bp)
    ensures h.ring[k] in h.ptr && Heaped(MergedIf(Freed(h, k, bp), k + 1))
  {
    hide Apart, Heaped, Touch;
    FreedKeeps(h, k, bp);
    assert {k} + {k + 1} == {k, k + 1};
    MergedIfKeeps(Freed(h, k, bp), k + 1, {k});
  }

  lemma RingAbove(h: State, k: nat)
    requires Heaped(h) && k < |h.ring|
    ensures h.ring[k] >= h.base
  {
    assert k > 0 ==> h.ring[0] < h.ring[k];
  }

  function Core(n: nat): (m: nat) { if n < MINCORE then MINCORE else n }

  /** Steps round a ring of n nodes from index i to index j. */
  function Dist(n: nat, i: nat, j: nat): (d: int) { if i <= j then j - i else n - i + j }

  /** Block b of n units has been handed out, no live block of h changed. */
  ghost predicate Gave(h: State, r: State, live: set<nat>, b: int, n: nat) {
    b >= 0 && b !in live && r.live == live + {b} && b in r.size && r.size[b] == n && SameLive(h, r, live)
  }

  lemma FirstHeap(h: State)
    requires h.base > NULL && h.ring == [h.base] && h.live == {} && h.owner == map[]
    requires h.base in h.ptr && h.ptr[h.base] == h.base && h.base in h.size && h.size[h.base] == 0
    ensures Inv(h)
  {
    assert Blocks(h) == {};
  }

  /** Some free block has n units. */
  ghost predicate BigEnough(h: State, n: nat) { exists b :: b in h.ring && b in h.size && h.size[b] >= n }

  /** The nodes after index k and before index i of the ring are all too small. */
  ghost predicate Passed(h: State, k: nat, i: nat, n: nat) {
    forall x: nat :: x < |h.ring| && Dist(|h.ring|, Next(|h.ring|, k), x) < Dist(|h.ring|, Next(|h.ring|, k), i) ==>
      h.ring[x] in h.size && h.size[h.ring[x]] < n
  }

  lemma NothingYet(h: State, n: nat)
    requires h.ring == []
    ensures !BigEnough(h, n)
  {}

  lemma PassedNone(h: State, k: nat, n: nat)
    requires k < |h.ring|
    ensures Passed(h, k, Next(|h.ring|, k), n)
  {}

  lemma PassedNext(h: State, k: nat, i: nat, n: nat)
    requires Passed(h, k, i, n) && i < |h.ring| && k < |h.ring| && i != k && h.ring[i] in h.size &&
        h.size[h.ring[i]] < n
    ensures Passed(h, k, Next(|h.ring|, i), n)
  {}

  lemma PassedAll(h: State, k: nat, n: nat)
    requires Passed(h, k, k, n) && k < |h.ring| && h.ring[k] in h.size && h.size[h.ring[k]] < n
    ensures !BigEnough(h, n)
  {
    forall b | b in h.ring ensures b in h.size && h.size[b] < n {
      var x: nat :| x < |h.ring| && h.ring[x] == b;
    }
  }

  lemma SameStart(o: State, h: State)
    requires o.base == h.base && o.live == h.live && o.owner == h.owner && Heaped(h) && (o == h || h.live == {})
    ensures SameLive(o, h, h.live)
  {
    hide Linked, Sorted;
    forall b | b in h.live ensures b in h.size { assert b in Blocks(h) && Block(b, h.size, h.owner); }
  }

  /** A big enough block is not base, so it has a predecessor on the ring, and both ways of taking it keep the
      invariant. */
  lemma Chosen(h: State, i: nat, j: nat, n: nat)
    requires Inv(h) && i < |h.ring| && j < |h.ring| && i == Next(|h.ring|, j) && h.ring[i] in h.size &&
        h.size[h.ring[i]] >= n >= 1
    ensures i >= 1 && j == i - 1 && h.ring[i] in h.ptr && h.ring[j] in Remove(h.ring, i) && h.ring[j] > NULL
    ensures h.size[h.ring[i]] == n ==> Inv(Taken(h, i)) && h.ring[i] !in h.live && SameLive(h, Taken(h, i), h.live)
    ensures h.size[h.ring[i]] > n ==> Inv(Split(h, i, n)) && SameLive(h, Split(h, i, n), h.live)
    ensures h.size[h.ring[i]] > n ==> h.ring[i] + h.size[h.ring[i]] - n !in h.live
  {
    hide Tiled, Apart, Linked;
    assert Remove(h.ring, i)[j] == h.ring[j];
    RingAbove(h, j);
    TakenKeeps(h, i);
    SameStart(h, h);
    assert h.ring[i] in h.ring;
    if h.size[h.ring[i]] > n { SplitKeeps(h, i, n); }
  }

  /** The search is at ring[i], after ring[j]; it ends at ring[k], or at ring[t] once it has grown the heap. */
  datatype Cursor = Cursor(i: nat, j: nat, k: nat, t: nat, asked: bool)

  /**
    * The search that began in heap h goes on in heap m. Before growing, all it has passed is too small; afterwards
    * a block that is big enough lies ahead, no farther than the end of the round.
    */
  ghost predicate Seeking(o: State, h: State, m: State, c: Cursor, freep: nat, prevp: nat, p: nat, n: nat, grant: nat) {
    var z := |m.ring|;
    && c.i < z && c.j < z && c.k < z && c.t < z && c.i == Next(z, c.j)
    && p == m.ring[c.i] && prevp == m.ring[c.j] && freep == m.ring[c.k]
    && m.live == h.live == o.live && SameLive(o, h, h.live) && (o == h || !BigEnough(o, n))
    && if c.asked then
         && grant != NULL && SameLive(Grown(h, grant, Core(n)), m, h.live) && !BigEnough(o, n)
         && Dist(z, c.i, c.t) <= Dist(z, c.i, c.k) && m.ring[c.t] in m.size && m.size[m.ring[c.t]] >= n
       else m == h && Passed(h, c.k, c.i, n)
  }

  /** How much of the ring the search still has before it. */
  ghost function Left(m: State, c: Cursor): (d: int) { Dist(|m.ring|, c.i, if c.asked then c.t else c.k) }

  lemma SeekStart(o: State, h: State, freep: nat, n: nat, grant: nat) returns (c: Cursor)
    requires Inv(h) && freep in h.ring && h.live == o.live && SameLive(o, h, h.live) && (o == h || !BigEnough(o, n))
    ensures freep in h.ptr && Seeking(o, h, h, c, freep, freep, h.ptr[freep], n, grant) && !c.asked
  {
    hide Inv, SameLive, BigEnough, Grown, Passed;
    var k := HeadIndex(h, freep);
    PassedNone(h, k, n);
    c := Cursor(Next(|h.ring|, k), k, k, k, false);
  }

  lemma SeekAt(o: State, h: State, m: State, c: Cursor, freep: nat, prevp: nat, p: nat, n: nat, grant: nat)
    requires Inv(m) && Seeking(o, h, m, c, freep, prevp, p, n, grant)
    ensures c.i < |m.ring| && c.j < |m.ring| && c.i == Next(|m.ring|, c.j) && m.ring[c.i] == p && m.ring[c.j] == prevp
    ensures p in m.size && p in m.ptr && m.live == h.live == o.live && SameLive(o, h, o.live)
    ensures if c.asked then grant != NULL && SameLive(Grown(h, grant, Core(n)), m, o.live) && !BigEnough(o, n)
      else m == h
  {
    hide SameLive, BigEnough, Grown, Passed, Heaped;
    RingBlock(m, c.i);
  }

  /** A search that is back where it began has not grown the heap, and nothing in the heap it found was big enough. */
  lemma SeekWrapped(o: State, h: State, m: State, c: Cursor, freep: nat, prevp: nat, p: nat, n: nat, grant: nat)
    requires Inv(m) && Seeking(o, h, m, c, freep, prevp, p, n, grant)
    requires p == freep && p in m.size && m.size[p] < n
    ensures !c.asked && m == h && !BigEnough(o, n)
  {
    hide SameLive, BigEnough, Grown, Passed;
    SameIndex(m, c.i, c.k);
    if !c.asked { PassedAll(h, c.k, n); }
  }

  lemma SeekGrown(o: State, h: State, r: State, p: nat, n: nat, grant: nat) returns (c: Cursor)
    requires Inv(r) && p in r.ring && Holds(r, p, n) && grant != NULL && SameLive(Grown(h, grant, Core(n)), r, h.live)
    requires r.live == h.live == o.live && SameLive(o, h, h.live) && !BigEnough(o, n)
    ensures p in r.ptr && Seeking(o, h, r, c, p, p, r.ptr[p], n, grant) && c.asked
  {
    hide SameLive, BigEnough, Grown, Passed, Heaped, Holds;
    var k, t := HoldsIndex(r, p, n);
    RingBlock(r, k);
    c := Cursor(Next(|r.ring|, k), k, k, t, true);
  }

  lemma SeekNext(o: State, h: State, m: State, c: Cursor, freep: nat, prevp: nat, p: nat, n: nat, grant: nat)
    returns (d: Cursor)
    requires Inv(m) && Seeking(o, h, m, c, freep, prevp, p, n, grant)
    requires p != freep && p in m.size && m.size[p] < n
    ensures p in m.ptr && Seeking(o, h, m, d, freep, p, m.ptr[p], n, grant)
    ensures d.asked == c.asked && Left(m, d) < Left(m, c)
    ensures 0 <= Left(m, c)
  {
    hide SameLive, BigEnough, Grown, Passed, Heaped;
    RingBlock(m, c.i);
    d := c.(i := Next(|m.ring|, c.i), j := c.i);
    if !c.asked { PassedNext(h, c.k, c.i, n); }
  }

  lemma GaveFrom(o: State, h: State, m: State, r: State, live: set<nat>, b: nat, n: nat, asked: bool, grant: nat)
    requires SameLive(o, h, live) && r.live == live + {b} && b !in live && b in r.size && r.size[b] == n &&
        SameLive(m, r, live)
    requires if asked then SameLive(Grown(h, grant, Core(n)), m, live) && h.live == live else m == h
    ensures if asked then Gave(Grown(o, grant, Core(n)), r, live, b, n) else Gave(o, r, live, b, n)
  {}

  /** The index of the node free left in freep, and of the node with room. */
  lemma HoldsIndex(h: State, p: nat, n: nat) returns (k: nat, t: nat)
    requires Inv(h) && p in h.ring && Holds(h, p, n)
    ensures k < |h.ring| && h.ring[k] == p && t < |h.ring| && h.ring[t] in h.size && h.size[h.ring[t]] >= n
  {
    k :| k < |h.ring| && h.ring[k] == p;
    RingBlock(h, k);
    t := if h.size[p] >= n then k else Next(|h.ring|, k);
  }

  lemma HeadIndex(h: State, p: nat) returns (k: nat)
    requires Inv(h) && p in h.ring
    ensures k < |h.ring| && h.ring[k] == p && p in h.ptr && h.ptr[p] == h.ring[Next(|h.ring|, k)]
  {
    k :| k < |h.ring| && h.ring[k] == p;
    RingBlock(h, k);
  }

  lemma SameIndex(h: State, i: nat, k: nat)
    requires Inv(h) && i < |h.ring| && k < |h.ring| && h.ring[i] == h.ring[k]
    ensures i == k
  {}

  lemma HoldsLess(h: State, p: nat, n: nat, m: nat)
    requires Holds(h, p, n) && m <= n
    ensures Holds(h, p, m)
  {}

  lemma Spot(h: State, b: nat) returns (t: nat)
    requires Heaped(h) && b in h.live
    ensures Fits(h.ring, t, b) && b > h.base && b in h.size
  {
    assert b in Blocks(h) && Block(b, h.size, h.owner) && b in h.owner;
    t := FindSpot(h.ring, b, |h.ring|);
  }

  // ---------------------------------------------------------------- what the invariant means

  predicate Spans(h: State, b: nat, u: nat) { b in h.size && b <= u < b + h.size[b] }

  /** Every unit taken from sbrk is in exactly one block, free or live, and blocks have no other units. */
  lemma OneBlockEach(h: State, u: nat, b: nat, c: nat)
    requires Inv(h)
    ensures u in h.owner ==> h.owner[u] in Blocks(h) && Spans(h, h.owner[u], u)
    ensures b in Blocks(h) && Spans(h, b, u) ==> u in h.owner && h.owner[u] == b
    ensures b in Blocks(h) && c in Blocks(h) && Spans(h, b, u) && Spans(h, c, u) ==> b == c
  {
    hide Linked, Sorted, Apart;
    forall x | x in Blocks(h) ensures Block(x, h.size, h.owner) {}
  }

  ghost function FreeUnits(h: State): (r: set<nat>) { set u | u in h.owner && h.owner[u] !in h.live }

  lemma FreeUnit(h: State, u: nat)
    requires Inv(h)
    ensures u in FreeUnits(h) <==> u in h.owner && forall b :: b in h.live ==> !Spans(h, b, u)
  {
    forall b | b in h.live ensures Spans(h, b, u) <==> u in h.owner && h.owner[u] == b { OneBlockEach(h, u, b, b); }
  }

  /** Any two free blocks leave a gap. */
  lemma {:induction false} Gap(h: State, j: nat, i: nat)
    requires Inv(h) && 1 <= j < i < |h.ring|
    ensures h.ring[j] in h.size && h.ring[j] + h.size[h.ring[j]] < h.ring[i]
  {
    assert GapAt(h.ring, h.size, j);
    assert j + 1 < i ==> h.ring[j + 1] < h.ring[i];
  }

  /** A unit outside every free block is not free. */
  lemma NotFree(h: State, u: int)
    requires Inv(h) && (u >= 0 ==> forall j: nat :: 1 <= j < |h.ring| ==> !Spans(h, h.ring[j], u))
    ensures u !in FreeUnits(h)
  {
    hide Linked, Tiled, Apart, Sorted;
    if u >= 0 { OneBlockEach(h, u, u, u); }
  }

  /** A free block starts where a run of free units does, and ends where that run ends. */
  lemma RunOf(h: State, i: nat)
    requires Inv(h) && 1 <= i < |h.ring|
    ensures h.ring[i] in h.size && h.ring[i] in FreeUnits(h)
    ensures h.ring[i] - 1 !in FreeUnits(h) && h.ring[i] + h.size[h.ring[i]] !in FreeUnits(h)
  {
    hide Linked, Tiled, FreeUnits, Apart;
    var b := h.ring[i];
    RingBlock(h, i);
    var e := b + h.size[b];
    forall j: nat | 1 <= j < |h.ring| ensures (b >= 1 ==> !Spans(h, h.ring[j], b - 1)) && !Spans(h, h.ring[j], e) {
      if j < i { Gap(h, j, i); } else if j > i { Gap(h, i, j); }
    }
    NotFree(h, b - 1);
    NotFree(h, e);
    StartIsFree(h, i);
  }

  lemma StartIsFree(h: State, i: nat)
    requires Inv(h) && 1 <= i < |h.ring|
    ensures h.ring[i] in FreeUnits(h)
  {
    hide Linked, Tiled, Apart;
    RingBlock(h, i);
    OneBlockEach(h, h.ring[i], h.ring[i], h.ring[i]);
  }

  lemma RunStartIsBlock(h: State, u: nat)
    requires Inv(h) && u in FreeUnits(h) && u - 1 !in FreeUnits(h)
    ensures u in h.ring && u != h.base
  {
    hide Linked, Sorted, Apart;
    OneBlockEach(h, u, u, u);
    var c := h.owner[u];
    if c < u { BelowFree(h, u); }
  }

  lemma BelowFree(h: State, u: nat)
    requires Inv(h) && u in FreeUnits(h) && h.owner[u] < u
    ensures u - 1 in FreeUnits(h)
  {
    hide Linked, Sorted, Apart;
    OneBlockEach(h, u, u, u);
    OneBlockEach(h, u - 1, h.owner[u], u);
  }

  lemma SameMembers(h: State, g: State, x: nat)
    requires Inv(h) && Inv(g) && h.base == g.base && FreeUnits(h) == FreeUnits(g) && x in h.ring
    ensures x in g.ring
  {
    hide Linked, Tiled, Apart, Sorted, FreeUnits;
    if x == h.base {
      assert g.ring[0] == x;
    } else {
      var i: nat :| i < |h.ring| && h.ring[i] == x;
      RunOf(h, i);
      RunStartIsBlock(g, x);
    }
  }

  function Front(a: seq<nat>): (r: seq<nat>)
    requires a != []
  { a[..|a| - 1] }

  lemma Shorter(a: seq<nat>, b: seq<nat>)
    requires Sorted(a) && a != [] && b != [] && a[|a| - 1] == b[|b| - 1] && forall x :: x in a ==> x in b
    ensures forall x :: x in Front(a) ==> x in Front(b)
  {
    assert b == Front(b) + [b[|b| - 1]];
    forall x | x in Front(a) ensures x in Front(b) {
      assert x in a && x < a[|a| - 1] && x in b;
    }
  }

  lemma NoneIfNone(a: seq<nat>, b: seq<nat>)
    requires forall x :: x in a ==> x in b
    ensures b == [] ==> a == []
  {
    if a != [] { assert a[0] in b; }
  }

  lemma {:induction false} SortedUnique(a: seq<nat>, b: seq<nat>)
    requires Sorted(a) && Sorted(b) && forall x :: x in a <==> x in b
    ensures a == b
    decreases |a|
  {
    NoneIfNone(a, b);
    NoneIfNone(b, a);
    if a != [] {
      var m, n := |a| - 1, |b| - 1;
      assert a[m] in b && b[n] in a;
      Shorter(a, b);
      Shorter(b, a);
      SortedUnique(Front(a), Front(b));
      assert a == Front(a) + [a[m]] && b == Front(b) + [b[n]];
    }
  }

  lemma SizeAtLeast(h: State, g: State, i: nat)
    requires Inv(h) && Inv(g) && h.ring == g.ring && FreeUnits(h) == FreeUnits(g) && 1 <= i < |h.ring|
    ensures h.ring[i] in h.size && h.ring[i] in g.size && h.size[h.ring[i]] >= g.size[h.ring[i]]
  {
    hide Linked, Tiled, Apart, Sorted;
    var b := h.ring[i];
    RunOf(h, i);
    RingBlock(g, i);
    OneBlockEach(g, b + h.size[b], b, b);
  }

  /** Full coalescing makes the free list a function of the free memory: which units are free decides it. */
  lemma FreeListCanonical(h: State, g: State)
    requires Inv(h) && Inv(g) && h.base == g.base && FreeUnits(h) == FreeUnits(g)
    ensures h.ring == g.ring && forall b :: b in h.ring ==> b in h.size && b in g.size && h.size[b] == g.size[b]
  {
    hide Linked, Tiled, Apart, FreeUnits;
    forall x ensures x in h.ring <==> x in g.ring {
      if x in h.ring { SameMembers(h, g, x); }
      if x in g.ring { SameMembers(g, h, x); }
    }
    SortedUnique(h.ring, g.ring);
    forall b | b in h.ring && b != h.base ensures b in h.size && b in g.size && h.size[b] == g.size[b] {
      var i: nat :| i < |h.ring| && h.ring[i] == b;
      SizeAtLeast(h, g, i);
      SizeAtLeast(g, h, i);
    }
  }

  /** Freeing what malloc has just cut from the free list restores the free list, links and sizes. */
  lemma FreeUndoesMalloc(h: State, m: State, r: State, b: nat, n: nat)
    requires Inv(h) && Inv(m) && Inv(r) && Gave(h, m, h.live, b, n)
    requires r.live == m.live - {b} && SameLive(m, r, r.live)
    ensures r.ring == h.ring && forall x :: x in h.ring ==> x in h.size && x in r.size && r.size[x] == h.size[x]
  {
    hide Inv, FreeUnits;
    assert r.live == h.live;
    forall u ensures u in FreeUnits(h) <==> u in FreeUnits(r) {
      FreeUnit(h, u);
      FreeUnit(r, u);
      assert forall x :: x in h.live ==> (Spans(h, x, u) <==> Spans(r, x, u));
    }
    FreeListCanonical(h, r);
  }
}

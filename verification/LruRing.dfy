/** The doubly linked ring of kernel/bio.c: buffers 0..NBUF-1 threaded through next/prev around the list head,
    which is node NBUF.  `order` is the ring read from head.next, most recently used first. */
module LruRing {
  import opened Params

  const HEAD := NBUF

  datatype Links = Links(next: seq<nat>, prev: seq<nat>)

  ghost predicate IsOrder(order: seq<nat>) {
    && |order| <= NBUF
    && (forall i :: 0 <= i < |order| ==> order[i] < NBUF)
    && (forall i, j :: 0 <= i < j < |order| ==> order[i] != order[j])
  }

  /** Position k of the cycle head, order[0], order[1], ..., back to head. */
  ghost function Node(order: seq<nat>, k: int): (n: nat)
    requires -1 <= k <= |order|
  { if k == -1 || k == |order| then HEAD else order[k] }

  ghost predicate RingOk(l: Links, order: seq<nat>) {
    && |l.next| == NBUF + 1 && |l.prev| == NBUF + 1
    && IsOrder(order)
    && (forall k :: -1 <= k < |order| ==> l.next[Node(order, k)] == Node(order, k + 1))
    && (forall k :: -1 <= k < |order| ==> l.prev[Node(order, k + 1)] == Node(order, k))
  }

  /** b->next->prev = b->prev; b->prev->next = b->next */
  function Unlink(l: Links, b: nat): (r: Links)
    requires |l.next| == |l.prev| == NBUF + 1 && b < NBUF
    requires l.next[b] <= NBUF && l.prev[b] <= NBUF
  { Links(l.next[l.prev[b] := l.next[b]], l.prev[l.next[b] := l.prev[b]]) }

  /** b->next = head.next; b->prev = &head; head.next->prev = b; head.next = b */
  function LinkFront(l: Links, b: nat): (r: Links)
    requires |l.next| == |l.prev| == NBUF + 1 && b < NBUF && l.next[HEAD] <= NBUF
  {
    var first := l.next[HEAD];
    Links(l.next[b := first][HEAD := b], l.prev[b := HEAD][first := b])
  }

  lemma UnlinkRemoves(l: Links, order: seq<nat>, k: nat)
    requires RingOk(l, order) && k < |order|
    ensures l.next[order[k]] <= NBUF && l.prev[order[k]] <= NBUF
    ensures RingOk(Unlink(l, order[k]), order[..k] + order[k + 1..])
  {
    var b, shorter := order[k], order[..k] + order[k + 1..];
    assert Node(order, k) == b && l.next[b] == Node(order, k + 1) && l.prev[b] == Node(order, k - 1) by {
      assert l.next[Node(order, k)] == Node(order, k + 1);
      assert l.prev[Node(order, k - 1 + 1)] == Node(order, k - 1);
    }
    var r := Unlink(l, b);
    forall i | -1 <= i < |shorter|
      ensures r.next[Node(shorter, i)] == Node(shorter, i + 1) && r.prev[Node(shorter, i + 1)] == Node(shorter, i)
    {
      if i < k - 1 {
        assert Node(shorter, i) == Node(order, i) && Node(shorter, i + 1) == Node(order, i + 1);
      } else if i == k - 1 {
        assert Node(shorter, i) == Node(order, k - 1) && Node(shorter, i + 1) == Node(order, k + 1);
      } else {
        assert Node(shorter, i) == Node(order, i + 1) && Node(shorter, i + 1) == Node(order, i + 2);
      }
    }
  }

  lemma LinkFrontInserts(l: Links, order: seq<nat>, b: nat)
    requires RingOk(l, order) && b < NBUF && b !in order && |order| < NBUF
    ensures l.next[HEAD] <= NBUF
    ensures RingOk(LinkFront(l, b), [b] + order)
  {
    assert l.next[Node(order, -1)] == Node(order, 0);
    var r, longer := LinkFront(l, b), [b] + order;
    forall i | -1 <= i < |longer|
      ensures r.next[Node(longer, i)] == Node(longer, i + 1) && r.prev[Node(longer, i + 1)] == Node(longer, i)
    {
      if i >= 1 {
        assert Node(longer, i) == Node(order, i - 1) && Node(longer, i + 1) == Node(order, i);
      } else if i == 0 {
        assert Node(longer, 1) == Node(order, 0);
      }
    }
  }

  /** Every buffer is on the ring. */
  ghost predicate Full(order: seq<nat>) { |order| == NBUF && forall b: nat :: b < NBUF ==> b in order }

  /** The order after buffer order[k] was used. */
  ghost function Used(order: seq<nat>, k: nat): (r: seq<nat>)
    requires k < |order|
    ensures |r| == |order|
  { [order[k]] + order[..k] + order[k + 1..] }

  /** brelse's relinking moves the buffer to the front and keeps everyone else in order. */
  lemma MoveToFront(l: Links, order: seq<nat>, k: nat)
    requires RingOk(l, order) && k < |order|
    ensures l.next[order[k]] <= NBUF && l.prev[order[k]] <= NBUF
    ensures Unlink(l, order[k]).next[HEAD] <= NBUF
    ensures RingOk(LinkFront(Unlink(l, order[k]), order[k]), Used(order, k))
    ensures Full(order) ==> Full(Used(order, k))
  {
    UnlinkRemoves(l, order, k);
    var shorter := order[..k] + order[k + 1..];
    LinkFrontInserts(Unlink(l, order[k]), shorter, order[k]);
    var r := Used(order, k);
    assert [order[k]] + shorter == r;
    forall b: nat | b in order ensures b in r {
      var i :| 0 <= i < |order| && order[i] == b;
      assert r[if i < k then i + 1 else if i == k then 0 else i] == b;
    }
  }

  /** binit's loop: every buffer is linked at the front, in turn. */
  method BuildRing() returns (l: Links, ghost order: seq<nat>)
    ensures RingOk(l, order) && Full(order)
    ensures forall k :: 0 <= k < NBUF ==> order[k] == NBUF - 1 - k
    ensures |l.next| == |l.prev| == NBUF + 1
    ensures (forall b :: 0 < b <= NBUF ==> l.next[b] == b - 1) && (forall b :: 0 <= b < NBUF ==> l.prev[b] == b + 1)
  {
    l, order := Links(seq(NBUF + 1, _ => HEAD), seq(NBUF + 1, _ => HEAD)), [];
    var i: nat := 0;
    while i < NBUF
      invariant 0 <= i <= NBUF && |order| == i && RingOk(l, order)
      invariant forall k :: 0 <= k < i ==> order[k] == i - 1 - k
    {
      LinkFrontInserts(l, order, i);
      l, order := LinkFront(l, i), [i] + order;
      i := i + 1;
    }
    forall b: nat | b < NBUF ensures b in order { assert order[NBUF - 1 - b] == b; }
    forall b | 0 < b <= NBUF ensures l.next[b] == b - 1 { Neighbours(l, order, b); }
    forall b | 0 <= b < NBUF ensures l.prev[b] == b + 1 { Neighbours(l, order, b + 1); }
  }

  lemma Neighbours(l: Links, order: seq<nat>, b: nat)
    requires RingOk(l, order) && |order| == NBUF && 0 < b <= NBUF && forall k :: 0 <= k < NBUF ==>
        order[k] == NBUF - 1 - k
    ensures l.next[b] == b - 1 && l.prev[b - 1] == b
  {
    var k := NBUF - 1 - b;
    assert Node(order, k) == b && Node(order, k + 1) == b - 1;
    assert l.next[Node(order, k)] == Node(order, k + 1) && l.prev[Node(order, k + 1)] == Node(order, k);
  }
}

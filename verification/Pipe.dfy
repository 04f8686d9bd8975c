/** The ring buffer of a pipe (kernel/pipe.c): bytes come out in the order they went in, past the wrap of its
    counters. */
module Pipe {
  import opened Blocks

  const PIPESIZE: nat := 512
  /** nread and nwrite are 32-bit unsigned. */
  const WRAP: nat := 0x1_0000_0000

  /** How the write loop leaves its critical section. */
  datatype Exit = Finished | MustSleep | Refused

  predicate Full(nread: nat, nwrite: nat) { nwrite == (nread + PIPESIZE) % WRAP }

  /** The counters are the totals modulo 2^32, so their comparisons count the bytes in the ring. */
  lemma Counters(delivered: nat, accepted: nat)
    requires delivered <= accepted <= delivered + PIPESIZE
    ensures Full(delivered % WRAP, accepted % WRAP) <==> accepted == delivered + PIPESIZE
    ensures delivered % WRAP == accepted % WRAP <==> accepted == delivered
  {
    var a, d := accepted / WRAP, delivered / WRAP;
    assert a == d || a == d + 1;
  }

  lemma Bump(total: nat)
    ensures (total % WRAP + 1) % WRAP == (total + 1) % WRAP && total % WRAP % PIPESIZE == total % PIPESIZE
  {
    var q, r := total / WRAP, total % WRAP;
    Residue(WRAP, if r + 1 == WRAP then q + 1 else q, if r + 1 == WRAP then 0 else r + 1);
    Residue(PIPESIZE, q * 0x80_0000 + r / PIPESIZE, r % PIPESIZE);
  }

  lemma Residue(m: nat, q: nat, r: nat)
    requires r < m && (m == WRAP || m == PIPESIZE)
    ensures (m * q + r) % m == r
  {}

  /** The slot of the next byte holds none of the last PIPESIZE - 1. */
  lemma SlotFree(k: nat, total: nat)
    requires k < total < k + PIPESIZE
    ensures k % PIPESIZE != total % PIPESIZE
  {}

  function Min(a: nat, b: nat): (m: nat) { if a < b then a else b }

  class Ring {
    const data: array<byte>
    var nread: nat
    var nwrite: nat
    var readopen: bool
    var writeopen: bool
    /** Every byte pipewrite has put in the ring, every byte piperead has handed out. */
    ghost var accepted: seq<byte>
    ghost var delivered: seq<byte>

    ghost predicate Valid()
      reads this, data
    {
      && data.Length == PIPESIZE
      && |delivered| <= |accepted| <= |delivered| + PIPESIZE
      && delivered == accepted[..|delivered|]
      && nread == |delivered| % WRAP && nwrite == |accepted| % WRAP
      && forall k: nat :: |delivered| <= k < |accepted| ==> data[k % PIPESIZE] == accepted[k]
    }

    /** The bytes in the ring, oldest first. */
    ghost function Contents(): (r: seq<byte>)
      requires Valid()
      reads this, data
      ensures accepted == delivered + r && |r| <= PIPESIZE
    { accepted[|delivered|..] }

    constructor ()
      ensures Valid() && accepted == [] && readopen && writeopen && fresh(data)
    {
      data := new byte[PIPESIZE];
      nread, nwrite, readopen, writeopen := 0, 0, true, true;
      accepted, delivered := [], [];
    }

    /** pi->data[pi->nwrite++ % PIPESIZE] = ch. */
    method Put(ch: byte)
      requires Valid() && |Contents()| < PIPESIZE
      modifies this`nwrite, this`accepted, data
      ensures Valid() && accepted == old(accepted) + [ch]
    {
      Bump(|accepted|);
      forall k: nat | |delivered| <= k < |accepted|
        ensures k % PIPESIZE != |accepted| % PIPESIZE
      {
        SlotFree(k, |accepted|);
      }
      data[nwrite % PIPESIZE] := ch;
      nwrite := (nwrite + 1) % WRAP;
      accepted := accepted + [ch];
    }

    /**
      * pipewrite's loop, from taking pi->lock (or waking in sleep) with i bytes done to where it would sleep or
      * return.  killed: the first index at which killed(pr) is seen; bad: the first at which copyin fails.
      */
    method Write(src: seq<byte>, from: nat, killed: nat, bad: nat) returns (i: nat, exit: Exit)
      requires Valid() && from <= |src|
      modifies this`nwrite, this`accepted, data
      ensures Valid() && from <= i <= |src| && accepted == old(accepted) + src[from..i]
      ensures exit == Finished ==> i == |src| || i == (if bad < from then from else bad)
      ensures exit == MustSleep ==> i < |src| && |Contents()| == PIPESIZE && readopen && i < killed
      ensures exit == Refused ==> i < |src| && (!readopen || killed <= i)
      ensures !readopen && from < |src| ==> exit == Refused && i == from
    {
      i := from;
      assert src[from..from] == [];
      while i < |src|
        invariant from <= i <= |src| && Valid() && accepted == old(accepted) + src[from..i]
        invariant (!readopen ==> i == from) && (i == from || i <= bad)
      {
        if !readopen || killed <= i { return i, Refused; }
        Counters(|delivered|, |accepted|);
        if Full(nread, nwrite) { return i, MustSleep; }
        if bad <= i { break; }
        Put(src[i]);
        assert src[from..i] + [src[i]] == src[from..i + 1];
        i := i + 1;
      }
      return i, Finished;
    }

    /** The next byte to deliver, if any. */
    method Peek() returns (more: bool, ch: byte)
      requires Valid()
      ensures more <==> Contents() != []
      ensures more ==> ch == Contents()[0]
    {
      hide Full;
      Counters(|delivered|, |accepted|);
      if nread == nwrite { return false, 0; }
      Bump(|delivered|);
      return true, data[nread % PIPESIZE];
    }

    method Advance(ghost ch: byte)
      requires Valid() && Contents() != [] && ch == Contents()[0]
      modifies this`nread, this`delivered
      ensures Valid() && delivered == old(delivered) + [ch] && Contents() == old(Contents())[1..]
    {
      Bump(|delivered|);
      hide Full;
      nread := (nread + 1) % WRAP;
      delivered := delivered + [ch];
    }

    /**
      * piperead's copy loop; bad: the first index at which copyout fails.  It hands out the oldest bytes,
      * as many as are asked for, there, and accepted by copyout, and returns -1 only if the first copyout fails.
      */
    method Read(n: nat, bad: nat) returns (ret: int, out: seq<byte>)
      requires Valid()
      modifies this`nread, this`delivered
      ensures Valid() && delivered == old(delivered) + out
      ensures |out| == Min(n, Min(|old(Contents())|, bad)) && out == old(Contents())[..|out|]
      ensures ret == if bad == 0 && n > 0 && |old(Contents())| > 0 then -1 else |out|
    {
      hide Valid, Contents;
      var i := 0;
      out := [];
      ghost var was := Contents();
      while i < n
        invariant 0 <= i == |out| <= n && Valid() && i <= |was| && Contents() == was[i..]
        invariant out == was[..i] && delivered == old(delivered) + out && i <= bad
      {
        var more, ch := Peek();
        if !more { break; }
        if i == bad {
          return if i == 0 then -1 else i, out;
        }
        Advance(ch);
        out := out + [ch];
        i := i + 1;
      }
      return i, out;
    }

    /** The test on which piperead sleeps. */
    method MustWait() returns (b: bool)
      requires Valid()
      ensures b <==> Contents() == [] && writeopen
    {
      Counters(|delivered|, |accepted|);
      b := nread == nwrite && writeopen;
    }

    /** pipeclose; the memory goes back when both ends are closed. */
    method Close(writable: bool) returns (free: bool)
      requires Valid()
      modifies this`readopen, this`writeopen
      ensures Valid() && (free <==> !readopen && !writeopen)
      ensures if writable then !writeopen && readopen == old(readopen) else !readopen && writeopen == old(writeopen)
    {
      if writable { writeopen := false; } else { readopen := false; }
      free := !readopen && !writeopen;
    }
  }
}

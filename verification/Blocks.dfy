/** Disk blocks (kernel/fs.h): 1024 bytes, read either as bytes or as 256 little-endian 32-bit words. */
module Blocks {

  const BSIZE := 1024
  const NWORDS := 256

  type byte = x: int | 0 <= x < 256
  type u32 = x: int | 0 <= x < 0x1_0000_0000
  type Block = b: seq<byte> | |b| == BSIZE witness seq(BSIZE, _ => 0)

  function Zeroed(): (b: Block)
    ensures forall k :: 0 <= k < NWORDS ==> Word(b, k) == 0
  { seq(BSIZE, _ => 0) }

  function Word(b: Block, k: nat): (w: u32)
    requires k < NWORDS
  {
    var b0: int, b1: int, b2: int, b3: int := b[4*k], b[4*k+1], b[4*k+2], b[4*k+3];
    b0 + 0x100 * b1 + 0x1_0000 * b2 + 0x100_0000 * b3
  }

  lemma Digits(w: nat)
    ensures w % 0x1_0000_0000 == w % 0x100 + 0x100 * (w / 0x100 % 0x100) + 0x1_0000 * (w / 0x100 / 0x100 % 0x100)
                                 + 0x100_0000 * (w / 0x100 / 0x100 / 0x100 % 0x100)
  {
    var q1, r0 := Split(w);
    var q2, r1 := Split(q1);
    var q3, r2 := Split(q2);
    var q4, r3 := Split(q3);
    LowWord(w, q4, r0 + 0x100 * r1 + 0x1_0000 * r2 + 0x100_0000 * r3);
  }

  lemma Split(w: nat) returns (q: nat, r: nat)
    ensures q == w / 0x100 && r == w % 0x100 && w == 0x100 * q + r && r < 0x100
  { q, r := w / 0x100, w % 0x100; }

  lemma LowWord(w: nat, q: nat, low: nat)
    requires w == 0x1_0000_0000 * q + low && low < 0x1_0000_0000
    ensures w % 0x1_0000_0000 == low
  {}

  /** Stores the low 32 bits of w. */
  function SetWord(b: Block, k: nat, w: nat): (r: Block)
    requires k < NWORDS
    ensures Word(r, k) == w % 0x1_0000_0000
    ensures forall j :: 0 <= j < NWORDS && j != k ==> Word(r, j) == Word(b, j)
  {
    Digits(w);
    var q1 := w / 0x100; var q2 := q1 / 0x100; var q3 := q2 / 0x100;
    b[4*k := w % 0x100][4*k+1 := q1 % 0x100][4*k+2 := q2 % 0x100][4*k+3 := q3 % 0x100]
  }
}

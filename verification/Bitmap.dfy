/** One bit of a bitmap block, as kernel/fs.c reads and writes it: bit i is bit i % 8 of byte i / 8. */
module Bitmap {
  import opened Blocks

  const BPB := 8192

  function Mask(k: nat): (m: nat)
    ensures m > 0
  { if k == 0 then 1 else 2 * Mask(k - 1) }

  /** x & (1 << k) */
  predicate Test(x: nat, k: nat) { if k == 0 then x % 2 == 1 else Test(x / 2, k - 1) }

  /** x | (1 << k) */
  function Or(x: nat, k: nat): (r: nat)
    ensures Test(r, k)
  { if k == 0 then x / 2 * 2 + 1 else 2 * Or(x / 2, k - 1) + x % 2 }

  /** x & ~(1 << k) */
  function AndNot(x: nat, k: nat): (r: nat)
    ensures !Test(r, k)
  { if k == 0 then x / 2 * 2 else 2 * AndNot(x / 2, k - 1) + x % 2 }

  lemma HalfOf(q: nat, d: nat)
    requires d < 2
    ensures (2 * q + d) / 2 == q && (2 * q + d) % 2 == d
  {}

  /** The other bits are left alone. */
  lemma {:induction false} OrOthers(x: nat, k: nat, j: nat)
    requires j != k
    ensures Test(Or(x, k), j) == Test(x, j)
  {
    if k == 0 { HalfOf(x / 2, 1); } else {
      HalfOf(Or(x / 2, k - 1), x % 2);
      if j > 0 { OrOthers(x / 2, k - 1, j - 1); }
    }
  }

  lemma {:induction false} AndNotOthers(x: nat, k: nat, j: nat)
    requires j != k
    ensures Test(AndNot(x, k), j) == Test(x, j)
  {
    if k == 0 { HalfOf(x / 2, 0); } else {
      HalfOf(AndNot(x / 2, k - 1), x % 2);
      if j > 0 { AndNotOthers(x / 2, k - 1, j - 1); }
    }
  }

  lemma {:induction false} SameWidth(x: nat, k: nat, width: nat)
    requires k < width && x < Mask(width)
    ensures Or(x, k) < Mask(width) && AndNot(x, k) < Mask(width)
  {
    var half := Mask(width - 1);
    if k > 0 {
      SameWidth(x / 2, k - 1, width - 1);
      Doubled(Or(x / 2, k - 1), x % 2, half);
      Doubled(AndNot(x / 2, k - 1), x % 2, half);
    } else {
      Doubled(x / 2, 1, half);
      Doubled(x / 2, 0, half);
    }
  }

  lemma Doubled(q: nat, d: nat, half: nat)
    requires q < half && d < 2
    ensures 2 * q + d < 2 * half
  {}

  predicate Bit(b: Block, i: nat)
    requires i < BPB
  { Test(b[i / 8], i % 8) }

  function SetBit(b: Block, i: nat, on: bool): (r: Block)
    requires i < BPB
    ensures forall j :: 0 <= j < BPB ==> (Bit(r, j) <==> if j == i then on else Bit(b, j))
  {
    var x, k := b[i / 8], i % 8;
    var y := if on then Or(x, k) else AndNot(x, k);
    assert Mask(8) == 256;
    assert y < 256 by { SameWidth(x, k, 8); }
    var r := b[i / 8 := y];
    assert forall j :: 0 <= j < BPB ==> (Bit(r, j) <==> if j == i then on else Bit(b, j)) by {
      forall j | 0 <= j < BPB ensures Bit(r, j) <==> if j == i then on else Bit(b, j) {
        if j / 8 == i / 8 && j != i { if on { OrOthers(x, k, j % 8); } else { AndNotOthers(x, k, j % 8); } }
      }
    }
    r
  }
}

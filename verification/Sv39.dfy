/** Sv39 page-table entries and indices, kernel/riscv.h (section 4.4 of the RISC-V Privileged Architecture, with the
    T-Head attribute bits 59..63): the 64-bit words, and the fields they decode to. */
module Sv39 {

  const PGSIZE := 4096
  const MAXVA := 0x40_0000_0000
  const NVPN := 0x400_0000          // MAXVA / PGSIZE
  const TRAMPOLINE := NVPN - 1      // as page numbers
  const TRAPFRAME := NVPN - 2

  // ---------- Words ----------

  const PTE_V: bv64 := 0x1
  const PTE_R: bv64 := 0x2
  const PTE_W: bv64 := 0x4
  const PTE_X: bv64 := 0x8
  const PTE_U: bv64 := 0x10

  /** Bits 10..53, the physical page number. */
  const PPN: bv64 := 0x003F_FFFF_FFFF_FC00

  function Pa2Pte(pa: bv64): (w: bv64) { (pa >> 12) << 10 }
  function Pte2Pa(w: bv64): (pa: bv64) { ((w >> 10) << 12) & 0x00FF_FFFF_FFFF_FF00 }

  /** Page-aligned and below 2^56. */
  predicate PageAddr(pa: bv64) { pa & 0xFF00_0000_0000_0FFF == 0 }

  /** No bit of the physical page number. */
  predicate FlagBits(flags: bv64) { flags & PPN == 0 }

  /** PTE2PA undoes PA2PTE under any flag bits, the high ones included. */
  lemma PteRoundTrip(pa: bv64, flags: bv64)
    requires PageAddr(pa) && FlagBits(flags)
    ensures Pte2Pa(Pa2Pte(pa) | flags | PTE_V) == pa
  {}

  /** The flags survive beside the page number: uvmcopy's mask recovers all of them. */
  lemma FlagsSurvive(pa: bv64, flags: bv64)
    requires PageAddr(pa) && FlagBits(flags)
    ensures (Pa2Pte(pa) | flags | PTE_V) & !PPN == flags | PTE_V
  {}

  // ---------- Fields ----------

  /** Every bit outside the physical page number; `attrs` is G, A, D, RSW and the bits from 54 up. */
  datatype Perm = Perm(v: bool, r: bool, w: bool, x: bool, u: bool, attrs: nat) {
    predicate Rwx() { r || w || x }
  }

  /** `page` is the physical page number. */
  datatype Pte = Pte(page: nat, perm: Perm)

  const NOPERM := Perm(false, false, false, false, false, 0)
  const NOPTE := Pte(0, NOPERM)

  function PermOf(w: bv64): (p: Perm) {
    Perm(w & PTE_V != 0, w & PTE_R != 0, w & PTE_W != 0, w & PTE_X != 0, w & PTE_U != 0,
         (w & 0xFFC0_0000_0000_03E0) as nat)
  }

  function Decode(w: bv64): (e: Pte) { Pte((Pte2Pa(w) >> 12) as nat, PermOf(w)) }

  /** The entry PA2PTE(pa) | perm | PTE_V that mappages stores decodes to that page with those permissions. */
  lemma StoredEntry(pa: bv64, perm: bv64)
    requires PageAddr(pa) && FlagBits(perm)
    ensures Decode(Pa2Pte(pa) | perm | PTE_V) == Pte((pa >> 12) as nat, PermOf(perm).(v := true))
  {
    PteRoundTrip(pa, perm);
    StoredBits(Pa2Pte(pa), perm);
  }

  lemma StoredBits(ppn: bv64, perm: bv64)
    requires ppn & !PPN == 0
    ensures var w := ppn | perm | PTE_V;
      && w & PTE_V != 0 && w & PTE_R == perm & PTE_R && w & PTE_W == perm & PTE_W && w & PTE_X == perm & PTE_X
      && w & PTE_U == perm & PTE_U && w & 0xFFC0_0000_0000_03E0 == perm & 0xFFC0_0000_0000_03E0
  {}
}

/** Inodes, the block map and the free bitmap of kernel/fs.c, over the block map that the buffer cache and the log
    provide.  `inodes` holds the in-memory inode of each inode number; iupdate copies one to its inode block.
    The ghost `owner` names the slot that holds each allocated data block. */
module FileSystem {
  import opened Blocks
  import opened Bitmap
  import opened Params

  const NDIRECT := 12
  const NINDIRECT := 256
  const MAXFILE := 268
  const IPB := 16

  /** Slots of an inode: 0..11 direct, 12 the indirect pointer, 13..268 the entries of the indirect block. */
  const INDIRECT := 12
  const NSLOTS := 269

  datatype Super = Super(size: nat, ninodes: nat, inodestart: nat, bmapstart: nat, datastart: nat)

  /** type and major, minor and nlink, size, addrs. */
  datatype Inode = Inode(tag0: u32, tag1: u32, size: u32, addrs: seq<u32>)

  /** ip->type, the low half of the first word; 0 marks a free inode. */
  function Type(ino: Inode): (t: nat) { ino.tag0 % 0x1_0000 }

  /** ip->nlink, the high half of the second word. */
  function Nlink(ino: Inode): (n: nat) { ino.tag1 / 0x1_0000 }

  datatype State = State(blocks: seq<Block>, inodes: seq<Inode>, owner: map<nat, (nat, nat)>, logged: set<nat>)

  /** The layout mkfs writes: inode blocks, then bitmap blocks, then data blocks. */
  ghost predicate GoodSuper(sb: Super) {
    && 0 < sb.inodestart && sb.inodestart + sb.ninodes / IPB < sb.bmapstart
    && sb.bmapstart + sb.size / BPB < sb.datastart <= sb.size < 0x8000_0000
  }

  function FileSlot(bn: nat): (k: nat) { if bn < NDIRECT then bn else bn + 1 }

  function SlotOf(blocks: seq<Block>, ino: Inode, k: nat): (b: nat) {
    if |ino.addrs| != NDIRECT + 1 || k >= NSLOTS then 0
    else if k <= INDIRECT then ino.addrs[k]
    else
      var a := ino.addrs[INDIRECT];
      if 0 < a < |blocks| then Word(blocks[a], k - NDIRECT - 1) else 0
  }

  function Slot(s: State, i: nat, k: nat): (b: nat) {
    if i < |s.inodes| then SlotOf(s.blocks, s.inodes[i], k) else 0
  }

  /** The bitmap bit of block b. */
  predicate InUse(s: State, sb: Super, b: nat) {
    sb.bmapstart + b / BPB < |s.blocks| && Bit(s.blocks[sb.bmapstart + b / BPB], b % BPB)
  }

  // ---------- The invariant ----------

  ghost predicate Shape(s: State, sb: Super) {
    && GoodSuper(sb) && |s.blocks| == sb.size && |s.inodes| == sb.ninodes
    && forall i :: 0 <= i < |s.inodes| ==> |s.inodes[i].addrs| == NDIRECT + 1
  }

  /** Exactly the owned data blocks, the metadata blocks and the `spare` ones (allocated but not yet recorded) are
      marked in the bitmap; an owned block is named by its owner slot, and by no other slot except `dead` ones
      (freed but not yet cleared). */
  ghost predicate Owned(s: State, sb: Super, spare: set<nat>, dead: set<(nat, nat)>) {
    && (forall i: nat, k: nat :: Slot(s, i, k) != 0 && (i, k) !in dead ==>
          Slot(s, i, k) in s.owner && s.owner[Slot(s, i, k)] == (i, k))
    && (forall b <- s.owner :: sb.datastart <= b < sb.size && b !in spare && s.owner[b] !in dead
          && Slot(s, s.owner[b].0, s.owner[b].1) == b)
    && (forall b <- spare :: sb.datastart <= b < sb.size)
    && (forall b: nat :: b < sb.size ==> (InUse(s, sb, b) <==> b < sb.datastart || b in s.owner || b in spare))
  }

  /** Every block below the file's end is mapped. */
  ghost predicate NoHoles(s: State, i: nat) {
    && i < |s.inodes| && s.inodes[i].size <= MAXFILE * BSIZE
    && forall bn: nat :: bn * BSIZE < s.inodes[i].size ==> Slot(s, i, FileSlot(bn)) != 0
  }

  /** A free inode has no bytes and names no block. */
  ghost predicate Bare(ino: Inode) { ino.size == 0 && forall k :: 0 <= k < |ino.addrs| ==> ino.addrs[k] == 0 }

  ghost predicate FreeBare(inodes: seq<Inode>) {
    forall i :: 0 <= i < |inodes| && Type(inodes[i]) == 0 ==> Bare(inodes[i])
  }

  ghost predicate Inv(s: State, sb: Super) {
    && Shape(s, sb) && Owned(s, sb, {}, {}) && FreeBare(s.inodes)
    && forall i: nat :: i < |s.inodes| ==> NoHoles(s, i)
  }

  /** Inode i is allocated: what ilock's "no type" panic guarantees of an inode that is locked. */
  ghost predicate Live(s: State, i: nat) { i < |s.inodes| && Type(s.inodes[i]) != 0 }

  // ---------- Contents ----------

  function ByteAt(s: State, i: nat, p: nat): (x: byte) {
    var b := Slot(s, i, FileSlot(p / BSIZE));
    if b < |s.blocks| then s.blocks[b][p % BSIZE] else 0
  }

  /** The file as a byte string. */
  function Content(s: State, i: nat): (c: seq<byte>)
    requires i < |s.inodes|
  { seq(s.inodes[i].size, p requires 0 <= p => ByteAt(s, i, p)) }

  /** From s to t nothing any file holds has moved or changed; only inode i may have gained blocks. */
  ghost predicate Grown(s: State, t: State, sb: Super, i: nat) {
    && |t.blocks| == |s.blocks| && |t.inodes| == |s.inodes|
    && (forall j: nat :: j < |s.inodes| && j != i ==> t.inodes[j] == s.inodes[j])
    && (i < |s.inodes| ==> t.inodes[i] == s.inodes[i].(addrs := t.inodes[i].addrs))
    && (forall j: nat, k: nat :: Slot(s, j, k) != 0 ==> Slot(t, j, k) == Slot(s, j, k))
    && (forall b: nat :: b < |s.blocks| && b in s.owner && s.owner[b].1 != INDIRECT ==> t.blocks[b] == s.blocks[b])
    && (forall b: nat :: b in s.owner ==> b in t.owner && t.owner[b] == s.owner[b])
    && (forall b: nat :: b < sb.bmapstart && b < |s.blocks| ==> t.blocks[b] == s.blocks[b])
  }

  lemma GrownTrans(s: State, t: State, u: State, sb: Super, i: nat)
    requires Grown(s, t, sb, i) && Grown(t, u, sb, i)
    ensures Grown(s, u, sb, i)
  {
    forall j: nat, k: nat | Slot(s, j, k) != 0 ensures Slot(u, j, k) == Slot(s, j, k) {
      assert Slot(t, j, k) == Slot(s, j, k);
    }
  }

  // ---------- Allocating ----------

  ghost function Alloced(s: State, sb: Super, b: nat): (t: State)
    requires Shape(s, sb) && sb.datastart <= b < sb.size
    ensures |t.blocks| == |s.blocks|
  {
    var bb := sb.bmapstart + b / BPB;
    s.(blocks := s.blocks[bb := SetBit(s.blocks[bb], b % BPB, true)][b := Zeroed()], logged := s.logged + {bb, b})
  }

  lemma AllocKeepsSlots(s: State, sb: Super, b: nat, i: nat, k: nat)
    requires Shape(s, sb) && Owned(s, sb, {}, {}) && sb.datastart <= b < sb.size && !InUse(s, sb, b)
    ensures Slot(Alloced(s, sb, b), i, k) == Slot(s, i, k)
  {
    if i < |s.inodes| {
      var a := s.inodes[i].addrs[INDIRECT];
      assert a == Slot(s, i, INDIRECT);
    }
  }

  lemma AllocKeeps(s: State, sb: Super, b: nat)
    requires Shape(s, sb) && Owned(s, sb, {}, {}) && sb.datastart <= b < sb.size && !InUse(s, sb, b)
    ensures var t := Alloced(s, sb, b); Shape(t, sb) && Owned(t, sb, {b}, {}) && b !in s.owner
    ensures Grown(s, Alloced(s, sb, b), sb, |s.inodes|)
  {
    hide Slot, InUse, SetBit;
    var t := Alloced(s, sb, b);
    forall i: nat, k: nat ensures Slot(t, i, k) == Slot(s, i, k) { AllocKeepsSlots(s, sb, b, i, k); }
    forall c: nat | c < sb.size ensures InUse(t, sb, c) <==> c == b || InUse(s, sb, c) {
      AllocBits(s, sb, b, c);
    }
  }

  lemma AllocBits(s: State, sb: Super, b: nat, c: nat)
    requires Shape(s, sb) && sb.datastart <= b < sb.size && c < sb.size
    ensures InUse(Alloced(s, sb, b), sb, c) <==> c == b || InUse(s, sb, c)
  {
    assert sb.bmapstart + c / BPB < sb.datastart;
  }

  /** ip->addrs[k] = b */
  ghost function Named(s: State, i: nat, k: nat, b: u32): (t: State)
    requires i < |s.inodes| && k < |s.inodes[i].addrs|
  {
    s.(inodes := s.inodes[i := s.inodes[i].(addrs := s.inodes[i].addrs[k := b])], owner := s.owner[b := (i, k)])
  }

  lemma NamedSlots(s: State, sb: Super, i: nat, k: nat, b: u32, j: nat, l: nat)
    requires Shape(s, sb) && i < |s.inodes| && k <= INDIRECT && Slot(s, i, k) == 0
    requires sb.datastart <= b < sb.size && s.blocks[b] == Zeroed()
    ensures Slot(Named(s, i, k, b), j, l) == if (j, l) == (i, k) then b else Slot(s, j, l)
  {}

  lemma NamedKeeps(s: State, sb: Super, i: nat, k: nat, b: u32)
    requires Shape(s, sb) && Owned(s, sb, {b}, {}) && i < |s.inodes| && k <= INDIRECT && Slot(s, i, k) == 0
    requires sb.datastart <= b < sb.size && s.blocks[b] == Zeroed()
    ensures var t := Named(s, i, k, b);
      Shape(t, sb) && Owned(t, sb, {}, {}) && Grown(s, t, sb, i) && Slot(t, i, k) == b
  {
    hide Slot, InUse;
    var t := Named(s, i, k, b);
    forall j: nat, l: nat ensures Slot(t, j, l) == if (j, l) == (i, k) then b else Slot(s, j, l) {
      NamedSlots(s, sb, i, k, b, j, l);
    }
    forall c: nat ensures InUse(t, sb, c) == InUse(s, sb, c) { SameBits(s, t, sb, c); }
  }

  lemma SameBits(s: State, t: State, sb: Super, c: nat)
    requires |t.blocks| == |s.blocks|
    requires forall b: nat :: sb.bmapstart <= b < |s.blocks| && b == sb.bmapstart + c / BPB ==>
        t.blocks[b] == s.blocks[b]
    ensures InUse(t, sb, c) == InUse(s, sb, c)
  {}

  /** a[j] = b in the indirect block */
  ghost function Entered(s: State, i: nat, j: nat, b: u32): (t: State)
    requires i < |s.inodes| && |s.inodes[i].addrs| == NDIRECT + 1 && s.inodes[i].addrs[INDIRECT] < |s.blocks| &&
        j < NINDIRECT
  {
    var a := s.inodes[i].addrs[INDIRECT];
    s.(blocks := s.blocks[a := SetWord(s.blocks[a], j, b)], owner := s.owner[b := (i, NDIRECT + 1 + j)],
       logged := s.logged + {a})
  }

  /** The indirect block of inode i, and why no other inode has it. */
  lemma IndirectBlock(s: State, sb: Super, spare: set<nat>, i: nat)
    requires Shape(s, sb) && Owned(s, sb, spare, {}) && i < |s.inodes| && Slot(s, i, INDIRECT) != 0
    ensures var a := s.inodes[i].addrs[INDIRECT];
      && a == Slot(s, i, INDIRECT) && sb.datastart <= a < sb.size && a in s.owner && s.owner[a] == (i, INDIRECT)
      && a !in spare
      && forall m: nat :: m < |s.inodes| && m != i ==> s.inodes[m].addrs[INDIRECT] != a
  {
    forall m: nat | m < |s.inodes| ensures Slot(s, m, INDIRECT) == s.inodes[m].addrs[INDIRECT] {}
    hide Slot, InUse;
    forall m: nat | m < |s.inodes| && m != i ensures s.inodes[m].addrs[INDIRECT] != s.inodes[i].addrs[INDIRECT] {
      assert (m, INDIRECT) != (i, INDIRECT);
      assert Slot(s, m, INDIRECT) != 0 ==> s.owner[Slot(s, m, INDIRECT)] == (m, INDIRECT);
    }
  }

  lemma EnteredSlots(s: State, i: nat, j: nat, b: u32, m: nat, l: nat)
    requires forall n :: 0 <= n < |s.inodes| ==> |s.inodes[n].addrs| == NDIRECT + 1
    requires i < |s.inodes| && j < NINDIRECT && 0 < s.inodes[i].addrs[INDIRECT] < |s.blocks|
    requires m < |s.inodes| && m != i ==> s.inodes[m].addrs[INDIRECT] != s.inodes[i].addrs[INDIRECT]
    ensures Slot(Entered(s, i, j, b), m, l) == if (m, l) == (i, NDIRECT + 1 + j) then b else Slot(s, m, l)
  {}

  lemma EnteredKeeps(s: State, sb: Super, i: nat, j: nat, b: u32)
    requires Shape(s, sb) && Owned(s, sb, {b}, {}) && i < |s.inodes| && j < NINDIRECT
    requires Slot(s, i, INDIRECT) != 0 && Slot(s, i, NDIRECT + 1 + j) == 0 && b != 0
    ensures s.inodes[i].addrs[INDIRECT] < |s.blocks|
    ensures var t := Entered(s, i, j, b);
      Shape(t, sb) && Owned(t, sb, {}, {}) && Grown(s, t, sb, i) && Slot(t, i, NDIRECT + 1 + j) == b
  {
    hide Slot, InUse, SetWord;
    IndirectBlock(s, sb, {b}, i);
    var t := Entered(s, i, j, b);
    forall m: nat, l: nat ensures Slot(t, m, l) == if (m, l) == (i, NDIRECT + 1 + j) then b else Slot(s, m, l) {
      EnteredSlots(s, i, j, b, m, l);
    }
    forall c: nat | c < sb.size ensures InUse(t, sb, c) == InUse(s, sb, c) { SameBits(s, t, sb, c); }
  }

  /** Nothing is left to allocate. */
  ghost predicate DiskFull(s: State, sb: Super) { forall b: nat :: b < sb.size ==> InUse(s, sb, b) }

  /** Growth of inode i keeps every file mapped. */
  lemma GrownNoHoles(s: State, t: State, sb: Super, i: nat)
    requires Inv(s, sb) && Grown(s, t, sb, i) && Shape(t, sb) && Owned(t, sb, {}, {}) && Live(s, i)
    ensures Inv(t, sb)
  {
    hide Slot, Owned;
    forall j: nat | j < |t.inodes| ensures NoHoles(t, j) {
      assert NoHoles(s, j);
      forall bn: nat | bn * BSIZE < t.inodes[j].size ensures Slot(t, j, FileSlot(bn)) != 0 {
        assert Slot(s, j, FileSlot(bn)) != 0;
      }
    }
  }

  lemma AllocAndName(s: State, sb: Super, i: nat, k: nat, b: nat)
    requires Inv(s, sb) && Live(s, i) && k <= INDIRECT && Slot(s, i, k) == 0
    requires sb.datastart <= b < sb.size && !InUse(s, sb, b)
    ensures k < |s.inodes[i].addrs| && var t := Named(Alloced(s, sb, b), i, k, b);
      Inv(t, sb) && Grown(s, t, sb, i) && Slot(t, i, k) == b
  {
    hide Slot, InUse, SetBit;
    var a := Alloced(s, sb, b);
    AllocKeeps(s, sb, b);
    AllocKeepsSlots(s, sb, b, i, k);
    NamedKeeps(a, sb, i, k, b);
    GrownWider(s, a, sb, i);
    GrownTrans(s, a, Named(a, i, k, b), sb, i);
    GrownNoHoles(s, Named(a, i, k, b), sb, i);
  }

  lemma GrownWider(s: State, t: State, sb: Super, i: nat)
    requires Grown(s, t, sb, |s.inodes|) && i < |s.inodes|
    ensures Grown(s, t, sb, i)
  { hide Slot; }

  lemma AllocAndEnter(s: State, sb: Super, i: nat, j: nat, b: nat)
    requires Inv(s, sb) && Live(s, i) && j < NINDIRECT
    requires Slot(s, i, INDIRECT) != 0 && Slot(s, i, NDIRECT + 1 + j) == 0
    requires sb.datastart <= b < sb.size && !InUse(s, sb, b)
    ensures |s.inodes[i].addrs| == NDIRECT + 1 && s.inodes[i].addrs[INDIRECT] < |s.blocks| &&
        s.inodes[i].addrs[INDIRECT] != b
    ensures var t := Entered(Alloced(s, sb, b), i, j, b);
      Inv(t, sb) && Grown(s, t, sb, i) && Slot(t, i, NDIRECT + 1 + j) == b
  {
    hide Slot, InUse, SetBit, SetWord;
    var a := Alloced(s, sb, b);
    AllocKeeps(s, sb, b);
    AllocKeepsSlots(s, sb, b, i, INDIRECT);
    AllocKeepsSlots(s, sb, b, i, NDIRECT + 1 + j);
    IndirectBlock(s, sb, {}, i);
    EnteredKeeps(a, sb, i, j, b);
    GrownWider(s, a, sb, i);
    GrownTrans(s, a, Entered(a, i, j, b), sb, i);
    GrownNoHoles(s, Entered(a, i, j, b), sb, i);
  }

  lemma GrownRefl(s: State, sb: Super, i: nat)
    ensures Grown(s, s, sb, i)
  {}

  lemma IndirectAt(s: State, sb: Super, i: nat, j: nat)
    requires Inv(s, sb) && i < |s.inodes| && j < NINDIRECT && Slot(s, i, INDIRECT) != 0
    ensures |s.inodes[i].addrs| == NDIRECT + 1 && 0 < s.inodes[i].addrs[INDIRECT] < |s.blocks|
    ensures Slot(s, i, NDIRECT + 1 + j) == Word(s.blocks[s.inodes[i].addrs[INDIRECT]], j)
  { IndirectBlock(s, sb, {}, i); }

  // ---------- Writing a block ----------

  /** Fill the block's buffer and log_write it. */
  ghost function Filled(s: State, b: nat, data: Block): (t: State)
    requires b < |s.blocks|
  { s.(blocks := s.blocks[b := data], logged := s.logged + {b}) }

  /** A data block of a file is not an indirect block, a bitmap block or an inode block. */
  lemma FileBlock(s: State, sb: Super, i: nat, k: nat)
    requires Inv(s, sb) && k != INDIRECT && Slot(s, i, k) != 0
    ensures var b := Slot(s, i, k);
      && sb.datastart <= b < sb.size && b in s.owner && s.owner[b] == (i, k)
      && forall m: nat :: m < |s.inodes| ==> s.inodes[m].addrs[INDIRECT] != b
  {
    forall m: nat | m < |s.inodes| ensures Slot(s, m, INDIRECT) == s.inodes[m].addrs[INDIRECT] {}
    hide Slot, InUse, NoHoles;
  }

  lemma FilledSlots(s: State, b: nat, data: Block, m: nat, l: nat)
    requires b < |s.blocks|
    requires m < |s.inodes| && |s.inodes[m].addrs| == NDIRECT + 1 ==> s.inodes[m].addrs[INDIRECT] != b
    ensures Slot(Filled(s, b, data), m, l) == Slot(s, m, l)
  {}

  /** Overwriting a block no slot or bit is read from keeps the invariant. */
  lemma FilledKeeps(s: State, sb: Super, b: nat, data: Block)
    requires Inv(s, sb) && b < |s.blocks| && !(sb.bmapstart <= b < sb.datastart)
    requires forall m: nat :: m < |s.inodes| ==> s.inodes[m].addrs[INDIRECT] != b
    ensures Inv(Filled(s, b, data), sb)
    ensures forall m: nat, l: nat :: Slot(Filled(s, b, data), m, l) == Slot(s, m, l)
  {
    hide Slot, InUse;
    var t := Filled(s, b, data);
    forall m: nat, l: nat ensures Slot(t, m, l) == Slot(s, m, l) { FilledSlots(s, b, data, m, l); }
    forall c: nat | c < sb.size ensures InUse(t, sb, c) == InUse(s, sb, c) { SameBits(s, t, sb, c); }
    forall j: nat | j < |t.inodes| ensures NoHoles(t, j) { assert NoHoles(s, j); }
  }

  /** Overwriting the file's bn-th block changes exactly that file's bytes bn * BSIZE up to (bn + 1) * BSIZE. */
  lemma FilledBytes(s: State, sb: Super, i: nat, bn: nat, data: Block, j: nat, p: nat)
    requires Inv(s, sb) && Slot(s, i, FileSlot(bn)) != 0 && Slot(s, j, FileSlot(p / BSIZE)) != 0
    ensures Slot(s, i, FileSlot(bn)) < |s.blocks|
    ensures ByteAt(Filled(s, Slot(s, i, FileSlot(bn)), data), j, p)
         == if j == i && p / BSIZE == bn then data[p % BSIZE] else ByteAt(s, j, p)
  {
    hide Slot, InUse, NoHoles;
    FileBlock(s, sb, i, FileSlot(bn));
    FileBlock(s, sb, j, FileSlot(p / BSIZE));
    FilledKeeps(s, sb, Slot(s, i, FileSlot(bn)), data);
    assert FileSlot(bn) == FileSlot(p / BSIZE) <==> bn == p / BSIZE;
  }

  // ---------- writei, chunk by chunk ----------

  function Max(a: int, b: int): (m: int) { if a < b then b else a }
  function Min(a: int, b: int): (m: int) { if a < b then a else b }

  /** After tot bytes: positions off up to off + tot hold the source, every other byte of every file is as it was in
      s0, and the file is mapped up to the larger of its old end and off + tot. */
  ghost predicate Progress(s0: State, s: State, sb: Super, i: nat, off: nat, src: seq<byte>, tot: nat) {
    && Inv(s, sb) && i < |s0.inodes| == |s.inodes| && tot <= |src|
    && s.inodes[i] == s0.inodes[i].(addrs := s.inodes[i].addrs)
    && (forall j: nat :: j < |s.inodes| && j != i ==> s.inodes[j] == s0.inodes[j])
    && (forall p: nat :: p < Max(s0.inodes[i].size, off + tot) ==> Slot(s, i, FileSlot(p / BSIZE)) != 0)
    && (forall p: nat :: p < Max(s0.inodes[i].size, off + tot) ==>
          ByteAt(s, i, p) == if off <= p < off + tot then src[p - off] else ByteAt(s0, i, p))
    && (forall j: nat, p: nat :: j < |s.inodes| && j != i && p < s.inodes[j].size ==>
        ByteAt(s, j, p) == ByteAt(s0, j, p))
    && |s.blocks| == |s0.blocks|
    && (forall b: nat :: b < sb.bmapstart && b < |s0.blocks| ==> s.blocks[b] == s0.blocks[b])
  }

  lemma MappedByNoHoles(s: State, i: nat, p: nat)
    requires NoHoles(s, i) && p < s.inodes[i].size
    ensures Slot(s, i, FileSlot(p / BSIZE)) != 0
  { assert (p / BSIZE) * BSIZE < s.inodes[i].size; }

  lemma ProgressNone(s: State, sb: Super, i: nat, off: nat, src: seq<byte>)
    requires Inv(s, sb) && i < |s.inodes| && off <= s.inodes[i].size
    ensures Progress(s, s, sb, i, off, src, 0)
  {
    hide Slot, Owned, ByteAt;
    forall p: nat | p < s.inodes[i].size ensures Slot(s, i, FileSlot(p / BSIZE)) != 0 { MappedByNoHoles(s, i, p); }
  }

  /** Growing files changes no byte that is mapped. */
  lemma GrownByte(s: State, t: State, sb: Super, i: nat, j: nat, p: nat)
    requires Inv(s, sb) && Grown(s, t, sb, i) && Slot(s, j, FileSlot(p / BSIZE)) != 0
    ensures ByteAt(t, j, p) == ByteAt(s, j, p)
  {
    hide Slot, InUse, NoHoles;
    FileBlock(s, sb, j, FileSlot(p / BSIZE));
  }

  lemma ProgressGrown(s0: State, s: State, t: State, sb: Super, i: nat, off: nat, src: seq<byte>, tot: nat)
    requires Progress(s0, s, sb, i, off, src, tot) && Grown(s, t, sb, i) && Inv(t, sb)
    ensures Progress(s0, t, sb, i, off, src, tot)
  {
    hide Slot, Owned, ByteAt;
    forall p: nat | p < Max(s0.inodes[i].size, off + tot) ensures ByteAt(t, i, p) == ByteAt(s, i, p) {
      GrownByte(s, t, sb, i, i, p);
    }
    forall j: nat, p: nat | j < |s.inodes| && j != i && p < s.inodes[j].size
      ensures ByteAt(t, j, p) == ByteAt(s, j, p)
    {
      assert NoHoles(s, j);
      MappedByNoHoles(s, j, p);
      GrownByte(s, t, sb, i, j, p);
    }
  }

  /** The chunk of the source that goes into the block holding position q, and the block it makes. */
  function Chunk(n: nat, tot: nat, q: nat): (m: nat)
    requires tot <= n
    ensures tot + m <= n && q % BSIZE + m <= BSIZE && (tot < n ==> m > 0)
  { Min(n - tot, BSIZE - q % BSIZE) }

  function Patched(was: Block, at: nat, w: seq<byte>): (b: Block)
    requires at + |w| <= BSIZE
    ensures forall x :: 0 <= x < BSIZE ==> b[x] == if at <= x < at + |w| then w[x - at] else was[x]
  { was[..at] + w + was[at + |w|..] }

  lemma ProgressFilled(s0: State, s: State, sb: Super, i: nat, off: nat, src: seq<byte>, tot: nat)
    requires Progress(s0, s, sb, i, off, src, tot) && tot < |src|
    requires Slot(s, i, FileSlot((off + tot) / BSIZE)) != 0
    ensures var q := off + tot; var m := Chunk(|src|, tot, q); var b := Slot(s, i, FileSlot(q / BSIZE));
      && b < |s.blocks|
      && Progress(s0, Filled(s, b, Patched(s.blocks[b], q % BSIZE, src[tot..tot + m])), sb, i, off, src, tot + m)
  {
    hide Slot, Owned, ByteAt, NoHoles;
    var q := off + tot;
    var bn, m := q / BSIZE, Chunk(|src|, tot, q);
    var b := Slot(s, i, FileSlot(bn));
    FileBlock(s, sb, i, FileSlot(bn));
    var w := src[tot..tot + m];
    var data := Patched(s.blocks[b], q % BSIZE, w);
    var t := Filled(s, b, data);
    FilledKeeps(s, sb, b, data);
    forall p: nat | p < Max(s0.inodes[i].size, q + m)
      ensures Slot(t, i, FileSlot(p / BSIZE)) != 0
      ensures ByteAt(t, i, p) == if off <= p < q + m then src[p - off] else ByteAt(s0, i, p)
    {
      ChunkByte(s0, s, sb, i, off, src, tot, p);
    }
    forall j: nat, p: nat | j < |s.inodes| && j != i && p < s.inodes[j].size
      ensures ByteAt(t, j, p) == ByteAt(s, j, p)
    {
      assert NoHoles(s, j);
      MappedByNoHoles(s, j, p);
      FilledBytes(s, sb, i, bn, data, j, p);
    }
  }

  lemma ChunkByte(s0: State, s: State, sb: Super, i: nat, off: nat, src: seq<byte>, tot: nat, p: nat)
    requires Progress(s0, s, sb, i, off, src, tot) && tot < |src|
    requires Slot(s, i, FileSlot((off + tot) / BSIZE)) != 0
    requires p < Max(s0.inodes[i].size, off + tot + Chunk(|src|, tot, off + tot))
    ensures Slot(s, i, FileSlot(p / BSIZE)) != 0
    ensures var q := off + tot; var m := Chunk(|src|, tot, q); var b := Slot(s, i, FileSlot(q / BSIZE));
      b < |s.blocks| &&
      ByteAt(Filled(s, b, Patched(s.blocks[b], q % BSIZE, src[tot..tot + m])), i, p)
        == if off <= p < q + m then src[p - off] else ByteAt(s0, i, p)
  {
    hide Slot, Owned, NoHoles, InUse;
    var q := off + tot;
    var bn, m := q / BSIZE, Chunk(|src|, tot, q);
    var b := Slot(s, i, FileSlot(bn));
    FileBlock(s, sb, i, FileSlot(bn));
    var w := src[tot..tot + m];
    var data := Patched(s.blocks[b], q % BSIZE, w);
    assert q <= p < q + m ==> p / BSIZE == bn && p % BSIZE == q % BSIZE + (p - q);
    FilledBytes(s, sb, i, bn, data, i, p);
    if q <= p < q + m {
      assert data[p % BSIZE] == w[p - q] == src[p - off];
    } else {
      assert p < Max(s0.inodes[i].size, off + tot);
      if p / BSIZE == bn {
        assert !(q % BSIZE <= p % BSIZE < q % BSIZE + m);
        assert ByteAt(s, i, p) == s.blocks[b][p % BSIZE];
      }
    }
  }

  /** c with w written at off, which is at most the length of c. */
  function Overlay(c: seq<byte>, off: nat, w: seq<byte>): (r: seq<byte>)
    requires off <= |c|
    ensures |r| == Max(|c|, off + |w|)
  { c[..off] + w + (if off + |w| <= |c| then c[off + |w|..] else []) }

  ghost function Resized(s: State, i: nat, size: u32): (t: State)
    requires i < |s.inodes|
  { s.(inodes := s.inodes[i := s.inodes[i].(size := size)]) }

  /** No inode outside `some` has changed, nor has any byte of its file. */
  ghost predicate OthersKept(s0: State, t: State, some: set<nat>) {
    && |s0.inodes| == |t.inodes|
    && forall j: nat :: j < |s0.inodes| && j !in some ==> t.inodes[j] == s0.inodes[j] && Content(t, j) == Content(s0, j)
  }

  /** Only file i's bytes changed, and they are c. */
  ghost predicate OnlyFile(s0: State, t: State, i: nat, c: seq<byte>) {
    && i < |s0.inodes| == |t.inodes| && Content(t, i) == c && OthersKept(s0, t, {i})
    && t.inodes[i].tag0 == s0.inodes[i].tag0 && t.inodes[i].tag1 == s0.inodes[i].tag1
  }

  lemma ResizedSlots(s: State, i: nat, size: u32, j: nat, k: nat)
    requires i < |s.inodes|
    ensures Slot(Resized(s, i, size), j, k) == Slot(s, j, k)
    ensures ByteAt(Resized(s, i, size), j, k) == ByteAt(s, j, k)
  {}

  lemma ResizedKeeps(s: State, sb: Super, i: nat, size: u32)
    requires Inv(s, sb) && i < |s.inodes| && size <= MAXFILE * BSIZE && (Live(s, i) || size == 0)
    requires forall p: nat :: p < size ==> Slot(s, i, FileSlot(p / BSIZE)) != 0
    ensures Inv(Resized(s, i, size), sb)
  {
    hide Slot, InUse;
    var t := Resized(s, i, size);
    forall j: nat, k: nat ensures Slot(t, j, k) == Slot(s, j, k) { ResizedSlots(s, i, size, j, k); }
    forall c: nat ensures InUse(t, sb, c) == InUse(s, sb, c) { SameBits(s, t, sb, c); }
    forall j: nat | j < |t.inodes| ensures NoHoles(t, j) {
      assert NoHoles(s, j);
      forall bn: nat | bn * BSIZE < t.inodes[j].size ensures Slot(t, j, FileSlot(bn)) != 0 {
        if j == i { assert Slot(s, i, FileSlot(bn * BSIZE / BSIZE)) != 0; }
      }
    }
  }

  /** Once the size is updated the file reads as the old content with the bytes written over it. */
  lemma ProgressDone(s0: State, s: State, sb: Super, i: nat, off: nat, src: seq<byte>, tot: nat)
    requires Progress(s0, s, sb, i, off, src, tot) && off <= s0.inodes[i].size && off + tot <= MAXFILE * BSIZE
    requires s0.inodes[i].size <= MAXFILE * BSIZE && Live(s0, i)
    ensures var t := Resized(s, i, Max(s0.inodes[i].size, off + tot));
      Inv(t, sb) && OnlyFile(s0, t, i, Overlay(Content(s0, i), off, src[..tot]))
  {
    hide Slot, Owned, ByteAt, NoHoles;
    var size := Max(s0.inodes[i].size, off + tot);
    var t := Resized(s, i, size);
    ResizedKeeps(s, sb, i, size);
    forall p: nat, j: nat ensures ByteAt(t, j, p) == ByteAt(s, j, p) { ResizedSlots(s, i, size, j, p); }
    var c := Content(s0, i);
    assert Content(t, i) == Overlay(c, off, src[..tot]);
    forall j: nat | j < |s0.inodes| && j != i ensures Content(t, j) == Content(s0, j) {}
  }

  // ---------- Inodes on disk ----------

  function DiskInode(b: Block, k: nat): (ino: Inode)
    requires k < IPB
  { Inode(Word(b, 16 * k), Word(b, 16 * k + 1), Word(b, 16 * k + 2),
          seq<u32>(NDIRECT + 1, x requires 0 <= x <= NDIRECT => Word(b, 16 * k + 3 + x))) }

  function PutAddrs(b: Block, k: nat, addrs: seq<u32>, n: nat): (r: Block)
    requires k < IPB && n <= |addrs| == NDIRECT + 1
    ensures forall x :: 0 <= x < n ==> Word(r, 16 * k + 3 + x) == addrs[x]
    ensures forall w :: 0 <= w < NWORDS && !(16 * k + 3 <= w < 16 * k + 3 + n) ==> Word(r, w) == Word(b, w)
  { if n == 0 then b else SetWord(PutAddrs(b, k, addrs, n - 1), 16 * k + 3 + n - 1, addrs[n - 1]) }

  function PutInode(b: Block, k: nat, ino: Inode): (r: Block)
    requires k < IPB && |ino.addrs| == NDIRECT + 1
  {
    PutAddrs(SetWord(SetWord(SetWord(b, 16 * k, ino.tag0), 16 * k + 1, ino.tag1), 16 * k + 2, ino.size),
             k, ino.addrs, NDIRECT + 1)
  }

  /** iupdate writes its own inode and no other of the same block. */
  lemma PutInodeReads(b: Block, k: nat, ino: Inode)
    requires k < IPB && |ino.addrs| == NDIRECT + 1
    ensures DiskInode(PutInode(b, k, ino), k) == ino
    ensures forall l :: 0 <= l < IPB && l != k ==> DiskInode(PutInode(b, k, ino), l) == DiskInode(b, l)
  { hide SetWord, Word; }

  ghost predicate OnDisk(s: State, sb: Super, i: nat) {
    && i < |s.inodes| && sb.inodestart + i / IPB < |s.blocks|
    && DiskInode(s.blocks[sb.inodestart + i / IPB], i % IPB) == s.inodes[i]
  }

  /** Every inode but those in `except` equals its copy on disk. */
  ghost predicate Synced(s: State, sb: Super, except: set<nat>) {
    forall i: nat :: i < |s.inodes| && i !in except ==> OnDisk(s, sb, i)
  }

  ghost function Updated(s: State, sb: Super, i: nat): (t: State)
    requires Shape(s, sb) && i < |s.inodes|
  {
    var b := sb.inodestart + i / IPB;
    Filled(s, b, PutInode(s.blocks[b], i % IPB, s.inodes[i]))
  }

  lemma UpdatedKeeps(s: State, sb: Super, i: nat)
    requires Inv(s, sb) && i < |s.inodes|
    ensures Inv(Updated(s, sb, i), sb)
    ensures forall j: nat, p: nat :: j < |s.inodes| && p < s.inodes[j].size ==>
        ByteAt(Updated(s, sb, i), j, p) == ByteAt(s, j, p)
  {
    hide SetWord, PutInode;
    var b := sb.inodestart + i / IPB;
    InodeBlockApart(s, sb, b);
    hide Slot, InUse;
    FilledKeeps(s, sb, b, PutInode(s.blocks[b], i % IPB, s.inodes[i]));
    forall j: nat, p: nat | j < |s.inodes| && p < s.inodes[j].size
      ensures ByteAt(Updated(s, sb, i), j, p) == ByteAt(s, j, p)
    {
      assert NoHoles(s, j);
      MappedByNoHoles(s, j, p);
      FileBlock(s, sb, j, FileSlot(p / BSIZE));
    }
  }

  lemma InodeBlockApart(s: State, sb: Super, b: nat)
    requires Inv(s, sb) && 0 < b < sb.bmapstart
    ensures forall m: nat :: m < |s.inodes| ==> s.inodes[m].addrs[INDIRECT] != b
  {
    forall m: nat | m < |s.inodes| ensures s.inodes[m].addrs[INDIRECT] != b {
      assert Slot(s, m, INDIRECT) == s.inodes[m].addrs[INDIRECT];
    }
  }

  lemma UpdatedSyncs(s: State, sb: Super, i: nat)
    requires Shape(s, sb) && i < |s.inodes| && Synced(s, sb, {i})
    ensures Synced(Updated(s, sb, i), sb, {})
  {
    hide SetWord, PutInode, DiskInode;
    var b, t := sb.inodestart + i / IPB, Updated(s, sb, i);
    PutInodeReads(s.blocks[b], i % IPB, s.inodes[i]);
    forall j: nat | j < |s.inodes| ensures OnDisk(t, sb, j) {
      if j != i {
        assert OnDisk(s, sb, j);
        assert j / IPB == i / IPB ==> j % IPB != i % IPB;
      }
    }
  }

  function BytesFrom(s: State, i: nat, off: nat, m: nat): (r: seq<byte>) {
    seq<byte>(m, x requires 0 <= x => ByteAt(s, i, off + x))
  }

  /** unsigned addition */
  function AddWord(a: u32, b: u32): (r: u32)
    ensures r < a <==> a + b >= 0x1_0000_0000
  { (a + b) % 0x1_0000_0000 }

  /** What readi is asked for: nothing for a bad range, and never more than the file has. */
  function Wanted(s: State, i: nat, off: u32, n: u32): (c: seq<byte>)
    requires i < |s.inodes|
  {
    if off > s.inodes[i].size || off + n >= 0x1_0000_0000 then []
    else Content(s, i)[off..Min(off + n, s.inodes[i].size)]
  }

  /** Position x of the destination starts a chunk: the first byte, or the first of a block. */
  predicate ChunkStart(off: nat, x: nat) { x == 0 || (off + x) % BSIZE == 0 }

  lemma WantedIs(s: State, i: nat, off: u32, n0: u32, n: nat)
    requires i < |s.inodes| && off <= s.inodes[i].size && off + n0 < 0x1_0000_0000
    requires n == if off + n0 > s.inodes[i].size then s.inodes[i].size - off else n0
    ensures Wanted(s, i, off, n0) == BytesFrom(s, i, off, n)
  { hide ByteAt; }

  lemma BytesPrefix(s: State, i: nat, off: nat, t: nat, n: nat)
    requires t <= n
    ensures |BytesFrom(s, i, off, t)| == t && BytesFrom(s, i, off, t) <= BytesFrom(s, i, off, n)
    ensures t < n ==> BytesFrom(s, i, off, t) != BytesFrom(s, i, off, n)
  { hide ByteAt; }

  lemma NextChunk(off: nat, tot: nat, m: nat, n: nat)
    requires m == Min(n - tot, BSIZE - (off + tot) % BSIZE) && tot < n && ChunkStart(off, tot)
    ensures m > 0 && (tot + m < n ==> ChunkStart(off, tot + m))
    ensures forall x: nat :: tot < x < tot + m ==> !ChunkStart(off, x)
  {
    var q := (off + tot) / BSIZE;
    assert off + tot == q * BSIZE + (off + tot) % BSIZE;
    forall x: nat | tot < x < tot + m ensures !ChunkStart(off, x) {
      assert (off + x) % BSIZE == (off + tot) % BSIZE + (x - tot);
    }
    if m == BSIZE - (off + tot) % BSIZE { assert off + tot + m == (q + 1) * BSIZE; }
  }

  /** The copies of the first tot bytes all succeeded. */
  ghost predicate Accepted(off: nat, tot: nat, bad: set<nat>) {
    forall x: nat :: x < tot && ChunkStart(off, x) ==> x !in bad
  }

  lemma AcceptedNone(off: nat, bad: set<nat>)
    ensures Accepted(off, 0, bad) && ChunkStart(off, 0)
  {}

  /** The m bytes of block b that begin at file offset off. */
  function PartOf(b: Block, off: nat, m: nat): (c: seq<byte>)
    requires off % BSIZE + m <= BSIZE
  { b[off % BSIZE..off % BSIZE + m] }

  lemma ReadStep(s: State, i: nat, off: nat, tot: nat, q: nat, n: nat, addr: nat, bad: set<nat>)
    requires tot < n && q == off + tot && ChunkStart(off, tot) && Accepted(off, tot, bad) && tot !in bad
    requires addr == Slot(s, i, FileSlot(q / BSIZE)) < |s.blocks|
    ensures var m := Chunk(n, tot, q);
      && BytesFrom(s, i, off, tot + m) == BytesFrom(s, i, off, tot) + PartOf(s.blocks[addr], q, m)
      && (tot + m < n ==> ChunkStart(off, tot + m)) && Accepted(off, tot + m, bad)
  {
    var m := Chunk(n, tot, q);
    NextChunk(off, tot, m, n);
    hide ChunkStart, Slot, FileSlot, BytesFrom, Chunk;
    ReadChunk(s, i, off, tot, m, addr);
  }

  /** Every byte below the size lies in a block of the disk that the file names. */
  lemma Mapped(s: State, sb: Super, i: nat, p: nat)
    requires Inv(s, sb) && i < |s.inodes| && p < s.inodes[i].size
    ensures 0 < Slot(s, i, FileSlot(p / BSIZE)) < |s.blocks|
  {
    hide Owned, Slot, FreeBare;
    assert NoHoles(s, i);
    MappedByNoHoles(s, i, p);
    FileBlock(s, sb, i, FileSlot(p / BSIZE));
  }

  lemma ReadChunk(s: State, i: nat, off0: nat, tot: nat, m: nat, addr: nat)
    requires var off := off0 + tot;
      off % BSIZE + m <= BSIZE && addr == Slot(s, i, FileSlot(off / BSIZE)) < |s.blocks|
    ensures var off := off0 + tot;
      BytesFrom(s, i, off0, tot + m) == BytesFrom(s, i, off0, tot) + s.blocks[addr][off % BSIZE..off % BSIZE + m]
  {
    hide Slot;
    var off := off0 + tot;
    var whole := BytesFrom(s, i, off0, tot + m);
    var piece := s.blocks[addr][off % BSIZE..off % BSIZE + m];
    forall y | tot <= y < tot + m ensures whole[y] == piece[y - tot] {
      assert (off0 + y) / BSIZE == off / BSIZE && (off0 + y) % BSIZE == off % BSIZE + (y - tot);
      assert whole[y] == ByteAt(s, i, off0 + y) == s.blocks[addr][off % BSIZE + (y - tot)];
    }
  }

  /** A write in progress has touched no inode block. */
  lemma ProgressSynced(s0: State, s: State, sb: Super, i: nat, off: nat, src: seq<byte>, tot: nat, size: u32)
    requires Synced(s0, sb, {}) && Inv(s0, sb) && Progress(s0, s, sb, i, off, src, tot)
    ensures Synced(Resized(s, i, size), sb, {i})
  {
    hide Slot, Owned, NoHoles, DiskInode, ByteAt;
    forall j: nat | j < |s.inodes| && j != i ensures OnDisk(Resized(s, i, size), sb, j) { assert OnDisk(s0, sb, j); }
  }

  lemma UpdatedOnlyFile(s0: State, s: State, sb: Super, i: nat, c: seq<byte>)
    requires Inv(s, sb) && i < |s.inodes| && OnlyFile(s0, s, i, c)
    ensures OnlyFile(s0, Updated(s, sb, i), i, c)
  {
    hide Slot, Owned, NoHoles, PutInode, ByteAt;
    UpdatedKeeps(s, sb, i);
    var t := Updated(s, sb, i);
    forall j: nat | j < |s.inodes| ensures Content(t, j) == Content(s, j) {}
  }

  // ---------- Freeing ----------

  ghost function Freed(s: State, sb: Super, b: nat): (t: State)
    requires Shape(s, sb) && b < sb.size
    ensures |t.blocks| == |s.blocks|
  {
    var bb := sb.bmapstart + b / BPB;
    s.(blocks := s.blocks[bb := SetBit(s.blocks[bb], b % BPB, false)], owner := s.owner - {b},
       logged := s.logged + {bb})
  }

  lemma FreedBits(s: State, sb: Super, b: nat, c: nat)
    requires Shape(s, sb) && b < sb.size && c < sb.size
    ensures InUse(Freed(s, sb, b), sb, c) <==> c != b && InUse(s, sb, c)
  {
    assert sb.bmapstart + c / BPB < sb.datastart;
  }

  /** Bitmap blocks are not read by any slot. */
  lemma FreedSlots(s: State, sb: Super, dead: set<(nat, nat)>, b: nat, m: nat, l: nat)
    requires Shape(s, sb) && Owned(s, sb, {}, dead) && b < sb.size && (m, INDIRECT) !in dead
    ensures Slot(Freed(s, sb, b), m, l) == Slot(s, m, l)
  {
    if m < |s.inodes| { assert Slot(s, m, INDIRECT) == s.inodes[m].addrs[INDIRECT]; }
  }

  /** Freeing a block its slot still names: the "freeing free block" panic cannot happen, and the slot goes dead. */
  lemma FreedKeeps(s: State, sb: Super, dead: set<(nat, nat)>, i: nat, k: nat)
    requires Shape(s, sb) && Owned(s, sb, {}, dead) && Slot(s, i, k) != 0 && (i, k) !in dead
    requires forall m: nat :: (m, INDIRECT) !in dead
    ensures var b := Slot(s, i, k);
      && sb.datastart <= b < sb.size && InUse(s, sb, b)
      && Shape(Freed(s, sb, b), sb) && Owned(Freed(s, sb, b), sb, {}, dead + {(i, k)})
    ensures forall m: nat, l: nat :: Slot(Freed(s, sb, Slot(s, i, k)), m, l) == Slot(s, m, l)
  {
    hide Slot, InUse, SetBit;
    var b := Slot(s, i, k);
    var t := Freed(s, sb, b);
    forall m: nat, l: nat ensures Slot(t, m, l) == Slot(s, m, l) { FreedSlots(s, sb, dead, b, m, l); }
    forall c: nat | c < sb.size ensures InUse(t, sb, c) <==> c != b && InUse(s, sb, c) { FreedBits(s, sb, b, c); }
  }

  /** ip->addrs[k] = 0 */
  ghost function Cleared(s: State, i: nat, k: nat): (t: State)
    requires i < |s.inodes| && k < |s.inodes[i].addrs|
  { s.(inodes := s.inodes[i := s.inodes[i].(addrs := s.inodes[i].addrs[k := 0])]) }

  /** The slots that go with slot k: for the indirect pointer, the entries too. */
  ghost predicate Below12(k: nat, l: nat) { l == k || (k == INDIRECT && l >= INDIRECT) }

  lemma ClearedSlots(s: State, sb: Super, i: nat, k: nat, m: nat, l: nat)
    requires Shape(s, sb) && i < |s.inodes| && k <= INDIRECT
    ensures Slot(Cleared(s, i, k), m, l) == if m == i && Below12(k, l) then 0 else Slot(s, m, l)
  {}

  /** Clearing slots that are all dead leaves none. */
  lemma ClearedKeeps(s: State, sb: Super, dead: set<(nat, nat)>, i: nat, k: nat)
    requires Shape(s, sb) && Owned(s, sb, {}, dead) && i < |s.inodes| && k <= INDIRECT
    requires forall m: nat, l: nat :: (m, l) in dead ==> m == i && Below12(k, l)
    requires forall l: nat :: Below12(k, l) && Slot(s, i, l) != 0 ==> (i, l) in dead
    ensures Shape(Cleared(s, i, k), sb) && Owned(Cleared(s, i, k), sb, {}, {})
  {
    hide Slot, InUse;
    var t := Cleared(s, i, k);
    forall m: nat, l: nat ensures Slot(t, m, l) == if m == i && Below12(k, l) then 0 else Slot(s, m, l) {
      ClearedSlots(s, sb, i, k, m, l);
    }
    forall c: nat ensures InUse(t, sb, c) == InUse(s, sb, c) { SameBits(s, t, sb, c); }
  }

  ghost function DeadEntries(i: nat, j: nat): (d: set<(nat, nat)>) {
    set x: nat | NDIRECT < x < NDIRECT + 1 + j :: (i, x)
  }

  lemma ZeroSlotDies(s: State, sb: Super, i: nat, j: nat)
    requires Shape(s, sb) && Owned(s, sb, {}, DeadEntries(i, j)) && Slot(s, i, NDIRECT + 1 + j) == 0
    ensures Owned(s, sb, {}, DeadEntries(i, j + 1))
  {
    hide Slot, InUse;
    assert DeadEntries(i, j + 1) == DeadEntries(i, j) + {(i, NDIRECT + 1 + j)};
  }

  /** From s0 to s, blocks of inode i have been freed and nothing else has happened. */
  ghost predicate Shrunk(s0: State, s: State, sb: Super, i: nat) {
    && Shape(s0, sb) && Shape(s, sb) && i < |s0.inodes|
    && (forall j: nat :: j < |s.inodes| && j != i ==> s.inodes[j] == s0.inodes[j])
    && s.inodes[i] == s0.inodes[i].(addrs := s.inodes[i].addrs)
    && (forall b: nat :: b < sb.bmapstart || sb.datastart <= b < sb.size ==> s.blocks[b] == s0.blocks[b])
    && (forall b <- s.owner :: b in s0.owner && s.owner[b] == s0.owner[b])
    && (forall b <- s0.owner :: s0.owner[b].0 != i ==> b in s.owner)
  }

  lemma ShrunkFreed(s0: State, s: State, sb: Super, i: nat, k: nat, dead: set<(nat, nat)>)
    requires Shrunk(s0, s, sb, i) && Owned(s, sb, {}, dead) && Slot(s, i, k) != 0 && (i, k) !in dead
    ensures Slot(s, i, k) < sb.size && Shrunk(s0, Freed(s, sb, Slot(s, i, k)), sb, i)
  { hide Slot, InUse, SetBit; }

  lemma ShrunkCleared(s0: State, s: State, sb: Super, i: nat, k: nat)
    requires Shrunk(s0, s, sb, i) && k <= INDIRECT
    ensures Shrunk(s0, Cleared(s, i, k), sb, i)
  { hide Slot; }

  /** if(ip->addrs[k]){ bfree(ip->addrs[k]); ip->addrs[k] = 0; } for a direct slot. */
  lemma FreeDirect(s0: State, s: State, sb: Super, i: nat, k: nat)
    requires Shrunk(s0, s, sb, i) && Owned(s, sb, {}, {}) && k < INDIRECT && Slot(s, i, k) != 0
    ensures var b := Slot(s, i, k);
      && b < sb.size && InUse(s, sb, b) && i < |s.inodes|
      && Shape(Freed(s, sb, b), sb)
      && var t := Cleared(Freed(s, sb, b), i, k); Shrunk(s0, t, sb, i) && Owned(t, sb, {}, {})
  {
    hide Slot, InUse, SetBit, Owned, Shrunk;
    ShrunkShape(s0, s, sb, i);
    FreedKeeps(s, sb, {}, i, k);
    ShrunkFreed(s0, s, sb, i, k, {});
    var f := Freed(s, sb, Slot(s, i, k));
    ShrunkShape(s0, f, sb, i);
    assert {} + {(i, k)} == {(i, k)};
    ClearedKeeps(f, sb, {(i, k)}, i, k);
    ShrunkCleared(s0, f, sb, i, k);
  }

  lemma ShrunkShape(s0: State, s: State, sb: Super, i: nat)
    requires Shrunk(s0, s, sb, i)
    ensures Shape(s, sb) && i < |s.inodes|
  {}

  /** One turn of the indirect loop: entry j is freed if it names a block, and is dead either way. */
  lemma FreeEntry(s0: State, s: State, sb: Super, i: nat, j: nat)
    requires Shrunk(s0, s, sb, i) && Owned(s, sb, {}, DeadEntries(i, j)) && Slot(s, i, NDIRECT + 1 + j) != 0
    ensures var b := Slot(s, i, NDIRECT + 1 + j);
      && sb.datastart <= b < sb.size && InUse(s, sb, b) && Shape(s, sb)
      && var t := Freed(s, sb, b); Shrunk(s0, t, sb, i) && Owned(t, sb, {}, DeadEntries(i, j + 1))
  {
    hide Slot, InUse, SetBit, Owned, Shrunk;
    ShrunkShape(s0, s, sb, i);
    FreedKeeps(s, sb, DeadEntries(i, j), i, NDIRECT + 1 + j);
    ShrunkFreed(s0, s, sb, i, NDIRECT + 1 + j, DeadEntries(i, j));
    assert DeadEntries(i, j + 1) == DeadEntries(i, j) + {(i, NDIRECT + 1 + j)};
  }

  /** Freeing and clearing the indirect pointer once every entry is dead. */
  lemma FreeIndirect(s0: State, s: State, sb: Super, i: nat)
    requires Shrunk(s0, s, sb, i) && Owned(s, sb, {}, DeadEntries(i, NINDIRECT)) && Slot(s, i, INDIRECT) != 0
    ensures var b := Slot(s, i, INDIRECT);
      && b < sb.size && InUse(s, sb, b) && i < |s.inodes|
      && Shape(Freed(s, sb, b), sb)
      && var t := Cleared(Freed(s, sb, b), i, INDIRECT); Shrunk(s0, t, sb, i) && Owned(t, sb, {}, {})
  {
    hide InUse, SetBit, Owned, Shrunk;
    ShrunkShape(s0, s, sb, i);
    var dead := DeadEntries(i, NINDIRECT);
    FreedKeeps(s, sb, dead, i, INDIRECT);
    ShrunkFreed(s0, s, sb, i, INDIRECT, dead);
    var f := Freed(s, sb, Slot(s, i, INDIRECT));
    ShrunkShape(s0, f, sb, i);
    forall l: nat | Below12(INDIRECT, l) && Slot(f, i, l) != 0 ensures (i, l) in dead + {(i, INDIRECT)} {}
    ClearedKeeps(f, sb, dead + {(i, INDIRECT)}, i, INDIRECT);
    ShrunkCleared(s0, f, sb, i, INDIRECT);
  }

  /** The blocks whose owner is not an inode of `gone`. */
  ghost function Kept(owner: map<nat, (nat, nat)>, gone: set<nat>): (r: map<nat, (nat, nat)>) {
    map b | b in owner && owner[b].0 !in gone :: owner[b]
  }

  lemma ZeroAddrs(s: State, sb: Super, i: nat)
    requires Shape(s, sb) && i < |s.inodes| && forall k: nat :: Slot(s, i, k) == 0
    ensures forall k :: 0 <= k < |s.inodes[i].addrs| ==> s.inodes[i].addrs[k] == 0
  {
    forall k | 0 <= k <= NDIRECT ensures s.inodes[i].addrs[k] == 0 { assert Slot(s, i, k) == s.inodes[i].addrs[k]; }
  }

  /** With every slot of inode i clear, exactly its blocks have been given back. */
  lemma TruncatedOwners(s0: State, s: State, sb: Super, i: nat)
    requires Shrunk(s0, s, sb, i) && Owned(s, sb, {}, {}) && forall k: nat :: Slot(s, i, k) == 0
    ensures s.owner == Kept(s0.owner, {i})
  {
    hide Slot, InUse;
    forall b | b in s.owner ensures s.owner[b].0 != i { assert Slot(s, s.owner[b].0, s.owner[b].1) == b; }
  }

  lemma TruncatedKeeps(s0: State, s: State, sb: Super, i: nat)
    requires Inv(s0, sb) && Shrunk(s0, s, sb, i) && Owned(s, sb, {}, {}) && forall k: nat :: Slot(s, i, k) == 0
    ensures var t := Resized(s, i, 0); Inv(t, sb) && Bare(t.inodes[i])
    ensures forall j: nat, k: nat :: Slot(Resized(s, i, 0), j, k) == if j == i then 0 else Slot(s0, j, k)
  {
    ZeroAddrs(s, sb, i);
    hide Slot, InUse, SetBit;
    var t := Resized(s, i, 0);
    forall j: nat, k: nat | j != i ensures Slot(s, j, k) == Slot(s0, j, k) { ShrunkSlot(s0, s, sb, i, j, k); }
    forall j: nat, k: nat ensures Slot(t, j, k) == Slot(s, j, k) { ResizedSlots(s, i, 0, j, k); }
    forall c: nat ensures InUse(t, sb, c) == InUse(s, sb, c) { SameBits(s, t, sb, c); }
    forall j: nat | j < |t.inodes| ensures NoHoles(t, j) { assert NoHoles(s0, j); }
  }

  /** The file is empty and no other file has changed. */
  lemma Truncated(s0: State, s: State, sb: Super, i: nat)
    requires Inv(s0, sb) && Shrunk(s0, s, sb, i) && Owned(s, sb, {}, {}) && forall k: nat :: Slot(s, i, k) == 0
    ensures var t := Resized(s, i, 0);
      Inv(t, sb) && OnlyFile(s0, t, i, []) && Bare(t.inodes[i]) && t.owner == Kept(s0.owner, {i})
  {
    TruncatedOwners(s0, s, sb, i);
    TruncatedKeeps(s0, s, sb, i);
    hide Slot, Owned, ByteAt, FreeBare, Bare, Kept;
    var t := Resized(s, i, 0);
    forall j: nat | j < |s.inodes| && j != i ensures Content(t, j) == Content(s0, j) {
      forall p: nat | p < s0.inodes[j].size ensures ByteAt(t, j, p) == ByteAt(s0, j, p) {
        assert NoHoles(s0, j);
        MappedByNoHoles(s0, j, p);
        FileBlock(s0, sb, j, FileSlot(p / BSIZE));
        SameByte(s0, t, j, p);
      }
    }
    assert Content(t, i) == [];
  }

  /** In terms of the bitmap. */
  lemma KeptBits(s: State, t: State, sb: Super, gone: set<nat>)
    requires Inv(s, sb) && Inv(t, sb) && t.owner == Kept(s.owner, gone)
    ensures forall c: nat :: c < sb.size ==>
        (InUse(t, sb, c) <==> InUse(s, sb, c) && !(c in s.owner && s.owner[c].0 in gone))
  { hide Slot, InUse, NoHoles, FreeBare; }

  lemma BareSlots(s: State, i: nat)
    requires i < |s.inodes| && Bare(s.inodes[i])
    ensures forall k: nat :: Slot(s, i, k) == 0
  {}

  lemma SameByte(s: State, t: State, j: nat, p: nat)
    requires var b := Slot(s, j, FileSlot(p / BSIZE));
      b == Slot(t, j, FileSlot(p / BSIZE)) && b < |s.blocks| && b < |t.blocks| && s.blocks[b] == t.blocks[b]
    ensures ByteAt(t, j, p) == ByteAt(s, j, p)
  { hide Slot; }

  lemma ShrunkSlot(s0: State, s: State, sb: Super, i: nat, j: nat, k: nat)
    requires Inv(s0, sb) && Shrunk(s0, s, sb, i) && j != i
    ensures Slot(s, j, k) == Slot(s0, j, k)
  {
    hide InUse, NoHoles;
    if j < |s0.inodes| {
      assert Slot(s0, j, INDIRECT) == s0.inodes[j].addrs[INDIRECT];
    }
  }

  lemma ShrunkNone(s: State, sb: Super, i: nat)
    requires Inv(s, sb) && i < |s.inodes|
    ensures Shrunk(s, s, sb, i) && Owned(s, sb, {}, {}) && Shape(s, sb)
  { hide Owned, NoHoles; }

  lemma FreedInodes(s: State, sb: Super, b: nat)
    requires Shape(s, sb) && b < sb.size
    ensures var t := Freed(s, sb, b);
      && t.inodes == s.inodes && |t.blocks| == |s.blocks|
      && forall c: nat :: sb.datastart <= c < sb.size ==> t.blocks[c] == s.blocks[c]
  { hide SetBit; }

  lemma ShrunkSynced(s0: State, s: State, sb: Super, i: nat)
    requires Shrunk(s0, s, sb, i) && Synced(s0, sb, {})
    ensures Synced(Resized(s, i, 0), sb, {i})
  {
    hide DiskInode;
    forall j: nat | j < |s.inodes| && j != i ensures OnDisk(Resized(s, i, 0), sb, j) { assert OnDisk(s0, sb, j); }
  }

  lemma UpdatedBits(s: State, sb: Super, i: nat)
    requires Inv(s, sb) && i < |s.inodes|
    ensures Shape(s, sb) && forall c: nat :: c < sb.size ==> InUse(Updated(s, sb, i), sb, c) == InUse(s, sb, c)
    ensures forall j: nat, k: nat :: Slot(Updated(s, sb, i), j, k) == Slot(s, j, k)
  {
    hide Slot, Owned, NoHoles, PutInode;
    var u := Updated(s, sb, i);
    InodeBlockApart(s, sb, sb.inodestart + i / IPB);
    FilledKeeps(s, sb, sb.inodestart + i / IPB, u.blocks[sb.inodestart + i / IPB]);
    forall c: nat | c < sb.size ensures InUse(u, sb, c) == InUse(s, sb, c) { SameBits(s, u, sb, c); }
  }

  // ---------- Who owns a block ----------

  ghost predicate Names(s: State, b: nat, i: nat, k: nat) { Slot(s, i, k) == b && b != 0 }

  /** A data block's bit is set exactly when one slot of one inode names the block, and never two. */
  lemma ExactlyOneOwner(s: State, sb: Super, b: nat)
    requires Inv(s, sb) && sb.datastart <= b < sb.size
    ensures InUse(s, sb, b) <==> exists i: nat, k: nat :: Names(s, b, i, k)
    ensures forall i: nat, k: nat, j: nat, l: nat :: Names(s, b, i, k) && Names(s, b, j, l) ==> i == j && k == l
  {
    hide Slot, InUse, NoHoles;
    if b in s.owner { assert Names(s, b, s.owner[b].0, s.owner[b].1); }
  }

  // ---------- What one system call logs ----------

  ghost predicate BitmapBlock(sb: Super, x: nat) { sb.bmapstart <= x <= sb.bmapstart + sb.size / BPB }

  /** x is the indirect block of inode i or one of its data blocks lo..hi. */
  ghost predicate Touches(s: State, i: nat, lo: nat, hi: nat, x: nat) {
    x != 0 && (x == Slot(s, i, INDIRECT) || exists bn: nat :: lo <= bn <= hi && x == Slot(s, i, FileSlot(bn)))
  }

  ghost predicate LogWithin(s0: State, s: State, sb: Super, i: nat, lo: nat, hi: nat) {
    forall x <- s.logged :: x in s0.logged || BitmapBlock(sb, x) || Touches(s, i, lo, hi, x)
  }

  lemma GrownOwners(s: State, t: State, sb: Super, i: nat)
    requires Grown(s, t, sb, i)
    ensures forall b <- s.owner :: b in t.owner && t.owner[b] == s.owner[b]
  {}

  lemma LogWithinRefl(s: State, sb: Super, i: nat, bn: nat)
    ensures LogWithin(s, s, sb, i, bn, bn)
  {}

  lemma SlotBeyond(s: State, i: nat, bn: nat)
    requires bn >= NDIRECT + NINDIRECT
    ensures Slot(s, i, FileSlot(bn)) == 0
  {}

  lemma NoIndirect(s: State, i: nat, bn: nat)
    requires bn >= NDIRECT
    ensures Slot(s, i, INDIRECT) == 0 ==> Slot(s, i, FileSlot(bn)) == 0
  {}

  lemma LogWithinGrown(s0: State, s: State, t: State, sb: Super, i: nat, lo: nat, hi: nat, bn: nat)
    requires LogWithin(s0, s, sb, i, lo, hi) && LogWithin(s, t, sb, i, bn, bn) && Grown(s, t, sb, i) && lo <= bn <= hi
    ensures LogWithin(s0, t, sb, i, lo, hi)
  {
    hide Slot;
    forall x <- t.logged ensures x in s0.logged || BitmapBlock(sb, x) || Touches(t, i, lo, hi, x) {
      if x in s.logged && Touches(s, i, lo, hi, x) && x != Slot(s, i, INDIRECT) {
        var n: nat :| lo <= n <= hi && x == Slot(s, i, FileSlot(n));
        assert Slot(t, i, FileSlot(n)) == x;
      }
    }
  }

  lemma LogWithinFilled(s0: State, s: State, sb: Super, i: nat, lo: nat, hi: nat, bn: nat, data: Block)
    requires LogWithin(s0, s, sb, i, lo, hi) && lo <= bn <= hi && Inv(s, sb) && Slot(s, i, FileSlot(bn)) != 0
    ensures Slot(s, i, FileSlot(bn)) < |s.blocks|
    ensures LogWithin(s0, Filled(s, Slot(s, i, FileSlot(bn)), data), sb, i, lo, hi)
  {
    hide Slot, Inv;
    var b := Slot(s, i, FileSlot(bn));
    FileBlock(s, sb, i, FileSlot(bn));
    InvShape(s, sb);
    FilledKeeps(s, sb, b, data);
    var t := Filled(s, b, data);
    forall x <- t.logged ensures x in s0.logged || BitmapBlock(sb, x) || Touches(t, i, lo, hi, x) {
      if x in s.logged && Touches(s, i, lo, hi, x) && x != Slot(s, i, INDIRECT) {
        var n: nat :| lo <= n <= hi && x == Slot(s, i, FileSlot(n));
        assert Slot(t, i, FileSlot(n)) == x;
      }
    }
  }

  lemma EnterLogs(s: State, sb: Super, i: nat, j: nat, b: nat)
    requires Shape(s, sb) && sb.datastart <= b < sb.size && i < |s.inodes| && j < NINDIRECT
    requires 0 < s.inodes[i].addrs[INDIRECT] < |s.blocks|
    requires Slot(Entered(Alloced(s, sb, b), i, j, b), i, NDIRECT + 1 + j) == b
    ensures LogWithin(s, Entered(Alloced(s, sb, b), i, j, b), sb, i, NDIRECT + j, NDIRECT + j)
  {
    hide SetBit, SetWord;
    var t := Entered(Alloced(s, sb, b), i, j, b);
    assert FileSlot(NDIRECT + j) == NDIRECT + 1 + j;
    assert Slot(t, i, INDIRECT) == s.inodes[i].addrs[INDIRECT];
    assert Touches(t, i, NDIRECT + j, NDIRECT + j, b);
    assert Touches(t, i, NDIRECT + j, NDIRECT + j, s.inodes[i].addrs[INDIRECT]);
  }

  /** All the blocks one writei may log. */
  ghost predicate CallLogs(s0: State, s: State, sb: Super, i: nat, lo: nat, hi: nat) {
    forall x <- s.logged ::
      x in s0.logged || BitmapBlock(sb, x) || x == sb.inodestart + i / IPB || Touches(s, i, lo, hi, x)
  }

  lemma CallLogsNone(s: State, sb: Super, i: nat, lo: nat, hi: nat)
    ensures CallLogs(s, s, sb, i, lo, hi)
  { hide Touches; }

  lemma UpdatedLogs(s0: State, s1: State, s2: State, sb: Super, i: nat, lo: nat, hi: nat)
    requires LogWithin(s0, s1, sb, i, lo, hi) && Inv(s2, sb) && i < |s2.inodes|
    requires i < |s1.inodes| && s2 == Resized(s1, i, s2.inodes[i].size)
    ensures Shape(s2, sb) && CallLogs(s0, Updated(s2, sb, i), sb, i, lo, hi)
  {
    hide Inv, Slot, PutInode;
    InvShape(s2, sb);
    UpdatedBits(s2, sb, i);
    var t := Updated(s2, sb, i);
    forall k: nat ensures Slot(t, i, k) == Slot(s1, i, k) { ResizedSlots(s1, i, s2.inodes[i].size, i, k); }
    forall x <- t.logged
      ensures x in s0.logged || BitmapBlock(sb, x) || x == sb.inodestart + i / IPB || Touches(t, i, lo, hi, x)
    {
      if x in s1.logged && Touches(s1, i, lo, hi, x) && x != Slot(s1, i, INDIRECT) {
        var n: nat :| lo <= n <= hi && x == Slot(s1, i, FileSlot(n));
        assert Slot(t, i, FileSlot(n)) == x;
      }
    }
  }

  ghost function DataBlocks(s: State, i: nat, lo: nat, n: nat): (bs: set<nat>)
    ensures |bs| <= n
    ensures forall bn: nat :: lo <= bn < lo + n ==> Slot(s, i, FileSlot(bn)) in bs
  { if n == 0 then {} else DataBlocks(s, i, lo, n - 1) + {Slot(s, i, FileSlot(lo + n - 1))} }

  ghost function Bitmaps(sb: Super, n: nat): (bs: set<nat>)
    ensures |bs| <= n
    ensures forall x: nat :: sb.bmapstart <= x < sb.bmapstart + n ==> x in bs
  { if n == 0 then {} else Bitmaps(sb, n - 1) + {sb.bmapstart + n - 1} }

  /** A writei logs at most the inode block, the indirect block, one block per file block it spans and the bitmap
      blocks. */
  lemma CallLogsFew(s0: State, s: State, sb: Super, i: nat, lo: nat, hi: nat)
    requires CallLogs(s0, s, sb, i, lo, hi) && lo <= hi && s0.logged == {}
    ensures |s.logged| <= 2 + (hi - lo + 1) + (sb.size / BPB + 1)
  {
    hide Slot;
    var data, maps := DataBlocks(s, i, lo, hi - lo + 1), Bitmaps(sb, sb.size / BPB + 1);
    var meta := {sb.inodestart + i / IPB, Slot(s, i, INDIRECT)};
    assert s.logged <= data + maps + meta;
    SubsetSize(s.logged, data + maps + meta);
    assert |meta| <= 2;
  }

  lemma SubsetSize(a: set<nat>, b: set<nat>)
    requires a <= b
    ensures |a| <= |b|
  { assert b == a + (b - a); }

  /** Two writes in a row, the second where the first ended, are one write of both. */
  lemma OverlayJoin(c: seq<byte>, off: nat, a: seq<byte>, b: seq<byte>)
    requires off <= |c|
    ensures Overlay(Overlay(c, off, a), off + |a|, b) == Overlay(c, off, a + b)
  {}

  lemma OnlyFileJoin(s0: State, s1: State, s2: State, i: nat, c: seq<byte>, d: seq<byte>)
    requires OnlyFile(s0, s1, i, c) && OnlyFile(s1, s2, i, d)
    ensures OnlyFile(s0, s2, i, d)
  { hide ByteAt; }

  lemma OverlayNone(c: seq<byte>, off: nat)
    ensures off <= |c| ==> Overlay(c, off, []) == c
  {}

  /** filewrite has written the first `done` bytes of src at off0, or can write nothing past the file's end. */
  ghost predicate WroteTo(s0: State, s: State, i: nat, off0: nat, src: seq<byte>, done: nat) {
    && i < |s0.inodes| && done <= |src|
    && var c := Content(s0, i);
    if off0 <= |c| then OnlyFile(s0, s, i, Overlay(c, off0, src[..done])) else done == 0 && OnlyFile(s0, s, i, c)
  }

  lemma WroteNone(s: State, i: nat, off0: nat, src: seq<byte>)
    requires i < |s.inodes|
    ensures WroteTo(s, s, i, off0, src, 0)
  {
    hide OnlyFile, Content;
    OnlyFileSame(s, i);
    OverlayNone(Content(s, i), off0);
  }

  lemma WroteSize(s0: State, s: State, i: nat, off0: nat, src: seq<byte>, done: nat)
    requires WroteTo(s0, s, i, off0, src, done)
    ensures i < |s0.inodes| == |s.inodes| && (off0 + done <= s.inodes[i].size <==> off0 <= s0.inodes[i].size)
    ensures (off0 > s0.inodes[i].size ==> done == 0) && (Live(s0, i) <==> Live(s, i))
  {
    hide OnlyFile, ByteAt;
    var c := Content(s0, i);
    OnlyFileSize(s0, s, i, if off0 <= |c| then Overlay(c, off0, src[..done]) else c);
  }

  lemma WroteMore(s0: State, s: State, t: State, i: nat, off0: nat, src: seq<byte>, done: nat, n1: nat, r: int)
    requires WroteTo(s0, s, i, off0, src, done) && done + n1 <= |src| && -1 <= r <= n1 && i < |s.inodes|
    requires off0 + done > s.inodes[i].size ==> r == -1
    requires OnlyFile(s, t, i, if r == -1 then Content(s, i)
                               else Overlay(Content(s, i), off0 + done, src[done..done + n1][..r]))
    ensures WroteTo(s0, t, i, off0, src, if r > 0 then done + r else done)
    ensures Live(s, i) <==> Live(t, i)
  {
    hide OnlyFile, Content, Overlay;
    var c0 := Content(s0, i);
    var c := if off0 <= |c0| then Overlay(c0, off0, src[..done]) else c0;
    OnlyFileSize(s0, s, i, c);
    if off0 <= |c0| {
      OverlayMore(c0, off0, src, done, n1, if r == -1 then 0 else r);
      var d := if r == -1 then c else Overlay(c, off0 + done, src[done..done + n1][..r]);
      OnlyFileSize(s, t, i, d);
      OnlyFileJoin(s0, s, t, i, c, d);
    } else {
      OnlyFileSize(s, t, i, c);
      OnlyFileJoin(s0, s, t, i, c, c);
    }
  }

  /** The next piece of src, written where the last one ended. */
  lemma OverlayMore(c: seq<byte>, off: nat, src: seq<byte>, done: nat, n1: nat, r: nat)
    requires off <= |c| && done + n1 <= |src| && r <= n1
    ensures off + done <= |Overlay(c, off, src[..done])|
    ensures Overlay(Overlay(c, off, src[..done]), off + done, src[done..done + n1][..r])
      == Overlay(c, off, src[..done + r])
  {
    OverlayJoin(c, off, src[..done], src[done..done + n1][..r]);
    hide Overlay;
    assert src[..done] + src[done..done + n1][..r] == src[..done + r];
  }

  lemma WroteAll(s0: State, s: State, i: nat, off0: nat, src: seq<byte>, done: nat)
    requires WroteTo(s0, s, i, off0, src, done)
    ensures off0 <= s0.inodes[i].size ==> OnlyFile(s0, s, i, Overlay(Content(s0, i), off0, src[..done]))
    ensures off0 > s0.inodes[i].size ==> done == 0 && OnlyFile(s0, s, i, Content(s0, i))
  { hide OnlyFile; }

  lemma LoggedUnread(s: State, sb: Super, j: nat, k: nat)
    ensures var t := s.(logged := {});
      Slot(t, j, k) == Slot(s, j, k) && ByteAt(t, j, k) == ByteAt(s, j, k) && InUse(t, sb, k) == InUse(s, sb, k)
  {}

  /** begin_op starts an empty transaction; nothing but the log's bookkeeping changes. */
  lemma NewTransaction(s: State, sb: Super, i: nat)
    requires Inv(s, sb) && Synced(s, sb, {}) && i < |s.inodes|
    ensures var t := s.(logged := {});
      Inv(t, sb) && Synced(t, sb, {}) && OnlyFile(s, t, i, Content(s, i)) && Content(t, i) == Content(s, i)
  {
    hide DiskInode, Slot, InUse, ByteAt;
    var t := s.(logged := {});
    forall j: nat, k: nat ensures Slot(t, j, k) == Slot(s, j, k) { LoggedUnread(s, sb, j, k); }
    forall j: nat, k: nat ensures ByteAt(t, j, k) == ByteAt(s, j, k) { LoggedUnread(s, sb, j, k); }
    forall b: nat ensures InUse(t, sb, b) == InUse(s, sb, b) { LoggedUnread(s, sb, 0, b); }
    forall j: nat | j < |s.inodes| ensures NoHoles(t, j) { assert NoHoles(s, j); }
    forall j: nat | j < |s.inodes| ensures OnDisk(t, sb, j) { assert OnDisk(s, sb, j); }
    forall j: nat | j < |s.inodes| ensures Content(t, j) == Content(s, j) {}
  }

  lemma BitIndex(s: State, sb: Super, nb: nat, bi: nat)
    requires Shape(s, sb) && BPB * nb + bi < sb.size && bi < BPB
    ensures (BPB * nb + bi) / BPB == nb && sb.bmapstart + nb < |s.blocks|
    ensures InUse(s, sb, BPB * nb + bi) == Bit(s.blocks[sb.bmapstart + nb], bi)
  { hide Bit; }

  lemma OnlyFileSize(s: State, t: State, i: nat, c: seq<byte>)
    requires OnlyFile(s, t, i, c)
    ensures i < |s.inodes| == |t.inodes| && Content(t, i) == c && t.inodes[i].size == |c|
    ensures Live(s, i) <==> Live(t, i)
  { hide ByteAt; }

  lemma OnlyFileSame(s: State, i: nat)
    requires i < |s.inodes|
    ensures OnlyFile(s, s, i, Content(s, i))
  {}

  lemma InvShape(s: State, sb: Super)
    requires Inv(s, sb)
    ensures Shape(s, sb)
  { hide Owned, NoHoles; }

  lemma ProgressInv(s0: State, s: State, sb: Super, i: nat, off: nat, src: seq<byte>, tot: nat)
    requires Progress(s0, s, sb, i, off, src, tot)
    ensures Inv(s, sb) && i < |s.inodes| == |s0.inodes| && tot <= |src| && s.inodes[i].size == s0.inodes[i].size
    ensures Live(s0, i) <==> Live(s, i)
  { hide Inv, Slot, ByteAt; }

  lemma GrownShape(s: State, t: State, sb: Super, i: nat)
    requires Grown(s, t, sb, i)
    ensures |t.inodes| == |s.inodes| && |t.blocks| == |s.blocks|
  { hide Slot; }

  lemma SizeBound(s: State, sb: Super, i: nat)
    requires Inv(s, sb) && i < |s.inodes|
    ensures s.inodes[i].size <= MAXFILE * BSIZE
  { assert NoHoles(s, i); }

  /** Updating an inode frees no block. */
  lemma UpdatedFull(s: State, t: State, sb: Super, i: nat)
    requires Inv(t, sb) && i < |t.inodes| && s.blocks == t.blocks
    ensures Shape(t, sb) && (DiskFull(s, sb) ==> DiskFull(Updated(t, sb, i), sb))
  {
    hide Slot, Owned, NoHoles, PutInode;
    var u := Updated(t, sb, i);
    forall c: nat | c < sb.size ensures InUse(u, sb, c) == InUse(s, sb, c) { SameBits(s, u, sb, c); }
  }

  const NOINODE: Inode := Inode(0, 0, 0, [0, 0, 0, 0, 0, 0, 0, 0, 0, 0, 0, 0, 0])

  ghost function Marked(s: State, sb: Super, b: nat): (t: State)
    requires Shape(s, sb) && b < sb.size
  {
    var bb := sb.bmapstart + b / BPB;
    s.(blocks := s.blocks[bb := SetBit(s.blocks[bb], b % BPB, true)])
  }

  lemma MarkedBit(s: State, sb: Super, b: nat, c: nat)
    requires Shape(s, sb) && b < sb.size && c < sb.size
    ensures InUse(Marked(s, sb, b), sb, c) <==> c == b || InUse(s, sb, c)
  {
    assert sb.bmapstart + c / BPB < sb.datastart;
  }

  lemma ZeroBits(s: State, sb: Super)
    requires Shape(s, sb) && forall b :: 0 <= b < |s.blocks| ==> s.blocks[b] == Zeroed()
    ensures forall c: nat :: c < sb.size ==> !InUse(s, sb, c)
  {
    forall c: nat | c < sb.size ensures !InUse(s, sb, c) {
      ZeroTest(c % BPB % 8);
    }
  }

  lemma {:induction false} ZeroTest(k: nat)
    ensures !Test(0, k)
  {
    if k > 0 { ZeroTest(k - 1); }
  }

  /** An image with no blocks in files is well formed. */
  lemma EmptyInv(s: State, sb: Super)
    requires Shape(s, sb) && s.owner == map[] && forall i :: 0 <= i < |s.inodes| ==> s.inodes[i] == NOINODE
    requires forall c: nat :: c < sb.size ==> (InUse(s, sb, c) <==> c < sb.datastart)
    ensures Inv(s, sb)
  {
    hide InUse;
    forall i: nat, k: nat ensures Slot(s, i, k) == 0 {}
  }

  /** Zeroed inode blocks hold free inodes. */
  lemma EmptySynced(s: State, sb: Super)
    requires Shape(s, sb) && forall i :: 0 <= i < |s.inodes| ==> s.inodes[i] == NOINODE
    requires forall c: nat :: c < sb.bmapstart ==> s.blocks[c] == Zeroed()
    ensures Synced(s, sb, {})
  {
    hide Word;
    forall i: nat | i < |s.inodes| ensures OnDisk(s, sb, i) {
      assert DiskInode(Zeroed(), i % IPB) == NOINODE;
    }
  }

  // ---------- Allocating and freeing inodes ----------

  /** ip->type = 0 */
  ghost function Untyped(s: State, i: nat): (t: State)
    requires i < |s.inodes|
  { s.(inodes := s.inodes[i := s.inodes[i].(tag0 := s.inodes[i].tag0 - Type(s.inodes[i]))]) }

  /** Replacing an inode that names no block by another that names none. */
  lemma BareKeeps(s: State, t: State, sb: Super, i: nat, ino: Inode)
    requires Inv(s, sb) && i < |s.inodes| && Bare(s.inodes[i]) && Bare(ino) && |ino.addrs| == NDIRECT + 1
    requires t == s.(inodes := s.inodes[i := ino])
    ensures Inv(t, sb) && OthersKept(s, t, {i})
    ensures forall j: nat, k: nat :: Slot(t, j, k) == Slot(s, j, k)
  {
    forall j: nat, k: nat ensures Slot(t, j, k) == Slot(s, j, k) {
      if j == i { BareSlots(s, i); BareSlots(t, i); }
    }
    forall j: nat, p: nat ensures ByteAt(t, j, p) == ByteAt(s, j, p) {
      assert Slot(t, j, FileSlot(p / BSIZE)) == Slot(s, j, FileSlot(p / BSIZE));
    }
    hide Slot, InUse, ByteAt;
    forall c: nat ensures InUse(t, sb, c) == InUse(s, sb, c) { SameBits(s, t, sb, c); }
    forall j: nat | j < |t.inodes| ensures NoHoles(t, j) { assert NoHoles(s, j); }
    forall j: nat | j < |s.inodes| && j != i ensures Content(t, j) == Content(s, j) {}
  }

  lemma UpdatedOthers(s: State, sb: Super, i: nat)
    requires Inv(s, sb) && i < |s.inodes|
    ensures Shape(s, sb) && OthersKept(s, Updated(s, sb, i), {})
  {
    hide Slot, Owned, NoHoles, PutInode, ByteAt;
    UpdatedKeeps(s, sb, i);
    forall j: nat | j < |s.inodes| ensures Content(Updated(s, sb, i), j) == Content(s, j) {}
  }

  lemma OthersKeptJoin(s: State, t: State, u: State, a: set<nat>, b: set<nat>)
    requires OthersKept(s, t, a) && OthersKept(t, u, b)
    ensures OthersKept(s, u, a + b)
  { hide ByteAt; }

  /** Changing inode i from bare to bare and copying it to its inode block. */
  lemma BareUpdated(s: State, t: State, sb: Super, i: nat, ino: Inode)
    requires Inv(s, sb) && Synced(s, sb, {}) && i < |s.inodes| && Bare(s.inodes[i])
    requires Bare(ino) && |ino.addrs| == NDIRECT + 1 && t == s.(inodes := s.inodes[i := ino])
    ensures Inv(t, sb) && Shape(t, sb)
    ensures var u := Updated(t, sb, i);
      Inv(u, sb) && Synced(u, sb, {}) && OthersKept(s, u, {i}) && u.owner == s.owner && u.inodes[i] == ino
  {
    hide Slot, Owned, NoHoles, PutInode, ByteAt, OthersKept, DiskInode, FreeBare;
    BareKeeps(s, t, sb, i, ino);
    InvShape(t, sb);
    assert Synced(t, sb, {i}) by {
      forall j: nat | j < |t.inodes| && j != i ensures OnDisk(t, sb, j) { assert OnDisk(s, sb, j); }
    }
    UpdatedKeeps(t, sb, i);
    UpdatedSyncs(t, sb, i);
    UpdatedOthers(t, sb, i);
    OthersKeptJoin(s, t, Updated(t, sb, i), {i}, {});
    assert {i} + {} == {i};
  }

  /** iput freed inode i: it is bare, its type is 0, exactly its blocks were given back and no other file
      changed. */
  ghost predicate Released(s: State, t: State, sb: Super, i: nat) {
    && Inv(t, sb) && Synced(t, sb, {}) && i < |s.inodes| == |t.inodes|
    && Bare(t.inodes[i]) && Type(t.inodes[i]) == 0 && t.inodes[i].tag1 == s.inodes[i].tag1
    && OthersKept(s, t, {i}) && t.owner == Kept(s.owner, {i})
  }

  lemma ReleasedBits(s: State, t: State, sb: Super, i: nat)
    requires Inv(s, sb) && Released(s, t, sb, i)
    ensures forall c: nat :: c < sb.size ==>
        (InUse(t, sb, c) <==> InUse(s, sb, c) && !(c in s.owner && s.owner[c].0 == i))
  {
    hide Inv, Synced, OthersKept, Kept, InUse;
    KeptBits(s, t, sb, {i});
  }

  lemma OnlyFileOthers(s: State, t: State, i: nat, c: seq<byte>)
    requires OnlyFile(s, t, i, c)
    ensures OthersKept(s, t, {i}) && t.inodes[i].tag1 == s.inodes[i].tag1 && Type(t.inodes[i]) == Type(s.inodes[i])
  {}

  /** type = 0; iupdate, after itrunc. */
  lemma UntypedReleases(s0: State, s1: State, sb: Super, i: nat)
    requires Inv(s1, sb) && Synced(s1, sb, {}) && OnlyFile(s0, s1, i, [])
    requires i < |s1.inodes| && Bare(s1.inodes[i]) && s1.owner == Kept(s0.owner, {i})
    ensures Inv(Untyped(s1, i), sb) && Shape(Untyped(s1, i), sb)
    ensures Released(s0, Updated(Untyped(s1, i), sb, i), sb, i)
  {
    hide Inv, Synced, OnlyFile, Content, Kept, Updated;
    var s2 := Untyped(s1, i);
    OnlyFileOthers(s0, s1, i, []);
    InvShape(s1, sb);
    BareUpdated(s1, s2, sb, i, s2.inodes[i]);
    OthersKeptJoin(s0, s1, Updated(s2, sb, i), {i}, {i});
    assert {i} + {i} == {i};
  }

  /** The orphans: allocated, with no links. */
  predicate Orphan(ino: Inode) { Type(ino) != 0 && Nlink(ino) == 0 }

  ghost function Orphans(inodes: seq<Inode>, n: nat): (r: set<nat>) {
    set i: nat | 1 <= i < n && i < |inodes| && Orphan(inodes[i])
  }

  /** ireclaim has looked at the inodes below n. */
  ghost predicate Reclaimed(s: State, t: State, sb: Super, n: nat) {
    var gone := Orphans(s.inodes, n);
    && Inv(t, sb) && Synced(t, sb, {}) && |t.inodes| == |s.inodes|
    && OthersKept(s, t, gone) && t.owner == Kept(s.owner, gone)
    && forall i <- gone :: Bare(t.inodes[i]) && Type(t.inodes[i]) == 0
  }

  lemma KeptTwice(owner: map<nat, (nat, nat)>, a: set<nat>, b: set<nat>)
    ensures Kept(Kept(owner, a), b) == Kept(owner, a + b)
  {}

  lemma ReclaimStep(s: State, t: State, u: State, sb: Super, n: nat)
    requires Reclaimed(s, t, sb, n) && 1 <= n < |s.inodes|
    requires if Orphan(t.inodes[n]) then Released(t, u, sb, n) else u == t
    ensures Reclaimed(s, u, sb, n + 1)
  {
    hide Inv, Synced, Kept, OthersKept, Bare, Content;
    var gone := Orphans(s.inodes, n);
    assert t.inodes[n] == s.inodes[n] by { KeptAt(s, t, gone, n); }
    if Orphan(t.inodes[n]) {
      assert Orphans(s.inodes, n + 1) == gone + {n};
      OthersKeptJoin(s, t, u, gone, {n});
      KeptTwice(s.owner, gone, {n});
      forall i <- gone ensures u.inodes[i] == t.inodes[i] { KeptAt(t, u, {n}, i); }
    } else {
      assert Orphans(s.inodes, n + 1) == gone;
    }
  }

  lemma KeptAt(s: State, t: State, some: set<nat>, j: nat)
    requires OthersKept(s, t, some) && j < |s.inodes| && j !in some
    ensures j < |t.inodes| && t.inodes[j] == s.inodes[j]
  {}

  lemma FreeIsBare(s: State, sb: Super, i: nat)
    requires Inv(s, sb) && i < |s.inodes| && Type(s.inodes[i]) == 0
    ensures Bare(s.inodes[i])
  {}

  /** Once every inode has been looked at no orphan is left. */
  lemma NoOrphans(s: State, t: State, sb: Super, n: nat)
    requires Reclaimed(s, t, sb, n) && |s.inodes| <= n
    ensures Reclaimed(s, t, sb, |s.inodes|) && forall i :: 1 <= i < |t.inodes| ==> !Orphan(t.inodes[i])
  {
    hide Inv, Synced, Content, Kept;
    assert Orphans(s.inodes, n) == Orphans(s.inodes, |s.inodes|);
  }

  lemma ReclaimNone(s: State, sb: Super)
    requires Inv(s, sb) && Synced(s, sb, {})
    ensures Reclaimed(s, s, sb, 1)
  {
    hide Inv, Synced, Content;
    assert Orphans(s.inodes, 1) == {} && Kept(s.owner, {}) == s.owner;
  }

  class Fs {
    const sb: Super
    var blocks: seq<Block>
    var inodes: seq<Inode>
    ghost var owner: map<nat, (nat, nat)>
    ghost var logged: set<nat>

    ghost function Now(): (s: State)
      reads this
    { State(blocks, inodes, owner, logged) }

    ghost predicate Valid()
      reads this
    { Inv(Now(), sb) }

    /** A fresh image, as mkfs lays it out: every inode empty, exactly the blocks below the data area marked used. */
    constructor (layout: Super)
      requires GoodSuper(layout)
      ensures Valid() && sb == layout && owner == map[] && forall i :: 0 <= i < |inodes| ==> inodes[i] == NOINODE
      ensures Synced(Now(), sb, {})
    {
      hide InUse, Slot, Bit, SetBit, NoHoles, Owned, Word;
      sb := layout;
      blocks := seq(layout.size, _ => Zeroed());
      inodes := seq(layout.ninodes, _ => NOINODE);
      owner, logged := map[], {};
      new;
      ZeroBits(Now(), sb);
      var b := 0;
      while b < sb.datastart
        invariant 0 <= b <= sb.datastart && Shape(Now(), sb) && owner == map[]
        invariant forall i :: 0 <= i < |inodes| ==> inodes[i] == NOINODE
        invariant forall c: nat :: c < sb.size ==> (InUse(Now(), sb, c) <==> c < b)
        invariant forall c: nat :: c < sb.bmapstart ==> blocks[c] == Zeroed()
      {
        ghost var s := Now();
        var bb := sb.bmapstart + b / BPB;
        blocks := blocks[bb := SetBit(blocks[bb], b % BPB, true)];
        forall c: nat | c < sb.size
          ensures InUse(Now(), sb, c) <==> c == b || InUse(s, sb, c)
        {
          MarkedBit(s, sb, b, c);
        }
        b := b + 1;
      }
      EmptyInv(Now(), sb);
      EmptySynced(Now(), sb);
    }

    /** balloc's scan: the lowest clear bit, or sb.size. */
    method FindFree() returns (r: nat)
      requires Valid()
      ensures r <= sb.size && forall c: nat :: c < r ==> InUse(Now(), sb, c)
      ensures r < sb.size ==> !InUse(Now(), sb, r)
    {
      hide Slot, Bit, NoHoles, Owned, InUse;
      var b := 0;
      ghost var nb := 0;
      while b < sb.size
        invariant 0 <= nb && b == BPB * nb
        invariant forall c: nat :: c < b && c < sb.size ==> InUse(Now(), sb, c)
        decreases sb.size - b
      {
        BitIndex(Now(), sb, nb, 0);
        var bb, bi := sb.bmapstart + b / BPB, 0;
        while bi < BPB && b + bi < sb.size
          invariant 0 <= bi <= BPB
          invariant forall c: nat :: c < b + bi && c < sb.size ==> InUse(Now(), sb, c)
        {
          BitIndex(Now(), sb, nb, bi);
          if !Bit(blocks[bb], bi) { return b + bi; }
          bi := bi + 1;
        }
        b := b + BPB;
        nb := nb + 1;
      }
      return sb.size;
    }

    /** balloc: the lowest free block, marked in use and zeroed; 0 when there is none. */
    method Balloc() returns (r: nat)
      requires Valid()
      modifies this`blocks, this`logged
      ensures r == 0 ==> Now() == old(Now()) && DiskFull(Now(), sb)
      ensures r != 0 ==> sb.datastart <= r < sb.size && !InUse(old(Now()), sb, r) && Now() == Alloced(old(Now()), sb, r)
      ensures r != 0 ==> forall c: nat :: c < r ==> InUse(old(Now()), sb, c)
    {
      hide Slot, SetBit, Bit, NoHoles, InUse;
      r := FindFree();
      if r == sb.size { return 0; }
      assert r >= sb.datastart;
      var bb := sb.bmapstart + r / BPB;
      blocks := blocks[bb := SetBit(blocks[bb], r % BPB, true)];
      logged := logged + {bb};
      // bzero
      blocks := blocks[r := Zeroed()];
      logged := logged + {r};
    }

    /** ip->addrs[k] = balloc() */
    method AllocSlot(i: nat, k: nat) returns (b: nat)
      requires Valid() && Live(Now(), i) && k <= INDIRECT && Slot(Now(), i, k) == 0
      modifies this
      ensures Valid() && Grown(old(Now()), Now(), sb, i) && Slot(Now(), i, k) == b
      ensures b == 0 ==> Now() == old(Now()) && DiskFull(Now(), sb)
      ensures forall x <- logged :: x in old(logged) || BitmapBlock(sb, x) || x == b
      ensures forall c <- owner :: c in old(owner) || owner[c] == (i, k)
    {
      hide Inv, InUse, SetBit, DiskFull, Grown;
      b := Balloc();
      if b != 0 {
        AllocAndName(old(Now()), sb, i, k, b);
        inodes := inodes[i := inodes[i].(addrs := inodes[i].addrs[k := b])];
        owner := owner[b := (i, k)];
      } else {
        GrownRefl(Now(), sb, i);
      }
    }

    /** The second half of bmap: entry j of an indirect block that exists. */
    method BmapIndirect(i: nat, j: nat) returns (addr: nat)
      requires Valid() && Live(Now(), i) && j < NINDIRECT && Slot(Now(), i, INDIRECT) != 0
      modifies this
      ensures Valid() && Grown(old(Now()), Now(), sb, i) && addr == Slot(Now(), i, NDIRECT + 1 + j)
      ensures addr == 0 ==> DiskFull(Now(), sb)
      ensures Slot(old(Now()), i, NDIRECT + 1 + j) != 0 ==> Now() == old(Now())
      ensures LogWithin(old(Now()), Now(), sb, i, NDIRECT + j, NDIRECT + j)
      ensures forall c <- owner :: c in old(owner) || owner[c] == (i, NDIRECT + 1 + j)
    {
      hide Inv, InUse, SetBit, SetWord, DiskFull, Grown, Touches;
      IndirectAt(Now(), sb, i, j);
      var a := inodes[i].addrs[INDIRECT];
      addr := Word(blocks[a], j);
      GrownRefl(Now(), sb, i);
      if addr == 0 {
        addr := Balloc();
        if addr != 0 {
          AllocAndEnter(old(Now()), sb, i, j, addr);
          InvShape(old(Now()), sb);
          EnterLogs(old(Now()), sb, i, j, addr);
          blocks := blocks[a := SetWord(blocks[a], j, addr)];
          logged := logged + {a};
          owner := owner[addr := (i, NDIRECT + 1 + j)];
        }
      }
    }

    /** The block that the inode itself names in slot k, allocated if missing. */
    method BmapSlot(i: nat, k: nat, ghost bn: nat) returns (addr: nat)
      requires Valid() && Live(Now(), i) && k <= INDIRECT && (k == INDIRECT || k == FileSlot(bn))
      modifies this
      ensures Valid() && Grown(old(Now()), Now(), sb, i) && addr == Slot(Now(), i, k) && Live(Now(), i)
      ensures addr == 0 ==> DiskFull(Now(), sb)
      ensures Slot(old(Now()), i, k) != 0 ==> Now() == old(Now())
      ensures LogWithin(old(Now()), Now(), sb, i, bn, bn)
      ensures forall c <- owner :: c in old(owner) || owner[c] == (i, k)
    {
      InvShape(Now(), sb);
      hide Inv, DiskFull, BitmapBlock;
      addr := inodes[i].addrs[k];
      GrownRefl(Now(), sb, i);
      if addr == 0 { addr := AllocSlot(i, k); }
      assert addr != 0 ==> Touches(Now(), i, bn, bn, addr);
    }

    /** The disk block of the file's bn-th block, allocating it (and the indirect block) if missing; 0 when the disk
        is full.  False is the "out of range" panic. */
    method Bmap(i: nat, bn: nat) returns (ok: bool, addr: nat)
      requires Valid() && Live(Now(), i)
      modifies this
      ensures ok <==> bn < MAXFILE
      ensures Valid() && Grown(old(Now()), Now(), sb, i)
      ensures addr == Slot(Now(), i, FileSlot(bn)) && (ok && addr == 0 ==> DiskFull(Now(), sb))
      ensures !ok || Slot(old(Now()), i, FileSlot(bn)) != 0 ==> Now() == old(Now())
      ensures LogWithin(old(Now()), Now(), sb, i, bn, bn)
      ensures forall c <- owner :: c in old(owner) || owner[c] == (i, FileSlot(bn)) || owner[c] == (i, INDIRECT)
    {
      hide Inv, Slot, Grown, DiskFull, LogWithin;
      ok := true;
      if bn < NDIRECT {
        addr := BmapSlot(i, bn, bn);
        return;
      }
      if bn - NDIRECT >= NINDIRECT {
        SlotBeyond(Now(), i, bn);
        GrownRefl(Now(), sb, i);
        LogWithinRefl(Now(), sb, i, bn);
        return false, 0;
      }
      NoIndirect(Now(), i, bn);
      addr := BmapSlot(i, INDIRECT, bn);
      if addr == 0 {
        NoIndirect(Now(), i, bn);
        return;
      }
      ghost var s := Now();
      addr := BmapIndirect(i, bn - NDIRECT);
      GrownOwners(s, Now(), sb, i);
      LogWithinGrown(old(Now()), s, Now(), sb, i, bn, bn, bn);
      GrownTrans(old(Now()), s, Now(), sb, i);
    }

    /** bmap as readi calls it: below the size there is a block, so nothing is allocated. */
    method BmapThere(i: nat, off: nat) returns (addr: nat)
      requires Valid() && Live(Now(), i) && off < inodes[i].size
      modifies this
      ensures Now() == old(Now()) && addr == Slot(Now(), i, FileSlot(off / BSIZE)) < |blocks|
    {
      hide Inv, Slot, Grown, LogWithin, FileSlot;
      Mapped(Now(), sb, i, off);
      var ok, b := Bmap(i, off / BSIZE);
      addr := b;
    }

    /** readi.  `bad` holds the destination positions at which either_copyout fails, `dst` is what has
        been copied there.  With no holes bmap never allocates. */
    method Readi(i: nat, off0: u32, n0: u32, bad: set<nat>) returns (r: int, dst: seq<byte>)
      requires Valid() && Live(Now(), i)
      modifies this
      ensures Now() == old(Now()) && dst <= Wanted(Now(), i, off0, n0)
      ensures r == -1 ==> dst != Wanted(Now(), i, off0, n0) && ChunkStart(off0, |dst|) && |dst| in bad
      ensures r != -1 ==> r == |dst| && dst == Wanted(Now(), i, off0, n0)
      ensures r != -1 ==> Accepted(off0, |dst|, bad)
    {
      AcceptedNone(off0, bad);
      hide Inv, Slot, Grown, BytesFrom, LogWithin, FileSlot, ChunkStart, Accepted, Content, AddWord, Chunk, PartOf;
      ghost var s := Now();
      dst := [];
      if off0 > inodes[i].size || AddWord(off0, n0) < off0 { return 0, []; }
      var n := if off0 + n0 > inodes[i].size then inodes[i].size - off0 else n0;
      var tot: nat, off: nat := 0, off0;
      WantedIs(s, i, off0, n0, n);
      BytesPrefix(s, i, off0, 0, n);
      while tot < n
        invariant 0 <= tot <= n && off == off0 + tot && Now() == s
        invariant dst == BytesFrom(s, i, off0, tot) && (tot < n ==> ChunkStart(off0, tot))
        invariant Accepted(off0, tot, bad)
      {
        var addr := BmapThere(i, off);
        var m := Chunk(n, tot, off);
        if tot in bad {
          BytesPrefix(s, i, off0, tot, n);
          return -1, dst;
        }
        ReadStep(s, i, off0, tot, off, n, addr, bad);
        dst := dst + PartOf(blocks[addr], off, m);
        tot, off := tot + m, off + m;
      }
      BytesPrefix(s, i, off0, n, n);
      r := tot;
    }

    /** The field copies of iupdate. */
    method FillInode(b: Block, k: nat, ino: Inode) returns (d: Block)
      requires k < IPB && |ino.addrs| == NDIRECT + 1
      ensures d == PutInode(b, k, ino)
    {
      hide SetWord, Word;
      d := SetWord(SetWord(SetWord(b, 16 * k, ino.tag0), 16 * k + 1, ino.tag1), 16 * k + 2, ino.size);
      ghost var d0 := d;
      var x := 0;
      while x <= NDIRECT
        invariant 0 <= x <= NDIRECT + 1 && d == PutAddrs(d0, k, ino.addrs, x)
      {
        d := SetWord(d, 16 * k + 3 + x, ino.addrs[x]);
        x := x + 1;
      }
    }

    method Iupdate(i: nat)
      requires Valid() && i < |inodes|
      modifies this`blocks, this`logged
      ensures Shape(old(Now()), sb) && Now() == Updated(old(Now()), sb, i)
    {
      hide Owned, NoHoles, PutInode;
      var b := sb.inodestart + i / IPB;
      var d := FillInode(blocks[b], i % IPB, inodes[i]);
      blocks := blocks[b := d];
      logged := logged + {b};
    }

    /** The chunk loop of writei. */
    method WriteChunks(i: nat, off0: u32, src: seq<byte>) returns (tot: nat)
      requires Valid() && Live(Now(), i) && off0 <= inodes[i].size && off0 + |src| <= MAXFILE * BSIZE
      modifies this
      ensures Progress(old(Now()), Now(), sb, i, off0, src, tot) && (tot < |src| ==> DiskFull(Now(), sb))
      ensures LogWithin(old(Now()), Now(), sb, i, off0 / BSIZE, (off0 + |src|) / BSIZE)
    {
      hide Inv, Slot, InUse, DiskFull, Progress, Grown, Touches;
      ghost var s0 := Now();
      tot := 0;
      var off: nat := off0;
      ProgressNone(s0, sb, i, off0, src);
      while tot < |src|
        invariant 0 <= tot <= |src| && off == off0 + tot && Valid() && Live(Now(), i) && |inodes| == |s0.inodes|
        invariant Progress(s0, Now(), sb, i, off0, src, tot)
        invariant LogWithin(s0, Now(), sb, i, off0 / BSIZE, (off0 + |src|) / BSIZE)
      {
        ghost var s := Now();
        var ok, addr := Bmap(i, off / BSIZE);
        LogWithinGrown(s0, s, Now(), sb, i, off0 / BSIZE, (off0 + |src|) / BSIZE, off / BSIZE);
        ProgressGrown(s0, s, Now(), sb, i, off0, src, tot);
        GrownShape(s, Now(), sb, i);
        if addr == 0 { return; }
        var m := Min(|src| - tot, BSIZE - off % BSIZE);
        ProgressFilled(s0, Now(), sb, i, off0, src, tot);
        LogWithinFilled(s0, Now(), sb, i, off0 / BSIZE, (off0 + |src|) / BSIZE, off / BSIZE,
                        Patched(blocks[addr], off % BSIZE, src[tot..tot + m]));
        blocks := blocks[addr := Patched(blocks[addr], off % BSIZE, src[tot..tot + m])];
        logged := logged + {addr};
        tot, off := tot + m, off + m;
        ProgressInv(s0, Now(), sb, i, off0, src, tot);
      }
    }

    /** writei with a source that can be copied in. */
    method Writei(i: nat, off0: u32, src: seq<byte>) returns (r: int)
      requires Valid() && Live(Now(), i) && |src| < 0x1_0000_0000 && Synced(Now(), sb, {})
      modifies this
      ensures Valid() && Synced(Now(), sb, {})
      ensures r == -1 <==> off0 > old(inodes[i].size) || off0 + |src| > MAXFILE * BSIZE
      ensures r == -1 ==> Now() == old(Now())
      ensures r != -1 ==> 0 <= r <= |src| && (r < |src| ==> DiskFull(Now(), sb))
      ensures r != -1 ==> OnlyFile(old(Now()), Now(), i, Overlay(old(Content(Now(), i)), off0, src[..r]))
      ensures CallLogs(old(Now()), Now(), sb, i, off0 / BSIZE, (off0 + |src|) / BSIZE)
    {
      hide Inv, Slot, InUse, DiskFull, Progress, Synced, OnlyFile, LogWithin, CallLogs;
      CallLogsNone(Now(), sb, i, off0 / BSIZE, (off0 + |src|) / BSIZE);
      ghost var s0 := Now();
      if off0 > inodes[i].size || AddWord(off0, |src|) < off0 { return -1; }
      if off0 + |src| > MAXFILE * BSIZE { return -1; }
      var tot := WriteChunks(i, off0, src);
      ghost var s1 := Now();
      SizeBound(s0, sb, i);
      ProgressInv(s0, s1, sb, i, off0, src, tot);
      if off0 + tot > inodes[i].size { inodes := inodes[i := inodes[i].(size := off0 + tot)]; }
      ghost var s2 := Now();
      assert s2 == Resized(s1, i, Max(s0.inodes[i].size, off0 + tot));
      ProgressDone(s0, s1, sb, i, off0, src, tot);
      ProgressSynced(s0, s1, sb, i, off0, src, tot, s2.inodes[i].size);
      Iupdate(i);
      UpdatedKeeps(s2, sb, i);
      UpdatedSyncs(s2, sb, i);
      UpdatedOnlyFile(s0, s2, sb, i, Overlay(Content(s0, i), off0, src[..tot]));
      UpdatedFull(s1, s2, sb, i);
      UpdatedLogs(s0, s1, s2, sb, i, off0 / BSIZE, (off0 + |src|) / BSIZE);
      return tot;
    }

    /** bfree; false is the "freeing free block" panic. */
    method Bfree(b: nat) returns (ok: bool)
      requires Shape(Now(), sb) && b < sb.size
      modifies this`blocks, this`logged, this`owner
      ensures ok <==> InUse(old(Now()), sb, b)
      ensures Now() == if ok then Freed(old(Now()), sb, b) else old(Now())
    {
      hide SetBit, Bit;
      var bb := sb.bmapstart + b / BPB;
      assert bb < |blocks|;
      if !Bit(blocks[bb], b % BPB) { return false; }
      blocks := blocks[bb := SetBit(blocks[bb], b % BPB, false)];
      logged := logged + {bb};
      owner := owner - {b};
      return true;
    }

    /** The direct-block loop of itrunc. */
    method TruncDirect(i: nat)
      requires Valid() && i < |inodes|
      modifies this
      ensures Shrunk(old(Now()), Now(), sb, i) && Owned(Now(), sb, {}, {}) && i < |inodes|
      ensures forall k: nat :: k < NDIRECT ==> Slot(Now(), i, k) == 0
    {
      hide Owned, InUse, Shrunk, Freed;
      ghost var s0 := Now();
      ShrunkNone(s0, sb, i);
      var k := 0;
      while k < NDIRECT
        invariant 0 <= k <= NDIRECT && Shrunk(s0, Now(), sb, i) && Owned(Now(), sb, {}, {})
        invariant Shape(Now(), sb) && i < |inodes| && forall l :: 0 <= l < k ==> inodes[i].addrs[l] == 0
      {
        if inodes[i].addrs[k] != 0 {
          ghost var s := Now();
          FreeDirect(s0, s, sb, i, k);
          var ok := Bfree(inodes[i].addrs[k]);
          FreedInodes(s, sb, s.inodes[i].addrs[k]);
          inodes := inodes[i := inodes[i].(addrs := inodes[i].addrs[k := 0])];
          ShrunkShape(s0, Now(), sb, i);
        }
        k := k + 1;
      }
    }

    /** The indirect part of itrunc, when there is an indirect block. */
    method TruncIndirect(i: nat, ghost s0: State)
      requires Shrunk(s0, Now(), sb, i) && Owned(Now(), sb, {}, {}) && i < |inodes| && Slot(Now(), i, INDIRECT) != 0
      modifies this
      ensures Shrunk(s0, Now(), sb, i) && Owned(Now(), sb, {}, {})
      ensures forall k: nat :: Slot(Now(), i, k) == if k >= INDIRECT then 0 else Slot(old(Now()), i, k)
    {
      hide Owned, InUse, Shrunk, Freed;
      ghost var s1 := Now();
      ShrunkShape(s0, s1, sb, i);
      IndirectBlock(s1, sb, {}, i);
      var a := inodes[i].addrs[INDIRECT];
      var j := 0;
      assert DeadEntries(i, 0) == {};
      while j < NINDIRECT
        invariant 0 <= j <= NINDIRECT && Shrunk(s0, Now(), sb, i) && Owned(Now(), sb, {}, DeadEntries(i, j))
        invariant Shape(Now(), sb) && inodes == s1.inodes && blocks[a] == s1.blocks[a]
      {
        var e := Word(blocks[a], j);
        assert e == Slot(Now(), i, NDIRECT + 1 + j);
        ghost var s := Now();
        if e != 0 {
          FreeEntry(s0, s, sb, i, j);
          var ok := Bfree(e);
          FreedInodes(s, sb, e);
          ShrunkShape(s0, Now(), sb, i);
        } else {
          ZeroSlotDies(s, sb, i, j);
        }
        j := j + 1;
      }
      ghost var s := Now();
      FreeIndirect(s0, s, sb, i);
      var ok := Bfree(inodes[i].addrs[INDIRECT]);
      FreedInodes(s, sb, a);
      inodes := inodes[i := inodes[i].(addrs := inodes[i].addrs[INDIRECT := 0])];
    }

    /** itrunc: the file becomes empty, exactly its blocks are free again, and no panic is reached. */
    method Itrunc(i: nat)
      requires Valid() && i < |inodes| && Synced(Now(), sb, {})
      modifies this
      ensures Valid() && Synced(Now(), sb, {}) && OnlyFile(old(Now()), Now(), i, [])
      ensures forall k: nat :: Slot(Now(), i, k) == 0
      ensures forall c: nat :: c < sb.size ==>
        (InUse(Now(), sb, c) <==> InUse(old(Now()), sb, c) && !(c in old(owner) && old(owner)[c].0 == i))
      ensures Bare(inodes[i]) && owner == Kept(old(owner), {i})
    {
      hide Inv, Owned, InUse, Shrunk, Synced, OnlyFile;
      ghost var s0 := Now();
      TruncDirect(i);
      ShrunkShape(s0, Now(), sb, i);
      if inodes[i].addrs[INDIRECT] != 0 { TruncIndirect(i, s0); }
      ghost var s1 := Now();
      ShrunkShape(s0, s1, sb, i);
      assert forall k: nat :: Slot(s1, i, k) == 0;
      Truncated(s0, s1, sb, i);
      ShrunkSynced(s0, s1, sb, i);
      inodes := inodes[i := inodes[i].(size := 0)];
      ghost var s2 := Now();
      Iupdate(i);
      UpdatedKeeps(s2, sb, i);
      UpdatedSyncs(s2, sb, i);
      UpdatedOnlyFile(s0, s2, sb, i, []);
      KeptBits(s0, Now(), sb, {i});
      BareSlots(Now(), i);
    }

    /** iput.  The last reference to an inode with no links frees it: itrunc, type = 0, iupdate. */
    method Iput(i: nat, ref: nat, valid: bool) returns (left: nat)
      requires Valid() && i < |inodes| && ref >= 1 && Synced(Now(), sb, {})
      modifies this
      ensures left == ref - 1
      ensures if ref == 1 && valid && Nlink(old(inodes[i])) == 0 then Released(old(Now()), Now(), sb, i)
              else Now() == old(Now())
      ensures ref == 1 && valid && Nlink(old(inodes[i])) == 0 ==> forall c: nat :: c < sb.size ==>
        (InUse(Now(), sb, c) <==> InUse(old(Now()), sb, c) && !(c in old(owner) && old(owner)[c].0 == i))
    {
      hide Inv, Synced, OnlyFile, Released, InUse, Kept, Slot, Bare, Updated;
      if ref == 1 && valid && Nlink(inodes[i]) == 0 {
        ghost var s0 := Now();
        Itrunc(i);
        OnlyFileSize(s0, Now(), i, []);
        UntypedReleases(s0, Now(), sb, i);
        inodes := inodes[i := inodes[i].(tag0 := inodes[i].tag0 - Type(inodes[i]))];
        Iupdate(i);
        ReleasedBits(s0, Now(), sb, i);
      }
      return ref - 1;
    }

    /** Writes a new inode over a free one. */
    method Claim(inum: nat, typ: nat)
      requires Valid() && Synced(Now(), sb, {}) && typ < 0x1_0000
      requires inum < |inodes| && Type(inodes[inum]) == 0
      modifies this`blocks, this`inodes, this`logged
      ensures Valid() && Synced(Now(), sb, {}) && |inodes| == |old(inodes)|
      ensures OthersKept(old(Now()), Now(), {inum}) && inodes[inum] == NOINODE.(tag0 := typ)
    {
      ghost var s := Now();
      InvShape(s, sb);
      hide Inv, OthersKept, PutInode;
      FreeIsBare(s, sb, inum);
      var b, ino := sb.inodestart + inum / IPB, NOINODE.(tag0 := typ);
      BareUpdated(s, s.(inodes := s.inodes[inum := ino]), sb, inum, ino);
      var d := FillInode(blocks[b], inum % IPB, ino);
      blocks := blocks[b := d];
      logged := logged + {b};
      inodes := inodes[inum := ino];
    }

    /** ialloc: the first free inode, cleared and typed on disk; 0 when there is none. */
    method Ialloc(typ: nat) returns (r: nat)
      requires Valid() && Synced(Now(), sb, {}) && typ < 0x1_0000
      modifies this`blocks, this`inodes, this`logged
      ensures Valid() && Synced(Now(), sb, {})
      ensures r == 0 ==> Now() == old(Now()) && forall j :: 1 <= j < |inodes| ==> Type(inodes[j]) != 0
      ensures r != 0 ==> r < |old(inodes)| && Type(old(inodes)[r]) == 0
      ensures r != 0 ==> forall j :: 1 <= j < r ==> Type(old(inodes)[j]) != 0
      ensures r != 0 ==> OthersKept(old(Now()), Now(), {r}) && inodes[r] == NOINODE.(tag0 := typ)
    {
      hide Inv, OthersKept, PutInode;
      var inum := 1;
      InvShape(Now(), sb);
      while inum < sb.ninodes
        invariant 1 <= inum && Now() == old(Now())
        invariant forall j :: 1 <= j < inum && j < |inodes| ==> Type(inodes[j]) != 0
      {
        var b := sb.inodestart + inum / IPB;
        assert OnDisk(Now(), sb, inum);
        if Type(DiskInode(blocks[b], inum % IPB)) == 0 {
          Claim(inum, typ);
          return inum;
        }
        inum := inum + 1;
      }
      return 0;
    }

    /** ireclaim, at boot: every orphan is freed, one transaction each, and nothing else changes. */
    method Ireclaim()
      requires Valid() && Synced(Now(), sb, {})
      modifies this
      ensures Reclaimed(old(Now()), Now(), sb, |old(inodes)|)
      ensures forall i :: 1 <= i < |inodes| ==> !Orphan(inodes[i])
    {
      hide Inv, OthersKept, Released, Content, Kept;
      ghost var s0 := Now();
      var inum := 1;
      InvShape(s0, sb);
      ReclaimNone(s0, sb);
      while inum < sb.ninodes
        invariant 1 <= inum && |inodes| == |s0.inodes| == sb.ninodes && Reclaimed(s0, Now(), sb, inum)
        invariant inum == 1 || inum <= |inodes|
      {
        assert OnDisk(Now(), sb, inum);
        InvShape(Now(), sb);
        ghost var s := Now();
        if Orphan(DiskInode(blocks[sb.inodestart + inum / IPB], inum % IPB)) {
          var left := Iput(inum, 1, true);
        }
        ReclaimStep(s0, s, Now(), sb, inum);
        inum := inum + 1;
      }
      NoOrphans(s0, Now(), sb, inum);
    }

    /** One transaction of filewrite: begin_op, writei, end_op.  `n` counts the distinct blocks it logs: fewer than
        MAXOPBLOCKS on a disk of up to three bitmap blocks. */
    method WriteOp(i: nat, off: u32, w: seq<byte>) returns (r: int, ghost n: nat)
      requires Valid() && Live(Now(), i) && |w| <= (MAXOPBLOCKS - 1 - 1 - 2) / 2 * BSIZE
      requires Synced(Now(), sb, {})
      modifies this
      ensures Valid() && Synced(Now(), sb, {}) && i < |inodes| && -1 <= r <= |w|
      ensures n <= 7 + sb.size / BPB && (sb.size < 3 * BPB ==> n < MAXOPBLOCKS)
      ensures r == -1 <==> off > old(inodes[i].size) || off + |w| > MAXFILE * BSIZE
      ensures r != -1 && r < |w| ==> DiskFull(Now(), sb)
      ensures OnlyFile(old(Now()), Now(), i,
        if r == -1 then old(Content(Now(), i)) else Overlay(old(Content(Now(), i)), off, w[..r]))
    {
      hide Inv, Synced, DiskFull, CallLogs, Overlay, OnlyFile;
      ghost var s := Now();
      NewTransaction(s, sb, i);
      logged := {};
      ghost var s1 := Now();
      r := Writei(i, off, w);
      CallLogsFew(s1, Now(), sb, i, off / BSIZE, (off + |w|) / BSIZE);
      n := |logged|;
      if r != -1 {
        OnlyFileJoin(s, s1, Now(), i, Content(s, i), Overlay(Content(s, i), off, w[..r]));
        OnlyFileSize(s, Now(), i, Overlay(Content(s, i), off, w[..r]));
      }
    }

    /** The transaction-sized chunks of filewrite.  `off` is f->off afterwards, and `ops` the number of distinct
        blocks each transaction logged. */
    method Filewrite(i: nat, off0: u32, src: seq<byte>) returns (ret: int, off: nat, ghost ops: seq<nat>)
      requires Valid() && Live(Now(), i) && |src| < 0x8000_0000
      requires Synced(Now(), sb, {})
      modifies this
      ensures Valid() && Synced(Now(), sb, {})
      ensures off0 <= off <= off0 + |src| && ret == if off == off0 + |src| then |src| else -1
      ensures off0 <= old(inodes[i].size) ==>
          OnlyFile(old(Now()), Now(), i, Overlay(old(Content(Now(), i)), off0, src[..off - off0]))
      ensures off0 > old(inodes[i].size) ==> off == off0 && OnlyFile(old(Now()), Now(), i, old(Content(Now(), i)))
      ensures off < off0 + |src| ==> off0 > old(inodes[i].size) || off0 + |src| > MAXFILE * BSIZE || DiskFull(Now(), sb)
      ensures forall x <- ops :: x <= 7 + sb.size / BPB && (sb.size < 3 * BPB ==> x < MAXOPBLOCKS)
    {
      hide Inv, Synced, OnlyFile, Overlay, DiskFull, WroteTo, Content;
      ghost var s0 := Now();
      var max := (MAXOPBLOCKS - 1 - 1 - 2) / 2 * BSIZE;
      var done: nat := 0;
      off, ops := off0, [];
      WroteNone(s0, i, off0, src);
      while done < |src|
        invariant 0 <= done <= |src| && off == off0 + done
        invariant Valid() && Synced(Now(), sb, {}) && Live(Now(), i)
        invariant WroteTo(s0, Now(), i, off0, src, done)
        invariant forall x <- ops :: x <= 7 + sb.size / BPB && (sb.size < 3 * BPB ==> x < MAXOPBLOCKS)
        decreases |src| - done
      {
        var n1 := if |src| - done > max then max else |src| - done;
        ghost var s := Now();
        WroteSize(s0, s, i, off0, src, done);
        var r, n := WriteOp(i, off, src[done..done + n1]);
        ops := ops + [n];
        WroteMore(s0, s, Now(), i, off0, src, done, n1, r);
        if r > 0 { off := off + r; }
        if r != n1 { break; }
        done := done + r;
      }
      WroteAll(s0, Now(), i, off0, src, off - off0);
      ret := if done == |src| then |src| else -1;
    }
  }
}

/** Who owns which data block while the balloc, bmap, itrunc, ialloc and iput calls of many processes interleave
    (kernel/fs.c).  A process works on the one inode whose sleep-lock it holds, or in ialloc on an inode block whose
    buffer it holds; its steps are the stretches it runs under one buffer's lock or on its own in-memory inode. */
module BlockRuns {
  import opened Bitmap
  import opened Blocks
  import opened FileSystem

  /** What the holder of an inode is in the middle of: nothing; putting block b in slot k (bzero done or not); itrunc
      with the blocks of slots ks freed and the slots not cleared yet; or iput with the type cleared in memory only. */
  datatype Job = Idle | Fresh(b: u32, k: nat, zeroed: bool) | Dead(ks: set<nat>) | Dying

  datatype Sys = Sys(s: State, jobs: seq<Job>, panicked: bool)

  datatype Event =
    | Take(i: nat, k: nat, b: u32)            // balloc marks a block
    | Zero(i: nat)                            // balloc's bzero
    | Record(i: nat)                          // bmap stores the block's number
    | Fill(i: nat, k: nat, data: Block)       // writei changes a block of the file
    | Free(i: nat, k: nat)                    // itrunc's bfree
    | Clear(i: nat, k: nat)                   // itrunc clears the pointer
    | SetSize(i: nat, size: u32)              // writei or itrunc sets the size
    | Untype(i: nat)                          // iput: ip->type = 0
    | Iupdate(i: nat)                         // the inode goes to its inode block
    | Ialloc(i: nat, typ: nat)                // ialloc clears and types a free disk inode
    | Load(i: nat)                            // ilock reads an inode just allocated

  ghost function Spare(jobs: seq<Job>): (r: set<nat>) { set i | 0 <= i < |jobs| && jobs[i].Fresh? :: jobs[i].b }

  /** With the indirect pointer dead so is everything behind it. */
  predicate IsDead(job: Job, k: nat) { job.Dead? && (k in job.ks || (INDIRECT in job.ks && k >= INDIRECT)) }

  ghost function DeadSlots(jobs: seq<Job>): (r: set<(nat, nat)>) {
    set i: nat, k: nat | i < |jobs| && k < NSLOTS && IsDead(jobs[i], k) :: (i, k)
  }

  // ---------- Ownership under each kind of step ----------

  ghost predicate Closed(dead: set<(nat, nat)>) {
    forall i: nat, k: nat :: (i, INDIRECT) in dead && INDIRECT < k < NSLOTS ==> (i, k) in dead
  }

  ghost predicate Books(s: State, sb: Super, spare: set<nat>, dead: set<(nat, nat)>) {
    Shape(s, sb) && Owned(s, sb, spare, dead) && Closed(dead)
  }

  /** The block a live slot is read from, if it is not in the inode itself, is the inode's own. */
  lemma LiveIndirect(s: State, sb: Super, spare: set<nat>, dead: set<(nat, nat)>, i: nat, k: nat)
    requires Books(s, sb, spare, dead) && i < |s.inodes| && INDIRECT < k < NSLOTS && (i, k) !in dead
    ensures var a := s.inodes[i].addrs[INDIRECT];
      a != 0 ==> sb.datastart <= a < sb.size && a in s.owner && s.owner[a] == (i, INDIRECT) && a !in spare
  {
    assert Slot(s, i, INDIRECT) == s.inodes[i].addrs[INDIRECT];
    assert (i, INDIRECT) !in dead;
    hide Slot, InUse;
  }

  /** Changing one block that no live slot is read from changes no live slot. */
  lemma LiveSlotSame(s: State, t: State, sb: Super, spare: set<nat>, dead: set<(nat, nat)>, b: nat, i: nat, k: nat)
    requires Books(s, sb, spare, dead) && (i, k) !in dead && t.inodes == s.inodes && |t.blocks| == |s.blocks|
    requires forall c :: 0 <= c < |s.blocks| && c != b ==> t.blocks[c] == s.blocks[c]
    requires b !in s.owner || s.owner[b] != (i, INDIRECT)
    ensures Slot(t, i, k) == Slot(s, i, k)
  {
    if i < |s.inodes| && INDIRECT < k < NSLOTS { LiveIndirect(s, sb, spare, dead, i, k); }
  }

  ghost function Marks(s: State, sb: Super, b: nat, used: bool): (t: State)
    requires Shape(s, sb) && b < sb.size
  {
    var bb := sb.bmapstart + b / BPB;
    s.(blocks := s.blocks[bb := SetBit(s.blocks[bb], b % BPB, used)])
  }

  lemma MarksBits(s: State, sb: Super, b: nat, used: bool, c: nat)
    requires Shape(s, sb) && b < sb.size && c < sb.size
    ensures InUse(Marks(s, sb, b, used), sb, c) <==> if c == b then used else InUse(s, sb, c)
  { assert sb.bmapstart + c / BPB < sb.datastart; }

  lemma MarksSlots(s: State, sb: Super, spare: set<nat>, dead: set<(nat, nat)>, b: nat, used: bool, i: nat, k: nat)
    requires Books(s, sb, spare, dead) && b < sb.size && (i, k) !in dead
    ensures Slot(Marks(s, sb, b, used), i, k) == Slot(s, i, k)
  {
    var bb := sb.bmapstart + b / BPB;
    assert bb !in s.owner by { hide Slot, InUse; }
    hide SetBit;
    LiveSlotSame(s, Marks(s, sb, b, used), sb, spare, dead, bb, i, k);
  }

  lemma TakeKeeps(s: State, sb: Super, spare: set<nat>, dead: set<(nat, nat)>, b: nat)
    requires Books(s, sb, spare, dead) && b < sb.size && !InUse(s, sb, b)
    ensures sb.datastart <= b && b !in spare && b !in s.owner && Books(Marks(s, sb, b, true), sb, spare + {b}, dead)
  {
    hide Slot, InUse, SetBit;
    var t := Marks(s, sb, b, true);
    forall i: nat, k: nat | (i, k) !in dead ensures Slot(t, i, k) == Slot(s, i, k) {
      MarksSlots(s, sb, spare, dead, b, true, i, k);
    }
    forall c: nat | c < sb.size ensures InUse(t, sb, c) <==> c == b || InUse(s, sb, c) { MarksBits(s, sb, b, true, c); }
  }

  ghost function Sets(s: State, b: nat, data: Block): (t: State)
    requires b < |s.blocks|
  { s.(blocks := s.blocks[b := data]) }

  /** Overwriting a block that is nobody's indirect block. */
  lemma SetsKeeps(s: State, sb: Super, spare: set<nat>, dead: set<(nat, nat)>, b: nat, data: Block)
    requires Books(s, sb, spare, dead) && sb.datastart <= b < sb.size
    requires b in spare || (b in s.owner && s.owner[b].1 != INDIRECT)
    ensures Books(Sets(s, b, data), sb, spare, dead)
    ensures forall i: nat, k: nat :: (i, k) !in dead ==> Slot(Sets(s, b, data), i, k) == Slot(s, i, k)
  {
    assert b !in s.owner || s.owner[b].1 != INDIRECT by { hide Slot, InUse; }
    var t := Sets(s, b, data);
    forall i: nat, k: nat | (i, k) !in dead ensures Slot(t, i, k) == Slot(s, i, k) {
      LiveSlotSame(s, t, sb, spare, dead, b, i, k);
    }
    hide Slot, InUse;
    forall c: nat | c < sb.size ensures InUse(t, sb, c) == InUse(s, sb, c) { SameBits(s, t, sb, c); }
  }

  /** The block gets its slot. */
  lemma RecordKeeps(s: State, t: State, sb: Super, spare: set<nat>, dead: set<(nat, nat)>, i: nat, k: nat, b: u32)
    requires Books(s, sb, spare, dead) && b in spare && (i, k) !in dead && Slot(s, i, k) == 0
    requires Shape(t, sb) && t.owner == s.owner[b := (i, k)]
    requires forall c: nat :: c < sb.size ==> InUse(t, sb, c) == InUse(s, sb, c)
    requires forall j: nat, l: nat :: (j, l) !in dead ==> Slot(t, j, l) == if (j, l) == (i, k) then b else Slot(s, j, l)
    ensures Books(t, sb, spare - {b}, dead)
  { hide Slot, InUse; }

  lemma NameKeeps(s: State, sb: Super, spare: set<nat>, dead: set<(nat, nat)>, i: nat, k: nat, b: u32)
    requires Books(s, sb, spare, dead) && b in spare && (i, k) !in dead && Slot(s, i, k) == 0
    requires i < |s.inodes| && k <= INDIRECT && sb.datastart <= b < sb.size && s.blocks[b] == Zeroed()
    ensures Books(Named(s, i, k, b), sb, spare - {b}, dead)
  {
    hide Slot, InUse, Owned;
    var t := Named(s, i, k, b);
    forall j: nat, l: nat ensures Slot(t, j, l) == if (j, l) == (i, k) then b else Slot(s, j, l) {
      NamedSlots(s, sb, i, k, b, j, l);
    }
    forall c: nat ensures InUse(t, sb, c) == InUse(s, sb, c) { SameBits(s, t, sb, c); }
    RecordKeeps(s, t, sb, spare, dead, i, k, b);
  }

  lemma EnterSlots(s: State, sb: Super, spare: set<nat>, dead: set<(nat, nat)>, i: nat, k: nat, b: u32, j: nat, l: nat)
    requires Books(s, sb, spare, dead) && i < |s.inodes| && INDIRECT < k < NSLOTS && (i, k) !in dead
    requires s.inodes[i].addrs[INDIRECT] != 0 && (j, l) !in dead
    ensures s.inodes[i].addrs[INDIRECT] < |s.blocks|
    ensures Slot(Entered(s, i, k - NDIRECT - 1, b), j, l) == if (j, l) == (i, k) then b else Slot(s, j, l)
  {
    LiveIndirect(s, sb, spare, dead, i, k);
    if j < |s.inodes| && j != i && INDIRECT < l < NSLOTS { LiveIndirect(s, sb, spare, dead, j, l); }
    hide Owned, Closed, SetWord;
    if j == i || (INDIRECT < l < NSLOTS && j < |s.inodes|) { EnteredSlots(s, i, k - NDIRECT - 1, b, j, l); }
  }

  lemma EnterKeeps(s: State, sb: Super, spare: set<nat>, dead: set<(nat, nat)>, i: nat, k: nat, b: u32)
    requires Books(s, sb, spare, dead) && b in spare && (i, k) !in dead && Slot(s, i, k) == 0
    requires i < |s.inodes| && INDIRECT < k < NSLOTS && s.inodes[i].addrs[INDIRECT] != 0
    ensures s.inodes[i].addrs[INDIRECT] < |s.blocks|
    ensures Books(Entered(s, i, k - NDIRECT - 1, b), sb, spare - {b}, dead)
  {
    LiveIndirect(s, sb, spare, dead, i, k);
    hide Slot, InUse, Owned, SetWord;
    var t := Entered(s, i, k - NDIRECT - 1, b);
    forall j: nat, l: nat | (j, l) !in dead ensures Slot(t, j, l) == if (j, l) == (i, k) then b else Slot(s, j, l) {
      EnterSlots(s, sb, spare, dead, i, k, b, j, l);
    }
    forall c: nat | c < sb.size ensures InUse(t, sb, c) == InUse(s, sb, c) { SameBits(s, t, sb, c); }
    RecordKeeps(s, t, sb, spare, dead, i, k, b);
  }

  /** bfree of a live slot's block: the bit is set, so there is no panic, and the slot goes dead. */
  lemma FreeKeeps(s: State, sb: Super, spare: set<nat>, dead: set<(nat, nat)>, i: nat, k: nat, more: set<(nat, nat)>)
    requires Books(s, sb, spare, dead) && (i, k) !in dead && Slot(s, i, k) != 0
    requires dead + {(i, k)} <= more && Closed(more)
    requires forall j: nat, l: nat :: (j, l) in more && (j, l) !in dead ==> (j, l) == (i, k) || Slot(s, j, l) == 0
    ensures var b := Slot(s, i, k);
      && sb.datastart <= b < sb.size && InUse(s, sb, b) && b !in spare
      && Books(Marks(s, sb, b, false).(owner := s.owner - {b}), sb, spare, more)
  {
    hide Slot, InUse, SetBit;
    var b := Slot(s, i, k);
    var t := Marks(s, sb, b, false);
    forall j: nat, l: nat | (j, l) !in dead ensures Slot(t, j, l) == Slot(s, j, l) {
      MarksSlots(s, sb, spare, dead, b, false, j, l);
    }
    var u := t.(owner := s.owner - {b});
    forall j: nat, l: nat ensures Slot(u, j, l) == Slot(t, j, l) { OwnerUnread(t, u, sb, j, l); }
    forall c: nat ensures InUse(u, sb, c) == InUse(t, sb, c) { OwnerUnread(t, u, sb, 0, c); }
    forall c: nat | c < sb.size
      ensures InUse(t, sb, c) <==> c != b && InUse(s, sb, c)
    {
      MarksBits(s, sb, b, false, c);
    }
  }

  lemma OwnerUnread(t: State, u: State, sb: Super, j: nat, l: nat)
    requires u == t.(owner := u.owner)
    ensures Slot(u, j, l) == Slot(t, j, l) && InUse(u, sb, l) == InUse(t, sb, l)
  {}

  /** ip->addrs[k] = 0 once everything it leads to is dead. */
  lemma ClearKeeps(s: State, sb: Super, spare: set<nat>, dead: set<(nat, nat)>, i: nat, k: nat, less: set<(nat, nat)>)
    requires Books(s, sb, spare, dead) && i < |s.inodes| && k <= INDIRECT
    requires forall l: nat :: Below12(k, l) && l < NSLOTS ==> (i, l) in dead
    requires less <= dead && Closed(less)
    requires forall j: nat, l: nat :: (j, l) in dead && (j, l) !in less ==> j == i && Below12(k, l)
    ensures Books(Cleared(s, i, k), sb, spare, less)
  {
    var t := Cleared(s, i, k);
    forall j: nat, l: nat ensures Slot(t, j, l) == if j == i && Below12(k, l) then 0 else Slot(s, j, l) {
      ClearedSlots(s, sb, i, k, j, l);
    }
    forall l: nat | l >= NSLOTS ensures Slot(s, i, l) == 0 {}
    hide Slot, InUse;
    forall c: nat ensures InUse(t, sb, c) == InUse(s, sb, c) { SameBits(s, t, sb, c); }
  }

  // ---------- The system ----------

  /** Inode i as its inode block has it. */
  function OnDiskNow(s: State, sb: Super, i: nat): (ino: Inode) {
    if sb.inodestart + i / IPB < |s.blocks| then DiskInode(s.blocks[sb.inodestart + i / IPB], i % IPB) else NOINODE
  }

  /** An inode goes to its inode block. */
  ghost function Puts(s: State, sb: Super, i: nat, ino: Inode): (t: State)
    requires Shape(s, sb) && i < |s.inodes| && |ino.addrs| == NDIRECT + 1
  {
    var b := sb.inodestart + i / IPB;
    s.(blocks := s.blocks[b := PutInode(s.blocks[b], i % IPB, ino)])
  }

  predicate Entries(ks: set<nat>) { forall k <- ks :: INDIRECT < k < NSLOTS }

  function KsOf(job: Job): (ks: set<nat>) { if job.Dead? then job.ks else {} }

  /** itrunc frees and clears direct blocks one at a time, then the entries of the indirect block, then that block. */
  ghost predicate MayFree(s: State, i: nat, job: Job, k: nat) {
    && (job.Idle? || job.Dead?) && Slot(s, i, k) != 0 && k !in KsOf(job)
    && (if k < INDIRECT then KsOf(job) == {} else Entries(KsOf(job)))
    && (k == INDIRECT ==> forall l: nat :: INDIRECT < l < NSLOTS && Slot(s, i, l) != 0 ==> l in KsOf(job))
  }

  ghost predicate May(m: Sys, sb: Super, e: Event) {
    && !m.panicked && e.i < |m.jobs| && e.i < |m.s.inodes| && Shape(m.s, sb)
    && var job := m.jobs[e.i];
    match e
    case Take(i, k, b) =>
      && job.Idle? && Live(m.s, i) && k < NSLOTS && Slot(m.s, i, k) == 0 && b < sb.size && !InUse(m.s, sb, b)
      && (k > INDIRECT ==> m.s.inodes[i].addrs[INDIRECT] != 0)
    case Zero(i) => job.Fresh? && !job.zeroed && job.b < |m.s.blocks|
    case Record(i) =>
      && job.Fresh? && job.zeroed && job.k < NSLOTS
      && (job.k > INDIRECT ==> m.s.inodes[i].addrs[INDIRECT] < |m.s.blocks|)
    case Fill(i, k, _) => job.Idle? && k != INDIRECT && 0 < Slot(m.s, i, k) < |m.s.blocks|
    case Free(i, k) => MayFree(m.s, i, job, k) && Slot(m.s, i, k) < sb.size
    case Clear(i, k) => job.Dead? && k in job.ks && k <= INDIRECT
    case SetSize(i, _) => job.Idle? && Live(m.s, i)
    case Untype(i) => job.Idle? && Live(m.s, i) && Bare(m.s.inodes[i])
    case Iupdate(i) => job.Dying? || (job.Idle? && Live(m.s, i))
    case Ialloc(i, typ) => Type(OnDiskNow(m.s, sb, i)) == 0 && 0 < typ < 0x1_0000
    case Load(i) => job.Idle? && !Live(m.s, i) && Type(OnDiskNow(m.s, sb, i)) != 0
  }

  ghost function After(m: Sys, sb: Super, e: Event): (r: Sys)
    requires May(m, sb, e)
  {
    var s, i, job := m.s, e.i, m.jobs[e.i];
    match e
    case Take(_, k, b) => m.(s := Marks(s, sb, b, true), jobs := m.jobs[i := Fresh(b, k, false)])
    case Zero(_) => m.(s := Sets(s, job.b, Zeroed()), jobs := m.jobs[i := job.(zeroed := true)])
    case Record(_) =>
      m.(s := if job.k <= INDIRECT then Named(s, i, job.k, job.b)
              else Entered(s, i, job.k - NDIRECT - 1, job.b),
         jobs := m.jobs[i := Idle])
    case Fill(_, k, data) => m.(s := Sets(s, Slot(s, i, k), data))
    case Free(_, k) =>
      var b := Slot(s, i, k);
      if !InUse(s, sb, b) then m.(panicked := true)
      else m.(s := Marks(s, sb, b, false).(owner := s.owner - {b}), jobs := m.jobs[i := Dead(KsOf(job) + {k})])
    case Clear(_, k) => m.(s := Cleared(s, i, k), jobs := m.jobs[i := Idle])
    case SetSize(_, size) => m.(s := Resized(s, i, size))
    case Untype(_) => m.(s := Untyped(s, i), jobs := m.jobs[i := Dying])
    case Iupdate(_) => m.(s := Puts(s, sb, i, s.inodes[i]), jobs := m.jobs[i := Idle])
    case Ialloc(_, typ) => m.(s := Puts(s, sb, i, NOINODE.(tag0 := typ)))
    case Load(_) => m.(s := s.(inodes := s.inodes[i := OnDiskNow(s, sb, i)]))
  }

  // ---------- The invariant ----------

  /** A free inode names no block, in memory or on disk, and nobody is working on it. */
  ghost predicate InodeOk(s: State, sb: Super, i: nat, job: Job) {
    && i < |s.inodes|
    && (!Live(s, i) ==> Bare(s.inodes[i]) && (job.Idle? || job.Dying?))
    && (!Live(s, i) && job.Idle? ==> Bare(OnDiskNow(s, sb, i)))
    && (job.Dying? ==> !Live(s, i) && Type(OnDiskNow(s, sb, i)) != 0)
    && (Type(OnDiskNow(s, sb, i)) == 0 ==> !Live(s, i))
  }

  ghost predicate JobOk(s: State, sb: Super, i: nat, job: Job) {
    InodeOk(s, sb, i, job) &&
    match job
    case Idle | Dying => true
    case Fresh(b, k, zeroed) =>
      && k < NSLOTS && Slot(s, i, k) == 0 && sb.datastart <= b < sb.size && b < |s.blocks|
      && (zeroed ==> s.blocks[b] == Zeroed())
      && (k > INDIRECT ==> i < |s.inodes| && |s.inodes[i].addrs| == NDIRECT + 1 && s.inodes[i].addrs[INDIRECT] != 0)
    case Dead(ks) => forall k <- ks :: k < NSLOTS && (k < INDIRECT ==> ks == {k})
  }

  ghost predicate Apart(jobs: seq<Job>) {
    forall i, j :: 0 <= i < j < |jobs| && jobs[i].Fresh? && jobs[j].Fresh? ==> jobs[i].b != jobs[j].b
  }

  ghost predicate Good(m: Sys, sb: Super) {
    && Books(m.s, sb, Spare(m.jobs), DeadSlots(m.jobs)) && |m.jobs| == |m.s.inodes| && Apart(m.jobs)
    && (forall i :: 0 <= i < |m.jobs| ==> JobOk(m.s, sb, i, m.jobs[i]))
    && !m.panicked
  }

  // ---------- How the books follow the jobs ----------

  lemma SpareChange(jobs: seq<Job>, i: nat, job: Job)
    requires i < |jobs| && Apart(jobs)
    ensures var rest := if jobs[i].Fresh? then Spare(jobs) - {jobs[i].b} else Spare(jobs);
      Spare(jobs[i := job]) == if job.Fresh? then rest + {job.b} else rest
  {
    var v := jobs[i := job];
    forall j | 0 <= j < |jobs| && j != i && jobs[j].Fresh? ensures jobs[j].b in Spare(v) { assert v[j].Fresh?; }
    if job.Fresh? { assert v[i].Fresh?; }
  }

  lemma DeadAt(jobs: seq<Job>, i: nat, k: nat)
    ensures (i, k) in DeadSlots(jobs) <==> i < |jobs| && k < NSLOTS && IsDead(jobs[i], k)
  {}

  lemma DeadClosed(jobs: seq<Job>)
    ensures Closed(DeadSlots(jobs))
  {}

  /** Jobs that kill no slot. */
  lemma DeadSame(jobs: seq<Job>, i: nat, job: Job)
    requires i < |jobs| && !jobs[i].Dead? && !job.Dead?
    ensures DeadSlots(jobs[i := job]) == DeadSlots(jobs)
  {
    var v := jobs[i := job];
    forall j: nat, k: nat ensures (j, k) in DeadSlots(v) <==> (j, k) in DeadSlots(jobs) {
      DeadAt(jobs, j, k);
      DeadAt(v, j, k);
    }
  }

  /** From s to t, by the holder of inode i: what the jobs on other inodes rely on is as it was. */
  ghost predicate LeavesOthers(s: State, t: State, sb: Super, jobs: seq<Job>, i: nat) {
    && |t.blocks| == |s.blocks| && |t.inodes| == |s.inodes|
    && (forall j: nat :: j < |s.inodes| && j != i ==> t.inodes[j] == s.inodes[j])
    && (forall j: nat :: j < |s.inodes| && j != i ==> OnDiskNow(t, sb, j) == OnDiskNow(s, sb, j))
    && (forall j: nat, k: nat :: j != i && (j, k) !in DeadSlots(jobs) ==> Slot(t, j, k) == Slot(s, j, k))
    && (forall b: nat :: b < |s.blocks| && (IsFreshOf(jobs, b, i) || (b in s.owner && s.owner[b].0 != i)) ==>
          t.blocks[b] == s.blocks[b])
  }

  /** No inode block has changed, and no type. */
  ghost predicate TypesKept(s: State, t: State, sb: Super) {
    && |t.blocks| == |s.blocks| && |t.inodes| == |s.inodes|
    && (forall b: nat :: b < sb.bmapstart && b < |s.blocks| ==> t.blocks[b] == s.blocks[b])
    && (forall j: nat :: j < |s.inodes| ==> t.inodes[j].tag0 == s.inodes[j].tag0)
  }

  lemma DiskKept(s: State, t: State, sb: Super, j: nat)
    requires Shape(s, sb) && j < |s.inodes| && TypesKept(s, t, sb)
    ensures OnDiskNow(t, sb, j) == OnDiskNow(s, sb, j)
  { hide DiskInode; }

  lemma StillOk(s: State, t: State, sb: Super, i: nat, was: Job, job: Job)
    requires Shape(s, sb) && InodeOk(s, sb, i, was) && Live(s, i) && TypesKept(s, t, sb) && !job.Dying?
    ensures InodeOk(t, sb, i, job)
  {
    hide DiskInode, Bare;
    DiskKept(s, t, sb, i);
  }

  /** Block b is being put in a slot of an inode other than i. */
  ghost predicate IsFreshOf(jobs: seq<Job>, b: nat, i: nat) {
    exists j :: 0 <= j < |jobs| && j != i && jobs[j].Fresh? && jobs[j].b == b
  }

  lemma OthersJobsOk(s: State, t: State, sb: Super, jobs: seq<Job>, i: nat, j: nat)
    requires j < |jobs| == |s.inodes| && j != i && LeavesOthers(s, t, sb, jobs, i) && JobOk(s, sb, j, jobs[j])
    ensures JobOk(t, sb, j, jobs[j])
  {
    if jobs[j].Fresh? {
      DeadAt(jobs, j, jobs[j].k);
      assert IsFreshOf(jobs, jobs[j].b, i);
    }
    hide Slot, Bare, DiskInode;
  }

  /** The invariant from its parts. */
  lemma GoodFrom(m: Sys, r: Sys, sb: Super, i: nat, job: Job)
    requires Good(m, sb) && i < |m.jobs| && r.jobs == m.jobs[i := job] && !r.panicked
    requires LeavesOthers(m.s, r.s, sb, m.jobs, i) && JobOk(r.s, sb, i, job)
    requires Books(r.s, sb, Spare(r.jobs), DeadSlots(r.jobs)) && Apart(r.jobs)
    ensures Good(r, sb)
  {
    hide Books, Slot, Apart, LeavesOthers, JobOk;
    forall j | 0 <= j < |r.jobs| ensures JobOk(r.s, sb, j, r.jobs[j]) {
      if j != i { OthersJobsOk(m.s, r.s, sb, m.jobs, i, j); }
    }
    assert |r.s.inodes| == |m.s.inodes| by { LeavesShape(m.s, r.s, sb, m.jobs, i); }
  }

  lemma LeavesShape(s: State, t: State, sb: Super, jobs: seq<Job>, i: nat)
    requires LeavesOthers(s, t, sb, jobs, i)
    ensures |t.inodes| == |s.inodes| && |t.blocks| == |s.blocks|
  {}

  // ---------- Each step ----------

  lemma MarksLeaves(s: State, sb: Super, jobs: seq<Job>, i: nat, b: nat, used: bool)
    requires Books(s, sb, Spare(jobs), DeadSlots(jobs)) && b < sb.size
    ensures LeavesOthers(s, Marks(s, sb, b, used), sb, jobs, i)
  {
    hide Slot, SetBit, InUse, OnDiskNow;
    forall j: nat, k: nat | (j, k) !in DeadSlots(jobs) ensures Slot(Marks(s, sb, b, used), j, k) == Slot(s, j, k) {
      MarksSlots(s, sb, Spare(jobs), DeadSlots(jobs), b, used, j, k);
    }
    forall c: nat | IsFreshOf(jobs, c, i) ensures c in Spare(jobs) {}
    MarksTypes(s, sb, b, used);
    forall j: nat | j < |s.inodes| ensures OnDiskNow(Marks(s, sb, b, used), sb, j) == OnDiskNow(s, sb, j) {
      DiskKept(s, Marks(s, sb, b, used), sb, j);
    }
  }

  lemma MarksTypes(s: State, sb: Super, b: nat, used: bool)
    requires Shape(s, sb) && b < sb.size
    ensures TypesKept(s, Marks(s, sb, b, used), sb)
  { hide SetBit; }

  lemma TakeGood(m: Sys, sb: Super, i: nat, k: nat, b: u32)
    requires Good(m, sb) && May(m, sb, Take(i, k, b))
    ensures Good(After(m, sb, Take(i, k, b)), sb) && LeavesOthers(m.s, After(m, sb, Take(i, k, b)).s, sb, m.jobs, i)
  {
    var r, job := After(m, sb, Take(i, k, b)), Fresh(b, k, false);
    TakeKeeps(m.s, sb, Spare(m.jobs), DeadSlots(m.jobs), b);
    MarksLeaves(m.s, sb, m.jobs, i, b, true);
    MarksSlots(m.s, sb, Spare(m.jobs), DeadSlots(m.jobs), b, true, i, k);
    SpareChange(m.jobs, i, job);
    DeadSame(m.jobs, i, job);
    assert Apart(r.jobs) by { TakenApart(m.jobs, i, job); }
    assert JobOk(m.s, sb, i, m.jobs[i]);
    MarksTypes(m.s, sb, b, true);
    StillOk(m.s, r.s, sb, i, Idle, job);
    hide Books, LeavesOthers, Apart, Marks, Slot, InodeOk;
    GoodFrom(m, r, sb, i, job);
  }

  lemma TakenApart(jobs: seq<Job>, i: nat, job: Job)
    requires i < |jobs| && Apart(jobs) && job.Fresh? && job.b !in Spare(jobs)
    ensures Apart(jobs[i := job])
  {
    forall j | 0 <= j < |jobs| && jobs[j].Fresh? ensures jobs[j].b in Spare(jobs) {}
  }

  /** Overwriting a block of one's own. */
  lemma SetsLeaves(s: State, sb: Super, jobs: seq<Job>, i: nat, b: nat, data: Block)
    requires Books(s, sb, Spare(jobs), DeadSlots(jobs)) && sb.datastart <= b < sb.size && !IsFreshOf(jobs, b, i)
    requires b in Spare(jobs) || (b in s.owner && s.owner[b].1 != INDIRECT && s.owner[b].0 == i)
    ensures LeavesOthers(s, Sets(s, b, data), sb, jobs, i)
  {
    assert b in Spare(jobs) ==> b !in s.owner by { hide Slot, InUse; }
    SetsKeeps(s, sb, Spare(jobs), DeadSlots(jobs), b, data);
    hide Owned, Slot, OnDiskNow;
    forall j: nat | j < |s.inodes| ensures OnDiskNow(Sets(s, b, data), sb, j) == OnDiskNow(s, sb, j) {
      DiskKept(s, Sets(s, b, data), sb, j);
    }
  }

  lemma FreshAlone(jobs: seq<Job>, i: nat)
    requires i < |jobs| && Apart(jobs) && jobs[i].Fresh?
    ensures jobs[i].b in Spare(jobs) && !IsFreshOf(jobs, jobs[i].b, i)
  {}

  lemma ZeroGood(m: Sys, sb: Super, i: nat)
    requires Good(m, sb) && May(m, sb, Zero(i))
    ensures Good(After(m, sb, Zero(i)), sb) && LeavesOthers(m.s, After(m, sb, Zero(i)).s, sb, m.jobs, i)
  {
    var r, job := After(m, sb, Zero(i)), m.jobs[i].(zeroed := true);
    var b := job.b;
    FreshAlone(m.jobs, i);
    assert JobOk(m.s, sb, i, m.jobs[i]);
    SetsLeaves(m.s, sb, m.jobs, i, b, Zeroed());
    SetsKeeps(m.s, sb, Spare(m.jobs), DeadSlots(m.jobs), b, Zeroed());
    DeadAt(m.jobs, i, job.k);
    SpareChange(m.jobs, i, job);
    DeadSame(m.jobs, i, job);
    assert Spare(m.jobs) - {b} + {b} == Spare(m.jobs);
    assert Apart(r.jobs);
    StillOk(m.s, r.s, sb, i, m.jobs[i], job);
    hide Books, LeavesOthers, Apart, Slot, InodeOk;
    GoodFrom(m, r, sb, i, job);
  }

  /** A free inode that is bare names nothing. */
  lemma NamedIsLive(s: State, i: nat, k: nat)
    requires Slot(s, i, k) != 0
    ensures i < |s.inodes| && !Bare(s.inodes[i])
  {}

  lemma FillReady(m: Sys, sb: Super, i: nat, k: nat, data: Block)
    requires Good(m, sb) && May(m, sb, Fill(i, k, data))
    ensures var b := Slot(m.s, i, k);
      && b in m.s.owner && m.s.owner[b] == (i, k) && k != INDIRECT && sb.datastart <= b < sb.size && b !in Spare(m.jobs)
    ensures Books(m.s, sb, Spare(m.jobs), DeadSlots(m.jobs)) && Apart(m.jobs) && !m.panicked
    ensures m.jobs[i].Idle? && JobOk(m.s, sb, i, Idle) && Live(m.s, i)
  {
    DeadAt(m.jobs, i, k);
    assert JobOk(m.s, sb, i, Idle);
    NamedIsLive(m.s, i, k);
    hide Slot, InUse, Apart, OnDiskNow;
  }

  lemma FillGood(m: Sys, sb: Super, i: nat, k: nat, data: Block)
    requires Good(m, sb) && May(m, sb, Fill(i, k, data))
    ensures var r := After(m, sb, Fill(i, k, data)); Good(r, sb) && LeavesOthers(m.s, r.s, sb, m.jobs, i)
  {
    hide Good, Owned, Closed, LeavesOthers, Apart, Slot, InodeOk, DeadSlots;
    var r, b := After(m, sb, Fill(i, k, data)), Slot(m.s, i, k);
    FillReady(m, sb, i, k, data);
    SetsLeaves(m.s, sb, m.jobs, i, b, data);
    SetsKeeps(m.s, sb, Spare(m.jobs), DeadSlots(m.jobs), b, data);
    StillOk(m.s, r.s, sb, i, Idle, Idle);
    assert m.jobs[i := Idle] == m.jobs;
    GoodFrom(m, r, sb, i, Idle);
  }

  lemma NameLeaves(s: State, sb: Super, jobs: seq<Job>, i: nat, k: nat, b: u32)
    requires Shape(s, sb) && i < |s.inodes| && k <= INDIRECT && Slot(s, i, k) == 0
    requires sb.datastart <= b < sb.size && s.blocks[b] == Zeroed()
    ensures LeavesOthers(s, Named(s, i, k, b), sb, jobs, i)
  {
    hide Slot, DiskInode;
    forall j: nat, l: nat | j != i ensures Slot(Named(s, i, k, b), j, l) == Slot(s, j, l) {
      NamedSlots(s, sb, i, k, b, j, l);
    }
  }

  lemma EnterLeaves(s: State, sb: Super, jobs: seq<Job>, i: nat, k: nat, b: u32)
    requires Books(s, sb, Spare(jobs), DeadSlots(jobs)) && i < |s.inodes| && INDIRECT < k < NSLOTS
    requires (i, k) !in DeadSlots(jobs) && s.inodes[i].addrs[INDIRECT] != 0
    ensures s.inodes[i].addrs[INDIRECT] < |s.blocks| && LeavesOthers(s, Entered(s, i, k - NDIRECT - 1, b), sb, jobs, i)
  {
    hide Slot, Owned, Closed, SetWord, OnDiskNow, DeadSlots;
    LiveIndirect(s, sb, Spare(jobs), DeadSlots(jobs), i, k);
    var t := Entered(s, i, k - NDIRECT - 1, b);
    forall j: nat, l: nat | j != i && (j, l) !in DeadSlots(jobs) ensures Slot(t, j, l) == Slot(s, j, l) {
      EnterSlots(s, sb, Spare(jobs), DeadSlots(jobs), i, k, b, j, l);
    }
    forall c: nat | IsFreshOf(jobs, c, i) ensures c in Spare(jobs) {}
    forall j: nat | j < |s.inodes| ensures OnDiskNow(t, sb, j) == OnDiskNow(s, sb, j) { DiskKept(s, t, sb, j); }
  }

  lemma RecordTypes(m: Sys, sb: Super, i: nat)
    requires Good(m, sb) && May(m, sb, Record(i))
    ensures TypesKept(m.s, After(m, sb, Record(i)).s, sb)
  {
    var k := m.jobs[i].k;
    DeadAt(m.jobs, i, k);
    assert JobOk(m.s, sb, i, m.jobs[i]);
    if k > INDIRECT { LiveIndirect(m.s, sb, Spare(m.jobs), DeadSlots(m.jobs), i, k); }
    hide Owned, Closed, Slot, SetWord, Apart;
  }

  lemma RecordJobs(jobs: seq<Job>, i: nat)
    requires i < |jobs| && Apart(jobs) && jobs[i].Fresh?
    ensures jobs[i].b in Spare(jobs) && (i, jobs[i].k) !in DeadSlots(jobs) && Apart(jobs[i := Idle])
    ensures Spare(jobs[i := Idle]) == Spare(jobs) - {jobs[i].b} && DeadSlots(jobs[i := Idle]) == DeadSlots(jobs)
  {
    FreshAlone(jobs, i);
    DeadAt(jobs, i, jobs[i].k);
    SpareChange(jobs, i, Idle);
    DeadSame(jobs, i, Idle);
  }

  lemma RecordReady(m: Sys, sb: Super, i: nat)
    requires Good(m, sb) && May(m, sb, Record(i))
    ensures Books(m.s, sb, Spare(m.jobs), DeadSlots(m.jobs)) && Apart(m.jobs) && !m.panicked && Live(m.s, i)
    ensures JobOk(m.s, sb, i, m.jobs[i]) && m.jobs[i].Fresh? && m.jobs[i].zeroed && i < |m.jobs| && i < |m.s.inodes|
  {
    assert JobOk(m.s, sb, i, m.jobs[i]);
    hide Books, Slot, Apart, OnDiskNow;
  }

  lemma RecordGood(m: Sys, sb: Super, i: nat)
    requires Good(m, sb) && May(m, sb, Record(i))
    ensures Good(After(m, sb, Record(i)), sb) && LeavesOthers(m.s, After(m, sb, Record(i)).s, sb, m.jobs, i)
  {
    hide Good, May, Owned, Closed, LeavesOthers, Apart, Slot, Named, Entered, InodeOk, TypesKept, Spare, DeadSlots;
    RecordReady(m, sb, i);
    var r, b, k := After(m, sb, Record(i)), m.jobs[i].b, m.jobs[i].k;
    RecordJobs(m.jobs, i);
    RecordTypes(m, sb, i);
    StillOk(m.s, r.s, sb, i, m.jobs[i], Idle);
    if k <= INDIRECT {
      NameLeaves(m.s, sb, m.jobs, i, k, b);
      NameKeeps(m.s, sb, Spare(m.jobs), DeadSlots(m.jobs), i, k, b);
    } else {
      EnterLeaves(m.s, sb, m.jobs, i, k, b);
      EnterKeeps(m.s, sb, Spare(m.jobs), DeadSlots(m.jobs), i, k, b);
    }
    GoodFrom(m, r, sb, i, Idle);
  }

  /** Which slots bfree kills: its own, and with the indirect pointer the empty entries behind it. */
  lemma DeadMore(s: State, jobs: seq<Job>, i: nat, k: nat)
    requires i < |jobs| && k < NSLOTS && MayFree(s, i, jobs[i], k)
    ensures var less, more := DeadSlots(jobs), DeadSlots(jobs[i := Dead(KsOf(jobs[i]) + {k})]);
      && (i, k) !in less && less + {(i, k)} <= more
      && forall j: nat, l: nat :: (j, l) in more && (j, l) !in less ==> (j, l) == (i, k) || Slot(s, j, l) == 0
  {
    hide Slot;
    var v := jobs[i := Dead(KsOf(jobs[i]) + {k})];
    forall j: nat, l: nat
      ensures (j, l) in DeadSlots(jobs) <==> j < |jobs| && l < NSLOTS && IsDead(jobs[j], l)
      ensures (j, l) in DeadSlots(v) <==> j < |jobs| && l < NSLOTS && IsDead(v[j], l)
    {
      DeadAt(jobs, j, l);
      DeadAt(v, j, l);
    }
  }

  lemma FreeSlotBound(s: State, i: nat, k: nat)
    requires Slot(s, i, k) != 0
    ensures k < NSLOTS
  {}

  lemma FreeGood(m: Sys, sb: Super, i: nat, k: nat)
    requires Good(m, sb) && May(m, sb, Free(i, k))
    ensures InUse(m.s, sb, Slot(m.s, i, k))
    ensures Good(After(m, sb, Free(i, k)), sb) && LeavesOthers(m.s, After(m, sb, Free(i, k)).s, sb, m.jobs, i)
  {
    hide Slot, InUse, Marks, Owned, Closed, LeavesOthers, Spare, DeadSlots;
    var r, b, job := After(m, sb, Free(i, k)), Slot(m.s, i, k), Dead(KsOf(m.jobs[i]) + {k});
    FreeSlotBound(m.s, i, k);
    DeadMore(m.s, m.jobs, i, k);
    DeadClosed(m.jobs[i := job]);
    FreeKeeps(m.s, sb, Spare(m.jobs), DeadSlots(m.jobs), i, k, DeadSlots(m.jobs[i := job]));
    MarksLeaves(m.s, sb, m.jobs, i, b, false);
    assert JobOk(m.s, sb, i, m.jobs[i]);
    NamedIsLive(m.s, i, k);
    MarksTypes(m.s, sb, b, false);
    assert TypesKept(m.s, r.s, sb);
    StillOk(m.s, r.s, sb, i, m.jobs[i], job);
    hide InodeOk;
    SpareChange(m.jobs, i, job);
    assert Apart(r.jobs);
    OwnerLeaves(m.s, Marks(m.s, sb, b, false), r.s, sb, m.jobs, i);
    hide Books, Apart;
    GoodFrom(m, r, sb, i, job);
  }

  lemma OwnerLeaves(s: State, t: State, u: State, sb: Super, jobs: seq<Job>, i: nat)
    requires LeavesOthers(s, t, sb, jobs, i) && u == t.(owner := u.owner)
    ensures LeavesOthers(s, u, sb, jobs, i)
  {
    hide Slot, DiskInode;
    forall j: nat, k: nat ensures Slot(u, j, k) == Slot(t, j, k) { OwnerUnread(t, u, sb, j, k); }
  }

  lemma DeadLess(jobs: seq<Job>, i: nat, k: nat)
    requires i < |jobs| && jobs[i].Dead? && k in jobs[i].ks && k <= INDIRECT
    requires forall x <- jobs[i].ks :: x < NSLOTS && (x < INDIRECT ==> jobs[i].ks == {x})
    ensures var dead, less := DeadSlots(jobs), DeadSlots(jobs[i := Idle]);
      && (forall l: nat :: Below12(k, l) && l < NSLOTS ==> (i, l) in dead)
      && less <= dead
      && forall j: nat, l: nat :: (j, l) in dead && (j, l) !in less ==> j == i && Below12(k, l)
  {
    var v := jobs[i := Idle];
    forall j: nat, l: nat
      ensures (j, l) in DeadSlots(jobs) <==> j < |jobs| && l < NSLOTS && IsDead(jobs[j], l)
      ensures (j, l) in DeadSlots(v) <==> j < |jobs| && l < NSLOTS && IsDead(v[j], l)
    {
      DeadAt(jobs, j, l);
      DeadAt(v, j, l);
    }
    assert forall x <- jobs[i].ks :: Below12(k, x);
  }

  lemma ClearLeaves(s: State, sb: Super, jobs: seq<Job>, i: nat, k: nat)
    requires Shape(s, sb) && i < |s.inodes| && k <= INDIRECT
    ensures LeavesOthers(s, Cleared(s, i, k), sb, jobs, i)
  {
    hide Slot, DiskInode;
    forall j: nat, l: nat | j != i ensures Slot(Cleared(s, i, k), j, l) == Slot(s, j, l) {
      ClearedSlots(s, sb, i, k, j, l);
    }
  }

  lemma ClearGood(m: Sys, sb: Super, i: nat, k: nat)
    requires Good(m, sb) && May(m, sb, Clear(i, k))
    ensures Good(After(m, sb, Clear(i, k)), sb) && LeavesOthers(m.s, After(m, sb, Clear(i, k)).s, sb, m.jobs, i)
  {
    var r := After(m, sb, Clear(i, k));
    assert JobOk(m.s, sb, i, m.jobs[i]);
    DeadLess(m.jobs, i, k);
    DeadClosed(r.jobs);
    ClearKeeps(m.s, sb, Spare(m.jobs), DeadSlots(m.jobs), i, k, DeadSlots(r.jobs));
    ClearLeaves(m.s, sb, m.jobs, i, k);
    SpareChange(m.jobs, i, Idle);
    assert Apart(r.jobs);
    StillOk(m.s, r.s, sb, i, m.jobs[i], Idle);
    hide Books, LeavesOthers, Apart, Slot, InodeOk;
    GoodFrom(m, r, sb, i, Idle);
  }

  // ---------- Inodes allocated and freed ----------

  /** Changing no slot, bit or owner changes nothing in the books. */
  lemma SameBooks(s: State, t: State, sb: Super, spare: set<nat>, dead: set<(nat, nat)>)
    requires Books(s, sb, spare, dead) && Shape(t, sb) && t.owner == s.owner
    requires forall j: nat, k: nat :: (j, k) !in dead ==> Slot(t, j, k) == Slot(s, j, k)
    requires forall c: nat :: c < sb.size ==> InUse(t, sb, c) == InUse(s, sb, c)
    ensures Books(t, sb, spare, dead)
  { hide Slot, InUse; }

  /** Inode i replaced by one with the same block numbers. */
  lemma TagsBooks(s: State, t: State, sb: Super, spare: set<nat>, dead: set<(nat, nat)>, i: nat, ino: Inode)
    requires Books(s, sb, spare, dead) && i < |s.inodes| && ino.addrs == s.inodes[i].addrs
    requires t == s.(inodes := s.inodes[i := ino])
    ensures Books(t, sb, spare, dead) && forall j: nat, k: nat :: Slot(t, j, k) == Slot(s, j, k)
  {
    forall j: nat, k: nat ensures Slot(t, j, k) == Slot(s, j, k) {}
    hide Slot, InUse, Owned;
    forall c: nat ensures InUse(t, sb, c) == InUse(s, sb, c) { SameBits(s, t, sb, c); }
    SameBooks(s, t, sb, spare, dead);
  }

  /** A step on inode i that moves no block: what it leaves for everybody else. */
  lemma TagsLeave(s: State, t: State, sb: Super, jobs: seq<Job>, i: nat, ino: Inode)
    requires i < |s.inodes| && t == s.(inodes := s.inodes[i := ino])
    requires forall j: nat, k: nat :: Slot(t, j, k) == Slot(s, j, k)
    ensures LeavesOthers(s, t, sb, jobs, i)
    ensures OnDiskNow(t, sb, i) == OnDiskNow(s, sb, i)
  { hide Slot, DiskInode; }

  /** The jobs' side of a step between Idle and Dying. */
  lemma QuietJobs(jobs: seq<Job>, i: nat, job: Job)
    requires i < |jobs| && (jobs[i].Idle? || jobs[i].Dying?) && (job.Idle? || job.Dying?) && Apart(jobs)
    ensures Spare(jobs[i := job]) == Spare(jobs) && DeadSlots(jobs[i := job]) == DeadSlots(jobs)
    ensures Apart(jobs[i := job])
  {
    SpareChange(jobs, i, job);
    DeadSame(jobs, i, job);
  }

  /** SetSize, Untype and Load replace the in-memory inode by one that names the same blocks. */
  lemma TagsGood(m: Sys, r: Sys, sb: Super, i: nat, job: Job, ino: Inode)
    requires Good(m, sb) && i < |m.jobs| && m.jobs[i].Idle? && (job.Idle? || job.Dying?)
    requires ino.addrs == m.s.inodes[i].addrs
    requires r == m.(s := m.s.(inodes := m.s.inodes[i := ino]), jobs := m.jobs[i := job])
    requires InodeOk(r.s, sb, i, job)
    ensures Good(r, sb) && LeavesOthers(m.s, r.s, sb, m.jobs, i)
  {
    hide Slot, Owned, Closed, InodeOk, Apart, LeavesOthers;
    TagsBooks(m.s, r.s, sb, Spare(m.jobs), DeadSlots(m.jobs), i, ino);
    TagsLeave(m.s, r.s, sb, m.jobs, i, ino);
    QuietJobs(m.jobs, i, job);
    GoodFrom(m, r, sb, i, job);
  }

  lemma SizeGood(m: Sys, sb: Super, i: nat, size: u32)
    requires Good(m, sb) && May(m, sb, SetSize(i, size))
    ensures var r := After(m, sb, SetSize(i, size)); Good(r, sb) && LeavesOthers(m.s, r.s, sb, m.jobs, i)
  {
    var r := After(m, sb, SetSize(i, size));
    assert JobOk(m.s, sb, i, Idle);
    assert m.jobs == m.jobs[i := Idle];
    hide Books, Apart, Slot, LeavesOthers, DiskInode;
    TagsGood(m, r, sb, i, Idle, r.s.inodes[i]);
  }

  lemma UntypeGood(m: Sys, sb: Super, i: nat)
    requires Good(m, sb) && May(m, sb, Untype(i))
    ensures var r := After(m, sb, Untype(i)); Good(r, sb) && LeavesOthers(m.s, r.s, sb, m.jobs, i)
  {
    var r := After(m, sb, Untype(i));
    assert JobOk(m.s, sb, i, Idle);
    hide Books, Apart, Slot, LeavesOthers, DiskInode;
    TagsGood(m, r, sb, i, Dying, r.s.inodes[i]);
  }

  lemma BothBare(a: Inode, b: Inode)
    requires Bare(a) && Bare(b) && |a.addrs| == |b.addrs|
    ensures a.addrs == b.addrs
  {}

  lemma LoadGood(m: Sys, sb: Super, i: nat)
    requires Good(m, sb) && May(m, sb, Load(i))
    ensures var r := After(m, sb, Load(i)); Good(r, sb) && LeavesOthers(m.s, r.s, sb, m.jobs, i)
  {
    var r, ino := After(m, sb, Load(i)), OnDiskNow(m.s, sb, i);
    assert JobOk(m.s, sb, i, Idle);
    assert |ino.addrs| == NDIRECT + 1;
    BothBare(m.s.inodes[i], ino);
    assert m.jobs == m.jobs[i := Idle];
    hide Books, Apart, Slot, LeavesOthers, DiskInode;
    TagsGood(m, r, sb, i, Idle, ino);
  }

  /** An inode block is nobody's data block, and holds no inode's numbers but as a copy. */
  lemma PutsBooks(s: State, sb: Super, spare: set<nat>, dead: set<(nat, nat)>, i: nat, ino: Inode)
    requires Books(s, sb, spare, dead) && i < |s.inodes| && |ino.addrs| == NDIRECT + 1
    ensures Books(Puts(s, sb, i, ino), sb, spare, dead)
    ensures forall j: nat, k: nat :: (j, k) !in dead ==> Slot(Puts(s, sb, i, ino), j, k) == Slot(s, j, k)
  {
    var t, b := Puts(s, sb, i, ino), sb.inodestart + i / IPB;
    assert b !in s.owner && b < sb.bmapstart by { hide Slot, InUse; }
    hide PutInode;
    forall j: nat, k: nat | (j, k) !in dead ensures Slot(t, j, k) == Slot(s, j, k) {
      LiveSlotSame(s, t, sb, spare, dead, b, j, k);
    }
    hide Slot, InUse, Owned;
    forall c: nat | c < sb.size ensures InUse(t, sb, c) == InUse(s, sb, c) { SameBits(s, t, sb, c); }
    SameBooks(s, t, sb, spare, dead);
  }

  lemma PutsDisk(s: State, sb: Super, i: nat, ino: Inode, j: nat)
    requires Shape(s, sb) && i < |s.inodes| && j < |s.inodes| && |ino.addrs| == NDIRECT + 1
    ensures OnDiskNow(Puts(s, sb, i, ino), sb, j) == if j == i then ino else OnDiskNow(s, sb, j)
  {
    hide PutInode, DiskInode;
    PutInodeReads(s.blocks[sb.inodestart + i / IPB], i % IPB, ino);
    if j != i { assert j / IPB == i / IPB ==> j % IPB != i % IPB; }
  }

  lemma PutsLeaves(s: State, sb: Super, jobs: seq<Job>, i: nat, ino: Inode)
    requires Books(s, sb, Spare(jobs), DeadSlots(jobs)) && i < |s.inodes| && |ino.addrs| == NDIRECT + 1
    ensures LeavesOthers(s, Puts(s, sb, i, ino), sb, jobs, i)
  {
    var t := Puts(s, sb, i, ino);
    PutsBooks(s, sb, Spare(jobs), DeadSlots(jobs), i, ino);
    hide Slot, InUse, OnDiskNow, PutInode;
    forall j: nat | j < |s.inodes| && j != i ensures OnDiskNow(t, sb, j) == OnDiskNow(s, sb, j) {
      PutsDisk(s, sb, i, ino, j);
    }
    forall c: nat | IsFreshOf(jobs, c, i) ensures c in Spare(jobs) {}
  }

  /** Iupdate and Ialloc change the disk inode alone. */
  lemma PutsGood(m: Sys, r: Sys, sb: Super, i: nat, job: Job, ino: Inode)
    requires Good(m, sb) && i < |m.jobs| && (m.jobs[i].Idle? || m.jobs[i].Dying?) && job.Idle?
    requires |ino.addrs| == NDIRECT + 1 && r == m.(s := Puts(m.s, sb, i, ino), jobs := m.jobs[i := job])
    requires InodeOk(r.s, sb, i, job)
    ensures Good(r, sb) && LeavesOthers(m.s, r.s, sb, m.jobs, i)
  {
    hide Slot, Owned, Closed, InodeOk, Apart, LeavesOthers, Puts;
    PutsBooks(m.s, sb, Spare(m.jobs), DeadSlots(m.jobs), i, ino);
    PutsLeaves(m.s, sb, m.jobs, i, ino);
    QuietJobs(m.jobs, i, job);
    GoodFrom(m, r, sb, i, job);
  }

  lemma UpdateGood(m: Sys, sb: Super, i: nat)
    requires Good(m, sb) && May(m, sb, Iupdate(i))
    ensures var r := After(m, sb, Iupdate(i)); Good(r, sb) && LeavesOthers(m.s, r.s, sb, m.jobs, i)
  {
    var r, ino := After(m, sb, Iupdate(i)), m.s.inodes[i];
    assert JobOk(m.s, sb, i, m.jobs[i]);
    PutsDisk(m.s, sb, i, ino, i);
    hide Owned, Closed, Apart, Slot, LeavesOthers, OnDiskNow, PutInode;
    PutsGood(m, r, sb, i, Idle, ino);
  }

  /** ialloc finds an inode that names no block and that nobody is working on, so its memset loses nothing. */
  /** An inode that is free on the disk is empty there and in memory, and nobody is at work on it. */
  lemma FreeIsIdle(m: Sys, sb: Super, i: nat)
    requires Good(m, sb) && i < |m.jobs| && i < |m.s.inodes| && Shape(m.s, sb) && Type(OnDiskNow(m.s, sb, i)) == 0
    ensures m.jobs[i].Idle? && Bare(m.s.inodes[i]) && Bare(OnDiskNow(m.s, sb, i)) && !Live(m.s, i)
  {
    assert JobOk(m.s, sb, i, m.jobs[i]);
    hide Books, Apart, Slot, OnDiskNow;
  }

  lemma AllocGood(m: Sys, sb: Super, i: nat, typ: nat)
    requires Good(m, sb) && May(m, sb, Ialloc(i, typ))
    ensures m.jobs[i].Idle? && Bare(m.s.inodes[i]) && Bare(OnDiskNow(m.s, sb, i))
    ensures var r := After(m, sb, Ialloc(i, typ)); Good(r, sb) && LeavesOthers(m.s, r.s, sb, m.jobs, i)
  {
    hide Good, Slot, LeavesOthers, OnDiskNow, PutInode, DiskInode, GoodSuper;
    var r, ino := After(m, sb, Ialloc(i, typ)), NOINODE.(tag0 := typ);
    FreeIsIdle(m, sb, i);
    PutsDisk(m.s, sb, i, ino, i);
    assert m.jobs == m.jobs[i := Idle];
    PutsGood(m, r, sb, i, Idle, ino);
  }

  lemma StepGood(m: Sys, sb: Super, e: Event)
    requires Good(m, sb) && May(m, sb, e)
    ensures Good(After(m, sb, e), sb) && LeavesOthers(m.s, After(m, sb, e).s, sb, m.jobs, e.i)
  {
    hide Good, May, After, LeavesOthers;
    match e
    case Take(i, k, b) => TakeGood(m, sb, i, k, b);
    case Zero(i) => ZeroGood(m, sb, i);
    case Record(i) => RecordGood(m, sb, i);
    case Fill(i, k, data) => FillGood(m, sb, i, k, data);
    case Free(i, k) => FreeGood(m, sb, i, k);
    case Clear(i, k) => ClearGood(m, sb, i, k);
    case SetSize(i, size) => SizeGood(m, sb, i, size);
    case Untype(i) => UntypeGood(m, sb, i);
    case Iupdate(i) => UpdateGood(m, sb, i);
    case Ialloc(i, typ) => AllocGood(m, sb, i, typ);
    case Load(i) => LoadGood(m, sb, i);
  }

  // ---------- Runs ----------

  ghost predicate Starts(m: Sys, sb: Super) {
    && Inv(m.s, sb) && Synced(m.s, sb, {})
    && |m.jobs| == |m.s.inodes| && (forall i :: 0 <= i < |m.jobs| ==> m.jobs[i].Idle?) && !m.panicked
  }

  lemma StartsGood(m: Sys, sb: Super)
    requires Starts(m, sb)
    ensures Good(m, sb)
  {
    assert Spare(m.jobs) == {} && DeadSlots(m.jobs) == {};
    hide Slot, InUse, NoHoles, DiskInode, Bare;
    forall i | 0 <= i < |m.jobs| ensures JobOk(m.s, sb, i, m.jobs[i]) { assert OnDisk(m.s, sb, i); }
  }

  ghost predicate Run(ms: seq<Sys>, es: seq<Event>, sb: Super) {
    && |ms| == |es| + 1 && Starts(ms[0], sb)
    && (forall n :: 0 <= n < |es| ==> May(ms[n], sb, es[n]) && ms[n + 1] == After(ms[n], sb, es[n]))
  }

  lemma {:induction false} RunGood(ms: seq<Sys>, es: seq<Event>, sb: Super, n: nat)
    requires Run(ms, es, sb) && n < |ms|
    ensures Good(ms[n], sb)
  {
    hide Good, May, After, Starts, LeavesOthers;
    if n == 0 {
      StartsGood(ms[0], sb);
    } else {
      RunGood(ms, es, sb, n - 1);
      StepGood(ms[n - 1], sb, es[n - 1]);
    }
  }

  /** Slot k of inode i names block b and has not been freed. */
  ghost predicate LiveName(m: Sys, b: nat, i: nat, k: nat) {
    b != 0 && i < |m.jobs| && Slot(m.s, i, k) == b && !IsDead(m.jobs[i], k)
  }

  /** Block b is on its way into a slot of inode i. */
  predicate OnItsWay(m: Sys, b: nat, i: nat) { i < |m.jobs| && m.jobs[i].Fresh? && m.jobs[i].b == b }

  /** At every moment of every run no "freeing free block" panic has happened, and a data block's bit is set exactly
      when one slot names it or one process is about to make a slot name it: never two, and never both. */
  lemma OwnersOfRun(ms: seq<Sys>, es: seq<Event>, sb: Super, n: nat, b: nat)
    requires Run(ms, es, sb) && n < |ms| && sb.datastart <= b < sb.size
    ensures var m := ms[n];
      && !m.panicked
      && (InUse(m.s, sb, b) <==> (exists i, k :: LiveName(m, b, i, k)) || (exists i :: OnItsWay(m, b, i)))
      && (forall i, k, j, l :: LiveName(m, b, i, k) && LiveName(m, b, j, l) ==> i == j && k == l)
      && (forall i, j :: OnItsWay(m, b, i) && OnItsWay(m, b, j) ==> i == j)
      && (forall i, k, j :: LiveName(m, b, i, k) ==> !OnItsWay(m, b, j))
  {
    RunGood(ms, es, sb, n);
    hide Run;
    OwnersNow(ms[n], sb, b);
  }

  lemma LiveOwner(m: Sys, sb: Super, b: nat, i: nat, k: nat)
    requires Good(m, sb) && LiveName(m, b, i, k)
    ensures b in m.s.owner && m.s.owner[b] == (i, k) && b !in Spare(m.jobs)
  {
    DeadAt(m.jobs, i, k);
    hide Slot, InUse, JobOk, Apart;
  }

  lemma OwnersNow(m: Sys, sb: Super, b: nat)
    requires Good(m, sb) && sb.datastart <= b < sb.size
    ensures InUse(m.s, sb, b) <==> (exists i, k :: LiveName(m, b, i, k)) || (exists i :: OnItsWay(m, b, i))
    ensures forall i, k, j, l :: LiveName(m, b, i, k) && LiveName(m, b, j, l) ==> i == j && k == l
    ensures forall i, j :: OnItsWay(m, b, i) && OnItsWay(m, b, j) ==> i == j
    ensures forall i, k, j :: LiveName(m, b, i, k) ==> !OnItsWay(m, b, j)
  {
    forall i: nat, k: nat | LiveName(m, b, i, k)
      ensures b in m.s.owner && m.s.owner[b] == (i, k) && b !in Spare(m.jobs)
    {
      LiveOwner(m, sb, b, i, k);
    }
    forall i: nat | OnItsWay(m, b, i) ensures b in Spare(m.jobs) {}
    if b in m.s.owner {
      var i, k := m.s.owner[b].0, m.s.owner[b].1;
      OwnerIsLive(m, sb, b);
      assert LiveName(m, b, i, k);
    }
    if b in Spare(m.jobs) {
      var i :| 0 <= i < |m.jobs| && m.jobs[i].Fresh? && m.jobs[i].b == b;
      assert OnItsWay(m, b, i);
    }
    hide Slot, InUse, LiveName, JobOk;
  }

  lemma OwnerIsLive(m: Sys, sb: Super, b: nat)
    requires Good(m, sb) && b in m.s.owner
    ensures LiveName(m, b, m.s.owner[b].0, m.s.owner[b].1)
  {
    var i, k := m.s.owner[b].0, m.s.owner[b].1;
    DeadAt(m.jobs, i, k);
    assert Slot(m.s, i, k) == b && b != 0 && (i, k) !in DeadSlots(m.jobs) by { hide Slot, InUse, JobOk, Apart; }
    assert i < |m.s.inodes| && k < NSLOTS;
  }

  /** Whatever the holder of one inode does, the slots of every other inode and the blocks they name stay as they
      are. */
  lemma OthersOfRun(ms: seq<Sys>, es: seq<Event>, sb: Super, n: nat, b: nat, j: nat, k: nat)
    requires Run(ms, es, sb) && n < |es| && j != es[n].i && LiveName(ms[n], b, j, k)
    ensures n + 1 < |ms| && LiveName(ms[n + 1], b, j, k)
    ensures b < |ms[n].s.blocks| == |ms[n + 1].s.blocks| && ms[n + 1].s.blocks[b] == ms[n].s.blocks[b]
  {
    RunGood(ms, es, sb, n);
    var m, r := ms[n], ms[n + 1];
    assert May(m, sb, es[n]) && r == After(m, sb, es[n]);
    StepGood(m, sb, es[n]);
    LiveOwner(m, sb, b, j, k);
    DeadAt(m.jobs, j, k);
    assert b < |m.s.blocks| by { hide Slot, InUse, JobOk, LeavesOthers, May, After, Run; }
    assert |r.jobs| == |m.jobs| && r.jobs[j] == m.jobs[j] by { hide Good, LeavesOthers, Run; }
    hide Run, May, After, Books, JobOk, Apart, Slot;
  }

  /** At every moment of every run an inode that is free on disk names no block, in memory or on disk, and no block is
      on its way into it. */
  lemma FreeInodesOfRun(ms: seq<Sys>, es: seq<Event>, sb: Super, n: nat, i: nat)
    requires Run(ms, es, sb) && n < |ms| && i < |ms[n].jobs| && Type(OnDiskNow(ms[n].s, sb, i)) == 0
    ensures Bare(OnDiskNow(ms[n].s, sb, i))
    ensures (forall b, k :: !LiveName(ms[n], b, i, k)) && forall b :: !OnItsWay(ms[n], b, i)
  {
    RunGood(ms, es, sb, n);
    var m := ms[n];
    assert JobOk(m.s, sb, i, m.jobs[i]) && m.jobs[i].Idle?;
    BareSlots(m.s, i);
    hide Run, Good, Slot, DiskInode;
    forall b, k ensures !LiveName(m, b, i, k) { assert Slot(m.s, i, k) == 0; }
  }
}

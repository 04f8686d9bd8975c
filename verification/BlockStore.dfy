/** The buffer cache of kernel/bio.c under the redo log of kernel/log.c.  Each method of Store is one atomic step
    (a bcache.lock or log.lock critical section, or code run by the holder of a buffer's sleep-lock) or, for the
    commit path, a sequence of them.  The ghost `view` is the plain block map being refined: the last bytes a lock
    holder left in each block. */
module BlockStore {
  import opened Blocks
  import opened Crash
  import opened LruRing
  import opened Params

  const DEV := 1

  datatype Buf = Buf(dev: nat, blockno: nat, valid: bool, refcnt: nat, locked: bool, data: Block)

  datatype Option<T> = None | Some(value: T)

  /** Where the log is: between commits; commit() with t blocks copied to the log; commit() with t blocks
      installed; or with nothing pinned while the header is being cleared (or the log recovered at boot). */
  datatype Phase = Idle | Logging(t: nat) | Installing(t: nat) | Clearing

  /** bcache, log and the disk, with the ghosts that explain them. */
  datatype State = State(
    disk: Disk, buf: seq<Buf>, links: Links, lh: seq<nat>, outstanding: nat, committing: bool,
    order: seq<nat>,      // the LRU ring
    at: map<nat, nat>,    // the buffer of each cached block
    held: seq<nat>,       // references held by users of each buffer
    pins: set<nat>,       // blocks pinned by the log
    view: Disk,           // the refined block map
    phase: Phase,
    boot: Disk, issued: seq<Write>)  // the disk at boot and every block write since

  // ---------- The invariant ----------

  ghost predicate Indexed(buf: seq<Buf>, at: map<nat, nat>, size: nat) {
    && |buf| == NBUF
    && (forall i :: 0 <= i < NBUF && buf[i].dev == DEV ==> buf[i].blockno in at && at[buf[i].blockno] == i)
    && (forall b <- at :: b < size && at[b] < NBUF && buf[at[b]].dev == DEV && buf[at[b]].blockno == b)
    && (forall i :: 0 <= i < NBUF && buf[i].valid ==> buf[i].dev == DEV)
  }

  /** A valid buffer holds the block map's bytes; a block whose disk copy is stale has a valid buffer that is
      locked or pinned by the log. */
  ghost predicate Coherent(buf: seq<Buf>, at: map<nat, nat>, view: Disk, disk: Disk, pins: set<nat>)
    requires Indexed(buf, at, |disk|)
  {
    && |view| == |disk|
    && (forall i :: 0 <= i < NBUF && buf[i].valid ==> buf[i].data == view[buf[i].blockno])
    && (forall b :: 0 <= b < |disk| && view[b] != disk[b] ==>
          b in at && buf[at[b]].valid && (buf[at[b]].locked || b in pins))
    && (forall b <- pins :: b in at && buf[at[b]].valid)
  }

  /** A buffer's refcnt is the references its users hold plus one if the log pins it. */
  ghost predicate Counted(buf: seq<Buf>, held: seq<nat>, pins: set<nat>)
    requires |buf| == NBUF
  {
    && |held| == NBUF
    && (forall i :: 0 <= i < NBUF ==>
          buf[i].refcnt == held[i] + (if buf[i].dev == DEV && buf[i].blockno in pins then 1 else 0))
    && (forall i :: 0 <= i < NBUF && buf[i].locked ==> held[i] >= 1 && buf[i].valid)
  }

  ghost predicate CacheOk(s: State) {
    && Indexed(s.buf, s.at, |s.disk|)
    && Coherent(s.buf, s.at, s.view, s.disk, s.pins)
    && Counted(s.buf, s.held, s.pins)
  }

  ghost function SetOf(bs: seq<nat>): (r: set<nat>) { set b | b in bs }

  /** The first t log blocks hold the bytes of the first t logged blocks. */
  ghost predicate Copied(disk: Disk, view: Disk, start: nat, lh: seq<nat>, t: nat)
    requires start + LOGBLOCKS < |disk| == |view| && HomeBlocks(|disk|, start, lh) && t <= |lh|
  { forall i :: 0 <= i < t ==> disk[start + 1 + i] == view[lh[i]] }

  ghost predicate PhaseOk(phase: Phase, disk: Disk, view: Disk, start: nat, lh: seq<nat>, pins: set<nat>) {
    start + LOGBLOCKS < |disk| == |view| && HomeBlocks(|disk|, start, lh) &&
    match phase
    case Idle => pins == SetOf(lh) && Word(disk[start], 0) == 0
    case Logging(t) => t <= |lh| && pins == SetOf(lh) && Word(disk[start], 0) == 0 && Copied(disk, view, start, lh, t)
    case Installing(t) => t <= |lh| && pins == SetOf(lh[t..]) && Copied(disk, view, start, lh, |lh|)
    case Clearing => pins == {}
  }

  ghost predicate Inv(s: State, start: nat) {
    && RingOk(s.links, s.order) && Full(s.order)
    && start + LOGBLOCKS < |s.disk| <= 0x1_0000_0000
    && CacheOk(s)
    && HomeBlocks(|s.disk|, start, s.lh)
    && PhaseOk(s.phase, s.disk, s.view, start, s.lh, s.pins)
    && s.disk == Apply(s.boot, s.issued)
  }

  lemma InvShape(s: State, start: nat)
    requires Inv(s, start)
    ensures |s.buf| == |s.held| == |s.order| == NBUF && IsOrder(s.order)
    ensures forall b <- s.at :: s.at[b] < NBUF
  { hide PhaseOk, HomeBlocks, Coherent, Apply; }

  // ---------- The steps, and what each keeps ----------

  /** Every buffer used less recently than p is referenced. */
  ghost predicate LeastRecent(s: State, p: nat)
    requires |s.buf| == NBUF == |s.order| && IsOrder(s.order)
  { exists k :: 0 <= k < NBUF && s.order[k] == p && forall j :: k < j < NBUF ==> s.buf[s.order[j]].refcnt > 0 }

  /** bget's choice: the block's own buffer, or else the least recently used one that nobody references. */
  ghost predicate Chosen(s: State, b: nat, p: nat)
    requires |s.buf| == NBUF == |s.order| && IsOrder(s.order)
  { p < NBUF && if b in s.at then p == s.at[b] else s.buf[p].refcnt == 0 && LeastRecent(s, p) }

  ghost function Got(s: State, b: nat, p: nat): (t: State)
    requires p < |s.buf| && p < |s.held|
  {
    if b in s.at then
      s.(buf := s.buf[p := s.buf[p].(refcnt := s.buf[p].refcnt + 1)], held := s.held[p := s.held[p] + 1])
    else
      s.(buf := s.buf[p := s.buf[p].(dev := DEV, blockno := b, valid := false, refcnt := 1)],
         at := (if s.buf[p].dev == DEV then s.at - {s.buf[p].blockno} else s.at)[b := p],
         held := s.held[p := 1])
  }

  lemma GotCached(s: State, b: nat, p: nat)
    requires CacheOk(s) && b in s.at && p == s.at[b]
    ensures CacheOk(Got(s, b, p))
  {}

  lemma RecycledIndexed(s: State, b: nat, p: nat)
    requires Indexed(s.buf, s.at, |s.disk|) && |s.held| == NBUF && b < |s.disk| && b !in s.at && p < NBUF
    ensures Indexed(Got(s, b, p).buf, Got(s, b, p).at, |s.disk|)
    ensures forall c <- s.at :: s.at[c] != p ==> c in Got(s, b, p).at && Got(s, b, p).at[c] == s.at[c]
  {}

  /** An unreferenced buffer is not locked, and its block is neither pinned nor ahead of the disk. */
  lemma RecycledClean(s: State, b: nat, p: nat)
    requires CacheOk(s) && p < NBUF && s.buf[p].refcnt == 0 && b < |s.disk|
    requires b in s.at ==> s.at[b] == p
    ensures s.held[p] == 0 && !s.buf[p].locked && b !in s.pins && s.view[b] == s.disk[b]
  {}

  lemma RecycledCounted(s: State, b: nat, p: nat)
    requires CacheOk(s) && b < |s.disk| && b !in s.at && p < NBUF && s.buf[p].refcnt == 0
    ensures Counted(Got(s, b, p).buf, Got(s, b, p).held, s.pins)
  {
    RecycledClean(s, b, p);
    hide Coherent, Indexed;
  }

  /** Evicting an unreferenced buffer loses nothing, because its block is clean. */
  lemma GotRecycled(s: State, b: nat, p: nat)
    requires CacheOk(s) && b < |s.disk| && b !in s.at && p < NBUF && s.buf[p].refcnt == 0
    ensures CacheOk(Got(s, b, p))
  {
    var t := Got(s, b, p);
    RecycledIndexed(s, b, p);
    RecycledCounted(s, b, p);
    forall c | 0 <= c < |s.disk| && (s.view[c] != s.disk[c] || c in s.pins)
      ensures c in s.at && s.at[c] != p
    {
      if c !in s.at || s.at[c] == p { RecycledClean(s, c, p); }
    }
    hide Counted;
  }

  lemma GotFree(s: State, start: nat, b: nat, p: nat)
    requires Inv(s, start) && b < |s.disk| && Chosen(s, b, p) && Unheld(s, b)
    ensures |s.buf| == |s.held| == NBUF && p < NBUF && !s.buf[p].locked && b < |s.view|
    ensures var t := Got(s, b, p);
      && |t.buf| == |t.held| == NBUF && t.buf[p].dev == DEV && t.buf[p].blockno == b && !t.buf[p].locked
      && t.buf[p].refcnt == s.buf[p].refcnt + 1 && t.held == s.held[p := s.held[p] + 1]
  { hide RingOk, Full, HomeBlocks, PhaseOk, Apply, LeastRecent; }

  lemma FetchedIs(s: State, start: nat, b: nat, p: nat)
    requires Inv(s, start) && b < |s.disk| && Chosen(s, b, p) && Unheld(s, b)
    requires p < |Got(s, b, p).buf| && Got(s, b, p).buf[p].blockno == b < |s.view|
    requires Locked(Got(s, b, p), p).buf[p].data == s.view[b]
    ensures Fetched(s, Locked(Got(s, b, p), p), b, p)
  {
    hide Inv, Chosen, Unheld;
    GotFree(s, start, b, p);
  }

  lemma GotKeeps(s: State, start: nat, b: nat, p: nat)
    requires Inv(s, start) && b < |s.disk| && Chosen(s, b, p)
    ensures Inv(Got(s, b, p), start)
    ensures SameIdentity(s, Got(s, b, p))
  {
    hide RingOk, Full, HomeBlocks, PhaseOk, Coherent, LeastRecent;
    if b in s.at { GotCached(s, b, p); } else { GotRecycled(s, b, p); }
  }

  /** A buffer keeps its identity while anyone references it. */
  ghost predicate SameIdentity(s: State, t: State) {
    |s.buf| == |t.buf| && forall i :: 0 <= i < |s.buf| && s.buf[i].refcnt > 0 ==>
      t.buf[i].dev == s.buf[i].dev && t.buf[i].blockno == s.buf[i].blockno
  }

  /** acquiresleep, then bread's fill from the disk. */
  ghost function Locked(s: State, p: nat): (t: State)
    requires p < |s.buf| && s.buf[p].blockno < |s.disk|
  {
    var q := s.buf[p];
    s.(buf := s.buf[p := q.(locked := true, valid := true, data := if q.valid then q.data else s.disk[q.blockno])])
  }

  /** The heart of the refinement: whoever locks a buffer finds in it the last bytes a holder left in its block. */
  lemma LockedSeesView(s: State, p: nat)
    requires CacheOk(s) && p < NBUF && s.buf[p].dev == DEV && s.held[p] >= 1 && !s.buf[p].locked
    ensures s.buf[p].blockno < |s.disk| == |s.view|
    ensures CacheOk(Locked(s, p)) && Locked(s, p).buf[p].data == s.view[s.buf[p].blockno]
  {}

  lemma LockedKeepsInv(s: State, start: nat, p: nat)
    requires Inv(s, start) && p < NBUF == |s.buf| == |s.held|
    requires s.buf[p].dev == DEV && s.held[p] >= 1 && !s.buf[p].locked
    ensures s.buf[p].blockno < |s.disk| == |s.view| && Inv(Locked(s, p), start)
    ensures Locked(s, p).buf[p].data == s.view[s.buf[p].blockno]
  {
    LockedSeesView(s, p);
    hide RingOk, Full, HomeBlocks, PhaseOk, Apply, Indexed, Coherent, Counted;
  }

  /** The holder changes the buffer's bytes. */
  ghost function Stored(s: State, p: nat, data: Block): (t: State)
    requires p < |s.buf| && s.buf[p].blockno < |s.view|
  { s.(buf := s.buf[p := s.buf[p].(data := data)], view := s.view[s.buf[p].blockno := data]) }

  lemma StoredKeeps(s: State, p: nat, data: Block)
    requires CacheOk(s) && p < NBUF && s.buf[p].locked
    ensures s.buf[p].blockno < |s.view| && CacheOk(Stored(s, p, data))
  {}

  /** During a commit only the log's own area changes, or nothing does. */
  lemma StoredKeepsInv(s: State, start: nat, p: nat, data: Block)
    requires Inv(s, start) && p < NBUF == |s.buf| && s.buf[p].locked
    requires s.phase.Idle? || s.phase.Clearing? || InLog(start, s.buf[p].blockno) || data == s.buf[p].data
    ensures s.buf[p].blockno < |s.view| && Inv(Stored(s, p, data), start)
  {
    StoredKeeps(s, p, data);
    StoredKeepsPhase(s, start, p, data);
    hide RingOk, Full, HomeBlocks, PhaseOk, Apply, Indexed, Coherent, Counted;
  }

  lemma StoredKeepsPhase(s: State, start: nat, p: nat, data: Block)
    requires CacheOk(s) && PhaseOk(s.phase, s.disk, s.view, start, s.lh, s.pins) && p < NBUF && s.buf[p].locked
    requires s.phase.Idle? || s.phase.Clearing? || InLog(start, s.buf[p].blockno) || data == s.buf[p].data
    ensures s.buf[p].blockno < |s.view|
    ensures PhaseOk(s.phase, s.disk, s.view[s.buf[p].blockno := data], start, s.lh, s.pins)
  {}

  ghost function Written(s: State, p: nat): (t: State)
    requires p < |s.buf| && s.buf[p].blockno < |s.disk|
  {
    var q := s.buf[p];
    s.(disk := s.disk[q.blockno := q.data], issued := s.issued + [Write(q.blockno, q.data)])
  }

  lemma WrittenKeeps(s: State, p: nat)
    requires CacheOk(s) && p < NBUF && s.buf[p].locked
    ensures s.buf[p].blockno < |s.disk| && CacheOk(Written(s, p))
  {}

  ghost function Unlocked(s: State, p: nat): (t: State)
    requires p < |s.buf| && p < |s.held| && s.buf[p].refcnt >= 1 && s.held[p] >= 1
  {
    s.(buf := s.buf[p := s.buf[p].(locked := false, refcnt := s.buf[p].refcnt - 1)],
       held := s.held[p := s.held[p] - 1])
  }

  lemma WrittenKeepsInv(s: State, start: nat, p: nat, next: Phase)
    requires Inv(s, start) && p < NBUF && s.buf[p].locked && s.buf[p].blockno < |s.disk|
    requires PhaseOk(next, s.disk[s.buf[p].blockno := s.buf[p].data], s.view, start, s.lh, s.pins)
    ensures Inv(Written(s, p).(phase := next), start)
  {
    WrittenKeeps(s, p);
    var t := Written(s, p);
    assert t.issued[..|t.issued| - 1] == s.issued;
    hide RingOk, Full, PhaseOk, HomeBlocks, Indexed, Coherent, Counted;
  }

  /** What a holder owes before brelse: bytes that differ from the disk have been logged. */
  ghost predicate MayRelease(s: State, p: nat) {
    && p < |s.buf| && s.buf[p].blockno < |s.disk|
    && (s.buf[p].blockno in s.pins || s.buf[p].data == s.disk[s.buf[p].blockno])
  }

  /** releasesleep: from here on anyone may lock the buffer, although the releaser still references it. */
  ghost function Released(s: State, p: nat): (t: State)
    requires p < |s.buf|
  { s.(buf := s.buf[p := s.buf[p].(locked := false)]) }

  lemma ReleasedKeeps(s: State, p: nat)
    requires CacheOk(s) && p < NBUF && s.buf[p].locked && MayRelease(s, p)
    ensures CacheOk(Released(s, p))
  {}

  lemma ReleasedKeepsInv(s: State, start: nat, p: nat)
    requires Inv(s, start) && p < NBUF && s.buf[p].locked && MayRelease(s, p)
    ensures p < |s.buf| && p < |s.held| && s.held[p] >= 1 && Inv(Released(s, p), start)
  {
    ReleasedKeeps(s, p);
    hide RingOk, Full, Apply, PhaseOk, HomeBlocks, Indexed, Coherent;
  }

  /** The reference goes; if somebody else has locked the buffer meanwhile, that one holds another. */
  ghost function Dropped(s: State, p: nat): (t: State)
    requires p < |s.buf| && p < |s.held| && s.buf[p].refcnt >= 1 && s.held[p] >= 1
  { s.(buf := s.buf[p := s.buf[p].(refcnt := s.buf[p].refcnt - 1)], held := s.held[p := s.held[p] - 1]) }

  lemma DroppedKeeps(s: State, p: nat)
    requires CacheOk(s) && p < NBUF && s.held[p] >= (if s.buf[p].locked then 2 else 1)
    ensures s.buf[p].refcnt >= 1 && CacheOk(Dropped(s, p))
  {}

  lemma DroppedKeepsInv(s: State, start: nat, p: nat)
    requires Inv(s, start) && p < NBUF == |s.buf| == |s.held| && s.held[p] >= (if s.buf[p].locked then 2 else 1)
    ensures s.buf[p].refcnt >= 1 && Inv(Dropped(s, p), start)
  {
    DroppedKeeps(s, p);
    hide RingOk, Full, Apply, PhaseOk, HomeBlocks, Indexed, Coherent, Counted;
  }

  /** The relinking at the end of brelse. */
  lemma FrontKeepsInv(s: State, start: nat, p: nat) returns (k: nat)
    requires Inv(s, start) && p < NBUF
    ensures k < NBUF == |s.order| && s.order[k] == p
    ensures |s.links.next| == |s.links.prev| == NBUF + 1 && s.links.next[p] <= NBUF && s.links.prev[p] <= NBUF
    ensures Unlink(s.links, p).next[HEAD] <= NBUF
    ensures Inv(s.(links := LinkFront(Unlink(s.links, p), p), order := Used(s.order, k)), start)
  {
    hide Apply, PhaseOk, HomeBlocks, Indexed, Coherent, Counted;
    assert p in s.order;
    k :| k < NBUF && s.order[k] == p;
    MoveToFront(s.links, s.order, k);
  }

  ghost predicate Linked(s: State, p: nat) {
    && p < NBUF && p in s.order && |s.links.next| == |s.links.prev| == NBUF + 1
    && s.links.next[p] <= NBUF && s.links.prev[p] <= NBUF && Unlink(s.links, p).next[HEAD] <= NBUF
  }

  /** brelse's whole critical section. */
  ghost function Put(s: State, p: nat): (t: State)
    requires p < |s.buf| && p < |s.held| && s.buf[p].refcnt >= 1 && s.held[p] >= 1
  {
    var t := Dropped(s, p);
    if t.buf[p].refcnt == 0 && Linked(s, p) then
      var k :| 0 <= k < |s.order| && s.order[k] == p;
      t.(links := LinkFront(Unlink(s.links, p), p), order := Used(s.order, k))
    else t
  }

  lemma PutKeepsInv(s: State, start: nat, p: nat)
    requires Inv(s, start) && p < NBUF == |s.buf| == |s.held| && s.held[p] >= (if s.buf[p].locked then 2 else 1)
    ensures s.buf[p].refcnt >= 1 && Linked(s, p) && Inv(Put(s, p), start)
  {
    DroppedKeepsInv(s, start, p);
    var j := FrontKeepsInv(Dropped(s, p), start, p);
    assert IsOrder(s.order) && forall k :: 0 <= k < |s.order| && s.order[k] == p ==> k == j;
    hide Inv;
  }

  ghost function Pinned(s: State, p: nat): (t: State)
    requires p < |s.buf|
  {
    s.(buf := s.buf[p := s.buf[p].(refcnt := s.buf[p].refcnt + 1)], pins := s.pins + {s.buf[p].blockno})
  }

  lemma PinnedKeeps(s: State, p: nat)
    requires CacheOk(s) && p < NBUF && s.buf[p].locked && s.buf[p].blockno !in s.pins
    ensures CacheOk(Pinned(s, p))
  {}

  ghost function Unpinned(s: State, p: nat): (t: State)
    requires p < |s.buf| && s.buf[p].refcnt >= 1
  {
    s.(buf := s.buf[p := s.buf[p].(refcnt := s.buf[p].refcnt - 1)], pins := s.pins - {s.buf[p].blockno})
  }

  lemma UnpinnedKeeps(s: State, p: nat)
    requires CacheOk(s) && p < NBUF && s.buf[p].locked && s.buf[p].blockno in s.pins
    requires s.buf[p].blockno < |s.disk| && s.buf[p].data == s.disk[s.buf[p].blockno]
    ensures s.buf[p].refcnt >= 1 && CacheOk(Unpinned(s, p))
  {}

  /** bget panics: the block is not cached and every buffer is referenced. */
  ghost predicate NoBuffer(s: State, b: nat) {
    b !in s.at && forall i :: 0 <= i < |s.buf| ==> s.buf[i].refcnt > 0
  }

  /** Nobody has block b locked. */
  ghost predicate Unheld(s: State, b: nat) { b in s.at ==> s.at[b] < |s.buf| && !s.buf[s.at[b]].locked }

  /** bread put block b in buffer p, which nobody had locked: it is locked, has one more reference and holds the
      block map's bytes; everything else is as it was. */
  ghost predicate Fetched(s: State, t: State, b: nat, p: nat) {
    && |s.buf| == |s.held| == NBUF && p < NBUF && b < |s.view| && !s.buf[p].locked
    && t == s.(buf := s.buf[p := Buf(DEV, b, true, s.buf[p].refcnt + 1, true, s.view[b])],
               at := t.at, held := s.held[p := s.held[p] + 1])
  }

  ghost predicate NoHolders(held: seq<nat>) { forall i :: 0 <= i < |held| ==> held[i] == 0 }

  /** With nobody holding a buffer, fewer pins than buffers leave one to recycle. */
  lemma SomeBufferFree(s: State)
    requires CacheOk(s) && NoHolders(s.held) && |s.pins| < NBUF
    ensures exists i :: 0 <= i < NBUF && s.buf[i].refcnt == 0
  {
    if forall i :: 0 <= i < NBUF ==> s.buf[i].refcnt != 0 { ReferencedMeansPinned(s); }
  }

  lemma ReferencedMeansPinned(s: State)
    requires CacheOk(s) && NoHolders(s.held) && forall i :: 0 <= i < NBUF ==> s.buf[i].refcnt != 0
    ensures |s.pins| >= NBUF
  {
    IndexSize(s.buf, s.at, |s.disk|, NBUF);
    var bs := Below(s.at, NBUF);
    assert bs <= s.pins;
    assert s.pins == bs + (s.pins - bs);
  }

  ghost function Below(at: map<nat, nat>, n: nat): (bs: set<nat>) { set b | b in at && at[b] < n }

  lemma {:induction false} IndexSize(buf: seq<Buf>, at: map<nat, nat>, size: nat, n: nat)
    requires Indexed(buf, at, size) && n <= NBUF && forall i :: 0 <= i < n ==> buf[i].dev == DEV
    ensures |Below(at, n)| == n
  {
    if n > 0 {
      IndexSize(buf, at, size, n - 1);
      assert Below(at, n) == Below(at, n - 1) + {buf[n - 1].blockno};
    } else {
      assert Below(at, n) == {};
    }
  }

  /** log_write of a block the log does not hold yet. */
  ghost function Logged(s: State, p: nat): (t: State)
    requires p < |s.buf|
  { Pinned(s, p).(lh := s.lh + [s.buf[p].blockno]) }

  lemma LoggedKeeps(s: State, start: nat, p: nat)
    requires Inv(s, start) && s.phase.Idle? && |s.lh| < LOGBLOCKS
    requires p < NBUF && s.buf[p].locked && s.buf[p].blockno !in s.lh && !InLog(start, s.buf[p].blockno)
    ensures Inv(Logged(s, p), start)
  {
    hide RingOk, Full, Apply;
    PinnedKeeps(s, p);
    var b := s.buf[p].blockno;
    assert SetOf(s.lh + [b]) == SetOf(s.lh) + {b};
  }

  ghost predicate Paired(s: State, t: State, b: nat, c: nat, p: nat, q: nat) {
    && |s.buf| == |s.held| == NBUF && p < NBUF && q < NBUF && p != q && b < |s.view| && c < |s.view|
    && t == s.(buf := s.buf[p := Buf(DEV, b, true, s.buf[p].refcnt + 1, true, s.view[b])]
                           [q := Buf(DEV, c, true, s.buf[q].refcnt + 1, true, s.view[c])],
               at := t.at, held := s.held[p := s.held[p] + 1][q := s.held[q] + 1])
  }

  /** Both locks released and both references dropped. */
  ghost predicate Unpaired(s: State, u: State, p: nat, q: nat) {
    && |s.buf| == |s.held| == NBUF && p < NBUF && q < NBUF && p != q
    && s.buf[p].refcnt >= 1 && s.held[p] >= 1 && s.buf[q].refcnt >= 1 && s.held[q] >= 1
    && u == s.(buf := s.buf[p := s.buf[p].(locked := false, refcnt := s.buf[p].refcnt - 1)]
                           [q := s.buf[q].(locked := false, refcnt := s.buf[q].refcnt - 1)],
               held := s.held[p := s.held[p] - 1][q := s.held[q] - 1], links := u.links, order := u.order)
  }

  lemma FirstReady(s: State, start: nat, t: nat)
    requires Inv(s, start) && NoHolders(s.held) && |s.pins| < NBUF && t < |s.lh|
    ensures start + 1 + t < |s.disk| && s.lh[t] < |s.disk| && start + 1 + t != s.lh[t]
    ensures Unheld(s, start + 1 + t) && !NoBuffer(s, start + 1 + t)
  { SomeBufferFree(s); }

  /** After fetching block b with nobody else about, block c can be fetched too. */
  lemma SecondReady(s: State, t: State, start: nat, b: nat, c: nat, p: nat)
    requires Inv(s, start) && NoHolders(s.held) && Inv(t, start) && Fetched(s, t, b, p)
    requires b != c && (c in s.pins || s.pins == {})
    ensures Unheld(t, c) && !NoBuffer(t, c)
  {
    hide RingOk, Full, PhaseOk, Apply, HomeBlocks;
    if c !in t.at { assert t.buf[(p + 1) % NBUF].refcnt == 0; }
  }

  lemma PairFetched(s: State, t: State, u: State, b: nat, c: nat, p: nat, q: nat)
    requires Fetched(s, t, b, p) && Fetched(t, u, c, q)
    ensures Paired(s, u, b, c, p, q)
  {}

  /** One turn of write_log: log block t now holds, on disk, the bytes of the t-th logged block. */
  ghost predicate LogTurn(s: State, u: State, start: nat, t: nat) {
    && t < |s.lh| && s.lh[t] < |s.view| == |s.disk| && start + 1 + t < |s.disk|
    && var lb, v := start + 1 + t, s.view[s.lh[t]];
       u == s.(disk := s.disk[lb := v], view := s.view[lb := v], phase := Logging(t + 1),
               issued := s.issued + [Write(lb, v)], buf := u.buf, links := u.links, order := u.order, at := u.at)
  }

  lemma LogTurnReady(s: State, s1: State, start: nat, t: nat, p: nat, q: nat)
    requires Inv(s, start) && s.phase == Logging(t) && t < |s.lh|
    requires Inv(s1, start) && Paired(s, s1, start + 1 + t, s.lh[t], p, q)
    ensures s1.buf[p].locked && InLog(start, s1.buf[p].blockno) && s1.buf[q].data == s.view[s.lh[t]]
    ensures s.lh[t] in s.pins && |s.disk| == |s.view|
    ensures var lb, v := start + 1 + t, s.view[s.lh[t]];
      PhaseOk(Logging(t + 1), s.disk[lb := v], s.view[lb := v], start, s.lh, s.pins)
  { hide RingOk, Full, Apply, Indexed, Counted; }

  /** write_head: the header block on disk now names exactly the blocks of log.lh. */
  ghost predicate HeadTurn(s: State, u: State, start: nat, next: Phase) {
    && start < |s.disk| == |s.view| && |s.lh| <= LOGBLOCKS
    && var h := PutHead(s.disk[start], s.lh);
       u == s.(disk := s.disk[start := h], view := s.view[start := h], phase := next,
               issued := s.issued + [Write(start, h)], buf := u.buf, links := u.links, order := u.order, at := u.at)
  }

  /** The header block as write_head has filled it may be written, and released afterwards. */
  lemma HeadFilled(s: State, t: State, start: nat, p: nat, next: Phase)
    requires Fetched(s, t, start, p) && start < |s.disk| == |s.view| && s.view[start] == s.disk[start]
    requires |s.lh| <= LOGBLOCKS
    requires var h := PutHead(s.disk[start], s.lh);
      PhaseOk(next, s.disk[start := h], s.view[start := h], start, s.lh, s.pins)
    ensures p < NBUF == |t.buf| == |t.held| && t.lh == s.lh
    ensures t.buf[p].locked && t.buf[p].blockno == start && t.buf[p].data == s.disk[start]
    ensures |t.disk| == |t.view| == |s.disk|
    ensures var h := PutHead(s.disk[start], s.lh);
      PhaseOk(next, t.disk[start := h], t.view[start := h], start, t.lh, t.pins)
    ensures var w := Written(Stored(t, p, PutHead(s.disk[start], s.lh)), p).(phase := next);
      |w.buf| == |w.held| == NBUF && w.buf[p].locked && MayRelease(w, p)
  { hide PutHead, PhaseOk; }

  lemma HeadTurned(s: State, t: State, u: State, start: nat, p: nat, next: Phase)
    requires Fetched(s, t, start, p) && start < |s.disk| == |s.view| && |s.lh| <= LOGBLOCKS
    requires var w := Written(Stored(t, p, PutHead(s.disk[start], s.lh)), p).(phase := next);
      w.buf[p].refcnt >= 1 && w.held[p] >= 1 && u == Unlocked(w, p).(links := u.links, order := u.order)
    ensures HeadTurn(s, u, start, next) && u.phase == next && u.held == s.held
  { hide PutHead; }

  lemma HeadReady(s: State, start: nat)
    requires Inv(s, start) && NoHolders(s.held) && |s.pins| < NBUF
    ensures start < |s.disk| == |s.view| && s.view[start] == s.disk[start] && |s.lh| <= LOGBLOCKS
    ensures Unheld(s, start) && !NoBuffer(s, start)
  {
    SomeBufferFree(s);
    LogBlockClean(s, start, start);
  }

  /** One turn of install_trans: the t-th logged block holds, on disk, the bytes of log block t. */
  ghost predicate InstallTurn(s: State, u: State, start: nat, t: nat, recovering: bool) {
    && t < |s.lh| && s.lh[t] < |s.view| == |s.disk| && start + 1 + t < |s.disk|
    && var b, v := s.lh[t], s.disk[start + 1 + t];
       u == s.(disk := s.disk[b := v], view := s.view[b := v],
               phase := if recovering then s.phase else Installing(t + 1),
               pins := if recovering then s.pins else s.pins - {b},
               issued := s.issued + [Write(b, v)], buf := u.buf, links := u.links, order := u.order, at := u.at)
  }

  /** A log block nobody holds is clean: the log never pins its own area. */
  lemma LogBlockClean(s: State, start: nat, b: nat)
    requires Inv(s, start) && NoHolders(s.held) && InLog(start, b)
    ensures b < |s.disk| == |s.view| && s.view[b] == s.disk[b]
  { hide RingOk, Full, Apply; }

  lemma InstallReady(s: State, start: nat, t: nat)
    requires Inv(s, start) && NoHolders(s.held) && t < |s.lh|
    requires s.phase == Installing(t) || s.phase == Clearing
    ensures start + 1 + t < |s.disk| == |s.view| && s.lh[t] < |s.disk|
    ensures s.view[start + 1 + t] == s.disk[start + 1 + t]
    ensures s.phase == Installing(t) ==> s.lh[t] in s.pins && s.view[s.lh[t]] == s.disk[start + 1 + t]
    ensures var b, v := s.lh[t], s.disk[start + 1 + t];
      PhaseOk(s.phase, s.disk[b := v], s.view[b := v], start, s.lh, s.pins)
  {
    LogBlockClean(s, start, start + 1 + t);
    hide RingOk, Full, Apply, CacheOk;
  }

  lemma UnpinnedPhase(s: State, start: nat, t: nat)
    requires PhaseOk(s.phase, s.disk, s.view, start, s.lh, s.pins) && s.phase == Installing(t) && t < |s.lh|
    ensures PhaseOk(Installing(t + 1), s.disk, s.view, start, s.lh, s.pins - {s.lh[t]})
  {
    assert s.lh[t..] == [s.lh[t]] + s.lh[t + 1..];
    forall i | t < i < |s.lh| ensures s.lh[i] != s.lh[t] {}
  }

  lemma UnpinnedKeepsInv(s: State, start: nat, p: nat, t: nat)
    requires Inv(s, start) && s.phase == Installing(t) && t < |s.lh| && p < NBUF && s.buf[p].locked
    requires s.buf[p].blockno == s.lh[t] && s.lh[t] in s.pins && s.lh[t] < |s.disk| && s.buf[p].data == s.disk[s.lh[t]]
    ensures s.buf[p].refcnt >= 1 && Inv(Unpinned(s, p).(phase := Installing(t + 1)), start)
  {
    hide RingOk, Full, Apply, Indexed, Coherent, Counted, PhaseOk, HomeBlocks;
    UnpinnedKeeps(s, p);
    UnpinnedPhase(s, start, t);
  }

  /** The transaction in memory: each logged block with the block map's bytes. */
  ghost function Txn(s: State): (ws: seq<Write>)
    ensures |ws| == |s.lh|
  {
    seq(|s.lh|, i requires 0 <= i < |s.lh| =>
      Write(s.lh[i], if s.lh[i] < |s.view| then s.view[s.lh[i]] else Zeroed()))
  }

  /** The transaction in the log area. */
  ghost function Redo(s: State, start: nat): (ws: seq<Write>)
    requires start + LOGBLOCKS < |s.disk| && |s.lh| <= LOGBLOCKS
    ensures |ws| == |s.lh|
  { seq(|s.lh|, i requires 0 <= i < |s.lh| => Write(s.lh[i], s.disk[start + 1 + i])) }

  /** Nothing but the cache, the disk, the block map, the phase and the pins differ, and these writes were issued. */
  ghost predicate Issued(s: State, u: State, ws: seq<Write>) {
    u == s.(disk := u.disk, view := u.view, phase := u.phase, pins := u.pins, issued := s.issued + ws,
            buf := u.buf, links := u.links, order := u.order, at := u.at)
  }

  /** After t turns of write_log. */
  ghost predicate LogTurns(s: State, u: State, start: nat, t: nat) {
    && t <= |s.lh| && Issued(s, u, LogCopies(Txn(s), start)[..t]) && u.phase == Logging(t) && u.pins == s.pins
    && start < |s.disk| == |u.disk| && u.disk[start] == s.disk[start] && SameHome(u.view, s.view, start)
  }

  lemma LogTurnsNone(s: State, start: nat)
    requires Inv(s, start) && s.phase == Logging(0)
    ensures LogTurns(s, s, start, 0)
  { hide RingOk, Full, Apply, CacheOk; }

  lemma LogTurnsStep(s: State, u: State, v: State, start: nat, t: nat)
    requires Inv(u, start) && LogTurns(s, u, start, t) && LogTurn(u, v, start, t)
    ensures LogTurns(s, v, start, t + 1)
  {
    hide RingOk, Full, Apply, Indexed, Counted, PhaseOk;
    var ws := LogCopies(Txn(s), start);
    assert ws[..t + 1] == ws[..t] + [ws[t]];
  }

  lemma PinsOfRest(s: State, start: nat, t: nat)
    requires Inv(s, start) && t < |s.lh|
    requires s.phase == Logging(t) || s.phase == Idle || s.phase == Installing(t)
    ensures s.lh[t] in s.pins
  {}

  /** After t turns of install_trans. */
  ghost predicate InstallTurns(s: State, u: State, start: nat, t: nat, recovering: bool) {
    && start + LOGBLOCKS < |s.disk| == |u.disk| && t <= |s.lh| <= LOGBLOCKS
    && Issued(s, u, Redo(s, start)[..t])
    && (forall b :: InLog(start, b) ==> u.disk[b] == s.disk[b])
    && (if recovering then u.phase == s.phase && u.pins == s.pins else u.phase == Installing(t) && u.view == s.view)
  }

  lemma InstallTurnsNone(s: State, start: nat, recovering: bool)
    requires Inv(s, start) && if recovering then s.phase == Clearing else s.phase == Installing(0)
    ensures InstallTurns(s, s, start, 0, recovering)
  { hide RingOk, Full, Apply, CacheOk, PhaseOk; }

  lemma InstallTurnsStep(s: State, u: State, v: State, start: nat, t: nat, recovering: bool)
    requires InstallTurns(s, u, start, t, recovering) && InstallTurn(u, v, start, t, recovering)
    requires !InLog(start, u.lh[t]) && (!recovering ==> u.view[u.lh[t]] == u.disk[start + 1 + t])
    ensures InstallTurns(s, v, start, t + 1, recovering)
  {
    var ws := Redo(s, start);
    assert u.disk[start + 1 + t] == s.disk[start + 1 + t] by { assert InLog(start, start + 1 + t); }
    assert ws[..t + 1] == ws[..t] + [ws[t]];
    if !recovering { assert v.view == u.view; }
  }

  lemma InstallTurnFacts(s: State, start: nat, t: nat, recovering: bool)
    requires Inv(s, start) && t < |s.lh|
    requires if recovering then s.phase == Clearing else s.phase == Installing(t)
    ensures !InLog(start, s.lh[t]) && s.lh[t] < |s.view| && start + 1 + t < |s.disk|
    ensures if recovering then s.pins == {} else
      s.lh[t] in s.pins && s.view[s.lh[t]] == s.disk[start + 1 + t] && |s.pins| <= |SetOf(s.lh)|
  {
    hide RingOk, Full, Apply, Indexed, Counted;
    assert SetOf(s.lh) == SetOf(s.lh[t..]) + (SetOf(s.lh) - SetOf(s.lh[t..]));
  }

  /** Copied in full, the transaction in the log area is the one in memory. */
  lemma RedoIsTxn(s: State, start: nat)
    requires Inv(s, start) && s.phase == Installing(0)
    ensures start + LOGBLOCKS < |s.disk| && |s.lh| <= LOGBLOCKS && Redo(s, start) == Txn(s)
  { hide RingOk, Full, Apply; }

  /** With the log empty and nobody holding a buffer, the disk is the block map. */
  lemma QuietMeansClean(s: State, start: nat)
    requires Inv(s, start) && NoHolders(s.held) && s.phase == Idle && s.lh == []
    ensures s.view == s.disk && s.pins == {}
  {
    hide RingOk, Full, Apply;
    forall b | 0 <= b < |s.disk| ensures s.view[b] == s.disk[b] {}
  }

  /** Between commits the disk and the transaction in memory are what the crash argument starts from. */
  lemma IdleIsClean(s: State, start: nat)
    requires Inv(s, start) && s.phase == Idle
    ensures Clean(s.disk, start) && IsTransaction(s.disk, start, Txn(s)) && Bnos(Txn(s)) == s.lh
  { hide RingOk, Full, Apply, CacheOk; }

  lemma StartLogging(s: State, start: nat)
    requires Inv(s, start) && s.phase == Idle
    ensures Inv(s.(phase := Logging(0)), start)
  { hide RingOk, Full, Apply, Indexed, Coherent, Counted; }

  lemma HeadSwitch(s: State, start: nat)
    requires Inv(s, start) && s.phase == Logging(|s.lh|)
    ensures start < |s.disk| == |s.view| && |s.lh| <= LOGBLOCKS
    ensures var h := PutHead(s.disk[start], s.lh);
      PhaseOk(Installing(0), s.disk[start := h], s.view[start := h], start, s.lh, s.pins)
  {
    hide RingOk, Full, Apply, Indexed, Counted;
    assert s.lh[0..] == s.lh;
  }

  lemma HeadClear(s: State, start: nat)
    requires Inv(s, start) && (s.phase == Installing(|s.lh|) || s.phase == Clearing)
    ensures start < |s.disk| == |s.view| && s.pins == {}
    ensures Inv(s.(lh := [], phase := Clearing), start)
    ensures var h := PutHead(s.disk[start], []);
      PhaseOk(Idle, s.disk[start := h], s.view[start := h], start, [], {})
  { hide RingOk, Full, Apply, Indexed, Counted; }

  /** What commit() leaves: the log is empty and the writes issued are exactly the protocol's. */
  ghost predicate CommitDone(s: State, u: State, start: nat) {
    && start < |s.disk| && |s.lh| <= LOGBLOCKS
    && u.lh == [] && u.phase == Idle && u.held == s.held && u.boot == s.boot
    && u.issued == s.issued + CommitWrites(s.disk, start, Txn(s))
    && SameHome(u.view, s.view, start) && u.view == u.disk
  }

  /** What write_log and the first write_head leave: the transaction is logged and no home block has moved. */
  ghost predicate LoggedTo(s: State, c: State, start: nat) {
    && start < |s.disk| == |c.disk| && |s.lh| <= LOGBLOCKS && c.lh == s.lh && c.held == s.held && c.boot == s.boot
    && Txn(c) == Txn(s) && SameHome(c.view, s.view, start) && c.disk[start] == PutHead(s.disk[start], s.lh)
    && c.issued == s.issued + LoggedWrites(s.disk, start, Txn(s))
  }

  lemma LoggedStage(s: State, b: State, c: State, start: nat)
    requires Inv(s, start) && s.phase == Idle
    requires LogTurns(s.(phase := Logging(0)), b, start, |s.lh|) && HeadTurn(b, c, start, Installing(0))
    ensures LoggedTo(s, c, start)
  {
    hide RingOk, Full, Apply, Indexed, Counted, PutHead;
    IdleIsClean(s, start);
    var a := s.(phase := Logging(0));
    assert Txn(a) == Txn(s);
    assert LogCopies(Txn(a), start)[..|s.lh|] == LogCopies(Txn(s), start);
    forall i | 0 <= i < |s.lh| ensures Txn(c)[i] == Txn(s)[i] { assert !InLog(start, s.lh[i]); }
  }

  /** install_trans issues the transaction's own writes. */
  lemma InstallStage(c: State, d: State, start: nat)
    requires Inv(c, start) && c.phase == Installing(0) && InstallTurns(c, d, start, |c.lh|, false)
    ensures start < |d.disk| && start < |c.disk| && d.disk[start] == c.disk[start]
    ensures d.issued == c.issued + Txn(c) && d.view == c.view && d.held == c.held && d.boot == c.boot
  {
    RedoIsTxn(c, start);
    hide Inv;
    assert Redo(c, start)[..|c.lh|] == Redo(c, start);
    assert InLog(start, start);
  }

  lemma CommitStages(s: State, c: State, d: State, e: State, start: nat)
    requires LoggedTo(s, c, start) && Bnos(Txn(s)) == s.lh && s.lh != []
    requires Inv(c, start) && c.phase == Installing(0) && InstallTurns(c, d, start, |c.lh|, false)
    requires HeadTurn(d.(lh := [], phase := Clearing), e, start, Idle) && e.view == e.disk
    ensures CommitDone(s, e, start)
  {
    hide Inv, PutHead, InstallTurns;
    InstallStage(c, d, start);
    var h := PutHead(s.disk[start], s.lh);
    assert e.issued == s.issued + (LoggedWrites(s.disk, start, Txn(s)) + Txn(s) + [Write(start, PutHead(h, []))]);
  }

  /** What recover_from_log() leaves. */
  ghost predicate RecoverDone(s: State, u: State, start: nat) {
    && start + LOGBLOCKS < |s.disk|
    && u.lh == [] && u.phase == Idle && u.held == s.held && u.boot == s.boot
    && u.issued == s.issued + RecoverWrites(s.disk, start) && u.view == u.disk
  }

  lemma HeadLoaded(s: State, start: nat)
    requires Inv(s, start) && s.phase == Clearing && WellFormed(s.disk, start)
    ensures Inv(s.(lh := HeadOf(s.disk[start])), start)
  { hide RingOk, Full, Apply, Indexed, Coherent, Counted; }

  lemma RecoverStages(s: State, b: State, d: State, e: State, start: nat)
    requires start + LOGBLOCKS < |s.disk| && WellFormed(s.disk, start)
    requires b == s.(buf := b.buf, links := b.links, order := b.order, at := b.at, lh := HeadOf(s.disk[start]))
    requires InstallTurns(b, d, start, |b.lh|, true)
    requires HeadTurn(d.(lh := [], phase := Clearing), e, start, Idle) && e.view == e.disk
    ensures RecoverDone(s, e, start)
  {
    hide PutHead, HeadOf;
    assert Redo(b, start)[..|b.lh|] == Pending(s.disk, start);
    assert d.disk[start] == s.disk[start] by { assert InLog(start, start); }
  }

  lemma NothingToCommit(s: State, start: nat)
    requires Inv(s, start) && s.phase == Idle && s.lh == [] && s.view == s.disk
    ensures CommitDone(s, s, start)
  { hide RingOk, Full, Apply, Indexed, Coherent, Counted; }

  /** begin_op and end_op touch only the log's two counters. */
  lemma OpsKeepInv(s: State, start: nat, outstanding: nat, committing: bool)
    requires Inv(s, start)
    ensures Inv(s.(outstanding := outstanding, committing := committing), start)
  { hide Indexed, Coherent, Counted, PhaseOk, RingOk, Full, Apply, HomeBlocks; }

  lemma CommitIgnoresOps(s: State, t: State, u: State, start: nat)
    requires t == s.(outstanding := t.outstanding, committing := t.committing) && CommitDone(t, u, start)
    ensures CommitDone(s, u.(committing := false), start)
  {
    hide CommitWrites, SameHome;
    assert Txn(t) == Txn(s);
  }

  // ---------- The program ----------

  class Store {
    const start: nat            // log.start
    var disk: Disk
    var buf: seq<Buf>
    var links: Links
    var lh: seq<nat>            // log.lh.block[..log.lh.n]
    var outstanding: nat
    var committing: bool
    ghost var order: seq<nat>
    ghost var at: map<nat, nat>
    ghost var held: seq<nat>
    ghost var pins: set<nat>
    ghost var view: Disk
    ghost var phase: Phase
    ghost var boot: Disk
    ghost var issued: seq<Write>

    ghost function Now(): (s: State)
      reads this
    { State(disk, buf, links, lh, outstanding, committing, order, at, held, pins, view, phase, boot, issued) }

    ghost predicate Valid()
      reads this
    { Inv(Now(), start) }

    /** binit: an empty cache, every buffer tagged (0, 0), over whatever the disk holds. */
    constructor (image: Disk, logstart: nat)
      requires logstart + LOGBLOCKS < |image| <= 0x1_0000_0000
      ensures Valid() && NoHolders(held) && phase == Clearing && lh == [] && pins == {}
      ensures start == logstart && disk == image && view == image && boot == image && issued == []
      ensures outstanding == 0 && !committing
    {
      start, disk, view, boot, issued := logstart, image, image, image, [];
      buf := seq(NBUF, _ => Buf(0, 0, false, 0, false, Zeroed()));
      held, at, pins := seq(NBUF, _ => 0), map[], {};
      lh, outstanding, committing, phase := [], 0, false, Clearing;
      var l, o := BuildRing();
      links, order := l, o;
    }

    /** The first loop of bget; HEAD when the block is not cached. */
    method FindCached(b: nat) returns (p: nat)
      requires Valid() && b < |disk|
      ensures p == if b in at then at[b] else HEAD
    {
      p := links.next[HEAD];
      ghost var k := 0;
      assert links.next[Node(order, -1)] == Node(order, 0);
      while p != HEAD && !(buf[p].dev == DEV && buf[p].blockno == b)
        invariant 0 <= k <= NBUF && p == Node(order, k)
        invariant forall j :: 0 <= j < k ==> !(buf[order[j]].dev == DEV && buf[order[j]].blockno == b)
        decreases NBUF - k
      {
        assert links.next[Node(order, k)] == Node(order, k + 1);
        p := links.next[p];
        k := k + 1;
      }
      assert p == HEAD ==> forall i: nat :: i < NBUF && i in order ==> !(buf[i].dev == DEV && buf[i].blockno == b);
    }

    /** The second loop of bget: the least recently used buffer that nobody references, or HEAD. */
    method FindVictim() returns (p: nat)
      requires Valid()
      ensures p == HEAD ==> forall i :: 0 <= i < NBUF ==> buf[i].refcnt > 0
      ensures p != HEAD ==> p < NBUF && buf[p].refcnt == 0 && LeastRecent(Now(), p)
    {
      p := links.prev[HEAD];
      ghost var k := NBUF - 1;
      assert links.prev[Node(order, NBUF - 1 + 1)] == Node(order, NBUF - 1);
      while p != HEAD && buf[p].refcnt != 0
        invariant -1 <= k < NBUF && p == Node(order, k)
        invariant forall j :: k < j < NBUF ==> buf[order[j]].refcnt > 0
        decreases k + 1
      {
        assert links.prev[Node(order, k - 1 + 1)] == Node(order, k - 1);
        p := links.prev[p];
        k := k - 1;
      }
      if p == HEAD {
        forall i | 0 <= i < NBUF ensures buf[i].refcnt > 0 { assert i in order; }
      } else {
        assert order[k] == p;
      }
    }

    /** bget's critical section.  None is the "no buffers" panic. */
    method Bget(b: nat) returns (r: Option<nat>)
      requires Valid() && b < |disk|
      modifies this`buf, this`at, this`held
      ensures r.None? <==> NoBuffer(old(Now()), b)
      ensures r.Some? ==> Chosen(old(Now()), b, r.value) && Now() == Got(old(Now()), b, r.value)
      ensures r.Some? ==> Valid() && SameIdentity(old(Now()), Now())
    {
      hide Inv, LeastRecent;
      InvShape(Now(), start);
      var p := FindCached(b);
      if p == HEAD {
        p := FindVictim();
        if p == HEAD { return None; }
        GotKeeps(Now(), start, b, p);
        at := (if buf[p].dev == DEV then at - {buf[p].blockno} else at)[b := p];
        buf, held := buf[p := buf[p].(dev := DEV, blockno := b, valid := false, refcnt := 1)], held[p := 1];
      } else {
        GotKeeps(Now(), start, b, p);
        buf, held := buf[p := buf[p].(refcnt := buf[p].refcnt + 1)], held[p := held[p] + 1];
      }
      return Some(p);
    }

    /** acquiresleep on a buffer whose lock is free, and bread's fill. */
    method Acquire(p: nat)
      requires Valid() && p < NBUF == |buf| == |held| && buf[p].dev == DEV && held[p] >= 1 && !buf[p].locked
      modifies this`buf
      ensures Valid() && buf[p].blockno < |disk| == |view| && Now() == Locked(old(Now()), p)
      ensures buf[p].data == view[buf[p].blockno]
    {
      hide Inv;
      LockedKeepsInv(Now(), start, p);
      if !buf[p].valid {
        buf := buf[p := buf[p].(locked := true, data := disk[buf[p].blockno], valid := true)];
      } else {
        buf := buf[p := buf[p].(locked := true)];
      }
    }

    method Bread(b: nat) returns (r: Option<nat>)
      requires Valid() && b < |disk| && Unheld(Now(), b)
      modifies this`buf, this`at, this`held
      ensures r.None? <==> NoBuffer(old(Now()), b)
      ensures r.Some? ==> Valid() && Fetched(old(Now()), Now(), b, r.value)
    {
      hide Inv, Chosen, NoBuffer, Got, SameIdentity, Fetched;
      ghost var s := Now();
      r := Bget(b);
      if r.Some? {
        GotFree(s, start, b, r.value);
        Acquire(r.value);
        FetchedIs(s, start, b, r.value);
      }
    }

    /** The holder of buffer p overwrites its bytes (memmove into b->data). */
    method Memmove(p: nat, data: Block)
      requires Valid() && p < NBUF == |buf| && buf[p].locked
      requires phase.Idle? || phase.Clearing? || InLog(start, buf[p].blockno) || data == buf[p].data
      modifies this`buf, this`view
      ensures Valid() && buf[p].blockno < |old(view)| && Now() == Stored(old(Now()), p, data)
    {
      hide Inv;
      StoredKeepsInv(Now(), start, p, data);
      view := view[buf[p].blockno := data];
      buf := buf[p := buf[p].(data := data)];
    }

    method Bwrite(p: nat, ghost next: Phase)
      requires Valid() && p < NBUF == |buf| && buf[p].locked && buf[p].blockno < |disk|
      requires PhaseOk(next, disk[buf[p].blockno := buf[p].data], view, start, lh, pins)
      modifies this`disk, this`issued, this`phase
      ensures Valid() && Now() == Written(old(Now()), p).(phase := next)
    {
      hide Inv, PhaseOk;
      WrittenKeepsInv(Now(), start, p, next);
      disk := disk[buf[p].blockno := buf[p].data];
      issued := issued + [Write(buf[p].blockno, buf[p].data)];
      phase := next;
    }

    method Releasesleep(p: nat)
      requires Valid() && p < NBUF == |buf| && buf[p].locked && MayRelease(Now(), p)
      modifies this`buf
      ensures Valid() && Now() == Released(old(Now()), p) && p < |held| && held[p] >= 1
    {
      hide Inv, MayRelease;
      ReleasedKeepsInv(Now(), start, p);
      buf := buf[p := buf[p].(locked := false)];
    }

    /** brelse's critical section, after the lock is gone: an unreferenced buffer becomes the most recent one. */
    method Unref(p: nat)
      requires Valid() && p < NBUF == |buf| == |held| && held[p] >= (if buf[p].locked then 2 else 1)
      modifies this`buf, this`held, this`links, this`order
      ensures old(buf[p].refcnt >= 1)
      ensures Valid() && Now() == Dropped(old(Now()), p).(links := links, order := order)
      ensures old(buf[p].refcnt) > 1 ==> order == old(order) && links == old(links)
      ensures old(buf[p].refcnt) == 1 ==>
          exists k :: 0 <= k < NBUF && old(order)[k] == p && order == Used(old(order), k)
    {
      hide Inv;
      DroppedKeepsInv(Now(), start, p);
      buf := buf[p := buf[p].(refcnt := buf[p].refcnt - 1)];
      held := held[p := held[p] - 1];
      if buf[p].refcnt == 0 {
        ghost var k := FrontKeepsInv(Now(), start, p);
        links, order := LinkFront(Unlink(links, p), p), Used(order, k);
      }
    }

    /** memmove into the buffer, then bwrite. */
    method Overwrite(p: nat, data: Block, ghost next: Phase)
      requires Valid() && p < NBUF == |buf| && buf[p].locked && buf[p].blockno < |disk| == |view|
      requires phase.Idle? || phase.Clearing? || InLog(start, buf[p].blockno) || data == buf[p].data
      requires var b := buf[p].blockno; PhaseOk(next, disk[b := data], view[b := data], start, lh, pins)
      modifies this`buf, this`view, this`disk, this`issued, this`phase
      ensures Valid() && Now() == Written(Stored(old(Now()), p, data), p).(phase := next)
    {
      hide Inv, PhaseOk;
      Memmove(p, data);
      Bwrite(p, next);
    }

    method Brelse(p: nat)
      requires Valid() && p < NBUF == |buf| == |held| && buf[p].locked && MayRelease(Now(), p)
      modifies this`buf, this`held, this`links, this`order
      ensures old(held[p] >= 1 && buf[p].refcnt >= 1)
      ensures Valid() && Now() == Unlocked(old(Now()), p).(links := links, order := order)
      ensures old(buf[p].refcnt) > 1 ==> order == old(order)
      ensures old(buf[p].refcnt) == 1 ==>
          exists k :: 0 <= k < NBUF && old(order)[k] == p && order == Used(old(order), k)
    {
      hide Inv, MayRelease;
      Releasesleep(p);
      Unref(p);
    }

    /** One look of begin_op's loop, under log.lock.  False: sleep and look again. */
    method BeginOp() returns (admitted: bool)
      requires Valid()
      modifies this`outstanding
      ensures Valid()
      ensures admitted <==> !committing && |lh| + (old(outstanding) + 1) * MAXOPBLOCKS <= LOGBLOCKS
      ensures outstanding == old(outstanding) + (if admitted then 1 else 0)
    {
      hide Indexed, Coherent, Counted, PhaseOk, RingOk, Full, Apply, HomeBlocks;
      admitted := !committing && |lh| + (outstanding + 1) * MAXOPBLOCKS <= LOGBLOCKS;
      if admitted { outstanding := outstanding + 1; }
    }

    /** end_op with nobody else holding a buffer: the last operation out commits.  False is the panic. */
    method EndOp() returns (ok: bool)
      requires Valid() && outstanding >= 1
      requires !committing ==> phase == Idle && NoHolders(held) && |pins| < NBUF && pins == SetOf(lh)
      modifies this
      ensures ok <==> !old(committing)
      ensures ok ==> Valid() && outstanding == old(outstanding) - 1 && !committing
      ensures ok && old(outstanding) > 1 ==> Now() == old(Now()).(outstanding := outstanding)
      ensures ok && old(outstanding) == 1 ==> CommitDone(old(Now()), Now(), start)
    {
      hide Inv, NoHolders, CommitDone;
      if committing { return false; }
      OpsKeepInv(Now(), start, outstanding - 1, outstanding == 1);
      outstanding := outstanding - 1;
      if outstanding == 0 {
        committing := true;
        ghost var s := Now();
        Commit();
        CommitIgnoresOps(old(Now()), s, Now(), start);
        OpsKeepInv(Now(), start, 0, false);
        committing := false;
      }
      return true;
    }

    /** log_write: record the block and pin its buffer, once.  False is one of the two panics. */
    method LogWrite(p: nat) returns (ok: bool)
      requires Valid() && p < NBUF == |buf| && buf[p].locked && !InLog(start, buf[p].blockno) && phase.Idle?
      modifies this`buf, this`lh, this`pins
      ensures ok <==> |old(lh)| < LOGBLOCKS && outstanding >= 1
      ensures ok ==> Valid()
      ensures ok && old(buf[p].blockno in lh) ==> Now() == old(Now())
      ensures ok && old(buf[p].blockno !in lh) ==>
        Now() == Logged(old(Now()), p)
    {
      hide Inv;
      if |lh| >= LOGBLOCKS || outstanding < 1 { return false; }
      var i, b := 0, buf[p].blockno;
      while i < |lh| && lh[i] != b
        invariant 0 <= i <= |lh| && forall j :: 0 <= j < i ==> lh[j] != b
      {
        i := i + 1;
      }
      if i == |lh| {
        LoggedKeeps(Now(), start, p);
        lh := lh + [b];
        buf := buf[p := buf[p].(refcnt := buf[p].refcnt + 1)];
        pins := pins + {b};
      }
      return true;
    }

    /** The two breads that open each turn of write_log and install_trans: log block t, then its home block.
        With a buffer to spare neither panics. */
    method BreadPair(t: nat) returns (p: nat, q: nat)
      requires Valid() && NoHolders(held) && t < |lh| && |pins| < NBUF && (lh[t] in pins || pins == {})
      modifies this`buf, this`at, this`held
      ensures Valid() && Paired(old(Now()), Now(), start + 1 + t, lh[t], p, q)
    {
      hide Inv, NoHolders, Unheld, NoBuffer, Fetched, Paired;
      FirstReady(Now(), start, t);
      var b, c := start + 1 + t, lh[t];
      var r := Bread(b);
      p := r.value;
      ghost var s1 := Now();
      SecondReady(old(Now()), s1, start, b, c, p);
      r := Bread(c);
      q := r.value;
      PairFetched(old(Now()), s1, Now(), b, c, p, q);
    }

    method BrelsePair(p: nat, q: nat)
      requires Valid() && p < NBUF == |buf| == |held| && q < NBUF && p != q && buf[p].locked && buf[q].locked
      requires MayRelease(Now(), p) && MayRelease(Now(), q)
      modifies this`buf, this`held, this`links, this`order
      ensures Valid() && Unpaired(old(Now()), Now(), p, q)
    {
      hide Inv;
      Brelse(p);
      Brelse(q);
    }

    /** One turn of write_log. */
    method WriteLogBlock(t: nat)
      requires Valid() && NoHolders(held) && |pins| < NBUF && phase == Logging(t) && t < |lh| && lh[t] in pins
      modifies this`buf, this`at, this`held, this`links, this`order, this`disk, this`view, this`issued, this`phase
      ensures Valid() && LogTurn(old(Now()), Now(), start, t)
    {
      hide Inv, NoHolders;
      var p, q := BreadPair(t);
      LogTurnReady(old(Now()), Now(), start, t, p, q);
      Overwrite(p, buf[q].data, Logging(t + 1));
      BrelsePair(q, p);
    }

    /** The loop of write_head, filling the header's bytes from log.lh. */
    method FillHead(b: Block) returns (hb: Block)
      requires |lh| <= LOGBLOCKS
      ensures hb == PutHead(b, lh)
    {
      var i := 0;
      hb := SetWord(b, 0, |lh|);
      while i < |lh|
        invariant 0 <= i <= |lh| && hb == PutEntries(SetWord(b, 0, |lh|), lh, i)
      {
        i := i + 1;
        hb := SetWord(hb, i, lh[i - 1]);
      }
    }

    /** bunpin of the t-th logged block, whose bytes are now on disk. */
    method Bunpin(p: nat, ghost t: nat)
      requires Valid() && phase == Installing(t) && t < |lh| && p < NBUF == |buf| && buf[p].locked
      requires buf[p].blockno == lh[t] && lh[t] in pins && lh[t] < |disk| && buf[p].data == disk[lh[t]]
      modifies this`buf, this`pins, this`phase
      ensures old(buf[p].refcnt) >= 1
      ensures Valid() && Now() == Unpinned(old(Now()), p).(phase := Installing(t + 1))
    {
      hide Inv;
      UnpinnedKeepsInv(Now(), start, p, t);
      pins := pins - {buf[p].blockno};
      buf := buf[p := buf[p].(refcnt := buf[p].refcnt - 1)];
      phase := Installing(t + 1);
    }

    /** write_head. */
    method WriteHead(ghost next: Phase)
      requires Valid() && NoHolders(held) && |pins| < NBUF && start < |disk| == |view| && |lh| <= LOGBLOCKS
      requires phase.Logging? || phase.Clearing?
      requires var h := PutHead(disk[start], lh);
        PhaseOk(next, disk[start := h], view[start := h], start, lh, pins)
      modifies this`buf, this`at, this`held, this`links, this`order, this`disk, this`view, this`issued, this`phase
      ensures Valid() && HeadTurn(old(Now()), Now(), start, next) && phase == next && held == old(held)
    {
      hide Inv, NoHolders, PhaseOk, Unheld, NoBuffer, PutHead, HeadTurn, Fetched, Stored, Written, MayRelease, Unlocked;
      HeadReady(Now(), start);
      var r := Bread(start);
      var p := r.value;
      ghost var t := Now();
      HeadFilled(old(Now()), t, start, p, next);
      var hb := FillHead(buf[p].data);
      Overwrite(p, hb, next);
      Brelse(p);
      HeadTurned(old(Now()), t, Now(), start, p, next);
    }

    /** One turn of install_trans. */
    method InstallBlock(t: nat, recovering: bool)
      requires Valid() && NoHolders(held) && |pins| < NBUF && t < |lh|
      requires if recovering then phase.Clearing? && pins == {} else phase == Installing(t) && lh[t] in pins
      modifies this`buf, this`at, this`held, this`links, this`order, this`disk, this`view, this`issued, this`phase,
        this`pins
      ensures Valid() && InstallTurn(old(Now()), Now(), start, t, recovering)
    {
      hide Inv, NoHolders, PhaseOk;
      var p, q := BreadPair(t);
      InstallReady(old(Now()), start, t);
      Overwrite(q, buf[p].data, phase);
      if !recovering { Bunpin(q, t); }
      BrelsePair(p, q);
    }

    /** write_log: afterwards the log area holds the transaction. */
    method WriteLog()
      requires Valid() && NoHolders(held) && |pins| < NBUF && phase == Logging(0)
      modifies this`buf, this`at, this`held, this`links, this`order, this`disk, this`view, this`issued, this`phase
      ensures Valid() && LogTurns(old(Now()), Now(), start, |lh|)
      ensures phase == Logging(|lh|) && lh == old(lh) && held == old(held) && pins == old(pins)
    {
      hide Inv, LogTurns, NoHolders, SetOf;
      ghost var s := Now();
      var t := 0;
      LogTurnsNone(s, start);
      while t < |lh|
        invariant 0 <= t <= |lh| && lh == s.lh && held == s.held && pins == s.pins && phase == Logging(t)
        invariant Valid() && LogTurns(s, Now(), start, t)
      {
        PinsOfRest(Now(), start, t);
        ghost var u := Now();
        WriteLogBlock(t);
        LogTurnsStep(s, u, Now(), start, t);
        t := t + 1;
      }
    }

    /** install_trans: afterwards every logged block's home holds its log block's bytes. */
    method InstallTrans(recovering: bool)
      requires Valid() && NoHolders(held) && (recovering || |SetOf(lh)| < NBUF)
      requires if recovering then phase == Clearing else phase == Installing(0)
      modifies this`buf, this`at, this`held, this`links, this`order, this`disk, this`view, this`issued, this`phase,
        this`pins
      ensures Valid() && InstallTurns(old(Now()), Now(), start, |lh|, recovering)
      ensures (if recovering then phase == Clearing else phase == Installing(|lh|)) && lh == old(lh) &&
          held == old(held)
    {
      hide Inv, InstallTurns, NoHolders, SetOf;
      ghost var s := Now();
      var t := 0;
      InstallTurnsNone(s, start, recovering);
      while t < |lh|
        invariant 0 <= t <= |lh| && lh == s.lh && held == s.held
        invariant if recovering then phase == Clearing else phase == Installing(t)
        invariant Valid() && InstallTurns(s, Now(), start, t, recovering)
      {
        ghost var u := Now();
        InstallTurnFacts(u, start, t, recovering);
        InstallBlock(t, recovering);
        InstallTurnsStep(s, u, Now(), start, t, recovering);
        t := t + 1;
      }
    }

    /** log.lh.n = 0; write_head(): erase the transaction from the log. */
    method ClearHead()
      requires Valid() && NoHolders(held) && (phase == Installing(|lh|) || phase == Clearing)
      modifies this`buf, this`at, this`held, this`links, this`order, this`disk, this`view, this`issued, this`phase,
        this`lh
      ensures Valid() && HeadTurn(old(Now()).(lh := [], phase := Clearing), Now(), start, Idle)
      ensures lh == [] && phase == Idle && view == disk
    {
      hide Inv, NoHolders, PhaseOk, HeadTurn;
      HeadClear(Now(), start);
      lh, phase := [], Clearing;
      WriteHead(Idle);
      QuietMeansClean(Now(), start);
    }

    /** The first half of commit: write_log, and write_head as the switch. */
    method LogAll()
      requires Valid() && NoHolders(held) && phase == Idle && |pins| < NBUF
      modifies this`buf, this`at, this`held, this`links, this`order, this`disk, this`view, this`issued, this`phase
      ensures Valid() && LoggedTo(old(Now()), Now(), start) && phase == Installing(0) && held == old(held)
    {
      hide Inv, NoHolders, LogTurns, HeadTurn, PhaseOk, LoggedTo;
      ghost var s := Now();
      StartLogging(s, start);
      phase := Logging(0);
      WriteLog();
      ghost var b := Now();
      HeadSwitch(b, start);
      WriteHead(Installing(0));
      LoggedStage(s, b, Now(), start);
    }

    /** commit(), with nobody else holding a buffer and one buffer more than the log pins: it never runs out of
        buffers, and issues exactly the protocol's writes. */
    method Commit()
      requires Valid() && NoHolders(held) && phase == Idle && |pins| < NBUF && pins == SetOf(lh)
      modifies this`buf, this`at, this`held, this`links, this`order, this`disk, this`view, this`issued, this`phase,
        this`pins, this`lh
      ensures Valid() && CommitDone(old(Now()), Now(), start)
    {
      hide Inv, NoHolders, SetOf, LogTurns, InstallTurns, HeadTurn, PhaseOk, CommitDone, LoggedTo, Txn, Bnos,
        IsTransaction, Clean;
      ghost var s := Now();
      IdleIsClean(s, start);
      if |lh| > 0 {
        LogAll();
        ghost var c := Now();
        InstallTrans(false);
        ghost var d := Now();
        ClearHead();
        CommitStages(s, c, d, Now(), start);
      } else {
        QuietMeansClean(s, start);
        NothingToCommit(s, start);
      }
    }

    /** read_head, on a disk whose header is well formed. */
    method ReadHead()
      requires Valid() && NoHolders(held) && phase == Clearing && pins == {} && WellFormed(disk, start)
      modifies this`buf, this`at, this`held, this`links, this`order, this`lh
      ensures Valid() && start < |disk| && held == old(held)
      ensures Now() == old(Now()).(buf := buf, links := links, order := order, at := at, lh := HeadOf(disk[start]))
    {
      hide Inv, NoHolders, Unheld, NoBuffer, HomeBlocks, Word;
      HeadReady(Now(), start);
      var r := Bread(start);
      var p := r.value;
      var n, i, hs := Word(buf[p].data, 0), 0, [];
      while i < n
        invariant 0 <= i <= n && |hs| == i && hs == HeadOf(buf[p].data)[..i]
      {
        hs := hs + [Word(buf[p].data, i + 1)];
        i := i + 1;
      }
      HeadLoaded(Now(), start);
      assert hs == HeadOf(disk[start]);
      lh := hs;
      Brelse(p);
    }

    /** recover_from_log(), run at boot. */
    method RecoverFromLog()
      requires Valid() && NoHolders(held) && phase == Clearing && pins == {} && WellFormed(disk, start)
      modifies this`buf, this`at, this`held, this`links, this`order, this`disk, this`view, this`issued, this`phase,
        this`pins, this`lh
      ensures Valid() && RecoverDone(old(Now()), Now(), start)
    {
      hide Inv, NoHolders, SetOf, InstallTurns, HeadTurn, PhaseOk, RecoverDone, HeadOf;
      ghost var s := Now();
      ReadHead();
      ghost var b := Now();
      InstallTrans(true);
      ghost var d := Now();
      ClearHead();
      RecoverStages(s, b, d, Now(), start);
    }
  }
}

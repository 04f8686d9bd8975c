/** The references that processes and commit() hold on buffers of the cache (kernel/bio.c), and what each step of
    the cache does to them. */
module Handles {
  import opened Blocks
  import opened BlockStore
  import opened Crash
  import opened LruRing
  import opened Params

  // ---------- Handles on buffers ----------

  /** Who refers to a buffer: a process's `struct buf *` between bget and brelse, or one of commit()'s two. */
  datatype Tok = User(id: nat) | LogBuf | HomeBuf

  /** Between bget's critical section and acquiresleep; locked; between releasesleep and refcnt--. */
  datatype Stage = Waiting | Holding | Letting

  /** A reference to buffer p for block b, taken inside file system operation `op` or by a reader outside any.
      Dirty: the holder has changed the bytes and has neither logged nor written them yet. */
  datatype Use = Use(p: nat, b: nat, stage: Stage, op: Option<nat>, dirty: bool)

  type Uses = map<Tok, Use>

  ghost function Users(use: Uses, i: nat): (ts: set<Tok>) { set t | t in use && use[t].p == i }

  ghost predicate Named(s: State, u: Use) {
    u.p < |s.buf| && s.buf[u.p].dev == DEV && s.buf[u.p].blockno == u.b && u.b < |s.disk|
  }

  /** A buffer is locked exactly when one handle holds it. */
  ghost predicate Owned(buf: seq<Buf>, use: Uses, owner: map<nat, Tok>) {
    && (forall i :: 0 <= i < |buf| ==> (buf[i].locked <==> i in owner))
    && (forall i <- owner :: owner[i] in use && use[owner[i]].p == i && use[owner[i]].stage.Holding?)
    && (forall t <- use :: use[t].stage.Holding? ==> use[t].p in owner && owner[use[t].p] == t)
  }

  ghost predicate DirtyAt(use: Uses, b: nat) { exists t :: t in use && use[t].dirty && use[t].b == b }

  /** A block whose disk copy is stale is pinned by the log or being changed right now. */
  ghost predicate Settled(view: Disk, disk: Disk, pins: set<nat>, use: Uses) {
    && |view| == |disk|
    && (forall b :: 0 <= b < |disk| && view[b] != disk[b] ==> b in pins || DirtyAt(use, b))
    && (forall t <- use :: use[t].dirty ==> use[t].stage.Holding?)
  }

  ghost predicate Tallied(held: seq<nat>, use: Uses) {
    |held| == NBUF && forall i :: 0 <= i < NBUF ==> held[i] == |Users(use, i)|
  }

  ghost predicate Hands(s: State, use: Uses, owner: map<nat, Tok>) {
    && (forall t <- use :: Named(s, use[t]))
    && Owned(s.buf, use, owner)
    && Tallied(s.held, use)
    && Settled(s.view, s.disk, s.pins, use)
  }

  lemma UserCounts(s: State, use: Uses, t: Tok)
    requires Tallied(s.held, use) && t in use && use[t].p < NBUF
    ensures s.held[use[t].p] >= 1
  { assert t in Users(use, use[t].p); }

  lemma UsersAdd(use: Uses, t: Tok, u: Use, i: nat)
    requires t !in use
    ensures |Users(use[t := u], i)| == |Users(use, i)| + (if u.p == i then 1 else 0)
  {
    if u.p == i {
      assert Users(use[t := u], i) == Users(use, i) + {t};
    } else {
      assert Users(use[t := u], i) == Users(use, i);
    }
  }

  lemma UsersChange(use: Uses, t: Tok, u: Use, i: nat)
    requires t in use && u.p == use[t].p
    ensures Users(use[t := u], i) == Users(use, i)
  {}

  lemma UsersDrop(use: Uses, t: Tok, i: nat)
    requires t in use
    ensures |Users(use, i)| == |Users(use - {t}, i)| + (if use[t].p == i then 1 else 0)
  {
    if use[t].p == i {
      assert Users(use, i) == Users(use - {t}, i) + {t};
    } else {
      assert Users(use, i) == Users(use - {t}, i);
    }
  }

  lemma TalliedAdd(s: State, use: Uses, t: Tok, u: Use)
    requires Tallied(s.held, use) && t !in use && u.p < NBUF
    ensures Tallied(s.held[u.p := s.held[u.p] + 1], use[t := u])
  {
    var held, v := s.held[u.p := s.held[u.p] + 1], use[t := u];
    forall i: nat | i < NBUF ensures held[i] == |Users(v, i)| { UsersAdd(use, t, u, i); }
  }

  lemma TalliedChange(s: State, use: Uses, t: Tok, u: Use)
    requires Tallied(s.held, use) && t in use && u.p == use[t].p
    ensures Tallied(s.held, use[t := u])
  {
    var v := use[t := u];
    forall i: nat | i < NBUF ensures s.held[i] == |Users(v, i)| { UsersChange(use, t, u, i); }
  }

  lemma TalliedDrop(s: State, use: Uses, t: Tok)
    requires Tallied(s.held, use) && t in use && use[t].p < NBUF && s.held[use[t].p] >= 1
    ensures Tallied(s.held[use[t].p := s.held[use[t].p] - 1], use - {t})
  {
    var held, v := s.held[use[t].p := s.held[use[t].p] - 1], use - {t};
    forall i: nat | i < NBUF ensures held[i] == |Users(v, i)| { UsersDrop(use, t, i); }
  }

  /** Every stale block is still accounted for when one handle changes to u, if that handle's own block is. */
  lemma SettledChange(view: Disk, disk: Disk, pins: set<nat>, use: Uses, t: Tok, u: Use)
    requires Settled(view, disk, pins, use) && (u.dirty ==> u.stage.Holding?)
    requires t in use && use[t].dirty ==>
        use[t].b < |disk| && (use[t].b in pins || view[use[t].b] == disk[use[t].b] || (u.dirty && u.b == use[t].b))
    ensures Settled(view, disk, pins, use[t := u])
  {
    forall b | 0 <= b < |disk| && view[b] != disk[b] && b !in pins ensures DirtyAt(use[t := u], b) {
      var x :| x in use && use[x].dirty && use[x].b == b;
      assert use[t := u][x].dirty && use[t := u][x].b == b;
    }
  }

  lemma SettledDrop(view: Disk, disk: Disk, pins: set<nat>, use: Uses, t: Tok)
    requires Settled(view, disk, pins, use) && t in use && !use[t].dirty
    ensures Settled(view, disk, pins, use - {t})
  {
    forall b | 0 <= b < |disk| && view[b] != disk[b] && b !in pins ensures DirtyAt(use - {t}, b) {
      var x :| x in use && use[x].dirty && use[x].b == b;
      assert (use - {t})[x].dirty && (use - {t})[x].b == b;
    }
  }

  /** The holder's change to block b is accounted for by its own handle. */
  lemma SettledStore(view: Disk, disk: Disk, pins: set<nat>, use: Uses, t: Tok, data: Block)
    requires Settled(view, disk, pins, use) && t in use && use[t].stage.Holding? && use[t].b < |disk|
    ensures Settled(view[use[t].b := data], disk, pins, use[t := use[t].(dirty := true)])
  {
    var v := use[t := use[t].(dirty := true)];
    forall b | 0 <= b < |disk| && view[use[t].b := data][b] != disk[b] && b !in pins ensures DirtyAt(v, b) {
      if b == use[t].b {
        assert v[t].dirty && v[t].b == b;
      } else {
        var x :| x in use && use[x].dirty && use[x].b == b;
        assert v[x].dirty && v[x].b == b;
      }
    }
  }

  /** Whoever holds a buffer sees the block map's bytes. */
  lemma HeldData(s: State, use: Uses, owner: map<nat, Tok>, t: Tok)
    requires CacheOk(s) && Hands(s, use, owner) && t in use && use[t].stage.Holding?
    ensures var p := use[t].p;
      p < NBUF && s.buf[p].locked && s.buf[p].blockno == use[t].b < |s.disk| == |s.view|
      && s.buf[p].data == s.view[use[t].b]
  { hide Tallied; }

  /** Whoever holds a buffer and has not changed it finds its block on disk or pinned. */
  lemma HeldClean(s: State, use: Uses, owner: map<nat, Tok>, t: Tok)
    requires CacheOk(s) && Hands(s, use, owner) && t in use && use[t].stage.Holding? && !use[t].dirty
    ensures use[t].b in s.pins || s.view[use[t].b] == s.disk[use[t].b]
  { hide Coherent, Counted, Tallied; }

  // ---------- What each step does to the handles ----------

  lemma GetNames(s: State, use: Uses, owner: map<nat, Tok>, b: nat, p: nat, x: Tok)
    requires CacheOk(s) && Hands(s, use, owner) && x in use && b < |s.disk|
    requires |s.order| == NBUF && IsOrder(s.order) && Chosen(s, b, p)
    ensures Named(Got(s, b, p), use[x])
  {
    hide Coherent, Settled, Owned, LeastRecent;
    UserCounts(s, use, x);
  }

  lemma OwnedMore(buf: seq<Buf>, now: seq<Buf>, use: Uses, owner: map<nat, Tok>, t: Tok, u: Use)
    requires Owned(buf, use, owner) && t !in use && !u.stage.Holding?
    requires |now| == |buf| && forall i :: 0 <= i < |buf| ==> now[i].locked == buf[i].locked
    ensures Owned(now, use[t := u], owner)
  {}

  lemma GotLocks(s: State, b: nat, p: nat)
    requires p < |s.buf| && p < |s.held|
    ensures var buf := Got(s, b, p).buf;
      |buf| == |s.buf| && forall i :: 0 <= i < |buf| ==> buf[i].locked == s.buf[i].locked
  {}

  lemma GetOwned(s: State, use: Uses, owner: map<nat, Tok>, t: Tok, b: nat, p: nat, op: Option<nat>)
    requires CacheOk(s) && Hands(s, use, owner) && t !in use && b < |s.disk|
    requires |s.order| == NBUF && IsOrder(s.order) && Chosen(s, b, p)
    ensures Named(Got(s, b, p), Use(p, b, Waiting, op, false))
    ensures Owned(Got(s, b, p).buf, use[t := Use(p, b, Waiting, op, false)], owner)
    ensures Got(s, b, p).held == s.held[p := s.held[p] + 1]
  {
    hide Coherent, LeastRecent, Tallied, Settled, Owned;
    GotLocks(s, b, p);
    OwnedMore(s.buf, Got(s, b, p).buf, use, owner, t, Use(p, b, Waiting, op, false));
  }

  lemma GetHands(s: State, use: Uses, owner: map<nat, Tok>, t: Tok, b: nat, p: nat, op: Option<nat>)
    requires CacheOk(s) && Hands(s, use, owner) && t !in use && b < |s.disk|
    requires |s.order| == NBUF && IsOrder(s.order) && Chosen(s, b, p)
    ensures Hands(Got(s, b, p), use[t := Use(p, b, Waiting, op, false)], owner)
  {
    hide Coherent, LeastRecent, Tallied, Settled, Owned, Named;
    var v, r := use[t := Use(p, b, Waiting, op, false)], Got(s, b, p);
    GetOwned(s, use, owner, t, b, p, op);
    forall x | x in use ensures Named(r, use[x]) { GetNames(s, use, owner, b, p, x); }
    TalliedAdd(s, use, t, v[t]);
    SettledChange(s.view, s.disk, s.pins, use, t, v[t]);
  }

  lemma WaitingHand(s: State, use: Uses, owner: map<nat, Tok>, t: Tok)
    requires Hands(s, use, owner) && t in use && use[t].stage.Waiting?
    ensures Named(s, use[t]) && !use[t].dirty && (use[t].p < NBUF ==> |s.held| == NBUF && s.held[use[t].p] >= 1)
  {
    hide Owned;
    if use[t].p < NBUF { UserCounts(s, use, t); }
  }

  lemma LockHands(s: State, use: Uses, owner: map<nat, Tok>, t: Tok)
    requires CacheOk(s) && Hands(s, use, owner) && t in use && use[t].stage.Waiting? && !use[t].dirty
    requires !s.buf[use[t].p].locked
    ensures Hands(Locked(s, use[t].p), use[t := use[t].(stage := Holding)], owner[use[t].p := t])
  {
    hide Coherent, Tallied, Settled;
    var v := use[t := use[t].(stage := Holding)];
    TalliedChange(s, use, t, v[t]);
    SettledChange(s.view, s.disk, s.pins, use, t, v[t]);
  }

  lemma StoreHands(s: State, use: Uses, owner: map<nat, Tok>, t: Tok, data: Block)
    requires CacheOk(s) && Hands(s, use, owner) && t in use && use[t].stage.Holding?
    ensures Hands(Stored(s, use[t].p, data), use[t := use[t].(dirty := true)], owner)
  {
    hide Coherent, Tallied, Settled;
    TalliedChange(s, use, t, use[t].(dirty := true));
    SettledStore(s.view, s.disk, s.pins, use, t, data);
  }

  /** The same handle, with its change logged, written or none of its business any more. */
  lemma CleanedHands(s: State, r: State, use: Uses, owner: map<nat, Tok>, t: Tok)
    requires Hands(s, use, owner) && t in use && use[t].stage.Holding?
    requires r.held == s.held && |r.buf| == |s.buf| && |r.disk| == |s.disk|
    requires forall i :: 0 <= i < |s.buf| ==>
        r.buf[i].dev == s.buf[i].dev && r.buf[i].blockno == s.buf[i].blockno && r.buf[i].locked == s.buf[i].locked
    requires Settled(r.view, r.disk, r.pins, use)
    requires use[t].b in r.pins || r.view[use[t].b] == r.disk[use[t].b]
    ensures Hands(r, use[t := use[t].(dirty := false)], owner)
    ensures Hands(r, use, owner)
  {
    hide Tallied, Settled;
    TalliedChange(s, use, t, use[t].(dirty := false));
    SettledChange(r.view, r.disk, r.pins, use, t, use[t].(dirty := false));
  }

  lemma WriteHands(s: State, use: Uses, owner: map<nat, Tok>, t: Tok, next: Phase)
    requires CacheOk(s) && Hands(s, use, owner) && t in use && use[t].stage.Holding?
    ensures Hands(Written(s, use[t].p).(phase := next), use[t := use[t].(dirty := false)], owner)
  {
    HeldData(s, use, owner, t);
    hide CacheOk, Tallied, Owned, DirtyAt;
    CleanedHands(s, Written(s, use[t].p).(phase := next), use, owner, t);
  }

  /** log_write: the holder's change is now the log's business. */
  lemma LogHands(s: State, use: Uses, owner: map<nat, Tok>, t: Tok)
    requires CacheOk(s) && Hands(s, use, owner) && t in use && use[t].stage.Holding?
    ensures Hands(Logged(s, use[t].p), use[t := use[t].(dirty := false)], owner)
    ensures use[t].b in s.pins ==> Hands(s, use[t := use[t].(dirty := false)], owner)
  {
    HeldData(s, use, owner, t);
    hide CacheOk, Tallied, Owned, DirtyAt;
    CleanedHands(s, Logged(s, use[t].p), use, owner, t);
    if use[t].b in s.pins { CleanedHands(s, s, use, owner, t); }
  }

  lemma UnpinHands(s: State, use: Uses, owner: map<nat, Tok>, t: Tok, next: Phase)
    requires CacheOk(s) && Hands(s, use, owner) && t in use && use[t].stage.Holding? && use[t].b in s.pins
    requires s.view[use[t].b] == s.disk[use[t].b]
    ensures s.buf[use[t].p].refcnt >= 1 && Hands(Unpinned(s, use[t].p).(phase := next), use, owner)
  {
    HeldData(s, use, owner, t);
    assert s.buf[use[t].p].refcnt >= 1;
    hide CacheOk, Tallied, Owned, DirtyAt;
    CleanedHands(s, Unpinned(s, use[t].p).(phase := next), use, owner, t);
  }

  lemma OwnedFree(buf: seq<Buf>, use: Uses, owner: map<nat, Tok>, t: Tok)
    requires Owned(buf, use, owner) && t in use && use[t].stage.Holding? && use[t].p < |buf|
    ensures Owned(buf[use[t].p := buf[use[t].p].(locked := false)],
                  use[t := use[t].(stage := Letting)], owner - {use[t].p})
  {}

  lemma FreeHands(s: State, use: Uses, owner: map<nat, Tok>, t: Tok)
    requires CacheOk(s) && Hands(s, use, owner) && t in use && use[t].stage.Holding? && !use[t].dirty
    ensures MayRelease(s, use[t].p)
    ensures Hands(Released(s, use[t].p), use[t := use[t].(stage := Letting)], owner - {use[t].p})
  {
    hide CacheOk, Tallied, Settled, Owned, DirtyAt;
    HeldData(s, use, owner, t);
    HeldClean(s, use, owner, t);
    OwnedFree(s.buf, use, owner, t);
    TalliedChange(s, use, t, use[t].(stage := Letting));
    SettledChange(s.view, s.disk, s.pins, use, t, use[t].(stage := Letting));
  }

  /** Two handles on one buffer are two references. */
  lemma TwoUsers(s: State, use: Uses, t: Tok, x: Tok)
    requires Tallied(s.held, use) && t in use && x in use && t != x && use[t].p == use[x].p < NBUF
    ensures s.held[use[t].p] >= 2
  {
    UsersDrop(use, t, use[t].p);
    assert x in Users(use - {t}, use[t].p);
  }

  lemma LettingCounts(s: State, use: Uses, owner: map<nat, Tok>, t: Tok)
    requires CacheOk(s) && Hands(s, use, owner) && t in use && use[t].stage.Letting?
    ensures !use[t].dirty && s.buf[use[t].p].refcnt >= 1
    ensures var p := use[t].p; s.held[p] >= (if s.buf[p].locked then 2 else 1)
  {
    hide Coherent, Tallied, DirtyAt;
    UserCounts(s, use, t);
    if s.buf[use[t].p].locked { TwoUsers(s, use, t, owner[use[t].p]); }
  }

  lemma OwnedDrop(buf: seq<Buf>, use: Uses, owner: map<nat, Tok>, t: Tok, q: Buf)
    requires Owned(buf, use, owner) && t in use && !use[t].stage.Holding? && use[t].p < |buf|
    requires q.locked == buf[use[t].p].locked
    ensures Owned(buf[use[t].p := q], use - {t}, owner)
  {}

  lemma DropHands(s: State, use: Uses, owner: map<nat, Tok>, t: Tok)
    requires Hands(s, use, owner) && t in use && use[t].stage.Letting? && !use[t].dirty
    requires |s.buf| == |s.held| == NBUF && s.held[use[t].p] >= 1 && s.buf[use[t].p].refcnt >= 1
    ensures Hands(Dropped(s, use[t].p), use - {t}, owner)
  {
    hide Tallied, Settled, Owned;
    OwnedDrop(s.buf, use, owner, t, s.buf[use[t].p].(refcnt := s.buf[use[t].p].refcnt - 1));
    TalliedDrop(s, use, t);
    SettledDrop(s.view, s.disk, s.pins, use, t);
  }

  /** The relinking is nobody's business. */
  lemma PutHands(s: State, use: Uses, owner: map<nat, Tok>, p: nat)
    requires p < |s.buf| && p < |s.held| && s.buf[p].refcnt >= 1 && s.held[p] >= 1
    requires Hands(Dropped(s, p), use, owner)
    ensures Hands(Put(s, p), use, owner) && SameIdentity(s, Put(s, p))
  { hide Linked, Owned, Tallied, Settled; }

  lemma InvCache(s: State, start: nat)
    requires Inv(s, start)
    ensures CacheOk(s) && |s.buf| == |s.held| == |s.order| == NBUF && IsOrder(s.order)
  { hide PhaseOk, HomeBlocks, Coherent, Apply; }

  lemma SameHands(s: State, r: State, use: Uses, owner: map<nat, Tok>)
    requires Hands(s, use, owner)
    requires r.buf == s.buf && r.held == s.held && r.disk == s.disk && r.view == s.view && r.pins == s.pins
    ensures Hands(r, use, owner)
  { hide Owned, Tallied, Settled; }
}

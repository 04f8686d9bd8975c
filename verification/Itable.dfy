/**
  * The in-memory inode table (kernel/fs.c: iget, idup, ilock, iunlock, iupdate, iput, ialloc) as a machine whose
  * steps are the parts of those calls that run under itable.lock, under one inode's sleep-lock, or under one
  * buffer's lock, in any interleaving.  A thread of it is one counted reference.
  */
module Itable {

  const FREE: int := -1

  /** An inode as stored on disk; kind is the type field, 0 when the inode is free; body is the rest of it. */
  datatype Dinode = Dinode(kind: nat, nlink: nat, body: nat)

  /** An in-memory inode: refs are its counted references, so ref is their number; lock is the one that holds it. */
  datatype Entry = Entry(inum: nat, refs: set<nat>, valid: bool, copy: Dinode, lock: int)

  /** What the owner of a reference is doing with it. */
  datatype Pc =
    | Held(e: nat)         // nothing
    | Locking(e: nat)      // ilock, in acquiresleep
    | Loading(e: nat)      // ilock, about to read the disk inode
    | Locked(e: nat)       // between ilock and iunlock
    | Truncating(e: nat)   // iput, in itrunc
    | Clearing(e: nat)     // iput, about to write type 0
    | Erased(e: nat)       // iput, type 0 written
    | Dropped(e: nat)      // iput, valid cleared
    | Putting(e: nat)      // iput, the sleep-lock released
    | Allocated(inum: nat) // ialloc, about to call iget
    | Panicked(e: nat)     // ilock: no type

  datatype State = State(table: seq<Entry>, disk: map<nat, Dinode>, pc: map<nat, Pc>)

  datatype Event =
    | Iget(t: nat, inum: nat, e: nat) | AllocGet(t: nat, e: nat) | Idup(t: nat, u: nat)
    | Ilock(t: nat) | Acquire(t: nat) | Load(t: nat) | Modify(t: nat, d: Dinode) | Iupdate(t: nat) | Iunlock(t: nat)
    | Iput(t: nat) | Itrunc(t: nat) | Clear(t: nat) | Invalidate(t: nat) | Release(t: nat) | Drop(t: nat)
    | Ialloc(t: nat, inum: nat, kind: nat)

  predicate HasEntry(pc: Pc) { !pc.Allocated? }

  predicate HoldsLock(pc: Pc) {
    match pc
    case Held(_) => false
    case Locking(_) => false
    case Putting(_) => false
    case Allocated(_) => false
    case _ => true
  }

  /** iget's answer for inum: the entry in use for it, or an unused one if there is none. */
  predicate Gets(table: seq<Entry>, inum: nat, e: nat) {
    && e < |table|
    && (if table[e].refs != {} then table[e].inum == inum
        else forall k :: 0 <= k < |table| ==> !(table[k].refs != {} && table[k].inum == inum))
  }

  function Got(x: Entry, t: nat, inum: nat): (r: Entry) {
    if x.refs != {} then x.(refs := x.refs + {t}) else x.(inum := inum, refs := {t}, valid := false)
  }

  /** iput finds the last reference to a valid inode with no links. */
  predicate LastUse(x: Entry) { |x.refs| == 1 && x.valid && x.copy.nlink == 0 }

  predicate At(s: State, t: nat) {
    t in s.pc && HasEntry(s.pc[t]) && s.pc[t].e < |s.table| && s.table[s.pc[t].e].inum in s.disk
  }

  predicate Can(s: State, v: Event) {
    match v
    case Iget(t, inum, e) => t !in s.pc && inum in s.disk && Gets(s.table, inum, e)
    case AllocGet(t, e) => t in s.pc && s.pc[t].Allocated? && Gets(s.table, s.pc[t].inum, e)
    case Idup(t, u) => At(s, t) && (s.pc[t].Held? || s.pc[t].Locked?) && u !in s.pc
    case Ilock(t) => At(s, t) && s.pc[t].Held?
    case Acquire(t) => At(s, t) && s.pc[t].Locking? && s.table[s.pc[t].e].lock == FREE
    case Load(t) => At(s, t) && s.pc[t].Loading?
    case Modify(t, d) => At(s, t) && s.pc[t].Locked? && d.kind != 0
    case Iupdate(t) => At(s, t) && s.pc[t].Locked?
    case Iunlock(t) => At(s, t) && s.pc[t].Locked? && s.table[s.pc[t].e].copy == s.disk[s.table[s.pc[t].e].inum]
    case Iput(t) => At(s, t) && s.pc[t].Held? && (LastUse(s.table[s.pc[t].e]) ==> s.table[s.pc[t].e].lock == FREE)
    case Itrunc(t) => At(s, t) && s.pc[t].Truncating?
    case Clear(t) => At(s, t) && s.pc[t].Clearing?
    case Invalidate(t) => At(s, t) && s.pc[t].Erased?
    case Release(t) => At(s, t) && s.pc[t].Dropped?
    case Drop(t) => At(s, t) && s.pc[t].Putting?
    case Ialloc(t, inum, kind) => t !in s.pc && inum in s.disk && s.disk[inum].kind == 0 && kind != 0
  }

  function Put(s: State, t: nat, x: Entry, pc: Pc): (r: State)
    requires At(s, t)
  { s.(table := s.table[s.pc[t].e := x], pc := s.pc[t := pc]) }

  function Do(s: State, v: Event): (r: State)
    requires Can(s, v)
  {
    match v
    case Iget(t, inum, e) => s.(table := s.table[e := Got(s.table[e], t, inum)], pc := s.pc[t := Held(e)])
    case AllocGet(t, e) => s.(table := s.table[e := Got(s.table[e], t, s.pc[t].inum)], pc := s.pc[t := Held(e)])
    case Idup(t, u) =>
      var e := s.pc[t].e;
      s.(table := s.table[e := s.table[e].(refs := s.table[e].refs + {u})], pc := s.pc[u := Held(e)])
    case Ilock(t) => s.(pc := s.pc[t := Locking(s.pc[t].e)])
    case Acquire(t) =>
      var e := s.pc[t].e;
      Put(s, t, s.table[e].(lock := t), if s.table[e].valid then Locked(e) else Loading(e))
    case Load(t) =>
      var e := s.pc[t].e;
      var d := s.disk[s.table[e].inum];
      Put(s, t, s.table[e].(copy := d, valid := true), if d.kind == 0 then Panicked(e) else Locked(e))
    case Modify(t, d) => Put(s, t, s.table[s.pc[t].e].(copy := d), s.pc[t])
    case Iupdate(t) => s.(disk := s.disk[s.table[s.pc[t].e].inum := s.table[s.pc[t].e].copy])
    case Iunlock(t) => Put(s, t, s.table[s.pc[t].e].(lock := FREE), Held(s.pc[t].e))
    case Iput(t) =>
      var e := s.pc[t].e;
      if LastUse(s.table[e]) then Put(s, t, s.table[e].(lock := t), Truncating(e))
      else s.(table := s.table[e := s.table[e].(refs := s.table[e].refs - {t})], pc := s.pc - {t})
    case Itrunc(t) =>
      var e := s.pc[t].e;
      var x := s.table[e].(copy := s.table[e].copy.(body := 0));
      Put(s, t, x, Clearing(e)).(disk := s.disk[x.inum := x.copy])
    case Clear(t) =>
      var e := s.pc[t].e;
      var x := s.table[e].(copy := s.table[e].copy.(kind := 0));
      Put(s, t, x, Erased(e)).(disk := s.disk[x.inum := x.copy])
    case Invalidate(t) => Put(s, t, s.table[s.pc[t].e].(valid := false), Dropped(s.pc[t].e))
    case Release(t) => Put(s, t, s.table[s.pc[t].e].(lock := FREE), Putting(s.pc[t].e))
    case Drop(t) =>
      var e := s.pc[t].e;
      s.(table := s.table[e := s.table[e].(refs := s.table[e].refs - {t})], pc := s.pc - {t})
    case Ialloc(t, inum, kind) => s.(disk := s.disk[inum := Dinode(kind, 0, 0)], pc := s.pc[t := Allocated(inum)])
  }

  /** iget's scan: the entry in use for inum, else the first unused one; without either it panics. */
  method FindEntry(table: seq<Entry>, inum: nat) returns (found: bool, e: nat)
    ensures found ==> Gets(table, inum, e)
    ensures found && table[e].refs == {} ==> forall k :: 0 <= k < e ==> table[k].refs != {}
    ensures !found ==> forall k :: 0 <= k < |table| ==> table[k].refs != {} && table[k].inum != inum
  {
    var i := 0;
    found, e := false, 0;
    while i < |table|
      invariant 0 <= i <= |table|
      invariant forall k :: 0 <= k < i ==> !(table[k].refs != {} && table[k].inum == inum)
      invariant if found then e < i && table[e].refs == {} && (forall k :: 0 <= k < e ==> table[k].refs != {})
                else forall k :: 0 <= k < i ==> table[k].refs != {}
    {
      if |table[i].refs| > 0 && table[i].inum == inum { return true, i; }
      if !found && |table[i].refs| == 0 { found, e := true, i; }
      i := i + 1;
    }
  }

  // ---------------------------------------------------------------- the invariant

  ghost predicate ThreadOk(s: State, t: nat) {
    t in s.pc ==>
      if s.pc[t].Allocated? then s.pc[t].inum in s.disk
      else
        && s.pc[t].e < |s.table| && t in s.table[s.pc[t].e].refs
        && (HoldsLock(s.pc[t]) <==> s.table[s.pc[t].e].lock == t)
  }

  /** How an entry in use, its lock and the disk agree. */
  ghost predicate Coherent(x: Entry, d: Dinode, pc: Pc) {
    if x.lock == FREE then x.valid ==> x.copy == d && d.kind != 0
    else match pc
      case Loading(_) => !x.valid
      case Locked(_) => x.valid && x.copy.kind != 0 && d.kind != 0
      case Truncating(_) => x.valid && x.copy.kind != 0 && d.kind != 0
      case Clearing(_) => x.valid && x.copy.kind != 0 && d.kind != 0
      case Erased(_) => true
      case Dropped(_) => !x.valid
      case _ => true
  }

  ghost predicate EntryOk(s: State, e: nat) {
    e < |s.table| ==>
      var x := s.table[e];
      && (forall t :: t in x.refs ==> t in s.pc && HasEntry(s.pc[t]) && s.pc[t].e == e)
      && (x.lock == FREE || (x.lock >= 0 && x.lock in x.refs && x.lock in s.pc && HoldsLock(s.pc[x.lock])))
      && (x.refs != {} ==>
            x.inum in s.disk && Coherent(x, s.disk[x.inum], if x.lock in s.pc then s.pc[x.lock] else Held(0)))
  }

  predicate InUse(table: seq<Entry>, i: int) { 0 <= i < |table| && table[i].refs != {} }

  /** At most one entry in use per inode number. */
  ghost predicate Unique(table: seq<Entry>) {
    forall i, j :: InUse(table, i) && InUse(table, j) && table[i].inum == table[j].inum ==> i == j
  }

  ghost predicate Inv(s: State) {
    && (forall t :: ThreadOk(s, t))
    && (forall e :: EntryOk(s, e))
    && Unique(s.table)
  }

  lemma GetKeeps(s: State, v: Event)
    requires Inv(s) && Can(s, v) && (v.Iget? || v.AllocGet?)
    ensures Inv(Do(s, v))
  {
    var r := Do(s, v);
    assert EntryOk(s, v.e) && ThreadOk(s, v.t);
    forall t ensures ThreadOk(r, t) { assert ThreadOk(s, t); }
    forall e ensures EntryOk(r, e) { assert EntryOk(s, e); }
  }

  lemma DupKeeps(s: State, v: Event)
    requires Inv(s) && Can(s, v) && v.Idup?
    ensures Inv(Do(s, v))
  {
    var r := Do(s, v);
    assert EntryOk(s, s.pc[v.t].e) && ThreadOk(s, v.t);
    forall t ensures ThreadOk(r, t) { assert ThreadOk(s, t); }
    forall e ensures EntryOk(r, e) { assert EntryOk(s, e); }
  }

  lemma LockKeeps(s: State, v: Event)
    requires Inv(s) && Can(s, v) && (v.Ilock? || v.Acquire? || v.Load? || v.Modify? || v.Iunlock?)
    ensures Inv(Do(s, v))
  {
    var r := Do(s, v);
    assert EntryOk(s, s.pc[v.t].e) && ThreadOk(s, v.t);
    forall t ensures ThreadOk(r, t) { assert ThreadOk(s, t); }
    forall e ensures EntryOk(r, e) { assert EntryOk(s, e); }
  }

  lemma PutThread(s: State, v: Event, t: nat)
    requires Can(s, v) && (v.Iput? || v.Invalidate? || v.Release? || v.Drop?)
    requires ThreadOk(s, v.t) && ThreadOk(s, t)
    ensures ThreadOk(Do(s, v), t)
  { hide Unique; }

  lemma PutEntry(s: State, v: Event, e: nat)
    requires Can(s, v) && (v.Iput? || v.Invalidate? || v.Release? || v.Drop?)
    requires ThreadOk(s, v.t) && EntryOk(s, s.pc[v.t].e) && EntryOk(s, e)
    ensures EntryOk(Do(s, v), e)
  {}

  lemma PutKeeps(s: State, v: Event)
    requires Inv(s) && Can(s, v) && (v.Iput? || v.Invalidate? || v.Release? || v.Drop?)
    ensures Inv(Do(s, v))
  {
    var r := Do(s, v);
    forall i ensures InUse(r.table, i) ==> InUse(s.table, i) && r.table[i].inum == s.table[i].inum {}
    hide ThreadOk, EntryOk, Do;
    forall t: nat ensures ThreadOk(r, t) { PutThread(s, v, t); }
    forall e: nat ensures EntryOk(r, e) { PutEntry(s, v, e); }
  }

  /** A holder's write to the disk inode concerns no other entry in use. */
  lemma WriteKeeps(s: State, v: Event)
    requires Inv(s) && Can(s, v) && (v.Iupdate? || v.Itrunc? || v.Clear?)
    ensures Inv(Do(s, v))
  {
    var r := Do(s, v);
    assert EntryOk(s, s.pc[v.t].e) && ThreadOk(s, v.t);
    forall t ensures ThreadOk(r, t) { assert ThreadOk(s, t); }
    forall e ensures EntryOk(r, e) { assert EntryOk(s, e); }
  }

  /** ialloc takes a free inode: an entry still in use for it is being freed, or holds nothing of the disk. */
  lemma AllocKeeps(s: State, v: Event)
    requires Inv(s) && Can(s, v) && v.Ialloc?
    ensures Inv(Do(s, v))
  {
    var r := Do(s, v);
    forall t ensures ThreadOk(r, t) { assert ThreadOk(s, t); }
    forall e ensures EntryOk(r, e) { assert EntryOk(s, e); }
  }

  lemma StepKeeps(s: State, v: Event)
    requires Inv(s) && Can(s, v)
    ensures Inv(Do(s, v))
  {
    hide Inv, Can, Do;
    match v {
      case Iget(_, _, _) => GetKeeps(s, v);
      case AllocGet(_, _) => GetKeeps(s, v);
      case Idup(_, _) => DupKeeps(s, v);
      case Ialloc(_, _, _) => AllocKeeps(s, v);
      case Iupdate(_) => WriteKeeps(s, v);
      case Itrunc(_) => WriteKeeps(s, v);
      case Clear(_) => WriteKeeps(s, v);
      case Iput(_) => PutKeeps(s, v);
      case Invalidate(_) => PutKeeps(s, v);
      case Release(_) => PutKeeps(s, v);
      case Drop(_) => PutKeeps(s, v);
      case _ => LockKeeps(s, v);
    }
  }

  // ---------------------------------------------------------------- runs

  ghost predicate Start(s: State) {
    s.pc == map[] && forall e :: 0 <= e < |s.table| ==> s.table[e].refs == {} && s.table[e].lock == FREE
  }

  ghost predicate Run(states: seq<State>, events: seq<Event>) {
    && |states| == |events| + 1 && Start(states[0])
    && forall k :: 0 <= k < |events| ==> Can(states[k], events[k]) && states[k + 1] == Do(states[k], events[k])
  }

  lemma {:induction false} RunKeeps(states: seq<State>, events: seq<Event>, k: nat)
    requires Run(states, events) && k < |states|
    ensures Inv(states[k])
    decreases k
  {
    hide Can, Do;
    if k == 0 {
      forall e ensures EntryOk(states[0], e) {}
    } else {
      RunKeeps(states, events, k - 1);
      StepKeeps(states[k - 1], events[k - 1]);
    }
  }

  /** iput, holding itable.lock, never waits for the sleep-lock of an inode whose last reference it drops. */
  lemma PutNeverWaits(s: State, t: nat)
    requires Inv(s) && At(s, t) && s.pc[t].Held? && LastUse(s.table[s.pc[t].e])
    ensures s.table[s.pc[t].e].lock == FREE && s.table[s.pc[t].e].refs == {t}
  {
    var x := s.table[s.pc[t].e];
    assert ThreadOk(s, t) && EntryOk(s, s.pc[t].e);
    One(x.refs, t);
  }

  lemma One(a: set<nat>, t: nat)
    requires |a| == 1 && t in a
    ensures a == {t}
  {
    assert |a - {t}| == 0;
  }

  /**
    * In every state of every run: an inode number has at most one entry in use; an entry in use that is valid and
    * unlocked is the disk inode, which is not free; the holder of a lock counts as a reference.
    */
  lemma TableCoherent(states: seq<State>, events: seq<Event>, k: nat, e: nat)
    requires Run(states, events) && k < |states| && e < |states[k].table|
    ensures Unique(states[k].table)
    ensures var s := states[k]; var x := s.table[e];
      x.refs != {} && x.valid && x.lock == FREE ==> x.inum in s.disk && x.copy == s.disk[x.inum] && x.copy.kind != 0
    ensures var x := states[k].table[e]; x.lock != FREE ==> x.lock in x.refs
  {
    hide Run;
    RunKeeps(states, events, k);
    assert EntryOk(states[k], e);
  }
}

/** The buffer cache and the log with everybody at work: any number of processes reading and changing blocks, and
    commit() as one more process, all interleaved at the points where kernel/bio.c and kernel/log.c hold no
    lock.  Each event is one critical section, or one stretch of code run by the holder of a buffer's sleep-lock;
    its effect on the cache is the step function of BlockStore. */
module CommitRuns {
  import opened Blocks
  import opened BlockStore
  import opened Crash
  import opened Handles
  import L = LogAdmission
  import opened LruRing
  import M = Monitor
  import opened Params

  // ---------- commit() as a process ----------

  /** A turn of write_log, the first write_head, a turn of install_trans, the second write_head. */
  datatype Job = CopyJob(t: nat) | NameJob | InstallJob(t: nat) | ClearJob

  /** Where commit() is.  In At(job, k) the next step is: 0 bget of the log area's block, 1 its lock, 2 bget of
      the home block, 3 its lock, 4 memmove (or filling the header), 5 bwrite, 6 bunpin, 7 and 8 the two halves
      of the first brelse, 9 and 10 of the second.  Erasing: log.lh.n = 0.  Done: committing = 0. */
  datatype Com = Off | At(job: Job, k: nat) | Erasing | Done

  predicate Pair(job: Job) { job.CopyJob? || job.InstallJob? }

  /** write_log releases the home block first, install_trans the log block. */
  function First(job: Job): (t: Tok) { if job.CopyJob? then HomeBuf else LogBuf }

  /** The buffer released last, which is also the one written. */
  function Second(job: Job): (t: Tok) { if job.InstallJob? then HomeBuf else LogBuf }

  function Target(job: Job, t: Tok, start: nat, lh: seq<nat>): (b: nat) {
    if t.HomeBuf? then (if Pair(job) && job.t < |lh| then lh[job.t] else 0)
    else if Pair(job) then start + 1 + job.t else start
  }

  predicate Fits(job: Job, k: nat) {
    k <= 10 && (!Pair(job) ==> k < 2 || 4 <= k < 6 || 9 <= k) && (k == 6 ==> job.InstallJob?)
  }

  function AfterJob(job: Job, n: nat): (c: Com) {
    match job
    case CopyJob(t) => if t + 1 < n then At(CopyJob(t + 1), 0) else At(NameJob, 0)
    case NameJob => At(InstallJob(0), 0)
    case InstallJob(t) => if t + 1 < n then At(InstallJob(t + 1), 0) else Erasing
    case ClearJob => Done
  }

  /** The program counter after one step, with n blocks in the transaction. */
  function Next(com: Com, n: nat): (c: Com)
    requires com.At?
  {
    var job, k := com.job, com.k;
    if k == 10 then AfterJob(job, n)
    else if k == 1 && !Pair(job) then At(job, 4)
    else if k == 5 then At(job, match job case InstallJob(_) => 6 case CopyJob(_) => 7 case _ => 9)
    else At(job, k + 1)
  }

  /** The phase of the log that goes with commit()'s place. */
  function PhaseOf(com: Com, n: nat): (p: Phase) {
    match com
    case Off | Done => Idle
    case Erasing => Installing(n)
    case At(CopyJob(t), k) => Logging(if k <= 5 then t else t + 1)
    case At(NameJob, k) => if k <= 5 then Logging(n) else Installing(0)
    case At(InstallJob(t), k) => Installing(if k <= 6 then t else t + 1)
    case At(ClearJob, k) => if k <= 5 then Clearing else Idle
  }

  /** How many of the commit's block writes have been issued. */
  function Wrote(com: Com, n: nat): (w: nat) {
    match com
    case Off => 0
    case Done => if n == 0 then 0 else 2 * n + 2
    case Erasing => 2 * n + 1
    case At(CopyJob(t), k) => if k <= 5 then t else t + 1
    case At(NameJob, k) => if k <= 5 then n else n + 1
    case At(InstallJob(t), k) => n + 1 + (if k <= 5 then t else t + 1)
    case At(ClearJob, k) => if k <= 5 then 2 * n + 1 else 2 * n + 2
  }

  lemma NextPhase(com: Com, n: nat)
    requires com.At? && Fits(com.job, com.k) && (Pair(com.job) ==> com.job.t < n) && n > 0
    ensures com.k != 5 ==> Wrote(Next(com, n), n) == Wrote(com, n)
    ensures com.k == 5 ==> Wrote(Next(com, n), n) == Wrote(com, n) + 1
    ensures com.k != 5 && com.k != 6 ==> PhaseOf(Next(com, n), n) == PhaseOf(com, n)
  {}

  /** What commit() should be doing with one of its two handles. */
  function Expected(com: Com, t: Tok): (st: Option<Stage>) {
    if !com.At? || (t.HomeBuf? && !Pair(com.job)) then None
    else
      var got := if t.LogBuf? then 1 else 3;
      var free := if Pair(com.job) && t == First(com.job) then 8 else 10;
      if com.k < got || free < com.k then None
      else Some(if com.k == got then Waiting else if com.k == free then Letting else Holding)
  }

  ghost predicate ComHand(use: Uses, com: Com, start: nat, lh: seq<nat>, t: Tok) {
    match Expected(com, t)
    case None => t !in use
    case Some(st) =>
      && t in use && use[t].stage == st && use[t].b == Target(com.job, t, start, lh)
      && (use[t].dirty <==> com.k == 5 && t == Second(com.job))
  }

  ghost predicate ComHands(use: Uses, com: Com, start: nat, lh: seq<nat>) {
    && (com.At? ==> Fits(com.job, com.k))
    && ComHand(use, com, start, lh, LogBuf) && ComHand(use, com, start, lh, HomeBuf)
  }

  // ---------- The system ----------

  datatype Panic = Fine | NoBuffers | TooBig | OutsideOp | Recommit

  /** The commit under way or last done: the disk and the writes issued when it began, its transaction, and the
      block map as the previous commit and as this one made it durable. */
  datatype History = History(disk: Disk, issued: seq<Write>, txn: seq<Write>, was: Disk, will: Disk)

  /** ops are the operations between begin_op and end_op, each with the blocks it has logged. */
  datatype Sys = Sys(
    s: State, use: Uses, owner: map<nat, Tok>, ops: map<nat, set<nat>>, com: Com, h: History, panic: Panic)

  datatype Event =
    | Get(t: Tok, b: nat, p: nat, op: Option<nat>)   // bget's critical section
    | NoBuf(t: Tok, b: nat)                          // bget finds no buffer
    | Lock(t: Tok)                                   // acquiresleep, and bread's fill
    | Modify(t: Tok, data: Block)                    // the holder changes b->data
    | LogIt(t: Tok)                                  // log_write
    | Free(t: Tok)                                   // brelse: releasesleep
    | Drop(t: Tok)                                   // brelse: refcnt-- and the relinking
    | BeginOp(o: nat)                                // begin_op lets operation o in
    | EndOp(o: nat)                                  // end_op's first critical section
    | Move | Flush | Unpin | Erase | Finish          // commit()'s own steps

  /** The handle is a reference to a buffer of the cache. */
  ghost predicate Live(m: Sys, t: Tok) {
    t in m.use && var p := m.use[t].p;
    && p < |m.s.buf| && p < |m.s.held| && m.s.buf[p].refcnt >= 1 && m.s.held[p] >= 1
    && m.s.buf[p].blockno < |m.s.disk| && m.s.buf[p].blockno < |m.s.view|
  }

  /** commit() is about to take this step with this handle. */
  predicate GetDue(com: Com, t: Tok) {
    com.At? && com.k == (if t.LogBuf? then 0 else 2) && (t.LogBuf? || Pair(com.job))
  }
  predicate LockDue(com: Com, t: Tok) { com.At? && com.k == (if t.LogBuf? then 1 else 3) }
  predicate FreeDue(com: Com, t: Tok) {
    com.At? && ((com.k == 7 && t == First(com.job)) || (com.k == 9 && t == Second(com.job)))
  }
  predicate DropDue(com: Com, t: Tok) {
    com.At? && ((com.k == 8 && t == First(com.job)) || (com.k == 10 && t == Second(com.job)))
  }

  /** Blocks of the log area are commit()'s own; a process inside an operation says which. */
  ghost predicate MayAsk(m: Sys, start: nat, t: Tok, b: nat, op: Option<nat>) {
    && t !in m.use && b < |m.s.disk|
    && (if t.User? then !InLog(start, b) && (op.Some? ==> op.value in m.ops)
        else op.None? && GetDue(m.com, t) && b == Target(m.com.job, t, start, m.s.lh))
  }

  ghost predicate MayGet(m: Sys, start: nat, t: Tok, b: nat, p: nat, op: Option<nat>) {
    && MayAsk(m, start, t, b, op)
    && |m.s.buf| == |m.s.held| == |m.s.order| == NBUF && IsOrder(m.s.order) && Chosen(m.s, b, p)
  }

  ghost predicate MayLock(m: Sys, t: Tok) {
    Live(m, t) && m.use[t].stage.Waiting? && !m.s.buf[m.use[t].p].locked && (t.User? || LockDue(m.com, t))
  }

  ghost predicate MayChange(m: Sys, t: Tok) {
    t.User? && Live(m, t) && m.use[t].stage.Holding? && m.use[t].op.Some?
  }

  /** An operation logs fewer than MAXOPBLOCKS distinct blocks. */
  ghost predicate MayLog(m: Sys, t: Tok) {
    MayChange(m, t) && var u := m.use[t]; u.op.value in m.ops && |m.ops[u.op.value] + {u.b}| < MAXOPBLOCKS
  }

  ghost predicate MayFree(m: Sys, t: Tok) {
    Live(m, t) && m.use[t].stage.Holding? && !m.use[t].dirty && (t.User? || FreeDue(m.com, t))
  }

  ghost predicate MayDrop(m: Sys, t: Tok) {
    Live(m, t) && m.use[t].stage.Letting? && (t.User? || DropDue(m.com, t))
  }

  ghost predicate MayBegin(m: Sys, o: nat) {
    o !in m.ops && !m.s.committing && |m.s.lh| + (m.s.outstanding + 1) * MAXOPBLOCKS <= LOGBLOCKS
  }

  ghost predicate MayEnd(m: Sys, o: nat) {
    o in m.ops && m.s.outstanding >= 1 && forall t <- m.use :: m.use[t].op != Some(o)
  }

  ghost predicate MayMove(m: Sys) {
    m.com.At? && m.com.k == 4 && Live(m, LogBuf) && (Pair(m.com.job) ==> Live(m, HomeBuf)) && |m.s.lh| <= LOGBLOCKS
  }

  /** What the code allows: a process changes a block only inside an operation and logs it before brelse, and an
      operation logs fewer than MAXOPBLOCKS distinct blocks and ends after its last brelse. */
  ghost predicate May(m: Sys, e: Event, start: nat) {
    m.panic.Fine? &&
    match e
    case Get(t, b, p, op) => MayGet(m, start, t, b, p, op)
    case NoBuf(t, b) => MayAsk(m, start, t, b, None) && NoBuffer(m.s, b)
    case Lock(t) => MayLock(m, t)
    case Modify(t, _) => MayChange(m, t)
    case LogIt(t) => MayLog(m, t)
    case Free(t) => MayFree(m, t)
    case Drop(t) => MayDrop(m, t)
    case BeginOp(o) => MayBegin(m, o)
    case EndOp(o) => MayEnd(m, o)
    case Move => MayMove(m)
    case Flush => m.com.At? && m.com.k == 5 && Live(m, Second(m.com.job))
    case Unpin => m.com.At? && m.com.k == 6 && Live(m, HomeBuf)
    case Erase => m.com.Erasing?
    case Finish => m.com.Done?
  }

  function Step(com: Com, n: nat, t: Tok): (c: Com) { if com.At? && !t.User? then Next(com, n) else com }

  ghost function Gets(m: Sys, t: Tok, b: nat, p: nat, op: Option<nat>): (r: Sys)
    requires p < |m.s.buf| && p < |m.s.held|
  {
    m.(s := Got(m.s, b, p), use := m.use[t := Use(p, b, Waiting, op, false)], com := Step(m.com, |m.h.txn|, t))
  }

  ghost function Locks(m: Sys, t: Tok): (r: Sys)
    requires Live(m, t)
  {
    m.(s := Locked(m.s, m.use[t].p), use := m.use[t := m.use[t].(stage := Holding)],
       owner := m.owner[m.use[t].p := t], com := Step(m.com, |m.h.txn|, t))
  }

  ghost function Changes(m: Sys, t: Tok, data: Block): (r: Sys)
    requires Live(m, t)
  { m.(s := Stored(m.s, m.use[t].p, data), use := m.use[t := m.use[t].(dirty := true)]) }

  ghost function Logs(m: Sys, t: Tok): (r: Sys)
    requires Live(m, t) && m.use[t].op.Some? && m.use[t].op.value in m.ops
  {
    if |m.s.lh| >= LOGBLOCKS then m.(panic := TooBig)
    else if m.s.outstanding < 1 then m.(panic := OutsideOp)
    else
      var u := m.use[t];
      m.(s := if u.b in m.s.lh then m.s else Logged(m.s, u.p), use := m.use[t := u.(dirty := false)],
         ops := m.ops[u.op.value := m.ops[u.op.value] + {u.b}])
  }

  ghost function Frees(m: Sys, t: Tok): (r: Sys)
    requires Live(m, t)
  {
    m.(s := Released(m.s, m.use[t].p), use := m.use[t := m.use[t].(stage := Letting)],
       owner := m.owner - {m.use[t].p}, com := Step(m.com, |m.h.txn|, t))
  }

  ghost function Drops(m: Sys, t: Tok): (r: Sys)
    requires Live(m, t)
  { m.(s := Put(m.s, m.use[t].p), use := m.use - {t}, com := Step(m.com, |m.h.txn|, t)) }

  ghost function Begun(m: Sys, o: nat): (r: Sys) {
    m.(s := m.s.(outstanding := m.s.outstanding + 1), ops := m.ops[o := {}])
  }

  ghost function Ends(m: Sys, o: nat): (r: Sys)
    requires m.s.outstanding >= 1
  {
    if m.s.committing then m.(panic := Recommit)
    else if m.s.outstanding > 1 then m.(s := m.s.(outstanding := m.s.outstanding - 1), ops := m.ops - {o})
    else
      var com := if m.s.lh == [] then Done else At(CopyJob(0), 0);
      m.(s := m.s.(outstanding := 0, committing := true, phase := PhaseOf(com, |m.s.lh|)), ops := m.ops - {o},
         com := com, h := History(m.s.disk, m.s.issued, Txn(m.s), m.h.was, m.s.view))
  }

  /** The bytes commit() puts in the buffer it is about to write. */
  ghost function Moved(m: Sys): (data: Block)
    requires MayMove(m)
  {
    match m.com.job
    case CopyJob(_) => m.s.buf[m.use[HomeBuf].p].data
    case InstallJob(_) => m.s.buf[m.use[LogBuf].p].data
    case _ => PutHead(m.s.buf[m.use[LogBuf].p].data, m.s.lh)
  }

  ghost function Moves(m: Sys): (r: Sys)
    requires MayMove(m)
  { Changes(m, Second(m.com.job), Moved(m)).(com := Next(m.com, |m.h.txn|)) }

  ghost function Flushes(m: Sys): (r: Sys)
    requires m.com.At? && Live(m, Second(m.com.job))
  {
    var t, com := Second(m.com.job), Next(m.com, |m.h.txn|);
    m.(s := Written(m.s, m.use[t].p).(phase := PhaseOf(com, |m.h.txn|)),
       use := m.use[t := m.use[t].(dirty := false)], com := com)
  }

  ghost function Unpins(m: Sys): (r: Sys)
    requires m.com.At? && Live(m, HomeBuf)
  {
    var com := Next(m.com, |m.h.txn|);
    m.(s := Unpinned(m.s, m.use[HomeBuf].p).(phase := PhaseOf(com, |m.h.txn|)), com := com)
  }

  ghost function Erases(m: Sys): (r: Sys) { m.(s := m.s.(lh := [], phase := Clearing), com := At(ClearJob, 0)) }

  ghost function After(m: Sys, e: Event, start: nat): (r: Sys)
    requires May(m, e, start)
  {
    match e
    case Get(t, b, p, op) => Gets(m, t, b, p, op)
    case NoBuf(t, b) => m.(panic := NoBuffers)
    case Lock(t) => Locks(m, t)
    case Modify(t, data) => Changes(m, t, data)
    case LogIt(t) => Logs(m, t)
    case Free(t) => Frees(m, t)
    case Drop(t) => Drops(m, t)
    case BeginOp(o) => Begun(m, o)
    case EndOp(o) => Ends(m, o)
    case Move => Moves(m)
    case Flush => Flushes(m)
    case Unpin => Unpins(m)
    case Erase => Erases(m)
    case Finish => m.(s := m.s.(committing := false), com := Off, h := m.h.(was := m.h.will))
  }

  // ---------- The invariant ----------

  /** The log and its operations, as the account of log space sees them. */
  ghost function Account(m: Sys): (l: L.Log) {
    L.Log(m.s.lh, m.s.outstanding, m.s.committing, m.ops, if m.s.committing then 0 else M.NOBODY)
  }

  /** What open operations may still log fits in the log. */
  ghost predicate Roomy(m: Sys) { L.SpaceOk(Account(m)) }

  ghost predicate OpsOk(m: Sys, start: nat) {
    && Roomy(m)
    && m.s.outstanding == |m.ops| && (m.s.committing <==> !m.com.Off?) && (!m.com.Off? ==> m.ops == map[])
    && (forall t <- m.use :: t.User? ==>
          !InLog(start, m.use[t].b) && (m.use[t].op.Some? ==> m.use[t].op.value in m.ops) &&
          (m.use[t].dirty ==> m.use[t].op.Some?))
    && (m.panic.Fine? || m.panic.NoBuffers?)
  }

  predicate Erased(com: Com) { com.Done? || (com.At? && com.job.ClearJob?) }

  ghost predicate JobFits(com: Com, n: nat) {
    && (com.At? || com.Erasing? ==> n > 0)
    && (com.At? ==> Fits(com.job, com.k) && (Pair(com.job) ==> com.job.t < n))
  }

  /** The disk is what the commit started from plus the first of the protocol's writes, and the buffer about to be
      written holds the next one. */
  ghost predicate Progress(s: State, com: Com, h: History, start: nat)
    requires start < |h.disk| && |h.txn| <= LOGBLOCKS
  {
    var ws, w := CommitWrites(h.disk, start, h.txn), Wrote(com, |h.txn|);
    && w <= |ws| && s.issued == h.issued + ws[..w] && s.disk == Apply(h.disk, ws[..w])
    && (com.At? && com.k == 5 ==> w < |ws| && ws[w].bno < |s.view| && s.view[ws[w].bno] == ws[w].data)
  }

  ghost predicate Underway(s: State, com: Com, h: History, start: nat) {
    && Clean(h.disk, start) && |h.disk| == |s.disk| && IsTransaction(h.disk, start, h.txn)
    && SameHome(h.disk, h.was, start) && SameHome(Apply(h.disk, h.txn), h.will, start)
    && SameHome(s.view, h.will, start)
    && s.lh == (if Erased(com) then [] else Bnos(h.txn))
    && Progress(s, com, h, start)
  }

  ghost predicate Committed(s: State, com: Com, h: History, start: nat) {
    && start + LOGBLOCKS < |s.disk| == |s.view|
    && JobFits(com, |h.txn|) && s.phase == PhaseOf(com, |h.txn|)
    && (if com.Off? then SameHome(s.disk, h.was, start) else Underway(s, com, h, start))
  }

  /** The cache's side of the invariant. */
  ghost predicate Cached(m: Sys, start: nat) { Inv(m.s, start) && Hands(m.s, m.use, m.owner) }

  /** The log's side. */
  ghost predicate Charted(m: Sys, start: nat) {
    OpsOk(m, start) && ComHands(m.use, m.com, start, m.s.lh) && Committed(m.s, m.com, m.h, start)
  }

  ghost predicate Good(m: Sys, start: nat) { Cached(m, start) && Charted(m, start) }

  // ---------- Steps that leave the disk, the block map and the log alone ----------

  ghost predicate SameHand(use: Uses, v: Uses, t: Tok) { (t in use <==> t in v) && (t in use ==> v[t] == use[t]) }

  /** commit()'s own handles do not notice what processes do. */
  lemma OthersComHands(use: Uses, v: Uses, com: Com, start: nat, lh: seq<nat>)
    requires ComHands(use, com, start, lh) && SameHand(use, v, LogBuf) && SameHand(use, v, HomeBuf)
    ensures ComHands(v, com, start, lh)
  {}

  lemma GetComHands(use: Uses, com: Com, start: nat, lh: seq<nat>, n: nat, t: Tok, p: nat)
    requires ComHands(use, com, start, lh) && !t.User? && GetDue(com, t)
    ensures ComHands(use[t := Use(p, Target(com.job, t, start, lh), Waiting, None, false)], Next(com, n), start, lh)
  {}

  lemma LockComHands(use: Uses, com: Com, start: nat, lh: seq<nat>, n: nat, t: Tok)
    requires ComHands(use, com, start, lh) && !t.User? && LockDue(com, t) && t in use
    ensures !use[t].dirty && ComHands(use[t := use[t].(stage := Holding)], Next(com, n), start, lh)
  {}

  lemma FreeComHands(use: Uses, com: Com, start: nat, lh: seq<nat>, n: nat, t: Tok)
    requires ComHands(use, com, start, lh) && !t.User? && FreeDue(com, t) && t in use
    ensures ComHands(use[t := use[t].(stage := Letting)], Next(com, n), start, lh)
  {}

  lemma DropComHands(use: Uses, com: Com, start: nat, lh: seq<nat>, n: nat, t: Tok)
    requires ComHands(use, com, start, lh) && !t.User? && DropDue(com, t) && t in use
    ensures ComHands(use - {t}, Next(com, n), start, lh)
  {}

  /** The log's side of the state. */
  ghost predicate SameLog(s: State, r: State) {
    && r.disk == s.disk && r.view == s.view && r.lh == s.lh && r.phase == s.phase && r.issued == s.issued
    && r.outstanding == s.outstanding && r.committing == s.committing
  }

  lemma StepCommitted(s: State, r: State, com: Com, h: History, start: nat, t: Tok)
    requires Committed(s, com, h, start) && SameLog(s, r)
    requires t.User? || (com.At? && !(4 <= com.k <= 6))
    ensures Committed(r, Step(com, |h.txn|, t), h, start)
  {
    hide Clean, IsTransaction, SameHome, Apply, CommitWrites;
    if !t.User? { NextPhase(com, |h.txn|); }
  }

  /** Whatever changes only one handle, and no more than its stage, keeps the operations' bookkeeping. */
  ghost predicate SameOps(m: Sys, r: Sys) {
    && r.ops == m.ops && r.panic == m.panic && (r.com.Off? <==> m.com.Off?)
    && r.s.outstanding == m.s.outstanding && r.s.committing == m.s.committing && r.s.lh == m.s.lh
  }

  lemma SameRoom(m: Sys, r: Sys)
    requires Roomy(m) && SameOps(m, r)
    ensures Roomy(r)
  { hide L.SpaceOk; }

  lemma StepOps(m: Sys, r: Sys, start: nat, t: Tok)
    requires OpsOk(m, start) && SameOps(m, r)
    requires forall x <- r.use :: x != t ==> x in m.use && r.use[x] == m.use[x]
    requires t in r.use && t.User? ==>
        !InLog(start, r.use[t].b) && (r.use[t].op.Some? ==> r.use[t].op.value in m.ops) &&
        (r.use[t].dirty ==> r.use[t].op.Some?)
    ensures OpsOk(r, start)
  {
    hide Roomy;
    SameRoom(m, r);
  }

  lemma StepStaysOn(com: Com, n: nat, t: Tok)
    ensures Step(com, n, t).Off? <==> com.Off?
  {}

  lemma GetCached(m: Sys, start: nat, t: Tok, b: nat, p: nat, op: Option<nat>)
    requires Cached(m, start) && MayGet(m, start, t, b, p, op)
    ensures p < NBUF && Cached(Gets(m, t, b, p, op), start) && SameIdentity(m.s, Gets(m, t, b, p, op).s)
  {
    hide Inv, CacheOk, Hands, LeastRecent;
    InvCache(m.s, start);
    GetHands(m.s, m.use, m.owner, t, b, p, op);
    GotKeeps(m.s, start, b, p);
  }

  lemma GetCharted(m: Sys, start: nat, t: Tok, b: nat, p: nat, op: Option<nat>)
    requires Charted(m, start) && MayGet(m, start, t, b, p, op) && p < NBUF
    ensures Charted(Gets(m, t, b, p, op), start)
  {
    hide IsOrder, Chosen, Committed, ComHands;
    var r := Gets(m, t, b, p, op);
    StepStaysOn(m.com, |m.h.txn|, t);
    StepOps(m, r, start, t);
    StepCommitted(m.s, r.s, m.com, m.h, start, t);
    if t.User? { OthersComHands(m.use, r.use, m.com, start, m.s.lh); }
    else { GetComHands(m.use, m.com, start, m.s.lh, |m.h.txn|, t, p); }
  }

  lemma LockCached(m: Sys, start: nat, t: Tok)
    requires Cached(m, start) && MayLock(m, t)
    ensures Cached(Locks(m, t), start) && SameIdentity(m.s, Locks(m, t).s)
  {
    hide Inv, CacheOk, Hands;
    InvCache(m.s, start);
    WaitingHand(m.s, m.use, m.owner, t);
    LockedKeepsInv(m.s, start, m.use[t].p);
    LockHands(m.s, m.use, m.owner, t);
  }

  lemma LockCharted(m: Sys, start: nat, t: Tok)
    requires Charted(m, start) && MayLock(m, t)
    ensures Charted(Locks(m, t), start)
  {
    hide Committed, ComHands;
    var r := Locks(m, t);
    StepStaysOn(m.com, |m.h.txn|, t);
    StepOps(m, r, start, t);
    StepCommitted(m.s, r.s, m.com, m.h, start, t);
    if t.User? { OthersComHands(m.use, r.use, m.com, start, m.s.lh); }
    else { LockComHands(m.use, m.com, start, m.s.lh, |m.h.txn|, t); }
  }

  lemma FreeCached(m: Sys, start: nat, t: Tok)
    requires Cached(m, start) && MayFree(m, t)
    ensures Cached(Frees(m, t), start) && SameIdentity(m.s, Frees(m, t).s)
  {
    hide Inv, CacheOk, Hands, MayRelease;
    InvCache(m.s, start);
    HeldData(m.s, m.use, m.owner, t);
    FreeHands(m.s, m.use, m.owner, t);
    ReleasedKeepsInv(m.s, start, m.use[t].p);
  }

  lemma FreeCharted(m: Sys, start: nat, t: Tok)
    requires Charted(m, start) && MayFree(m, t)
    ensures Charted(Frees(m, t), start)
  {
    hide Committed, ComHands;
    var r := Frees(m, t);
    StepStaysOn(m.com, |m.h.txn|, t);
    StepOps(m, r, start, t);
    StepCommitted(m.s, r.s, m.com, m.h, start, t);
    if t.User? { OthersComHands(m.use, r.use, m.com, start, m.s.lh); }
    else { FreeComHands(m.use, m.com, start, m.s.lh, |m.h.txn|, t); }
  }

  lemma DropCached(m: Sys, start: nat, t: Tok)
    requires Cached(m, start) && MayDrop(m, t)
    ensures Cached(Drops(m, t), start) && SameIdentity(m.s, Drops(m, t).s)
  {
    hide Inv, CacheOk, Hands, Put, Dropped, Linked;
    InvCache(m.s, start);
    LettingCounts(m.s, m.use, m.owner, t);
    PutKeepsInv(m.s, start, m.use[t].p);
    DropHands(m.s, m.use, m.owner, t);
    PutHands(m.s, m.use - {t}, m.owner, m.use[t].p);
  }

  lemma DropCharted(m: Sys, start: nat, t: Tok)
    requires Charted(m, start) && MayDrop(m, t)
    ensures Charted(Drops(m, t), start)
  {
    hide Committed, ComHands;
    var r := Drops(m, t);
    StepStaysOn(m.com, |m.h.txn|, t);
    StepOps(m, r, start, t);
    StepCommitted(m.s, r.s, m.com, m.h, start, t);
    if t.User? { OthersComHands(m.use, r.use, m.com, start, m.s.lh); }
    else { DropComHands(m.use, m.com, start, m.s.lh, |m.h.txn|, t); }
  }

  // ---------- What processes do inside an operation ----------

  lemma InsideOp(m: Sys, start: nat, t: Tok)
    requires Charted(m, start) && MayChange(m, t)
    ensures m.com.Off? && m.s.phase.Idle? && m.s.outstanding >= 1 && !InLog(start, m.use[t].b)
  { hide ComHands, Roomy; }

  lemma ChangeCached(m: Sys, start: nat, t: Tok, data: Block)
    requires Cached(m, start) && MayChange(m, t) && m.s.phase.Idle?
    ensures Cached(Changes(m, t, data), start) && SameIdentity(m.s, Changes(m, t, data).s)
  {
    hide Inv, CacheOk, Hands;
    InvCache(m.s, start);
    HeldData(m.s, m.use, m.owner, t);
    StoreHands(m.s, m.use, m.owner, t, data);
    StoredKeepsInv(m.s, start, m.use[t].p, data);
  }

  lemma ChangeCharted(m: Sys, start: nat, t: Tok, data: Block)
    requires Charted(m, start) && MayChange(m, t)
    ensures Charted(Changes(m, t, data), start)
  {
    InsideOp(m, start, t);
    hide ComHands, SameHome;
    var r := Changes(m, t, data);
    StepOps(m, r, start, t);
    OthersComHands(m.use, r.use, m.com, start, m.s.lh);
  }

  /** Between commits every logged block is pinned. */
  lemma LoggedIsPinned(s: State, start: nat, b: nat)
    requires Inv(s, start) && s.phase.Idle? && b in s.lh
    ensures b in s.pins
  { hide RingOk, Full, CacheOk, Apply, HomeBlocks; }

  lemma LogCached(m: Sys, start: nat, t: Tok)
    requires Cached(m, start) && MayLog(m, t) && m.s.phase.Idle? && !InLog(start, m.use[t].b)
    ensures Cached(Logs(m, t), start) && SameIdentity(m.s, Logs(m, t).s)
  {
    hide Inv, CacheOk, Hands;
    InvCache(m.s, start);
    HeldData(m.s, m.use, m.owner, t);
    LogHands(m.s, m.use, m.owner, t);
    if |m.s.lh| < LOGBLOCKS {
      if m.use[t].b in m.s.lh { LoggedIsPinned(m.s, start, m.use[t].b); } else { LoggedKeeps(m.s, start, m.use[t].p); }
    }
  }

  /** log_write charges the block to its operation; neither of its panics is reached. */
  lemma LogRoomy(m: Sys, t: Tok)
    requires Roomy(m) && MayLog(m, t) && m.panic.Fine? && m.s.buf[m.use[t].p].blockno == m.use[t].b
    ensures Roomy(Logs(m, t)) && Logs(m, t).panic.Fine?
  {
    hide L.SpaceOk;
    var u, r := m.use[t], Logs(m, t);
    var o := u.op.value;
    AddOne(m.ops[o], u.b);
    L.NotFull(o, Account(m));
    L.WriteKeeps(o, Account(m), Account(r), u.b);
  }

  lemma AddOne(bs: set<nat>, b: nat)
    ensures |bs| <= |bs + {b}|
  { if b in bs { assert bs + {b} == bs; } }

  lemma LogCharted(m: Sys, start: nat, t: Tok)
    requires Charted(m, start) && MayLog(m, t) && m.panic.Fine? && m.s.buf[m.use[t].p].blockno == m.use[t].b
    ensures Charted(Logs(m, t), start)
  {
    InsideOp(m, start, t);
    LogRoomy(m, t);
    hide SameHome, Roomy;
    var r := Logs(m, t);
    assert r.ops.Keys == m.ops.Keys;
    assert |r.ops| == |r.ops.Keys| == |m.ops.Keys| == |m.ops|;
  }

  lemma BeginRoomy(m: Sys, o: nat)
    requires Roomy(m) && MayBegin(m, o)
    ensures Roomy(Begun(m, o))
  { L.AdmitKeeps(o, Account(m)); }

  lemma BeginKeeps(m: Sys, start: nat, o: nat)
    requires Good(m, start) && May(m, BeginOp(o), start)
    ensures Good(After(m, BeginOp(o), start), start) && SameIdentity(m.s, After(m, BeginOp(o), start).s)
  {
    hide Inv, Hands, Charted;
    BeginCharted(m, start, o);
    OpsKeepInv(m.s, start, m.s.outstanding + 1, m.s.committing);
    SameHands(m.s, m.s.(outstanding := m.s.outstanding + 1), m.use, m.owner);
  }

  lemma BeginCharted(m: Sys, start: nat, o: nat)
    requires Charted(m, start) && MayBegin(m, o)
    ensures Charted(Begun(m, o), start)
  {
    hide ComHands, SameHome, Roomy, Underway;
    BeginRoomy(m, o);
    L.Sizes(m.ops, o, {});
  }

  // ---------- The beginning and the end of a commit ----------

  /** With no operation open, a block that differs from its disk copy is in the transaction. */
  lemma OnlyLoggedStale(m: Sys, start: nat, o: nat, b: nat)
    requires Good(m, start) && MayEnd(m, o) && m.s.outstanding == 1 && m.com.Off?
    requires 0 <= b < |m.s.disk| && m.s.view[b] != m.s.disk[b]
    ensures b in m.s.lh
  {
    hide Inv, Owned, Tallied, Roomy, SameHome;
    IdlePins(m.s, start);
    hide Committed;
    OneOp(m.ops, o);
  }

  lemma IdlePins(s: State, start: nat)
    requires Inv(s, start) && s.phase.Idle?
    ensures s.pins == SetOf(s.lh)
  { hide CacheOk, RingOk, Full, Apply, HomeBlocks; }

  lemma OneOp(ops: map<nat, set<nat>>, o: nat)
    requires |ops| == 1 && o in ops
    ensures ops.Keys == {o} && ops - {o} == map[]
  {
    assert |ops.Keys - {o}| == 0;
  }

  lemma EndRoomy(m: Sys, o: nat)
    requires Roomy(m) && o in m.ops && m.s.outstanding >= 1
    ensures !m.s.committing && Roomy(Ends(m, o)) && |m.ops - {o}| == |m.ops| - 1
  {
    L.LeaveKeeps(o, Account(m));
    L.Sizes(m.ops, o, {});
    hide L.Reserved, L.Recorded;
  }

  /** Writing the transaction over the disk gives the block map. */
  lemma TxnMakesView(m: Sys, start: nat, o: nat)
    requires Good(m, start) && MayEnd(m, o) && m.s.outstanding == 1 && m.com.Off?
    ensures SameHome(Apply(m.s.disk, Txn(m.s)), m.s.view, start)
  {
    var txn, d := Txn(m.s), m.s.disk;
    assert |d| == |m.s.view|;
    IdleIsClean(m.s, start);
    forall b | 0 <= b < |d| ensures Apply(d, txn)[b] == m.s.view[b] {
      if b in m.s.lh {
        var i :| 0 <= i < |m.s.lh| && m.s.lh[i] == b;
        TxnAt(d, start, txn, i);
      } else {
        if m.s.view[b] != d[b] { OnlyLoggedStale(m, start, o, b); }
        ApplyElsewhere(d, txn, b);
      }
    }
  }

  lemma TxnAt(d: Disk, start: nat, txn: seq<Write>, i: nat)
    requires IsTransaction(d, start, txn) && i < |txn|
    ensures txn[i].bno < |d| && !InLog(start, txn[i].bno) && Apply(d, txn)[txn[i].bno] == txn[i].data
  {
    assert Bnos(txn)[i] == txn[i].bno;
    forall j | i < j < |txn| ensures txn[j].bno != txn[i].bno { assert Bnos(txn)[j] != Bnos(txn)[i]; }
    ApplyAt(d, txn, i);
  }

  lemma EndCached(m: Sys, start: nat, o: nat)
    requires Cached(m, start) && m.s.outstanding >= 1 && m.s.phase.Idle?
    ensures Cached(Ends(m, o), start)
  {
    hide Inv, Hands;
    var r := Ends(m, o);
    SameHands(m.s, r.s, m.use, m.owner);
    if !m.s.committing {
      if r.s.phase.Logging? { StartLogging(m.s, start); }
      OpsKeepInv(m.s.(phase := r.s.phase), start, r.s.outstanding, r.s.committing);
    }
  }

  /** end_op by one of several operations. */
  lemma EndOneOf(m: Sys, start: nat, o: nat)
    requires Charted(m, start) && MayEnd(m, o) && m.s.outstanding > 1
    ensures Charted(Ends(m, o), start)
  {
    hide ComHands, SameHome, Roomy;
    assert m.com.Off? by { assert o in m.ops; }
    EndRoomy(m, o);
  }

  /** end_op by the last one: the commit's history starts out right. */
  lemma EndLast(m: Sys, start: nat, o: nat)
    requires Good(m, start) && MayEnd(m, o) && m.s.outstanding == 1
    ensures Charted(Ends(m, o), start)
  {
    hide Inv, Hands, Txn, Bnos, Clean, HomeBlocks, Progress, Roomy;
    var r := Ends(m, o);
    assert m.com.Off? by { assert o in m.ops; }
    TxnMakesView(m, start, o);
    IdleIsClean(m.s, start);
    EndLastOps(m, start, o);
    hide OpsOk;
    CommitEmpty(r.s, r.com, r.h, start);
    assert SameHome(m.s.view, m.s.view, start);
  }

  lemma EndLastOps(m: Sys, start: nat, o: nat)
    requires OpsOk(m, start) && MayEnd(m, o) && m.s.outstanding == 1 && m.com.Off?
    ensures OpsOk(Ends(m, o), start)
  {
    hide Roomy;
    OneOp(m.ops, o);
    EndRoomy(m, o);
  }

  lemma CommitEmpty(s: State, com: Com, h: History, start: nat)
    requires start < |h.disk| && |h.txn| <= LOGBLOCKS && s.disk == h.disk && s.issued == h.issued
    requires com == if h.txn == [] then Done else At(CopyJob(0), 0)
    ensures Progress(s, com, h, start)
  {
    hide PutHead;
    var ws := CommitWrites(h.disk, start, h.txn);
    assert ws[..0] == [] && h.issued + [] == h.issued;
  }

  lemma EraseCached(m: Sys, start: nat)
    requires Good(m, start) && m.com.Erasing?
    ensures Cached(Erases(m), start)
  {
    hide Inv, Hands, PutHead;
    assert m.s.phase == Installing(|m.s.lh|) by { hide ComHands, OpsOk, Progress, SameHome, Apply; }
    hide Charted;
    HeadClear(m.s, start);
    SameHands(m.s, Erases(m).s, m.use, m.owner);
  }

  lemma EraseCharted(m: Sys, start: nat)
    requires Charted(m, start) && m.com.Erasing?
    ensures Charted(Erases(m), start)
  { hide SameHome, Apply, CommitWrites, HomeBlocks, Clean, Bnos; }

  /** committing = 0: the disk's home blocks are the block map the commit made durable. */
  lemma FinishKeeps(m: Sys, start: nat)
    requires Good(m, start) && May(m, Finish, start)
    ensures Good(After(m, Finish, start), start) && SameIdentity(m.s, After(m, Finish, start).s)
  {
    hide Inv, Hands, Underway, SameHome;
    DoneIsWill(m.s, m.h, start);
    OpsKeepInv(m.s, start, m.s.outstanding, false);
    SameHands(m.s, After(m, Finish, start).s, m.use, m.owner);
  }

  lemma DoneIsWill(s: State, h: History, start: nat)
    requires Underway(s, Done, h, start)
    ensures SameHome(s.disk, h.will, start)
  {
    hide CommitWrites, Apply, HomeBlocks, HeadOf, Word;
    CommitPrefix(h.disk, start, h.txn, 0);
    var ws := CommitWrites(h.disk, start, h.txn);
    assert ws[..|ws|] == ws;
    CommitComplete(h.disk, start, h.txn);
  }

  // ---------- commit()'s writes ----------

  /** The bytes each job has to write. */
  ghost function Owed(job: Job, d: Disk, start: nat, txn: seq<Write>): (data: Block)
    requires start < |d| && |txn| <= LOGBLOCKS && (Pair(job) ==> job.t < |txn|)
  {
    match job
    case CopyJob(t) => txn[t].data
    case InstallJob(t) => txn[t].data
    case NameJob => PutHead(d[start], Bnos(txn))
    case ClearJob => PutHead(PutHead(d[start], Bnos(txn)), [])
  }

  /** The next write of the protocol, wherever commit() is. */
  lemma WriteAt(com: Com, d: Disk, start: nat, txn: seq<Write>, lh: seq<nat>)
    requires start < |d| && |txn| <= LOGBLOCKS && JobFits(com, |txn|) && com.At? && com.k <= 5
    requires lh == if Erased(com) then [] else Bnos(txn)
    ensures var ws, w := CommitWrites(d, start, txn), Wrote(com, |txn|);
      w < |ws| && ws[w] == Write(Target(com.job, Second(com.job), start, lh), Owed(com.job, d, start, txn))
  { hide PutHead; }

  lemma HeaderBefore(d: Disk, start: nat, txn: seq<Write>, k: nat)
    requires start < |d| && k <= |txn|
    ensures Apply(d, LogCopies(txn, start)[..k])[start] == d[start]
  {
    hide Apply;
    ApplyElsewhere(d, LogCopies(txn, start)[..k], start);
  }

  lemma HeaderAfter(d: Disk, start: nat, txn: seq<Write>, m: nat)
    requires start + LOGBLOCKS < |d| && IsTransaction(d, start, txn) && m <= |txn|
    ensures Apply(d, LoggedWrites(d, start, txn) + txn[..m])[start] == PutHead(d[start], Bnos(txn))
  {
    hide PutHead, HeadOf, Apply, SameHome, HomeBlocks, LoggedWrites;
    ApplyAppend(d, LoggedWrites(d, start, txn), txn[..m]);
    LoggedBlocks(d, start, txn);
    KeepsOthers(Apply(d, LoggedWrites(d, start, txn)), start, txn, m);
    assert InLog(start, start);
  }

  /** The header block as the writes go by. */
  lemma HeaderAt(d: Disk, start: nat, txn: seq<Write>, k: nat)
    requires start + LOGBLOCKS < |d| && IsTransaction(d, start, txn) && txn != [] && k <= 2 * |txn| + 1
    ensures k <= |CommitWrites(d, start, txn)|
    ensures Apply(d, CommitWrites(d, start, txn)[..k])[start] ==
        if k <= |txn| then d[start] else PutHead(d[start], Bnos(txn))
  {
    hide PutHead, HeadOf, Apply, HomeBlocks, CommitWrites, LoggedWrites, LogCopies;
    CommitPrefix(d, start, txn, 0);
    CommitPrefix(d, start, txn, k);
    if k <= |txn| { HeaderBefore(d, start, txn, k); } else { HeaderAfter(d, start, txn, k - |txn| - 1); }
  }

  /** During the commit the block map holds the transaction's bytes. */
  lemma TxnBytes(s: State, com: Com, h: History, start: nat, i: nat)
    requires Underway(s, com, h, start) && i < |h.txn| && |s.view| == |s.disk|
    ensures h.txn[i].bno < |s.view| && !InLog(start, h.txn[i].bno) && s.view[h.txn[i].bno] == h.txn[i].data
  {
    hide Clean, Progress, Apply;
    TxnAt(h.disk, start, h.txn, i);
  }

  /** The log never pins its own area. */
  lemma PinsHome(s: State, start: nat, b: nat)
    requires Inv(s, start) && b in s.pins
    ensures !InLog(start, b)
  { hide RingOk, Full, CacheOk, Apply; }

  /** commit() finds in an unchanged log block what is on disk. */
  lemma LogBufClean(m: Sys, start: nat)
    requires Cached(m, start) && LogBuf in m.use && m.use[LogBuf].stage.Holding? && !m.use[LogBuf].dirty
    requires InLog(start, m.use[LogBuf].b)
    ensures var b, p := m.use[LogBuf].b, m.use[LogBuf].p;
      p < |m.s.buf| && b < |m.s.disk| == |m.s.view| && m.s.buf[p].data == m.s.disk[b] == m.s.view[b]
  {
    hide Inv, CacheOk, Hands;
    InvCache(m.s, start);
    HeldData(m.s, m.use, m.owner, LogBuf);
    HeldClean(m.s, m.use, m.owner, LogBuf);
    if m.use[LogBuf].b in m.s.pins { PinsHome(m.s, start, m.use[LogBuf].b); }
  }

  /** commit()'s handles when it is about to move, write or unpin. */
  lemma HandsFull(m: Sys, start: nat)
    requires Charted(m, start) && m.com.At? && 4 <= m.com.k <= 6
    ensures LogBuf in m.use && m.use[LogBuf].stage.Holding? && InLog(start, m.use[LogBuf].b)
    ensures m.use[LogBuf].b == Target(m.com.job, LogBuf, start, m.s.lh)
    ensures Pair(m.com.job) ==> HomeBuf in m.use && m.use[HomeBuf].stage.Holding?
    ensures Pair(m.com.job) ==> m.com.job.t < |m.h.txn| && m.use[HomeBuf].b == m.h.txn[m.com.job.t].bno
    ensures m.com.k == 4 ==> !m.use[LogBuf].dirty
  { hide SameHome, Clean, Apply, CommitWrites, HomeBlocks; }

  lemma Facts(m: Sys, start: nat)
    requires Charted(m, start) && m.com.At?
    ensures Underway(m.s, m.com, m.h, start) && JobFits(m.com, |m.h.txn|) && m.s.phase == PhaseOf(m.com, |m.h.txn|)
    ensures start + LOGBLOCKS < |m.h.disk| == |m.s.disk| == |m.s.view|
    ensures IsTransaction(m.h.disk, start, m.h.txn) && m.s.lh == if Erased(m.com) then [] else Bnos(m.h.txn)
    ensures Progress(m.s, m.com, m.h, start)
  { hide SameHome, Apply, CommitWrites, HomeBlocks, Bnos, ComHands, OpsOk; }

  lemma CopyMoves(m: Sys, start: nat)
    requires Good(m, start) && MayMove(m) && m.com.job.CopyJob?
    ensures m.com.job.t < |m.h.txn| && Moved(m) == m.h.txn[m.com.job.t].data
  {
    hide Inv, CacheOk, Hands, Charted, Underway, Progress, HomeBlocks;
    InvCache(m.s, start);
    Facts(m, start);
    HandsFull(m, start);
    HeldData(m.s, m.use, m.owner, HomeBuf);
    TxnBytes(m.s, m.com, m.h, start, m.com.job.t);
  }

  lemma InstallMoves(m: Sys, start: nat)
    requires Good(m, start) && MayMove(m) && m.com.job.InstallJob?
    ensures m.com.job.t < |m.h.txn| && Moved(m) == m.h.txn[m.com.job.t].data == m.s.buf[m.use[HomeBuf].p].data
  {
    hide Inv, CacheOk, Hands, Charted, Underway, Progress, HomeBlocks;
    InvCache(m.s, start);
    Facts(m, start);
    HandsFull(m, start);
    HeldData(m.s, m.use, m.owner, HomeBuf);
    LogBufClean(m, start);
    TxnBytes(m.s, m.com, m.h, start, m.com.job.t);
    CopiedAt(m.s, start, m.com.job.t);
  }

  lemma CopiedAt(s: State, start: nat, t: nat)
    requires Inv(s, start) && s.phase.Installing? && t < |s.lh|
    ensures s.lh[t] < |s.view| && start + 1 + t < |s.disk| && s.disk[start + 1 + t] == s.view[s.lh[t]]
  { hide RingOk, Full, CacheOk, Apply; }

  lemma HeadMoves(m: Sys, start: nat)
    requires Good(m, start) && MayMove(m) && !Pair(m.com.job)
    ensures start < |m.h.disk| && |m.h.txn| <= LOGBLOCKS
    ensures Moved(m) == Owed(m.com.job, m.h.disk, start, m.h.txn)
  {
    hide Inv, Hands, Charted, Underway, PutHead, Apply, CommitWrites, HomeBlocks;
    Facts(m, start);
    HandsFull(m, start);
    LogBufClean(m, start);
    HeaderAt(m.h.disk, start, m.h.txn, Wrote(m.com, |m.h.txn|));
  }

  /** What commit() moves is the next write the protocol owes. */
  lemma MoveBytes(m: Sys, start: nat)
    requires Good(m, start) && MayMove(m)
    ensures start < |m.h.disk| && |m.h.txn| <= LOGBLOCKS && (Pair(m.com.job) ==> m.com.job.t < |m.h.txn|)
    ensures Moved(m) == Owed(m.com.job, m.h.disk, start, m.h.txn)
  {
    hide Cached, Charted, Underway, HomeBlocks, Progress, Moved, PutHead;
    Facts(m, start);
    match m.com.job
    case CopyJob(_) => CopyMoves(m, start);
    case InstallJob(_) => InstallMoves(m, start);
    case _ => HeadMoves(m, start);
  }

  lemma MoveCached(m: Sys, start: nat)
    requires Good(m, start) && MayMove(m)
    ensures Cached(Moves(m), start) && SameIdentity(m.s, Moves(m).s)
  {
    hide Inv, CacheOk, Hands, ComHands, Underway, Moved;
    var t := Second(m.com.job);
    InvCache(m.s, start);
    HandsFull(m, start);
    if m.com.job.InstallJob? { InstallMoves(m, start); }
    HeldData(m.s, m.use, m.owner, t);
    StoreHands(m.s, m.use, m.owner, t, Moved(m));
    StoredKeepsInv(m.s, start, m.use[t].p, Moved(m));
  }

  lemma MoveComHands(use: Uses, com: Com, start: nat, lh: seq<nat>, n: nat)
    requires ComHands(use, com, start, lh) && com.At? && com.k == 4 && Second(com.job) in use
    ensures var t := Second(com.job); ComHands(use[t := use[t].(dirty := true)], Next(com, n), start, lh)
  {}

  /** Moving bytes changes the log area, or nothing. */
  lemma MoveSameHome(m: Sys, start: nat)
    requires Good(m, start) && MayMove(m)
    ensures SameHome(Moves(m).s.view, m.s.view, start)
  {
    hide Inv, CacheOk, Hands, Charted, Moved, Next;
    InvCache(m.s, start);
    HandsFull(m, start);
    HeldData(m.s, m.use, m.owner, Second(m.com.job));
    if m.com.job.InstallJob? { InstallMoves(m, start); }
  }

  lemma MoveCharted(m: Sys, start: nat)
    requires Good(m, start) && MayMove(m)
    ensures Charted(Moves(m), start)
  {
    hide Inv, CacheOk, Hands, ComHands, Moved, Owed, Clean, HomeBlocks, Apply, CommitWrites;
    var r, t := Moves(m), Second(m.com.job);
    MoveSameHome(m, start);
    MoveBytes(m, start);
    InvCache(m.s, start);
    HandsFull(m, start);
    HeldData(m.s, m.use, m.owner, t);
    WriteAt(m.com, m.h.disk, start, m.h.txn, m.s.lh);
    MoveComHands(m.use, m.com, start, m.s.lh, |m.h.txn|);
    StepOps(m, r, start, t);
  }

  /** The block about to be written and its bytes are the protocol's next write. */
  lemma FlushIsDue(m: Sys, start: nat)
    requires Good(m, start) && m.com.At? && m.com.k == 5 && Live(m, Second(m.com.job))
    ensures start < |m.h.disk| == |m.s.disk| && |m.h.txn| <= LOGBLOCKS && (Pair(m.com.job) ==> m.com.job.t < |m.h.txn|)
    ensures var t, ws, w := Second(m.com.job), CommitWrites(m.h.disk, start, m.h.txn), Wrote(m.com, |m.h.txn|);
      && m.use[t].stage.Holding? && m.use[t].p < NBUF && m.s.buf[m.use[t].p].locked
      && m.s.buf[m.use[t].p].blockno == m.use[t].b == Target(m.com.job, t, start, m.s.lh) < |m.s.disk|
      && m.s.buf[m.use[t].p].data == Owed(m.com.job, m.h.disk, start, m.h.txn) == m.s.view[m.use[t].b]
      && w < |ws| && ws[w] == Write(m.use[t].b, m.s.buf[m.use[t].p].data)
  {
    hide Inv, CacheOk, Hands, ComHands, Owed, Clean, HomeBlocks, Apply, CommitWrites, SameHome;
    InvCache(m.s, start);
    HandsFull(m, start);
    HeldData(m.s, m.use, m.owner, Second(m.com.job));
    WriteAt(m.com, m.h.disk, start, m.h.txn, m.s.lh);
  }

  lemma CopyPhase(disk: Disk, view: Disk, start: nat, lh: seq<nat>, pins: set<nat>, t: nat, v: Block)
    requires PhaseOk(Logging(t), disk, view, start, lh, pins) && t < |lh| && lh[t] < |view| && v == view[lh[t]]
    ensures start + 1 + t < |disk| && PhaseOk(Logging(t + 1), disk[start + 1 + t := v], view, start, lh, pins)
  {}

  lemma NamePhase(disk: Disk, view: Disk, start: nat, lh: seq<nat>, pins: set<nat>, v: Block)
    requires PhaseOk(Logging(|lh|), disk, view, start, lh, pins)
    ensures start < |disk| && PhaseOk(Installing(0), disk[start := v], view, start, lh, pins)
  { assert lh[0..] == lh; }

  lemma InstallPhase(disk: Disk, view: Disk, start: nat, lh: seq<nat>, pins: set<nat>, t: nat, v: Block)
    requires PhaseOk(Installing(t), disk, view, start, lh, pins) && t < |lh|
    ensures lh[t] < |disk| && PhaseOk(Installing(t), disk[lh[t] := v], view, start, lh, pins)
  {}

  lemma ClearPhase(disk: Disk, view: Disk, start: nat, pins: set<nat>, v: Block)
    requires PhaseOk(Clearing, disk, view, start, [], pins) && Word(v, 0) == 0
    ensures start < |disk| && PhaseOk(Idle, disk[start := v], view, start, [], pins)
  {}

  lemma InvPhase(s: State, start: nat)
    requires Inv(s, start)
    ensures PhaseOk(s.phase, s.disk, s.view, start, s.lh, s.pins)
  {}

  lemma PhaseStep(s: State, com: Com, h: History, start: nat)
    requires start < |h.disk| && IsTransaction(h.disk, start, h.txn) && JobFits(com, |h.txn|) && com.At? && com.k == 5
    requires s.lh == if Erased(com) then [] else Bnos(h.txn)
    requires PhaseOk(PhaseOf(com, |h.txn|), s.disk, s.view, start, s.lh, s.pins)
    requires com.job.CopyJob? ==>
        h.txn[com.job.t].bno < |s.view| && s.view[h.txn[com.job.t].bno] == h.txn[com.job.t].data
    ensures var b, v := Target(com.job, Second(com.job), start, s.lh), Owed(com.job, h.disk, start, h.txn);
      b < |s.disk| &&
      PhaseOk(PhaseOf(Next(com, |h.txn|), |h.txn|), s.disk[b := v], s.view, start, s.lh, s.pins)
  {
    hide PhaseOk, HomeBlocks, PutHead, Word;
    var v := Owed(com.job, h.disk, start, h.txn);
    match com.job
    case CopyJob(t) => CopyPhase(s.disk, s.view, start, s.lh, s.pins, t, v);
    case NameJob => NamePhase(s.disk, s.view, start, s.lh, s.pins, v);
    case InstallJob(t) => InstallPhase(s.disk, s.view, start, s.lh, s.pins, t, v);
    case ClearJob => ClearPhase(s.disk, s.view, start, s.pins, v);
  }

  ghost predicate Flushing(m: Sys) { m.com.At? && m.com.k == 5 && Live(m, Second(m.com.job)) }

  /** Each write takes the log to the next phase. */
  lemma FlushPhase(m: Sys, start: nat)
    requires Good(m, start) && Flushing(m)
    ensures var q := m.s.buf[m.use[Second(m.com.job)].p];
      q.blockno < |m.s.disk| && PhaseOk(PhaseOf(Next(m.com, |m.h.txn|), |m.h.txn|), m.s.disk[q.blockno := q.data],
                                        m.s.view, start, m.s.lh, m.s.pins)
  {
    hide Inv, Hands, Charted, Underway, Progress, HomeBlocks, PhaseOk, Owed, CommitWrites, PhaseOf, Next;
    FlushIsDue(m, start);
    Facts(m, start);
    InvPhase(m.s, start);
    if m.com.job.CopyJob? { TxnBytes(m.s, m.com, m.h, start, m.com.job.t); }
    PhaseStep(m.s, m.com, m.h, start);
  }

  lemma FlushCached(m: Sys, start: nat)
    requires Good(m, start) && Flushing(m)
    ensures Cached(Flushes(m), start) && SameIdentity(m.s, Flushes(m).s)
  {
    hide Inv, CacheOk, Hands, Charted, PhaseOk;
    var t, next := Second(m.com.job), PhaseOf(Next(m.com, |m.h.txn|), |m.h.txn|);
    InvCache(m.s, start);
    FlushIsDue(m, start);
    FlushPhase(m, start);
    WriteHands(m.s, m.use, m.owner, t, next);
    WrittenKeepsInv(m.s, start, m.use[t].p, next);
  }

  lemma FlushComHands(use: Uses, com: Com, start: nat, lh: seq<nat>, n: nat)
    requires ComHands(use, com, start, lh) && com.At? && com.k == 5 && Second(com.job) in use
    ensures var t := Second(com.job); ComHands(use[t := use[t].(dirty := false)], Next(com, n), start, lh)
  {}

  lemma ApplyNext(d: Disk, ws: seq<Write>, w: nat)
    requires w < |ws| && ws[w].bno < |d|
    ensures ws[..w + 1] == ws[..w] + [ws[w]]
    ensures Apply(d, ws[..w + 1]) == Apply(d, ws[..w])[ws[w].bno := ws[w].data]
  { assert ws[..w + 1][..w] == ws[..w]; }

  lemma ProgressStep(s: State, com: Com, h: History, start: nat, p: nat, next: Phase)
    requires start < |h.disk| == |s.disk| && |h.txn| <= LOGBLOCKS && JobFits(com, |h.txn|) && com.At? && com.k == 5
    requires Progress(s, com, h, start) && p < |s.buf| && s.buf[p].blockno < |s.disk|
    requires CommitWrites(h.disk, start, h.txn)[Wrote(com, |h.txn|)] == Write(s.buf[p].blockno, s.buf[p].data)
    ensures Progress(Written(s, p).(phase := next), Next(com, |h.txn|), h, start)
  {
    hide CommitWrites, Apply;
    NextPhase(com, |h.txn|);
    var ws, w := CommitWrites(h.disk, start, h.txn), Wrote(com, |h.txn|);
    hide Wrote;
    ApplyNext(h.disk, ws, w);
  }

  lemma FlushCharted(m: Sys, start: nat)
    requires Good(m, start) && Flushing(m)
    ensures Charted(Flushes(m), start)
  {
    hide Cached, ComHands, OpsOk, Progress, SameHome, HomeBlocks, Clean, Apply, CommitWrites, Owed;
    var r, t, n := Flushes(m), Second(m.com.job), |m.h.txn|;
    FlushIsDue(m, start);
    Facts(m, start);
    ProgressStep(m.s, m.com, m.h, start, m.use[t].p, r.s.phase);
    NextPhase(m.com, n);
    FlushComHands(m.use, m.com, start, m.s.lh, n);
    StepOps(m, r, start, t);
  }

  /** bunpin comes after the home block is on disk. */
  lemma InstalledNow(m: Sys, start: nat)
    requires Good(m, start) && m.com.At? && m.com.k == 6 && Live(m, HomeBuf)
    ensures m.com.job.InstallJob? && m.com.job.t < |m.s.lh| && m.s.phase == Installing(m.com.job.t)
    ensures HomeBuf in m.use && m.use[HomeBuf].stage.Holding? && m.use[HomeBuf].b == m.s.lh[m.com.job.t]
    ensures m.use[HomeBuf].b < |m.s.disk| == |m.s.view| && m.s.view[m.use[HomeBuf].b] == m.s.disk[m.use[HomeBuf].b]
  {
    hide Cached, Charted, Underway, HomeBlocks, Apply, CommitWrites, Live;
    Facts(m, start);
    HandsFull(m, start);
    var t := m.com.job.t;
    TxnBytes(m.s, m.com, m.h, start, t);
    var ws, w := CommitWrites(m.h.disk, start, m.h.txn), |m.h.txn| + 1 + t;
    WriteAt(At(m.com.job, 5), m.h.disk, start, m.h.txn, m.s.lh);
    ApplyNext(m.h.disk, ws, w);
  }

  lemma UnpinCached(m: Sys, start: nat)
    requires Good(m, start) && m.com.At? && m.com.k == 6 && Live(m, HomeBuf)
    ensures Cached(Unpins(m), start) && SameIdentity(m.s, Unpins(m).s)
  {
    hide Inv, CacheOk, Hands, Charted;
    InvCache(m.s, start);
    InstalledNow(m, start);
    var t := m.com.job.t;
    HeldData(m.s, m.use, m.owner, HomeBuf);
    PinsOfRest(m.s, start, t);
    UnpinHands(m.s, m.use, m.owner, HomeBuf, Installing(t + 1));
    UnpinnedKeepsInv(m.s, start, m.use[HomeBuf].p, t);
  }

  lemma UnpinCharted(m: Sys, start: nat)
    requires Charted(m, start) && m.com.At? && m.com.k == 6 && Live(m, HomeBuf)
    ensures Charted(Unpins(m), start)
  {
    hide SameHome, HomeBlocks, Clean, Apply, CommitWrites;
    NextPhase(m.com, |m.h.txn|);
    StepOps(m, Unpins(m), start, HomeBuf);
    hide OpsOk;
  }

  // ---------- Every step, every run ----------

  /** The handles the guards of May ask about always are references to buffers of the cache. */
  lemma HandlesLive(m: Sys, start: nat, t: Tok)
    requires Good(m, start) && t in m.use
    ensures Live(m, t) && m.use[t].p < NBUF && m.s.buf[m.use[t].p].blockno == m.use[t].b
  {
    hide Charted, Inv, DirtyAt, Owned, Coherent;
    InvCache(m.s, start);
    assert Named(m.s, m.use[t]);
    UserCounts(m.s, m.use, t);
  }

  /** The steps of processes and commit() alike on one handle. */
  lemma HandStepKeeps(m: Sys, e: Event, start: nat)
    requires Good(m, start) && May(m, e, start) && (e.Get? || e.Lock? || e.Free? || e.Drop?)
    ensures Good(After(m, e, start), start) && SameIdentity(m.s, After(m, e, start).s)
  {
    hide Cached, Charted, SameIdentity, MayGet, MayLock, MayFree, MayDrop, Gets, Locks, Frees, Drops;
    match e {
      case Get(t, b, p, op) =>
        GetCached(m, start, t, b, p, op);
        GetCharted(m, start, t, b, p, op);
      case Lock(t) =>
        LockCached(m, start, t);
        LockCharted(m, start, t);
      case Free(t) =>
        FreeCached(m, start, t);
        FreeCharted(m, start, t);
      case Drop(t) =>
        DropCached(m, start, t);
        DropCharted(m, start, t);
      case _ =>
    }
  }

  lemma OpStepKeeps(m: Sys, e: Event, start: nat)
    requires Good(m, start) && May(m, e, start) && (e.Modify? || e.LogIt? || e.EndOp?)
    ensures Good(After(m, e, start), start) && SameIdentity(m.s, After(m, e, start).s)
  {
    hide Cached, Charted, Changes, Logs;
    match e {
      case Modify(t, data) =>
        InsideOp(m, start, t);
        ChangeCached(m, start, t, data);
        ChangeCharted(m, start, t, data);
      case LogIt(t) =>
        assert MayChange(m, t);
        InsideOp(m, start, t);
        HandlesLive(m, start, t);
        LogCached(m, start, t);
        LogCharted(m, start, t);
      case EndOp(o) => EndKeeps(m, start, o);
      case _ =>
    }
  }

  lemma EndKeeps(m: Sys, start: nat, o: nat)
    requires Good(m, start) && MayEnd(m, o)
    ensures Good(Ends(m, o), start) && SameIdentity(m.s, Ends(m, o).s)
  {
    assert m.com.Off? && m.s.phase.Idle? by {
      hide Cached, ComHands, SameHome, Roomy;
      assert o in m.ops;
    }
    hide Cached, Charted;
    EndCached(m, start, o);
    if m.s.outstanding > 1 { EndOneOf(m, start, o); } else { EndLast(m, start, o); }
  }

  lemma CommitStepKeeps(m: Sys, e: Event, start: nat)
    requires Good(m, start) && May(m, e, start) && (e.Move? || e.Flush? || e.Unpin? || e.Erase?)
    ensures Good(After(m, e, start), start) && SameIdentity(m.s, After(m, e, start).s)
  {
    hide Cached, Charted, MayMove, Moves, Flushes, Unpins;
    match e {
      case Move =>
        MoveCached(m, start);
        MoveCharted(m, start);
      case Flush =>
        FlushCached(m, start);
        FlushCharted(m, start);
      case Unpin =>
        UnpinCached(m, start);
        UnpinCharted(m, start);
      case Erase =>
        EraseCached(m, start);
        EraseCharted(m, start);
      case _ =>
    }
  }

  /** Every step keeps the invariant and the identity of every referenced buffer. */
  lemma StepKeeps(m: Sys, e: Event, start: nat)
    requires Good(m, start) && May(m, e, start)
    ensures Good(After(m, e, start), start) && SameIdentity(m.s, After(m, e, start).s)
  {
    hide Good, May, After, SameIdentity;
    match e
    case Get(_, _, _, _) | Lock(_) | Free(_) | Drop(_) => HandStepKeeps(m, e, start);
    case Modify(_, _) | LogIt(_) | EndOp(_) => OpStepKeeps(m, e, start);
    case Move | Flush | Unpin | Erase => CommitStepKeeps(m, e, start);
    case NoBuf(t, b) => NoBufKeeps(m, start, t, b);
    case BeginOp(o) => BeginKeeps(m, start, o);
    case Finish => FinishKeeps(m, start);
  }

  lemma NoBufKeeps(m: Sys, start: nat, t: Tok, b: nat)
    requires Good(m, start) && May(m, NoBuf(t, b), start)
    ensures Good(After(m, NoBuf(t, b), start), start) && SameIdentity(m.s, After(m, NoBuf(t, b), start).s)
  {
    hide Cached, ComHands, Committed, L.SpaceOk, NoBuffer;
    CachedSame(m, After(m, NoBuf(t, b), start), start);
  }

  lemma CachedSame(m: Sys, r: Sys, start: nat)
    requires Cached(m, start) && r.s == m.s && r.use == m.use && r.owner == m.owner
    ensures Cached(r, start)
  { hide Inv, Hands; }

  /** A system at rest, as recovery leaves it at boot. */
  ghost predicate Starts(m: Sys, start: nat) {
    && Inv(m.s, start) && NoHolders(m.s.held) && m.s.phase.Idle? && m.s.lh == []
    && m.s.outstanding == 0 && !m.s.committing
    && m.use == map[] && m.owner == map[] && m.ops == map[] && m.com.Off? && m.panic.Fine? && m.h.was == m.s.view
  }

  lemma StartsGood(m: Sys, start: nat)
    requires Starts(m, start)
    ensures Good(m, start)
  {
    QuietMeansClean(m.s, start);
    InvCache(m.s, start);
    forall i: nat | i < NBUF ensures Users(m.use, i) == {} {}
    hide RingOk, Full, Apply, PhaseOk, Coherent, Indexed, HomeBlocks;
  }

  /** recover_from_log() leaves such a system. */
  lemma RecoveryStarts(s: State, u: State, start: nat)
    requires Inv(u, start) && RecoverDone(s, u, start) && NoHolders(u.held) && u.outstanding == 0 && !u.committing
    ensures Starts(Sys(u, map[], map[], map[], Off, History([], [], [], u.view, []), Fine), start)
  { hide Inv, RecoverWrites; }

  /** A run: every state follows from the one before it by one allowed event. */
  ghost predicate Run(ms: seq<Sys>, es: seq<Event>, start: nat) {
    && |ms| == |es| + 1 && Starts(ms[0], start)
    && (forall i :: 0 <= i < |es| ==> May(ms[i], es[i], start) && ms[i + 1] == After(ms[i], es[i], start))
  }

  lemma {:induction false} RunGood(ms: seq<Sys>, es: seq<Event>, start: nat, i: nat)
    requires Run(ms, es, start) && i < |ms|
    ensures Good(ms[i], start)
  {
    hide Good, May, After, Starts, SameIdentity;
    if i == 0 {
      StartsGood(ms[0], start);
    } else {
      RunGood(ms, es, start, i - 1);
      StepKeeps(ms[i - 1], es[i - 1], start);
    }
  }

  lemma RunStep(ms: seq<Sys>, es: seq<Event>, start: nat, i: nat)
    requires Run(ms, es, start) && i < |es|
    ensures i + 1 < |ms| && Good(ms[i], start) && May(ms[i], es[i], start) && ms[i + 1] == After(ms[i], es[i], start)
  {
    hide Starts, May, After, Good;
    RunGood(ms, es, start, i);
  }

  /** A locked buffer holds the last bytes a holder left in its block, and no two buffers are for one block. */
  ghost predicate OneCopy(s: State) {
    && |s.buf| == NBUF
    && (forall p :: 0 <= p < NBUF && s.buf[p].locked ==>
          s.buf[p].valid && s.buf[p].blockno < |s.view| && s.buf[p].data == s.view[s.buf[p].blockno])
    && (forall p, q :: 0 <= p < q < NBUF && s.buf[p].dev == DEV == s.buf[q].dev ==>
          s.buf[p].blockno != s.buf[q].blockno)
  }

  lemma InvOneCopy(s: State, start: nat)
    requires Inv(s, start)
    ensures OneCopy(s)
  { hide RingOk, Full, Apply, PhaseOk, HomeBlocks; }

  /** At every moment of every run the cache is one copy of each block, and the next step changes no referenced
      buffer's block. */
  lemma CacheOfRun(ms: seq<Sys>, es: seq<Event>, start: nat, i: nat)
    requires Run(ms, es, start) && i < |ms|
    ensures OneCopy(ms[i].s)
    ensures i < |es| ==> SameIdentity(ms[i].s, ms[i + 1].s)
  {
    RunGood(ms, es, start, i);
    hide Run, SameIdentity, OneCopy, Charted, Hands, Inv, May, After;
    InvOneCopy(ms[i].s, start);
    if i < |es| {
      RunStep(ms, es, start, i);
      StepKeeps(ms[i], es[i], start);
    }
  }

  /** While a commit is under way, what it has issued is exactly the first of the protocol's writes. */
  ghost predicate Exact(m: Sys, start: nat) {
    !m.com.Off? ==>
      && start < |m.h.disk| && |m.h.txn| <= LOGBLOCKS
      && var ws, w := CommitWrites(m.h.disk, start, m.h.txn), Wrote(m.com, |m.h.txn|);
      w <= |ws| && m.s.issued == m.h.issued + ws[..w] && (m.com.Done? ==> w == |ws|)
  }

  lemma GoodExact(m: Sys, start: nat)
    requires Charted(m, start)
    ensures Exact(m, start)
  {
    hide ComHands, SameHome, HomeBlocks, Apply, PutHead;
  }

  /** In every run only bwrite reaches the disk, commit() issues exactly the protocol's writes whatever everybody
      else does meanwhile, and none of the log's panics happens: "no buffers" is the only one left. */
  lemma WritesOfRun(ms: seq<Sys>, es: seq<Event>, start: nat, i: nat)
    requires Run(ms, es, start) && i < |ms|
    ensures Exact(ms[i], start) && (ms[i].panic.Fine? || ms[i].panic.NoBuffers?)
    ensures i < |es| && !es[i].Flush? ==> ms[i + 1].s.issued == ms[i].s.issued && ms[i + 1].s.disk == ms[i].s.disk
  {
    RunGood(ms, es, start, i);
    hide Run, Cached, Exact, ComHands, Committed, May, After;
    GoodExact(ms[i], start);
    if i < |es| && !es[i].Flush? {
      RunStep(ms, es, start, i);
      OnlyFlushWrites(ms[i], es[i], start);
    }
  }

  lemma OnlyFlushWrites(m: Sys, e: Event, start: nat)
    requires May(m, e, start) && !e.Flush?
    ensures After(m, e, start).s.issued == m.s.issued && After(m, e, start).s.disk == m.s.disk
  { hide May, Linked, PutHead, Next, PhaseOf, Step, Txn; }

  // ---------- Crashes ----------

  /** The block map that has reached the disk for good: the first write_head is the switch. */
  ghost function Durable(m: Sys): (d: Disk) {
    if !m.com.Off? && Wrote(m.com, |m.h.txn|) > |m.h.txn| then m.h.will else m.h.was
  }

  lemma CrashNow(m: Sys, start: nat)
    requires Good(m, start)
    ensures Delivers(m.s.disk, start, Durable(m))
  {
    hide Hands, ComHands, OpsOk, CacheOk;
    if m.com.Off? {
      IdleIsClean(m.s, start);
      CleanDelivers(m.s.disk, start, m.h.was);
    } else {
      hide Inv, Delivers, SameHome, Apply, CommitWrites;
      var w := Wrote(m.com, |m.h.txn|);
      CommitCut(m.h.disk, start, m.h.txn, w);
      if w <= |m.h.txn| { DeliversSame(m.s.disk, start, m.h.disk, m.h.was); }
      else { DeliversSame(m.s.disk, start, Apply(m.h.disk, m.h.txn), m.h.will); }
    }
  }

  /** Event j is the end_op that finds nobody else inside an operation, and so begins a commit. */
  ghost predicate Begins(ms: seq<Sys>, es: seq<Event>, j: nat)
    requires |ms| == |es| + 1
  { j < |es| && es[j].EndOp? && ms[j].s.outstanding == 1 }

  /** How one step moves the history along. */
  ghost predicate Advances(m: Sys, e: Event, r: Sys) {
    var begins := e.EndOp? && m.s.outstanding == 1;
    if m.com.Off? then
      r.h.was == m.h.was && (r.com.Off? <==> !begins) && (begins ==> r.h.will == m.s.view)
    else
      !begins && (r.com.Off? <==> e.Finish?) && r.h == (if e.Finish? then m.h.(was := m.h.will) else m.h)
  }

  lemma HistoryStep(m: Sys, e: Event, start: nat)
    requires Charted(m, start) && May(m, e, start)
    ensures Advances(m, e, After(m, e, start))
  {
    hide MayGet, MayLock, MayChange, MayLog, MayFree, MayDrop, MayAsk, Live, NoBuffer, Charted;
    if e.EndOp? {
      EndAdvances(m, e.o, start);
    } else if e.LogIt? {
      hide Advances;
      LogAdvances(m, e.t, start);
    } else {
      hide Linked, PutHead;
    }
  }

  lemma LogAdvances(m: Sys, t: Tok, start: nat)
    requires May(m, LogIt(t), start)
    ensures Advances(m, LogIt(t), After(m, LogIt(t), start))
  { hide Live; }

  lemma EndAdvances(m: Sys, o: nat, start: nat)
    requires Charted(m, start) && May(m, EndOp(o), start)
    ensures Advances(m, EndOp(o), After(m, EndOp(o), start))
  { hide ComHands, SameHome, Underway, Roomy, Txn; }

  /** Where in the run the two block maps of the history come from: w is the moment the last finished commit began
      and l the moment the one under way did. */
  ghost predicate Traced(ms: seq<Sys>, es: seq<Event>, i: nat, w: nat, l: nat)
    requires |ms| == |es| + 1
  {
    && i < |ms| && w <= i && (w == 0 || (w < i && Begins(ms, es, w))) && ms[i].h.was == ms[w].s.view
    && (if ms[i].com.Off? then forall c :: w < c < i ==> !Begins(ms, es, c)
        else
          && w <= l < i && Begins(ms, es, l) && ms[i].h.will == ms[l].s.view
          && (forall c :: w < c < i && c != l ==> !Begins(ms, es, c))
          && (forall f :: l < f < i ==> !es[f].Finish?))
  }

  lemma StartTraced(ms: seq<Sys>, es: seq<Event>, start: nat)
    requires Run(ms, es, start)
    ensures Traced(ms, es, 0, 0, 0)
  { hide Inv, May, After, Begins; }

  lemma {:induction false} RunTraced(ms: seq<Sys>, es: seq<Event>, start: nat, i: nat) returns (w: nat, l: nat)
    requires Run(ms, es, start) && i < |ms|
    ensures Traced(ms, es, i, w, l)
  {
    hide Traced, May, After, Charted, Cached, Inv;
    if i == 0 {
      StartTraced(ms, es, start);
      w, l := 0, 0;
    } else {
      w, l := RunTraced(ms, es, start, i - 1);
      RunStep(ms, es, start, i - 1);
      hide Run;
      HistoryStep(ms[i - 1], es[i - 1], start);
      w, l := TraceStep(ms, es, i - 1, w, l);
    }
  }

  lemma TraceStep(ms: seq<Sys>, es: seq<Event>, i: nat, w: nat, l: nat) returns (x: nat, y: nat)
    requires |ms| == |es| + 1 && i < |es| && Traced(ms, es, i, w, l) && Advances(ms[i], es[i], ms[i + 1])
    ensures Traced(ms, es, i + 1, x, y)
  {
    x := if !ms[i].com.Off? && ms[i + 1].com.Off? then l else w;
    y := if ms[i].com.Off? then i else l;
  }

  /** Crash safety of every interleaving: at any moment i recovery delivers the block map of a moment j at which no
      operation was open (the start, or an end_op that found nobody else inside), and no commit begun after j
      has finished by i.  Operations survive whole or not at all, and a finished commit is never lost. */
  lemma CrashOfRun(ms: seq<Sys>, es: seq<Event>, start: nat, i: nat) returns (j: nat)
    requires Run(ms, es, start) && i < |ms|
    ensures j <= i && (j == 0 || Begins(ms, es, j)) && Delivers(ms[i].s.disk, start, ms[j].s.view)
    ensures forall c, f :: j < c < f < i && Begins(ms, es, c) ==> !es[f].Finish?
  {
    var w, l := RunTraced(ms, es, start, i);
    RunGood(ms, es, start, i);
    CrashNow(ms[i], start);
    hide Run, Good, Delivers, Begins;
    j := if !ms[i].com.Off? && Wrote(ms[i].com, |ms[i].h.txn|) > |ms[i].h.txn| then l else w;
  }

  // ---------- commit() always has a next step ----------

  lemma {:induction false} Victim(s: State, n: nat) returns (k: int)
    requires |s.buf| == NBUF == |s.order| && IsOrder(s.order) && n <= NBUF
    requires forall j :: n <= j < NBUF ==> s.buf[s.order[j]].refcnt > 0
    ensures -1 <= k < n && (k >= 0 ==> s.buf[s.order[k]].refcnt == 0)
    ensures forall j :: k < j < NBUF ==> s.buf[s.order[j]].refcnt > 0
  {
    if n == 0 { k := -1; }
    else if s.buf[s.order[n - 1]].refcnt == 0 { k := n - 1; }
    else { k := Victim(s, n - 1); }
  }

  /** bget always chooses a buffer or panics. */
  lemma GetOrPanic(s: State, start: nat, b: nat) returns (r: Option<nat>)
    requires Inv(s, start) && b < |s.disk|
    ensures |s.buf| == |s.held| == |s.order| == NBUF && IsOrder(s.order)
    ensures if r.Some? then Chosen(s, b, r.value) else NoBuffer(s, b)
  {
    InvCache(s, start);
    assert Full(s.order);
    hide RingOk, Apply, PhaseOk, HomeBlocks, Coherent, Counted;
    if b in s.at {
      r := Some(s.at[b]);
    } else {
      var k := Victim(s, NBUF);
      if k >= 0 {
        r := Some(s.order[k]);
      } else {
        r := None;
        forall i: nat | i < NBUF ensures s.buf[i].refcnt > 0 { assert i in s.order; }
      }
    }
  }

  /** A step of commit(): its own, or one on its own handles. */
  predicate OfCommit(e: Event) {
    match e
    case Get(t, _, _, _) => !t.User?
    case NoBuf(t, _) => !t.User?
    case Lock(t) => !t.User?
    case Free(t) => !t.User?
    case Drop(t) => !t.User?
    case Modify(_, _) | LogIt(_) | BeginOp(_) | EndOp(_) => false
    case _ => true
  }

  /** The only thing commit() ever waits for: a reader outside any operation has the home block locked. */
  ghost predicate AwaitsReader(m: Sys) {
    && m.com.At? && m.com.k == 3 && HomeBuf in m.use && m.use[HomeBuf].p in m.owner
    && var t := m.owner[m.use[HomeBuf].p];
    t.User? && t in m.use && m.use[t].op.None? && m.use[t].b == m.use[HomeBuf].b
  }

  lemma CommitGets(m: Sys, start: nat, t: Tok) returns (e: Event)
    requires Good(m, start) && m.panic.Fine? && !t.User? && GetDue(m.com, t)
    ensures OfCommit(e) && May(m, e, start)
  {
    hide Inv, Hands, SameHome, Apply, CommitWrites, HomeBlocks, Bnos;
    Facts(m, start);
    var b := Target(m.com.job, t, start, m.s.lh);
    assert b < |m.s.disk| by { if t.HomeBuf? { TxnBytes(m.s, m.com, m.h, start, m.com.job.t); } }
    hide Committed;
    var r := GetOrPanic(m.s, start, b);
    hide Chosen, NoBuffer;
    e := if r.Some? then Get(t, b, r.value, None) else NoBuf(t, b);
  }

  lemma LockTarget(m: Sys, start: nat, t: Tok)
    requires Charted(m, start) && !t.User? && LockDue(m.com, t)
    ensures t in m.use && m.use[t].stage.Waiting? && (InLog(start, m.use[t].b) <==> t.LogBuf?)
    ensures t.LogBuf? ==> HomeBuf !in m.use
    ensures t.HomeBuf? ==> LogBuf in m.use && InLog(start, m.use[LogBuf].b)
  {
    hide OpsOk, Underway, HomeBlocks, Progress;
    Facts(m, start);
    hide Committed;
    if t.HomeBuf? { TxnBytes(m.s, m.com, m.h, start, m.com.job.t); }
  }

  lemma LockedByReader(m: Sys, start: nat, t: Tok)
    requires Good(m, start) && !t.User? && LockDue(m.com, t) && Live(m, t) && m.s.buf[m.use[t].p].locked
    ensures t.HomeBuf? && AwaitsReader(m)
  {
    hide Inv, Settled, Tallied, Committed, ComHands, Fits;
    LockTarget(m, start, t);
    assert Named(m.s, m.use[t]);
    var x := m.owner[m.use[t].p];
    assert Named(m.s, m.use[x]);
    assert x != t;
    hide Owned;
  }

  lemma CommitLocks(m: Sys, start: nat, t: Tok)
    requires Good(m, start) && m.panic.Fine? && !t.User? && LockDue(m.com, t)
    ensures May(m, Lock(t), start) || (t.HomeBuf? && AwaitsReader(m))
  {
    hide Cached, Charted, AwaitsReader;
    LockTarget(m, start, t);
    HandlesLive(m, start, t);
    if m.s.buf[m.use[t].p].locked { LockedByReader(m, start, t); }
  }

  lemma CommitReleases(m: Sys, start: nat) returns (e: Event)
    requires Good(m, start) && m.panic.Fine? && m.com.At? && m.com.k >= 7
    ensures OfCommit(e) && May(m, e, start)
  {
    hide Cached, OpsOk, Committed;
    var k, job := m.com.k, m.com.job;
    var t := if k <= 8 then First(job) else Second(job);
    HandlesLive(m, start, t);
    e := if k == 7 || k == 9 then Free(t) else Drop(t);
  }

  lemma CommitActs(m: Sys, start: nat) returns (e: Event)
    requires Good(m, start) && m.panic.Fine? && m.com.At? && 4 <= m.com.k <= 6
    ensures OfCommit(e) && May(m, e, start)
  {
    hide Cached, Charted, Underway, Progress, HomeBlocks, Live;
    Facts(m, start);
    HandsFull(m, start);
    HandlesLive(m, start, LogBuf);
    if Pair(m.com.job) { HandlesLive(m, start, HomeBuf); }
    e := if m.com.k == 4 then Move else if m.com.k == 5 then Flush else Unpin;
  }

  lemma CommitFetches(m: Sys, start: nat) returns (e: Event)
    requires Good(m, start) && m.panic.Fine? && m.com.At? && m.com.k < 4
    ensures (OfCommit(e) && May(m, e, start)) || AwaitsReader(m)
  {
    hide Cached, Charted, May, AwaitsReader, Underway, Progress, HomeBlocks;
    Facts(m, start);
    var t := if m.com.k < 2 then LogBuf else HomeBuf;
    if m.com.k == 0 || m.com.k == 2 {
      e := CommitGets(m, start, t);
    } else {
      e := Lock(t);
      CommitLocks(m, start, t);
    }
  }

  /** In every reachable state a commit under way can take its next step, or panics for want of a buffer, or
      waits for a reader to let go of a home block: it never waits for a process inside an operation. */
  lemma CommitNeverStuck(m: Sys, start: nat) returns (e: Event)
    requires Good(m, start) && m.panic.Fine? && !m.com.Off?
    ensures (OfCommit(e) && May(m, e, start)) || AwaitsReader(m)
  {
    hide Cached, Charted, AwaitsReader;
    if !m.com.At? { e := if m.com.Erasing? then Erase else Finish; }
    else if m.com.k < 4 { e := CommitFetches(m, start); }
    else if m.com.k < 7 { e := CommitActs(m, start); }
    else { e := CommitReleases(m, start); }
  }

  // ---------- A run that reaches a commit ----------

  /** On any image with a well-formed log header, recovery leaves a system that runs start from, with the block map that
      recovery delivers. */
  method Boot(image: Disk, start: nat) returns (store: Store, ghost m: Sys)
    requires WellFormed(image, start)
    ensures fresh(store) && store.start == start && m.s == store.Now() && Run([m], [], start)
    ensures Delivers(image, start, m.s.view)
  {
    hide Inv, RecoverDone, NoHolders, Starts, Delivers;
    store := new Store(image, start);
    ghost var s := store.Now();
    store.RecoverFromLog();
    ghost var u := store.Now();
    m := Sys(u, map[], map[], map[], Off, History([], [], [], u.view, []), Fine);
    RecoverHeld(s, u, start);
    RecoveryStarts(s, u, start);
    BootDelivers(s, u, start);
  }

  lemma RecoverHeld(s: State, u: State, start: nat)
    requires RecoverDone(s, u, start)
    ensures u.held == s.held
  { hide RecoverWrites; }

  lemma BootDelivers(s: State, u: State, start: nat)
    requires Inv(u, start) && RecoverDone(s, u, start)
    requires s.issued == [] && s.boot == s.disk && WellFormed(s.disk, start)
    ensures Delivers(s.disk, start, u.view)
  {
    hide RingOk, Full, CacheOk, PhaseOk, HomeBlocks, Apply, RecoverWrites;
    assert [] + RecoverWrites(s.disk, start) == RecoverWrites(s.disk, start);
  }

  /** One operation, with one handle, and nothing else. */
  ghost predicate Solo(m: Sys, start: nat, u: Use) {
    && Good(m, start) && m.panic.Fine? && m.com.Off? && m.s.outstanding == 1 && !m.s.committing
    && m.ops.Keys == {0} && m.ops[0] <= {u.b} && m.use == map[User(0) := u] && u.op == Some(0)
  }

  lemma SoloBegins(m: Sys, start: nat)
    requires Starts(m, start)
    ensures May(m, BeginOp(0), start)
    ensures var r := After(m, BeginOp(0), start);
      && Good(r, start) && r == m.(s := m.s.(outstanding := 1), ops := map[0 := {}])
      && Inv(r.s, start) && NoHolders(r.s.held) && r.s.phase.Idle? && r.s.lh == []
  {
    StartsGood(m, start);
    hide Inv, Hands, Charted, SameIdentity, NoHolders;
    StepKeeps(m, BeginOp(0), start);
  }

  lemma SoloOpens(m: Sys, start: nat, b: nat) returns (r: Sys, p: nat)
    requires Starts(m, start) && b < |m.s.disk| && !InLog(start, b)
    ensures May(m, BeginOp(0), start) && May(After(m, BeginOp(0), start), Get(User(0), b, p, Some(0)), start)
    ensures r == After(After(m, BeginOp(0), start), Get(User(0), b, p, Some(0)), start)
    ensures Solo(r, start, Use(p, b, Waiting, Some(0), false)) && r.s.lh == []
  {
    hide Inv, Hands, Charted, Chosen, SameIdentity, NoHolders;
    SoloBegins(m, start);
    var m1 := After(m, BeginOp(0), start);
    p := FreeBuffer(m1.s, start, b);
    InvCache(m1.s, start);
    r := After(m1, Get(User(0), b, p, Some(0)), start);
    StepKeeps(m1, Get(User(0), b, p, Some(0)), start);
    assert m.use[User(0) := Use(p, b, Waiting, Some(0), false)] == map[User(0) := Use(p, b, Waiting, Some(0), false)];
  }

  /** With the log empty and nobody holding a buffer there is one for any block. */
  lemma FreeBuffer(s: State, start: nat, b: nat) returns (p: nat)
    requires Inv(s, start) && NoHolders(s.held) && s.phase.Idle? && s.lh == [] && b < |s.disk|
    ensures |s.buf| == |s.held| == |s.order| == NBUF && IsOrder(s.order) && p < NBUF && Chosen(s, b, p)
  {
    QuietMeansClean(s, start);
    var r := GetOrPanic(s, start, b);
    assert s.buf[0].refcnt == 0 by { hide RingOk, Full, Apply, PhaseOk, HomeBlocks, Coherent; }
    hide Inv;
    p := r.value;
  }

  lemma SoloLocks(m: Sys, start: nat, u: Use)
    requires Solo(m, start, u) && u.stage.Waiting?
    ensures May(m, Lock(User(0)), start)
    ensures var r := After(m, Lock(User(0)), start); Solo(r, start, u.(stage := Holding)) && r.s.lh == m.s.lh
  {
    hide Cached, Charted, SameIdentity;
    HandlesLive(m, start, User(0));
    SoloUnlocked(m, start, u);
    StepKeeps(m, Lock(User(0)), start);
  }

  lemma SoloUnlocked(m: Sys, start: nat, u: Use)
    requires Solo(m, start, u) && u.stage.Waiting? && u.p < |m.s.buf|
    ensures !m.s.buf[u.p].locked
  { hide Inv, Settled, Tallied, Charted; }

  lemma SoloChanges(m: Sys, start: nat, u: Use, data: Block)
    requires Solo(m, start, u) && u.stage.Holding?
    ensures May(m, Modify(User(0), data), start)
    ensures var r := After(m, Modify(User(0), data), start);
      Solo(r, start, u.(dirty := true)) && r.s.lh == m.s.lh && u.b < |r.s.view| && r.s.view[u.b] == data
  {
    hide Cached, Charted, SameIdentity;
    HandlesLive(m, start, User(0));
    StepKeeps(m, Modify(User(0), data), start);
  }

  lemma SoloLogs(m: Sys, start: nat, u: Use)
    requires Solo(m, start, u) && u.stage.Holding? && m.s.lh == []
    ensures May(m, LogIt(User(0)), start)
    ensures var r := After(m, LogIt(User(0)), start);
      Solo(r, start, u.(dirty := false)) && r.s.lh == [u.b] && r.s.view == m.s.view
  {
    hide Cached, Charted, SameIdentity;
    HandlesLive(m, start, User(0));
    assert m.ops[0] + {u.b} == {u.b};
    StepKeeps(m, LogIt(User(0)), start);
  }

  lemma SoloFrees(m: Sys, start: nat, u: Use)
    requires Solo(m, start, u) && u.stage.Holding? && !u.dirty
    ensures May(m, Free(User(0)), start)
    ensures var r := After(m, Free(User(0)), start);
      Solo(r, start, u.(stage := Letting)) && r.s.lh == m.s.lh && r.s.view == m.s.view
  {
    hide Cached, Charted, SameIdentity;
    HandlesLive(m, start, User(0));
    StepKeeps(m, Free(User(0)), start);
  }

  lemma SoloEnds(m: Sys, start: nat, u: Use)
    requires Solo(m, start, u) && u.stage.Letting? && m.s.lh == [u.b] && u.b < |m.s.view|
    ensures May(m, Drop(User(0)), start) && May(After(m, Drop(User(0)), start), EndOp(0), start)
    ensures var r := After(After(m, Drop(User(0)), start), EndOp(0), start);
      r.com == At(CopyJob(0), 0) && r.h.txn == [Write(u.b, m.s.view[u.b])] && r.h.will == m.s.view
  {
    hide Cached, Charted, Linked;
    HandlesLive(m, start, User(0));
    var x := After(m, Drop(User(0)), start);
    assert x.use == map[];
    assert Txn(x.s) == [Write(u.b, m.s.view[u.b])];
  }

  /** A run of one operation that changes one block, up to the commit it begins: the case with a pinned block and a
      transaction to write is reached from every start, for every block and bytes. */
  lemma OneOperation(m: Sys, start: nat, b: nat, data: Block) returns (ms: seq<Sys>, es: seq<Event>)
    requires Starts(m, start) && b < |m.s.disk| && !InLog(start, b)
    ensures Run(ms, es, start) && ms[0] == m
    ensures ms[|es|].com == At(CopyJob(0), 0) && ms[|es|].h.txn == [Write(b, data)]
  {
    hide Starts, May, After, Solo;
    var t := User(0);
    var r, p := SoloOpens(m, start, b);
    var u := Use(p, b, Waiting, Some(0), false);
    SoloLocks(r, start, u);
    var m3, v := After(r, Lock(t), start), u.(stage := Holding);
    SoloChanges(m3, start, v, data);
    var m4 := After(m3, Modify(t, data), start);
    SoloLogs(m4, start, v.(dirty := true));
    var m5 := After(m4, LogIt(t), start);
    SoloFrees(m5, start, v);
    var m6 := After(m5, Free(t), start);
    SoloEnds(m6, start, v.(stage := Letting));
    var m1, m7 := After(m, BeginOp(0), start), After(m6, Drop(t), start);
    es := [BeginOp(0), Get(t, b, p, Some(0)), Lock(t), Modify(t, data), LogIt(t), Free(t), Drop(t), EndOp(0)];
    ms := [m, m1, r, m3, m4, m5, m6, m7, After(m7, EndOp(0), start)];
  }
}

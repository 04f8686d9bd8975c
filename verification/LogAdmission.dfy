/**
  * Admission to the log (begin_op, end_op and log_write in kernel/log.c): how operations share the log's space,
  * for any number of processes each of whose operations logs fewer than MAXOPBLOCKS distinct blocks.
  */
module LogAdmission {
  import opened Monitor
  import opened Params

  /** The channel &log. */
  const LOG: nat := 0

  /**
    * log.lh.block[..log.lh.n], log.outstanding and log.committing; ops maps each process inside an operation to the
    * blocks it has logged in it, committer is the process in commit.
    */
  datatype Log = Log(lh: seq<nat>, outstanding: int, committing: bool, ops: map<nat, set<nat>>, committer: int)

  datatype Label =
    | Idle
    | BeginWant | Test | Wait | Admitted                  // begin_op
    | InOp
    | WriteWant | Write | Written                         // log_write
    | EndWant | Leave | TellLeft | Done                   // end_op
    | Last | Commit | CommitWant | Clear | TellCommitted  // end_op, the last operation
    | Panicked

  /** An operation's reservation: what it may still add to the log. */
  function Left(used: set<nat>): (n: nat) { if |used| < MAXOPBLOCKS then MAXOPBLOCKS - |used| else 0 }

  ghost function Reserved(ops: map<nat, set<nat>>): (n: nat)
    decreases |ops|
  {
    if ops == map[] then 0 else
      var p :| p in ops;
      Left(ops[p]) + Reserved(ops - {p})
  }

  lemma {:induction false} ReservedSplit(ops: map<nat, set<nat>>, p: nat)
    requires p in ops
    ensures Reserved(ops) == Left(ops[p]) + Reserved(ops - {p})
    decreases |ops|
  {
    var q :| q in ops && Reserved(ops) == Left(ops[q]) + Reserved(ops - {q});
    if q != p {
      ReservedSplit(ops - {q}, p);
      ReservedSplit(ops - {p}, q);
      assert ops - {q} - {p} == ops - {p} - {q};
    }
  }

  lemma Sizes(ops: map<nat, set<nat>>, p: nat, used: set<nat>)
    ensures |ops - {p}| == if p in ops then |ops| - 1 else |ops|
    ensures |ops[p := used]| == if p in ops then |ops| else |ops| + 1
  {
    assert (ops - {p}).Keys == ops.Keys - {p} && ops[p := used].Keys == ops.Keys + {p};
  }

  lemma {:induction false} ReservedBound(ops: map<nat, set<nat>>)
    ensures Reserved(ops) <= MAXOPBLOCKS * |ops|
    decreases |ops|
  {
    if ops != map[] {
      var q :| q in ops && Reserved(ops) == Left(ops[q]) + Reserved(ops - {q});
      ReservedBound(ops - {q});
      Sizes(ops, q, {});
      assert Left(ops[q]) <= MAXOPBLOCKS;
    }
  }

  lemma ReservedPut(ops: map<nat, set<nat>>, p: nat, used: set<nat>)
    ensures Reserved(ops[p := used]) == Left(used) + Reserved(ops - {p})
  {
    ReservedSplit(ops[p := used], p);
    assert ops[p := used] - {p} == ops - {p};
  }

  function Code(l: Label): (i: Instr<Label>) {
    match l
    case BeginWant => Acquire(Test)
    case Wait => Sleep(LOG, Test)
    case Admitted => Release(InOp)
    case WriteWant => Acquire(Write)
    case Written => Release(InOp)
    case EndWant => Acquire(Leave)
    case TellLeft => Wake(LOG, Done)
    case Done => Release(Idle)
    case Last => Release(Commit)
    case CommitWant => Acquire(Clear)
    case TellCommitted => Wake(LOG, Done)
    case _ => Act
  }

  predicate Room(s: Log) { |s.lh| + (s.outstanding + 1) * MAXOPBLOCKS <= LOGBLOCKS }

  /** log_write(b) by an operation that keeps to fewer than MAXOPBLOCKS distinct blocks: the block goes to the end of
      log.lh, unless it is there already. */
  predicate Logs(p: nat, s: Log, s': Log, b: nat) {
    && p in s.ops && |s.ops[p] + {b}| < MAXOPBLOCKS
    && s' == s.(lh := if b in s.lh then s.lh else s.lh + [b], ops := s.ops[p := s.ops[p] + {b}])
  }

  ghost predicate Does(p: nat, l: Label, s: Log, l': Label, s': Log) {
    match l
    case Idle => s' == s && l' == BeginWant
    case InOp => s' == s && (l' == WriteWant || l' == EndWant)
    case Test =>
      if s.committing || !Room(s) then s' == s && l' == Wait
      else s' == s.(outstanding := s.outstanding + 1, ops := s.ops[p := {}]) && l' == Admitted
    case Write =>
      if |s.lh| >= LOGBLOCKS || s.outstanding < 1 then s' == s && l' == Panicked
      else l' == Written && exists b :: Logs(p, s, s', b)
    case Leave =>
      var t := s.(outstanding := s.outstanding - 1, ops := s.ops - {p});
      if s.committing then s' == t && l' == Panicked
      else if t.outstanding == 0 then s' == t.(committing := true, committer := p) && l' == Last
      else s' == t && l' == TellLeft
    case Commit => s' == s.(lh := []) && l' == CommitWant
    case Clear => s' == s.(committing := false, committer := NOBODY) && l' == TellCommitted
    case _ => false
  }

  /** begin_op would let an operation in. */
  predicate Admits(chan: nat, s: Log) { chan == LOG && !s.committing && Room(s) }

  predicate Inside(l: Label) {
    match l
    case Test | Wait | Admitted | Write | Written | Leave | TellLeft | Done | Last | Clear | TellCommitted => true
    case _ => false
  }

  function Owes(l: Label): (r: set<nat>) { if l == TellLeft || l == TellCommitted then {LOG} else {} }

  /** The log holds every block an open operation has logged. */
  predicate Recorded(lh: seq<nat>, ops: map<nat, set<nat>>) { forall p <- ops, b <- ops[p] :: b in lh }

  ghost predicate SpaceOk(s: Log) {
    && |s.lh| + Reserved(s.ops) <= LOGBLOCKS && |s.lh| < LOGBLOCKS
    && Recorded(s.lh, s.ops)
    && s.outstanding == |s.ops|
    && (s.committing ==> s.ops == map[]) && (s.committing <==> s.committer != NOBODY)
  }

  predicate Operating(l: Label) {
    match l
    case Admitted | InOp | WriteWant | Write | Written | EndWant | Leave => true
    case _ => false
  }

  predicate Committing(l: Label) {
    match l
    case Last | Commit | CommitWant | Clear => true
    case _ => false
  }

  /** A process is in ops during its operation, which has logged fewer than MAXOPBLOCKS blocks; nobody panics. */
  predicate Mine(p: nat, l: Label, s: Log) {
    && (p in s.ops <==> Operating(l)) && (p in s.ops ==> |s.ops[p]| < MAXOPBLOCKS)
    && (s.committer == p <==> Committing(l))
    && l != Panicked
  }

  predicate Sure(p: nat, l: Label, s: Log) { l == Wait ==> !Admits(LOG, s) }

  ghost function LogClient(): (c: Client<Log, Label>) {
    Client(Code, Does, Admits, Inside, Owes, s => SpaceOk(s), Mine, Sure)
  }

  lemma AdmitKeeps(p: nat, s: Log)
    requires SpaceOk(s) && p !in s.ops && !s.committing && Room(s)
    ensures SpaceOk(s.(outstanding := s.outstanding + 1, ops := s.ops[p := {}]))
  {
    assert Recorded(s.lh, s.ops[p := {}]);
    hide Reserved, Recorded;
    ReservedBound(s.ops);
    ReservedPut(s.ops, p, {});
    assert s.ops - {p} == s.ops;
    Sizes(s.ops, p, {});
    assert Left({}) == MAXOPBLOCKS;
  }

  /** A block new to the log is new to the operation too, so the log grows only at the operation's expense. */
  lemma WriteKeeps(p: nat, s: Log, s': Log, b: nat)
    requires SpaceOk(s) && Logs(p, s, s', b)
    ensures SpaceOk(s') && b in s'.lh && |s'.lh| + Reserved(s'.ops) <= |s.lh| + Reserved(s.ops)
  {
    assert b !in s.lh ==> b !in s.ops[p];
    assert |s.ops[p] + {b}| == |s.ops[p]| + if b in s.ops[p] then 0 else 1 by {
      if b in s.ops[p] { assert s.ops[p] + {b} == s.ops[p]; }
    }
    assert Recorded(s'.lh, s'.ops);
    hide Reserved, Recorded;
    ReservedSplit(s.ops, p);
    ReservedPut(s.ops, p, s'.ops[p]);
    Sizes(s.ops, p, s'.ops[p]);
  }

  lemma LeaveKeeps(p: nat, s: Log)
    requires SpaceOk(s) && p in s.ops
    ensures var t := s.(outstanding := s.outstanding - 1, ops := s.ops - {p});
      && !s.committing && SpaceOk(t)
      && (t.outstanding == 0 ==> SpaceOk(t.(committing := true, committer := p)))
  {
    ReservedSplit(s.ops, p);
    Sizes(s.ops, p, {});
  }

  /** A process in an operation finds the log below its limit. */
  lemma NotFull(p: nat, s: Log)
    requires SpaceOk(s) && p in s.ops && |s.ops[p]| < MAXOPBLOCKS
    ensures |s.lh| < LOGBLOCKS && s.outstanding >= 1
  { ReservedSplit(s.ops, p); }

  lemma ActionsSpace(p: nat, l: Label, s: Log, l': Label, s': Log)
    requires Does(p, l, s, l', s') && SpaceOk(s) && Mine(p, l, s)
    ensures SpaceOk(s')
  {
    hide Reserved, Logs, Room;
    match l {
      case Test => if !s.committing && Room(s) { AdmitKeeps(p, s); }
      case Write =>
        NotFull(p, s);
        var b :| Logs(p, s, s', b);
        WriteKeeps(p, s, s', b);
      case Leave => LeaveKeeps(p, s);
      case _ =>
    }
  }

  lemma CommitterOnly(s: Log)
    requires SpaceOk(s)
    ensures s.committing ==> s.ops == map[]
    ensures s.committing <==> s.committer != NOBODY
  {}

  lemma ActionsMine(p: nat, l: Label, s: Log, l': Label, s': Log)
    requires Does(p, l, s, l', s') && SpaceOk(s) && Mine(p, l, s)
    ensures Mine(p, l', s')
  {
    hide SpaceOk, Logs, Room;
    CommitterOnly(s);
    match l {
      case Write =>
        NotFull(p, s);
        var b :| Logs(p, s, s', b);
        LogsMine(p, s, s', b);
      case _ =>
    }
  }

  /** Only an operation's end and a commit's end can let begin_op through, and both go on to wake. */
  lemma ActionsOwe(p: nat, l: Label, s: Log, l': Label, s': Log, chan: nat)
    requires Does(p, l, s, l', s') && SpaceOk(s) && Mine(p, l, s) && Admits(chan, s') && !Admits(chan, s)
    ensures Inside(l) && chan in Owes(l')
  { hide Reserved; }

  lemma LogsMine(p: nat, s: Log, s': Log, b: nat)
    requires Logs(p, s, s', b)
    ensures s'.ops.Keys == s.ops.Keys && |s'.ops[p]| < MAXOPBLOCKS && s'.committer == s.committer
  {}

  lemma Apart(p: nat, l: Label, s: Log, l': Label, s': Log, q: nat, m: Label)
    requires Does(p, l, s, l', s') && SpaceOk(s) && Mine(p, l, s) && p != q && Mine(q, m, s)
    ensures Mine(q, m, s')
    ensures !Inside(l) && Sure(q, m, s) ==> Sure(q, m, s')
  { hide Reserved, Recorded; }

  lemma ActsOk(p: nat, l: Label, s: Log, l': Label, s': Log)
    ensures ActOk(LogClient(), p, l, s, l', s')
  {
    hide SpaceOk, Mine, Admits, Owes, Inside, Sure, Does;
    if Does(p, l, s, l', s') && SpaceOk(s) && Mine(p, l, s) {
      ActionsSpace(p, l, s, l', s');
      ActionsMine(p, l, s, l', s');
      Places(p, l, s, l', s');
      forall chan | Admits(chan, s') && !Admits(chan, s)
        ensures Inside(l) && chan in Owes(l')
      {
        ActionsOwe(p, l, s, l', s', chan);
      }
    }
  }

  lemma Places(p: nat, l: Label, s: Log, l': Label, s': Log)
    requires Does(p, l, s, l', s') && Mine(p, l, s) && Mine(p, l', s')
    ensures (Inside(l') <==> Inside(l)) && Owes(l) == {} && Sure(p, l', s')
  {}

  lemma ActsApart(p: nat, l: Label, s: Log, l': Label, s': Log, q: nat, m: Label)
    ensures ApartOk(LogClient(), p, l, s, l', s', q, m)
  {
    hide Does, SpaceOk, Mine, Sure, Inside;
    var c := LogClient();
    if c.act(p, l, s, l', s') && c.inv(s) && p != q && c.local(p, l, s) && c.local(q, m, s) {
      Apart(p, l, s, l', s', q, m);
      assert c.local(q, m, s') && (!c.inside(l) && c.known(q, m, s) ==> c.known(q, m, s'));
    }
  }

  lemma LogDisciplined()
    ensures Disciplined(LogClient())
  {
    hide SpaceOk, ActOk, ApartOk, Does, Mine;
    var c := LogClient();
    forall l ensures LabelOk(c, l) {}
    forall p, l, s ensures NotesOk(c, p, l, s) { NotesFollow(p, l, s); }
    forall p, l, s, l', s' ensures ActOk(c, p, l, s, l', s') { ActsOk(p, l, s, l', s'); }
    forall p, l, s, l', s', q, m ensures ApartOk(c, p, l, s, l', s', q, m) { ActsApart(p, l, s, l', s', q, m); }
  }

  lemma NotesFollow(p: nat, l: Label, s: Log)
    ensures NotesOk(LogClient(), p, l, s)
  { hide SpaceOk; }

  /**
    * In every state of every run whose operations each log fewer than MAXOPBLOCKS distinct blocks: the log never
    * fills and holds every block an open operation has logged, no log panic is reached, at most one process commits
    * and only with no operation in progress; with log.lock free, a process asleep in begin_op could not be admitted.
    */
  lemma LogSafe(states: seq<State<Log, Label>>, who: seq<nat>, k: nat, p: nat)
    requires Runs(LogClient(), states, who) && k < |states| && p < |states[k].threads|
    ensures var s := states[k].shared; |s.lh| < LOGBLOCKS && states[k].threads[p].at != Panicked
    ensures var s := states[k].shared; Recorded(s.lh, s.ops)
    ensures var s := states[k].shared; Operating(states[k].threads[p].at) ==> !s.committing && s.outstanding >= 1
    ensures var s := states[k].shared; Committing(states[k].threads[p].at) ==>
        s.committing && s.outstanding == 0 && s.committer == p
    ensures states[k].lock == NOBODY && Dormant(states[k].threads[p].phase) && states[k].threads[p].at == Wait ==>
      states[k].shared.committing || !Room(states[k].shared)
  {
    var c := LogClient();
    LogDisciplined();
    NoLostWakeup(c, states, who, k);
    var s := states[k].shared;
    assert c.local(p, states[k].threads[p].at, s) && c.inv(s);
    if p in s.ops { ReservedSplit(s.ops, p); }
  }
}

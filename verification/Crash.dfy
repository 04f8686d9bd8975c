/** The write-ahead protocol of kernel/log.c as the sequence of block writes it issues, and what a crash
    between any two of them leaves behind.  A crash keeps the disk and nothing else. */
module Crash {
  import opened Blocks
  import opened Params

  type Disk = seq<Block>
  datatype Write = Write(bno: nat, data: Block)

  predicate InLog(start: nat, b: int) { start <= b <= start + LOGBLOCKS }

  // ---------- The header block: n, then the n home block numbers ----------

  function HeadOf(b: Block): (hs: seq<nat>) {
    var n := Word(b, 0);
    if n <= LOGBLOCKS then seq(n, i requires 0 <= i < n => Word(b, i + 1)) else []
  }

  function PutEntries(b: Block, hs: seq<nat>, n: nat): (r: Block)
    requires n <= |hs| <= LOGBLOCKS
    ensures Word(r, 0) == Word(b, 0)
    ensures forall i :: 0 <= i < n ==> Word(r, i + 1) == hs[i] % 0x1_0000_0000
  { if n == 0 then b else SetWord(PutEntries(b, hs, n - 1), n, hs[n - 1]) }

  /** What write_head leaves in the header block. */
  function PutHead(b: Block, hs: seq<nat>): (r: Block)
    requires |hs| <= LOGBLOCKS
    ensures Word(r, 0) == |hs|
    ensures (forall i :: 0 <= i < |hs| ==> hs[i] < 0x1_0000_0000) ==> HeadOf(r) == hs
  { PutHeadReads(b, hs); PutEntries(SetWord(b, 0, |hs|), hs, |hs|) }

  lemma PutHeadReads(b: Block, hs: seq<nat>)
    requires |hs| <= LOGBLOCKS
    ensures var r := PutEntries(SetWord(b, 0, |hs|), hs, |hs|);
      && Word(r, 0) == |hs|
      && ((forall i :: 0 <= i < |hs| ==> hs[i] < 0x1_0000_0000) ==> HeadOf(r) == hs)
  {
    hide PutEntries, SetWord, Word;
    var r := PutEntries(SetWord(b, 0, |hs|), hs, |hs|);
    if forall i :: 0 <= i < |hs| ==> hs[i] < 0x1_0000_0000 {
      forall i | 0 <= i < |hs| ensures HeadOf(r)[i] == hs[i] { assert Word(r, i + 1) == hs[i] % 0x1_0000_0000; }
    }
  }

  // ---------- Disks and writes ----------

  function Apply(d: Disk, ws: seq<Write>): (r: Disk)
    ensures |r| == |d|
  {
    if ws == [] then d
    else
      var w, e := ws[|ws| - 1], Apply(d, ws[..|ws| - 1]);
      if w.bno < |d| then e[w.bno := w.data] else e
  }

  function Bnos(ws: seq<Write>): (hs: seq<nat>)
    ensures |hs| == |ws| && forall i :: 0 <= i < |ws| ==> hs[i] == ws[i].bno
  { seq(|ws|, i requires 0 <= i < |ws| => ws[i].bno) }

  /** Distinct block numbers inside the disk and outside the log area. */
  ghost predicate HomeBlocks(size: nat, start: nat, hs: seq<nat>) {
    && |hs| <= LOGBLOCKS
    && (forall i :: 0 <= i < |hs| ==> hs[i] < size && !InLog(start, hs[i]))
    && (forall i, j :: 0 <= i < j < |hs| ==> hs[i] != hs[j])
  }

  ghost predicate WellFormed(d: Disk, start: nat) {
    && start + LOGBLOCKS < |d| <= 0x1_0000_0000
    && Word(d[start], 0) <= LOGBLOCKS
    && HomeBlocks(|d|, start, HeadOf(d[start]))
  }

  /** Nothing to recover. */
  ghost predicate Clean(d: Disk, start: nat) { WellFormed(d, start) && Word(d[start], 0) == 0 }

  ghost predicate IsTransaction(d: Disk, start: nat, txn: seq<Write>) {
    |txn| <= LOGBLOCKS && HomeBlocks(|d|, start, Bnos(txn))
  }

  /** The same bytes in every block outside the log area. */
  ghost predicate SameHome(d: Disk, e: Disk, start: nat) {
    |d| == |e| && forall b :: 0 <= b < |d| && !InLog(start, b) ==> d[b] == e[b]
  }

  function LogCopies(txn: seq<Write>, start: nat): (ws: seq<Write>)
    ensures |ws| == |txn|
    ensures forall i :: 0 <= i < |txn| ==> ws[i] == Write(start + 1 + i, txn[i].data)
  { seq(|txn|, i requires 0 <= i < |txn| => Write(start + 1 + i, txn[i].data)) }

  /** The writes of commit(): write_log, write_head, install_trans, write_head. */
  function CommitWrites(d: Disk, start: nat, txn: seq<Write>): (ws: seq<Write>)
    requires start < |d| && |txn| <= LOGBLOCKS
  {
    if txn == [] then []
    else
      var h := PutHead(d[start], Bnos(txn));
      LogCopies(txn, start) + [Write(start, h)] + txn + [Write(start, PutHead(h, []))]
  }

  /** The writes of recover_from_log(): install_trans, write_head. */
  function RecoverWrites(d: Disk, start: nat): (ws: seq<Write>)
    requires start + LOGBLOCKS < |d|
  { Pending(d, start) + [Write(start, PutHead(d[start], []))] }

  /** The transaction recorded in the log area. */
  function Pending(d: Disk, start: nat): (ws: seq<Write>)
    requires start + LOGBLOCKS < |d|
    ensures Bnos(ws) == HeadOf(d[start])
  {
    var hs := HeadOf(d[start]);
    seq(|hs|, i requires 0 <= i < |hs| => Write(hs[i], d[start + 1 + i]))
  }

  ghost function Recovered(d: Disk, start: nat): (r: Disk)
    requires start + LOGBLOCKS < |d|
  { Apply(d, RecoverWrites(d, start)) }

  // ---------- Facts about Apply ----------

  lemma {:induction false} ApplyElsewhere(d: Disk, ws: seq<Write>, b: nat)
    requires b < |d| && forall w <- ws :: w.bno != b
    ensures Apply(d, ws)[b] == d[b]
  {
    if ws != [] { ApplyElsewhere(d, ws[..|ws| - 1], b); }
  }

  lemma {:induction false} ApplyAt(d: Disk, ws: seq<Write>, i: nat)
    requires i < |ws| && ws[i].bno < |d| && forall j :: i < j < |ws| ==> ws[j].bno != ws[i].bno
    ensures Apply(d, ws)[ws[i].bno] == ws[i].data
  {
    if i < |ws| - 1 { ApplyAt(d, ws[..|ws| - 1], i); }
  }

  lemma {:induction false} ApplyAppend(d: Disk, xs: seq<Write>, ys: seq<Write>)
    ensures Apply(d, xs + ys) == Apply(Apply(d, xs), ys)
  {
    if ys == [] {
      assert xs + ys == xs;
    } else {
      assert (xs + ys)[..|xs + ys| - 1] == xs + ys[..|ys| - 1];
      ApplyAppend(d, xs, ys[..|ys| - 1]);
    }
  }

  /** Writing the same transaction over disks with the same home blocks gives the same home blocks. */
  lemma {:induction false} ApplySameHome(d: Disk, e: Disk, start: nat, ws: seq<Write>)
    requires SameHome(d, e, start)
    ensures SameHome(Apply(d, ws), Apply(e, ws), start)
  {
    if ws != [] { ApplySameHome(d, e, start, ws[..|ws| - 1]); }
  }

  /** Replaying a transaction over a disk that holds any part of it gives the whole of it. */
  lemma ReplayCompletes(d: Disk, e: Disk, start: nat, txn: seq<Write>)
    requires |d| == |e| && IsTransaction(d, start, txn)
    requires forall b :: 0 <= b < |d| && !InLog(start, b) && b !in Bnos(txn) ==> e[b] == d[b]
    ensures SameHome(Apply(e, txn), Apply(d, txn), start)
  {
    forall b | 0 <= b < |d| && !InLog(start, b)
      ensures Apply(e, txn)[b] == Apply(d, txn)[b]
    {
      if b in Bnos(txn) {
        var i :| 0 <= i < |txn| && Bnos(txn)[i] == b;
        assert forall j :: i < j < |txn| ==> Bnos(txn)[j] != Bnos(txn)[i];
        ApplyAt(e, txn, i);
        ApplyAt(d, txn, i);
      } else {
        forall w <- txn ensures w.bno != b {
          var i :| 0 <= i < |txn| && txn[i] == w;
          assert Bnos(txn)[i] == w.bno;
        }
        ApplyElsewhere(e, txn, b);
        ApplyElsewhere(d, txn, b);
      }
    }
  }

  // ---------- Recovery ----------

  lemma RecoverAllHome(d: Disk, start: nat)
    requires WellFormed(d, start)
    ensures var r := Apply(d, RecoverWrites(d, start));
      Clean(r, start) && SameHome(r, Apply(d, Pending(d, start)), start)
  {
    var p, ws := Pending(d, start), RecoverWrites(d, start);
    forall w <- p ensures w.bno < |d| {
      var i :| 0 <= i < |p| && p[i] == w;
      assert Bnos(p)[i] == w.bno;
    }
    assert ws[..|ws| - 1] == p;
  }

  /** Recovery of this disk yields the home blocks of `model`. */
  ghost predicate Delivers(d: Disk, start: nat, model: Disk) {
    WellFormed(d, start) && SameHome(Recovered(d, start), model, start)
  }

  lemma DeliversSame(d: Disk, start: nat, e: Disk, f: Disk)
    requires Delivers(d, start, e) && SameHome(e, f, start)
    ensures Delivers(d, start, f)
  { hide WellFormed, Recovered; }

  lemma SameHomeAs(d: Disk, e: Disk, f: Disk, start: nat)
    requires SameHome(d, e, start) && SameHome(d, f, start)
    ensures SameHome(e, f, start)
  {}

  /** A disk with the log header empty is its own recovery. */
  lemma CleanDelivers(d: Disk, start: nat, model: Disk)
    requires Clean(d, start)
    ensures Delivers(d, start, model) <==> SameHome(d, model, start)
  {
    RecoverAllHome(d, start);
    assert Pending(d, start) == [];
  }

  /** A disk whose log area holds `txn` delivers it in full, whatever part of it is already installed. */
  lemma PendingDelivers(d: Disk, c: Disk, start: nat, txn: seq<Write>)
    requires WellFormed(c, start) && Pending(c, start) == txn && |c| == |d| && IsTransaction(d, start, txn)
    requires forall b :: 0 <= b < |d| && !InLog(start, b) && b !in Bnos(txn) ==> c[b] == d[b]
    ensures Delivers(c, start, Apply(d, txn))
  {
    RecoverAllHome(c, start);
    ReplayCompletes(d, c, start, txn);
  }

  /** Installing part of a transaction touches neither the log area nor any block outside the transaction. */
  lemma KeepsOthers(d: Disk, start: nat, txn: seq<Write>, k: nat)
    requires start + LOGBLOCKS < |d| && IsTransaction(d, start, txn) && k <= |txn|
    ensures forall b :: 0 <= b < |d| && b !in Bnos(txn) ==> Apply(d, txn[..k])[b] == d[b]
    ensures forall b :: InLog(start, b) ==> Apply(d, txn[..k])[b] == d[b]
  {
    forall w <- txn[..k] ensures w.bno in Bnos(txn) {
      var i :| 0 <= i < k && txn[i] == w;
      assert Bnos(txn)[i] == w.bno;
    }
    forall b | 0 <= b < |d| && b !in Bnos(txn) ensures Apply(d, txn[..k])[b] == d[b] {
      ApplyElsewhere(d, txn[..k], b);
    }
  }

  lemma PartKeepsPending(d: Disk, start: nat, k: nat)
    requires WellFormed(d, start) && k <= |Pending(d, start)|
    ensures var c := Apply(d, Pending(d, start)[..k]);
      WellFormed(c, start) && Pending(c, start) == Pending(d, start)
  {
    var p := Pending(d, start);
    var c := Apply(d, p[..k]);
    KeepsOthers(d, start, p, k);
    assert c[start] == d[start] by { assert InLog(start, start); }
    forall i | 0 <= i < |p| ensures Pending(c, start)[i] == p[i] { assert InLog(start, start + 1 + i); }
    assert Pending(c, start) == p;
  }

  lemma RecoverPart(d: Disk, start: nat, k: nat)
    requires WellFormed(d, start) && k <= |Pending(d, start)|
    ensures Delivers(Apply(d, Pending(d, start)[..k]), start, Apply(d, Pending(d, start)))
  {
    var p := Pending(d, start);
    PartKeepsPending(d, start, k);
    KeepsOthers(d, start, p, k);
    PendingDelivers(d, Apply(d, p[..k]), start, p);
  }

  /** A crash during recovery changes nothing about what recovery will deliver. */
  lemma RecoverCut(d: Disk, start: nat, k: nat, model: Disk)
    requires Delivers(d, start, model) && k <= |RecoverWrites(d, start)|
    ensures Delivers(Apply(d, RecoverWrites(d, start)[..k]), start, model)
    ensures k == |RecoverWrites(d, start)| ==> Clean(Apply(d, RecoverWrites(d, start)[..k]), start)
  {
    hide HomeBlocks, HeadOf, Word, SameHome, Apply, PutHead, Pending;
    var ws := RecoverWrites(d, start);
    RecoverAllHome(d, start);
    if k == |ws| {
      assert ws[..k] == ws;
      CleanDelivers(Apply(d, ws), start, model);
    } else {
      assert ws[..k] == Pending(d, start)[..k];
      RecoverPart(d, start, k);
      SameHomeAs(Recovered(d, start), Apply(d, Pending(d, start)), model, start);
      DeliversSame(Apply(d, ws[..k]), start, Apply(d, Pending(d, start)), model);
    }
  }

  // ---------- Commit ----------

  /** Before the first write_head reaches the disk, the home blocks are those the commit started from. */
  lemma CutBeforeHead(d: Disk, start: nat, txn: seq<Write>, k: nat)
    requires Clean(d, start) && IsTransaction(d, start, txn) && k <= |txn|
    ensures Clean(Apply(d, LogCopies(txn, start)[..k]), start)
    ensures SameHome(Apply(d, LogCopies(txn, start)[..k]), d, start)
  {
    var ws := LogCopies(txn, start)[..k];
    forall b | 0 <= b < |d| && !(start < b <= start + LOGBLOCKS) ensures Apply(d, ws)[b] == d[b] {
      ApplyElsewhere(d, ws, b);
    }
  }

  /** The writes up to and including the first write_head. */
  function LoggedWrites(d: Disk, start: nat, txn: seq<Write>): (ws: seq<Write>)
    requires start < |d| && |txn| <= LOGBLOCKS
    ensures |ws| == |txn| + 1
  { LogCopies(txn, start) + [Write(start, PutHead(d[start], Bnos(txn)))] }

  /** The header just written reads back as the transaction's block numbers. */
  lemma HeadNames(d: Disk, start: nat, txn: seq<Write>)
    requires start < |d| <= 0x1_0000_0000 && IsTransaction(d, start, txn)
    ensures var h := PutHead(d[start], Bnos(txn)); HeadOf(h) == Bnos(txn) && Word(h, 0) <= LOGBLOCKS
  {}

  /** What each block holds once the log copies and the header are written. */
  lemma LoggedBlocks(d: Disk, start: nat, txn: seq<Write>)
    requires start + LOGBLOCKS < |d| && |txn| <= LOGBLOCKS
    ensures var c := Apply(d, LoggedWrites(d, start, txn));
      && c[start] == PutHead(d[start], Bnos(txn))
      && (forall i :: 0 <= i < |txn| ==> c[start + 1 + i] == txn[i].data)
      && SameHome(c, d, start)
  {
    hide PutHead, HeadOf, Apply;
    var ws := LoggedWrites(d, start, txn);
    var c := Apply(d, ws);
    ApplyAt(d, ws, |txn|);
    forall i | 0 <= i < |txn| ensures c[start + 1 + i] == txn[i].data { LoggedCopy(d, start, txn, i); }
    forall b | 0 <= b < |d| && !InLog(start, b) ensures c[b] == d[b] { ApplyElsewhere(d, ws, b); }
  }

  lemma LoggedCopy(d: Disk, start: nat, txn: seq<Write>, i: nat)
    requires start + LOGBLOCKS < |d| && |txn| <= LOGBLOCKS && i < |txn|
    ensures Apply(d, LoggedWrites(d, start, txn))[start + 1 + i] == txn[i].data
  {
    hide PutHead, HeadOf, Apply, LogCopies;
    var ws := LoggedWrites(d, start, txn);
    assert ws[i] == LogCopies(txn, start)[i];
    forall j | i < j < |ws| ensures ws[j].bno != ws[i].bno {
      if j < |txn| { assert ws[j] == LogCopies(txn, start)[j]; }
    }
    hide LoggedWrites;
    ApplyAt(d, ws, i);
  }

  /** After the first write_head the log area holds the transaction and the home blocks are untouched. */
  lemma LoggedHoldsTransaction(d: Disk, start: nat, txn: seq<Write>)
    requires Clean(d, start) && IsTransaction(d, start, txn)
    ensures var c := Apply(d, LoggedWrites(d, start, txn));
      WellFormed(c, start) && Pending(c, start) == txn && SameHome(c, d, start)
  {
    hide PutHead, HeadOf, Apply, LoggedWrites, SameHome;
    HeadNames(d, start, txn);
    LoggedBlocks(d, start, txn);
    assert Pending(Apply(d, LoggedWrites(d, start, txn)), start) == txn;
  }

  lemma CutAfterHead(d: Disk, start: nat, txn: seq<Write>, m: nat)
    requires Clean(d, start) && IsTransaction(d, start, txn) && m <= |txn|
    ensures var c := Apply(d, LoggedWrites(d, start, txn) + txn[..m]);
      && Delivers(c, start, Apply(d, txn))
      && (m == |txn| ==> SameHome(c, Apply(d, txn), start))
  {
    hide PutHead, HeadOf, HomeBlocks, RecoverWrites;
    var e := Apply(d, LoggedWrites(d, start, txn));
    LoggedHoldsTransaction(d, start, txn);
    ApplyAppend(d, LoggedWrites(d, start, txn), txn[..m]);
    RecoverPart(e, start, m);
    ApplySameHome(e, d, start, txn);
    assert m == |txn| ==> txn[..m] == txn;
  }

  lemma CommitComplete(d: Disk, start: nat, txn: seq<Write>)
    requires Clean(d, start) && IsTransaction(d, start, txn)
    ensures Clean(Apply(d, CommitWrites(d, start, txn)), start)
    ensures SameHome(Apply(d, CommitWrites(d, start, txn)), Apply(d, txn), start)
  {
    if txn != [] {
      var ws := CommitWrites(d, start, txn);
      CutAfterHead(d, start, txn, |txn|);
      assert ws[..|ws| - 1] == LoggedWrites(d, start, txn) + txn[..|txn|];
    }
  }

  /** What a cut commit has written. */
  lemma CommitPrefix(d: Disk, start: nat, txn: seq<Write>, k: nat)
    requires start < |d| && |txn| <= LOGBLOCKS && k <= |CommitWrites(d, start, txn)|
    ensures var ws, n := CommitWrites(d, start, txn), |txn|;
      && |ws| == (if n == 0 then 0 else 2 * n + 2)
      && (k <= n ==> ws[..k] == LogCopies(txn, start)[..k])
      && (n < k < |ws| ==> ws[..k] == LoggedWrites(d, start, txn) + txn[..k - n - 1])
  { hide PutHead; }

  /** Crash atomicity of one commit: wherever it is cut, recovery delivers all of the transaction or none,
      and the first write_head is the switch point. */
  lemma CommitCut(d: Disk, start: nat, txn: seq<Write>, k: nat)
    requires Clean(d, start) && IsTransaction(d, start, txn)
    requires k <= |CommitWrites(d, start, txn)|
    ensures Delivers(Apply(d, CommitWrites(d, start, txn)[..k]), start, if k <= |txn| then d else Apply(d, txn))
  {
    hide PutHead, HeadOf, Apply, SameHome, HomeBlocks, RecoverWrites, LoggedWrites;
    var ws := CommitWrites(d, start, txn);
    var n := |txn|;
    var c := Apply(d, ws[..k]);
    CommitPrefix(d, start, txn, k);
    if k <= n {
      CutBeforeHead(d, start, txn, k);
      CleanDelivers(c, start, d);
    } else if k < |ws| {
      CutAfterHead(d, start, txn, k - n - 1);
    } else {
      assert ws[..k] == ws;
      CommitComplete(d, start, txn);
      CleanDelivers(c, start, Apply(d, txn));
    }
  }

  // ---------- Whole runs ----------

  /** A commit or a recovery, cut after `cut` block writes (not cut at all when `cut` covers them all). */
  datatype Action = Commit(txn: seq<Write>, cut: nat) | Recover(cut: nat)

  /** The disk, and whether the machine is up (has recovered since the last crash). */
  datatype Machine = Machine(disk: Disk, up: bool)

  function Writes(d: Disk, start: nat, a: Action): (ws: seq<Write>)
    requires start + LOGBLOCKS < |d|
    requires a.Commit? ==> |a.txn| <= LOGBLOCKS
  { if a.Commit? then CommitWrites(d, start, a.txn) else RecoverWrites(d, start) }

  /** Commits happen only while up, recovery only after a crash. */
  ghost predicate Enabled(m: Machine, start: nat, a: Action) {
    && start + LOGBLOCKS < |m.disk|
    && a.Commit? == m.up
    && (a.Commit? ==> IsTransaction(m.disk, start, a.txn))
  }

  ghost function Do(m: Machine, start: nat, a: Action): (r: Machine)
    requires Enabled(m, start, a)
  {
    var ws := Writes(m.disk, start, a);
    if a.cut < |ws| then Machine(Apply(m.disk, ws[..a.cut]), false) else Machine(Apply(m.disk, ws), true)
  }

  ghost predicate Legal(m: Machine, start: nat, run: seq<Action>)
    decreases |run|
  {
    run == [] || (Enabled(m, start, run[0]) && Legal(Do(m, start, run[0]), start, run[1..]))
  }

  ghost function Run(m: Machine, start: nat, run: seq<Action>): (r: Machine)
    requires Legal(m, start, run)
    decreases |run|
  { if run == [] then m else Run(Do(m, start, run[0]), start, run[1..]) }

  /** What one action adds to the surviving transactions: the first write_head reached the disk or it did not. */
  function Survives(a: Action): (ws: seq<Write>) {
    if a.Commit? && a.cut > |a.txn| then a.txn else []
  }

  function Survivors(run: seq<Action>): (ws: seq<Write>) {
    if run == [] then [] else Survives(run[0]) + Survivors(run[1..])
  }

  ghost predicate Holds(m: Machine, start: nat, model: Disk) {
    Delivers(m.disk, start, model) && (m.up ==> Clean(m.disk, start))
  }

  /** One action keeps the invariant; only a commit cut after its first write_head advances the model. */
  lemma DoKeepsInvariant(m: Machine, start: nat, a: Action, model: Disk)
    requires Holds(m, start, model) && Enabled(m, start, a)
    ensures Holds(Do(m, start, a), start, Apply(model, Survives(a)))
  {
    match a
    case Commit(txn, cut) => CommitKeepsInvariant(m, start, txn, cut, model);
    case Recover(cut) =>
      var ws := RecoverWrites(m.disk, start);
      assert ws[..|ws|] == ws;
      RecoverCut(m.disk, start, if cut < |ws| then cut else |ws|, model);
  }

  lemma CommitKeepsInvariant(m: Machine, start: nat, txn: seq<Write>, cut: nat, model: Disk)
    requires Holds(m, start, model) && m.up && IsTransaction(m.disk, start, txn)
    ensures Holds(Do(m, start, Commit(txn, cut)), start, Apply(model, Survives(Commit(txn, cut))))
  {
    var d, kept := m.disk, Survives(Commit(txn, cut));
    assert start < |d| && |txn| <= LOGBLOCKS;
    CommitPrefix(d, start, txn, 0);
    hide WellFormed, Delivers, SameHome, CommitWrites, PutHead, HomeBlocks;
    assert Apply(d, []) == d && Apply(model, []) == model;
    hide Apply;
    var ws := CommitWrites(d, start, txn);
    var k := if cut < |ws| then cut else |ws|;
    assert ws[..|ws|] == ws;
    CleanDelivers(d, start, model);
    CommitCut(d, start, txn, k);
    if k == |ws| { CommitComplete(d, start, txn); }
    ApplySameHome(d, model, start, kept);
    DeliversSame(Apply(d, ws[..k]), start, Apply(d, kept), Apply(model, kept));
  }

  /** Crash atomicity over whole runs of commits, crashes and interrupted recoveries: recovery delivers exactly
      the transactions that passed their first write_head, applied in full and in order; while the machine is up
      the home blocks already are that. */
  lemma {:induction false} CrashAtomicity(m: Machine, start: nat, run: seq<Action>, model: Disk)
    requires Holds(m, start, model) && Legal(m, start, run)
    ensures var f := Run(m, start, run);
      && Delivers(f.disk, start, Apply(model, Survivors(run)))
      && (f.up ==> Clean(f.disk, start) && SameHome(f.disk, Apply(model, Survivors(run)), start))
    decreases |run|
  {
    if run == [] {
      if m.up { CleanDelivers(m.disk, start, model); }
    } else {
      hide Delivers, Clean, SameHome, Do, Apply;
      var a := run[0];
      DoKeepsInvariant(m, start, a, model);
      CrashAtomicity(Do(m, start, a), start, run[1..], Apply(model, Survives(a)));
      ApplyAppend(model, Survives(a), Survivors(run[1..]));
    }
  }
}

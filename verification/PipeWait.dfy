/**
  * Who sleeps on a pipe (kernel/pipe.c): pipewrite, piperead and pipeclose around pi->lock, for any number of
  * readers and writers.  Writers never sleep with room; readers never sleep with data, provided that no writer
  * leaves through the killed return having written since its last wakeup.  That proviso is needed, and exact: the
  * first such return leaves a reader asleep with data if and only if one is asleep.
  */
module PipeWait {
  import opened Monitor
  import P = Pipe

  /** The channels &pi->nread and &pi->nwrite. */
  const NREAD: nat := 0
  const NWRITE: nat := 1

  datatype Ends = Ends(nread: nat, nwrite: nat, readopen: bool, writeopen: bool)

  /** unsaid: bytes written since the last wakeup(&pi->nread). */
  datatype Label =
    | Idle
    | WriteWant(n: nat) | Writing(i: nat, n: nat, unsaid: bool)
    | TellFull(i: nat, n: nat) | WaitRoom(i: nat, n: nat) | TellData | Failed
    | ReadWant(n: nat) | Reading(n: nat) | WaitData(n: nat) | Copying(i: nat, n: nat) | TellRoom
    | CloseWant(w: bool) | Closing(w: bool) | TellClosed(w: bool)
    | Out

  predicate Full(s: Ends) { P.Full(s.nread, s.nwrite) }

  predicate Empty(s: Ends) { s.nread == s.nwrite }

  /** The ring never holds more than PIPESIZE bytes. */
  predicate InRing(s: Ends) {
    s.nread < P.WRAP && s.nwrite < P.WRAP && (s.nwrite - s.nread) % P.WRAP <= P.PIPESIZE
  }

  lemma Fill(nwrite: nat, nread: nat)
    requires nwrite < P.WRAP && nread < P.WRAP
    ensures (nwrite - nread) % P.WRAP == if nwrite >= nread then nwrite - nread else nwrite - nread + P.WRAP
  {}

  /** A byte put in a ring with room can be seen there. */
  lemma PutInRing(s: Ends)
    requires InRing(s) && !Full(s)
    ensures var t := s.(nwrite := (s.nwrite + 1) % P.WRAP); InRing(t) && !Empty(t)
  {
    var next := (s.nwrite + 1) % P.WRAP;
    Fill(s.nwrite, s.nread);
    Fill(next, s.nread);
  }

  lemma TakeFromRing(s: Ends)
    requires InRing(s) && !Empty(s)
    ensures InRing(s.(nread := (s.nread + 1) % P.WRAP))
  {
    var next := (s.nread + 1) % P.WRAP;
    Fill(s.nwrite, s.nread);
    Fill(s.nwrite, next);
  }

  function Code(l: Label): (i: Instr<Label>) {
    match l
    case WriteWant(n) => Acquire(Writing(0, n, false))
    case TellFull(i, n) => Wake(NREAD, WaitRoom(i, n))
    case WaitRoom(i, n) => Sleep(NWRITE, Writing(i, n, false))
    case TellData => Wake(NREAD, Out)
    case Failed => Release(Idle)
    case ReadWant(n) => Acquire(Reading(n))
    case WaitData(n) => Sleep(NREAD, Reading(n))
    case TellRoom => Wake(NWRITE, Out)
    case CloseWant(w) => Acquire(Closing(w))
    case TellClosed(w) => Wake(if w then NREAD else NWRITE, Out)
    case Out => Release(Idle)
    case _ => Act
  }

  /** One action; with `clean`, killed(pr) is not seen by a writer that owes its readers a wakeup. */
  predicate Does(clean: bool, l: Label, s: Ends, l': Label, s': Ends) {
    match l
    case Idle => s' == s && (l'.WriteWant? || l'.ReadWant? || l'.CloseWant?)
    case Writing(i, n, unsaid) =>
      if i >= n then s' == s && l' == TellData
      else
        || (s' == s && l' == Failed && (!s.readopen || !(clean && unsaid)))
        || (s.readopen && s' == s && Full(s) && l' == TellFull(i, n))
        || (s.readopen && s' == s && !Full(s) && l' == TellData)
        || (s.readopen && !Full(s) && s' == s.(nwrite := (s.nwrite + 1) % P.WRAP) && l' == Writing(i + 1, n, true))
    case Reading(n) =>
      if Empty(s) && s.writeopen then s' == s && (l' == Out || l' == WaitData(n)) else s' == s && l' == Copying(0, n)
    case Copying(i, n) =>
      || (s' == s && l' == TellRoom)
      || (i < n && !Empty(s) && s' == s.(nread := (s.nread + 1) % P.WRAP) && l' == Copying(i + 1, n))
    case Closing(w) => s' == (if w then s.(writeopen := false) else s.(readopen := false)) && l' == TellClosed(w)
    case _ => false
  }

  /** What a sleeper on each channel waits for. */
  predicate Ready(clean: bool, chan: nat, s: Ends) {
    || (chan == NWRITE && (!s.readopen || !Full(s)))
    || (clean && chan == NREAD && (!s.writeopen || !Empty(s)))
  }

  predicate Inside(l: Label) { !(l.Idle? || l.WriteWant? || l.ReadWant? || l.CloseWant?) }

  function Owes(clean: bool, l: Label): (r: set<nat>) {
    match l
    case Writing(_, _, unsaid) => if clean && unsaid then {NREAD} else {}
    case TellFull(_, _) => {NREAD}
    case TellData => {NREAD}
    case Copying(_, _) => {NWRITE}
    case TellRoom => {NWRITE}
    case TellClosed(w) => {if w then NREAD else NWRITE}
    case _ => {}
  }

  /** A writer about to sleep has found the ring full, a reader empty; a writer with unsaid bytes has an open read
      end and bytes in the ring. */
  predicate Sure(p: nat, l: Label, s: Ends) {
    match l
    case Writing(_, _, unsaid) => unsaid ==> s.readopen && !Empty(s)
    case TellFull(_, _) => Full(s) && s.readopen
    case WaitRoom(_, _) => Full(s) && s.readopen
    case WaitData(_) => Empty(s) && s.writeopen
    case _ => true
  }

  predicate Nothing(p: nat, l: Label, s: Ends) { true }

  function Pipes(clean: bool): (c: Client<Ends, Label>) {
    Client(Code, (p, l, s, l', s') => Does(clean, l, s, l', s'), (chan, s) => Ready(clean, chan, s), Inside,
           l => Owes(clean, l), InRing, Nothing, Sure)
  }

  lemma DoesInRing(clean: bool, l: Label, s: Ends, l': Label, s': Ends)
    requires InRing(s) && Does(clean, l, s, l', s')
    ensures InRing(s') && (l'.Writing? ==> !Empty(s'))
  {
    hide P.Full;
    match l
    case Writing(_, _, _) => if !Full(s) { PutInRing(s); }
    case Copying(_, _) => if !Empty(s) { TakeFromRing(s); }
    case _ =>
  }

  lemma PipeAct(clean: bool, p: nat, l: Label, s: Ends, l': Label, s': Ends)
    ensures ActOk(Pipes(clean), p, l, s, l', s')
  {
    hide P.Full, InRing;
    if InRing(s) && Does(clean, l, s, l', s') { DoesInRing(clean, l, s, l', s'); }
  }

  lemma PipeApart(clean: bool, p: nat, l: Label, s: Ends, l': Label, s': Ends, q: nat, m: Label)
    ensures ApartOk(Pipes(clean), p, l, s, l', s', q, m)
  { hide P.Full, InRing; }

  lemma PipesDisciplined(clean: bool)
    ensures Disciplined(Pipes(clean))
  {
    hide P.Full, InRing, Does;
    var c := Pipes(clean);
    forall l ensures LabelOk(c, l) {}
    forall p, l, s ensures NotesOk(c, p, l, s) {}
    forall p, l, s, l', s' ensures ActOk(c, p, l, s, l', s') { PipeAct(clean, p, l, s, l', s'); }
    forall p, l, s, l', s', q, m ensures ApartOk(c, p, l, s, l', s', q, m) { PipeApart(clean, p, l, s, l', s', q, m); }
  }

  /** With pi->lock free, a sleeping writer has no room and an open read end, in every state of every run. */
  lemma WritersNotForgotten(states: seq<State<Ends, Label>>, who: seq<nat>, k: nat, p: nat)
    requires Runs(Pipes(false), states, who) && k < |states| && p < |states[k].threads| && states[k].lock == NOBODY
    ensures states[k].threads[p].at.WaitRoom? && Dormant(states[k].threads[p].phase) ==>
        Full(states[k].shared) && states[k].shared.readopen
  {
    PipesDisciplined(false);
    NoLostWakeup(Pipes(false), states, who, k);
  }

  // ---------------------------------------------------------------- the killed return

  /** A reader asleep in piperead. */
  ghost predicate ReaderAsleep(s: State<Ends, Label>, q: nat) {
    q < |s.threads| && s.threads[q].at.WaitData? && Dormant(s.threads[q].phase)
  }

  /** A reader asleep with data in the pipe, and pi->lock free: nothing under way will wake it. */
  ghost predicate Stranded(s: State<Ends, Label>, q: nat) {
    s.lock == NOBODY && ReaderAsleep(s, q) && !Empty(s.shared)
  }

  /** Writer p sees killed(pr) and returns: release(&pi->lock). */
  function Bails(s: State<Ends, Label>, p: nat): (r: State<Ends, Label>)
    requires p < |s.threads|
  { Move(s, p, Thread(Idle, Running), NOBODY) }

  /** The two steps of the killed return are steps of the program. */
  lemma BailsIsReturn(s: State<Ends, Label>, p: nat)
    requires p < |s.threads| && s.threads[p].at.Writing? && s.threads[p].phase == Running
    requires s.threads[p].at.i < s.threads[p].at.n
    ensures var f := Move(s, p, Thread(Failed, Running), s.lock);
      Next(Pipes(false), s, p, f) && Next(Pipes(false), f, p, Bails(s, p))
  {
    var c, f := Pipes(false), Move(s, p, Thread(Failed, Running), s.lock);
    assert Acts(c, s, p, f);
    var g := Bails(s, p);
    assert Moves(c, f, p, g.threads[p], g.lock) && g == Move(f, p, g.threads[p], g.lock);
  }

  /** The step from s to t is a killed return, with bytes unannounced, past a sleeping reader. */
  ghost predicate Harmful(s: State<Ends, Label>, p: nat, t: State<Ends, Label>) {
    && p < |s.threads| && p < |t.threads| && t.threads[p].at.Failed?
    && s.threads[p].phase == Running && s.threads[p].at.Writing? && s.threads[p].at.unsaid
    && exists q :: ReaderAsleep(s, q)
  }

  /** A killed return that is not harmful keeps the invariant of clean runs. */
  lemma BailKeeps(s: State<Ends, Label>, p: nat, t: State<Ends, Label>)
    requires Inv(Pipes(true), s) && p < |s.threads| && Acts(Pipes(false), s, p, t) && !Acts(Pipes(true), s, p, t)
    requires !Harmful(s, p, t)
    ensures Inv(Pipes(true), t)
  {
    hide P.Full, InRing;
    var c := Pipes(true);
    assert ThreadOk(c, s.shared, s.lock, p, s.threads[p]);
    assert t == Move(s, p, Thread(Failed, Running), s.lock);
    forall q: nat | q < |s.threads| ensures ThreadOk(c, t.shared, t.lock, q, t.threads[q]) && Safe(c, t, q) {
      assert ThreadOk(c, s.shared, s.lock, q, s.threads[q]) && Safe(c, s, q);
      assert !ReaderAsleep(s, q);
    }
  }

  lemma UnharmedStep(s: State<Ends, Label>, p: nat, t: State<Ends, Label>)
    requires Inv(Pipes(true), s) && Next(Pipes(false), s, p, t) && !Harmful(s, p, t)
    ensures Inv(Pipes(true), t)
  {
    if p < |s.threads| && Acts(Pipes(false), s, p, t) && !Acts(Pipes(true), s, p, t) {
      BailKeeps(s, p, t);
    } else {
      assert Next(Pipes(true), s, p, t) by { hide Does; }
      hide Next, Inv;
      PipesDisciplined(true);
      StepKeeps(Pipes(true), s, p, t);
    }
  }

  /** The run has had no harmful killed return before its k-th state. */
  ghost predicate Unharmed(states: seq<State<Ends, Label>>, who: seq<nat>, k: nat)
    requires |states| == |who| + 1
  { k < |states| && forall j :: 0 <= j < k ==> !Harmful(states[j], who[j], states[j + 1]) }

  lemma {:induction false} UnharmedKeeps(states: seq<State<Ends, Label>>, who: seq<nat>, k: nat)
    requires Runs(Pipes(false), states, who) && Unharmed(states, who, k)
    ensures Inv(Pipes(true), states[k])
  {
    if k > 0 {
      UnharmedKeeps(states, who, k - 1);
      assert Next(Pipes(false), states[k - 1], who[k - 1], states[k]) && !Harmful(states[k - 1], who[k - 1], states[k]);
      hide Next, Harmful, Inv;
      UnharmedStep(states[k - 1], who[k - 1], states[k]);
    }
  }

  /** Nothing but a harmful killed return strands a reader: in every run without one, with pi->lock free, a sleeping
      reader has no data and an open write end. */
  lemma ReadersNotForgotten(states: seq<State<Ends, Label>>, who: seq<nat>, k: nat, q: nat)
    requires Runs(Pipes(false), states, who) && Unharmed(states, who, k) && states[k].lock == NOBODY
    ensures ReaderAsleep(states[k], q) ==> Empty(states[k].shared) && states[k].shared.writeopen
  {
    UnharmedKeeps(states, who, k);
    hide Runs, Unharmed, P.Full;
    if ReaderAsleep(states[k], q) { assert Safe(Pipes(true), states[k], q); }
  }

  /** And the first such return does: the killed return out of the write loop leaves a reader stranded if and only if
      the writer has bytes unannounced and some reader is asleep. */
  lemma KilledReturnStrands(states: seq<State<Ends, Label>>, who: seq<nat>, k: nat, p: nat)
    requires Runs(Pipes(false), states, who) && Unharmed(states, who, k) && p < |states[k].threads|
    requires states[k].threads[p].at.Writing? && states[k].threads[p].phase == Running
    ensures (exists q :: Stranded(Bails(states[k], p), q)) <==>
        states[k].threads[p].at.unsaid && exists q :: ReaderAsleep(states[k], q)
  {
    UnharmedKeeps(states, who, k);
    hide Runs, Unharmed, P.Full;
    var c, s := Pipes(true), states[k];
    assert ThreadOk(c, s.shared, s.lock, p, s.threads[p]);
    var g := Bails(s, p);
    if q :| Stranded(g, q) {
      assert q != p && ReaderAsleep(s, q);
      assert Safe(c, s, q);
    }
    if s.threads[p].at.unsaid && exists q :: ReaderAsleep(s, q) {
      var q :| ReaderAsleep(s, q);
      assert Stranded(g, q);
    }
  }

  /** A reader (process 0) and a writer (process 1). */
  function Two(s: Ends, lock: int, reader: Thread<Label>, writer: Thread<Label>): (r: State<Ends, Label>) {
    State(s, lock, [reader, writer])
  }

  const E0 := Ends(0, 0, true, true)
  const E1 := Ends(0, 1, true, true)

  function AsleepThen(lock: int, writer: Label, s: Ends): (r: State<Ends, Label>) {
    Two(s, lock, Thread(WaitData(1), Sleeping), Thread(writer, Running))
  }

  /** The reader finds the pipe empty and goes to sleep; then the writer stores a byte, is killed and returns. */
  function Story(): (r: seq<State<Ends, Label>>) {
    var w := Thread(Idle, Running);
    [Two(E0, NOBODY, Thread(Idle, Running), w),
     Two(E0, NOBODY, Thread(ReadWant(1), Running), w),
     Two(E0, 0, Thread(Reading(1), Running), w),
     Two(E0, 0, Thread(WaitData(1), Running), w),
     Two(E0, 0, Thread(WaitData(1), Nodding), w),
     Two(E0, NOBODY, Thread(WaitData(1), Dozing), w),
     Two(E0, NOBODY, Thread(WaitData(1), Falling), w),
     AsleepThen(NOBODY, Idle, E0),
     AsleepThen(NOBODY, WriteWant(2), E0),
     AsleepThen(1, Writing(0, 2, false), E0),
     AsleepThen(1, Writing(1, 2, true), E1),
     AsleepThen(1, Failed, E1),
     AsleepThen(NOBODY, Idle, E1)]
  }

  lemma StoryReader(k: nat)
    requires k < 7
    ensures Next(Pipes(false), Story()[k], 0, Story()[k + 1])
  {
    var c, s, t := Pipes(false), Story()[k], Story()[k + 1];
    if k == 0 || k == 2 {
      assert Acts(c, s, 0, t);
    } else {
      assert Moves(c, s, 0, t.threads[0], t.lock) && t == Move(s, 0, t.threads[0], t.lock);
    }
  }

  lemma StoryWriter(k: nat)
    requires 7 <= k < 12
    ensures Next(Pipes(false), Story()[k], 1, Story()[k + 1])
  {
    var c, s, t := Pipes(false), Story()[k], Story()[k + 1];
    if k == 7 || k == 9 || k == 10 {
      assert Acts(c, s, 1, t);
    } else {
      assert Moves(c, s, 1, t.threads[1], t.lock) && t == Move(s, 1, t.threads[1], t.lock);
    }
  }

  /** Without the proviso a reader can be left asleep with data in the pipe and pi->lock free. */
  lemma ForgottenReader() returns (who: seq<nat>)
    ensures Runs(Pipes(false), Story(), who)
    ensures var s := Story()[12]; s.lock == NOBODY && s.threads[0] == Thread(WaitData(1), Sleeping) && !Empty(s.shared)
  {
    hide Next;
    who := [0, 0, 0, 0, 0, 0, 0, 1, 1, 1, 1, 1];
    forall k | 0 <= k < 12 ensures Next(Pipes(false), Story()[k], who[k], Story()[k + 1]) {
      if k < 7 { StoryReader(k); } else { StoryWriter(k); }
    }
  }
}

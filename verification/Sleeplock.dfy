/**
  * Sleep-locks (kernel/sleeplock.c): acquiresleep, releasesleep and holdingsleep over the inner spinlock,
  * run by any number of processes that release only what they hold.
  */
module Sleeplock {
  import opened Monitor

  const LK: nat := 0

  /** lk->locked and lk->pid. */
  datatype Lock = Lock(locked: bool, pid: nat)

  datatype Label =
    | Idle
    | WantIn | Test | Wait | Take | TakeDone   // acquiresleep
    | Owner                                    // returned from acquiresleep
    | WantOut | Drop | Tell | DropDone         // releasesleep
    | Ask(own: bool) | Look(own: bool) | AskDone(own: bool, said: bool)   // holdingsleep, called by an owner or not

  /** The pid of process p: pids are positive and distinct. */
  function Pid(p: nat): (n: nat) { p + 1 }

  /** The process has returned from acquiresleep and not yet reached releasesleep's update. */
  predicate Holding(l: Label) {
    l == TakeDone || l == Owner || l == WantOut || l == Drop || ((l.Ask? || l.Look? || l.AskDone?) && l.own)
  }

  function Code(l: Label): (i: Instr<Label>) {
    match l
    case WantIn => Acquire(Test)
    case Wait => Sleep(LK, Test)
    case TakeDone => Release(Owner)
    case WantOut => Acquire(Drop)
    case Tell => Wake(LK, DropDone)
    case DropDone => Release(Idle)
    case Ask(own) => Acquire(Look(own))
    case AskDone(own, _) => Release(if own then Owner else Idle)
    case _ => Act
  }

  /** The client's own actions. */
  predicate Does(p: nat, l: Label, s: Lock, l': Label, s': Lock) {
    match l
    case Idle => s' == s && (l' == WantIn || l' == Ask(false))
    case Owner => s' == s && (l' == WantOut || l' == Ask(true))
    case Test => s' == s && l' == (if s.locked then Wait else Take)
    case Take => s' == Lock(true, Pid(p)) && l' == TakeDone
    case Drop => s' == Lock(false, 0) && l' == Tell
    case Look(own) => s' == s && l' == AskDone(own, s.locked && s.pid == Pid(p))
    case _ => false
  }

  predicate Free(chan: nat, s: Lock) { chan == LK && !s.locked }

  predicate Inside(l: Label) { !(l == Idle || l == WantIn || l == Owner || l == WantOut || l.Ask?) }

  function Owes(l: Label): (r: set<nat>) { if l == Tell then {LK} else {} }

  /** The lock's pid is p's exactly when p holds it, and holdingsleep says so. */
  predicate Mine(p: nat, l: Label, s: Lock) {
    (Holding(l) <==> s.locked && s.pid == Pid(p)) && (l.AskDone? ==> l.said == l.own)
  }

  predicate Sure(p: nat, l: Label, s: Lock) { (l == Wait ==> s.locked) && (l == Take ==> !s.locked) }

  predicate Any(s: Lock) { true }

  function Sleeplocks(): (c: Client<Lock, Label>) { Client(Code, Does, Free, Inside, Owes, Any, Mine, Sure) }

  lemma LocksDisciplined()
    ensures Disciplined(Sleeplocks())
  {
    var c := Sleeplocks();
    forall l ensures LabelOk(c, l) {}
    forall p, l, s ensures NotesOk(c, p, l, s) {}
    forall p, l, s, l', s' ensures ActOk(c, p, l, s, l', s') {}
    forall p, l, s, l', s', q, m ensures ApartOk(c, p, l, s, l', s', q, m) {}
  }

  /**
    * In every state of every run: at most one process holds the lock; with the inner lock free and locked 0,
    * no process sleeps on it; holdingsleep is true exactly for the holder.
    */
  lemma SleeplockSafe(states: seq<State<Lock, Label>>, who: seq<nat>, k: nat, p: nat, q: nat)
    requires Runs(Sleeplocks(), states, who) && k < |states| && p < |states[k].threads| && q < |states[k].threads|
    ensures Holding(states[k].threads[p].at) && Holding(states[k].threads[q].at) ==> p == q
    ensures states[k].lock == NOBODY && !states[k].shared.locked && Code(states[k].threads[p].at).Sleep? ==>
      !Dormant(states[k].threads[p].phase)
    ensures states[k].threads[p].at.AskDone? ==> states[k].threads[p].at.said == Holding(states[k].threads[p].at)
  {
    var c := Sleeplocks();
    LocksDisciplined();
    NoLostWakeup(c, states, who, k);
    assert c.local(p, states[k].threads[p].at, states[k].shared);
    assert c.local(q, states[k].threads[q].at, states[k].shared);
  }
}

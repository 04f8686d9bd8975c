/**
  * sleep and wakeup (kernel/proc.c) around one condition lock, for any number of processes running any
  * client code.  Every atomic action of the two calls is a step: sleep takes p->lock, releases the condition
  * lock, sets SLEEPING and switches away, in that order; wakeup looks at one slot at a time, under its lock.
  * The main result: a client that owes a wakeup to every channel it makes ready, and pays before it releases
  * the lock or sleeps, never leaves a process asleep on a ready channel while the lock is free.
  */
module Monitor {

  const NOBODY: int := -1

  /** What the code at a label does; Act is one of the client's own atomic actions. */
  datatype Instr<L> =
    | Acquire(next: L)
    | Release(next: L)
    | Sleep(chan: nat, next: L)
    | Wake(chan: nat, next: L)
    | Act

  /** Progress inside a Sleep or a Wake. */
  datatype Phase =
    | Running
    | Waking(j: nat)   // wakeup, about to look at slot j
    | Nodding          // sleep, p->lock taken, condition lock still held
    | Dozing           // sleep, condition lock released
    | Falling          // sleep, state SLEEPING, p->lock held until the scheduler has the stack
    | Sleeping         // off the processor
    | Woken            // RUNNABLE
    | Back             // running again, about to retake the condition lock

  datatype Thread<L> = Thread(at: L, phase: Phase)

  datatype State<S, L> = State(shared: S, lock: int, threads: seq<Thread<L>>)

  /**
    * Client code and its annotations.  inside: labels reached with the lock held.  owes: channels that the
    * holder at a label has still to wake.  local: what a process relies on at a label whoever else runs.
    * known: what the holder knows there besides.
    */
  datatype Client<!S, !L> = Client(
    code: L -> Instr<L>,
    act: (nat, L, S, L, S) -> bool,
    ready: (nat, S) -> bool,
    inside: L -> bool,
    owes: L -> set<nat>,
    inv: S -> bool,
    local: (nat, L, S) -> bool,
    known: (nat, L, S) -> bool)

  /** p->lock is held by sleep, from before the condition lock is released until the process is off its stack. */
  predicate OwnLock(phase: Phase) { phase == Nodding || phase == Dozing || phase == Falling }

  // ---------------------------------------------------------------- steps

  /** One turn of wakeup(chan). */
  function Visited<S, L>(c: Client<S, L>, t: Thread<L>, chan: nat): (r: Thread<L>) {
    if t.phase == Sleeping && c.code(t.at).Sleep? && c.code(t.at).chan == chan then t.(phase := Woken) else t
  }

  function Move<S, L>(s: State<S, L>, p: nat, t: Thread<L>, lock: int): (r: State<S, L>)
    requires p < |s.threads|
  { s.(threads := s.threads[p := t], lock := lock) }

  /** A step of process p that does not touch the shared state or another process. */
  ghost predicate Moves<S, L>(c: Client<S, L>, s: State<S, L>, p: nat, t: Thread<L>, lock: int)
    requires p < |s.threads|
  {
    var at, phase := s.threads[p].at, s.threads[p].phase;
    var op := c.code(at);
    match phase
    case Running =>
      || (op.Acquire? && s.lock == NOBODY && t == Thread(op.next, Running) && lock == p)
      || (op.Release? && t == Thread(op.next, Running) && lock == NOBODY)
      || (op.Sleep? && t == Thread(at, Nodding) && lock == s.lock)
      || (op.Wake? && t == Thread(at, Waking(0)) && lock == s.lock)
    case Waking(j) => op.Wake? && t == Thread(op.next, Running) && j == |s.threads| && lock == s.lock
    case Nodding => t == Thread(at, Dozing) && lock == NOBODY
    case Dozing => t == Thread(at, Falling) && lock == s.lock
    case Falling => t == Thread(at, Sleeping) && lock == s.lock
    case Sleeping => false
    case Woken => t == Thread(at, Back) && lock == s.lock
    case Back => op.Sleep? && s.lock == NOBODY && t == Thread(op.next, Running) && lock == p
  }

  /** wakeup skips the caller and waits for every other slot's lock. */
  ghost predicate Visits<S, L>(c: Client<S, L>, s: State<S, L>, p: nat, s': State<S, L>)
    requires p < |s.threads|
  {
    var me := s.threads[p];
    && me.phase.Waking? && c.code(me.at).Wake? && me.phase.j < |s.threads|
    && var j := me.phase.j;
    && (j == p || !OwnLock(s.threads[j].phase))
    && s'.shared == s.shared && s'.lock == s.lock
    && var ts := if j == p then s.threads else s.threads[j := Visited(c, s.threads[j], c.code(me.at).chan)];
    s'.threads == ts[p := me.(phase := Waking(j + 1))]
  }

  ghost predicate Acts<S, L>(c: Client<S, L>, s: State<S, L>, p: nat, s': State<S, L>)
    requires p < |s.threads|
  {
    && s.threads[p].phase == Running && c.code(s.threads[p].at).Act?
    && |s'.threads| == |s.threads|
    && c.act(p, s.threads[p].at, s.shared, s'.threads[p].at, s'.shared)
    && s' == State(s'.shared, s.lock, s.threads[p := Thread(s'.threads[p].at, Running)])
  }

  /** kkill makes a sleeping process runnable whatever it sleeps on. */
  ghost predicate Kills<S, L>(s: State<S, L>, t: nat, s': State<S, L>) {
    && t < |s.threads| && s.threads[t].phase == Sleeping
    && s' == s.(threads := s.threads[t := s.threads[t].(phase := Woken)])
  }

  ghost predicate Next<S, L>(c: Client<S, L>, s: State<S, L>, p: nat, s': State<S, L>) {
    || Kills(s, p, s')
    || (p < |s.threads| && (
        || (p < |s'.threads| && Moves(c, s, p, s'.threads[p], s'.lock) && s' == Move(s, p, s'.threads[p], s'.lock))
        || Visits(c, s, p, s')
        || Acts(c, s, p, s')))
  }

  // ---------------------------------------------------------------- the discipline

  /** Labels outside Act: the lock is held where `inside` says, debts are paid, and annotations follow. */
  ghost predicate LabelOk<S(!new), L>(c: Client<S, L>, l: L) {
    match c.code(l)
    case Acquire(n) => !c.inside(l) && c.inside(n) && c.owes(n) == {}
    case Release(n) => c.inside(l) && !c.inside(n) && c.owes(l) == {}
    case Sleep(chan, n) => c.inside(l) && c.inside(n) && c.owes(l) == {} && c.owes(n) == {}
    case Wake(chan, n) => c.inside(l) && c.inside(n) && c.owes(l) <= c.owes(n) + {chan}
    case Act => true
  }

  ghost predicate NotesOk<S(!new), L>(c: Client<S, L>, p: nat, l: L, s: S) {
    c.inv(s) && c.local(p, l, s) ==>
      match c.code(l)
      case Acquire(n) => c.local(p, n, s) && c.known(p, n, s)
      case Release(n) => c.known(p, l, s) ==> c.local(p, n, s)
      case Sleep(chan, n) => (c.known(p, l, s) ==> !c.ready(chan, s)) && c.local(p, n, s) && c.known(p, n, s)
      case Wake(chan, n) => c.known(p, l, s) ==> c.local(p, n, s) && c.known(p, n, s)
      case Act => true
  }

  /** An action keeps the invariant and the actor's notes, and owes a wakeup to each channel it makes ready. */
  ghost predicate ActOk<S(!new), L(!new)>(c: Client<S, L>, p: nat, l: L, s: S, l': L, s': S) {
    c.code(l).Act? && c.act(p, l, s, l', s') && c.inv(s) && c.local(p, l, s) && (c.inside(l) ==> c.known(p, l, s)) ==>
      && c.inv(s') && c.local(p, l', s') && (c.inside(l') <==> c.inside(l)) && (c.inside(l') ==> c.known(p, l', s'))
      && c.owes(l) <= c.owes(l')
      && (forall chan :: c.ready(chan, s') && !c.ready(chan, s) ==> c.inside(l) && chan in c.owes(l'))
  }

  /** An action of p leaves alone what q relies on at its label m. */
  ghost predicate ApartOk<S(!new), L(!new)>(c: Client<S, L>, p: nat, l: L, s: S, l': L, s': S, q: nat, m: L) {
    && c.code(l).Act? && c.act(p, l, s, l', s') && c.inv(s) && p != q && c.local(p, l, s)
    && (c.inside(l) ==> c.known(p, l, s)) && c.local(q, m, s) ==>
      && c.local(q, m, s')
      && (c.inside(m) && !c.inside(l) && c.known(q, m, s) ==> c.known(q, m, s'))
  }

  ghost predicate Disciplined<S(!new), L(!new)>(c: Client<S, L>) {
    && (forall l :: LabelOk(c, l))
    && (forall p, l, s :: NotesOk(c, p, l, s))
    && (forall p, l, s, l', s' :: ActOk(c, p, l, s, l', s'))
    && (forall p, l, s, l', s', q, m :: ApartOk(c, p, l, s, l', s', q, m))
  }

  // ---------------------------------------------------------------- the invariant

  predicate Holds<S, L>(c: Client<S, L>, t: Thread<L>) {
    t.phase == Nodding || ((t.phase == Running || t.phase.Waking?) && c.inside(t.at))
  }

  predicate Dormant(phase: Phase) { phase == Dozing || phase == Falling || phase == Sleeping }

  ghost predicate ThreadOk<S, L>(c: Client<S, L>, s: S, lock: int, p: nat, t: Thread<L>) {
    && (lock == p <==> Holds(c, t))
    && c.local(p, t.at, s)
    && (Holds(c, t) ==> c.known(p, t.at, s))
    && (t.phase.Waking? ==> c.code(t.at).Wake?)
    && (t.phase != Running && !t.phase.Waking? ==> c.code(t.at).Sleep?)
  }

  /** The holder h will yet wake sleeper p of channel chan. */
  ghost predicate Owed<S, L>(c: Client<S, L>, h: Thread<L>, chan: nat, p: nat) {
    && chan in c.owes(h.at) && h.phase != Nodding
    && (h.phase.Waking? && c.code(h.at).Wake? && c.code(h.at).chan == chan ==> h.phase.j <= p)
  }

  /** A sleeper whose channel is ready is about to be woken by the holder of the lock. */
  ghost predicate Safe<S, L>(c: Client<S, L>, s: State<S, L>, p: nat)
    requires p < |s.threads|
  {
    var t := s.threads[p];
    Dormant(t.phase) && c.code(t.at).Sleep? && c.ready(c.code(t.at).chan, s.shared) ==>
      0 <= s.lock < |s.threads| && Owed(c, s.threads[s.lock], c.code(t.at).chan, p)
  }

  ghost predicate Inv<S, L>(c: Client<S, L>, s: State<S, L>) {
    && c.inv(s.shared)
    && (s.lock == NOBODY || 0 <= s.lock < |s.threads|)
    && (forall p: nat :: p < |s.threads| ==> ThreadOk(c, s.shared, s.lock, p, s.threads[p]))
    && (forall p: nat :: p < |s.threads| ==> Safe(c, s, p))
  }

  lemma MovesKeep<S(!new), L(!new)>(c: Client<S, L>, s: State<S, L>, p: nat, t: Thread<L>, lock: int)
    requires Disciplined(c) && Inv(c, s) && p < |s.threads| && Moves(c, s, p, t, lock)
    ensures Inv(c, Move(s, p, t, lock))
  {
    assert LabelOk(c, s.threads[p].at) && NotesOk(c, p, s.threads[p].at, s.shared);
    assert ThreadOk(c, s.shared, s.lock, p, s.threads[p]);
    var s' := Move(s, p, t, lock);
    forall q: nat | q < |s.threads| ensures ThreadOk(c, s'.shared, s'.lock, q, s'.threads[q]) && Safe(c, s', q) {
      assert ThreadOk(c, s.shared, s.lock, q, s.threads[q]) && Safe(c, s, q);
    }
  }

  lemma VisitsKeep<S(!new), L(!new)>(c: Client<S, L>, s: State<S, L>, p: nat, s': State<S, L>)
    requires Disciplined(c) && Inv(c, s) && p < |s.threads| && Visits(c, s, p, s')
    ensures Inv(c, s')
  {
    hide LabelOk, NotesOk, ActOk, ApartOk;
    assert ThreadOk(c, s.shared, s.lock, p, s.threads[p]);
    forall q: nat | q < |s.threads| ensures ThreadOk(c, s'.shared, s'.lock, q, s'.threads[q]) && Safe(c, s', q) {
      assert ThreadOk(c, s.shared, s.lock, q, s.threads[q]) && Safe(c, s, q);
    }
  }

  lemma ActsKeep<S(!new), L(!new)>(c: Client<S, L>, s: State<S, L>, p: nat, s': State<S, L>)
    requires Disciplined(c) && Inv(c, s) && p < |s.threads| && Acts(c, s, p, s')
    ensures Inv(c, s')
  {
    hide NotesOk;
    var l, l' := s.threads[p].at, s'.threads[p].at;
    assert ThreadOk(c, s.shared, s.lock, p, s.threads[p]);
    assert ActOk(c, p, l, s.shared, l', s'.shared);
    forall q: nat | q < |s.threads| ensures ThreadOk(c, s'.shared, s'.lock, q, s'.threads[q]) && Safe(c, s', q) {
      assert ThreadOk(c, s.shared, s.lock, q, s.threads[q]) && Safe(c, s, q);
      assert LabelOk(c, s.threads[q].at);
      assert q != p ==> ApartOk(c, p, l, s.shared, l', s'.shared, q, s.threads[q].at);
    }
  }

  lemma KillsKeep<S(!new), L(!new)>(c: Client<S, L>, s: State<S, L>, t: nat, s': State<S, L>)
    requires Inv(c, s) && Kills(s, t, s')
    ensures Inv(c, s')
  {
    forall q: nat | q < |s.threads| ensures ThreadOk(c, s'.shared, s'.lock, q, s'.threads[q]) && Safe(c, s', q) {
      assert ThreadOk(c, s.shared, s.lock, q, s.threads[q]) && Safe(c, s, q);
    }
  }

  lemma StepKeeps<S(!new), L(!new)>(c: Client<S, L>, s: State<S, L>, p: nat, s': State<S, L>)
    requires Disciplined(c) && Inv(c, s) && Next(c, s, p, s')
    ensures Inv(c, s')
  {
    hide Disciplined, Inv, Kills, Moves, Visits, Acts, Move;
    if Kills(s, p, s') {
      KillsKeep(c, s, p, s');
    } else if Visits(c, s, p, s') {
      VisitsKeep(c, s, p, s');
    } else if Acts(c, s, p, s') {
      ActsKeep(c, s, p, s');
    } else {
      MovesKeep(c, s, p, s'.threads[p], s'.lock);
    }
  }

  // ---------------------------------------------------------------- runs

  ghost predicate Start<S, L>(c: Client<S, L>, s: State<S, L>) {
    && s.lock == NOBODY && c.inv(s.shared)
    && forall p: nat :: p < |s.threads| ==>
         s.threads[p].phase == Running && !c.inside(s.threads[p].at) && c.local(p, s.threads[p].at, s.shared)
  }

  ghost predicate Runs<S, L>(c: Client<S, L>, states: seq<State<S, L>>, who: seq<nat>) {
    && |states| == |who| + 1 && Start(c, states[0])
    && forall k :: 0 <= k < |who| ==> Next(c, states[k], who[k], states[k + 1])
  }

  lemma {:induction false} RunKeeps<S(!new), L(!new)>(c: Client<S, L>, states: seq<State<S, L>>, who: seq<nat>, k: nat)
    requires Disciplined(c) && Runs(c, states, who) && k < |states|
    ensures Inv(c, states[k])
    decreases k
  {
    hide Disciplined, Next;
    if k > 0 {
      RunKeeps(c, states, who, k - 1);
      assert Next(c, states[k - 1], who[k - 1], states[k]);
      StepKeeps(c, states[k - 1], who[k - 1], states[k]);
    }
  }

  /** While the lock is free, no process sleeps on a ready channel. */
  ghost predicate NoneForgotten<S, L>(c: Client<S, L>, s: State<S, L>) {
    s.lock == NOBODY ==>
      forall p: nat :: p < |s.threads| && Dormant(s.threads[p].phase) && c.code(s.threads[p].at).Sleep? ==>
        !c.ready(c.code(s.threads[p].at).chan, s.shared)
  }

  /** No lost wakeups, in every state of every run of a disciplined client; and the client's notes hold. */
  lemma NoLostWakeup<S(!new), L(!new)>(c: Client<S, L>, states: seq<State<S, L>>, who: seq<nat>, k: nat)
    requires Disciplined(c) && Runs(c, states, who) && k < |states|
    ensures NoneForgotten(c, states[k]) && c.inv(states[k].shared)
    ensures forall p: nat :: p < |states[k].threads| ==> c.local(p, states[k].threads[p].at, states[k].shared)
  {
    hide Disciplined, Runs;
    RunKeeps(c, states, who, k);
    var s := states[k];
    forall p: nat | p < |s.threads| ensures c.local(p, s.threads[p].at, s.shared) {
      assert ThreadOk(c, s.shared, s.lock, p, s.threads[p]);
    }
    forall p: nat | s.lock == NOBODY && p < |s.threads| && Dormant(s.threads[p].phase) && c.code(s.threads[p].at).Sleep?
      ensures !c.ready(c.code(s.threads[p].at).chan, s.shared)
    {
      assert Safe(c, s, p);
    }
  }
}

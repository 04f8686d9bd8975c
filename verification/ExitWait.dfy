/**
  * The process table of kernel/proc.c as a machine whose steps are the atomic actions of
  * kfork, kexit, kwait, sleep, wakeup, kkill and the scheduler, interleaved in any order on any
  * number of processors.  Spinlock acquire and release are atomic; a switch hands p->lock between
  * a process and the scheduler.
  */
module ExitWait {

  const NPROC: int := 64
  /** The null pointer; slot t of the table is the address t, every other address is >= NPROC. */
  const NULL: int := -1
  /** initproc: userinit takes the first slot. */
  const INIT: int := 0

  datatype ProcState = UNUSED | USED | SLEEPING | RUNNABLE | RUNNING | ZOMBIE

  datatype Lock = Free | Own(holder: int) | Sched

  /** Where a process is in the calls modelled. */
  datatype Pc =
    | Off                          // no kernel thread
    | Fresh                        // has never run: forkret comes next
    | User                         // outside these calls, holding no lock
    | Yielding                     // yield
    | Forking(np: int)             // kfork, holding np->lock
    | Linking(np: int)             // kfork, wanting wait_lock
    | Linked(np: int)              // kfork, holding wait_lock
    | Starting(np: int)            // kfork, the parent link made
    | Exiting                      // kexit, wanting wait_lock
    | Reparent(i: int)             // reparent, about to look at slot i
    | Adopting(i: int, j: int)     // reparent, in wakeup(initproc) at slot j
    | Telling(chan: int, j: int)   // kexit, in wakeup(p->parent) at slot j
    | Dying                        // kexit, p->lock taken
    | Undead                       // kexit, state set to ZOMBIE
    | Gone                         // kexit, wait_lock released: only the switch is left
    | Waiting                      // kwait, wanting wait_lock
    | Scan(i: int, kids: bool)     // kwait, about to look at slot i
    | Look(i: int)                 // kwait, holding the lock of child i
    | Leaving                      // kwait, about to release wait_lock and return
    | Drowsy                       // kwait, about to call sleep
    | Resting                      // sleep, p->lock taken
    | Nodding                      // sleep, wait_lock released
    | Asleep(wait: bool)           // sleep, in sched; wait: called from kwait

  /** maker is the process whose kfork is building a USED slot. */
  datatype Proc = Proc(state: ProcState, pid: nat, parent: int, chan: int, killed: bool,
                       lock: Lock, onCpu: bool, pc: Pc, maker: int)

  /** reaped lists the pids kwait has collected; slotOf says where each pid given out is now. */
  datatype State = State(procs: seq<Proc>, waitLock: int, nextpid: nat,
                         reaped: seq<nat>, slotOf: map<nat, int>)

  /** What freeproc leaves, its lock released. */
  const FREED := Proc(UNUSED, 0, NULL, NULL, false, Free, false, Off, NULL)

  datatype ForkStep = Alloc(np: int) | AllocFail | Copied | LinkLock | Link | Start
  datatype AdoptStep = ExitCall | ExitLock | ReparentNext | AdoptWake | AdoptDone
  datatype DieStep = Tell | TellWake | OwnLock | SetZombie | ExitRelease
  datatype ScanStep = WaitCall | WaitLock | Skip | ScanEnd | Leave
  datatype ChildStep = LookAt | Alive | CopyFails | Reap
  datatype SleepStep = SleepLock | SleepRelease | Doze | SleepElsewhere(c: int) | Yield
  datatype RunStep =
    | WakeElsewhere(c: int, t: int) | Kill(t: int) | KillSelf
    | SwitchOut | SchedRelease | SwitchIn | Resume

  datatype Event =
    | Forks(f: ForkStep) | Adopts(a: AdoptStep) | Dies(d: DieStep)
    | Scans(w: ScanStep) | Looks(c: ChildStep) | Sleeps(s: SleepStep) | Runs(r: RunStep)

  predicate Slot(t: int) { 0 <= t < NPROC }

  /** The slot that a process at pc acts on next, if it acts on one. */
  function Target(pc: Pc): (t: int) {
    match pc
    case Forking(np) => np
    case Linking(np) => np
    case Linked(np) => np
    case Starting(np) => np
    case Reparent(i) => i
    case Adopting(_, j) => j
    case Telling(_, j) => j
    case Scan(i, _) => i
    case Look(i) => i
    case _ => NULL
  }

  /** What a step of process q can read: q's record p, the record o of the slot u it acts on, and who holds
      wait_lock. */
  datatype View = View(q: int, p: Proc, u: int, o: Proc, waitLock: int, nextpid: nat)

  /** The new record of the process that steps, the new record of the slot it acts on, and the new holder of
      wait_lock. */
  datatype Effect = Effect(self: Proc, other: Proc, waitLock: int)

  /** A step that only moves q on. */
  function Go(v: View, pc: Pc): (f: Effect) { Effect(v.p.(pc := pc), v.o, v.waitLock) }

  /** One turn of wakeup's loop. */
  function Woken(o: Proc, chan: int): (r: Proc) {
    if o.state == SLEEPING && o.chan == chan then o.(state := RUNNABLE) else o
  }

  /** wakeup looks at every slot but the caller's under that slot's lock. */
  predicate CanVisit(v: View) { Slot(v.u) && (v.u == v.q || v.o.lock == Free) }

  predicate CanFork(e: ForkStep, v: View) {
    match e
    case Alloc(np) => v.p.pc == User && v.u == np && Slot(np) && v.o.lock == Free && v.o.state == UNUSED
    case AllocFail => v.p.pc.Forking?
    case Copied => v.p.pc.Forking?
    case LinkLock => v.p.pc.Linking? && v.waitLock == NULL
    case Link => v.p.pc.Linked?
    case Start => v.p.pc.Starting? && v.o.lock == Free
  }

  function DoFork(e: ForkStep, v: View): (f: Effect) {
    match e
    case Alloc(_) =>
      Go(v, Forking(v.u)).(other := v.o.(state := USED, pid := v.nextpid, lock := Own(v.q), pc := Fresh, maker := v.q))
    case AllocFail => Go(v, User).(other := FREED)
    case Copied => Go(v, Linking(v.u)).(other := v.o.(lock := Free))
    case LinkLock => Go(v, Linked(v.u)).(waitLock := v.q)
    case Link => Go(v, Starting(v.u)).(other := v.o.(parent := v.q), waitLock := NULL)
    case Start => Go(v, User).(other := v.o.(state := RUNNABLE, maker := NULL))
  }

  predicate CanAdopt(e: AdoptStep, v: View) {
    match e
    case ExitCall => v.p.pc == User && v.q != INIT
    case ExitLock => v.p.pc == Exiting && v.waitLock == NULL
    case ReparentNext => v.p.pc.Reparent? && Slot(v.u)
    case AdoptWake => v.p.pc.Adopting? && CanVisit(v)
    case AdoptDone => v.p.pc.Adopting? && v.u == NPROC
  }

  function DoAdopt(e: AdoptStep, v: View): (f: Effect) {
    match e
    case ExitCall => Go(v, Exiting)
    case ExitLock => Go(v, Reparent(0)).(waitLock := v.q)
    case ReparentNext =>
      if v.o.parent == v.q then Go(v, Adopting(v.u, 0)).(other := v.o.(parent := INIT)) else Go(v, Reparent(v.u + 1))
    case AdoptWake => Go(v, Adopting(if v.p.pc.Adopting? then v.p.pc.i else 0, v.u + 1)).(other := Woken(v.o, INIT))
    case AdoptDone => Go(v, Reparent(if v.p.pc.Adopting? then v.p.pc.i + 1 else 0))
  }

  predicate CanDie(e: DieStep, v: View) {
    match e
    case Tell => v.p.pc.Reparent? && v.u == NPROC
    case TellWake => v.p.pc.Telling? && CanVisit(v)
    case OwnLock => v.p.pc.Telling? && v.u == NPROC && v.p.lock == Free
    case SetZombie => v.p.pc == Dying
    case ExitRelease => v.p.pc == Undead
  }

  function DoDie(e: DieStep, v: View): (f: Effect) {
    match e
    case Tell => Go(v, Telling(v.p.parent, 0))
    case TellWake =>
      var chan := if v.p.pc.Telling? then v.p.pc.chan else NULL;
      Go(v, Telling(chan, v.u + 1)).(other := Woken(v.o, chan))
    case OwnLock => Effect(v.p.(pc := Dying, lock := Own(v.q)), v.o, v.waitLock)
    case SetZombie => Effect(v.p.(pc := Undead, state := ZOMBIE), v.o, v.waitLock)
    case ExitRelease => Go(v, Gone).(waitLock := NULL)
  }

  predicate CanScan(e: ScanStep, v: View) {
    match e
    case WaitCall => v.p.pc == User
    case WaitLock => v.p.pc == Waiting && v.waitLock == NULL
    case Skip => v.p.pc.Scan? && Slot(v.u) && v.o.parent != v.q
    case ScanEnd => v.p.pc.Scan? && v.u == NPROC
    case Leave => v.p.pc == Leaving
  }

  function DoScan(e: ScanStep, v: View): (f: Effect) {
    match e
    case WaitCall => Go(v, Waiting)
    case WaitLock => Go(v, Scan(0, false)).(waitLock := v.q)
    case Skip => Go(v, Scan(v.u + 1, v.p.pc.Scan? && v.p.pc.kids))
    case ScanEnd => Go(v, if v.p.pc == Scan(NPROC, true) && !v.p.killed then Drowsy else Leaving)
    case Leave => Go(v, User).(waitLock := NULL)
  }

  predicate CanChild(e: ChildStep, v: View) {
    match e
    case LookAt => v.p.pc.Scan? && Slot(v.u) && v.o.parent == v.q && v.o.lock == Free
    case Alive => v.p.pc.Look? && v.o.state != ZOMBIE
    case CopyFails => v.p.pc.Look? && v.o.state == ZOMBIE
    case Reap => v.p.pc.Look? && v.o.state == ZOMBIE
  }

  function DoChild(e: ChildStep, v: View): (f: Effect) {
    match e
    case LookAt => Go(v, Look(v.u)).(other := v.o.(lock := Own(v.q)))
    case Alive => Go(v, Scan(v.u + 1, true)).(other := v.o.(lock := Free))
    case CopyFails => Go(v, Leaving).(other := v.o.(lock := Free))
    case Reap => Go(v, Leaving).(other := FREED)
  }

  predicate CanSleep(e: SleepStep, v: View) {
    match e
    case SleepLock => v.p.pc == Drowsy && v.p.lock == Free
    case SleepRelease => v.p.pc == Resting
    case Doze => v.p.pc == Nodding
    case SleepElsewhere(c) => v.p.pc == User && v.p.lock == Free && c >= NPROC
    case Yield => v.p.pc == User && v.p.lock == Free
  }

  function DoSleep(e: SleepStep, v: View): (f: Effect) {
    match e
    case SleepLock => Effect(v.p.(pc := Resting, lock := Own(v.q)), v.o, v.waitLock)
    case SleepRelease => Go(v, Nodding).(waitLock := NULL)
    case Doze => Effect(v.p.(pc := Asleep(true), state := SLEEPING, chan := v.q), v.o, v.waitLock)
    case SleepElsewhere(c) =>
      Effect(v.p.(pc := Asleep(false), state := SLEEPING, chan := c, lock := Own(v.q)), v.o, v.waitLock)
    case Yield => Effect(v.p.(pc := Yielding, state := RUNNABLE, lock := Own(v.q)), v.o, v.waitLock)
  }

  /** kkill, wakeups on channels outside the table, and the scheduler's two switches. */
  predicate CanRun(e: RunStep, v: View) {
    match e
    case WakeElsewhere(c, t) => v.p.pc == User && c >= NPROC && v.u == t && Slot(t) && t != v.q && v.o.lock == Free
    case Kill(t) => v.p.pc == User && v.u == t && Slot(t) && t != v.q && v.o.lock == Free
    case KillSelf => v.p.pc == User && v.p.lock == Free
    case SwitchOut =>
      && v.p.onCpu && v.p.lock == Own(v.q) && v.p.state != RUNNING
      && (v.p.pc == Gone || v.p.pc.Asleep? || v.p.pc == Yielding)
    case SchedRelease => v.p.lock == Sched
    case SwitchIn => v.p.lock == Free && v.p.state == RUNNABLE
    case Resume =>
      && v.p.lock == Own(v.q) && v.p.state == RUNNING
      && (v.p.pc.Asleep? || v.p.pc == Yielding || v.p.pc == Fresh)
  }

  function DoRun(e: RunStep, v: View): (f: Effect) {
    match e
    case WakeElsewhere(c, _) => Effect(v.p, Woken(v.o, c), v.waitLock)
    case Kill(_) =>
      Effect(v.p, v.o.(killed := true, state := if v.o.state == SLEEPING then RUNNABLE else v.o.state), v.waitLock)
    case KillSelf => Effect(v.p.(killed := true), v.o, v.waitLock)
    case SwitchOut => Effect(v.p.(onCpu := false, lock := Sched), v.o, v.waitLock)
    case SchedRelease => Effect(v.p.(lock := Free), v.o, v.waitLock)
    case SwitchIn => Effect(v.p.(state := RUNNING, onCpu := true, lock := Own(v.q)), v.o, v.waitLock)
    case Resume =>
      Effect(v.p.(chan := NULL, lock := Free, pc := if v.p.pc == Asleep(true) then Waiting else User), v.o, v.waitLock)
  }

  predicate Can(e: Event, v: View) {
    match e
    case Forks(f) => CanFork(f, v)
    case Adopts(a) => CanAdopt(a, v)
    case Dies(d) => CanDie(d, v)
    case Scans(w) => CanScan(w, v)
    case Looks(c) => CanChild(c, v)
    case Sleeps(s) => CanSleep(s, v)
    case Runs(r) => CanRun(r, v)
  }

  function Act(e: Event, v: View): (f: Effect) {
    match e
    case Forks(f) => DoFork(f, v)
    case Adopts(a) => DoAdopt(a, v)
    case Dies(d) => DoDie(d, v)
    case Scans(w) => DoScan(w, v)
    case Looks(c) => DoChild(c, v)
    case Sleeps(s) => DoSleep(s, v)
    case Runs(r) => DoRun(r, v)
  }

  function At(procs: seq<Proc>, t: int): (p: Proc) { if 0 <= t < |procs| then procs[t] else FREED }

  function Put(procs: seq<Proc>, t: int, p: Proc): (r: seq<Proc>) {
    if 0 <= t < |procs| then procs[t := p] else procs
  }

  /** The slot that step e of a process at pc concerns besides its own. */
  function Object(e: Event, pc: Pc): (t: int) {
    if e.Forks? && e.f.Alloc? then e.f.np
    else if e.Runs? && e.r.Kill? then e.r.t
    else if e.Runs? && e.r.WakeElsewhere? then e.r.t
    else Target(pc)
  }

  function ViewOf(s: State, q: int, e: Event): (v: View) {
    var p := At(s.procs, q);
    var u := Object(e, p.pc);
    View(q, p, u, At(s.procs, u), s.waitLock, s.nextpid)
  }

  /** When process q can take the step e next. */
  predicate Enabled(s: State, q: int, e: Event) { Slot(q) && Can(e, ViewOf(s, q, e)) }

  /** allocproc hands out the next pid; kwait's freeproc and a failed kfork's retire one. */
  function Issued(e: Event, v: View, slotOf: map<nat, int>): (r: map<nat, int>) {
    if e.Forks? && e.f.Alloc? then slotOf[v.nextpid := v.u]
    else if e == Looks(Reap) || e == Forks(AllocFail) then slotOf[v.o.pid := NULL]
    else slotOf
  }

  function Do(s: State, q: int, e: Event): (t: State) {
    var v := ViewOf(s, q, e);
    var f := Act(e, v);
    State(Put(Put(s.procs, v.u, f.other), q, f.self), f.waitLock,
          if e.Forks? && e.f.Alloc? then s.nextpid + 1 else s.nextpid,
          if e == Looks(Reap) then s.reaped + [v.o.pid] else s.reaped,
          Issued(e, v, s.slotOf))
  }

  // ---------------------------------------------------------------- the invariant

  predicate HoldsWait(pc: Pc) {
    match pc
    case Linked(_) => true
    case Reparent(_) => true
    case Adopting(_, _) => true
    case Telling(_, _) => true
    case Scan(_, _) => true
    case Look(_) => true
    case Dying | Undead | Leaving | Drowsy | Resting => true
    case _ => false
  }

  predicate Departing(pc: Pc) {
    match pc
    case Reparent(_) => true
    case Adopting(_, _) => true
    case Telling(_, _) => true
    case Exiting | Dying | Undead | Gone => true
    case _ => false
  }

  /** What a process's own record says, given who holds wait_lock. */
  ghost predicate Local(p: Proc, t: int, waitLock: int) {
    && (waitLock == t <==> HoldsWait(p.pc))
    && (match p.pc
        case Off => p.state == UNUSED && !p.onCpu && p.lock != Own(t) && p.lock != Sched && p.parent == NULL
        case Fresh =>
          && Resumable(p, t)
          && (p.state == RUNNABLE || p.state == RUNNING || (p.state == USED && !p.onCpu && p.lock != Sched))
        case Yielding => Resumable(p, t) && (p.state == RUNNABLE || p.state == RUNNING)
        case Asleep(wait) => Resumable(p, t) &&
          (|| p.state == RUNNABLE || p.state == RUNNING
           || (p.state == SLEEPING && if wait then p.chan == t else p.chan >= NPROC))
        case Dying | Resting | Nodding => p.state == RUNNING && p.onCpu && p.lock == Own(t)
        case Undead => p.state == ZOMBIE && p.onCpu && p.lock == Own(t)
        case Gone => p.state == ZOMBIE && (p.onCpu <==> p.lock == Own(t))
        case _ => p.state == RUNNING && p.onCpu && p.lock != Own(t) && p.lock != Sched)
    && (if t == INIT then p.state != UNUSED && p.state != USED && p.parent == NULL && !Departing(p.pc)
        else p.state == UNUSED || p.state == USED || p.parent != NULL)
  }

  /** At a point where the scheduler may resume the process: it is on a processor iff it holds its own lock. */
  ghost predicate Resumable(p: Proc, t: int) {
    && (p.onCpu <==> p.lock == Own(t))
    && (p.state == RUNNING ==> p.onCpu)
  }

  predicate Building(pc: Pc) { pc.Forking? || pc.Linking? || pc.Linked? || pc.Starting? }

  /** The slot a kfork builds (record o) is its own; a child kwait looks at is its child, and locked. */
  ghost predicate Named(p: Proc, q: int, o: Proc) {
    && (Building(p.pc) ==> (
      && Slot(p.pc.np) && o.state == USED && o.maker == q
      && o.parent == (if p.pc.Starting? then q else NULL)
      && (p.pc.Forking? ==> o.lock == Own(q))))
    && (p.pc.Look? ==> Slot(p.pc.i) && o.lock == Own(q) && o.parent == q)
    && (p.pc.Scan? || p.pc.Reparent? ==> 0 <= Target(p.pc) <= NPROC)
    && (p.pc.Adopting? ==> Slot(p.pc.i) && 0 <= p.pc.j <= NPROC)
  }

  /** A USED slot belongs to a kfork that is still building it (m is its maker's record). */
  ghost predicate Made(p: Proc, t: int, m: Proc) {
    p.state == USED ==> Slot(p.maker) && Building(m.pc) && m.pc.np == t
  }

  /** How many slots, from the first, an exiting process knows are not its children. */
  function Orphaned(pc: Pc): (n: int) {
    match pc
    case Reparent(i) => i
    case Adopting(i, _) => i + 1
    case Telling(_, _) => NPROC
    case Dying | Undead | Gone => NPROC
    case _ => 0
  }

  /** How many slots, from the first, a process knows are not its children: reparent's, or a kwait that has met none. */
  function Childless(pc: Pc): (n: int) { if pc.Scan? && !pc.kids then pc.i else Orphaned(pc) }

  /** How many slots, from the first, a waiting process knows hold no zombie child of its own. */
  function Scanned(pc: Pc): (n: int) {
    match pc
    case Scan(i, _) => i
    case Look(i) => i
    case Drowsy | Resting => NPROC
    case _ => 0
  }

  /** In kwait's sleep, past the release of wait_lock, and not yet woken. */
  predicate Dozing(p: Proc) { p.pc == Nodding || (p.pc == Asleep(true) && p.state == SLEEPING) }

  /** In a wakeup(initproc) that has not passed initproc. */
  predicate ToWakeInit(pc: Pc) { pc.Adopting? && pc.j <= INIT }

  /**
    * A parent (record r) is a live process that has not passed child t in reparent or, if t is a zombie, in kwait.
    * pending: the holder of wait_lock is about to wake initproc.
    */
  ghost predicate Family(p: Proc, t: int, r: Proc, pending: bool) {
    p.parent == NULL || (
      && Slot(p.parent) && p.parent != t && r.pc != Off && r.state != USED
      && t >= Childless(r.pc)
      && (p.state == ZOMBIE ==> (
        && t >= Scanned(r.pc)
        && (Dozing(r) ==> p.parent == INIT && pending))))
  }

  /** The parent (record r) that an exiting process has woken does not doze. */
  ghost predicate Told(p: Proc, t: int, r: Proc) {
    && (p.pc.Telling? ==> p.pc.chan == p.parent && 0 <= p.pc.j <= NPROC && (p.parent < p.pc.j ==> !Dozing(r)))
    && (p.pc == Dying ==> !Dozing(r))
  }

  ghost predicate Pids(p: Proc, t: int, slotOf: map<nat, int>) {
    p.pc != Off ==> p.pid in slotOf && slotOf[p.pid] == t
  }

  ghost predicate History(reaped: seq<nat>, slotOf: map<nat, int>, nextpid: nat) {
    && nextpid > 0 && (forall n :: n in slotOf ==> 0 < n < nextpid)
    && (forall k :: 0 <= k < |reaped| ==> reaped[k] in slotOf && slotOf[reaped[k]] == NULL)
    && (forall j, k :: 0 <= j < k < |reaped| ==> reaped[j] != reaped[k])
  }

  /** A slot with the records it refers to: its parent r, the slot x its pc names, its maker m. */
  datatype Kin = Kin(t: int, c: Proc, r: Proc, x: Proc, m: Proc)

  function KinOf(procs: seq<Proc>, t: int): (k: Kin) {
    var c := At(procs, t);
    Kin(t, c, At(procs, c.parent), At(procs, Target(c.pc)), At(procs, c.maker))
  }

  ghost predicate Sound(k: Kin, waitLock: int, pending: bool) {
    && Local(k.c, k.t, waitLock)
    && Named(k.c, k.t, k.x)
    && Made(k.c, k.t, k.m)
    && Family(k.c, k.t, k.r, pending)
    && Told(k.c, k.t, k.r)
  }

  function Pending(s: State): (b: bool) { ToWakeInit(At(s.procs, s.waitLock).pc) }

  ghost predicate Inv(s: State) {
    && |s.procs| == NPROC
    && (s.waitLock == NULL || Slot(s.waitLock))
    && (forall t :: Slot(t) ==> Sound(KinOf(s.procs, t), s.waitLock, Pending(s)))
    && (forall t :: Slot(t) ==> Pids(At(s.procs, t), t, s.slotOf))
    && History(s.reaped, s.slotOf, s.nextpid)
  }

  // ---------------------------------------------------------------- every step keeps it

  /** The record at slot x after a step with effect f. */
  function Then(v: View, f: Effect, x: int, was: Proc): (now: Proc) {
    if x == v.q then f.self else if x == v.u && Slot(x) then f.other else was
  }

  /** The record at slot x agrees with the view. */
  predicate Same(v: View, x: int, r: Proc) { (x == v.q ==> r == v.p) && (x == v.u ==> r == v.o) }

  /** What the invariant says of the process that steps and of the slot it acts on. */
  ghost predicate Scene(v: View, pending: bool) {
    && Slot(v.q) && Same(v, v.q, v.p) && Same(v, v.u, v.o) && (v.p.pc != User ==> v.u == Target(v.p.pc))
    && Local(v.p, v.q, v.waitLock) && v.p.parent != v.q && Named(v.p, v.q, v.o)
    && (Slot(v.u) ==> Local(v.o, v.u, v.waitLock))
    && (v.waitLock == v.q ==> pending == ToWakeInit(v.p.pc)) && (v.waitLock == NULL ==> !pending)
  }

  /** What it says of any slot, and of the records that slot refers to. */
  ghost predicate Bystander(v: View, k: Kin, i: Proc, pending: bool) {
    && Slot(k.t) && Sound(k, v.waitLock, pending) && Same(v, k.t, k.c) && Same(v, INIT, i) && Local(i, INIT, v.waitLock)
    && (Slot(k.c.parent) ==> Same(v, k.c.parent, k.r) && Local(k.r, k.c.parent, v.waitLock))
    && (Slot(Target(k.c.pc)) ==> Same(v, Target(k.c.pc), k.x) && Local(k.x, Target(k.c.pc), v.waitLock))
    && (Slot(k.c.maker) ==> Same(v, k.c.maker, k.m))
  }

  /** After the step: the parent of the slot, the process it is at work on, and the one that made it. */
  function ParentAfter(v: View, f: Effect, k: Kin, i: Proc): (r: Proc) {
    var c := Then(v, f, k.t, k.c);
    if c.parent == k.c.parent then Then(v, f, c.parent, k.r)
    else if c.parent == v.q then f.self else if c.parent == INIT then Then(v, f, INIT, i) else FREED
  }

  function TargetAfter(v: View, f: Effect, k: Kin): (r: Proc) {
    var c := Then(v, f, k.t, k.c);
    if k.t == v.q then f.other else if Target(c.pc) == Target(k.c.pc) then Then(v, f, Target(c.pc), k.x) else FREED
  }

  function MakerAfter(v: View, f: Effect, k: Kin): (r: Proc) {
    var c := Then(v, f, k.t, k.c);
    if c.maker == k.c.maker then Then(v, f, c.maker, k.m) else if c.maker == v.q then f.self else FREED
  }

  /** The same slot after the step; a new parent is the process that steps, or initproc. */
  function After(v: View, f: Effect, k: Kin, i: Proc): (r: Kin) {
    Kin(k.t, Then(v, f, k.t, k.c), ParentAfter(v, f, k, i), TargetAfter(v, f, k), MakerAfter(v, f, k))
  }

  function PendingAfter(v: View, f: Effect, pending: bool): (b: bool) {
    if f.waitLock == v.q then ToWakeInit(f.self.pc) else v.waitLock != v.q && pending
  }

  lemma ForkLocal(e: ForkStep, v: View, k: Kin, i: Proc, w: bool)
    requires CanFork(e, v) && Scene(v, w) && Bystander(v, k, i, w)
    ensures var f := DoFork(e, v); var a := After(v, f, k, i); Local(a.c, a.t, f.waitLock)
  { hide ParentAfter, TargetAfter, MakerAfter, Family, Told, Made, ToWakeInit; }

  lemma ForkNamed(e: ForkStep, v: View, k: Kin, i: Proc, w: bool)
    requires CanFork(e, v) && Scene(v, w) && Bystander(v, k, i, w)
    ensures var f := DoFork(e, v); var a := After(v, f, k, i); Named(a.c, a.t, a.x) && Made(a.c, a.t, a.m)
  { hide ParentAfter, Family, Told, ToWakeInit, Departing; }

  lemma AllocFamily(e: ForkStep, v: View, k: Kin, i: Proc, w: bool)
    requires CanFork(e, v) && Scene(v, w) && Bystander(v, k, i, w) && (e.Alloc? || e.AllocFail?)
    ensures var f := DoFork(e, v); var a := After(v, f, k, i); Family(a.c, a.t, a.r, PendingAfter(v, f, w))
  { hide TargetAfter, MakerAfter, Made, Told, Departing; }

  lemma LinkFamily(e: ForkStep, v: View, k: Kin, i: Proc, w: bool)
    requires CanFork(e, v) && Scene(v, w) && Bystander(v, k, i, w) && !e.Alloc? && !e.AllocFail?
    ensures var f := DoFork(e, v); var a := After(v, f, k, i); Family(a.c, a.t, a.r, PendingAfter(v, f, w))
  { hide TargetAfter, MakerAfter, Made, Told, Departing; }

  lemma ForkFamily(e: ForkStep, v: View, k: Kin, i: Proc, w: bool)
    requires CanFork(e, v) && Scene(v, w) && Bystander(v, k, i, w)
    ensures var f := DoFork(e, v); var a := After(v, f, k, i); Family(a.c, a.t, a.r, PendingAfter(v, f, w))
  {
    hide Scene, Bystander, Family, After, PendingAfter;
    if e.Alloc? || e.AllocFail? { AllocFamily(e, v, k, i, w); } else { LinkFamily(e, v, k, i, w); }
  }

  lemma ForkTold(e: ForkStep, v: View, k: Kin, i: Proc, w: bool)
    requires CanFork(e, v) && Scene(v, w) && Bystander(v, k, i, w)
    ensures var f := DoFork(e, v); var a := After(v, f, k, i); Told(a.c, a.t, a.r)
  { hide TargetAfter, MakerAfter, Made, ToWakeInit; }

  lemma AdoptLocal(e: AdoptStep, v: View, k: Kin, i: Proc, w: bool)
    requires CanAdopt(e, v) && Scene(v, w) && Bystander(v, k, i, w)
    ensures var f := DoAdopt(e, v); var a := After(v, f, k, i); Local(a.c, a.t, f.waitLock)
  { hide ParentAfter, TargetAfter, MakerAfter, Family, Told, Made, ToWakeInit; }

  lemma AdoptNamed(e: AdoptStep, v: View, k: Kin, i: Proc, w: bool)
    requires CanAdopt(e, v) && Scene(v, w) && Bystander(v, k, i, w)
    ensures var f := DoAdopt(e, v); var a := After(v, f, k, i); Named(a.c, a.t, a.x) && Made(a.c, a.t, a.m)
  { hide ParentAfter, Family, Told, ToWakeInit; }

  lemma ReparentFamily(v: View, k: Kin, i: Proc, w: bool)
    requires CanAdopt(ReparentNext, v) && Scene(v, w) && Bystander(v, k, i, w)
    ensures var f := DoAdopt(ReparentNext, v); var a := After(v, f, k, i); Family(a.c, a.t, a.r, PendingAfter(v, f, w))
  { hide TargetAfter, MakerAfter, Made, Named, Told; }

  lemma WakeFamily(e: AdoptStep, v: View, k: Kin, i: Proc, w: bool)
    requires CanAdopt(e, v) && Scene(v, w) && Bystander(v, k, i, w) && !e.ReparentNext?
    ensures var f := DoAdopt(e, v); var a := After(v, f, k, i); Family(a.c, a.t, a.r, PendingAfter(v, f, w))
  { hide TargetAfter, MakerAfter, Made, Named, Told; }

  lemma AdoptFamily(e: AdoptStep, v: View, k: Kin, i: Proc, w: bool)
    requires CanAdopt(e, v) && Scene(v, w) && Bystander(v, k, i, w)
    ensures var f := DoAdopt(e, v); var a := After(v, f, k, i); Family(a.c, a.t, a.r, PendingAfter(v, f, w))
  {
    hide Scene, Bystander, Family, After, PendingAfter;
    if e.ReparentNext? { ReparentFamily(v, k, i, w); } else { WakeFamily(e, v, k, i, w); }
  }

  lemma AdoptTold(e: AdoptStep, v: View, k: Kin, i: Proc, w: bool)
    requires CanAdopt(e, v) && Scene(v, w) && Bystander(v, k, i, w)
    ensures var f := DoAdopt(e, v); var a := After(v, f, k, i); Told(a.c, a.t, a.r)
  { hide TargetAfter, MakerAfter, Made, ToWakeInit; }

  lemma DieLocal(e: DieStep, v: View, k: Kin, i: Proc, w: bool)
    requires CanDie(e, v) && Scene(v, w) && Bystander(v, k, i, w)
    ensures var f := DoDie(e, v); var a := After(v, f, k, i); Local(a.c, a.t, f.waitLock)
  { hide ParentAfter, TargetAfter, MakerAfter, Family, Told, Made, ToWakeInit; }

  lemma DieNamed(e: DieStep, v: View, k: Kin, i: Proc, w: bool)
    requires CanDie(e, v) && Scene(v, w) && Bystander(v, k, i, w)
    ensures var f := DoDie(e, v); var a := After(v, f, k, i); Named(a.c, a.t, a.x) && Made(a.c, a.t, a.m)
  { hide ParentAfter, Family, Told, ToWakeInit; }

  lemma DieFamily(e: DieStep, v: View, k: Kin, i: Proc, w: bool)
    requires CanDie(e, v) && Scene(v, w) && Bystander(v, k, i, w)
    ensures var f := DoDie(e, v); var a := After(v, f, k, i); Family(a.c, a.t, a.r, PendingAfter(v, f, w))
  { hide TargetAfter, MakerAfter, Made; }

  lemma DieTold(e: DieStep, v: View, k: Kin, i: Proc, w: bool)
    requires CanDie(e, v) && Scene(v, w) && Bystander(v, k, i, w)
    ensures var f := DoDie(e, v); var a := After(v, f, k, i); Told(a.c, a.t, a.r)
  { hide TargetAfter, MakerAfter, Made, ToWakeInit; }

  lemma ScanLocal(e: ScanStep, v: View, k: Kin, i: Proc, w: bool)
    requires CanScan(e, v) && Scene(v, w) && Bystander(v, k, i, w)
    ensures var f := DoScan(e, v); var a := After(v, f, k, i); Local(a.c, a.t, f.waitLock)
  { hide ParentAfter, TargetAfter, MakerAfter, Family, Told, Made, ToWakeInit; }

  lemma ScanNamed(e: ScanStep, v: View, k: Kin, i: Proc, w: bool)
    requires CanScan(e, v) && Scene(v, w) && Bystander(v, k, i, w)
    ensures var f := DoScan(e, v); var a := After(v, f, k, i); Named(a.c, a.t, a.x) && Made(a.c, a.t, a.m)
  { hide ParentAfter, Family, Told, ToWakeInit; }

  lemma ScanFamily(e: ScanStep, v: View, k: Kin, i: Proc, w: bool)
    requires CanScan(e, v) && Scene(v, w) && Bystander(v, k, i, w)
    ensures var f := DoScan(e, v); var a := After(v, f, k, i); Family(a.c, a.t, a.r, PendingAfter(v, f, w))
  { hide TargetAfter, MakerAfter, Made, Local, Named, Told; }

  lemma ScanTold(e: ScanStep, v: View, k: Kin, i: Proc, w: bool)
    requires CanScan(e, v) && Scene(v, w) && Bystander(v, k, i, w)
    ensures var f := DoScan(e, v); var a := After(v, f, k, i); Told(a.c, a.t, a.r)
  { hide TargetAfter, MakerAfter, Made, ToWakeInit; }

  lemma ChildLocal(e: ChildStep, v: View, k: Kin, i: Proc, w: bool)
    requires CanChild(e, v) && Scene(v, w) && Bystander(v, k, i, w)
    ensures var f := DoChild(e, v); var a := After(v, f, k, i); Local(a.c, a.t, f.waitLock)
  { hide ParentAfter, TargetAfter, MakerAfter, Family, Told, Made, ToWakeInit; }

  lemma ChildNamed(e: ChildStep, v: View, k: Kin, i: Proc, w: bool)
    requires CanChild(e, v) && Scene(v, w) && Bystander(v, k, i, w)
    ensures var f := DoChild(e, v); var a := After(v, f, k, i); Named(a.c, a.t, a.x) && Made(a.c, a.t, a.m)
  { hide ParentAfter, Family, Told, ToWakeInit; }

  lemma LookFamily(e: ChildStep, v: View, k: Kin, i: Proc, w: bool)
    requires CanChild(e, v) && Scene(v, w) && Bystander(v, k, i, w) && !e.Reap?
    ensures var f := DoChild(e, v); var a := After(v, f, k, i); Family(a.c, a.t, a.r, PendingAfter(v, f, w))
  { hide TargetAfter, MakerAfter, Made, Told, Departing, Named; }

  lemma ReapFamily(v: View, k: Kin, i: Proc, w: bool)
    requires CanChild(Reap, v) && Scene(v, w) && Bystander(v, k, i, w)
    ensures var f := DoChild(Reap, v); var a := After(v, f, k, i); Family(a.c, a.t, a.r, PendingAfter(v, f, w))
  { hide TargetAfter, MakerAfter, Made, Told, Departing; }

  lemma ChildFamily(e: ChildStep, v: View, k: Kin, i: Proc, w: bool)
    requires CanChild(e, v) && Scene(v, w) && Bystander(v, k, i, w)
    ensures var f := DoChild(e, v); var a := After(v, f, k, i); Family(a.c, a.t, a.r, PendingAfter(v, f, w))
  {
    hide Scene, Bystander, Family, After, PendingAfter;
    if e.Reap? { ReapFamily(v, k, i, w); } else { LookFamily(e, v, k, i, w); }
  }

  lemma ChildTold(e: ChildStep, v: View, k: Kin, i: Proc, w: bool)
    requires CanChild(e, v) && Scene(v, w) && Bystander(v, k, i, w)
    ensures var f := DoChild(e, v); var a := After(v, f, k, i); Told(a.c, a.t, a.r)
  { hide TargetAfter, MakerAfter, Made, ToWakeInit; }

  lemma SleepLocal(e: SleepStep, v: View, k: Kin, i: Proc, w: bool)
    requires CanSleep(e, v) && Scene(v, w) && Bystander(v, k, i, w)
    ensures var f := DoSleep(e, v); var a := After(v, f, k, i); Local(a.c, a.t, f.waitLock)
  { hide ParentAfter, TargetAfter, MakerAfter, Family, Told, Made, ToWakeInit; }

  lemma SleepNamed(e: SleepStep, v: View, k: Kin, i: Proc, w: bool)
    requires CanSleep(e, v) && Scene(v, w) && Bystander(v, k, i, w)
    ensures var f := DoSleep(e, v); var a := After(v, f, k, i); Named(a.c, a.t, a.x) && Made(a.c, a.t, a.m)
  { hide ParentAfter, Family, Told, ToWakeInit; }

  lemma SleepFamily(e: SleepStep, v: View, k: Kin, i: Proc, w: bool)
    requires CanSleep(e, v) && Scene(v, w) && Bystander(v, k, i, w)
    ensures var f := DoSleep(e, v); var a := After(v, f, k, i); Family(a.c, a.t, a.r, PendingAfter(v, f, w))
  { hide TargetAfter, MakerAfter, Made, Local, Named; }

  lemma SleepTold(e: SleepStep, v: View, k: Kin, i: Proc, w: bool)
    requires CanSleep(e, v) && Scene(v, w) && Bystander(v, k, i, w)
    ensures var f := DoSleep(e, v); var a := After(v, f, k, i); Told(a.c, a.t, a.r)
  { hide TargetAfter, MakerAfter, Made, ToWakeInit; }

  lemma RunLocal(e: RunStep, v: View, k: Kin, i: Proc, w: bool)
    requires CanRun(e, v) && Scene(v, w) && Bystander(v, k, i, w)
    ensures var f := DoRun(e, v); var a := After(v, f, k, i); Local(a.c, a.t, f.waitLock)
  { hide ParentAfter, TargetAfter, MakerAfter, Family, Told, Made, ToWakeInit; }

  lemma RunNamed(e: RunStep, v: View, k: Kin, i: Proc, w: bool)
    requires CanRun(e, v) && Scene(v, w) && Bystander(v, k, i, w)
    ensures var f := DoRun(e, v); var a := After(v, f, k, i); Named(a.c, a.t, a.x) && Made(a.c, a.t, a.m)
  { hide ParentAfter, Family, Told, ToWakeInit; }

  lemma RunFamily(e: RunStep, v: View, k: Kin, i: Proc, w: bool)
    requires CanRun(e, v) && Scene(v, w) && Bystander(v, k, i, w)
    ensures var f := DoRun(e, v); var a := After(v, f, k, i); Family(a.c, a.t, a.r, PendingAfter(v, f, w))
  { hide TargetAfter, MakerAfter, Made; }

  lemma RunTold(e: RunStep, v: View, k: Kin, i: Proc, w: bool)
    requires CanRun(e, v) && Scene(v, w) && Bystander(v, k, i, w)
    ensures var f := DoRun(e, v); var a := After(v, f, k, i); Told(a.c, a.t, a.r)
  { hide TargetAfter, MakerAfter, Made, ToWakeInit; }

  lemma StepSound(e: Event, v: View, k: Kin, i: Proc, w: bool)
    requires Can(e, v) && Scene(v, w) && Bystander(v, k, i, w)
    ensures var f := Act(e, v); Sound(After(v, f, k, i), f.waitLock, PendingAfter(v, f, w))
  {
    hide Scene, Bystander, After, PendingAfter, Local, Named, Made, Family, Told;
    hide CanFork, CanAdopt, CanDie, CanScan, CanChild, CanSleep, CanRun, DoFork, DoAdopt, DoDie, DoScan, DoChild,
      DoSleep, DoRun;
    match e
    case Forks(f) =>
      ForkLocal(f, v, k, i, w);
      ForkNamed(f, v, k, i, w);
      ForkFamily(f, v, k, i, w);
      ForkTold(f, v, k, i, w);
    case Adopts(a) =>
      AdoptLocal(a, v, k, i, w);
      AdoptNamed(a, v, k, i, w);
      AdoptFamily(a, v, k, i, w);
      AdoptTold(a, v, k, i, w);
    case Dies(d) => DieLocal(d, v, k, i, w); DieNamed(d, v, k, i, w); DieFamily(d, v, k, i, w); DieTold(d, v, k, i, w);
    case Scans(x) =>
      ScanLocal(x, v, k, i, w);
      ScanNamed(x, v, k, i, w);
      ScanFamily(x, v, k, i, w);
      ScanTold(x, v, k, i, w);
    case Looks(c) =>
      ChildLocal(c, v, k, i, w);
      ChildNamed(c, v, k, i, w);
      ChildFamily(c, v, k, i, w);
      ChildTold(c, v, k, i, w);
    case Sleeps(x) =>
      SleepLocal(x, v, k, i, w);
      SleepNamed(x, v, k, i, w);
      SleepFamily(x, v, k, i, w);
      SleepTold(x, v, k, i, w);
    case Runs(r) => RunLocal(r, v, k, i, w); RunNamed(r, v, k, i, w); RunFamily(r, v, k, i, w); RunTold(r, v, k, i, w);
  }

  /** A step leaves the parent and the maker of the process that steps, and a pc it makes name a slot names u. */
  lemma SelfChanges(e: Event, v: View, w: bool)
    requires Can(e, v) && Scene(v, w)
    ensures var f := Act(e, v);
      && f.self.parent == v.p.parent && f.self.maker == v.p.maker
      && (Building(f.self.pc) || f.self.pc.Look? ==> Target(f.self.pc) == v.u && v.u != v.q && Slot(v.u))
  {
    SelfKin(e, v);
    hide Scene, CanFork, CanAdopt, CanDie, CanScan, CanChild, CanSleep, CanRun;
    match e
    case Forks(f) => ForkNames(f, v, w);
    case Adopts(_) | Dies(_) | Scans(_) | Sleeps(_) =>
    case Looks(c) => ChildNames(c, v, w);
    case Runs(r) => RunNames(r, v, w);
  }

  lemma SelfKin(e: Event, v: View)
    ensures Act(e, v).self.parent == v.p.parent && Act(e, v).self.maker == v.p.maker
  {}

  lemma ForkNames(e: ForkStep, v: View, w: bool)
    requires CanFork(e, v) && Scene(v, w)
    ensures var pc := DoFork(e, v).self.pc; Building(pc) || pc.Look? ==> Target(pc) == v.u && v.u != v.q && Slot(v.u)
  { hide ToWakeInit, Departing; }

  lemma ChildNames(e: ChildStep, v: View, w: bool)
    requires CanChild(e, v) && Scene(v, w)
    ensures var pc := DoChild(e, v).self.pc; Building(pc) || pc.Look? ==> Target(pc) == v.u && v.u != v.q && Slot(v.u)
  { hide ToWakeInit, Departing; }

  lemma RunNames(e: RunStep, v: View, w: bool)
    requires CanRun(e, v) && Scene(v, w)
    ensures var pc := DoRun(e, v).self.pc; !Building(pc) && !pc.Look?
  { hide ToWakeInit, Departing; }

  lemma OtherChanges(e: Event, v: View, w: bool)
    requires Can(e, v) && Scene(v, w)
    ensures var f := Act(e, v);
      && f.other.parent in {v.o.parent, v.q, INIT, NULL} && f.other.maker in {v.o.maker, v.q, NULL}
      && (f.other.pc == v.o.pc || Target(f.other.pc) == NULL)
  { hide Scene; }

  lemma LockChanges(e: Event, v: View, w: bool)
    requires Can(e, v) && Scene(v, w)
    ensures var f := Act(e, v);
      && f.waitLock in {v.waitLock, v.q, NULL}
      && (f.waitLock != v.waitLock && f.waitLock != v.q ==> v.waitLock == v.q)
      && (v.waitLock != v.q && v.waitLock == v.u ==> ToWakeInit(f.other.pc) == ToWakeInit(v.o.pc))
  { hide Departing; }

  lemma SceneHolds(s: State, q: int, e: Event)
    requires Inv(s) && Enabled(s, q, e)
    ensures Scene(ViewOf(s, q, e), Pending(s))
  {
    hide Local, Told, Made, Named, History, CanAdopt, CanDie, CanScan, CanChild, CanSleep, ToWakeInit, Orphaned,
      Scanned, Dozing;
    var u := Object(e, At(s.procs, q).pc);
    assert Sound(KinOf(s.procs, q), s.waitLock, Pending(s));
    assert Slot(u) ==> Sound(KinOf(s.procs, u), s.waitLock, Pending(s));
    if At(s.procs, q).pc == User { NamedAny(At(s.procs, q), q, At(s.procs, Target(User)), At(s.procs, u)); }
    NobodyPends();
  }

  lemma NobodyPends()
    ensures !ToWakeInit(FREED.pc)
  {}

  lemma BystanderHolds(s: State, q: int, e: Event, t: int)
    requires Inv(s) && Enabled(s, q, e) && Slot(t)
    ensures Bystander(ViewOf(s, q, e), KinOf(s.procs, t), At(s.procs, INIT), Pending(s))
  {
    hide Local, Family, Told, Made, Named, History, Can;
    forall x | Slot(x) ensures Local(At(s.procs, x), x, s.waitLock) {
      assert Sound(KinOf(s.procs, x), s.waitLock, Pending(s));
    }
    assert Sound(KinOf(s.procs, t), s.waitLock, Pending(s));
  }

  lemma NamedAny(p: Proc, q: int, o: Proc, x: Proc)
    requires Named(p, q, o) && !Building(p.pc) && !p.pc.Look?
    ensures Named(p, q, x)
  {}

  /** The table after a step, slot by slot. */
  lemma TableAfter(procs: seq<Proc>, v: View, f: Effect, x: int)
    requires |procs| == NPROC && Slot(v.q)
    ensures At(Put(Put(procs, v.u, f.other), v.q, f.self), x) == Then(v, f, x, At(procs, x))
  {}

  lemma KinAfter(s: State, q: int, e: Event, t: int)
    requires Inv(s) && Enabled(s, q, e) && Slot(t)
    ensures var v := ViewOf(s, q, e); var f := Act(e, v);
      var a := After(v, f, KinOf(s.procs, t), At(s.procs, INIT)); var k := KinOf(Do(s, q, e).procs, t);
      && k == a.(x := k.x) && k.t == t && (t != q || Building(k.c.pc) || k.c.pc.Look? ==> k.x == a.x)
  {
    hide Scene, Bystander, Sound, Can, Act, History;
    var v := ViewOf(s, q, e);
    var f := Act(e, v);
    SceneHolds(s, q, e);
    SelfChanges(e, v, Pending(s));
    OtherChanges(e, v, Pending(s));
    forall x ensures At(Do(s, q, e).procs, x) == Then(v, f, x, At(s.procs, x)) { TableAfter(s.procs, v, f, x); }
  }

  lemma PendingIs(s: State, q: int, e: Event)
    requires Inv(s) && Enabled(s, q, e)
    ensures var v := ViewOf(s, q, e); Pending(Do(s, q, e)) == PendingAfter(v, Act(e, v), Pending(s))
  {
    hide Scene, Sound, Can, Act, History;
    var v := ViewOf(s, q, e);
    var f := Act(e, v);
    SceneHolds(s, q, e);
    LockChanges(e, v, Pending(s));
    TableAfter(s.procs, v, f, f.waitLock);
    NobodyPends();
  }

  lemma Lift(s: State, q: int, e: Event, t: int)
    requires Inv(s) && Enabled(s, q, e) && Slot(t)
    ensures var s' := Do(s, q, e); Sound(KinOf(s'.procs, t), s'.waitLock, Pending(s'))
  {
    hide Inv, Scene, Bystander, Local, Named, Made, Family, Told, Can, Act, After, KinOf, Pending, PendingAfter;
    var v, k, i, w := ViewOf(s, q, e), KinOf(s.procs, t), At(s.procs, INIT), Pending(s);
    SceneHolds(s, q, e);
    BystanderHolds(s, q, e, t);
    StepSound(e, v, k, i, w);
    KinAfter(s, q, e, t);
    PendingIs(s, q, e);
    var a, n := After(v, Act(e, v), k, i), KinOf(Do(s, q, e).procs, t);
    if !(t != q || Building(n.c.pc) || n.c.pc.Look?) { NamedAny(n.c, t, a.x, n.x); }
  }

  /** A step hands out nextpid, retires u's pid, or leaves every pid where it is. */
  lemma ForkPids(e: ForkStep, v: View, w: bool)
    requires CanFork(e, v) && Scene(v, w)
    ensures var f := DoFork(e, v);
      if e.Alloc? then f.other.pid == v.nextpid && v.u != v.q
      else if e == AllocFail then f.other.pc == Off && v.u != v.q && Slot(v.u) && v.o.pc != Off
      else f.other.pid == v.o.pid && f.other.pc == v.o.pc
  { hide ToWakeInit, Departing; }

  lemma RunPids(e: RunStep, v: View, w: bool)
    requires CanRun(e, v) && Scene(v, w)
    ensures v.p.pc != Off
  { hide ToWakeInit, Departing, Named; }

  lemma ChildPids(e: ChildStep, v: View, w: bool)
    requires CanChild(e, v) && Scene(v, w)
    ensures var f := DoChild(e, v);
      if e == Reap then f.other.pc == Off && v.u != v.q && Slot(v.u) && v.o.pc != Off
      else f.other.pid == v.o.pid && f.other.pc == v.o.pc
  { hide ToWakeInit, Departing; }

  lemma PidChanges(e: Event, v: View, w: bool)
    requires Can(e, v) && Scene(v, w)
    ensures var f := Act(e, v);
      && f.self.pid == v.p.pid && v.p.pc != Off
      && (if e.Forks? && e.f.Alloc? then f.other.pid == v.nextpid && v.u != v.q
          else if e == Looks(Reap) || e == Forks(AllocFail) then
            f.other.pc == Off && v.u != v.q && Slot(v.u) && v.o.pc != Off
          else f.other.pid == v.o.pid && f.other.pc == v.o.pc)
  {
    hide Scene;
    match e
    case Forks(f) => ForkPids(f, v, w);
    case Looks(c) => ChildPids(c, v, w);
    case Runs(r) => RunPids(r, v, w);
    case Adopts(_) | Dies(_) | Scans(_) | Sleeps(_) =>
  }

  lemma PidsKeep(s: State, q: int, e: Event, t: int)
    requires Inv(s) && Enabled(s, q, e) && Slot(t)
    ensures Pids(At(Do(s, q, e).procs, t), t, Do(s, q, e).slotOf)
  {
    hide Scene, Sound, Can, Act;
    var v := ViewOf(s, q, e);
    SceneHolds(s, q, e);
    PidChanges(e, v, Pending(s));
    TableAfter(s.procs, v, Act(e, v), t);
    assert Pids(At(s.procs, t), t, s.slotOf) && Pids(v.p, q, s.slotOf);
    assert Slot(v.u) ==> Pids(v.o, v.u, s.slotOf);
  }

  lemma HistoryKeeps(s: State, q: int, e: Event)
    requires Inv(s) && Enabled(s, q, e)
    ensures var t := Do(s, q, e); History(t.reaped, t.slotOf, t.nextpid)
  {
    hide Scene, Sound, Can, Act;
    var v := ViewOf(s, q, e);
    SceneHolds(s, q, e);
    PidChanges(e, v, Pending(s));
    assert Slot(v.u) ==> Pids(v.o, v.u, s.slotOf);
  }

  /** Every step of every process keeps the invariant. */
  lemma StepKeeps(s: State, q: int, e: Event)
    requires Inv(s) && Enabled(s, q, e)
    ensures Inv(Do(s, q, e))
  {
    hide Scene, Sound, Can, Act, Pids, History, Issued;
    var s' := Do(s, q, e);
    forall t | Slot(t) ensures Sound(KinOf(s'.procs, t), s'.waitLock, Pending(s')) { Lift(s, q, e, t); }
    forall t | Slot(t) ensures Pids(At(s'.procs, t), t, s'.slotOf) { PidsKeep(s, q, e, t); }
    HistoryKeeps(s, q, e);
    SceneHolds(s, q, e);
    LockChanges(e, ViewOf(s, q, e), Pending(s));
  }

  // ---------------------------------------------------------------- runs

  /** After userinit: initproc is RUNNABLE with pid 1, every other slot is free. */
  function Boot(): (s: State) {
    State(seq(NPROC, t => if t == INIT then FREED.(state := RUNNABLE, pid := 1, pc := Fresh) else FREED),
          NULL, 2, [], map[1 := INIT])
  }

  lemma BootInv()
    ensures Inv(Boot())
  {
    forall t | Slot(t)
      ensures Sound(KinOf(Boot().procs, t), NULL, Pending(Boot()))
      ensures Pids(At(Boot().procs, t), t, Boot().slotOf)
    {}
  }

  datatype Move = Move(q: int, e: Event)

  ghost predicate Run(states: seq<State>, moves: seq<Move>) {
    && |states| == |moves| + 1 && states[0] == Boot()
    && forall k :: 0 <= k < |moves| ==>
         Enabled(states[k], moves[k].q, moves[k].e) && states[k + 1] == Do(states[k], moves[k].q, moves[k].e)
  }

  lemma {:induction false} RunKeeps(states: seq<State>, moves: seq<Move>, k: nat)
    requires Run(states, moves) && k < |states|
    ensures Inv(states[k])
    decreases k
  {
    hide Inv, Enabled, Do;
    if k == 0 {
      BootInv();
    } else {
      RunKeeps(states, moves, k - 1);
      StepKeeps(states[k - 1], moves[k - 1].q, moves[k - 1].e);
    }
  }

  predicate Live(p: Proc) { p.state == SLEEPING || p.state == RUNNABLE || p.state == RUNNING }

  /** A parent pointer names a live process, and every live process but initproc has one. */
  ghost predicate ParentsLive(s: State) {
    && (forall t :: Slot(t) && At(s.procs, t).parent != NULL ==>
        Slot(At(s.procs, t).parent) && Live(At(s.procs, At(s.procs, t).parent)))
    && (forall t :: Slot(t) && t != INIT && Live(At(s.procs, t)) ==> At(s.procs, t).parent != NULL)
  }

  /** With wait_lock free, no process asleep in kwait (on its own address) has a zombie child. */
  ghost predicate NoLostExit(s: State) {
    s.waitLock == NULL ==> forall t :: Slot(t) && At(s.procs, t).state == ZOMBIE && At(s.procs, t).parent != NULL ==>
      var r := At(s.procs, At(s.procs, t).parent);
      !(r.state == SLEEPING && r.chan == At(s.procs, t).parent)
  }

  /** A zombie that kwait is about to free is on no processor, so freeing it pulls no stack from under one. */
  ghost predicate StackSafe(s: State) {
    forall q, t :: Slot(q) && Slot(t) && At(s.procs, q).pc == Look(t) && At(s.procs, t).state == ZOMBIE ==>
      !At(s.procs, t).onCpu && At(s.procs, t).lock == Own(q)
  }

  ghost predicate ReapedOnce(s: State) {
    && (forall j, k :: 0 <= j < k < |s.reaped| ==> s.reaped[j] != s.reaped[k])
    && (forall t, k :: Slot(t) && 0 <= k < |s.reaped| && At(s.procs, t).pc != Off ==> At(s.procs, t).pid != s.reaped[k])
  }

  lemma InvParents(s: State)
    requires Inv(s)
    ensures ParentsLive(s) && NoLostExit(s)
  {
    hide Told, Made, Named, History, Pids;
    forall t | Slot(t) && At(s.procs, t).parent != NULL
      ensures var r := At(s.procs, At(s.procs, t).parent); Slot(At(s.procs, t).parent) && Live(r)
      ensures var r := At(s.procs, At(s.procs, t).parent);
        s.waitLock == NULL && At(s.procs, t).state == ZOMBIE ==>
          !(r.state == SLEEPING && r.chan == At(s.procs, t).parent)
    {
      assert Sound(KinOf(s.procs, t), s.waitLock, Pending(s));
      assert Sound(KinOf(s.procs, At(s.procs, t).parent), s.waitLock, Pending(s));
    }
    forall t | Slot(t) && t != INIT && Live(At(s.procs, t)) ensures At(s.procs, t).parent != NULL {
      assert Sound(KinOf(s.procs, t), s.waitLock, Pending(s));
    }
  }

  lemma InvStacks(s: State)
    requires Inv(s)
    ensures StackSafe(s)
  {
    hide Told, Made, Family, History, Pids;
    forall q, t | Slot(q) && Slot(t) && At(s.procs, q).pc == Look(t) && At(s.procs, t).state == ZOMBIE
      ensures !At(s.procs, t).onCpu && At(s.procs, t).lock == Own(q)
    {
      assert Sound(KinOf(s.procs, t), s.waitLock, Pending(s));
      assert Sound(KinOf(s.procs, q), s.waitLock, Pending(s));
    }
  }

  lemma InvReaped(s: State)
    requires Inv(s)
    ensures ReapedOnce(s)
  {
    hide Sound;
    forall t, k | Slot(t) && 0 <= k < |s.reaped| && At(s.procs, t).pc != Off ensures At(s.procs, t).pid != s.reaped[k] {
      assert Pids(At(s.procs, t), t, s.slotOf);
    }
  }

  /** The exit/wait protocol, in every state of every run. */
  lemma ExitWaitProtocol(states: seq<State>, moves: seq<Move>, k: nat)
    requires Run(states, moves) && k < |states|
    ensures ParentsLive(states[k]) && NoLostExit(states[k]) && StackSafe(states[k]) && ReapedOnce(states[k])
  {
    hide Run, Inv, ParentsLive, NoLostExit, StackSafe, ReapedOnce;
    RunKeeps(states, moves, k);
    InvParents(states[k]);
    InvStacks(states[k]);
    InvReaped(states[k]);
  }

  /** kwait takes itself to have no children only if it has none. */
  lemma NoChildrenIsTrue(s: State, q: int, t: int)
    requires Inv(s) && Slot(q) && At(s.procs, q).pc == Scan(NPROC, false) && Slot(t)
    ensures At(s.procs, t).parent != q
  {
    hide Told, Made, Named, History, Pids;
    assert Sound(KinOf(s.procs, t), s.waitLock, Pending(s));
  }

  lemma ZombieChanges(e: Event, v: View, w: bool)
    requires Can(e, v) && Scene(v, w)
    ensures var f := Act(e, v);
      && (v.p.state == ZOMBIE ==> f.self.state == ZOMBIE && f.self.pid == v.p.pid)
      && (v.o.state == ZOMBIE && v.u != v.q ==>
            || (f.other.state == ZOMBIE && f.other.pid == v.o.pid)
            || (e == Looks(Reap) && v.p.pc == Look(v.u) && v.o.parent == v.q))
  { hide ToWakeInit, Departing; }

  /** A zombie stays a zombie with its pid until its own parent's kwait collects it. */
  lemma ZombieStays(s: State, q: int, e: Event, t: int)
    requires Inv(s) && Enabled(s, q, e) && Slot(t) && At(s.procs, t).state == ZOMBIE
    ensures var z := At(Do(s, q, e).procs, t);
      || (z.state == ZOMBIE && z.pid == At(s.procs, t).pid)
      || (&& e == Looks(Reap) && At(s.procs, q).pc == Look(t) && At(s.procs, t).parent == q
          && Do(s, q, e).reaped == s.reaped + [At(s.procs, t).pid])
  {
    hide Scene, Can, Act, Sound, History, Pids, Pending;
    SceneHolds(s, q, e);
    ZombieChanges(e, ViewOf(s, q, e), Pending(s));
    TableAfter(s.procs, ViewOf(s, q, e), Act(e, ViewOf(s, q, e)), t);
  }
}

/**
  The runtime driven by any number of threads.

  Each thread runs a program made of the library's calls: waits on waitqueues
  (which may nest: the condition of a wait may itself wait), yields, fd waits,
  signal subscriptions, mutex operations and its exit.  `Prog` is where the thread is in
  such a call; a step is one locked section or one unlocked access to m_owner.
  A run interleaves the steps of all threads, the workers' dispatches and the
  wakeups in any order.
 */
module Machine {
  import opened Common
  import opened Events
  import opened Runtime

  /** An outstanding prepare_to_wait on q; stale once a wait nested in it left the event stack unpopped. */
  datatype Frame = Frame(e: Eid, q: Qid, stale: bool)

  /** A client wait; a yield, or a wait for an fd; a wait in tc_mutex_lock. */
  datatype Kind = Plain | Direct(fd: Option<nat>) | ForLock(m: Qid)

  datatype Op =
    | Starting(e: Eid)                          // created, tc_setup not yet reached
    | Client                                    // outside the library
    | Pushing(e: Eid, fd: Option<nat>)          // yield, wait_fd: listed, not on the stack
    | ToSched(e: Eid, kind: Kind)               // about to call tc_scheduler
    | Waiting(e: Eid, kind: Kind)               // in tc_scheduler, or just back when running
    | LockRead(m: Qid, oe: Option<Eid>)         // tc_mutex_lock: about to read m_owner
    | LockCas(m: Qid, oe: Option<Eid>)          //                about to compare and swap
    | LockPrep(m: Qid)                          //                about to prepare_to_wait
    | LockDone(m: Qid, e: Eid)                  //                condition true, about to finish_wait
    | Dying(e: Eid)                             // tc_die has posted the exit event

  datatype Prog = Prog(op: Op, waits: seq<Frame>, held: set<Qid>)

  datatype Machine = Machine(rt: State, progs: map<Tid, Prog>)

  datatype Step =
    | NewThread(t: Tid, e: Eid, th: Thread)
    | Begin(t: Tid)
    | Wake(q: Qid)
    | FdWake(e: Eid)
    | Dispatch(e: Eid)
    | PrepareWait(t: Tid, e: Eid, q: Qid)
    | EnterScheduler(t: Tid)
    | FinishWait(t: Tid)
    | AddEvent(t: Tid, e: Eid, fd: Option<nat>)
    | PushEvent(t: Tid)
    | FinishEvent(t: Tid)
    | SubscribeTo(t: Tid, e: Eid, q: Qid)
    | UnsubscribeFrom(t: Tid, e: Eid)
    | LockEntry(t: Tid, m: Qid)
    | ReadOwner(t: Tid)
    | TryCas(t: Tid)
    | LockPrepare(t: Tid, e: Eid)
    | LockFinish(t: Tid)
    | TryLock(t: Tid, m: Qid)
    | UnlockMutex(t: Tid, m: Qid)
    | Die(t: Tid, e: Eid)
    | FreeThread(t: Tid)

  predicate Runs(m: Machine, t: Tid) {
    t in m.progs && t in m.rt.threads && m.rt.threads[t].running
  }

  predicate InClient(m: Machine, t: Tid) {
    Runs(m, t) && m.progs[t].op == Client
  }

  /** Memory for an event: no event is there, and no worker notes it as what it was woken by. */
  predicate Fresh(m: Machine, e: Eid) {
    e !in m.rt.board.events && forall u :: u in m.rt.threads ==> m.rt.threads[u].woken != Some(e)
  }

  /** The program position, and what the library asks of its callers. */
  predicate Guard(m: Machine, step: Step) {
    match step
    case NewThread(t, e, th) =>
      && t !in m.rt.threads && t !in m.progs && Fresh(m, e)
      && !th.running && th.top.None? && th.woken.None?
    case Begin(t) => Runs(m, t) && m.progs[t].op.Starting?
    case Wake(q) => q !in m.rt.owner
    case FdWake(e) => Listed(m.rt.board, e) && m.rt.board.events[e].el.value.Fd?
    case Dispatch(e) => Runnable(m.rt, e)
    case PrepareWait(t, e, q) => InClient(m, t) && Fresh(m, e) && q !in m.rt.owner
    case EnterScheduler(t) =>
      Runs(m, t) && (m.progs[t].op.ToSched? || (m.progs[t].op == Client && m.progs[t].waits != []))
    case FinishWait(t) =>
      && Runs(m, t) && m.progs[t].waits != []
      && (m.progs[t].op == Client || (m.progs[t].op.Waiting? && m.progs[t].op.kind == Plain))
    case AddEvent(t, e, fd) => InClient(m, t) && Fresh(m, e)
    case PushEvent(t) => Runs(m, t) && m.progs[t].op.Pushing?
    case FinishEvent(t) => Runs(m, t) && m.progs[t].op.Waiting? && m.progs[t].op.kind.Direct?
    case SubscribeTo(t, e, q) => InClient(m, t) && Fresh(m, e) && q !in m.rt.owner
    case UnsubscribeFrom(t, e) =>
      && InClient(m, t) && e in m.rt.board.events
      && m.rt.board.events[e].flag.Signal? && m.rt.board.events[e].tc == t
    case LockEntry(t, q) => InClient(m, t) && q in m.rt.owner && m.rt.owner[q] != Some(t)
    case ReadOwner(t) => Runs(m, t) && m.progs[t].op.LockRead?
    case TryCas(t) => Runs(m, t) && m.progs[t].op.LockCas?
    case LockPrepare(t, e) => Runs(m, t) && m.progs[t].op.LockPrep? && Fresh(m, e)
    case LockFinish(t) =>
      && Runs(m, t)
      && (m.progs[t].op.LockDone? || (m.progs[t].op.Waiting? && m.progs[t].op.kind.ForLock?))
    case TryLock(t, q) => InClient(m, t) && q in m.rt.owner
    case UnlockMutex(t, q) => InClient(m, t) && q in m.progs[t].held
    case Die(t, e) =>
      && InClient(m, t) && m.progs[t].waits == [] && m.progs[t].held == {} && Fresh(m, e)
      && forall x :: x in m.rt.board.events && m.rt.board.events[x].tc == t ==> !m.rt.board.events[x].flag.Signal?
    case FreeThread(t) =>
      && t in m.progs && t in m.rt.threads && m.progs[t].op.Dying? && m.progs[t].op.e in m.rt.board.events
      && m.rt.board.events[m.progs[t].op.e].el.None?
  }

  /** The event a finishing call works on. */
  function FinishTarget(p: Prog): Eid
    requires p.op.LockDone? || p.op.Waiting? || p.waits != []
  {
    if p.op.LockDone? then p.op.e
    else if p.op.Waiting? then p.op.e
    else p.waits[0].e
  }

  /** The assertions, dereferences and message exits in the code of the step pass. */
  predicate Safe(m: Machine, step: Step)
    requires Guard(m, step)
  {
    var s := m.rt;
    match step
    case Wake(q) => WaitqSane(s, q)
    case PrepareWait(t, e, q) => t in s.board.refcnt
    case EnterScheduler(t) => Pick(s, t).Some? ==> On(s.board, Pick(s, t).value, Pending(t))
    case FinishWait(t) =>
      && t in s.board.refcnt && FinishTarget(m.progs[t]) in s.board.events
      && !FinishFaults(s, t, FinishTarget(m.progs[t]))
    case AddEvent(t, e, fd) => t in s.board.refcnt
    case PushEvent(t) => m.progs[t].op.e in s.board.events
    case FinishEvent(t) =>
      && m.progs[t].op.e in s.board.events
      && (s.threads[t].woken != Some(m.progs[t].op.e) ==> Listed(s.board, m.progs[t].op.e))
    case SubscribeTo(t, e, q) => t in s.board.refcnt
    case UnsubscribeFrom(t, e) => Listed(s.board, e)
    case LockPrepare(t, e) => t in s.board.refcnt
    case LockFinish(t) =>
      && t in s.board.refcnt && FinishTarget(m.progs[t]) in s.board.events
      && !FinishFaults(s, t, FinishTarget(m.progs[t]))
    case UnlockMutex(t, q) => WaitqSane(s, q) && q in s.owner && s.owner[q].Some?
    case Die(t, e) => t in s.board.refcnt && s.board.refcnt[t] == 0
    case FreeThread(t) => forall x :: x in s.board.events && s.board.events[x].tc == t ==> !Listed(s.board, x)
    case _ => true
  }

  /** A finish that reports an interrupt does not pop the event stack: the enclosing wait goes stale. */
  function AfterInner(waits: seq<Frame>, intr: bool): seq<Frame> {
    if intr && waits != [] then waits[0 := waits[0].(stale := true)] else waits
  }

  /** tc_scheduler is called for the operation in progress, or for the innermost outstanding wait. */
  function SchedOp(p: Prog): Op
    requires p.op.ToSched? || p.waits != []
  {
    if p.op.ToSched? then Waiting(p.op.e, p.op.kind) else Waiting(p.waits[0].e, Plain)
  }

  /** tc_mutex_lock after its read of m_owner */
  function ReadProg(s: State, t: Tid, p: Prog): Prog
    requires p.op.LockRead?
  {
    if !(p.op.m in s.owner && s.owner[p.op.m] == Some(t)) then p.(op := LockCas(p.op.m, p.op.oe))
    else if p.op.oe.None? then Acquired(p, p.op.m)
    else p.(op := LockDone(p.op.m, p.op.oe.value))
  }

  /** tc_mutex_lock after its compare-and-swap */
  function CasProg(s: State, t: Tid, p: Prog): Prog
    requires p.op.LockCas?
  {
    var won := CasWins(s, p.op.m);
    match p.op.oe
    case None => if won then Acquired(p, p.op.m) else p.(op := LockPrep(p.op.m))
    case Some(e) => p.(op := if won then LockDone(p.op.m, e) else ToSched(e, ForLock(p.op.m)))
  }

  /** tc_mutex_lock after tc_waitq_finish_wait */
  function LockFinishProg(p: Prog, intr: bool): Prog
    requires p.op.LockDone? || (p.op.Waiting? && p.op.kind.ForLock?)
  {
    var waits := AfterInner(p.waits, intr);
    if p.op.LockDone? then Acquired(p.(waits := waits), p.op.m)
    else if intr then p.(op := Client, waits := waits)
    else p.(op := LockPrep(p.op.kind.m))
  }

  function Apply(m: Machine, step: Step): Machine
    requires Guard(m, step) && Safe(m, step)
  {
    var s := m.rt;
    match step
    case NewThread(t, e, th) => Machine(Spawn(s, t, e, th), m.progs[t := Prog(Starting(e), [], {})])
    case Begin(t) =>
      Machine(s.(threads := s.threads[t := s.threads[t].(woken := None)]),
              m.progs[t := m.progs[t].(op := Client)])
    case Wake(q) => m.(rt := WakeOne(s, q))
    case FdWake(e) => m.(rt := s.(board := Relocate(s.board, e, Immediate, false)))
    case Dispatch(e) => m.(rt := RunOrQueue(s, e).0)
    case PrepareWait(t, e, q) =>
      Machine(Prepare(s, t, e, q), m.progs[t := m.progs[t].(waits := [Frame(e, q, false)] + m.progs[t].waits)])
    case EnterScheduler(t) =>
      Machine(Schedule(s, t), m.progs[t := m.progs[t].(op := SchedOp(m.progs[t]))])
    case FinishWait(t) =>
      var p := m.progs[t];
      var (s', intr) := Finish(s, t, FinishTarget(p));
      Machine(s', m.progs[t := p.(op := Client, waits := AfterInner(p.waits[1..], intr))])
    case AddEvent(t, e, fd) =>
      Machine(AddDirect(s, t, e, DirectList(fd)), m.progs[t := m.progs[t].(op := Pushing(e, fd))])
    case PushEvent(t) =>
      var op := m.progs[t].op;
      Machine(Push(s, t, op.e), m.progs[t := m.progs[t].(op := ToSched(op.e, Direct(op.fd)))])
    case FinishEvent(t) =>
      var op := m.progs[t].op;
      Machine(FinishDirect(s, t, op.e, op.kind.fd.Some?).0, m.progs[t := m.progs[t].(op := Client)])
    case SubscribeTo(t, e, q) => m.(rt := Subscribe(s, t, e, q))
    case UnsubscribeFrom(t, e) => m.(rt := Unsubscribe(s, e))
    case LockEntry(t, q) =>
      Machine(Cas(s, q, t),
              m.progs[t := if CasWins(s, q) then Acquired(m.progs[t], q)
                           else m.progs[t].(op := LockRead(q, None))])
    case ReadOwner(t) => m.(progs := m.progs[t := ReadProg(s, t, m.progs[t])])
    case TryCas(t) => Machine(Cas(s, m.progs[t].op.m, t), m.progs[t := CasProg(s, t, m.progs[t])])
    case LockPrepare(t, e) =>
      var p := m.progs[t];
      Machine(Prepare(s, t, e, p.op.m), m.progs[t := p.(op := LockRead(p.op.m, Some(e)))])
    case LockFinish(t) =>
      var p := m.progs[t];
      var (s', intr) := Finish(s, t, FinishTarget(p));
      Machine(s', m.progs[t := LockFinishProg(p, intr)])
    case TryLock(t, q) =>
      Machine(Cas(s, q, t), m.progs[t := if CasWins(s, q) then Acquired(m.progs[t], q) else m.progs[t]])
    case UnlockMutex(t, q) =>
      Machine(Unlock(s, q), m.progs[t := m.progs[t].(held := m.progs[t].held - {q})])
    case Die(t, e) => Machine(PostExit(s, t, e), m.progs[t := m.progs[t].(op := Dying(e))])
    case FreeThread(t) => Machine(Discard(s, t), m.progs - {t})
  }

  /** Where a yield and an fd wait put their event. */
  function DirectList(fd: Option<nat>): ListId {
    if fd.Some? then Fd(fd.value) else Immediate
  }

  /** tc_mutex_lock returns RV_OK. */
  function Acquired(p: Prog, q: Qid): Prog {
    p.(op := Client, held := p.held + {q})
  }

  predicate Next(m: Machine, step: Step, m': Machine) {
    Guard(m, step) && Safe(m, step) && m' == Apply(m, step)
  }

  /** The workers' main threads run; no event; some mutexes, all free. */
  ghost predicate Init(m: Machine) {
    && m.rt.board.events == map[] && m.rt.board.lists == map[] && m.rt.board.immediateCount == 0
    && m.progs.Keys == m.rt.threads.Keys == m.rt.board.refcnt.Keys
    && (forall t :: t in m.progs ==> m.progs[t] == Prog(Client, [], {}))
    && (forall t :: t in m.rt.threads ==>
          m.rt.threads[t].running && m.rt.threads[t].top.None? && m.rt.threads[t].woken.None?)
    && (forall t :: t in m.rt.board.refcnt ==> m.rt.board.refcnt[t] == 0)
    && forall q :: q in m.rt.owner ==> m.rt.owner[q].None?
  }

  /** ms[i] goes to ms[i + 1] by steps[i]. */
  ghost predicate Run(ms: seq<Machine>, steps: seq<Step>) {
    && |ms| == |steps| + 1
    && Init(ms[0])
    && forall i :: 0 <= i < |steps| ==> Next(ms[i], steps[i], ms[i + 1])
  }

  // ---------------------------------------------------------------- what every state satisfies

  predicate InWaits(waits: seq<Frame>, e: Eid) {
    exists i :: 0 <= i < |waits| && waits[i].e == e
  }

  /** The event the operation in progress works on, unless it is a client wait. */
  function OpEvent(op: Op): Option<Eid> {
    match op
    case Starting(e) => Some(e)
    case Client => None
    case Pushing(e, _) => Some(e)
    case ToSched(e, k) => Some(e)
    case Waiting(e, k) => if k == Plain then None else Some(e)
    case LockRead(_, oe) => oe
    case LockCas(_, oe) => oe
    case LockPrep(_) => None
    case LockDone(_, e) => Some(e)
    case Dying(_) => None
  }

  /** A listed event is where it was put, or has gone on to immediate or pending. */
  predicate Sourced(b: Board, e: Eid, source: ListId) {
    Listed(b, e) ==>
      var l := b.events[e].el.value;
      l == source || l.Immediate? || l.Pending?
  }

  /** The list the operation in progress has put its event on, unless it is a client wait. */
  function OpSource(op: Op): Option<ListId> {
    match op
    case Starting(_) => Some(Immediate)
    case Pushing(_, fd) => Some(DirectList(fd))
    case ToSched(_, Direct(fd)) => Some(DirectList(fd))
    case Waiting(_, Direct(fd)) => Some(DirectList(fd))
    case _ => if LockOn(op).Some? then Some(Waitq(LockOn(op).value)) else None
  }

  /** What the event stack shows below the operation in progress. */
  ghost predicate Base(waits: seq<Frame>, o: Option<Eid>) {
    waits != [] ==>
      if waits[0].stale then o.Some? && !InWaits(waits, o.value) else o == Some(waits[0].e)
  }

  predicate Own(s: State, t: Tid, e: Eid) {
    e in s.board.events && s.board.events[e].tc == t && s.board.events[e].flag.Ready?
  }

  /** tc_scheduler was called for e: parked with e still listed, or back with e or with a signal. */
  ghost predicate Woken(s: State, t: Tid, e: Eid)
    requires t in s.threads
  {
    var th := s.threads[t];
    if !th.running then Listed(s.board, e)
    else if th.woken == Some(e) then e in s.board.events && s.board.events[e].el.None?
    else
      && Listed(s.board, e)
      && th.woken.Some? && th.woken.value in s.board.events
      && s.board.events[th.woken.value].flag.Signal? && s.board.events[th.woken.value].tc == t
  }

  /** e is pushed and on a list, and nothing has woken the thread since. */
  ghost predicate Prepared(s: State, t: Tid, waits: seq<Frame>, e: Eid)
    requires t in s.threads
  {
    && s.threads[t].running && Listed(s.board, e)
    && s.threads[t].top == Some(e) && Base(waits, s.board.events[e].next)
  }

  ghost predicate OpInv(s: State, t: Tid, p: Prog)
    requires t in s.threads
  {
    var th := s.threads[t];
    match p.op
    case Starting(e) =>
      && p.waits == [] && p.held == {} && th.top.None?
      && (forall x :: x in s.board.events && s.board.events[x].tc == t ==> x == e)
      && e in s.board.events
      && (if th.running then s.board.events[e].el.None? else Listed(s.board, e))
    case Client => th.running && Base(p.waits, th.top)
    case Pushing(e, _) => th.running && Base(p.waits, th.top) && Listed(s.board, e)
    case ToSched(e, k) => k != Plain && Prepared(s, t, p.waits, e)
    case Waiting(e, k) =>
      && Woken(s, t, e)
      && if k == Plain then
           && p.waits != [] && p.waits[0].e == e && Base(p.waits, th.top)
           && (th.running && th.woken == Some(e) ==> th.top == Some(e))
         else th.top == Some(e) && e in s.board.events && Base(p.waits, s.board.events[e].next)
    case LockRead(_, oe) =>
      th.running && (if oe.None? then Base(p.waits, th.top)
                     else th.woken.None? && Prepared(s, t, p.waits, oe.value))
    case LockCas(_, oe) =>
      th.running && (if oe.None? then Base(p.waits, th.top)
                     else th.woken.None? && Prepared(s, t, p.waits, oe.value))
    case LockPrep(_) => th.running && Base(p.waits, th.top)
    case LockDone(_, e) => th.woken.None? && Prepared(s, t, p.waits, e)
    case Dying(e) =>
      && th.running && p.waits == [] && p.held == {}
      && e in s.board.events && s.board.events[e].tc == t && s.board.events[e].flag.Exiting?
      && forall x :: x in s.board.events && s.board.events[x].tc == t && Listed(s.board, x) ==> x == e
  }

  /** Frame i of the outstanding waits. */
  ghost predicate FrameInv(s: State, t: Tid, p: Prog, i: nat)
    requires i < |p.waits|
  {
    var e := p.waits[i].e;
    && Own(s, t, e)
    && (Listed(s.board, e) || (i == 0 && p.op == Waiting(e, Plain)))
    && p.waits[i].q !in s.owner && Sourced(s.board, e, Waitq(p.waits[i].q))
    && Base(p.waits[i + 1..], s.board.events[e].next)
  }

  ghost predicate FramesInv(s: State, t: Tid, p: Prog) {
    && (forall i :: 0 <= i < |p.waits| ==> FrameInv(s, t, p, i))
    && (forall i, j :: 0 <= i < j < |p.waits| ==> p.waits[i].e != p.waits[j].e)
  }

  ghost predicate OpOwn(s: State, t: Tid, p: Prog) {
    OpEvent(p.op).Some? ==>
      && Own(s, t, OpEvent(p.op).value) && !InWaits(p.waits, OpEvent(p.op).value)
      && OpSource(p.op).Some? && Sourced(s.board, OpEvent(p.op).value, OpSource(p.op).value)
  }

  /** Every listed event of the thread is one it will come back to. */
  ghost predicate Covered(s: State, t: Tid, p: Prog) {
    forall x: Eid :: Own(s, t, x) && Listed(s.board, x) ==> OpEvent(p.op) == Some(x) || InWaits(p.waits, x)
  }

  ghost predicate ProgInv(s: State, t: Tid, p: Prog)
    requires t in s.threads
  {
    FramesInv(s, t, p) && OpOwn(s, t, p) && OpInv(s, t, p) && Covered(s, t, p)
  }

  // ---------------------------------------------------------------- mutexes

  function LockOn(op: Op): Option<Qid> {
    match op
    case ToSched(_, ForLock(q)) => Some(q)
    case Waiting(_, ForLock(q)) => Some(q)
    case LockRead(q, _) => Some(q)
    case LockCas(q, _) => Some(q)
    case LockPrep(q) => Some(q)
    case LockDone(q, _) => Some(q)
    case _ => None
  }

  predicate Owns(s: State, q: Qid, t: Tid) {
    q in s.owner && s.owner[q] == Some(t)
  }

  /** A wait for the mutex: still queued exactly while the mutex has not been handed over. */
  ghost predicate HandedIff(s: State, q: Qid, t: Tid, e: Eid) {
    On(s.board, e, Waitq(q)) <==> !Owns(s, q, t)
  }

  ghost predicate LockInv(s: State, t: Tid, p: Prog) {
    && (LockOn(p.op).Some? ==> LockOn(p.op).value in s.owner && LockOn(p.op).value !in p.held)
    && match p.op
       case LockRead(q, None) => !Owns(s, q, t)
       case LockCas(q, None) => !Owns(s, q, t)
       case LockRead(q, Some(e)) => On(s.board, e, Waitq(q)) || Owns(s, q, t)
       case LockCas(q, Some(e)) => HandedIff(s, q, t, e)
       case ToSched(e, ForLock(q)) => HandedIff(s, q, t, e) && (On(s.board, e, Waitq(q)) ==> s.owner[q].Some?)
       case Waiting(e, ForLock(q)) => HandedIff(s, q, t, e) && (On(s.board, e, Waitq(q)) ==> s.owner[q].Some?)
       case LockDone(q, e) => Owns(s, q, t)
       case _ => true
  }

  /** m_owner names a thread that holds the mutex or is being given it. */
  ghost predicate OwnerInv(m: Machine, q: Qid)
    requires q in m.rt.owner
  {
    m.rt.owner[q].Some? ==>
      var t := m.rt.owner[q].value;
      t in m.progs && (q in m.progs[t].held || LockOn(m.progs[t].op) == Some(q))
  }

  ghost predicate HeldInv(s: State, t: Tid, p: Prog) {
    forall q :: q in p.held ==> Owns(s, q, t)
  }

  ghost predicate ThreadInv(s: State, t: Tid, p: Prog) {
    t in s.threads && ProgInv(s, t, p) && LockInv(s, t, p) && HeldInv(s, t, p)
  }

  /** Only the waiters of the mutex are queued on it; an exit event belongs to a dying thread. */
  ghost predicate QueueInv(m: Machine, e: Eid) {
    && (forall q :: q in m.rt.owner && On(m.rt.board, e, Waitq(q)) ==>
                    var t := m.rt.board.events[e].tc;
                    && m.rt.board.events[e].flag.Ready?
                    && t in m.progs && LockOn(m.progs[t].op) == Some(q) && OpEvent(m.progs[t].op) == Some(e))
    && (e in m.rt.board.events && m.rt.board.events[e].flag.Exiting? ==>
          var t := m.rt.board.events[e].tc; t in m.progs && m.progs[t].op == Dying(e))
  }

  /** Signals do not use mutex queues; an exit event is on immediate until a worker takes it. */
  ghost predicate FlagInv(s: State, e: Eid) {
    e in s.board.events ==>
      var ev := s.board.events[e];
      && (ev.flag.Signal? ==> ev.flag.wq !in s.owner)
      && (ev.flag.Exiting? ==> ev.el == None || ev.el == Some(Immediate))
  }

  ghost predicate MInv(m: Machine) {
    && Inv(m.rt)
    && m.progs.Keys == m.rt.threads.Keys
    && (forall t :: t in m.progs ==> ThreadInv(m.rt, t, m.progs[t]))
    && (forall q :: q in m.rt.owner ==> OwnerInv(m, q))
    && (forall e :: QueueInv(m, e))
    && (forall e :: FlagInv(m.rt, e))
  }
}

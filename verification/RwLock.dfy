/**
  The rw-lock (threaded_cr.c, threaded_cr.h): a mutex, a count of readers and a waitqueue for
  the writer that holds the mutex and waits for the readers to go. The reads and updates of the
  count are steps of their own, and so are prepare, park and finish of the writer's wait.

  The mutex does what MutexRuns proves of it: a lock call ends with RV_OK exactly when the
  caller is the owner, an unlock passes the mutex on or frees it, and an interrupt can only end
  a call that was not handed the mutex.
 */
module RwLock {
  import opened Common
  import opened Waits

  type Tid = nat

  datatype Pc =
    | Idle
    | ReadLock       // tc_rw_r_lock in tc_mutex_lock
    | Enter          // has the mutex, before atomic_inc
    | Release        // before the tc_mutex_unlock that ends r_lock, w2r_lock or a failed trylock
    | WriteLock      // tc_rw_w_lock in tc_mutex_lock
    | First          // before the check that precedes the wait loop
    | Prepare        // before tc_waitq_prepare_to_wait
    | Check          // before the check in the loop
    | Park           // before tc_scheduler
    | Parked         // inside tc_scheduler
    | Finish         // before tc_waitq_finish_wait
    | Granted        // check met, before tc_waitq_finish_wait
    | Abort          // interrupted, before tc_mutex_unlock
    | Tried          // trylock has the mutex, before it reads the count
    | Rouse          // tc_rw_r_unlock took the count to zero, before tc_waitq_wakeup_one

  /** holds: how often the thread has the lock for reading; writer: it has it for writing. */
  datatype Thread = Thread(pc: Pc, holds: nat, writer: bool, ev: Ev)

  datatype Lock = Lock(
    owner: Option<Tid>,       // of the mutex
    readers: int,
    queue: seq<Tid>,          // wr_wq
    threads: seq<Thread>,
    fault: bool)              // unlock of a free mutex

  datatype Step =
    | CallRead(t: Tid)
    | CallWrite(t: Tid)
    | TryWrite(t: Tid)
    | Interrupt(t: Tid)                          // the mutex lock ends with RV_INTR
    | DropRead(t: Tid)                           // atomic_dec of tc_rw_r_unlock
    | DropWrite(t: Tid, next: Option<Tid>)       // tc_rw_w_unlock
    | Downgrade(t: Tid)                          // atomic_inc of tc_rw_w2r_lock
    | Unlock(t: Tid, next: Option<Tid>)
    | Resume(t: Tid, intr: bool)                 // tc_scheduler returns
    | Move(t: Tid)                               // any other step of the call under way

  predicate InMutex(pc: Pc) {
    pc == ReadLock || pc == WriteLock
  }

  /** The mutex may be passed on to a thread that waits for it. */
  predicate Heir(l: Lock, t: Tid, next: Option<Tid>) {
    next.Some? ==> next.value < |l.threads| && next.value != t && InMutex(l.threads[next.value].pc)
  }

  predicate Guard(l: Lock, step: Step) {
    && step.t < |l.threads|
    && var p := l.threads[step.t];
       match step
       case CallRead(_) => p.pc == Idle && !p.writer
       case CallWrite(_) => p.pc == Idle && !p.writer
       case TryWrite(_) => p.pc == Idle
       case Interrupt(t) => InMutex(p.pc) && l.owner != Some(t)
       case DropRead(_) => p.pc == Idle && p.holds > 0
       case DropWrite(t, next) => p.pc == Idle && p.writer && Heir(l, t, next)
       case Downgrade(_) => p.pc == Idle && p.writer
       case Unlock(t, next) => (p.pc == Release || p.pc == Abort) && Heir(l, t, next)
       case Resume(_, intr) => p.pc == Parked && (intr || p.ev == Fired)
       case Move(t) =>
         && !(p.pc == Idle || p.pc == Release || p.pc == Abort || p.pc == Parked)
         && (InMutex(p.pc) ==> l.owner == None || l.owner == Some(t))
  }

  function Put(l: Lock, t: Tid, p: Thread): Lock
    requires t < |l.threads|
  {
    l.(threads := l.threads[t := p])
  }

  function Freed(l: Lock, t: Tid, next: Option<Tid>): Lock
    requires t < |l.threads|
  {
    if l.owner == None then l.(fault := true)
    else Put(l, t, l.threads[t].(pc := Idle, writer := false)).(owner := next)
  }

  /** tc_waitq_wakeup_one */
  function WakeOne(l: Lock): Lock {
    if l.queue == [] then l
    else if l.queue[0] < |l.threads|
      then l.(queue := l.queue[1..], threads := l.threads[l.queue[0] := l.threads[l.queue[0]].(ev := Fired)])
    else l.(queue := l.queue[1..])
  }

  function Apply(l: Lock, step: Step): Lock
    requires Guard(l, step)
  {
    var p := l.threads[step.t];
    match step
    case CallRead(t) => Put(l, t, p.(pc := ReadLock))
    case CallWrite(t) => Put(l, t, p.(pc := WriteLock))
    case TryWrite(t) => if l.owner == None then Put(l, t, p.(pc := Tried)).(owner := Some(t)) else l
    case Interrupt(t) => Put(l, t, p.(pc := Idle))
    case DropRead(t) =>
      Put(l, t, p.(holds := p.holds - 1, pc := if l.readers - 1 == 0 then Rouse else Idle)).(readers := l.readers - 1)
    case DropWrite(t, next) => Freed(l, t, next)
    case Downgrade(t) => Put(l, t, p.(pc := Release, holds := p.holds + 1, writer := false)).(readers := l.readers + 1)
    case Unlock(t, next) => Freed(l, t, next)
    case Resume(t, intr) => Put(l, t, p.(pc := Finish))
    case Move(t) => Moved(l, t)
  }

  function Moved(l: Lock, t: Tid): Lock
    requires Guard(l, Move(t))
  {
    var p := l.threads[t];
    match p.pc
    case ReadLock => Put(l, t, p.(pc := Enter)).(owner := Some(t))
    case Enter => Put(l, t, p.(pc := Release, holds := p.holds + 1)).(readers := l.readers + 1)
    case WriteLock => Put(l, t, p.(pc := First)).(owner := Some(t))
    case First => Put(l, t, if l.readers == 0 then p.(pc := Idle, writer := true) else p.(pc := Prepare))
    case Prepare => Put(l, t, p.(pc := Check, ev := Waiting)).(queue := l.queue + [t])
    case Check => Put(l, t, p.(pc := if l.readers == 0 then Granted else Park))
    case Park => Put(l, t, p.(pc := Parked))
    case Finish =>
      Put(l, t, p.(pc := if p.ev == Fired then Prepare else Abort, ev := Off)).(queue := Without(l.queue, t))
    case Granted => Put(l, t, p.(pc := Idle, writer := true, ev := Off)).(queue := Without(l.queue, t))
    case Tried => Put(l, t, if l.readers == 0 then p.(pc := Idle, writer := true) else p.(pc := Release))
    case Rouse => WakeOne(Put(l, t, p.(pc := Idle)))
  }

  ghost predicate Init(l: Lock) {
    && l.owner == None && l.readers == 0 && l.queue == [] && !l.fault
    && forall t :: 0 <= t < |l.threads| ==> l.threads[t] == Thread(Idle, 0, false, Off)
  }

  predicate Next(l: Lock, step: Step, l': Lock) {
    Guard(l, step) && l' == Apply(l, step)
  }

  ghost predicate Run(ls: seq<Lock>, steps: seq<Step>) {
    && |ls| == |steps| + 1 && Init(ls[0])
    && forall i :: 0 <= i < |steps| ==> Next(ls[i], steps[i], ls[i + 1])
  }

  // ---------------------------------------------------------------- what every state satisfies

  /** Has the mutex by where it is. */
  predicate Owning(p: Thread) {
    p.writer || !(p.pc == Idle || p.pc == ReadLock || p.pc == WriteLock || p.pc == Rouse)
  }

  /** The event is in use from prepare to finish. */
  predicate Prepared(pc: Pc) {
    pc == Check || pc == Park || pc == Parked || pc == Finish || pc == Granted
  }

  /** A thread in order; mine: it owns the mutex, rousing: a wakeup of the writer is on its way. */
  predicate Good(p: Thread, mine: bool, readers: int, rousing: bool) {
    && (Owning(p) ==> mine)
    && (mine ==> Owning(p) || InMutex(p.pc))
    && (p.writer ==> p.pc == Idle)
    && (p.writer || p.pc == Granted ==> readers == 0)
    && (Prepared(p.pc) <==> p.ev != Off)
    && ((p.pc == Park || p.pc == Parked) && p.ev == Waiting ==> readers > 0 || rousing)
  }

  ghost predicate ThreadInv(l: Lock, t: Tid)
    requires t < |l.threads|
  {
    Good(l.threads[t], l.owner == Some(t), l.readers, Rousing(l))
  }

  /** A reader is between its decrement to zero and its wakeup. */
  ghost predicate Rousing(l: Lock) {
    exists u :: 0 <= u < |l.threads| && l.threads[u].pc == Rouse
  }

  /** Nobody but the owner of the mutex waits on wr_wq. */
  ghost predicate QueueInv(l: Lock)
    requires l.owner.Some? ==> l.owner.value < |l.threads|
  {
    l.queue == if l.owner.Some? && l.threads[l.owner.value].ev == Waiting then [l.owner.value] else []
  }

  function Holds(threads: seq<Thread>): nat {
    if threads == [] then 0 else Holds(threads[..|threads| - 1]) + threads[|threads| - 1].holds
  }

  ghost predicate Inv(l: Lock) {
    && !l.fault
    && (l.owner.Some? ==> l.owner.value < |l.threads|)
    && l.readers == Holds(l.threads)
    && QueueInv(l)
    && forall t :: 0 <= t < |l.threads| ==> ThreadInv(l, t)
  }

  // ---------------------------------------------------------------- counting

  lemma {:induction false} HoldsUpdate(q: seq<Thread>, t: Tid, p: Thread)
    requires t < |q|
    ensures Holds(q[t := p]) == Holds(q) - q[t].holds + p.holds
  {
    var n := |q| - 1;
    if t == n {
      assert q[t := p][..n] == q[..n];
    } else {
      assert q[t := p][..n] == q[..n][t := p];
      HoldsUpdate(q[..n], t, p);
    }
  }

  lemma {:induction false} HoldsEach(q: seq<Thread>, t: Tid)
    requires t < |q|
    ensures q[t].holds <= Holds(q)
  {
    if t < |q| - 1 { HoldsEach(q[..|q| - 1], t); }
  }

  lemma {:induction false} HoldsNone(q: seq<Thread>)
    requires forall t :: 0 <= t < |q| ==> q[t].holds == 0
    ensures Holds(q) == 0
  {
    if q != [] { HoldsNone(q[..|q| - 1]); }
  }

  // ---------------------------------------------------------------- every step keeps it

  /** A thread as another's step leaves it. */
  lemma ThreadFrame(l: Lock, l': Lock, v: Tid)
    requires v < |l.threads| && v < |l'.threads| && l'.threads[v] == l.threads[v] && ThreadInv(l, v)
    requires l.owner == Some(v) ==> l'.owner == Some(v)
    requires l'.owner == Some(v) && l.owner != Some(v) ==> InMutex(l.threads[v].pc)
    requires l.owner == Some(v) && l.readers == 0 ==> l'.readers == 0
    requires l.owner == Some(v) && (l.readers > 0 || Rousing(l)) ==> l'.readers > 0 || Rousing(l')
    ensures ThreadInv(l', v)
  {
    hide Rousing;
  }

  /** A step of t that leaves count and queue alone and after which whoever roused still does. */
  lemma PutKeeps(l: Lock, l': Lock, t: Tid, q: Thread)
    requires Inv(l) && t < |l.threads| && l.threads[t].pc != Rouse
    requires l' == Put(l, t, q).(owner := l'.owner)
    requires l'.owner == l.owner || (l.owner == None && l'.owner == Some(t))
    requires q.holds == l.threads[t].holds && q.ev == l.threads[t].ev && (q.ev == Waiting ==> l.owner == Some(t))
    requires ThreadInv(l', t)
    ensures Inv(l')
  {
    HoldsUpdate(l.threads, t, q);
    RousingStays(l, l', t);
    hide Rousing, Holds;
    forall v | 0 <= v < |l'.threads| ensures ThreadInv(l', v) {
      if v != t { ThreadFrame(l, l', v); }
    }
    hide ThreadInv;
  }

  lemma RousingStays(l: Lock, l': Lock, t: Tid)
    requires |l'.threads| == |l.threads| && t < |l.threads| && (l.threads[t].pc == Rouse ==> l'.threads[t].pc == Rouse)
    requires forall v :: 0 <= v < |l.threads| && v != t ==> l'.threads[v].pc == l.threads[v].pc
    ensures Rousing(l) ==> Rousing(l')
  {
    if Rousing(l) {
      var u :| 0 <= u < |l.threads| && l.threads[u].pc == Rouse;
      assert l'.threads[u].pc == Rouse;
    }
  }

  /** The steps PutKeeps covers. */
  predicate Plain(l: Lock, step: Step)
    requires Guard(l, step)
  {
    var pc := l.threads[step.t].pc;
    || step.CallRead? || step.CallWrite? || step.TryWrite? || step.Interrupt? || step.Resume?
    || (step.Move? && (InMutex(pc) || pc == First || pc == Check || pc == Park || pc == Tried))
  }

  lemma PlainStep(l: Lock, step: Step)
    requires Guard(l, step) && Plain(l, step) && Inv(l)
    ensures Inv(Apply(l, step))
  {
    var l' := Apply(l, step);
    if l' != l {
      HoldsEach(l.threads, step.t);
      PlainShape(l, step);
      PutKeeps(l, l', step.t, l'.threads[step.t]);
    }
  }

  /** What PutKeeps asks of a step. */
  ghost predicate PutShape(l: Lock, l': Lock, t: Tid) {
    && t < |l.threads| == |l'.threads|
    && l' == Put(l, t, l'.threads[t]).(owner := l'.owner)
    && (l'.owner == l.owner || (l.owner == None && l'.owner == Some(t)))
    && l'.threads[t].holds == l.threads[t].holds && l'.threads[t].ev == l.threads[t].ev
    && (l'.threads[t].ev == Waiting ==> l.owner == Some(t)) && l.threads[t].pc != Rouse
    && ThreadInv(l', t)
  }

  lemma PlainShape(l: Lock, step: Step)
    requires Guard(l, step) && Plain(l, step) && ThreadInv(l, step.t) && l.readers >= 0
    ensures Apply(l, step) == l || PutShape(l, Apply(l, step), step.t)
  {
    if step.Move? {
      PlainMove(l, step.t);
    } else {
      PlainCall(l, step);
    }
  }

  /** What is left to show when a step only puts q in the place of thread t. */
  lemma PutGood(l: Lock, t: Tid, q: Thread, owner: Option<Tid>)
    requires t < |l.threads| && l.threads[t].pc != Rouse
    requires owner == l.owner || (l.owner == None && owner == Some(t))
    requires q.holds == l.threads[t].holds && q.ev == l.threads[t].ev && (q.ev == Waiting ==> l.owner == Some(t))
    requires Good(q, owner == Some(t), l.readers, Rousing(l))
    ensures PutShape(l, Put(l, t, q).(owner := owner), t)
  {
    var l' := Put(l, t, q).(owner := owner);
    RousingStays(l, l', t);
    hide Rousing;
  }

  lemma PlainCall(l: Lock, step: Step)
    requires Guard(l, step) && Plain(l, step) && !step.Move? && ThreadInv(l, step.t)
    ensures Apply(l, step) == l || PutShape(l, Apply(l, step), step.t)
  {
    hide PutShape, Rousing;
    var l' := Apply(l, step);
    if l' != l { PutGood(l, step.t, l'.threads[step.t], l'.owner); }
  }

  lemma PlainMove(l: Lock, t: Tid)
    requires Guard(l, Move(t)) && Plain(l, Move(t)) && ThreadInv(l, t) && l.readers >= 0
    ensures PutShape(l, Moved(l, t), t)
  {
    hide PutShape, Rousing;
    var l' := Moved(l, t);
    PutGood(l, t, l'.threads[t], l'.owner);
  }

  /** Only the owner of the mutex lets a reader in. */
  lemma CountUp(l: Lock, t: Tid, q: Thread)
    requires Inv(l) && t < |l.threads| && Owning(l.threads[t]) && l.threads[t].ev == Off
    requires q == l.threads[t].(pc := Release, holds := l.threads[t].holds + 1, writer := false)
    ensures Inv(Put(l, t, q).(readers := l.readers + 1))
  {
    var l' := Put(l, t, q).(readers := l.readers + 1);
    HoldsUpdate(l.threads, t, q);
    HoldsEach(l.threads, t);
    assert ThreadInv(l, t);
    RousingStays(l, l', t);
    hide Rousing, Holds;
    forall v | 0 <= v < |l'.threads| ensures ThreadInv(l', v) {
      if v != t { ThreadFrame(l, l', v); }
    }
    hide ThreadInv;
  }

  /** The last reader to go is bound to wake the writer. */
  lemma CountDown(l: Lock, t: Tid)
    requires Guard(l, DropRead(t)) && Inv(l)
    ensures Inv(Apply(l, DropRead(t)))
  {
    var l' := Apply(l, DropRead(t));
    HoldsUpdate(l.threads, t, l'.threads[t]);
    HoldsEach(l.threads, t);
    assert ThreadInv(l, t);
    if l'.readers == 0 { assert l'.threads[t].pc == Rouse; }
    assert l'.readers > 0 || Rousing(l');
    hide Rousing, Holds;
    forall v | 0 <= v < |l'.threads| ensures ThreadInv(l', v) {
      if v != t { ThreadFrame(l, l', v); }
    }
    hide ThreadInv;
  }

  lemma FreeStep(l: Lock, t: Tid, next: Option<Tid>)
    requires t < |l.threads| && Heir(l, t, next) && Owning(l.threads[t]) && l.threads[t].ev == Off && Inv(l)
    ensures Inv(Freed(l, t, next))
  {
    var l' := Freed(l, t, next);
    assert ThreadInv(l, t);
    HoldsUpdate(l.threads, t, l'.threads[t]);
    RousingStays(l, l', t);
    hide Rousing, Holds;
    if next.Some? { assert ThreadInv(l, next.value); }
    forall v | 0 <= v < |l'.threads| ensures ThreadInv(l', v) {
      if v != t { ThreadFrame(l, l', v); }
    }
    hide ThreadInv;
  }

  /** Prepare, finish: the owner of the mutex goes on the queue or off it. */
  lemma QueueStep(l: Lock, t: Tid)
    requires Guard(l, Move(t)) && Inv(l) && (var pc := l.threads[t].pc; pc == Prepare || pc == Finish || pc == Granted)
    ensures Inv(Moved(l, t))
  {
    var l' := Moved(l, t);
    assert ThreadInv(l, t);
    HoldsUpdate(l.threads, t, l'.threads[t]);
    RousingStays(l, l', t);
    hide Rousing, Holds;
    forall v | 0 <= v < |l'.threads| ensures ThreadInv(l', v) {
      if v != t { ThreadFrame(l, l', v); }
    }
    hide ThreadInv;
  }

  /** The wakeup reaches the one writer that can be on the queue. */
  lemma RouseStep(l: Lock, t: Tid)
    requires Guard(l, Move(t)) && Inv(l) && l.threads[t].pc == Rouse
    ensures Inv(Moved(l, t))
  {
    hide Holds, Rousing, ThreadInv;
    var l' := WakeOne(Put(l, t, l.threads[t].(pc := Idle)));
    RouseCount(l, t);
    RousedQueue(l, t);
    hide WakeOne, QueueInv;
    forall v | 0 <= v < |l'.threads| ensures ThreadInv(l', v) { RousedThread(l, t, v); }
  }

  /** The queue has at most the owner of the mutex, and it is empty afterwards. */
  lemma RousedQueue(l: Lock, t: Tid)
    requires t < |l.threads| && (l.owner.Some? ==> l.owner.value < |l.threads|) && QueueInv(l)
    ensures var l' := WakeOne(Put(l, t, l.threads[t].(pc := Idle)));
            && |l'.threads| == |l.threads| && l'.owner == l.owner && l'.readers == l.readers && l'.fault == l.fault
            && QueueInv(l')
  {
  }

  lemma RouseCount(l: Lock, t: Tid)
    requires t < |l.threads|
    ensures var l' := WakeOne(Put(l, t, l.threads[t].(pc := Idle)));
            |l'.threads| == |l.threads| && Holds(l'.threads) == Holds(l.threads)
  {
    var l1 := Put(l, t, l.threads[t].(pc := Idle));
    var l' := WakeOne(l1);
    HoldsUpdate(l.threads, t, l1.threads[t]);
    if l.queue != [] && l.queue[0] < |l.threads| {
      HoldsUpdate(l1.threads, l.queue[0], l'.threads[l.queue[0]]);
    }
    hide Holds;
  }

  /** Nobody is left waiting. */
  lemma RousedThread(l: Lock, t: Tid, v: Tid)
    requires t < |l.threads| && v < |l.threads| && l.threads[t].pc == Rouse
    requires (l.owner.Some? ==> l.owner.value < |l.threads|) && QueueInv(l) && ThreadInv(l, v) && ThreadInv(l, t)
    ensures var l' := WakeOne(Put(l, t, l.threads[t].(pc := Idle))); |l'.threads| == |l.threads| && ThreadInv(l', v)
  {
    hide Rousing;
    if l.queue == [] {
      assert l.threads[v].ev != Waiting;
    }
  }

  lemma StepKeeps(l: Lock, step: Step)
    requires Guard(l, step) && Inv(l)
    ensures Inv(Apply(l, step))
  {
    assert ThreadInv(l, step.t);
    hide Inv, QueueInv, Rousing, Holds;
    if Plain(l, step) {
      PlainStep(l, step);
    } else if step.DropRead? {
      CountDown(l, step.t);
    } else if step.DropWrite? || step.Unlock? {
      FreeStep(l, step.t, step.next);
    } else if step.Downgrade? || l.threads[step.t].pc == Enter {
      CountUp(l, step.t, Apply(l, step).threads[step.t]);
    } else if l.threads[step.t].pc == Rouse {
      RouseStep(l, step.t);
    } else {
      QueueStep(l, step.t);
    }
  }

  lemma {:induction false} Reachable(ls: seq<Lock>, steps: seq<Step>, i: nat)
    requires Run(ls, steps) && i < |ls|
    ensures Inv(ls[i])
  {
    if i == 0 {
      HoldsNone(ls[0].threads);
    } else {
      Reachable(ls, steps, i - 1);
      hide Inv;
      assert Next(ls[i - 1], steps[i - 1], ls[i]);
      StepKeeps(ls[i - 1], steps[i - 1]);
    }
  }

  // ---------------------------------------------------------------- what it promises

  /** A writer is alone: no reader holds the lock, and no other thread writes. */
  lemma WriterAlone(ls: seq<Lock>, steps: seq<Step>, i: nat, w: Tid)
    requires Run(ls, steps) && i < |ls| && w < |ls[i].threads| && ls[i].threads[w].writer
    ensures ls[i].readers == 0 && ls[i].owner == Some(w)
    ensures forall t :: 0 <= t < |ls[i].threads| ==> ls[i].threads[t].holds == 0 && (ls[i].threads[t].writer ==> t == w)
  {
    Reachable(ls, steps, i);
    var l := ls[i];
    assert ThreadInv(l, w);
    forall t | 0 <= t < |l.threads| ensures l.threads[t].holds == 0 && (l.threads[t].writer ==> t == w) {
      assert ThreadInv(l, t);
      HoldsEach(l.threads, t);
    }
  }

  /** The count is the number of read holds; the mutex is never unlocked while free. */
  lemma ReadersExact(ls: seq<Lock>, steps: seq<Step>, i: nat)
    requires Run(ls, steps) && i < |ls|
    ensures ls[i].readers == Holds(ls[i].threads) && !ls[i].fault
  {
    Reachable(ls, steps, i);
  }

  /** A writer that sleeps on wr_wq has a reader to wait for, or one that is about to wake it;
      and it is the only one there. */
  lemma NoStrandedWriter(ls: seq<Lock>, steps: seq<Step>, i: nat, w: Tid)
    requires Run(ls, steps) && i < |ls| && w < |ls[i].threads|
    requires ls[i].threads[w].pc == Parked && ls[i].threads[w].ev == Waiting
    ensures ls[i].readers > 0 || Rousing(ls[i])
    ensures ls[i].queue == [w]
  {
    Reachable(ls, steps, i);
    assert ThreadInv(ls[i], w);
  }

  /** w has the mutex in order to write and is not there yet. */
  predicate Claims(l: Lock, w: Tid) {
    && l.owner == Some(w) && w < |l.threads|
    && var pc := l.threads[w].pc;
       pc == First || pc == Prepare || pc == Check || pc == Park || pc == Parked || pc == Finish || pc == Granted || pc == Tried
  }

  lemma ClaimStep(l: Lock, step: Step, w: Tid)
    requires Guard(l, step) && Inv(l) && Claims(l, w)
    ensures Apply(l, step).readers <= l.readers
  {
    assert ThreadInv(l, w) && ThreadInv(l, step.t);
    hide Rousing, Holds, QueueInv;
  }

  /** No reader overtakes a writer that has the mutex: the count only goes down meanwhile. */
  lemma {:induction false} NoOvertaking(ls: seq<Lock>, steps: seq<Step>, i: nat, j: nat, w: Tid)
    requires Run(ls, steps) && i <= j < |ls| && forall k :: i <= k < j ==> Claims(ls[k], w)
    ensures ls[j].readers <= ls[i].readers
    decreases j - i
  {
    hide Inv, Guard, Apply, Claims;
    if i < j {
      NoOvertaking(ls, steps, i, j - 1, w);
      Reachable(ls, steps, j - 1);
      assert Next(ls[j - 1], steps[j - 1], ls[j]);
      ClaimStep(ls[j - 1], steps[j - 1], w);
    }
  }

  // ---------------------------------------------------------------- as its clients see it

  /** What a step does to who reads and who writes: at most one change, for one thread. */
  datatype Act = Nothing | GetsRead(t: Tid) | GivesRead(t: Tid) | GetsWrite(t: Tid) | GivesWrite(t: Tid) | WriteToRead(t: Tid)

  function ActOf(l: Lock, step: Step): Act
    requires Guard(l, step)
  {
    match step
    case DropRead(t) => GivesRead(t)
    case DropWrite(t, _) => GivesWrite(t)
    case Downgrade(t) => WriteToRead(t)
    case Move(t) =>
      (match l.threads[t].pc
       case Enter => GetsRead(t)
       case Granted => GetsWrite(t)
       case First => if l.readers == 0 then GetsWrite(t) else Nothing
       case Tried => if l.readers == 0 then GetsWrite(t) else Nothing
       case _ => Nothing)
    case _ => Nothing
  }

  /** Every step acts on the simple lock, a count of holds and a flag for each thread, as it should: one
      hold more or less, the lock for writing or back, both at once for w2r, and nothing otherwise. */
  lemma ActsSimply(l: Lock, step: Step, u: Tid)
    requires Guard(l, step) && Inv(l) && u < |l.threads|
    ensures u < |Apply(l, step).threads|
    ensures var p, p' := l.threads[u], Apply(l, step).threads[u];
            match ActOf(l, step)
            case GetsRead(t) => p'.holds == (if u == t then p.holds + 1 else p.holds) && p'.writer == p.writer
            case GivesRead(t) => p'.holds == (if u == t then p.holds - 1 else p.holds) && p'.writer == p.writer
            case GetsWrite(t) => p'.holds == p.holds && p'.writer == (u == t || p.writer)
            case GivesWrite(t) => p'.holds == p.holds && p'.writer == (u != t && p.writer)
            case WriteToRead(t) => p'.holds == (if u == t then p.holds + 1 else p.holds) && p'.writer == (u != t && p.writer)
            case Nothing => p'.holds == p.holds && p'.writer == p.writer
  {
    hide Rousing, Holds, QueueInv;
    if u == step.t {
      assert ThreadInv(l, u);
    } else {
      Bystander(l, step, u);
      hide Apply;
    }
  }

  /** Another's step does no more to a thread than wake its event. */
  lemma Bystander(l: Lock, step: Step, u: Tid)
    requires Guard(l, step) && u < |l.threads| && u != step.t
    ensures u < |Apply(l, step).threads|
    ensures var p, p' := l.threads[u], Apply(l, step).threads[u]; p' == p || p' == p.(ev := Fired)
  {
  }

  /** And it does so only when a simple rw-lock would: nobody writes when a reader gets in, nobody reads or
      writes when a writer does. */
  lemma ActsWhenAllowed(ls: seq<Lock>, steps: seq<Step>, i: nat, u: Tid)
    requires Run(ls, steps) && i < |steps| && Next(ls[i], steps[i], ls[i + 1]) && u < |ls[i].threads|
    ensures match ActOf(ls[i], steps[i])
            case GetsRead(t) => !ls[i].threads[u].writer
            case GetsWrite(t) => ls[i].threads[u].holds == 0 && !ls[i].threads[u].writer
            case _ => true
  {
    Reachable(ls, steps, i);
    Reachable(ls, steps, i + 1);
    var l, t := ls[i], steps[i].t;
    assert ThreadInv(l, t) && ThreadInv(l, u);
    ActsSimply(l, steps[i], t);
    ActsSimply(l, steps[i], u);
    if ActOf(l, steps[i]).GetsWrite? { WriterAlone(ls, steps, i + 1, t); }
    hide Apply, Inv, Rousing;
  }

  // ---------------------------------------------------------------- how the calls end

  predicate Reading(pc: Pc) {
    pc == ReadLock || pc == Enter || pc == Release
  }

  lemma ReadStep(l: Lock, step: Step, t: Tid)
    requires Guard(l, step) && Inv(l) && t < |l.threads| && Reading(l.threads[t].pc)
    ensures t < |Apply(l, step).threads|
    ensures var p, p' := l.threads[t], Apply(l, step).threads[t];
            && (p.pc == ReadLock ==> p'.holds == p.holds && (p'.pc == ReadLock || p'.pc == Enter || (p'.pc == Idle && step == Interrupt(t))))
            && (p.pc == Enter ==> (p'.pc == Enter && p'.holds == p.holds) || (p'.pc == Release && p'.holds == p.holds + 1))
            && (p.pc == Release ==> p'.holds == p.holds && (p'.pc == Release || p'.pc == Idle) && step != Interrupt(t))
  {
    hide Rousing, Holds, QueueInv;
    if t == step.t {
      assert ThreadInv(l, t);
    } else {
      Bystander(l, step, t);
      hide Apply;
    }
  }

  /** A tc_rw_r_lock call ends with one hold more, RV_OK, or by an interrupt of its mutex lock with none. */
  lemma {:induction false} ReadCall(ls: seq<Lock>, steps: seq<Step>, i: nat, j: nat, t: Tid)
    requires Run(ls, steps) && i < j < |ls| == |steps| + 1 && steps[i] == CallRead(t) && t < |ls[i].threads|
    requires forall k :: i < k < j ==> t < |ls[k].threads| && Reading(ls[k].threads[t].pc)
    ensures t < |ls[j].threads|
    ensures var p, p' := ls[i].threads[t], ls[j].threads[t];
            && (p'.pc == ReadLock || p'.pc == Enter ==> p'.holds == p.holds)
            && (p'.pc == Release ==> p'.holds == p.holds + 1)
            && (p'.pc == Idle ==> p'.holds == if steps[j - 1] == Interrupt(t) then p.holds else p.holds + 1)
            && (Reading(p'.pc) || p'.pc == Idle)
    decreases j
  {
    hide Run, Inv, Apply, Guard;
    StepAt(ls, steps, j - 1);
    if i < j - 1 {
      ReadCall(ls, steps, i, j - 1, t);
      Reachable(ls, steps, j - 1);
      ReadStep(ls[j - 1], steps[j - 1], t);
    } else {
      ReadBegins(ls[i], t);
    }
  }

  lemma StepAt(ls: seq<Lock>, steps: seq<Step>, k: nat)
    requires Run(ls, steps) && k < |steps|
    ensures |ls| == |steps| + 1 && Guard(ls[k], steps[k]) && ls[k + 1] == Apply(ls[k], steps[k])
  {
    hide Apply, Guard, Init;
    assert Next(ls[k], steps[k], ls[k + 1]);
  }

  lemma ReadBegins(l: Lock, t: Tid)
    requires Guard(l, CallRead(t))
    ensures var l' := Apply(l, CallRead(t)); t < |l'.threads| && l'.threads[t] == l.threads[t].(pc := ReadLock)
  {
  }

  /** In a write call: in the mutex lock, or past it. */
  predicate Writing(pc: Pc) {
    || pc == WriteLock || pc == First || pc == Prepare || pc == Check || pc == Park || pc == Parked || pc == Finish
    || pc == Granted || pc == Abort
  }

  lemma WriteStep(l: Lock, step: Step, t: Tid)
    requires Guard(l, step) && Inv(l) && t < |l.threads| && Writing(l.threads[t].pc)
    ensures t < |Apply(l, step).threads|
    ensures var p, p' := l.threads[t], Apply(l, step).threads[t];
            && (Writing(p'.pc) || p'.pc == Idle)
            && (p'.pc == Idle && p'.writer ==> l.readers == 0 && (p.pc == First || p.pc == Granted))
            && (p'.pc == Idle && !p'.writer ==> (p.pc == WriteLock && step == Interrupt(t)) || p.pc == Abort)
            && (p.pc == First && step == Move(t) && l.readers == 0 ==> p'.pc == Idle && p'.writer)
            && (p.pc == Check && step == Move(t) && l.readers == 0 ==> p'.pc == Granted)
            && (p.pc == Granted && step == Move(t) ==> p'.pc == Idle && p'.writer)
            && (p.pc == Finish && step == Move(t) && p.ev == Fired ==> p'.pc == Prepare)
            && (p'.pc == Abort && p.pc != Abort ==> step == Move(t) && p.pc == Finish && p.ev == Waiting)
            && (p'.pc == Finish && p'.ev == Waiting && p.pc != Finish ==> step == Resume(t, true) && p.pc == Parked)
            && (p.pc == Finish && p'.pc == Finish && p'.ev == Waiting ==> p.ev == Waiting)
  {
    hide Rousing, Holds, QueueInv;
    if t == step.t {
      assert ThreadInv(l, t);
    } else {
      Bystander(l, step, t);
      hide Apply;
    }
  }

  /** Where a thread at Finish or Abort was one step earlier. */
  lemma Earlier(ls: seq<Lock>, steps: seq<Step>, i: nat, t: Tid)
    requires Run(ls, steps) && i < |ls| && t < |ls[i].threads| && (ls[i].threads[t].pc == Finish || ls[i].threads[t].pc == Abort)
    ensures 0 < i <= |steps| && t < |ls[i - 1].threads|
    ensures var p, p' := ls[i - 1].threads[t], ls[i].threads[t];
            && (p'.pc == Abort && p.pc != Abort ==> steps[i - 1] == Move(t) && p.pc == Finish && p.ev == Waiting)
            && (p'.pc == Finish && p'.ev == Waiting && p.pc != Finish ==> steps[i - 1] == Resume(t, true))
            && (p.pc == Finish && p'.pc == Finish && p'.ev == Waiting ==> p.ev == Waiting)
  {
    hide Inv, Apply, Guard, Writing;
    if i > 0 {
      assert i - 1 < |steps|;
      hide Run;
      StepAt(ls, steps, i - 1);
      SameThreads(ls, steps, i - 1);
      Reachable(ls, steps, i - 1);
      StepsIn(ls[i - 1], steps[i - 1], t);
      WriteStep(ls[i - 1], steps[i - 1], t);
    }
  }

  /** A writer whose wait ends without its event having been woken was resumed by a signal. */
  lemma {:induction false} ResumedBySignal(ls: seq<Lock>, steps: seq<Step>, i: nat, t: Tid) returns (h: nat)
    requires Run(ls, steps) && i < |ls| && t < |ls[i].threads| && ls[i].threads[t].pc == Finish && ls[i].threads[t].ev == Waiting
    ensures h < i && steps[h] == Resume(t, true)
    ensures forall k :: h < k <= i ==> t < |ls[k].threads| && ls[k].threads[t].pc == Finish && ls[k].threads[t].ev == Waiting
  {
    hide Run;
    Earlier(ls, steps, i, t);
    if ls[i - 1].threads[t].pc == Finish {
      h := ResumedBySignal(ls, steps, i - 1, t);
    } else {
      h := i - 1;
    }
  }

  lemma SameThreads(ls: seq<Lock>, steps: seq<Step>, i: nat)
    requires Run(ls, steps) && i < |steps|
    ensures |ls[i + 1].threads| == |ls[i].threads|
  {
    assert Next(ls[i], steps[i], ls[i + 1]);
  }

  /** Whoever is at Finish or Abort was in a write call one step earlier. */
  lemma StepsIn(l: Lock, step: Step, t: Tid)
    requires Guard(l, step) && t < |l.threads|
    ensures t < |Apply(l, step).threads|
    ensures var pc' := Apply(l, step).threads[t].pc; pc' == Finish || pc' == Abort ==> Writing(l.threads[t].pc)
  {
    if t != step.t {
      Bystander(l, step, t);
      hide Apply;
    } else if step.Move? {
      hide Moved;
      MovesIn(l, t);
    } else {
      hide Moved, WakeOne, Without;
    }
  }

  lemma MovesIn(l: Lock, t: Tid)
    requires Guard(l, Move(t))
    ensures t < |Moved(l, t).threads|
    ensures var pc' := Moved(l, t).threads[t].pc; pc' == Finish || pc' == Abort ==> Writing(l.threads[t].pc)
  {
    hide WakeOne, Without;
    if l.threads[t].pc == Rouse { RousePc(l, t); }
  }

  lemma RousePc(l: Lock, t: Tid)
    requires t < |l.threads|
    ensures var l' := WakeOne(Put(l, t, l.threads[t].(pc := Idle))); t < |l'.threads| && l'.threads[t].pc == Idle
  {
  }

  /** tc_rw_w_lock gives up after getting the mutex only because a signal has ended its wait for the readers
      while nobody had woken it. */
  lemma {:induction false} AbortsOnSignal(ls: seq<Lock>, steps: seq<Step>, i: nat, t: Tid) returns (h: nat, g: nat)
    requires Run(ls, steps) && i < |ls| && t < |ls[i].threads| && ls[i].threads[t].pc == Abort
    ensures h < g < i && steps[h] == Resume(t, true) && steps[g] == Move(t)
    ensures forall k :: h < k <= g ==> t < |ls[k].threads| && ls[k].threads[t].pc == Finish && ls[k].threads[t].ev == Waiting
    ensures forall k :: g < k <= i ==> t < |ls[k].threads| && ls[k].threads[t].pc == Abort
  {
    hide Run;
    Earlier(ls, steps, i, t);
    if ls[i - 1].threads[t].pc == Abort {
      h, g := AbortsOnSignal(ls, steps, i - 1, t);
    } else {
      g := i - 1;
      h := ResumedBySignal(ls, steps, g, t);
    }
  }

  /** How tc_rw_w_lock ends: with the lock, when it has seen that there are no readers; or without it, by an
      interrupt of the mutex lock or of the wait. */
  lemma WriteCallEnds(ls: seq<Lock>, steps: seq<Step>, i: nat, t: Tid)
    requires Run(ls, steps) && i < |steps| && t < |ls[i].threads| && Writing(ls[i].threads[t].pc)
    requires t < |ls[i + 1].threads| && ls[i + 1].threads[t].pc == Idle
    ensures ls[i + 1].threads[t].writer ==> ls[i].readers == 0
    ensures !ls[i + 1].threads[t].writer ==>
              || (ls[i].threads[t].pc == WriteLock && steps[i] == Interrupt(t))
              || (exists h :: 0 <= h < i && steps[h] == Resume(t, true))
  {
    assert Next(ls[i], steps[i], ls[i + 1]);
    Reachable(ls, steps, i);
    hide Inv, Apply;
    WriteStep(ls[i], steps[i], t);
    if ls[i].threads[t].pc == Abort {
      var h, g := AbortsOnSignal(ls, steps, i, t);
    }
  }

  /** tc_rw_w_trylock: without the mutex it fails at once; with it, it has the lock exactly if it then sees no
      readers, and otherwise gives the mutex back. */
  lemma TryCall(l: Lock, t: Tid)
    requires t < |l.threads| && Inv(l)
    ensures Guard(l, TryWrite(t)) ==>
              var l' := Apply(l, TryWrite(t));
              if l.owner == None then l'.owner == Some(t) && l'.threads[t].pc == Tried else l' == l
    ensures Guard(l, Move(t)) && l.threads[t].pc == Tried ==>
              var p' := Apply(l, Move(t)).threads[t];
              if l.readers == 0 then p'.writer && p'.pc == Idle else !p'.writer && p'.pc == Release
  {
    assert ThreadInv(l, t);
    hide Rousing, Holds, QueueInv;
  }
}

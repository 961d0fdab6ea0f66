/** What the runs promise about wakeups, dispatch and signals. */
module Wakeups {
  import opened Common
  import opened Events
  import opened Runtime
  import opened Machine
  import opened ClientSteps
  import opened Runs
  import Dispatching
  import FdEvents

  predicate Parked(m: Machine, t: Tid) {
    t in m.progs && t in m.rt.threads && !m.rt.threads[t].running
  }

  /** Parked for a wait in which a nested wait was interrupted. */
  predicate StaleWait(p: Prog) {
    p.op.Waiting? && p.op.kind == Plain && p.waits != [] && p.waits[0].stale
  }

  // ---------------------------------------------------------------- conservation

  /** el names the only list that holds the event; the counters are exact and never negative. */
  lemma Conservation(ms: seq<Machine>, steps: seq<Step>, i: nat)
    requires Run(ms, steps) && i < |ms|
    ensures var b := ms[i].rt.board;
            && (forall l, e :: e in At(b, l) <==> On(b, e, l))
            && (forall l :: Distinct(At(b, l)))
            && b.immediateCount == |At(b, Immediate)|
            && (forall t :: t in ms[i].rt.threads ==> t in b.refcnt && b.refcnt[t] == |ListedOf(b, t)|)
            && (forall e :: On(b, e, Immediate) ==> b.immediateCount - 1 >= 0)
  {
    Reachable(ms, steps, i);
    var b := ms[i].rt.board;
    forall l, e ensures e in At(b, l) <==> On(b, e, l) {
      assert ListNamed(b, l);
      if On(b, e, l) { assert Listed(b, e); }
    }
    forall l ensures Distinct(At(b, l)) { assert ListNamed(b, l); }
    forall t | t in ms[i].rt.threads ensures t in b.refcnt && b.refcnt[t] == |ListedOf(b, t)| {
      assert RefcntOf(b, t);
    }
  }

  /** The exit event of a thread is the last of its events on a list, so freeing the thread leaves none behind. */
  lemma ExitIsLast(ms: seq<Machine>, steps: seq<Step>, i: nat)
    requires Run(ms, steps) && i < |ms|
    ensures Dispatching.ExitsAlone(ms[i].rt)
  {
    hide Run;
    Reachable(ms, steps, i);
    var m := ms[i];
    hide Inv;
    forall e, x | Listed(m.rt.board, e) && m.rt.board.events[e].flag.Exiting? && Listed(m.rt.board, x) && x != e
      ensures m.rt.board.events[x].tc != m.rt.board.events[e].tc
    {
      assert QueueInv(m, e);
      DyingLists(m.rt, m.rt.board.events[e].tc, m.progs[m.rt.board.events[e].tc]);
    }
  }

  lemma DyingLists(s: State, t: Tid, p: Prog)
    requires ThreadInv(s, t, p) && p.op.Dying?
    ensures forall x :: x in s.board.events && s.board.events[x].tc == t && Listed(s.board, x) ==> x == p.op.e
  {
  }

  // ---------------------------------------------------------------- no lost wakeup

  /** The list on which the event of the wait was put. */
  function Source(p: Prog): ListId
    requires p.op.Starting? || (p.op.Waiting? && (p.op.kind == Plain ==> p.waits != []))
  {
    if p.op.Waiting? && p.op.kind == Plain then Waitq(p.waits[0].q) else OpSource(p.op).value
  }

  /**
    A parked thread's awaited event is on the list it was put on or on immediate; its pending list
    holds nothing that tc_scheduler would have returned with.  Only the event of a stale wait can
    be on pending itself.
   */
  lemma NoLostWakeup(ms: seq<Machine>, steps: seq<Step>, i: nat, t: Tid)
    requires Run(ms, steps) && i < |ms| && Parked(ms[i], t)
    ensures var m := ms[i];
            var p := m.progs[t];
            && (p.op.Starting? || (p.op.Waiting? && (p.op.kind == Plain ==> p.waits != [] && p.waits[0].e == p.op.e)))
            && p.op.e in m.rt.board.events && m.rt.board.events[p.op.e].tc == t
            && (|| On(m.rt.board, p.op.e, Source(p)) || On(m.rt.board, p.op.e, Immediate)
                || (StaleWait(p) && On(m.rt.board, p.op.e, Pending(t))))
            && (match p.op
                case Waiting(e, Direct(Some(f))) => On(m.rt.board, e, Fd(f)) || On(m.rt.board, e, Immediate)
                case Waiting(e, Direct(None)) => On(m.rt.board, e, Immediate)
                case Waiting(e, ForLock(q)) => On(m.rt.board, e, Waitq(q)) || On(m.rt.board, e, Immediate)
                case Waiting(e, Plain) => StaleWait(p) || On(m.rt.board, e, Waitq(p.waits[0].q)) || On(m.rt.board, e, Immediate)
                case Starting(e) => On(m.rt.board, e, Immediate)
                case _ => true)
            && (forall x :: On(m.rt.board, x, Pending(t)) ==>
                  !m.rt.board.events[x].flag.Signal? && m.rt.threads[t].top != Some(x))
  {
    hide Run;
    var m, p := ms[i], ms[i].progs[t];
    Reachable(ms, steps, i);
    AwaitedSourced(m.rt, t, p);
    EventThread(m.rt, p.op.e);
    assert ParkedRight(m.rt, t);
    hide Inv, ThreadInv;
  }

  lemma AwaitedSourced(s: State, t: Tid, p: Prog)
    requires ThreadInv(s, t, p) && !s.threads[t].running
    ensures p.op.Starting? || (p.op.Waiting? && (p.op.kind == Plain ==> p.waits != [] && p.waits[0].e == p.op.e))
    ensures Own(s, t, p.op.e) && Listed(s.board, p.op.e) && Sourced(s.board, p.op.e, Source(p))
    ensures p.op.Starting? ==> forall x :: x in s.board.events && s.board.events[x].tc == t ==> x == p.op.e
    ensures p.op.Waiting? && !StaleWait(p) ==> s.threads[t].top == Some(p.op.e)
    ensures p.op.Starting? ==> s.threads[t].top.None?
  {
    if p.waits != [] { assert FrameInv(s, t, p, 0); }
  }

  /** tc_waitq_wakeup_all on the queue a parked thread waits on leaves its event on immediate, from
      where it reaches the thread by WakeupReaches. */
  lemma WokenByItsQueue(ms: seq<Machine>, steps: seq<Step>, i: nat, t: Tid)
    requires Run(ms, steps) && i < |ms| && Parked(ms[i], t)
    requires ms[i].progs[t].op.Waiting? && ms[i].progs[t].op.kind == Plain && !StaleWait(ms[i].progs[t])
    ensures ms[i].progs[t].waits != []
    ensures On(WakeAll(ms[i].rt, ms[i].progs[t].waits[0].q).board, ms[i].progs[t].op.e, Immediate)
  {
    NoLostWakeup(ms, steps, i, t);
    Reachable(ms, steps, i);
    hide Run, Inv, ThreadInv;
    WakeAllSpec(ms[i].rt, ms[i].progs[t].waits[0].q);
  }

  /** wakeup_all_events on the fd a parked thread waits for leaves its event on immediate, or hands it to
      run_or_queue, which sets the thread going. */
  lemma WokenByItsFd(ms: seq<Machine>, steps: seq<Step>, i: nat, t: Tid, f: nat, nr: int)
    requires Run(ms, steps) && i < |ms| && Parked(ms[i], t)
    requires ms[i].progs[t].op.Waiting? && ms[i].progs[t].op.kind == Direct(Some(f))
    ensures var e := ms[i].progs[t].op.e;
            var (s', r) := FdEvents.WakeFd(ms[i].rt, f, nr);
            || On(s'.board, e, Immediate)
            || (r == Some(e) && Runnable(s', e) && RunOrQueue(s', e).1 == Some(t))
  {
    NoLostWakeup(ms, steps, i, t);
    Reachable(ms, steps, i);
    hide Run, Inv, ThreadInv;
    var e := ms[i].progs[t].op.e;
    FdEvents.WakeFdExact(ms[i].rt, f, nr, e);
    StaleTop(ms[i].rt, t, ms[i].progs[t]);
    hide FdEvents.WakeFd, MInv;
  }

  /** The event stack shows the awaited event exactly when the wait is not stale. */
  lemma StaleTop(s: State, t: Tid, p: Prog)
    requires ThreadInv(s, t, p) && p.op.Waiting?
    ensures s.threads[t].top.Some? && (s.threads[t].top == Some(p.op.e) <==> !StaleWait(p))
    ensures Own(s, t, p.op.e)
  {
    if p.waits != [] { assert FrameInv(s, t, p, 0); }
  }

  /** The wakeup of a parked thread reaches it exactly when its wait is not stale. */
  lemma WakeupReaches(ms: seq<Machine>, steps: seq<Step>, i: nat, t: Tid)
    requires Run(ms, steps) && i < |ms| && Parked(ms[i], t)
    requires ms[i].progs[t].op.Waiting? && On(ms[i].rt.board, ms[i].progs[t].op.e, Immediate)
    ensures ms[i].rt.board.events[ms[i].progs[t].op.e].tc == t
    ensures var m := ms[i];
            var (s', tc) := RunOrQueue(m.rt, m.progs[t].op.e);
            if StaleWait(m.progs[t]) then
              tc.None? && On(s'.board, m.progs[t].op.e, Pending(t)) && !s'.threads[t].running
            else
              tc == Some(t) && s'.threads[t].running && s'.threads[t].woken == Some(m.progs[t].op.e)
  {
    hide Run, Inv, ThreadInv;
    Reachable(ms, steps, i);
    StaleTop(ms[i].rt, t, ms[i].progs[t]);
    hide StaleWait;
  }

  // ---------------------------------------------------------------- single dispatch

  /** The step takes t from parked to running: a worker got it from run_or_queue. */
  predicate Dispatches(m: Machine, m': Machine, t: Tid) {
    Parked(m, t) && t in m'.rt.threads && m'.rt.threads[t].running
  }

  /** run_or_queue hands out a thread to run exactly when it takes it from parked to running. */
  lemma DispatchIsRunOrQueue(ms: seq<Machine>, steps: seq<Step>, i: nat, e: Eid, t: Tid)
    requires Run(ms, steps) && i < |ms| && Runnable(ms[i].rt, e)
    ensures var m := ms[i];
            RunOrQueue(m.rt, e).1 == Some(t) && !m.rt.board.events[e].flag.Exiting? <==>
              m.rt.board.events[e].tc == t && Dispatches(m, m.(rt := RunOrQueue(m.rt, e).0), t)
  {
    hide Run, Inv, ThreadInv;
    Reachable(ms, steps, i);
  }

  /** Only the thread's own call of tc_scheduler parks it; only run_or_queue sets it going. */
  lemma RunningStep(m: Machine, step: Step, t: Tid)
    requires Guard(m, step) && Safe(m, step) && t in m.progs && t in m.rt.threads && step != FreeThread(t)
    ensures var m' := Apply(m, step);
            && t in m'.progs && t in m'.rt.threads
            && (m.rt.threads[t].running && !m'.rt.threads[t].running ==> step == EnterScheduler(t))
            && (!m.rt.threads[t].running && m'.rt.threads[t].running ==>
                  step.Dispatch? && RunOrQueue(m.rt, step.e).1 == Some(t))
  {
  }

  lemma {:induction false} KeepsRunning(ms: seq<Machine>, steps: seq<Step>, i: nat, j: nat, t: Tid)
    requires Run(ms, steps) && i <= j < |ms| && t in ms[i].progs && t in ms[i].rt.threads && ms[i].rt.threads[t].running
    requires forall k :: i <= k < j ==> steps[k] != EnterScheduler(t) && steps[k] != FreeThread(t)
    ensures t in ms[j].progs && t in ms[j].rt.threads && ms[j].rt.threads[t].running
    decreases j
  {
    if i < j {
      KeepsRunning(ms, steps, i, j - 1, t);
      assert Next(ms[j - 1], steps[j - 1], ms[j]);
      RunningStep(ms[j - 1], steps[j - 1], t);
    }
  }

  /** Between two dispatches of a thread it has been in tc_scheduler, unless it was freed and another took its place. */
  lemma SingleDispatch(ms: seq<Machine>, steps: seq<Step>, i: nat, j: nat, t: Tid)
    requires Run(ms, steps) && i < j < |steps|
    requires Dispatches(ms[i], ms[i + 1], t) && Dispatches(ms[j], ms[j + 1], t)
    ensures exists k :: i < k < j && (steps[k] == EnterScheduler(t) || steps[k] == FreeThread(t))
  {
    if forall k :: i < k < j ==> steps[k] != EnterScheduler(t) && steps[k] != FreeThread(t) {
      assert Next(ms[i], steps[i], ms[i + 1]);
      RunningStep(ms[i], steps[i], t);
      KeepsRunning(ms, steps, i + 1, j, t);
      assert false;
    }
  }

  // ---------------------------------------------------------------- signals

  /** Fired, and not yet delivered. */
  predicate SignalActive(b: Board, e: Eid) {
    && e in b.events && b.events[e].flag.Signal?
    && (b.events[e].el == Some(Immediate) || b.events[e].el == Some(Pending(b.events[e].tc)))
  }

  /** The thread was woken with the signal, whose event is back on the subscription list. */
  predicate SignalDelivered(m: Machine, e: Eid) {
    && e in m.rt.board.events && m.rt.board.events[e].flag.Signal?
    && On(m.rt.board, e, Waitq(m.rt.board.events[e].flag.wq))
    && m.rt.board.events[e].tc in m.rt.threads
    && m.rt.threads[m.rt.board.events[e].tc].woken == Some(e)
  }

  /** From subscribe to unsubscribe the event is on exactly one of its three lists. */
  lemma SubscriptionPlaced(ms: seq<Machine>, steps: seq<Step>, i: nat, e: Eid)
    requires Run(ms, steps) && i < |ms| && e in ms[i].rt.board.events && ms[i].rt.board.events[e].flag.Signal?
    ensures var b := ms[i].rt.board;
            var ev := b.events[e];
            && (e in At(b, Waitq(ev.flag.wq)) || e in At(b, Immediate) || e in At(b, Pending(ev.tc)))
            && forall l :: e in At(b, l) <==> ev.el == Some(l)
  {
    Reachable(ms, steps, i);
    var b := ms[i].rt.board;
    assert SignalPlaced(b, e) && Listed(b, e);
    forall l ensures e in At(b, l) <==> b.events[e].el == Some(l) {
      assert ListNamed(b, l);
    }
  }

  /** The event a finishing step takes off its list. */
  function Target(m: Machine, step: Step): Option<Eid>
    requires Guard(m, step)
  {
    match step
    case FinishWait(t) => Some(FinishTarget(m.progs[t]))
    case LockFinish(t) => Some(FinishTarget(m.progs[t]))
    case FinishEvent(t) => Some(m.progs[t].op.e)
    case _ => None
  }

  ghost predicate TargetReady(m: Machine, step: Step)
    requires Guard(m, step)
  {
    Target(m, step).Some? ==> Own(m.rt, step.t, Target(m, step).value)
  }

  lemma TargetOwn(m: Machine, step: Step)
    requires Guard(m, step) && MInv(m)
    ensures TargetReady(m, step)
  {
    hide Inv;
    hide ThreadInv;
    match step
    case FinishWait(t) => FinishOwn(m.rt, t, m.progs[t]);
    case LockFinish(t) => OpEventOwn(m.rt, t, m.progs[t]);
    case FinishEvent(t) => OpEventOwn(m.rt, t, m.progs[t]);
    case _ =>
  }

  /** What a step may do to an active signal: keep it active, deliver it, or unsubscribe it. */
  lemma SignalStep(m: Machine, step: Step, e: Eid)
    requires Guard(m, step) && Safe(m, step) && SignalActive(m.rt.board, e) && TargetReady(m, step)
    ensures || SignalActive(Apply(m, step).rt.board, e)
            || SignalDelivered(Apply(m, step), e)
            || (step.UnsubscribeFrom? && step.e == e)
  {
    hide Finish;
    hide FinishFaults;
    hide RunOrQueue;
    hide Schedule;
    hide Pick;
    match step
    case FinishWait(u) => FinishSignal(m.rt, u, FinishTarget(m.progs[u]), e);
    case LockFinish(u) => FinishSignal(m.rt, u, FinishTarget(m.progs[u]), e);
    case Dispatch(x) => DispatchSignal(m.rt, x, e);
    case EnterScheduler(u) => ScheduleSignal(m.rt, u, e);
    case Wake(q) =>
    case FdWake(x) =>
    case FinishEvent(u) =>
    case UnsubscribeFrom(u, x) =>
    case UnlockMutex(u, q) =>
    case FreeThread(u) =>
    case _ => QuietSignal(m, step, e);
  }

  lemma QuietSignal(m: Machine, step: Step, e: Eid)
    requires Guard(m, step) && Safe(m, step) && SignalActive(m.rt.board, e)
    requires step.NewThread? || step.Begin? || step.PrepareWait? || step.AddEvent? || step.PushEvent?
             || step.SubscribeTo? || step.LockEntry? || step.ReadOwner? || step.TryCas? || step.LockPrepare?
             || step.TryLock? || step.Die?
    ensures SignalActive(Apply(m, step).rt.board, e)
  {
    hide Finish;
    hide FinishFaults;
    hide RunOrQueue;
    hide Schedule;
    hide Pick;
  }

  lemma DispatchSignal(s: State, x: Eid, e: Eid)
    requires Runnable(s, x) && SignalActive(s.board, e)
    ensures var s' := RunOrQueue(s, x).0;
            SignalActive(s'.board, e) || SignalDelivered(Machine(s', map[]), e)
  {
  }

  lemma ScheduleSignal(s: State, t: Tid, e: Eid)
    requires t in s.threads && SignalActive(s.board, e)
    requires Pick(s, t).Some? ==> On(s.board, Pick(s, t).value, Pending(t))
    ensures var s' := Schedule(s, t);
            SignalActive(s'.board, e) || SignalDelivered(Machine(s', map[]), e)
  {
    hide Pick;
  }

  lemma FinishSignal(s: State, t: Tid, e: Eid, x: Eid)
    requires t in s.threads && t in s.board.refcnt && !FinishFaults(s, t, e)
    requires SignalActive(s.board, x) && Own(s, t, e)
    ensures SignalActive(Finish(s, t, e).0.board, x)
  {
    FinishEffect(s, t, e);
    hide Finish;
  }

  /**
    A fired signal stays on immediate or on its owner's pending list until the owner
    is woken with it or unsubscribes.
   */
  lemma {:induction false} SignalNotLost(ms: seq<Machine>, steps: seq<Step>, i: nat, j: nat, e: Eid)
    requires Run(ms, steps) && i <= j < |ms| && SignalActive(ms[i].rt.board, e)
    requires forall k :: i < k <= j ==> !SignalDelivered(ms[k], e)
    requires forall k :: i <= k < j ==> !(steps[k].UnsubscribeFrom? && steps[k].e == e)
    ensures SignalActive(ms[j].rt.board, e)
    decreases j
  {
    hide MInv;
    hide SignalActive;
    hide SignalDelivered;
    hide Guard;
    hide Safe;
    hide Apply;
    hide TargetReady;
    if i < j {
      SignalNotLost(ms, steps, i, j - 1, e);
      Reachable(ms, steps, j - 1);
      assert Next(ms[j - 1], steps[j - 1], ms[j]);
      TargetOwn(ms[j - 1], steps[j - 1]);
      SignalStep(ms[j - 1], steps[j - 1], e);
    }
  }

  /** The event the coming tc_scheduler is called for. */
  function Awaited(p: Prog): Eid
    requires p.op.ToSched? || p.waits != []
  {
    if p.op.ToSched? then p.op.e else p.waits[0].e
  }

  /** An awaited event that has fired already makes tc_scheduler return with it, whatever signals are
      pending: waits, yields, fd waits and mutex waits alike, unless the wait is stale. */
  lemma AwaitedFirst(ms: seq<Machine>, steps: seq<Step>, i: nat, t: Tid)
    requires Run(ms, steps) && i < |steps| && steps[i] == EnterScheduler(t)
    requires Next(ms[i], steps[i], ms[i + 1])
    requires var p := ms[i].progs[t];
             On(ms[i].rt.board, Awaited(p), Pending(t)) && (p.op.ToSched? || !p.waits[0].stale)
    ensures t in ms[i + 1].rt.threads
    ensures ms[i + 1].rt.threads[t].running && ms[i + 1].rt.threads[t].woken == Some(Awaited(ms[i].progs[t]))
  {
    Reachable(ms, steps, i);
    hide Run, Inv, ThreadInv;
    AwaitedTop(ms[i].rt, t, ms[i].progs[t]);
    PickSpec(ms[i].rt, t);
    hide Pick, MInv;
  }

  lemma AwaitedTop(s: State, t: Tid, p: Prog)
    requires ThreadInv(s, t, p) && (p.op.ToSched? || (p.op == Client && p.waits != [] && !p.waits[0].stale))
    ensures s.threads[t].top == Some(Awaited(p))
  {
  }

  lemma TopShown(s: State, t: Tid, p: Prog)
    requires ThreadInv(s, t, p) && (p.op.ToSched? || (p.op == Client && p.waits != []))
    ensures s.threads[t].top.Some?
  {
  }

  /** A signal on the pending list makes the next tc_scheduler return at once, woken with the
      awaited event or with a signal. */
  lemma DeferredSignalReturns(ms: seq<Machine>, steps: seq<Step>, i: nat, t: Tid, e: Eid)
    requires Run(ms, steps) && i < |ms| && Guard(ms[i], EnterScheduler(t))
    requires On(ms[i].rt.board, e, Pending(t)) && ms[i].rt.board.events[e].flag.Signal?
    ensures Pick(ms[i].rt, t).Some?
    ensures var m := ms[i];
            var x := Pick(m.rt, t).value;
            On(m.rt.board, x, Pending(t)) && (m.rt.board.events[x].flag.Signal? || m.rt.threads[t].top == Some(x))
  {
    hide Run, Inv, ThreadInv;
    Reachable(ms, steps, i);
    var m := ms[i];
    PickSpec(m.rt, t);
    TopShown(m.rt, t, m.progs[t]);
    hide Pick;
  }

  /** Woken by a signal: what finish makes of an awaited event that has fired as well. */
  lemma SignalRequeued(s: State, t: Tid, e: Eid)
    requires t in s.threads && t in s.board.refcnt && e in s.board.events
    requires !FinishFaults(s, t, e) && !Straight(s, t, e)
    ensures var (s', intr) := Finish(s, t, e);
            && (intr <==> !Active(s, t, e))
            && (!intr ==> On(s'.board, s.threads[t].woken.value, Pending(t)))
  {
  }

  /**
    Back from tc_scheduler, a wait that is not stale reports an interrupt exactly when its event
    is still on the list it was put on: a wakeup that came in time always counts. If a signal
    woke the thread nevertheless, the signal is back on the pending list.
   */
  lemma FinishReports(ms: seq<Machine>, steps: seq<Step>, i: nat, t: Tid)
    requires Run(ms, steps) && i < |ms| && t in ms[i].progs && t in ms[i].rt.threads && ms[i].rt.threads[t].running
    requires var p := ms[i].progs[t]; p.op.Waiting? && !p.op.kind.Direct? && !StaleWait(p)
    ensures ms[i].progs[t].op.kind == Plain ==> ms[i].progs[t].waits != []
    ensures var s, e := ms[i].rt, ms[i].progs[t].op.e;
            && t in s.board.refcnt && e in s.board.events && !FinishFaults(s, t, e)
            && var (s', intr) := Finish(s, t, e);
               && (intr <==> On(s.board, e, Source(ms[i].progs[t])))
               && (!intr && s.threads[t].woken != Some(e) ==>
                     s.threads[t].woken.Some? && On(s'.board, s.threads[t].woken.value, Pending(t)))
  {
    hide Run, Inv, ThreadInv;
    Reachable(ms, steps, i);
    var s, p := ms[i].rt, ms[i].progs[t];
    Counted(s, t);
    StaleTop(s, t, p);
    WokenSpec(s, t, p);
    PendingIsOwn(s, p.op.e);
    WaitSourced(s, t, p);
    if !Straight(s, t, p.op.e) {
      SignalRequeued(s, t, p.op.e);
    }
    hide MInv;
  }

  lemma WaitSourced(s: State, t: Tid, p: Prog)
    requires ThreadInv(s, t, p) && p.op.Waiting? && !p.op.kind.Direct?
    ensures p.op.kind == Plain ==> p.waits != []
    ensures Source(p).Waitq? && Sourced(s.board, p.op.e, Source(p))
  {
    if p.waits != [] { assert FrameInv(s, t, p, 0); }
  }

  lemma WokenSpec(s: State, t: Tid, p: Prog)
    requires ThreadInv(s, t, p) && p.op.Waiting? && s.threads[t].running
    ensures Woken(s, t, p.op.e)
  {
    hide Woken;
  }

  lemma PendingIsOwn(s: State, e: Eid)
    requires Inv(s) && e in s.board.events
    ensures forall u :: On(s.board, e, Pending(u)) ==> u == s.board.events[e].tc
  {
    EventThread(s, e);
  }

  /**
    The end of a yield or an fd wait: it reports an interrupt exactly when the thread came back with a
    signal, its own event being on a list still; the event then is on none.  An interrupted yield leaves
    the signal noted, an fd wait does not.
   */
  lemma DirectReports(ms: seq<Machine>, steps: seq<Step>, i: nat, t: Tid)
    requires Run(ms, steps) && i < |ms| && Guard(ms[i], FinishEvent(t)) && Safe(ms[i], FinishEvent(t))
    ensures var s, e, fd := ms[i].rt, ms[i].progs[t].op.e, ms[i].progs[t].op.kind.fd;
            var (s', intr) := FinishDirect(s, t, e, fd.Some?);
            var w := s.threads[t].woken;
            && (intr <==> Listed(s.board, e))
            && (intr ==> w.Some? && IsSignal(s.board, w.value) && s.board.events[w.value].tc == t)
            && e in s'.board.events && !Listed(s'.board, e) && t in s'.threads
            && s'.threads[t].woken == (if intr && fd.None? then w else None)
            && s'.threads[t].top == s.board.events[e].next
  {
    Reachable(ms, steps, i);
    hide Run, Inv, ThreadInv;
    WokenSpec(ms[i].rt, t, ms[i].progs[t]);
    hide MInv;
  }
}

/** Where the steps of a run put events, and where these stay until they are finished. */
module Sources {
  import opened Common
  import opened Events
  import opened Runtime
  import opened Machine
  import opened Runs
  import opened Wakeups
  import opened WokenBy
  import FdEvents

  /** The event a step lists, and the list its caller asked for. */
  function Puts(m: Machine, step: Step): Option<(Eid, ListId)>
    requires Guard(m, step)
  {
    match step
    case NewThread(_, e, _) => Some((e, Immediate))
    case PrepareWait(_, e, q) => Some((e, Waitq(q)))
    case AddEvent(_, e, Some(f)) => Some((e, Fd(f)))
    case AddEvent(_, e, None) => Some((e, Immediate))
    case SubscribeTo(_, e, q) => Some((e, Waitq(q)))
    case LockPrepare(t, e) => Some((e, Waitq(m.progs[t].op.m)))
    case Die(_, e) => Some((e, Immediate))
    case _ => None
  }

  /** The kind of event that is listed. */
  function PutFlag(step: Step): Flag {
    match step
    case SubscribeTo(_, _, q) => Signal(q)
    case Die(_, _) => Exiting
    case _ => Ready
  }

  /** tc_waitq_prepare_to_wait, add_event_fd, add_event_cr and tc_signal_subscribe list the event where
      they were asked to, for the calling thread, behind what is there. */
  lemma PutStep(m: Machine, step: Step)
    requires Guard(m, step) && Safe(m, step) && Puts(m, step).Some?
    ensures var (e, l) := Puts(m, step).value;
            var b, b' := m.rt.board, Apply(m, step).rt.board;
            && On(b', e, l) && b'.events[e].tc == step.t && b'.events[e].flag == PutFlag(step)
            && At(b', l) == At(b, l) + [e]
            && e !in b.events
  {
  }

  /** On the list it was put on, gone on to immediate or pending, or on none. */
  predicate Within(ev: Event, l: ListId) {
    ev.el == None || ev.el == Some(l) || ev.el == Some(Immediate) || ev.el == Some(Pending(ev.tc))
  }

  predicate Makes(step: Step) {
    step.NewThread? || step.PrepareWait? || step.AddEvent? || step.SubscribeTo? || step.LockPrepare? || step.Die?
  }

  /** No step moves an event to a list other than these; a signal goes back to its own. */
  lemma WithinStep(m: Machine, step: Step, x: Eid, l: ListId)
    requires Guard(m, step) && Safe(m, step) && x in m.rt.board.events && Within(m.rt.board.events[x], l)
    requires m.rt.board.events[x].flag.Signal? ==> l == Waitq(m.rt.board.events[x].flag.wq)
    ensures x in Apply(m, step).rt.board.events ==> Within(Apply(m, step).rt.board.events[x], l)
  {
    hide Guard, Safe, Apply, Within;
    if Makes(step) {
      WithinMade(m, step, x, l);
    } else if Calls(step) {
      WithinCall(m, step, x, l);
    } else {
      WithinMoved(m, step, x, l);
    }
  }

  /** A step that is tc_waitq_finish_wait, run_or_queue or tc_scheduler. */
  predicate Calls(step: Step) {
    step.FinishWait? || step.LockFinish? || step.Dispatch? || step.EnterScheduler?
  }

  lemma WithinCall(m: Machine, step: Step, x: Eid, l: ListId)
    requires Calls(step) && Guard(m, step) && Safe(m, step) && x in m.rt.board.events && Within(m.rt.board.events[x], l)
    requires m.rt.board.events[x].flag.Signal? ==> l == Waitq(m.rt.board.events[x].flag.wq)
    ensures x in Apply(m, step).rt.board.events ==> Within(Apply(m, step).rt.board.events[x], l)
  {
    hide Finish, FinishFaults, Pick, RunOrQueue, Schedule, Within;
    match step
    case FinishWait(u) => WithinFinish(m.rt, u, FinishTarget(m.progs[u]), x, l);
    case LockFinish(u) => WithinFinish(m.rt, u, FinishTarget(m.progs[u]), x, l);
    case Dispatch(e) => WithinDispatch(m.rt, e, x, l);
    case EnterScheduler(u) => WithinSchedule(m.rt, u, x, l);
  }

  lemma WithinMade(m: Machine, step: Step, x: Eid, l: ListId)
    requires Makes(step) && Guard(m, step) && Safe(m, step) && x in m.rt.board.events && Within(m.rt.board.events[x], l)
    ensures x in Apply(m, step).rt.board.events ==> Within(Apply(m, step).rt.board.events[x], l)
  {
  }

  lemma WithinMoved(m: Machine, step: Step, x: Eid, l: ListId)
    requires !Makes(step) && !Calls(step)
    requires Guard(m, step) && Safe(m, step) && x in m.rt.board.events && Within(m.rt.board.events[x], l)
    ensures x in Apply(m, step).rt.board.events ==> Within(Apply(m, step).rt.board.events[x], l)
  {
    hide Finish, FinishFaults, Pick, RunOrQueue, Schedule, Without;
  }

  lemma WithinDispatch(s: State, e: Eid, x: Eid, l: ListId)
    requires Runnable(s, e) && x in s.board.events && Within(s.board.events[x], l)
    requires s.board.events[x].flag.Signal? ==> l == Waitq(s.board.events[x].flag.wq)
    ensures x in RunOrQueue(s, e).0.board.events && Within(RunOrQueue(s, e).0.board.events[x], l)
  {
  }

  lemma WithinSchedule(s: State, t: Tid, x: Eid, l: ListId)
    requires t in s.threads && (Pick(s, t).Some? ==> On(s.board, Pick(s, t).value, Pending(t)))
    requires x in s.board.events && Within(s.board.events[x], l)
    requires s.board.events[x].flag.Signal? ==> l == Waitq(s.board.events[x].flag.wq)
    ensures x in Schedule(s, t).board.events && Within(Schedule(s, t).board.events[x], l)
  {
    hide Pick;
  }

  lemma WithinFinish(s: State, t: Tid, e: Eid, x: Eid, l: ListId)
    requires t in s.threads && t in s.board.refcnt && e in s.board.events && !FinishFaults(s, t, e)
    requires x in s.board.events && Within(s.board.events[x], l)
    ensures x in Finish(s, t, e).0.board.events && Within(Finish(s, t, e).0.board.events[x], l)
  {
    FinishEffect(s, t, e);
    hide Finish;
  }

  /** An event stays on the list its caller asked for until it goes on to immediate or pending, over all runs. */
  lemma {:induction false} StaysWithin(ms: seq<Machine>, steps: seq<Step>, h: nat, i: nat)
    requires Run(ms, steps) && h < i < |ms| && Guard(ms[h], steps[h]) && Puts(ms[h], steps[h]).Some?
    requires forall k :: h < k <= i ==> Puts(ms[h], steps[h]).value.0 in ms[k].rt.board.events
    ensures var (e, l) := Puts(ms[h], steps[h]).value;
            var ev := ms[i].rt.board.events[e];
            Within(ev, l) && ev.tc == steps[h].t && ev.flag == PutFlag(steps[h])
    decreases i
  {
    hide Guard, Safe, Apply, Puts, Within;
    var (e, l) := Puts(ms[h], steps[h]).value;
    assert Next(ms[i - 1], steps[i - 1], ms[i]);
    if h == i - 1 {
      PutStep(ms[h], steps[h]);
      OnIsWithin(ms[i].rt.board, e, l);
    } else {
      StaysWithin(ms, steps, h, i - 1);
      EventsKept(ms[i - 1], steps[i - 1]);
      PutSignal(ms[h], steps[h]);
      WithinStep(ms[i - 1], steps[i - 1], e, l);
    }
  }

  lemma OnIsWithin(b: Board, e: Eid, l: ListId)
    requires On(b, e, l)
    ensures Within(b.events[e], l)
  {
  }

  lemma PutSignal(m: Machine, step: Step)
    requires Guard(m, step) && Puts(m, step).Some?
    ensures PutFlag(step).Signal? ==> Puts(m, step).value.1 == Waitq(PutFlag(step).wq)
  {
  }

  /** A thread that sleeps in a wait begun by step h: its event is on the list that step named, or on
      immediate, unless the wait is stale. */
  lemma SleepsWhereAsked(ms: seq<Machine>, steps: seq<Step>, h: nat, i: nat, t: Tid)
    requires Run(ms, steps) && h < i < |ms| && Guard(ms[h], steps[h]) && Puts(ms[h], steps[h]).Some?
    requires forall k :: h < k <= i ==> Puts(ms[h], steps[h]).value.0 in ms[k].rt.board.events
    requires Parked(ms[i], t) && ms[i].progs[t].op.Waiting? && ms[i].progs[t].op.e == Puts(ms[h], steps[h]).value.0
    ensures var (e, l) := Puts(ms[h], steps[h]).value;
            var b := ms[i].rt.board;
            On(b, e, l) || On(b, e, Immediate) || (StaleWait(ms[i].progs[t]) && On(b, e, Pending(t)))
  {
    StaysWithin(ms, steps, h, i);
    NoLostWakeup(ms, steps, i, t);
    hide Run, Guard, Puts;
  }

  /** A subscription is for the signal named, and a fire of that signal makes it active unless it is already. */
  lemma FireReaches(ms: seq<Machine>, steps: seq<Step>, h: nat, i: nat, t: Tid, e: Eid, q: Qid)
    requires Run(ms, steps) && h < i < |ms| && steps[h] == SubscribeTo(t, e, q)
    requires forall k :: h < k <= i ==> e in ms[k].rt.board.events
    ensures var s := WakeAll(ms[i].rt, q); SignalActive(s.board, e) && s.board.events[e].tc == t
  {
    assert Next(ms[h], steps[h], ms[h + 1]);
    StaysWithin(ms, steps, h, i);
    SubscriptionPlaced(ms, steps, i, e);
    Reachable(ms, steps, i);
    hide Run, Inv, ThreadInv;
    WakeAllSpec(ms[i].rt, q);
    hide MInv, Next;
  }

  /** What listing an event does to the calling thread: a wait is noted on its stack, and whatever woke it
      last is forgotten; a subscription only does the latter; a yield, an fd wait and an exit neither. */
  lemma PutThread(m: Machine, step: Step)
    requires Guard(m, step) && Safe(m, step) && Puts(m, step).Some? && !step.NewThread?
    ensures var (e, l) := Puts(m, step).value;
            var s, s' := m.rt, Apply(m, step).rt;
            && step.t in s.threads
            && s'.threads == s.threads[step.t := match step
                                                 case PrepareWait(_, _, _) => s.threads[step.t].(top := Some(e), woken := None)
                                                 case LockPrepare(_, _) => s.threads[step.t].(top := Some(e), woken := None)
                                                 case SubscribeTo(_, _, _) => s.threads[step.t].(woken := None)
                                                 case _ => s.threads[step.t]]
  {
    assert m.rt.threads == m.rt.threads[step.t := m.rt.threads[step.t]];
  }

  /** An unsubscribed event is on no list any more, and a freed thread is gone with all its events. */
  lemma GoneForGood(ms: seq<Machine>, steps: seq<Step>, i: nat)
    requires Run(ms, steps) && i < |steps|
    ensures var m' := ms[i + 1];
            && (steps[i].UnsubscribeFrom? ==> steps[i].e !in m'.rt.board.events && forall l :: steps[i].e !in At(m'.rt.board, l))
            && (steps[i].FreeThread? ==>
                  && steps[i].t !in m'.progs && steps[i].t !in m'.rt.threads && steps[i].t !in m'.rt.board.refcnt
                  && forall x :: x in m'.rt.board.events ==> m'.rt.board.events[x].tc != steps[i].t)
  {
    assert Next(ms[i], steps[i], ms[i + 1]);
    Conservation(ms, steps, i + 1);
    hide Run;
  }

  /** FdWake is move_to_immediate. */
  lemma FdWakeIsMove(m: Machine, e: Eid)
    requires Guard(m, FdWake(e))
    ensures Apply(m, FdWake(e)).rt == FdEvents.ToImmediate(m.rt, e) && Apply(m, FdWake(e)).progs == m.progs
  {
  }

  // ---------------------------------------------------------------- the event stack

  predicate Pushes(m: Machine, step: Step, x: Eid) {
    step.PushEvent? && step.t in m.progs && m.progs[step.t].op.Pushing? && m.progs[step.t].op.e == x
  }

  /** The link of an event to the one below it on the stack is set when it is pushed, and stays. */
  lemma NextStep(m: Machine, step: Step, x: Eid)
    requires Guard(m, step) && Safe(m, step) && x in m.rt.board.events && !Pushes(m, step, x)
    ensures x in Apply(m, step).rt.board.events ==> Apply(m, step).rt.board.events[x].next == m.rt.board.events[x].next
  {
    hide Guard, Safe, Apply;
    if Makes(step) {
      NextMade(m, step, x);
    } else if Calls(step) {
      NextCall(m, step, x);
    } else {
      NextMoved(m, step, x);
    }
  }

  lemma NextMade(m: Machine, step: Step, x: Eid)
    requires Makes(step) && Guard(m, step) && Safe(m, step) && x in m.rt.board.events
    ensures x in Apply(m, step).rt.board.events ==> Apply(m, step).rt.board.events[x].next == m.rt.board.events[x].next
  {
  }

  lemma NextMoved(m: Machine, step: Step, x: Eid)
    requires !Makes(step) && !Calls(step) && Guard(m, step) && Safe(m, step) && x in m.rt.board.events && !Pushes(m, step, x)
    ensures x in Apply(m, step).rt.board.events ==> Apply(m, step).rt.board.events[x].next == m.rt.board.events[x].next
  {
    hide Finish, FinishFaults, Pick, RunOrQueue, Schedule, Without;
  }

  lemma NextCall(m: Machine, step: Step, x: Eid)
    requires Calls(step) && Guard(m, step) && Safe(m, step) && x in m.rt.board.events
    ensures x in Apply(m, step).rt.board.events ==> Apply(m, step).rt.board.events[x].next == m.rt.board.events[x].next
  {
    hide Finish, FinishFaults, Pick, RunOrQueue, Schedule;
    match step
    case FinishWait(u) => FinishEffect(m.rt, u, FinishTarget(m.progs[u]));
    case LockFinish(u) => FinishEffect(m.rt, u, FinishTarget(m.progs[u]));
    case Dispatch(e) => NextDispatch(m.rt, e, x);
    case EnterScheduler(u) => NextSchedule(m.rt, u, x);
  }

  lemma NextDispatch(s: State, e: Eid, x: Eid)
    requires Runnable(s, e) && x in s.board.events
    ensures x in RunOrQueue(s, e).0.board.events && RunOrQueue(s, e).0.board.events[x].next == s.board.events[x].next
  {
  }

  lemma NextSchedule(s: State, t: Tid, x: Eid)
    requires t in s.threads && (Pick(s, t).Some? ==> On(s.board, Pick(s, t).value, Pending(t))) && x in s.board.events
    ensures x in Schedule(s, t).board.events && Schedule(s, t).board.events[x].next == s.board.events[x].next
  {
    hide Pick;
  }

  /** No thread is between listing x and pushing it. */
  ghost predicate NotPushing(m: Machine, x: Eid) {
    forall u :: u in m.progs ==> !(m.progs[u].op.Pushing? && m.progs[u].op.e == x)
  }

  lemma NotPushingStep(m: Machine, step: Step, x: Eid)
    requires Guard(m, step) && Safe(m, step) && NotPushing(m, x) && (step.AddEvent? ==> step.e != x)
    ensures NotPushing(Apply(m, step), x)
  {
    hide Finish, FinishFaults, Pick, RunOrQueue, Schedule;
  }

  /** From state h on, x is not pushed any more. */
  lemma {:induction false} LinkStays(ms: seq<Machine>, steps: seq<Step>, h: nat, i: nat, x: Eid)
    requires Run(ms, steps) && h <= i < |ms| && NotPushing(ms[h], x)
    requires forall k :: h <= k <= i ==> x in ms[k].rt.board.events
    ensures NotPushing(ms[i], x) && ms[i].rt.board.events[x].next == ms[h].rt.board.events[x].next
    decreases i
  {
    hide Guard, Safe, Apply, NotPushing, Pushes;
    if h < i {
      LinkStays(ms, steps, h, i - 1, x);
      assert Next(ms[i - 1], steps[i - 1], ms[i]);
      NotMadeAgain(ms[i - 1], steps[i - 1], x);
      NotPushingStep(ms[i - 1], steps[i - 1], x);
      NextStep(ms[i - 1], steps[i - 1], x);
    }
  }

  lemma NotMadeAgain(m: Machine, step: Step, x: Eid)
    requires Guard(m, step) && x in m.rt.board.events && NotPushing(m, x)
    ensures (step.AddEvent? ==> step.e != x) && !Pushes(m, step, x)
  {
  }

  /** A fresh event is nobody's to push. */
  lemma FreshNotPushing(m: Machine, x: Eid)
    requires MInv(m) && x !in m.rt.board.events
    ensures NotPushing(m, x)
  {
    hide Inv, ThreadInv;
    forall u | u in m.progs && m.progs[u].op.Pushing? ensures m.progs[u].op.e != x {
      PushingThere(m.rt, u, m.progs[u]);
    }
  }

  lemma PushingThere(s: State, t: Tid, p: Prog)
    requires ThreadInv(s, t, p) && p.op.Pushing?
    ensures p.op.e in s.board.events
  {
  }

  /** A wait that reports success leaves the event stack as it was before its prepare_to_wait, whatever was
      waited for in between. */
  lemma StackRestored(ms: seq<Machine>, steps: seq<Step>, h: nat, i: nat, t: Tid, e: Eid)
    requires Run(ms, steps) && h < i < |ms|
    requires (steps[h].PrepareWait? || steps[h].LockPrepare?) && steps[h].t == t && steps[h].e == e
    requires forall k :: h < k <= i ==> e in ms[k].rt.board.events
    requires t in ms[i].rt.threads && t in ms[i].rt.board.refcnt && !FinishFaults(ms[i].rt, t, e)
    ensures t in ms[h].rt.threads
    ensures var (s', intr) := Finish(ms[i].rt, t, e);
            && t in s'.threads
            && (!intr ==> s'.threads[t].top == ms[h].rt.threads[t].top)
            && (intr ==> s'.threads[t].top == ms[i].rt.threads[t].top)
  {
    assert Next(ms[h], steps[h], ms[h + 1]);
    Reachable(ms, steps, h);
    PreparedLink(ms[h], steps[h], t, e);
    hide Run, MInv, Next, Guard, Safe, Apply;
    LinkStays(ms, steps, h + 1, i, e);
    FinishEffect(ms[i].rt, t, e);
    hide Finish;
  }

  lemma PreparedLink(m: Machine, step: Step, t: Tid, e: Eid)
    requires Guard(m, step) && Safe(m, step) && MInv(m)
    requires (step.PrepareWait? || step.LockPrepare?) && step.t == t && step.e == e
    ensures t in m.rt.threads && e in Apply(m, step).rt.board.events
    ensures Apply(m, step).rt.board.events[e].next == m.rt.threads[t].top && NotPushing(Apply(m, step), e)
  {
    hide MInv, NotPushing;
    FreshNotPushing(m, e);
    NotPushingStep(m, step, e);
  }
}

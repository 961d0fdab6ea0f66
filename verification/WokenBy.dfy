/** What worker->woken_by_event can point to, over all runs. */
module WokenBy {
  import opened Common
  import opened Events
  import opened Runtime
  import opened Machine
  import opened Steps
  import opened Runs
  import opened Wakeups

  /** Outside tc_scheduler, woken_by_event is null or a subscription of the thread, cancelled or not. */
  ghost predicate NotedRight(s: State, t: Tid, op: Op)
    requires t in s.threads
  {
    var w := s.threads[t].woken;
    s.threads[t].running && !op.Waiting? && !op.Starting? && w.Some? && w.value in s.board.events ==>
      s.board.events[w.value].flag.Signal? && s.board.events[w.value].tc == t
  }

  ghost predicate Noted(m: Machine) {
    forall t :: t in m.progs && t in m.rt.threads ==> NotedRight(m.rt, t, m.progs[t].op)
  }

  /** Events keep thread and kind; a new one is not what some worker was woken by. */
  ghost predicate KeepsEvents(s: State, s': State) {
    forall x :: x in s'.board.events ==>
      if x in s.board.events then s'.board.events[x].flag == s.board.events[x].flag && s'.board.events[x].tc == s.board.events[x].tc
      else forall u :: u in s.threads ==> s.threads[u].woken != Some(x)
  }

  lemma EventsKept(m: Machine, step: Step)
    requires Guard(m, step) && Safe(m, step)
    ensures KeepsEvents(m.rt, Apply(m, step).rt)
  {
    hide Finish, FinishFaults, Pick, RunOrQueue, Schedule;
    match step
    case FinishWait(u) => FinishEffect(m.rt, u, FinishTarget(m.progs[u]));
    case LockFinish(u) => FinishEffect(m.rt, u, FinishTarget(m.progs[u]));
    case NewThread(_, _, _) => EventsMade(m, step);
    case PrepareWait(_, _, _) => EventsMade(m, step);
    case AddEvent(_, _, _) => EventsMade(m, step);
    case SubscribeTo(_, _, _) => EventsMade(m, step);
    case LockPrepare(_, _) => EventsMade(m, step);
    case Die(_, _) => EventsMade(m, step);
    case Dispatch(e) => DispatchKeepsEvents(m.rt, e);
    case EnterScheduler(u) => ScheduleKeepsEvents(m.rt, u);
    case _ => EventsMoved(m, step);
  }

  lemma EventsMade(m: Machine, step: Step)
    requires Guard(m, step) && Safe(m, step)
    requires step.NewThread? || step.PrepareWait? || step.AddEvent? || step.SubscribeTo? || step.LockPrepare? || step.Die?
    ensures KeepsEvents(m.rt, Apply(m, step).rt)
  {
  }

  lemma EventsMoved(m: Machine, step: Step)
    requires Guard(m, step) && Safe(m, step) && !step.FinishWait? && !step.LockFinish? && !step.Dispatch? && !step.EnterScheduler?
    requires !(step.NewThread? || step.PrepareWait? || step.AddEvent? || step.SubscribeTo? || step.LockPrepare? || step.Die?)
    ensures KeepsEvents(m.rt, Apply(m, step).rt)
  {
    hide Finish, FinishFaults, Pick, RunOrQueue, Schedule, Prepare, Without;
  }

  lemma DispatchKeepsEvents(s: State, e: Eid)
    requires Runnable(s, e)
    ensures KeepsEvents(s, RunOrQueue(s, e).0)
  {
  }

  lemma ScheduleKeepsEvents(s: State, t: Tid)
    requires t in s.threads && (Pick(s, t).Some? ==> On(s.board, Pick(s, t).value, Pending(t)))
    ensures KeepsEvents(s, Schedule(s, t))
  {
    hide Pick;
  }

  /** A thread that is not acting, or whose woken_by_event stays or is cleared. */
  lemma NotedFrame(s: State, s': State, t: Tid, op: Op, op': Op)
    requires t in s.threads && t in s'.threads && NotedRight(s, t, op) && KeepsEvents(s, s')
    requires s'.threads[t].woken.None? || op'.Waiting? || op'.Starting? || !s'.threads[t].running
             || (s'.threads[t].woken == s.threads[t].woken && s.threads[t].running && !op.Waiting? && !op.Starting?)
             || (s'.threads[t].woken == s.threads[t].woken && op' == op && s'.threads[t].running == s.threads[t].running)
    ensures NotedRight(s', t, op')
  {
  }

  lemma NotedStep(m: Machine, step: Step)
    requires Guard(m, step) && Safe(m, step) && MInv(m) && Noted(m)
    ensures Noted(Apply(m, step))
  {
    EventsKept(m, step);
    var m' := Apply(m, step);
    hide MInv, Noted, KeepsEvents, Finish, FinishFaults, Pick, RunOrQueue, Schedule;
    match step
    case NewThread(u, e, th) => NotedNew(m, u, e, m');
    case Dispatch(e) => NotedDispatch(m, e, m');
    case FinishWait(u) => NotedFinishing(m, step, m');
    case LockFinish(u) => NotedFinishing(m, step, m');
    case FinishEvent(u) => NotedEvent(m, u, m');
    case _ => NotedQuiet(m, step, m');
  }

  lemma NotedQuiet(m: Machine, step: Step, m': Machine)
    requires Guard(m, step) && Safe(m, step) && m' == Apply(m, step) && Noted(m) && KeepsEvents(m.rt, m'.rt)
    requires !step.NewThread? && !step.Dispatch? && !step.FinishWait? && !step.LockFinish? && !step.FinishEvent?
    ensures Noted(m')
  {
    hide NotedRight, KeepsEvents, Finish, FinishFaults, Pick, RunOrQueue;
    forall t | t in m'.progs && t in m'.rt.threads ensures NotedRight(m'.rt, t, m'.progs[t].op) {
      NotedFrame(m.rt, m'.rt, t, m.progs[t].op, m'.progs[t].op);
    }
  }

  lemma NotedNew(m: Machine, u: Tid, e: Eid, m': Machine)
    requires Noted(m) && KeepsEvents(m.rt, m'.rt) && u in m'.rt.threads && m.progs.Keys <= m.rt.threads.Keys + {u}
    requires m'.progs == m.progs[u := Prog(Starting(e), [], {})]
    requires m'.rt.threads == m.rt.threads[u := m'.rt.threads[u]]
    ensures Noted(m')
  {
    hide KeepsEvents;
    forall t | t in m'.progs && t in m'.rt.threads ensures NotedRight(m'.rt, t, m'.progs[t].op) {
      if t != u { NotedFrame(m.rt, m'.rt, t, m.progs[t].op, m'.progs[t].op); }
    }
  }

  lemma NotedDispatch(m: Machine, e: Eid, m': Machine)
    requires Runnable(m.rt, e) && MInv(m) && Noted(m)
    requires m' == m.(rt := RunOrQueue(m.rt, e).0) && KeepsEvents(m.rt, m'.rt)
    ensures Noted(m')
  {
    hide Inv, ThreadInv, QueueInv, FlagInv, NotedRight, KeepsEvents;
    var u := m.rt.board.events[e].tc;
    if Fires(m.rt, e) && u in m.progs {
      ProgOf(m.rt, u, m.progs[u]);
      DispatchTarget(m.rt, e, m.progs[u]);
    }
    forall t | t in m'.progs && t in m'.rt.threads ensures NotedRight(m'.rt, t, m'.progs[t].op) {
      NotedFrame(m.rt, m'.rt, t, m.progs[t].op, m.progs[t].op);
    }
  }

  lemma ProgOf(s: State, t: Tid, p: Prog)
    requires ThreadInv(s, t, p)
    ensures t in s.threads && ProgInv(s, t, p)
  {
    hide ProgInv;
  }

  lemma NotedFinishing(m: Machine, step: Step, m': Machine)
    requires Guard(m, step) && Safe(m, step) && (step.FinishWait? || step.LockFinish?) && m' == Apply(m, step)
    requires Noted(m) && KeepsEvents(m.rt, m'.rt)
    ensures Noted(m')
  {
    hide Finish, FinishFaults, Noted, KeepsEvents;
    NotedFinish(m, step.t, FinishTarget(m.progs[step.t]), m');
  }

  lemma NotedFinish(m: Machine, u: Tid, e: Eid, m': Machine)
    requires u in m.rt.threads && u in m.progs && u in m.rt.board.refcnt && e in m.rt.board.events && !FinishFaults(m.rt, u, e)
    requires m'.rt == Finish(m.rt, u, e).0 && m'.progs.Keys == m.progs.Keys
    requires forall t :: t in m.progs && t != u ==> m'.progs[t] == m.progs[t]
    requires Noted(m) && KeepsEvents(m.rt, m'.rt)
    ensures Noted(m')
  {
    FinishEffect(m.rt, u, e);
    hide Finish;
    forall t | t in m'.progs && t in m'.rt.threads ensures NotedRight(m'.rt, t, m'.progs[t].op) {
      if t != u { NotedFrame(m.rt, m'.rt, t, m.progs[t].op, m'.progs[t].op); }
    }
  }

  lemma NotedEvent(m: Machine, u: Tid, m': Machine)
    requires Guard(m, FinishEvent(u)) && Safe(m, FinishEvent(u)) && m' == Apply(m, FinishEvent(u))
    requires Noted(m) && KeepsEvents(m.rt, m'.rt) && MInv(m)
    ensures Noted(m')
  {
    hide Inv, ThreadInv, QueueInv, FlagInv;
    WokenSpec(m.rt, u, m.progs[u]);
    forall t | t in m'.progs && t in m'.rt.threads ensures NotedRight(m'.rt, t, m'.progs[t].op) {
      if t != u { NotedFrame(m.rt, m'.rt, t, m.progs[t].op, m'.progs[t].op); }
    }
  }

  lemma {:induction false} AlwaysNoted(ms: seq<Machine>, steps: seq<Step>, i: nat)
    requires Run(ms, steps) && i < |ms|
    ensures Noted(ms[i])
  {
    if i > 0 {
      AlwaysNoted(ms, steps, i - 1);
      Reachable(ms, steps, i - 1);
      assert Next(ms[i - 1], steps[i - 1], ms[i]);
      hide MInv, Noted, Guard, Safe, Apply;
      NotedStep(ms[i - 1], steps[i - 1]);
    }
  }
}

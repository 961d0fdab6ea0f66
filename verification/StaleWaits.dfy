/**
  Where the event stack is left unpopped: a wait nested in another wait's condition
  that is interrupted by a signal.  The enclosing wait then misses its own wakeup.
 */
module StaleWaits {
  import opened Common
  import opened Events
  import opened Runtime
  import opened Machine
  import opened ClientSteps
  import opened Runs
  import opened Wakeups
  import opened WokenBy

  /**
    The finish of a client wait follows a null pointer or meets its assertion exactly when it
    comes straight from the condition, without a scheduler call, and either a wait nested in it was
    interrupted and nothing is noted as the waking event since, or what is noted is a subscription
    that has been cancelled.
   */
  lemma FinishFaultsIff(ms: seq<Machine>, steps: seq<Step>, i: nat, t: Tid)
    requires Run(ms, steps) && i < |ms| && Guard(ms[i], FinishWait(t))
    ensures !Safe(ms[i], FinishWait(t)) <==>
              var p, w := ms[i].progs[t], ms[i].rt.threads[t].woken;
              && p.op == Client
              && (if w.None? then p.waits[0].stale else w.value !in ms[i].rt.board.events)
  {
    hide Run, Inv, ThreadInv, QueueInv, FlagInv;
    Reachable(ms, steps, i);
    AlwaysNoted(ms, steps, i);
    var m := ms[i];
    Counted(m.rt, t);
    FinishOwn(m.rt, t, m.progs[t]);
    FinishPosition(m.rt, t, m.progs[t]);
    assert NotedRight(m.rt, t, m.progs[t].op);
    hide MInv;
  }

  /** The only assertion, null pointer, endless spin or message exit that a run can meet is that one. */
  lemma SafeIff(ms: seq<Machine>, steps: seq<Step>, i: nat, step: Step)
    requires Run(ms, steps) && i < |ms| && Guard(ms[i], step)
    ensures !Safe(ms[i], step) <==>
              && step.FinishWait?
              && var p, w := ms[i].progs[step.t], ms[i].rt.threads[step.t].woken;
                 && p.op == Client
                 && (if w.None? then p.waits[0].stale else w.value !in ms[i].rt.board.events)
  {
    Reachable(ms, steps, i);
    hide MInv, Run;
    if step.FinishWait? {
      FinishFaultsIff(ms, steps, i, step.t);
    } else {
      StepSafe(ms[i], step);
    }
    hide Safe;
  }

  lemma FinishPosition(s: State, t: Tid, p: Prog)
    requires ThreadInv(s, t, p) && s.threads[t].running && p.waits != []
    requires p.op == Client || (p.op.Waiting? && p.op.kind == Plain)
    ensures p.op.Waiting? ==> p.op.e == p.waits[0].e && !FinishFaults(s, t, p.waits[0].e)
    ensures p.op == Client ==> (s.threads[t].top == Some(p.waits[0].e) <==> !p.waits[0].stale)
    ensures Own(s, t, p.waits[0].e)
  {
    assert FrameInv(s, t, p, 0);
  }

  // ---------------------------------------------------------------- a run that loses a wakeup

  const START: Eid := 0
  const SIGNAL: Eid := 1
  const OUTER: Eid := 2
  const INNER: Eid := 3
  const SIG_Q: Qid := 9
  const OUTER_Q: Qid := 7
  const INNER_Q: Qid := 8

  function Th(running: bool, top: Option<Eid>, woken: Option<Eid>): Thread {
    Thread(running, top, woken, -1, false, 0)
  }

  /** One thread, no mutex. */
  function At1(events: map<Eid, Event>, lists: map<ListId, seq<Eid>>, n: int, refcnt: int, th: Thread, p: Prog): Machine {
    Machine(State(Board(events, lists, n, map[0 := refcnt]), map[0 := th], map[]), map[0 := p])
  }

  const M0: Machine := Machine(State(Board(map[], map[], 0, map[]), map[], map[]), map[])
  const M1: Machine :=
    At1(map[START := Event(0, Ready, None, Some(Immediate))],
      map[Immediate := [START]],
      1, 1, Th(false, None, None), Prog(Starting(START), [], {}))
  const M2: Machine :=
    At1(map[START := Event(0, Ready, None, None)],
      map[Immediate := []],
      0, 0, Th(true, None, Some(START)), Prog(Starting(START), [], {}))
  const M3: Machine :=
    At1(map[START := Event(0, Ready, None, None)],
      map[Immediate := []],
      0, 0, Th(true, None, None), Prog(Client, [], {}))
  const M4: Machine :=
    At1(map[START := Event(0, Ready, None, None), SIGNAL := Event(0, Signal(SIG_Q), None, Some(Waitq(SIG_Q)))],
      map[Immediate := [], Waitq(SIG_Q) := [SIGNAL]],
      0, 1, Th(true, None, None), Prog(Client, [], {}))
  const M5: Machine :=
    At1(map[START := Event(0, Ready, None, None), SIGNAL := Event(0, Signal(SIG_Q), None, Some(Waitq(SIG_Q))), OUTER := Event(0, Ready, None, Some(Waitq(OUTER_Q)))],
      map[Immediate := [], Waitq(SIG_Q) := [SIGNAL], Waitq(OUTER_Q) := [OUTER]],
      0, 2, Th(true, Some(OUTER), None), Prog(Client, [Frame(OUTER, OUTER_Q, false)], {}))
  const M6: Machine :=
    At1(map[START := Event(0, Ready, None, None), SIGNAL := Event(0, Signal(SIG_Q), None, Some(Waitq(SIG_Q))), OUTER := Event(0, Ready, None, Some(Waitq(OUTER_Q))), INNER := Event(0, Ready, Some(OUTER), Some(Waitq(INNER_Q)))],
      map[Immediate := [], Waitq(SIG_Q) := [SIGNAL], Waitq(OUTER_Q) := [OUTER], Waitq(INNER_Q) := [INNER]],
      0, 3, Th(true, Some(INNER), None), Prog(Client, [Frame(INNER, INNER_Q, false), Frame(OUTER, OUTER_Q, false)], {}))
  const M7: Machine :=
    At1(map[START := Event(0, Ready, None, None), SIGNAL := Event(0, Signal(SIG_Q), None, Some(Waitq(SIG_Q))), OUTER := Event(0, Ready, None, Some(Waitq(OUTER_Q))), INNER := Event(0, Ready, Some(OUTER), Some(Waitq(INNER_Q)))],
      map[Immediate := [], Waitq(SIG_Q) := [SIGNAL], Waitq(OUTER_Q) := [OUTER], Waitq(INNER_Q) := [INNER]],
      0, 3, Th(false, Some(INNER), None), Prog(Waiting(INNER, Plain), [Frame(INNER, INNER_Q, false), Frame(OUTER, OUTER_Q, false)], {}))
  const M8: Machine :=
    At1(map[START := Event(0, Ready, None, None), SIGNAL := Event(0, Signal(SIG_Q), None, Some(Immediate)), OUTER := Event(0, Ready, None, Some(Waitq(OUTER_Q))), INNER := Event(0, Ready, Some(OUTER), Some(Waitq(INNER_Q)))],
      map[Immediate := [SIGNAL], Waitq(SIG_Q) := [], Waitq(OUTER_Q) := [OUTER], Waitq(INNER_Q) := [INNER]],
      1, 3, Th(false, Some(INNER), None), Prog(Waiting(INNER, Plain), [Frame(INNER, INNER_Q, false), Frame(OUTER, OUTER_Q, false)], {}))
  const M9: Machine :=
    At1(map[START := Event(0, Ready, None, None), SIGNAL := Event(0, Signal(SIG_Q), None, Some(Waitq(SIG_Q))), OUTER := Event(0, Ready, None, Some(Waitq(OUTER_Q))), INNER := Event(0, Ready, Some(OUTER), Some(Waitq(INNER_Q)))],
      map[Immediate := [], Waitq(SIG_Q) := [SIGNAL], Waitq(OUTER_Q) := [OUTER], Waitq(INNER_Q) := [INNER]],
      0, 3, Th(true, Some(INNER), Some(SIGNAL)), Prog(Waiting(INNER, Plain), [Frame(INNER, INNER_Q, false), Frame(OUTER, OUTER_Q, false)], {}))
  const M10: Machine :=
    At1(map[START := Event(0, Ready, None, None), SIGNAL := Event(0, Signal(SIG_Q), None, Some(Waitq(SIG_Q))), OUTER := Event(0, Ready, None, Some(Waitq(OUTER_Q))), INNER := Event(0, Ready, Some(OUTER), None)],
      map[Immediate := [], Waitq(SIG_Q) := [SIGNAL], Waitq(OUTER_Q) := [OUTER], Waitq(INNER_Q) := []],
      0, 2, Th(true, Some(INNER), Some(SIGNAL)), Prog(Client, [Frame(OUTER, OUTER_Q, true)], {}))
  const M11: Machine :=
    At1(map[START := Event(0, Ready, None, None), SIGNAL := Event(0, Signal(SIG_Q), None, Some(Waitq(SIG_Q))), OUTER := Event(0, Ready, None, Some(Waitq(OUTER_Q))), INNER := Event(0, Ready, Some(OUTER), None)],
      map[Immediate := [], Waitq(SIG_Q) := [SIGNAL], Waitq(OUTER_Q) := [OUTER], Waitq(INNER_Q) := []],
      0, 2, Th(false, Some(INNER), Some(SIGNAL)), Prog(Waiting(OUTER, Plain), [Frame(OUTER, OUTER_Q, true)], {}))
  const M12: Machine :=
    At1(map[START := Event(0, Ready, None, None), SIGNAL := Event(0, Signal(SIG_Q), None, Some(Waitq(SIG_Q))), OUTER := Event(0, Ready, None, Some(Immediate)), INNER := Event(0, Ready, Some(OUTER), None)],
      map[Immediate := [OUTER], Waitq(SIG_Q) := [SIGNAL], Waitq(OUTER_Q) := [], Waitq(INNER_Q) := []],
      1, 2, Th(false, Some(INNER), Some(SIGNAL)), Prog(Waiting(OUTER, Plain), [Frame(OUTER, OUTER_Q, true)], {}))
  const M13: Machine :=
    At1(map[START := Event(0, Ready, None, None), SIGNAL := Event(0, Signal(SIG_Q), None, Some(Waitq(SIG_Q))), OUTER := Event(0, Ready, None, Some(Pending(0))), INNER := Event(0, Ready, Some(OUTER), None)],
      map[Immediate := [], Waitq(SIG_Q) := [SIGNAL], Waitq(OUTER_Q) := [], Waitq(INNER_Q) := [], Pending(0) := [OUTER]],
      0, 2, Th(false, Some(INNER), Some(SIGNAL)), Prog(Waiting(OUTER, Plain), [Frame(OUTER, OUTER_Q, true)], {}))

  // The thread subscribes to a signal and waits on OUTER_Q with a condition that waits on
  // INNER_Q; the signal interrupts the inner wait; the outer one goes to sleep and its
  // queue is woken.

  lemma Step1()
    ensures Next(M0, NewThread(0, START, Th(false, None, None)), M1)
  {
    assert [] + [START] == [START] && [START] + [] == [START] && [START][1..] == [];
    var r := Apply(M0, NewThread(0, START, Th(false, None, None)));
    assert r.rt.board.events == M1.rt.board.events;
    assert r.rt.board.lists == M1.rt.board.lists;
    assert r.rt.board.refcnt == M1.rt.board.refcnt;
    assert r.rt.threads == M1.rt.threads && r.progs == M1.progs;
  }

  lemma Step2()
    ensures Next(M1, Dispatch(START), M2)
  {
    assert [] + [START] == [START] && [START] + [] == [START] && [START][1..] == [];
    var r := Apply(M1, Dispatch(START));
    assert r.rt.board.events == M2.rt.board.events;
    assert r.rt.board.lists == M2.rt.board.lists;
    assert r.rt.board.refcnt == M2.rt.board.refcnt;
    assert r.rt.threads == M2.rt.threads && r.progs == M2.progs;
  }

  lemma Step3()
    ensures Next(M2, Begin(0), M3)
  {
    var r := Apply(M2, Begin(0));
    assert r.rt.board.events == M3.rt.board.events;
    assert r.rt.board.lists == M3.rt.board.lists;
    assert r.rt.board.refcnt == M3.rt.board.refcnt;
    assert r.rt.threads == M3.rt.threads && r.progs == M3.progs;
  }

  lemma Step4()
    ensures Next(M3, SubscribeTo(0, SIGNAL, SIG_Q), M4)
  {
    assert [] + [SIGNAL] == [SIGNAL] && [SIGNAL] + [] == [SIGNAL] && [SIGNAL][1..] == [];
    var r := Apply(M3, SubscribeTo(0, SIGNAL, SIG_Q));
    assert r.rt.board.events == M4.rt.board.events;
    assert r.rt.board.lists == M4.rt.board.lists;
    assert r.rt.board.refcnt == M4.rt.board.refcnt;
    assert r.rt.threads == M4.rt.threads && r.progs == M4.progs;
  }

  lemma Prepare5()
    ensures Prepare(M4.rt, 0, OUTER, OUTER_Q) == M5.rt
  {
    assert [] + [OUTER] == [OUTER];
    var r := Prepare(M4.rt, 0, OUTER, OUTER_Q);
    assert r.board.events == M5.rt.board.events;
    assert r.board.lists == M5.rt.board.lists;
    assert r.board.refcnt == M5.rt.board.refcnt;
    assert r.threads == M5.rt.threads && r.owner == M5.rt.owner;
  }

  lemma Step5()
    ensures Next(M4, PrepareWait(0, OUTER, OUTER_Q), M5)
  {
    Prepare5();
    hide Prepare;
    assert [Frame(OUTER, OUTER_Q, false)] + [] == [Frame(OUTER, OUTER_Q, false)];
    assert Apply(M4, PrepareWait(0, OUTER, OUTER_Q)).progs == M5.progs;
  }

  lemma Prepare6()
    ensures Prepare(M5.rt, 0, INNER, INNER_Q) == M6.rt
  {
    assert [] + [INNER] == [INNER];
    var r := Prepare(M5.rt, 0, INNER, INNER_Q);
    assert r.board.events == M6.rt.board.events;
    assert r.board.lists == M6.rt.board.lists;
    assert r.board.refcnt == M6.rt.board.refcnt;
    assert r.threads == M6.rt.threads && r.owner == M6.rt.owner;
  }

  lemma Step6()
    ensures Next(M5, PrepareWait(0, INNER, INNER_Q), M6)
  {
    Prepare6();
    hide Prepare;
    assert [Frame(INNER, INNER_Q, false)] + [Frame(OUTER, OUTER_Q, false)] == [Frame(INNER, INNER_Q, false), Frame(OUTER, OUTER_Q, false)];
    assert Apply(M5, PrepareWait(0, INNER, INNER_Q)).progs == M6.progs;
  }

  lemma Step7()
    ensures Next(M6, EnterScheduler(0), M7)
  {
    var r := Apply(M6, EnterScheduler(0));
    assert r.rt.board.events == M7.rt.board.events;
    assert r.rt.board.lists == M7.rt.board.lists;
    assert r.rt.board.refcnt == M7.rt.board.refcnt;
    assert r.rt.threads == M7.rt.threads && r.progs == M7.progs;
  }

  lemma Wake8()
    ensures WaitqSane(M7.rt, SIG_Q) && WakeOne(M7.rt, SIG_Q) == M8.rt
  {
    assert [] + [SIGNAL] == [SIGNAL] && [SIGNAL] + [] == [SIGNAL] && [SIGNAL][1..] == [];
    var r := WakeOne(M7.rt, SIG_Q);
    assert r.board.events == M8.rt.board.events;
    assert r.board.lists == M8.rt.board.lists;
    assert r.board.refcnt == M8.rt.board.refcnt;
    assert r.threads == M8.rt.threads && r.owner == M8.rt.owner;
  }

  lemma Step8()
    ensures Next(M7, Wake(SIG_Q), M8)
  {
    Wake8();
    hide WakeOne, WaitqSane;
  }

  lemma Run9()
    ensures RunOrQueue(M8.rt, SIGNAL).0 == M9.rt
  {
    assert [] + [SIGNAL] == [SIGNAL] && [SIGNAL] + [] == [SIGNAL] && [SIGNAL][1..] == [];
    var r := RunOrQueue(M8.rt, SIGNAL).0;
    assert r.board.events == M9.rt.board.events;
    assert r.board.lists == M9.rt.board.lists;
    assert r.board.refcnt == M9.rt.board.refcnt;
    assert r.threads == M9.rt.threads && r.owner == M9.rt.owner;
  }

  lemma Step9()
    ensures Next(M8, Dispatch(SIGNAL), M9)
  {
    Run9();
    hide RunOrQueue;
  }

  lemma Finish10()
    ensures !FinishFaults(M9.rt, 0, INNER) && Finish(M9.rt, 0, INNER) == (M10.rt, true)
  {
    assert [] + [INNER] == [INNER] && [INNER] + [] == [INNER] && [INNER][1..] == [];
    var r := Finish(M9.rt, 0, INNER).0;
    assert r.board.events == M10.rt.board.events;
    assert r.board.lists == M10.rt.board.lists;
    assert r.board.refcnt == M10.rt.board.refcnt;
    assert r.threads == M10.rt.threads && r.owner == M10.rt.owner;
  }

  lemma Step10()
    ensures Next(M9, FinishWait(0), M10)
  {
    Finish10();
    hide Finish, FinishFaults;
    assert [Frame(INNER, INNER_Q, false), Frame(OUTER, OUTER_Q, false)][1..] == [Frame(OUTER, OUTER_Q, false)];
    assert AfterInner([Frame(OUTER, OUTER_Q, false)], true) == [Frame(OUTER, OUTER_Q, true)];
    assert Apply(M9, FinishWait(0)).progs == M10.progs;
  }

  lemma Step11()
    ensures Next(M10, EnterScheduler(0), M11)
  {
    var r := Apply(M10, EnterScheduler(0));
    assert r.rt.board.events == M11.rt.board.events;
    assert r.rt.board.lists == M11.rt.board.lists;
    assert r.rt.board.refcnt == M11.rt.board.refcnt;
    assert r.rt.threads == M11.rt.threads && r.progs == M11.progs;
  }

  lemma Step12()
    ensures Next(M11, Wake(OUTER_Q), M12)
  {
    assert [] + [OUTER] == [OUTER] && [OUTER] + [] == [OUTER] && [OUTER][1..] == [];
    var r := Apply(M11, Wake(OUTER_Q));
    assert r.rt.board.events == M12.rt.board.events;
    assert r.rt.board.lists == M12.rt.board.lists;
    assert r.rt.board.refcnt == M12.rt.board.refcnt;
    assert r.rt.threads == M12.rt.threads && r.progs == M12.progs;
  }

  lemma Step13()
    ensures Next(M12, Dispatch(OUTER), M13)
  {
    assert [] + [OUTER] == [OUTER] && [OUTER] + [] == [OUTER] && [OUTER][1..] == [];
    var r := Apply(M12, Dispatch(OUTER));
    assert r.rt.board.events == M13.rt.board.events;
    assert r.rt.board.lists == M13.rt.board.lists;
    assert r.rt.board.refcnt == M13.rt.board.refcnt;
    assert r.rt.threads == M13.rt.threads && r.progs == M13.progs;
  }

  // Or, back in the outer condition, it waits once more, for something that is there already.

  const THIRD: Eid := 4

  const M14: Machine :=
    At1(M10.rt.board.events[THIRD := Event(0, Ready, Some(INNER), Some(Waitq(INNER_Q)))],
      M10.rt.board.lists[Waitq(INNER_Q) := [THIRD]],
      0, 3, Th(true, Some(THIRD), None), Prog(Client, [Frame(THIRD, INNER_Q, false), Frame(OUTER, OUTER_Q, true)], {}))
  const M15: Machine :=
    At1(M10.rt.board.events[THIRD := Event(0, Ready, Some(INNER), None)],
      M10.rt.board.lists[Waitq(INNER_Q) := []],
      0, 2, Th(true, Some(INNER), None), Prog(Client, [Frame(OUTER, OUTER_Q, true)], {}))

  lemma Prepare14()
    ensures Prepare(M10.rt, 0, THIRD, INNER_Q) == M14.rt
  {
    assert [] + [THIRD] == [THIRD];
    var r := Prepare(M10.rt, 0, THIRD, INNER_Q);
    assert r.board.events == M14.rt.board.events;
    assert r.board.lists == M14.rt.board.lists;
    assert r.board.refcnt == M14.rt.board.refcnt;
    assert r.threads == M14.rt.threads && r.owner == M14.rt.owner;
  }

  lemma Step14()
    ensures Next(M10, PrepareWait(0, THIRD, INNER_Q), M14)
  {
    Prepare14();
    hide Prepare;
    assert [Frame(THIRD, INNER_Q, false)] + [Frame(OUTER, OUTER_Q, true)] == [Frame(THIRD, INNER_Q, false), Frame(OUTER, OUTER_Q, true)];
    assert Apply(M10, PrepareWait(0, THIRD, INNER_Q)).progs == M14.progs;
  }

  lemma Finish15()
    ensures !FinishFaults(M14.rt, 0, THIRD) && Finish(M14.rt, 0, THIRD) == (M15.rt, false)
  {
    assert [] + [THIRD] == [THIRD] && [THIRD] + [] == [THIRD] && [THIRD][1..] == [];
    var r := Finish(M14.rt, 0, THIRD).0;
    assert r.board.events == M15.rt.board.events;
    assert r.board.lists == M15.rt.board.lists;
    assert r.board.refcnt == M15.rt.board.refcnt;
    assert r.threads == M15.rt.threads && r.owner == M15.rt.owner;
  }

  lemma Step15()
    ensures Next(M14, FinishWait(0), M15)
  {
    Finish15();
    hide Finish, FinishFaults;
    assert [Frame(THIRD, INNER_Q, false), Frame(OUTER, OUTER_Q, true)][1..] == [Frame(OUTER, OUTER_Q, true)];
    assert Apply(M14, FinishWait(0)).progs == M15.progs;
  }

  lemma Extend(ms: seq<Machine>, steps: seq<Step>, step: Step, m: Machine)
    requires Run(ms, steps) && Next(ms[|ms| - 1], step, m)
    ensures Run(ms + [m], steps + [step])
  {
    hide Next;
    hide Init;
    var ms', steps' := ms + [m], steps + [step];
    forall i | 0 <= i < |steps'| ensures Next(ms'[i], steps'[i], ms'[i + 1]) {
      if i < |steps| { assert Next(ms[i], steps[i], ms[i + 1]); }
    }
  }

  lemma Grow(ms: seq<Machine>, steps: seq<Step>, step: Step, m: Machine) returns (ms': seq<Machine>, steps': seq<Step>)
    requires Run(ms, steps) && Next(ms[|ms| - 1], step, m)
    ensures Run(ms', steps') && ms'[|ms'| - 1] == m
  {
    hide Next;
    Extend(ms, steps, step, m);
    ms', steps' := ms + [m], steps + [step];
  }

  /** A run that leaves the outer wait stale. */
  lemma ToStale() returns (ms: seq<Machine>, steps: seq<Step>)
    ensures Run(ms, steps) && ms[|ms| - 1] == M10
  {
    hide Next;
    Step1(); Step2(); Step3(); Step4(); Step5(); Step6(); Step7(); Step8(); Step9(); Step10();
    ms, steps := [M0], [];
    assert Run(ms, steps);
    hide Run;
    ms, steps := Grow(ms, steps, NewThread(0, START, Th(false, None, None)), M1);
    ms, steps := Grow(ms, steps, Dispatch(START), M2);
    ms, steps := Grow(ms, steps, Begin(0), M3);
    ms, steps := Grow(ms, steps, SubscribeTo(0, SIGNAL, SIG_Q), M4);
    ms, steps := Grow(ms, steps, PrepareWait(0, OUTER, OUTER_Q), M5);
    ms, steps := Grow(ms, steps, PrepareWait(0, INNER, INNER_Q), M6);
    ms, steps := Grow(ms, steps, EnterScheduler(0), M7);
    ms, steps := Grow(ms, steps, Wake(SIG_Q), M8);
    ms, steps := Grow(ms, steps, Dispatch(SIGNAL), M9);
    ms, steps := Grow(ms, steps, FinishWait(0), M10);
  }

  /** The awaited event has fired and was handed to run_or_queue, and its thread is still asleep. */
  ghost predicate LosesWakeup(ms: seq<Machine>, steps: seq<Step>) {
    && Run(ms, steps) && |steps| >= 2
    && var n := |steps|;
       && steps[n - 2] == Wake(OUTER_Q) && steps[n - 1] == Dispatch(OUTER)
       && On(ms[n - 2].rt.board, OUTER, Waitq(OUTER_Q)) && On(ms[n].rt.board, OUTER, Pending(0))
       && Parked(ms[n], 0) && ms[n].progs[0].op == Waiting(OUTER, Plain)
  }

  /** Waking a thread does not always wake it. */
  lemma WakeupLost()
    ensures exists ms, steps :: LosesWakeup(ms, steps)
  {
    var ms, steps := ToStale();
    Step11(); Step12(); Step13();
    hide Next;
    Extend(ms, steps, EnterScheduler(0), M11);
    LosesFrom(ms + [M11], steps + [EnterScheduler(0)], M11, M12, M13);
  }

  lemma LosesFrom(ms: seq<Machine>, steps: seq<Step>, m: Machine, m1: Machine, m2: Machine)
    requires Run(ms, steps) && ms[|ms| - 1] == m && Next(m, Wake(OUTER_Q), m1) && Next(m1, Dispatch(OUTER), m2)
    requires On(m.rt.board, OUTER, Waitq(OUTER_Q)) && On(m2.rt.board, OUTER, Pending(0))
    requires Parked(m2, 0) && m2.progs[0].op == Waiting(OUTER, Plain)
    ensures exists ms', steps' :: LosesWakeup(ms', steps')
  {
    hide Next;
    Extend(ms, steps, Wake(OUTER_Q), m1);
    Extend(ms + [m1], steps + [Wake(OUTER_Q)], Dispatch(OUTER), m2);
    assert |ms| == |steps| + 1;
    hide Run;
    assert LosesWakeup(ms + [m1] + [m2], steps + [Wake(OUTER_Q)] + [Dispatch(OUTER)]);
  }

  /** Finishing the outer wait then follows the null woken_by_event. */
  ghost predicate Crashes(ms: seq<Machine>, steps: seq<Step>) {
    Run(ms, steps) && Guard(ms[|ms| - 1], FinishWait(0)) && !Safe(ms[|ms| - 1], FinishWait(0))
  }

  lemma FinishCrashes()
    ensures exists ms, steps :: Crashes(ms, steps)
  {
    var ms, steps := ToStale();
    Step14(); Step15();
    hide Next;
    Extend(ms, steps, PrepareWait(0, THIRD, INNER_Q), M14);
    Extend(ms + [M14], steps + [PrepareWait(0, THIRD, INNER_Q)], FinishWait(0), M15);
    hide Run;
    assert Guard(M15, FinishWait(0)) && !Safe(M15, FinishWait(0));
    assert Crashes(ms + [M14] + [M15], steps + [PrepareWait(0, THIRD, INNER_Q)] + [FinishWait(0)]);
  }
}

/** Runs of the machine: the invariant holds in every reachable state. */
module Runs {
  import opened Events
  import opened Runtime
  import opened Machine
  import opened Steps
  import opened ClientSteps
  import opened LockSteps

  /**
    No assertion, null dereference, endless spin or message exit in the modelled code
    is reached, whatever the interleaving -- except in the finish of a client wait.
   */
  lemma StepSafe(m: Machine, step: Step)
    requires MInv(m) && Guard(m, step) && !step.FinishWait?
    ensures Safe(m, step)
  {
    hide MInv;
    match step
    case Wake(q) => WakeStep(m, q);
    case PrepareWait(t, e, q) => PrepareWaitStep(m, t, e, q);
    case EnterScheduler(t) => EnterSchedulerStep(m, t);
    case AddEvent(t, e, fd) => AddEventStep(m, t, e, fd);
    case PushEvent(t) => PushEventStep(m, t);
    case FinishEvent(t) => FinishEventStep(m, t);
    case SubscribeTo(t, e, q) => SubscribeStep(m, t, e, q);
    case UnsubscribeFrom(t, e) => UnsubscribeStep(m, t, e);
    case LockPrepare(t, e) => LockPrepareStep(m, t, e);
    case LockFinish(t) => LockFinishStep(m, t);
    case UnlockMutex(t, q) => UnlockStep(m, t, q);
    case Die(t, e) => DieStep(m, t, e);
    case FreeThread(t) => FreeThreadStep(m, t);
    case _ =>
  }

  lemma StepKeeps(m: Machine, step: Step)
    requires MInv(m) && Guard(m, step) && Safe(m, step)
    ensures MInv(Apply(m, step))
  {
    hide MInv;
    match step
    case NewThread(t, e, th) => NewThreadStep(m, t, e, th);
    case Begin(t) => BeginStep(m, t);
    case Wake(q) => WakeStep(m, q);
    case FdWake(e) => FdWakeStep(m, e);
    case Dispatch(e) => DispatchStep(m, e);
    case PrepareWait(t, e, q) => PrepareWaitStep(m, t, e, q);
    case EnterScheduler(t) => EnterSchedulerStep(m, t);
    case FinishWait(t) => FinishWaitStep(m, t);
    case AddEvent(t, e, fd) => AddEventStep(m, t, e, fd);
    case PushEvent(t) => PushEventStep(m, t);
    case FinishEvent(t) => FinishEventStep(m, t);
    case SubscribeTo(t, e, q) => SubscribeStep(m, t, e, q);
    case UnsubscribeFrom(t, e) => UnsubscribeStep(m, t, e);
    case LockEntry(t, q) => LockEntryStep(m, t, q);
    case ReadOwner(t) => ReadOwnerStep(m, t);
    case TryCas(t) => TryCasStep(m, t);
    case LockPrepare(t, e) => LockPrepareStep(m, t, e);
    case LockFinish(t) => LockFinishStep(m, t);
    case TryLock(t, q) => TryLockStep(m, t, q);
    case UnlockMutex(t, q) => UnlockStep(m, t, q);
    case Die(t, e) => DieStep(m, t, e);
    case FreeThread(t) => FreeThreadStep(m, t);
  }

  lemma InitGood(m: Machine)
    requires Init(m)
    ensures MInv(m)
  {
    forall l ensures ListNamed(m.rt.board, l) {}
    forall t ensures RefcntOf(m.rt.board, t) { assert ListedOf(m.rt.board, t) == {}; }
  }

  lemma {:induction false} Reachable(ms: seq<Machine>, steps: seq<Step>, i: nat)
    requires Run(ms, steps) && i < |ms|
    ensures MInv(ms[i])
  {
    if i == 0 {
      InitGood(ms[0]);
    } else {
      Reachable(ms, steps, i - 1);
      assert Next(ms[i - 1], steps[i - 1], ms[i]);
      StepKeeps(ms[i - 1], steps[i - 1]);
    }
  }

  /** A tc_signal_fire or tc_waitq_wakeup_all is a stretch of a run: its waiters are woken one by one. */
  lemma {:induction false} FireIsWakes(m: Machine, q: Qid) returns (ms: seq<Machine>)
    requires MInv(m) && q !in m.rt.owner
    ensures |ms| == |At(m.rt.board, Waitq(q))| + 1 && ms[0] == m && ms[|ms| - 1] == m.(rt := WakeAll(m.rt, q))
    ensures forall i :: 0 <= i < |ms| - 1 ==> Next(ms[i], Wake(q), ms[i + 1])
    decreases |At(m.rt.board, Waitq(q))|
  {
    hide MInv, Apply, Guard, Safe;
    WakeStep(m, q);
    var m1 := m.(rt := WakeOne(m.rt, q));
    if At(m.rt.board, Waitq(q)) == [] {
      ms := [m];
    } else {
      OneWake(m, q);
      var rest := FireIsWakes(m1, q);
      ms := [m] + rest;
      forall i | 0 <= i < |ms| - 1 ensures Next(ms[i], Wake(q), ms[i + 1]) {
        assert i > 0 ==> Next(rest[i - 1], Wake(q), rest[i - 1 + 1]);
      }
    }
  }

  lemma OneWake(m: Machine, q: Qid)
    requires q !in m.rt.owner && WaitqSane(m.rt, q) && At(m.rt.board, Waitq(q)) != []
    ensures Next(m, Wake(q), m.(rt := WakeOne(m.rt, q)))
    ensures |At(WakeOne(m.rt, q).board, Waitq(q))| == |At(m.rt.board, Waitq(q))| - 1
    ensures WakeOne(m.rt, q).owner == m.rt.owner && WakeAll(m.rt, q) == WakeAll(WakeOne(m.rt, q), q)
  {
  }
}

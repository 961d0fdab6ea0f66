/** What the runs promise about the mutex: hand-over, return values, fairness. */
module MutexRuns {
  import opened Common
  import opened Events
  import opened Runtime
  import opened Machine
  import opened LockSteps
  import opened Runs
  import opened Wakeups
  import opened WokenBy

  datatype Rv = Ok | Intr

  datatype Return = Return(t: Tid, q: Qid, rv: Rv)

  /** The step is the last of a tc_mutex_lock call. */
  function LockReturn(m: Machine, step: Step): Option<Return>
    requires Guard(m, step) && Safe(m, step)
  {
    match step
    case LockEntry(t, q) => if CasWins(m.rt, q) then Some(Return(t, q, Ok)) else None
    case ReadOwner(t) =>
      var op := m.progs[t].op;
      if op.oe.None? && Owns(m.rt, op.m, t) then Some(Return(t, op.m, Ok)) else None
    case TryCas(t) =>
      var op := m.progs[t].op;
      if op.oe.None? && CasWins(m.rt, op.m) then Some(Return(t, op.m, Ok)) else None
    case LockFinish(t) =>
      var op := m.progs[t].op;
      if op.LockDone? then Some(Return(t, op.m, Ok))
      else if Finish(m.rt, t, FinishTarget(m.progs[t])).1 then Some(Return(t, op.kind.m, Intr))
      else None
    case _ => None
  }

  /** tc_mutex_lock returns RV_OK exactly when the caller owns the mutex, RV_INTR only when it does not. */
  lemma LockReturnsRight(ms: seq<Machine>, steps: seq<Step>, i: nat)
    requires Run(ms, steps) && i < |steps|
    requires Next(ms[i], steps[i], ms[i + 1]) && LockReturn(ms[i], steps[i]).Some?
    ensures var Return(t, q, rv) := LockReturn(ms[i], steps[i]).value;
            var m' := ms[i + 1];
            && t in m'.progs
            && (rv == Ok <==> Owns(m'.rt, q, t))
            && (rv == Ok <==> q in m'.progs[t].held)
            && m'.progs[t].op == Client
  {
    hide Inv, ThreadInv, FinishFaults;
    Reachable(ms, steps, i);
    hide Run;
    var m, step := ms[i], steps[i];
    var Return(t, q, rv) := LockReturn(m, step).value;
    InLock(m.rt, t, m.progs[t]);
    match step
    case LockFinish(_) =>
      LockFinishOutcome(m.rt, t, m.progs[t]);
      FinishEffect(m.rt, t, FinishTarget(m.progs[t]));
      hide Finish;
    case _ =>
  }

  lemma InLock(s: State, t: Tid, p: Prog)
    requires ThreadInv(s, t, p)
    ensures LockOn(p.op).Some? ==> LockOn(p.op).value in s.owner && LockOn(p.op).value !in p.held
    ensures p.op.LockDone? ==> Owns(s, p.op.m, t)
  {
    hide ProgInv;
  }

  /** m_owner always names a thread that holds the mutex or whose tc_mutex_lock is under way. */
  lemma NeverOrphaned(ms: seq<Machine>, steps: seq<Step>, i: nat, q: Qid, t: Tid)
    requires Run(ms, steps) && i < |ms| && Owns(ms[i].rt, q, t)
    ensures t in ms[i].progs && (q in ms[i].progs[t].held || LockOn(ms[i].progs[t].op) == Some(q))
  {
    hide Run, Inv, ThreadInv;
    Reachable(ms, steps, i);
    assert OwnerInv(ms[i], q);
  }

  /** At most one thread is in the critical section. */
  lemma MutualExclusion(ms: seq<Machine>, steps: seq<Step>, i: nat, q: Qid, t: Tid, u: Tid)
    requires Run(ms, steps) && i < |ms| && t in ms[i].progs && u in ms[i].progs
    requires q in ms[i].progs[t].held && q in ms[i].progs[u].held
    ensures t == u && Owns(ms[i].rt, q, t)
  {
    hide Run, Inv, ProgInv, LockInv;
    Reachable(ms, steps, i);
    var m := ms[i];
    assert ThreadInv(m.rt, t, m.progs[t]) && ThreadInv(m.rt, u, m.progs[u]);
  }

  /** A thread parked in tc_mutex_lock: the mutex is taken by another thread, or it is its own and its event is on immediate. */
  lemma NotParkedOnFree(ms: seq<Machine>, steps: seq<Step>, i: nat, t: Tid, q: Qid)
    requires Run(ms, steps) && i < |ms| && Parked(ms[i], t)
    requires ms[i].progs[t].op.Waiting? && ms[i].progs[t].op.kind == ForLock(q)
    ensures var m := ms[i];
            var e := m.progs[t].op.e;
            if On(m.rt.board, e, Waitq(q)) then q in m.rt.owner && m.rt.owner[q].Some? && m.rt.owner[q] != Some(t)
            else Owns(m.rt, q, t) && On(m.rt.board, e, Immediate)
  {
    hide Run, Inv, ThreadInv;
    Reachable(ms, steps, i);
    NoLostWakeup(ms, steps, i, t);
    var m := ms[i];
    EventThread(m.rt, m.progs[t].op.e);
    LockWait(m.rt, t, m.progs[t], q);
    var e := m.progs[t].op.e;
    assert On(m.rt.board, e, m.rt.board.events[e].el.value);
  }

  /** Where the event of a tc_mutex_lock wait can be. */
  lemma LockWait(s: State, t: Tid, p: Prog, q: Qid)
    requires ThreadInv(s, t, p) && p.op.Waiting? && p.op.kind == ForLock(q)
    ensures q in s.owner && HandedIff(s, q, t, p.op.e)
    ensures On(s.board, p.op.e, Waitq(q)) ==> s.owner[q].Some?
    ensures Sourced(s.board, p.op.e, Waitq(q))
  {
    hide FramesInv, OpInv, Covered;
  }

  // ---------------------------------------------------------------- a hand-over ends in RV_OK

  /** m_owner after a step. */
  function OwnersAfter(m: Machine, step: Step): map<Qid, Option<Tid>>
    requires Guard(m, step) && Safe(m, step)
  {
    match step
    case LockEntry(t, q) => Cas(m.rt, q, t).owner
    case TryLock(t, q) => Cas(m.rt, q, t).owner
    case TryCas(t) => Cas(m.rt, m.progs[t].op.m, t).owner
    case UnlockMutex(t, q) => Unlock(m.rt, q).owner
    case _ => m.rt.owner
  }

  lemma OwnerStep(m: Machine, step: Step)
    requires Guard(m, step) && Safe(m, step)
    ensures Apply(m, step).rt.owner == OwnersAfter(m, step)
  {
    hide FinishFaults, Finish, RunOrQueue, Schedule, Pick, Without, Prepare, Subscribe, FinishDirect, WakeOne, Relocate, Spawn, Push;
    match step
    case FinishWait(u) => FinishEffect(m.rt, u, FinishTarget(m.progs[u]));
    case LockFinish(u) => FinishEffect(m.rt, u, FinishTarget(m.progs[u]));
    case Dispatch(e) => DispatchOwner(m.rt, e);
    case EnterScheduler(u) => ScheduleOwner(m.rt, u);
    case _ => if InMutexCall(step) { OwnerLockStep(m, step); } else { OwnerClientStep(m, step); }
  }

  /** A step of a mutex operation, except for its call of tc_waitq_finish_wait, or of a thread's exit. */
  predicate InMutexCall(step: Step) {
    || step.LockEntry? || step.ReadOwner? || step.TryCas? || step.LockPrepare? || step.TryLock? || step.UnlockMutex?
    || step.Die? || step.FreeThread?
  }

  /** A step that calls neither tc_waitq_finish_wait, nor run_or_queue, nor tc_scheduler. */
  predicate Elementary(step: Step) {
    !step.FinishWait? && !step.LockFinish? && !step.Dispatch? && !step.EnterScheduler?
  }

  lemma OwnerLockStep(m: Machine, step: Step)
    requires InMutexCall(step) && Guard(m, step) && Safe(m, step)
    ensures Apply(m, step).rt.owner == OwnersAfter(m, step)
  {
    hide Without;
  }

  lemma OwnerClientStep(m: Machine, step: Step)
    requires Elementary(step) && !InMutexCall(step) && Guard(m, step) && Safe(m, step)
    ensures Apply(m, step).rt.owner == m.rt.owner
  {
    hide Without;
  }

  lemma DispatchOwner(s: State, e: Eid)
    requires Runnable(s, e)
    ensures RunOrQueue(s, e).0.owner == s.owner
  {
  }

  lemma ScheduleOwner(s: State, t: Tid)
    requires t in s.threads && (Pick(s, t).Some? ==> On(s.board, Pick(s, t).value, Pending(t)))
    ensures Schedule(s, t).owner == s.owner
  {
    hide Pick;
  }

  /** Ownership ends only with the owner's unlock. */
  lemma OwnsPersists(m: Machine, step: Step, q: Qid, t: Tid)
    requires Guard(m, step) && Safe(m, step) && Owns(m.rt, q, t)
    requires step.UnlockMutex? ==> Owns(m.rt, step.m, step.t)
    ensures Owns(Apply(m, step).rt, q, t) || step == UnlockMutex(t, q)
  {
    OwnerStep(m, step);
    hide Apply;
  }

  lemma UnlockerOwns(m: Machine, step: Step)
    requires Guard(m, step)
    requires MInv(m)
    ensures step.UnlockMutex? ==> Owns(m.rt, step.m, step.t)
  {
    hide Inv;
    hide ThreadInv;
    if step.UnlockMutex? { UnlockSafe(m.rt, step.t, m.progs[step.t], step.m); }
  }

  /** A tc_mutex_lock call goes on until it returns. */
  lemma StaysInLock(m: Machine, step: Step, q: Qid, t: Tid)
    requires Guard(m, step) && Safe(m, step) && t in m.progs && LockOn(m.progs[t].op) == Some(q)
    ensures t in Apply(m, step).progs
    ensures LockOn(Apply(m, step).progs[t].op) == Some(q)
            || (LockReturn(m, step).Some? && LockReturn(m, step).value.t == t && LockReturn(m, step).value.q == q)
  {
    hide Finish;
    hide FinishFaults;
    hide RunOrQueue;
    hide Schedule;
    hide Pick;
  }

  lemma {:induction false} HandedStays(ms: seq<Machine>, steps: seq<Step>, i: nat, j: nat, q: Qid, t: Tid)
    requires Run(ms, steps) && i <= j < |ms|
    requires t in ms[i].progs && Owns(ms[i].rt, q, t) && LockOn(ms[i].progs[t].op) == Some(q)
    requires forall k :: i <= k < j && Guard(ms[k], steps[k]) && Safe(ms[k], steps[k]) && LockReturn(ms[k], steps[k]).Some? ==>
                           LockReturn(ms[k], steps[k]).value.t != t
    ensures t in ms[j].progs && Owns(ms[j].rt, q, t) && LockOn(ms[j].progs[t].op) == Some(q)
    decreases j
  {
    hide MInv;
    hide Guard;
    hide Safe;
    hide Apply;
    hide LockReturn;
    if i < j {
      HandedStays(ms, steps, i, j - 1, q, t);
      Reachable(ms, steps, j - 1);
      assert Next(ms[j - 1], steps[j - 1], ms[j]);
      UnlockerOwns(ms[j - 1], steps[j - 1]);
      OwnsPersists(ms[j - 1], steps[j - 1], q, t);
      StaysInLock(ms[j - 1], steps[j - 1], q, t);
      NotUnlocking(ms[j - 1], steps[j - 1], q, t);
    }
  }

  lemma NotUnlocking(m: Machine, step: Step, q: Qid, t: Tid)
    requires Guard(m, step) && t in m.progs && LockOn(m.progs[t].op) == Some(q)
    ensures step != UnlockMutex(t, q)
  {
  }

  /** Once unlock has made a waiting thread the owner, its tc_mutex_lock returns RV_OK, signals or not. */
  lemma HandoverEndsOk(ms: seq<Machine>, steps: seq<Step>, i: nat, j: nat, q: Qid, t: Tid)
    requires Run(ms, steps) && i <= j < |steps|
    requires t in ms[i].progs && Owns(ms[i].rt, q, t) && LockOn(ms[i].progs[t].op) == Some(q)
    requires forall k :: i <= k < j && Guard(ms[k], steps[k]) && Safe(ms[k], steps[k]) && LockReturn(ms[k], steps[k]).Some? ==>
                           LockReturn(ms[k], steps[k]).value.t != t
    requires Next(ms[j], steps[j], ms[j + 1]) && LockReturn(ms[j], steps[j]).Some?
    requires LockReturn(ms[j], steps[j]).value.t == t
    ensures LockReturn(ms[j], steps[j]).value == Return(t, q, Ok)
    ensures q in ms[j + 1].progs[t].held
  {
    HandedStays(ms, steps, i, j, q, t);
    Reachable(ms, steps, j);
    LockReturnsRight(ms, steps, j);
    UnlockerOwns(ms[j], steps[j]);
    OwnsPersists(ms[j], steps[j], q, t);
    NotUnlocking(ms[j], steps[j], q, t);
    ReturnsItsLock(ms[j], steps[j], t, q);
    hide MInv;
    hide Guard;
    hide Safe;
    hide Apply;
    hide LockReturn;
  }

  lemma ReturnsItsLock(m: Machine, step: Step, t: Tid, q: Qid)
    requires Guard(m, step) && Safe(m, step) && t in m.progs && LockOn(m.progs[t].op) == Some(q)
    requires LockReturn(m, step).Some? && LockReturn(m, step).value.t == t
    ensures LockReturn(m, step).value.q == q
  {
    hide Finish;
    hide FinishFaults;
  }

  // ---------------------------------------------------------------- fairness

  /** The step leaves the mutex's queue alone, or acts on its own end of it. */
  predicate QueueAction(m: Machine, step: Step, q: Qid)
    requires Guard(m, step)
  {
    match step
    case LockPrepare(t, _) => m.progs[t].op.m == q
    case LockFinish(t) => LockOn(m.progs[t].op) == Some(q)
    case UnlockMutex(_, r) => r == q
    case _ => false
  }

  /** None of the events the step takes up is queued on the mutex. */
  ghost predicate OffQueue(m: Machine, step: Step, q: Qid)
    requires Guard(m, step) && Safe(m, step)
  {
    var l := Waitq(q);
    match step
    case FinishWait(t) =>
      && !On(m.rt.board, FinishTarget(m.progs[t]), l)
      && (m.rt.threads[t].woken.Some? && !Straight(m.rt, t, FinishTarget(m.progs[t])) ==> !On(m.rt.board, m.rt.threads[t].woken.value, l))
    case LockFinish(t) =>
      && !On(m.rt.board, FinishTarget(m.progs[t]), l)
      && (m.rt.threads[t].woken.Some? && !Straight(m.rt, t, FinishTarget(m.progs[t])) ==> !On(m.rt.board, m.rt.threads[t].woken.value, l))
    case FinishEvent(t) => !On(m.rt.board, m.progs[t].op.e, l)
    case UnsubscribeFrom(t, e) => !On(m.rt.board, e, l)
    case Dispatch(e) => m.rt.board.events[e].flag.Signal? ==> m.rt.board.events[e].flag.wq != q
    case EnterScheduler(t) =>
      Pick(m.rt, t).Some? ==> (m.rt.board.events[Pick(m.rt, t).value].flag.Signal? ==>
                                 m.rt.board.events[Pick(m.rt, t).value].flag.wq != q)
    case PrepareWait(t, e, r) => r != q
    case SubscribeTo(t, e, r) => r != q
    case LockPrepare(t, e) => m.progs[t].op.m != q
    case Wake(r) => r != q
    case _ => true
  }

  lemma SignalOff(m: Machine, e: Eid, q: Qid)
    requires MInv(m) && q in m.rt.owner && e in m.rt.board.events && m.rt.board.events[e].flag.Signal?
    ensures !On(m.rt.board, e, Waitq(q)) && m.rt.board.events[e].flag.wq != q
  {
    hide Inv;
    hide ThreadInv;
    assert FlagInv(m.rt, e) && QueueInv(m, e);
  }

  lemma OthersOff(m: Machine, t: Tid, e: Eid, q: Qid)
    requires MInv(m) && q in m.rt.owner && t in m.progs && Own(m.rt, t, e)
    requires LockOn(m.progs[t].op) != Some(q) || OpEvent(m.progs[t].op) != Some(e)
    ensures !On(m.rt.board, e, Waitq(q))
  {
    hide Inv;
    hide ThreadInv;
    assert QueueInv(m, e);
  }

  lemma StepOffQueue(m: Machine, step: Step, q: Qid)
    requires Guard(m, step) && Safe(m, step) && !QueueAction(m, step, q) && q in m.rt.owner
    requires MInv(m)
    ensures OffQueue(m, step, q)
  {
    hide Inv;
    hide ThreadInv;
    TargetOwn(m, step);
    match step
    case FinishWait(t) =>
      OthersOff(m, t, FinishTarget(m.progs[t]), q);
      if m.rt.threads[t].woken.Some? && !Straight(m.rt, t, FinishTarget(m.progs[t])) {
        SignalOff(m, m.rt.threads[t].woken.value, q);
      }
    case LockFinish(t) =>
      OthersOff(m, t, FinishTarget(m.progs[t]), q);
      if m.rt.threads[t].woken.Some? && !Straight(m.rt, t, FinishTarget(m.progs[t])) {
        SignalOff(m, m.rt.threads[t].woken.value, q);
      }
    case FinishEvent(t) => OthersOff(m, t, m.progs[t].op.e, q);
    case UnsubscribeFrom(t, e) => SignalOff(m, e, q);
    case Dispatch(e) => if m.rt.board.events[e].flag.Signal? { SignalOff(m, e, q); }
    case EnterScheduler(t) =>
      if Pick(m.rt, t).Some? && m.rt.board.events[Pick(m.rt, t).value].flag.Signal? {
        SignalOff(m, Pick(m.rt, t).value, q);
      }
    case _ =>
  }

  lemma QueueUntouched(m: Machine, step: Step, q: Qid)
    requires Guard(m, step) && Safe(m, step) && !QueueAction(m, step, q) && OffQueue(m, step, q)
    ensures At(Apply(m, step).rt.board, Waitq(q)) == At(m.rt.board, Waitq(q))
  {
    hide Pick, Without, FinishFaults, Straight, Finish, RunOrQueue, Schedule, Prepare, Subscribe, FinishDirect, WakeOne, Relocate, Spawn, Push, Unlock;
    match step
    case FinishWait(t) => FinishQueue(m.rt, t, FinishTarget(m.progs[t]), q);
    case LockFinish(t) => FinishQueue(m.rt, t, FinishTarget(m.progs[t]), q);
    case Dispatch(e) => DispatchQueue(m.rt, e, q);
    case EnterScheduler(t) => ScheduleQueue(m.rt, t, q);
    case _ => if InMutexCall(step) { LockQueueUntouched(m, step, q); } else { ClientQueueUntouched(m, step, q); }
  }

  lemma LockQueueUntouched(m: Machine, step: Step, q: Qid)
    requires InMutexCall(step) && Guard(m, step) && Safe(m, step) && !QueueAction(m, step, q) && OffQueue(m, step, q)
    ensures At(Apply(m, step).rt.board, Waitq(q)) == At(m.rt.board, Waitq(q))
  {
    hide Without;
  }

  lemma ClientQueueUntouched(m: Machine, step: Step, q: Qid)
    requires Elementary(step) && !InMutexCall(step) && Guard(m, step) && Safe(m, step) && OffQueue(m, step, q)
    ensures At(Apply(m, step).rt.board, Waitq(q)) == At(m.rt.board, Waitq(q))
  {
    hide Without;
  }

  lemma DispatchQueue(s: State, e: Eid, q: Qid)
    requires Runnable(s, e) && (s.board.events[e].flag.Signal? ==> s.board.events[e].flag.wq != q)
    ensures At(RunOrQueue(s, e).0.board, Waitq(q)) == At(s.board, Waitq(q))
  {
    hide Without;
  }

  lemma ScheduleQueue(s: State, t: Tid, q: Qid)
    requires t in s.threads && (Pick(s, t).Some? ==> On(s.board, Pick(s, t).value, Pending(t)))
    requires Pick(s, t).Some? && s.board.events[Pick(s, t).value].flag.Signal? ==>
               s.board.events[Pick(s, t).value].flag.wq != q
    ensures At(Schedule(s, t).board, Waitq(q)) == At(s.board, Waitq(q))
  {
    hide Without;
    hide Pick;
  }

  lemma FinishQueue(s: State, t: Tid, e: Eid, q: Qid)
    requires t in s.threads && t in s.board.refcnt && e in s.board.events && !FinishFaults(s, t, e)
    requires s.threads[t].woken.Some? && !Straight(s, t, e) ==> !On(s.board, s.threads[t].woken.value, Waitq(q))
    ensures At(Finish(s, t, e).0.board, Waitq(q)) ==
              if On(s.board, e, Waitq(q)) then Without(At(s.board, Waitq(q)), e) else At(s.board, Waitq(q))
  {
    hide Without;
  }

  /** e waits at position k. */
  predicate WaitsAt(m: Machine, q: Qid, e: Eid, k: int) {
    0 <= k < |At(m.rt.board, Waitq(q))| && At(m.rt.board, Waitq(q))[k] == e
  }

  predicate IsUnlock(step: Step, q: Qid) {
    step.UnlockMutex? && step.m == q
  }

  lemma QueueOrder(m: Machine, q: Qid)
    requires MInv(m)
    ensures Distinct(At(m.rt.board, Waitq(q)))
    ensures forall x :: x in At(m.rt.board, Waitq(q)) <==> On(m.rt.board, x, Waitq(q))
  {
    hide ThreadInv;
    assert ListNamed(m.rt.board, Waitq(q));
    forall x | On(m.rt.board, x, Waitq(q)) ensures x in At(m.rt.board, Waitq(q)) {
      assert Listed(m.rt.board, x);
    }
  }

  /** Unlock takes the head off the queue and makes its thread the owner. */
  lemma UnlockShift(s: State, q: Qid)
    requires WaitqSane(s, q) && q in s.owner && At(s.board, Waitq(q)) != []
    ensures At(Unlock(s, q).board, Waitq(q)) == At(s.board, Waitq(q))[1..]
    ensures Unlock(s, q).owner[q] == Some(s.board.events[At(s.board, Waitq(q))[0]].tc)
  {
  }

  /** A finish inside tc_mutex_lock takes its own event off the queue, if it is there. */
  lemma LockFinishQueue(m: Machine, t: Tid, q: Qid)
    requires Guard(m, LockFinish(t)) && Safe(m, LockFinish(t)) && q in m.rt.owner
    requires MInv(m)
    ensures var x := FinishTarget(m.progs[t]);
            At(Apply(m, LockFinish(t)).rt.board, Waitq(q)) ==
              if On(m.rt.board, x, Waitq(q)) then Without(At(m.rt.board, Waitq(q)), x) else At(m.rt.board, Waitq(q))
  {
    hide Inv;
    hide ThreadInv;
    var x := FinishTarget(m.progs[t]);
    if m.rt.threads[t].woken.Some? && !Straight(m.rt, t, x) {
      SignalOff(m, m.rt.threads[t].woken.value, q);
    }
    FinishQueue(m.rt, t, x, q);
    hide Finish;
  }

  /**
    One step moves a waiter only forward: one place per unlock.  It leaves the queue as
    the new owner, by the unlock that finds it first, or by its own finish.
   */
  lemma QueueStep(m: Machine, step: Step, m': Machine, q: Qid, e: Eid, k: nat)
    requires Next(m, step, m') && q in m.rt.owner && WaitsAt(m, q, e, k)
    requires MInv(m)
    ensures On(m.rt.board, e, Waitq(q))
    ensures if On(m'.rt.board, e, Waitq(q)) then
              if IsUnlock(step, q) then k > 0 && WaitsAt(m', q, e, k - 1)
              else WaitsAt(m', q, e, k) || WaitsAt(m', q, e, k - 1)
            else
              if IsUnlock(step, q) then k == 0 && Owns(m'.rt, q, m.rt.board.events[e].tc)
              else step == LockFinish(m.rt.board.events[e].tc)
  {
    hide MInv;
    hide OffQueue;
    StepKeeps(m, step);
    QueueOrder(m, q);
    QueueOrder(m', q);
    if IsUnlock(step, q) {
      UnlockShift(m.rt, q);
    } else if step.LockFinish? {
      assert On(m.rt.board, e, Waitq(q));
      TargetOwn(m, step);
      LockFinishQueue(m, step.t, q);
      hide Apply;
      FinishMoves(m, step.t, m', q, e, k);
    } else if step.LockPrepare? && m.progs[step.t].op.m == q {
      hide Without;
    } else {
      StepOffQueue(m, step, q);
      QueueUntouched(m, step, q);
      hide Apply;
    }
  }

  lemma FinishMoves(m: Machine, t: Tid, m': Machine, q: Qid, e: Eid, k: nat)
    requires Guard(m, LockFinish(t)) && WaitsAt(m, q, e, k) && e in m.rt.board.events
    requires Distinct(At(m.rt.board, Waitq(q)))
    requires forall x :: x in At(m.rt.board, Waitq(q)) <==> On(m.rt.board, x, Waitq(q))
    requires Own(m.rt, t, FinishTarget(m.progs[t]))
    requires var x := FinishTarget(m.progs[t]);
             At(m'.rt.board, Waitq(q)) ==
               if On(m.rt.board, x, Waitq(q)) then Without(At(m.rt.board, Waitq(q)), x) else At(m.rt.board, Waitq(q))
    ensures FinishTarget(m.progs[t]) != e ==> WaitsAt(m', q, e, k) || WaitsAt(m', q, e, k - 1)
    ensures FinishTarget(m.progs[t]) == e ==> t == m.rt.board.events[e].tc
  {
    var x := FinishTarget(m.progs[t]);
    hide FinishTarget, Distinct;
    if On(m.rt.board, x, Waitq(q)) && x != e {
      ShiftPast(At(m.rt.board, Waitq(q)), x, e, k);
      hide Without;
    }
  }

  /** Who stands behind the one that leaves moves up. */
  lemma ShiftPast(w: seq<Eid>, x: Eid, e: Eid, k: nat)
    requires Distinct(w) && x in w && x != e && k < |w| && w[k] == e
    ensures var r := Without(w, x); (k < |r| && r[k] == e) || (0 < k <= |r| && r[k - 1] == e)
  {
    var i :| 0 <= i < |w| && w[i] == x;
    WithoutAt(w, x, i);
    hide Without;
  }

  /** How often the mutex was unlocked in steps[i..j]. */
  function Unlocks(steps: seq<Step>, q: Qid, i: nat, j: nat): nat
    requires i <= j <= |steps|
    decreases j
  {
    if i == j then 0 else Unlocks(steps, q, i, j - 1) + (if IsUnlock(steps[j - 1], q) then 1 else 0)
  }

  /** A waiter that stays queued has moved up one place for every unlock. */
  lemma {:induction false} FairQueue(ms: seq<Machine>, steps: seq<Step>, i: nat, j: nat, q: Qid, e: Eid, k: nat)
    returns (k': nat)
    requires Run(ms, steps) && i <= j < |ms| && q in ms[i].rt.owner && WaitsAt(ms[i], q, e, k)
    requires forall h :: i <= h <= j ==> On(ms[h].rt.board, e, Waitq(q))
    ensures WaitsAt(ms[j], q, e, k') && k' + Unlocks(steps, q, i, j) <= k
    ensures q in ms[j].rt.owner
    decreases j
  {
    hide MInv;
    hide Guard;
    hide Safe;
    hide Apply;
    if i == j {
      k' := k;
    } else {
      var h := FairQueue(ms, steps, i, j - 1, q, e, k);
      Reachable(ms, steps, j - 1);
      Reachable(ms, steps, j);
      assert Next(ms[j - 1], steps[j - 1], ms[j]);
      QueueStep(ms[j - 1], steps[j - 1], ms[j], q, e, h);
      SameMutexes(ms[j - 1], steps[j - 1]);
      k' := if IsUnlock(steps[j - 1], q) || !WaitsAt(ms[j], q, e, h) then h - 1 else h;
    }
  }

  lemma SameMutexes(m: Machine, step: Step)
    requires Guard(m, step) && Safe(m, step)
    ensures Apply(m, step).rt.owner.Keys == m.rt.owner.Keys
  {
    OwnerStep(m, step);
    hide Apply;
  }

  /** A queued event stays its thread's. */
  lemma StaysQueued(m: Machine, step: Step, m': Machine, q: Qid, e: Eid)
    requires Next(m, step, m') && On(m.rt.board, e, Waitq(q)) && On(m'.rt.board, e, Waitq(q))
    ensures m'.rt.board.events[e].tc == m.rt.board.events[e].tc
  {
    EventsKept(m, step);
    hide Apply, Guard, Safe;
  }

  /** A waiter's own finish takes it off the queue: it has the mutex already, or it reports RV_INTR. */
  lemma LeavesQueue(m: Machine, t: Tid, q: Qid, e: Eid)
    requires Guard(m, LockFinish(t)) && Safe(m, LockFinish(t)) && q in m.rt.owner && On(m.rt.board, e, Waitq(q))
    requires m.rt.board.events[e].tc == t && MInv(m)
    ensures Owns(m.rt, q, t) || LockReturn(m, LockFinish(t)) == Some(Return(t, q, Intr))
  {
    hide Inv, ThreadInv, Finish, FinishFaults;
    assert QueueInv(m, e);
    InLock(m.rt, t, m.progs[t]);
    LockFinishOutcome(m.rt, t, m.progs[t]);
  }

  /** How the waiter came off the queue in step h. */
  ghost predicate ComesOff(ms: seq<Machine>, steps: seq<Step>, h: nat, q: Qid, t: Tid)
    requires h < |steps| && |ms| == |steps| + 1
  {
    && Next(ms[h], steps[h], ms[h + 1])
    && (|| (IsUnlock(steps[h], q) && Owns(ms[h + 1].rt, q, t))
        || (steps[h] == LockFinish(t)
            && (Owns(ms[h].rt, q, t) || LockReturn(ms[h], steps[h]) == Some(Return(t, q, Intr)))))
  }

  /** The waiter is queued up to state j, or came off before. */
  lemma {:induction false} QueuedOrOff(ms: seq<Machine>, steps: seq<Step>, i: nat, j: nat, q: Qid, e: Eid, k: nat)
    returns (h: nat)
    requires Run(ms, steps) && i <= j < |ms| && q in ms[i].rt.owner && WaitsAt(ms[i], q, e, k)
    requires On(ms[i].rt.board, e, Waitq(q))
    ensures i <= h <= j && forall g :: i <= g <= h ==> On(ms[g].rt.board, e, Waitq(q))
    ensures On(ms[h].rt.board, e, Waitq(q)) && ms[h].rt.board.events[e].tc == ms[i].rt.board.events[e].tc
    ensures h < j ==> ComesOff(ms, steps, h, q, ms[i].rt.board.events[e].tc)
    decreases j
  {
    hide MInv, Guard, Safe, Apply, LockReturn;
    if i == j {
      h := i;
    } else {
      h := QueuedOrOff(ms, steps, i, j - 1, q, e, k);
      if h == j - 1 {
        var k' := FairQueue(ms, steps, i, h, q, e, k);
        Reachable(ms, steps, h);
        assert Next(ms[h], steps[h], ms[h + 1]);
        QueueStep(ms[h], steps[h], ms[h + 1], q, e, k');
        if On(ms[j].rt.board, e, Waitq(q)) {
          StaysQueued(ms[h], steps[h], ms[j], q, e);
          h := j;
        } else if !IsUnlock(steps[h], q) {
          LeavesQueue(ms[h], ms[h].rt.board.events[e].tc, q, e);
        }
      }
    }
  }

  /** A waiter at position k owns the mutex after at most k + 1 unlocks, unless it leaves with RV_INTR before. */
  lemma FairMutex(ms: seq<Machine>, steps: seq<Step>, i: nat, j: nat, q: Qid, e: Eid, k: nat) returns (h: nat)
    requires Run(ms, steps) && i <= j <= |steps| && q in ms[i].rt.owner && WaitsAt(ms[i], q, e, k)
    requires Unlocks(steps, q, i, j) >= k + 1
    ensures i <= h < j && (forall g :: i <= g <= h ==> On(ms[g].rt.board, e, Waitq(q)))
    ensures Unlocks(steps, q, i, h) <= k
    ensures On(ms[i].rt.board, e, Waitq(q)) && ComesOff(ms, steps, h, q, ms[i].rt.board.events[e].tc)
  {
    hide MInv, Guard, Safe, Apply, LockReturn, ComesOff;
    Reachable(ms, steps, i);
    QueueOrder(ms[i], q);
    assert e in At(ms[i].rt.board, Waitq(q));
    h := QueuedOrOff(ms, steps, i, j, q, e, k);
    var k' := FairQueue(ms, steps, i, h, q, e, k);
  }

  /** m_owner becomes NULL only by an unlock that finds nobody queued. */
  lemma FreedOnlyWhenEmpty(ms: seq<Machine>, steps: seq<Step>, i: nat, q: Qid)
    requires Run(ms, steps) && i < |steps| && q in ms[i].rt.owner && ms[i].rt.owner[q].Some?
    requires q in ms[i + 1].rt.owner && ms[i + 1].rt.owner[q].None?
    ensures IsUnlock(steps[i], q) && At(ms[i].rt.board, Waitq(q)) == []
  {
    var m, step := ms[i], steps[i];
    assert Next(m, step, ms[i + 1]);
    OwnerStep(m, step);
    hide Run, Apply;
  }

  /** tc_mutex_trylock takes the mutex exactly when it is free, and changes nothing otherwise. */
  lemma TryLockExact(ms: seq<Machine>, steps: seq<Step>, i: nat, t: Tid, q: Qid)
    requires Run(ms, steps) && i < |steps| && steps[i] == TryLock(t, q)
    ensures q in ms[i].rt.owner && t in ms[i + 1].progs
    ensures if ms[i].rt.owner[q].None? then Owns(ms[i + 1].rt, q, t) && q in ms[i + 1].progs[t].held else ms[i + 1] == ms[i]
  {
    assert Next(ms[i], steps[i], ms[i + 1]);
    hide Run;
    if ms[i].rt.owner[q].Some? { assert ms[i + 1].progs == ms[i].progs; }
  }
}

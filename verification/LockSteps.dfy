/** The mutex operations keep the machine's invariant. */
module LockSteps {
  import opened Common
  import opened Events
  import opened Runtime
  import opened Machine
  import opened Steps

  // ---------------------------------------------------------------- steps that leave the events alone

  lemma OwnerKeeps(s: State, owner: map<Qid, Option<Tid>>)
    requires Inv(s)
    ensures Inv(s.(owner := owner))
  {
    hide Placed;
    var s' := s.(owner := owner);
    forall t | t in s'.threads ensures ParkedRight(s', t) { assert ParkedRight(s, t); }
  }

  /** The waiting event, if any, stays the one queued for the mutex. */
  ghost predicate SameQueueing(op: Op, op': Op) {
    OpEvent(op).None? || LockOn(op).None? || (OpEvent(op') == OpEvent(op) && LockOn(op') == LockOn(op))
  }

  lemma OwnerMove(m: Machine, m': Machine, t: Tid)
    requires MInv(m) && t in m.progs && t in m'.progs
    requires m'.rt == m.rt.(owner := m'.rt.owner) && m'.rt.owner.Keys == m.rt.owner.Keys
    requires m'.progs == m.progs[t := m'.progs[t]]
    requires OthersOwn(m.rt, m'.rt, t)
    requires ThreadInv(m'.rt, t, m'.progs[t]) && SameQueueing(m.progs[t].op, m'.progs[t].op) && !m.progs[t].op.Dying?
    requires forall q: Qid :: Owns(m'.rt, q, t) ==> q in m'.progs[t].held || LockOn(m'.progs[t].op) == Some(q)
    ensures MInv(m')
  {
    hide Inv;
    hide ThreadInv;
    OwnerKeeps(m.rt, m'.rt.owner);
    forall x | x in m'.rt.board.events && m'.rt.board.events[x].tc == t ensures QueueInv(m', x) && FlagInv(m'.rt, x) {
      assert QueueInv(m, x) && FlagInv(m.rt, x);
    }
    Assemble(m, m', t);
  }

  /** The program parts of the invariant do not look at m_owner. */
  lemma ProgOwner(s: State, s': State, t: Tid, p: Prog, p': Prog)
    requires ThreadInv(s, t, p) && s' == s.(owner := s'.owner) && s'.owner.Keys == s.owner.Keys
    requires p'.waits == p.waits && OpEvent(p'.op) == OpEvent(p.op)
    requires OpEvent(p.op).Some? ==> OpSource(p'.op) == OpSource(p.op)
    requires p.op == Client || p.op.LockRead? || p.op.LockCas?
    requires !p'.op.Starting? && !p'.op.Pushing? && !p'.op.Waiting? && !p'.op.Dying?
    requires p'.op.ToSched? ==> p'.op.kind != Plain
    ensures ProgInv(s', t, p')
  {
    hide LockInv;
    forall i | 0 <= i < |p.waits| ensures FrameInv(s', t, p', i) {
      assert FrameInv(s, t, p, i);
    }
  }

  lemma LockEntryStep(m: Machine, t: Tid, q: Qid)
    requires MInv(m) && Guard(m, LockEntry(t, q))
    ensures MInv(Apply(m, LockEntry(t, q)))
  {
    hide Inv;
    hide ThreadInv;
    var m' := Apply(m, LockEntry(t, q));
    EntryGood(m.rt, t, m.progs[t], q);
    OwnedByNow(m, m', t, q);
    OwnerMove(m, m', t);
  }

  lemma TryLockStep(m: Machine, t: Tid, q: Qid)
    requires MInv(m) && Guard(m, TryLock(t, q))
    ensures MInv(Apply(m, TryLock(t, q)))
  {
    hide Inv;
    hide ThreadInv;
    var m' := Apply(m, TryLock(t, q));
    EntryGood(m.rt, t, m.progs[t], q);
    assert m'.progs == m.progs[t := m'.progs[t]];
    OwnedByNow(m, m', t, q);
    OwnerMove(m, m', t);
  }

  /** What t owns after a compare-and-swap on q. */
  lemma OwnedByNow(m: Machine, m': Machine, t: Tid, q: Qid)
    requires forall r :: r in m.rt.owner ==> OwnerInv(m, r)
    requires t in m.progs && t in m'.progs && m'.rt.owner == Cas(m.rt, q, t).owner
    requires m.progs[t].held <= m'.progs[t].held
    requires LockOn(m.progs[t].op).Some? ==>
               LockOn(m'.progs[t].op) == LockOn(m.progs[t].op) || LockOn(m.progs[t].op).value in m'.progs[t].held
                 || !Owns(m'.rt, LockOn(m.progs[t].op).value, t)
    requires CasWins(m.rt, q) ==> q in m'.progs[t].held || LockOn(m'.progs[t].op) == Some(q)
    ensures forall r: Qid :: Owns(m'.rt, r, t) ==> r in m'.progs[t].held || LockOn(m'.progs[t].op) == Some(r)
  {
    forall r: Qid | Owns(m'.rt, r, t) ensures r in m'.progs[t].held || LockOn(m'.progs[t].op) == Some(r) {
      if r in m.rt.owner { assert OwnerInv(m, r); }
    }
  }

  /** A first compare-and-swap: it wins, or the loser goes on in tc_mutex_lock or gives up. */
  lemma EntryGood(s: State, t: Tid, p: Prog, q: Qid)
    requires ThreadInv(s, t, p) && p.op == Client && q in s.owner
    ensures CasWins(s, q) ==> ThreadInv(Cas(s, q, t), t, Acquired(p, q))
    ensures !CasWins(s, q) ==> ThreadInv(Cas(s, q, t), t, p)
    ensures !CasWins(s, q) && !Owns(s, q, t) ==> ThreadInv(Cas(s, q, t), t, p.(op := LockRead(q, None)))
  {
    ProgOwner(s, Cas(s, q, t), t, p, Acquired(p, q));
    ProgOwner(s, Cas(s, q, t), t, p, p.(op := LockRead(q, None)));
    hide ProgInv;
  }

  lemma ReadOwnerStep(m: Machine, t: Tid)
    requires MInv(m) && Guard(m, ReadOwner(t))
    ensures MInv(Apply(m, ReadOwner(t)))
  {
    hide Inv;
    hide ThreadInv;
    var m' := Apply(m, ReadOwner(t));
    ReadGood(m.rt, t, m.progs[t]);
    forall r: Qid | Owns(m'.rt, r, t) ensures r in m'.progs[t].held || LockOn(m'.progs[t].op) == Some(r) {
      assert OwnerInv(m, r);
    }
    OwnerMove(m, m', t);
  }

  lemma ReadGood(s: State, t: Tid, p: Prog)
    requires ThreadInv(s, t, p) && p.op.LockRead?
    ensures ThreadInv(s, t, ReadProg(s, t, p))
  {
    ProgOwner(s, s, t, p, ReadProg(s, t, p));
    hide ProgInv;
  }

  lemma TryCasStep(m: Machine, t: Tid)
    requires MInv(m) && Guard(m, TryCas(t))
    ensures MInv(Apply(m, TryCas(t)))
  {
    hide Inv;
    hide ThreadInv;
    var p := m.progs[t];
    var m' := Apply(m, TryCas(t));
    CasGood(m.rt, t, p);
    OwnedByNow(m, m', t, p.op.m);
    OwnerMove(m, m', t);
  }

  lemma CasGood(s: State, t: Tid, p: Prog)
    requires ThreadInv(s, t, p) && p.op.LockCas?
    ensures ThreadInv(Cas(s, p.op.m, t), t, CasProg(s, t, p))
  {
    ProgOwner(s, Cas(s, p.op.m, t), t, p, CasProg(s, t, p));
    hide ProgInv;
  }

  // ---------------------------------------------------------------- queueing

  lemma LockPrepareStep(m: Machine, t: Tid, e: Eid)
    requires MInv(m) && Guard(m, LockPrepare(t, e))
    ensures Safe(m, LockPrepare(t, e)) && MInv(Apply(m, LockPrepare(t, e)))
  {
    hide Inv, ThreadInv, QueueInv, FlagInv;
    Counted(m.rt, t);
    PrepareKeeps(m.rt, t, e, m.progs[t].op.m);
    LockPrepareGood(m.rt, t, m.progs[t], e);
    var m' := Apply(m, LockPrepare(t, e));
    LockPrepareOwn(m, t, e, m.progs[t].op.m, m');
    hide OwnGood;
    Assemble(m, m', t);
  }

  lemma LockPrepareOwn(m: Machine, t: Tid, e: Eid, q: Qid, m': Machine)
    requires MInv(m) && t in m.progs && m.progs[t].op == LockPrep(q) && e !in m.rt.board.events
    requires m'.progs == m.progs[t := m.progs[t].(op := LockRead(q, Some(e)))] && m'.rt.owner == m.rt.owner
    requires exists next :: m'.rt.board.events == m.rt.board.events[e := Event(t, Ready, next, Some(Waitq(q)))]
    requires ThreadInv(m'.rt, t, m'.progs[t])
    ensures OwnGood(m', t)
  {
    hide Inv, ThreadInv;
    forall x | x in m'.rt.board.events && m'.rt.board.events[x].tc == t ensures QueueInv(m', x) && FlagInv(m'.rt, x) {
      assert QueueInv(m, x) && FlagInv(m.rt, x);
    }
    forall r: Qid | Owns(m'.rt, r, t) ensures r in m'.progs[t].held || LockOn(m'.progs[t].op) == Some(r) {
      assert OwnerInv(m, r);
    }
  }

  lemma LockPrepareGood(s: State, t: Tid, p: Prog, e: Eid)
    requires ThreadInv(s, t, p) && p.op.LockPrep? && e !in s.board.events && t in s.board.refcnt
    ensures ThreadInv(Prepare(s, t, e, p.op.m), t, p.(op := LockRead(p.op.m, Some(e))))
  {
    var s' := Prepare(s, t, e, p.op.m);
    var p' := p.(op := LockRead(p.op.m, Some(e)));
    forall i | 0 <= i < |p.waits| ensures FrameInv(s', t, p', i) && p.waits[i].e != e {
      assert FrameInv(s, t, p, i);
    }
    forall x: Eid | Own(s', t, x) && Listed(s'.board, x) ensures OpEvent(p'.op) == Some(x) || InWaits(p.waits, x) {
      if x != e { assert Own(s, t, x) && Listed(s.board, x); }
    }
  }

  // ---------------------------------------------------------------- finishing

  /** A finish inside tc_mutex_lock meets no fault, and reports an interrupt exactly when the mutex was not handed over. */
  lemma LockFinishOutcome(s: State, t: Tid, p: Prog)
    requires Inv(s) && ThreadInv(s, t, p) && s.threads[t].running
    requires p.op.LockDone? || (p.op.Waiting? && p.op.kind.ForLock?)
    ensures t in s.board.refcnt && Own(s, t, p.op.e) && !FinishFaults(s, t, p.op.e)
    ensures Finish(s, t, p.op.e).1 <==> !Owns(s, LockOn(p.op).value, t)
  {
    Counted(s, t);
    EventThread(s, p.op.e);
    hide Inv;
    FinishEffect(s, t, p.op.e);
    hide Finish;
  }

  lemma LockFinishStep(m: Machine, t: Tid)
    requires MInv(m) && Guard(m, LockFinish(t))
    ensures Safe(m, LockFinish(t)) && MInv(Apply(m, LockFinish(t)))
  {
    hide Inv;
    hide ThreadInv;
    var p := m.progs[t];
    var e := p.op.e;
    LockFinishOutcome(m.rt, t, p);
    FinishKeeps(m.rt, t, e);
    FinishEffect(m.rt, t, e);
    hide Finish;
    hide FinishFaults;
    var m' := Apply(m, LockFinish(t));
    var intr := Finish(m.rt, t, e).1;
    LockFinishOwn(m, t, m'.rt, intr, m');
    FinishedOnlyOwn(m.rt, m'.rt, t, e, intr);
    hide OwnGood;
    hide Finished;
    hide LockOn;
    Assemble(m, m', t);
  }

  lemma LockFinishOwn(m: Machine, t: Tid, s': State, intr: bool, m': Machine)
    requires Guard(m, LockFinish(t)) && m' == Machine(s', m.progs[t := LockFinishProg(m.progs[t], intr)])
    requires m.progs[t].op.e in m.rt.board.events && Finished(m.rt, s', t, m.progs[t].op.e, intr)
    requires intr <==> !Owns(m.rt, LockOn(m.progs[t].op).value, t)
    requires MInv(m)
    ensures OwnGood(m', t)
  {
    hide Inv;
    hide ThreadInv;
    var p := m.progs[t];
    LockFinishGood(m.rt, s', t, p, intr);
    forall x | x in s'.board.events && s'.board.events[x].tc == t ensures QueueInv(m', x) && FlagInv(s', x) {
      assert QueueInv(m, x) && FlagInv(m.rt, x);
    }
    forall r: Qid | Owns(s', r, t) ensures r in m'.progs[t].held || LockOn(m'.progs[t].op) == Some(r) {
      assert OwnerInv(m, r);
    }
  }

  lemma LockFinishGood(s: State, s': State, t: Tid, p: Prog, intr: bool)
    requires ThreadInv(s, t, p) && s.threads[t].running
    requires p.op.LockDone? || (p.op.Waiting? && p.op.kind.ForLock?)
    requires p.op.e in s.board.events && Finished(s, s', t, p.op.e, intr)
    requires intr <==> !Owns(s, LockOn(p.op).value, t)
    ensures ThreadInv(s', t, LockFinishProg(p, intr))
  {
    LockFinishFrames(s, s', t, p, intr);
    hide FramesInv;
    hide Covered;
  }

  lemma LockFinishFrames(s: State, s': State, t: Tid, p: Prog, intr: bool)
    requires t in s.threads && FramesInv(s, t, p) && OpOwn(s, t, p) && Covered(s, t, p)
    requires p.op.LockDone? || (p.op.Waiting? && p.op.kind.ForLock?)
    requires p.op.e in s.board.events && Finished(s, s', t, p.op.e, intr)
    ensures FramesInv(s', t, LockFinishProg(p, intr)) && Covered(s', t, LockFinishProg(p, intr))
    ensures intr ==> Base(AfterInner(p.waits, true), Some(p.op.e))
  {
    FramesAfter(s, s', t, p, p.op.e, LockFinishProg(p, intr), intr);
    assert intr && p.waits != [] ==> forall i :: 0 <= i < |p.waits| ==> AfterInner(p.waits, true)[i].e == p.waits[i].e;
  }

  /** The outstanding waits of the thread when an operation on e has been finished. */
  lemma FramesAfter(s: State, s': State, t: Tid, p: Prog, e: Eid, p': Prog, intr: bool)
    requires t in s.threads && FramesInv(s, t, p) && Covered(s, t, p)
    requires OpEvent(p.op) == Some(e) && OpEvent(p'.op).None? && !InWaits(p.waits, e)
    requires e in s.board.events && Finished(s, s', t, e, intr)
    requires |p'.waits| == |p.waits|
    requires forall i :: 0 <= i < |p.waits| ==> p'.waits[i].e == p.waits[i].e && p'.waits[i].q == p.waits[i].q
    requires forall i :: 1 <= i < |p.waits| ==> p'.waits[i] == p.waits[i]
    ensures FramesInv(s', t, p') && Covered(s', t, p')
  {
    forall i | 0 <= i < |p'.waits| ensures FrameInv(s', t, p', i) {
      assert FrameInv(s, t, p, i) && p.waits[i].e != e;
      assert p'.waits[i + 1..] == p.waits[i + 1..];
    }
    forall x: Eid | Own(s', t, x) && Listed(s'.board, x) ensures InWaits(p'.waits, x) {
      assert Own(s, t, x) && Listed(s.board, x);
      var i :| 0 <= i < |p.waits| && p.waits[i].e == x;
      assert p'.waits[i].e == x;
    }
  }

  // ---------------------------------------------------------------- unlock

  lemma UnlockSafe(s: State, t: Tid, p: Prog, q: Qid)
    requires ThreadInv(s, t, p) && q in p.held
    ensures Owns(s, q, t)
  {
  }

  /** The queue and the names agree: an empty queue has no waiter, a head is queued. */
  lemma UnlockQueue(s: State, q: Qid)
    requires Inv(s)
    ensures At(s.board, Waitq(q)) == [] ==> forall x :: !On(s.board, x, Waitq(q))
    ensures At(s.board, Waitq(q)) != [] ==> On(s.board, At(s.board, Waitq(q))[0], Waitq(q))
  {
    assert ListNamed(s.board, Waitq(q));
    if At(s.board, Waitq(q)) == [] {
      forall x ensures !On(s.board, x, Waitq(q)) {
        assert Listed(s.board, x) ==> x in At(s.board, s.board.events[x].el.value);
      }
    }
  }

  /** The mutex goes to nobody, when nobody is queued, or to the thread of the queued event e. */
  ghost predicate Handed(s: State, s': State, t: Tid, q: Qid, oe: Option<Eid>) {
    && Owns(s, q, t) && s'.threads == s.threads
    && match oe
       case None => s'.owner == s.owner[q := None] && s'.board.events == s.board.events
                    && forall x :: !On(s.board, x, Waitq(q))
       case Some(e) =>
         && On(s.board, e, Waitq(q))
         && s'.owner == s.owner[q := Some(s.board.events[e].tc)]
         && s'.board.events == s.board.events[e := s.board.events[e].(el := Some(Immediate))]
  }

  lemma UnlockThread(s: State, s': State, t: Tid, q: Qid, oe: Option<Eid>, u: Tid, p: Prog)
    requires Handed(s, s', t, q, oe) && ThreadInv(s, u, p)
    requires u == t ==> LockOn(p.op).None? && q !in p.held
    requires oe.Some? && s.board.events[oe.value].tc == u ==> u != t && LockOn(p.op) == Some(q) && OpEvent(p.op) == oe
    ensures ThreadInv(s', u, p)
  {
    assert Similar(s, s', u);
    SimilarProg(s, s', u, p);
    hide ProgInv;
    OpEventIn(s, u, p);
    UnlockLock(s, s', t, q, oe, u, p);
  }

  lemma OpEventIn(s: State, t: Tid, p: Prog)
    requires t in s.threads && ThreadInv(s, t, p)
    ensures OpEvent(p.op).Some? ==> Own(s, t, OpEvent(p.op).value)
  {
  }

  lemma UnlockLock(s: State, s': State, t: Tid, q: Qid, oe: Option<Eid>, u: Tid, p: Prog)
    requires Handed(s, s', t, q, oe) && LockInv(s, u, p)
    requires OpEvent(p.op).Some? ==> Own(s, u, OpEvent(p.op).value)
    requires u == t ==> LockOn(p.op).None? && q !in p.held
    requires oe.Some? && s.board.events[oe.value].tc == u ==> u != t && LockOn(p.op) == Some(q) && OpEvent(p.op) == oe
    ensures LockInv(s', u, p)
  {
  }

  lemma UnlockStep(m: Machine, t: Tid, q: Qid)
    requires MInv(m) && Guard(m, UnlockMutex(t, q))
    ensures Safe(m, UnlockMutex(t, q)) && MInv(Apply(m, UnlockMutex(t, q)))
  {
    hide Inv;
    hide ThreadInv;
    UnlockSafe(m.rt, t, m.progs[t], q);
    UnlockQueue(m.rt, q);
    WakeOneKeeps(m.rt, q);
    OwnerKeeps(WakeOne(m.rt, q), Unlock(m.rt, q).owner);
    var m' := Apply(m, UnlockMutex(t, q));
    var w := At(m.rt.board, Waitq(q));
    var oe := if w == [] then None else Some(w[0]);
    hide At;
    UnlockRest(m, t, q, oe, m');
  }

  lemma UnlockRest(m: Machine, t: Tid, q: Qid, oe: Option<Eid>, m': Machine)
    requires MInv(m) && Guard(m, UnlockMutex(t, q)) && Handed(m.rt, m'.rt, t, q, oe) && Inv(m'.rt)
    requires m'.progs == m.progs[t := m.progs[t].(held := m.progs[t].held - {q})]
    ensures MInv(m')
  {
    hide Inv;
    hide ThreadInv;
    if oe.Some? { assert QueueInv(m, oe.value); }
    UnlockQueues(m, t, q, oe, m');
    hide QueueInv, FlagInv;
    forall u | u in m'.progs ensures ThreadInv(m'.rt, u, m'.progs[u]) {
      if u == t { ReleaseHeld(m.rt, t, m.progs[t], q); } else { NotHeld(m.rt, u, m.progs[u], q, t); }
      UnlockThread(m.rt, m'.rt, t, q, oe, u, m'.progs[u]);
    }
  }

  lemma UnlockQueues(m: Machine, t: Tid, q: Qid, oe: Option<Eid>, m': Machine)
    requires t in m.progs && m.progs[t].op == Client && Handed(m.rt, m'.rt, t, q, oe)
    requires m'.progs == m.progs[t := m.progs[t].(held := m.progs[t].held - {q})]
    requires forall r :: r in m.rt.owner ==> OwnerInv(m, r)
    requires forall e :: QueueInv(m, e)
    requires forall e :: FlagInv(m.rt, e)
    ensures forall r :: r in m'.rt.owner ==> OwnerInv(m', r)
    ensures forall e :: QueueInv(m', e)
    ensures forall e :: FlagInv(m'.rt, e)
  {
    if oe.Some? { assert QueueInv(m, oe.value) && FlagInv(m.rt, oe.value); }
    forall r | r in m'.rt.owner ensures OwnerInv(m', r) { assert OwnerInv(m, r); }
    forall e ensures QueueInv(m', e) { assert QueueInv(m, e); }
    forall e ensures FlagInv(m'.rt, e) { assert FlagInv(m.rt, e); }
  }

  lemma ReleaseHeld(s: State, t: Tid, p: Prog, q: Qid)
    requires ThreadInv(s, t, p) && p.op == Client
    ensures ThreadInv(s, t, p.(held := p.held - {q}))
  {
    var p' := p.(held := p.held - {q});
    forall i | 0 <= i < |p.waits| ensures FrameInv(s, t, p', i) { assert FrameInv(s, t, p, i); }
  }

  lemma NotHeld(s: State, u: Tid, p: Prog, q: Qid, t: Tid)
    requires ThreadInv(s, u, p) && u != t && Owns(s, q, t)
    ensures q !in p.held
  {
  }
}

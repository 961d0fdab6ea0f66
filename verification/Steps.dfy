/** Every step of the machine keeps its invariant. */
module Steps {
  import opened Common
  import opened Events
  import opened Runtime
  import opened Machine

  // ---------------------------------------------------------------- bystanders

  /** Thread t's own events differ at most in which list they are on. */
  ghost predicate Similar(s: State, s': State, t: Tid) {
    && t in s.threads && t in s'.threads && s'.threads[t] == s.threads[t]
    && s'.owner.Keys == s.owner.Keys
    && (forall x :: x in s'.board.events && s'.board.events[x].tc == t ==>
          x in s.board.events && s.board.events[x].tc == t)
    && (forall x :: x in s.board.events && s.board.events[x].tc == t ==> x in s'.board.events && Shifted(s, s', x))
  }

  /** x is where it was, or went on to immediate or to its pending list; an exit event stays. */
  ghost predicate Shifted(s: State, s': State, x: Eid)
    requires x in s.board.events && x in s'.board.events
  {
    var ev := s.board.events[x];
    var ev' := s'.board.events[x];
    && ev' == ev.(el := ev'.el)
    && (ev'.el == ev.el || (ev.el.Some? && !ev.flag.Exiting? && (ev'.el == Some(Immediate) || ev'.el == Some(Pending(ev.tc)))))
  }

  lemma SimilarProg(s: State, s': State, t: Tid, p: Prog)
    requires Similar(s, s', t) && ProgInv(s, t, p)
    ensures ProgInv(s', t, p)
  {
    SimilarOp(s, s', t, p);
    hide OpInv;
    forall i | 0 <= i < |p.waits| ensures FrameInv(s', t, p, i) {
      assert FrameInv(s, t, p, i);
    }
    forall x: Eid | Own(s', t, x) && Listed(s'.board, x) ensures OpEvent(p.op) == Some(x) || InWaits(p.waits, x) {
      assert Own(s, t, x) && Listed(s.board, x);
    }
  }

  lemma SimilarOp(s: State, s': State, t: Tid, p: Prog)
    requires Similar(s, s', t) && ProgInv(s, t, p)
    ensures OpInv(s', t, p)
  {
    if p.waits != [] { assert FrameInv(s, t, p, 0); }
    hide FramesInv, Covered;
  }

  /** Nobody but t was touched. */
  ghost predicate OnlyOwn(s: State, s': State, t: Tid) {
    && s'.owner.Keys == s.owner.Keys
    && s'.threads.Keys + {t} == s.threads.Keys + {t}
    && (forall u :: u in s.threads && u != t ==> s'.threads[u] == s.threads[u])
    && (forall x :: x in s.board.events && s.board.events[x].tc != t ==>
          x in s'.board.events && s'.board.events[x] == s.board.events[x])
    && (forall x :: x in s'.board.events && s'.board.events[x].tc != t ==>
          x in s.board.events && s'.board.events[x] == s.board.events[x])
  }

  /** Ownership of the other threads is as it was, and no owned mutex became free. */
  ghost predicate OthersOwn(s: State, s': State, t: Tid) {
    && (forall q: Qid, u: Tid :: u != t ==> (Owns(s', q, u) <==> Owns(s, q, u)))
    && (forall q :: q in s.owner && q in s'.owner && s.owner[q].Some? ==> s'.owner[q].Some?)
  }

  lemma OtherThread(s: State, s': State, t: Tid, u: Tid, p: Prog)
    requires OnlyOwn(s, s', t) && OthersOwn(s, s', t)
    requires u != t && ThreadInv(s, u, p)
    ensures ThreadInv(s', u, p)
  {
    assert Similar(s, s', u);
    SimilarProg(s, s', u, p);
    OtherLock(s, s', t, u, p);
  }

  lemma OtherLock(s: State, s': State, t: Tid, u: Tid, p: Prog)
    requires OnlyOwn(s, s', t) && OthersOwn(s, s', t)
    requires u != t && ThreadInv(s, u, p)
    ensures LockInv(s', u, p)
  {
    if OpEvent(p.op).Some? {
      assert Own(s, u, OpEvent(p.op).value);
      assert s'.board.events[OpEvent(p.op).value] == s.board.events[OpEvent(p.op).value];
    }
  }

  /** The acting thread is in order after the step. */
  ghost predicate OwnGood(m: Machine, t: Tid) {
    && t in m.progs
    && ThreadInv(m.rt, t, m.progs[t])
    && (forall q: Qid :: Owns(m.rt, q, t) ==> q in m.progs[t].held || LockOn(m.progs[t].op) == Some(q))
    && (forall x :: x in m.rt.board.events && m.rt.board.events[x].tc == t ==> QueueInv(m, x) && FlagInv(m.rt, x))
  }

  lemma HasThread(s: State, t: Tid, p: Prog)
    requires ThreadInv(s, t, p)
    ensures t in s.threads
  {
  }

  lemma Assemble(m: Machine, m': Machine, t: Tid)
    requires MInv(m) && OnlyOwn(m.rt, m'.rt, t) && OthersOwn(m.rt, m'.rt, t)
    requires t in m'.progs && m'.progs == m.progs[t := m'.progs[t]]
    requires Inv(m'.rt) && OwnGood(m', t)
    ensures MInv(m')
  {
    hide Inv, ThreadInv;
    HasThread(m'.rt, t, m'.progs[t]);
    forall u | u in m'.progs ensures ThreadInv(m'.rt, u, m'.progs[u]) {
      if u != t { OtherThread(m.rt, m'.rt, t, u, m.progs[u]); }
    }
    forall q | q in m'.rt.owner ensures OwnerInv(m', q) {
      if m'.rt.owner[q].Some? {
        var u := m'.rt.owner[q].value;
        assert Owns(m'.rt, q, u);
        if u != t { assert Owns(m.rt, q, u) && OwnerInv(m, q); }
      }
    }
    forall e ensures QueueInv(m', e) {
      assert QueueInv(m, e);
    }
    forall e ensures FlagInv(m'.rt, e) {
      assert FlagInv(m.rt, e);
    }
  }

  lemma FinishedOnlyOwn(s: State, s': State, t: Tid, e: Eid, intr: bool)
    requires t in s.threads && Own(s, t, e) && Finished(s, s', t, e, intr)
    ensures OnlyOwn(s, s', t) && OthersOwn(s, s', t)
    ensures forall x :: x in s'.board.events ==> x in s.board.events && s'.board.events[x].tc == s.board.events[x].tc
                                                 && s'.board.events[x].flag == s.board.events[x].flag
    ensures forall x, q: Qid :: On(s'.board, x, Waitq(q)) ==> On(s.board, x, Waitq(q))
    ensures forall x :: FlagInv(s, x) ==> FlagInv(s', x)
  {
  }

  // ---------------------------------------------------------------- steps that only move events

  /** Events went on to immediate or pending; the mutex queues are as they were. */
  ghost predicate AllShifted(s: State, s': State) {
    && s'.threads == s.threads && s'.owner == s.owner
    && s'.board.events.Keys == s.board.events.Keys
    && (forall x :: x in s.board.events ==> Shifted(s, s', x))
    && (forall x, q :: x in s.board.events && q in s.owner ==>
                         (On(s'.board, x, Waitq(q)) <==> On(s.board, x, Waitq(q))))
  }

  lemma ShiftsThread(s: State, s': State, u: Tid, p: Prog)
    requires AllShifted(s, s') && ThreadInv(s, u, p)
    ensures ThreadInv(s', u, p)
  {
    assert Similar(s, s', u);
    SimilarProg(s, s', u, p);
    ShiftsLock(s, s', u, p);
  }

  lemma ShiftsLock(s: State, s': State, u: Tid, p: Prog)
    requires AllShifted(s, s') && ThreadInv(s, u, p)
    ensures LockInv(s', u, p)
  {
    if OpEvent(p.op).Some? {
      assert Own(s, u, OpEvent(p.op).value);
      assert Shifted(s, s', OpEvent(p.op).value);
    }
  }

  lemma Shifts(m: Machine, m': Machine)
    requires MInv(m) && m'.progs == m.progs && Inv(m'.rt) && AllShifted(m.rt, m'.rt)
    ensures MInv(m')
  {
    hide Inv;
    hide ThreadInv;
    forall u | u in m'.progs ensures ThreadInv(m'.rt, u, m'.progs[u]) {
      ShiftsThread(m.rt, m'.rt, u, m.progs[u]);
    }
    forall q | q in m'.rt.owner ensures OwnerInv(m', q) { assert OwnerInv(m, q); }
    forall e ensures QueueInv(m', e) {
      assert QueueInv(m, e);
    }
    forall e ensures FlagInv(m'.rt, e) {
      assert FlagInv(m.rt, e);
    }
  }

  lemma WakeStep(m: Machine, q: Qid)
    requires MInv(m) && q !in m.rt.owner
    ensures WaitqSane(m.rt, q) && MInv(m.(rt := WakeOne(m.rt, q)))
  {
    hide Inv;
    hide ThreadInv;
    WakeOneKeeps(m.rt, q);
    if At(m.rt.board, Waitq(q)) != [] { assert FlagInv(m.rt, At(m.rt.board, Waitq(q))[0]); }
    Shifts(m, m.(rt := WakeOne(m.rt, q)));
  }

  lemma FdWakeStep(m: Machine, e: Eid)
    requires MInv(m) && Guard(m, FdWake(e))
    ensures MInv(Apply(m, FdWake(e)))
  {
    hide Inv;
    hide ThreadInv;
    ToImmediateKeeps(m.rt, e, false);
    assert FlagInv(m.rt, e);
    Shifts(m, Apply(m, FdWake(e)));
  }

  // ---------------------------------------------------------------- dispatch

  lemma DispatchStep(m: Machine, e: Eid)
    requires MInv(m) && Guard(m, Dispatch(e))
    ensures MInv(Apply(m, Dispatch(e)))
  {
    hide Inv;
    hide ThreadInv;
    RunOrQueueKeeps(m.rt, e);
    var ev := m.rt.board.events[e];
    var m' := Apply(m, Dispatch(e));
    assert FlagInv(m.rt, e);
    if ev.flag.Exiting? {
      TakeExitStep(m, e);
    } else if Busy(m.rt.threads[ev.tc], ev, e) {
      Shifts(m, m');
    } else {
      DispatchGood(m, e);
      Assemble(m, m', ev.tc);
    }
  }

  lemma TakeExitStep(m: Machine, e: Eid)
    requires MInv(m) && Runnable(m.rt, e) && m.rt.board.events[e].flag.Exiting? && Inv(RunOrQueue(m.rt, e).0)
    ensures MInv(m.(rt := RunOrQueue(m.rt, e).0))
  {
    hide Inv, ThreadInv, FlagInv;
    assert QueueInv(m, e);
    TakeExitGood(m.rt, e, m.progs[m.rt.board.events[e].tc]);
    TakeExit(m, e, m.(rt := RunOrQueue(m.rt, e).0));
  }

  /** A worker takes the exit event of a dying thread off immediate. */
  lemma TakeExit(m: Machine, e: Eid, m': Machine)
    requires MInv(m) && Inv(m'.rt) && e in m.rt.board.events && m.rt.board.events[e].tc in m.progs
    requires m'.progs == m.progs && m'.rt.threads == m.rt.threads && m'.rt.owner == m.rt.owner
    requires m'.rt.board.events == m.rt.board.events[e := m.rt.board.events[e].(el := None)]
    requires ThreadInv(m'.rt, m.rt.board.events[e].tc, m.progs[m.rt.board.events[e].tc])
    ensures MInv(m')
  {
    hide Inv;
    hide ThreadInv;
    var t := m.rt.board.events[e].tc;
    forall x | x in m'.rt.board.events && m'.rt.board.events[x].tc == t ensures QueueInv(m', x) && FlagInv(m'.rt, x) {
      assert QueueInv(m, x) && FlagInv(m.rt, x);
    }
    forall q: Qid | Owns(m'.rt, q, t) ensures q in m.progs[t].held || LockOn(m.progs[t].op) == Some(q) {
      assert OwnerInv(m, q);
    }
    assert m'.progs == m.progs[t := m'.progs[t]];
    Assemble(m, m', t);
  }

  lemma TakeExitGood(s: State, e: Eid, p: Prog)
    requires Runnable(s, e) && s.board.events[e].flag.Exiting? && ThreadInv(s, s.board.events[e].tc, p) && p.op == Dying(e)
    ensures ThreadInv(RunOrQueue(s, e).0, s.board.events[e].tc, p)
  {
  }

  /** The event sets its thread going. */
  ghost predicate Fires(s: State, e: Eid) {
    && Runnable(s, e)
    && !s.board.events[e].flag.Exiting?
    && !Busy(s.threads[s.board.events[e].tc], s.board.events[e], e)
  }

  lemma DispatchGood(m: Machine, e: Eid)
    requires MInv(m) && Fires(m.rt, e)
    ensures OwnGood(m.(rt := RunOrQueue(m.rt, e).0), m.rt.board.events[e].tc)
  {
    hide Inv;
    hide ThreadInv;
    var t := m.rt.board.events[e].tc;
    var p := m.progs[t];
    var m' := Apply(m, Dispatch(e));
    assert FlagInv(m.rt, e);
    DispatchThread(m.rt, e, p);
    forall x | x in m'.rt.board.events && m'.rt.board.events[x].tc == t
      ensures QueueInv(m', x) && FlagInv(m'.rt, x)
    {
      assert QueueInv(m, x) && FlagInv(m.rt, x);
    }
    forall q: Qid | Owns(m'.rt, q, t) ensures q in p.held || LockOn(p.op) == Some(q) {
      assert OwnerInv(m, q);
    }
  }

  /** Only the event a parked thread waits for, or a signal, sets it going. */
  lemma DispatchTarget(s: State, e: Eid, p: Prog)
    requires Fires(s, e) && ProgInv(s, s.board.events[e].tc, p)
    ensures p.op.Starting? || p.op.Waiting?
    ensures s.board.events[e].flag.Ready? ==> p.op.e == e
  {
    if p.waits != [] { assert FrameInv(s, s.board.events[e].tc, p, 0); }
  }

  lemma DispatchThread(s: State, e: Eid, p: Prog)
    requires Fires(s, e) && FlagInv(s, e) && ThreadInv(s, s.board.events[e].tc, p)
    ensures ThreadInv(RunOrQueue(s, e).0, s.board.events[e].tc, p)
  {
    DispatchProg(s, e, p);
    DispatchTarget(s, e, p);
  }

  lemma DispatchProg(s: State, e: Eid, p: Prog)
    requires Fires(s, e) && FlagInv(s, e) && ProgInv(s, s.board.events[e].tc, p)
    ensures ProgInv(RunOrQueue(s, e).0, s.board.events[e].tc, p)
  {
    var t := s.board.events[e].tc;
    var s' := RunOrQueue(s, e).0;
    DispatchTarget(s, e, p);
    DispatchOp(s, e, p);
    hide OpInv;
    forall i | 0 <= i < |p.waits| ensures FrameInv(s', t, p, i) {
      assert FrameInv(s, t, p, i);
    }
    forall x: Eid | Own(s', t, x) && Listed(s'.board, x) ensures OpEvent(p.op) == Some(x) || InWaits(p.waits, x) {
      assert Own(s, t, x) && Listed(s.board, x);
    }
  }

  lemma DispatchOp(s: State, e: Eid, p: Prog)
    requires Fires(s, e) && FlagInv(s, e) && ProgInv(s, s.board.events[e].tc, p)
    ensures OpInv(RunOrQueue(s, e).0, s.board.events[e].tc, p)
  {
    DispatchTarget(s, e, p);
    if p.waits != [] { assert FrameInv(s, s.board.events[e].tc, p, 0); }
  }
}

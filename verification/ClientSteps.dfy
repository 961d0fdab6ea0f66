/** Waits, yields, fd waits and subscriptions keep the machine's invariant. */
module ClientSteps {
  import opened Common
  import opened Events
  import opened Runtime
  import opened Machine
  import opened Steps

  /** A step outside any mutex operation. */
  lemma ClientAssemble(m: Machine, m': Machine, t: Tid)
    requires MInv(m) && OnlyOwn(m.rt, m'.rt, t) && m'.rt.owner == m.rt.owner
    requires t in m.progs && t in m'.progs && m'.progs == m.progs[t := m'.progs[t]]
    requires LockOn(m.progs[t].op).None? && m'.progs[t].held == m.progs[t].held && !m.progs[t].op.Dying?
    requires Inv(m'.rt) && ThreadInv(m'.rt, t, m'.progs[t])
    requires forall x, q :: q in m.rt.owner && On(m'.rt.board, x, Waitq(q)) ==> On(m.rt.board, x, Waitq(q))
    requires forall x :: x in m'.rt.board.events && m'.rt.board.events[x].tc == t ==>
                           && FlagInv(m'.rt, x) && (x in m.rt.board.events ==> m.rt.board.events[x].tc == t)
                           && (m'.rt.board.events[x].flag.Exiting? ==> x in m.rt.board.events && m.rt.board.events[x].flag.Exiting?)
    ensures MInv(m')
  {
    hide Inv;
    hide ThreadInv;
    forall x | x in m'.rt.board.events && m'.rt.board.events[x].tc == t ensures QueueInv(m', x) {
      assert QueueInv(m, x);
    }
    forall q: Qid | Owns(m'.rt, q, t) ensures q in m'.progs[t].held {
      assert OwnerInv(m, q);
    }
    Assemble(m, m', t);
  }

  // ---------------------------------------------------------------- start

  lemma NewThreadStep(m: Machine, t: Tid, e: Eid, th: Thread)
    requires MInv(m) && Guard(m, NewThread(t, e, th))
    ensures MInv(Apply(m, NewThread(t, e, th)))
  {
    hide Inv;
    hide ThreadInv;
    var m' := Apply(m, NewThread(t, e, th));
    SpawnKeeps(m.rt, t, e, th);
    forall x | x in m.rt.board.events ensures m.rt.board.events[x].tc != t {
      EventThread(m.rt, x);
    }
    NewThreadGood(m.rt, t, e, th);
    forall x | x in m'.rt.board.events && m'.rt.board.events[x].tc == t ensures QueueInv(m', x) && FlagInv(m'.rt, x) {
      assert x == e;
    }
    forall q: Qid ensures !Owns(m'.rt, q, t) {
      assert q in m.rt.owner ==> OwnerInv(m, q);
    }
    Assemble(m, m', t);
  }

  lemma NewThreadGood(s: State, t: Tid, e: Eid, th: Thread)
    requires t !in s.threads && e !in s.board.events && !th.running && th.top.None?
    requires forall x :: x in s.board.events ==> s.board.events[x].tc != t
    ensures ThreadInv(Spawn(s, t, e, th), t, Prog(Starting(e), [], {}))
  {
  }

  lemma BeginStep(m: Machine, t: Tid)
    requires MInv(m) && Guard(m, Begin(t))
    ensures MInv(Apply(m, Begin(t)))
  {
    hide Inv;
    hide ThreadInv;
    var m' := Apply(m, Begin(t));
    ThreadKeeps(m.rt, t, m'.rt.threads[t]);
    BeginGood(m.rt, t, m.progs[t]);
    forall x ensures FlagInv(m'.rt, x) { assert FlagInv(m.rt, x); }
    ClientAssemble(m, m', t);
  }

  lemma BeginGood(s: State, t: Tid, p: Prog)
    requires ThreadInv(s, t, p) && p.op.Starting? && s.threads[t].running
    ensures ThreadInv(s.(threads := s.threads[t := s.threads[t].(woken := None)]), t, p.(op := Client))
  {
  }

  // ---------------------------------------------------------------- waits

  lemma PrepareWaitStep(m: Machine, t: Tid, e: Eid, q: Qid)
    requires MInv(m) && Guard(m, PrepareWait(t, e, q))
    ensures Safe(m, PrepareWait(t, e, q)) && MInv(Apply(m, PrepareWait(t, e, q)))
  {
    hide Inv, ThreadInv, QueueInv;
    Counted(m.rt, t);
    PrepareKeeps(m.rt, t, e, q);
    PrepareGood(m.rt, t, m.progs[t], e, q);
    var m' := Apply(m, PrepareWait(t, e, q));
    forall x ensures FlagInv(m'.rt, x) { assert FlagInv(m.rt, x); }
    ClientAssemble(m, m', t);
  }

  lemma PrepareGood(s: State, t: Tid, p: Prog, e: Eid, q: Qid)
    requires ThreadInv(s, t, p) && p.op == Client && e !in s.board.events && q !in s.owner && t in s.board.refcnt
    ensures ThreadInv(Prepare(s, t, e, q), t, p.(waits := [Frame(e, q, false)] + p.waits))
  {
    PrepareProg(s, t, p, e, q);
    hide ProgInv;
  }

  lemma PrepareProg(s: State, t: Tid, p: Prog, e: Eid, q: Qid)
    requires t in s.threads && ProgInv(s, t, p)
    requires p.op == Client && e !in s.board.events && q !in s.owner && t in s.board.refcnt
    ensures ProgInv(Prepare(s, t, e, q), t, p.(waits := [Frame(e, q, false)] + p.waits))
  {
    var s' := Prepare(s, t, e, q);
    var p' := p.(waits := [Frame(e, q, false)] + p.waits);
    forall i | 0 <= i < |p'.waits| ensures FrameInv(s', t, p', i) {
      assert p'.waits[i + 1..] == p.waits[i..];
      if i > 0 {
        assert FrameInv(s, t, p, i - 1);
      } else {
        assert p.waits[0..] == p.waits;
      }
    }
    forall i, j | 0 <= i < j < |p'.waits| ensures p'.waits[i].e != p'.waits[j].e {
      assert FrameInv(s, t, p, j - 1);
    }
    forall x: Eid | Own(s', t, x) && Listed(s'.board, x) ensures InWaits(p'.waits, x) {
      if x == e {
        assert p'.waits[0].e == x;
      } else {
        assert Own(s, t, x) && Listed(s.board, x);
        var i :| 0 <= i < |p.waits| && p.waits[i].e == x;
        assert p'.waits[i + 1].e == x;
      }
    }
  }

  lemma FinishWaitStep(m: Machine, t: Tid)
    requires MInv(m) && Guard(m, FinishWait(t)) && Safe(m, FinishWait(t))
    ensures MInv(Apply(m, FinishWait(t)))
  {
    hide Inv, ThreadInv, QueueInv, FlagInv, Finish, FinishFaults;
    var p := m.progs[t];
    var e := p.waits[0].e;
    FinishOwn(m.rt, t, p);
    FinishKeeps(m.rt, t, e);
    FinishEffect(m.rt, t, e);
    var (s', intr) := Finish(m.rt, t, e);
    hide Finished;
    FinishGood(m.rt, s', t, p, intr);
    FinishedOnlyOwn(m.rt, s', t, e, intr);
    FinishClient(m, t, e, s', intr, Apply(m, FinishWait(t)));
  }

  lemma FinishClient(m: Machine, t: Tid, e: Eid, s': State, intr: bool, m': Machine)
    requires MInv(m) && t in m.progs && m.progs[t].waits != [] && Own(m.rt, t, e) && t in m.rt.threads
    requires m.progs[t].op == Client || (m.progs[t].op.Waiting? && m.progs[t].op.kind == Plain)
    requires Finished(m.rt, s', t, e, intr) && Inv(s')
    requires m' == Machine(s', m.progs[t := m.progs[t].(op := Client, waits := AfterInner(m.progs[t].waits[1..], intr))])
    requires ThreadInv(s', t, m'.progs[t])
    ensures MInv(m')
  {
    hide Inv, ThreadInv, QueueInv, FlagInv;
    FinishedOnlyOwn(m.rt, s', t, e, intr);
    assert s'.owner == m.rt.owner;
    hide Finished;
    ClientAssemble(m, m', t);
  }

  lemma FinishOwn(s: State, t: Tid, p: Prog)
    requires ThreadInv(s, t, p) && p.waits != []
    requires p.op == Client || (p.op.Waiting? && p.op.kind == Plain)
    ensures Own(s, t, p.waits[0].e) && FinishTarget(p) == p.waits[0].e
  {
    assert FrameInv(s, t, p, 0);
  }

  lemma FinishGood(s: State, s': State, t: Tid, p: Prog, intr: bool)
    requires ThreadInv(s, t, p) && p.waits != []
    requires p.op == Client || (p.op.Waiting? && p.op.kind == Plain)
    requires s.threads[t].running
    requires p.waits[0].e in s.board.events && Finished(s, s', t, p.waits[0].e, intr)
    ensures ThreadInv(s', t, p.(op := Client, waits := AfterInner(p.waits[1..], intr)))
  {
    FinishFrames(s, s', t, p, intr);
    FinishBase(s, s', t, p, intr);
    hide FramesInv;
    hide Covered;
  }

  lemma FinishFrames(s: State, s': State, t: Tid, p: Prog, intr: bool)
    requires FramesInv(s, t, p) && Covered(s, t, p) && p.waits != [] && OpEvent(p.op).None?
    requires t in s.threads && p.waits[0].e in s.board.events && Finished(s, s', t, p.waits[0].e, intr)
    ensures var p' := p.(op := Client, waits := AfterInner(p.waits[1..], intr));
            FramesInv(s', t, p') && Covered(s', t, p')
  {
    var w' := AfterInner(p.waits[1..], intr);
    var p' := p.(op := Client, waits := w');
    assert forall i :: 0 <= i < |w'| ==> w'[i].e == p.waits[i + 1].e;
    forall i | 0 <= i < |w'| ensures FrameInv(s', t, p', i) {
      assert FrameInv(s, t, p, i + 1);
      assert w'[i + 1..] == p.waits[i + 2..];
    }
    forall x: Eid | Own(s', t, x) && Listed(s'.board, x) ensures InWaits(w', x) {
      assert Own(s, t, x) && Listed(s.board, x);
      var i :| 0 <= i < |p.waits| && p.waits[i].e == x;
      assert i > 0 && w'[i - 1].e == x;
    }
  }

  lemma FinishBase(s: State, s': State, t: Tid, p: Prog, intr: bool)
    requires t in s.threads && ProgInv(s, t, p) && p.waits != []
    requires p.op == Client || (p.op.Waiting? && p.op.kind == Plain)
    requires p.waits[0].e in s.board.events && Finished(s, s', t, p.waits[0].e, intr)
    ensures Base(AfterInner(p.waits[1..], intr), s'.threads[t].top)
  {
    assert FrameInv(s, t, p, 0);
    PopBase(p.waits, s.threads[t].top, intr);
  }

  /** An unpopped stack shows no event that is still waited for. */
  lemma PopBase(waits: seq<Frame>, top: Option<Eid>, intr: bool)
    requires waits != [] && Base(waits, top)
    requires forall i, j :: 0 <= i < j < |waits| ==> waits[i].e != waits[j].e
    ensures intr ==> Base(AfterInner(waits[1..], true), top)
  {
    var w' := AfterInner(waits[1..], true);
    forall i | 0 <= i < |w'| && top.Some? ensures w'[i].e != top.value {
      assert w'[i].e == waits[i + 1].e;
    }
  }

  // ---------------------------------------------------------------- tc_scheduler

  /** tc_scheduler hands back only what the thread waits for, or a signal. */
  ghost predicate Picked(s: State, t: Tid)
    requires t in s.threads
  {
    Pick(s, t).Some? ==>
      var e := Pick(s, t).value;
      && On(s.board, e, Pending(t)) && s.board.events[e].tc == t && FlagInv(s, e)
      && (!s.board.events[e].flag.Signal? ==> s.threads[t].top.None? || s.threads[t].top == Some(e))
  }

  lemma EnterSchedulerStep(m: Machine, t: Tid)
    requires MInv(m) && Guard(m, EnterScheduler(t))
    ensures Safe(m, EnterScheduler(t)) && MInv(Apply(m, EnterScheduler(t)))
  {
    hide Inv;
    hide ThreadInv;
    ScheduleKeeps(m.rt, t);
    PickSpec(m.rt, t);
    if Pick(m.rt, t).Some? {
      EventThread(m.rt, Pick(m.rt, t).value);
      assert FlagInv(m.rt, Pick(m.rt, t).value);
    }
    hide Pick;
    var m' := Apply(m, EnterScheduler(t));
    EnterGood(m, t, m');
    Assemble(m, m', t);
  }

  lemma EnterGood(m: Machine, t: Tid, m': Machine)
    requires Guard(m, EnterScheduler(t)) && Picked(m.rt, t)
    requires m' == Machine(Schedule(m.rt, t), m.progs[t := m.progs[t].(op := SchedOp(m.progs[t]))])
    requires MInv(m)
    ensures OwnGood(m', t)
  {
    hide Inv;
    hide ThreadInv;
    hide Pick;
    var p := m.progs[t];
    EnterThread(m.rt, t, p);
    forall x | x in m'.rt.board.events && m'.rt.board.events[x].tc == t ensures QueueInv(m', x) && FlagInv(m'.rt, x) {
      assert QueueInv(m, x) && FlagInv(m.rt, x);
    }
    forall q: Qid | Owns(m'.rt, q, t) ensures q in p.held || LockOn(SchedOp(p)) == Some(q) {
      assert OwnerInv(m, q);
    }
  }

  lemma EnterThread(s: State, t: Tid, p: Prog)
    requires ThreadInv(s, t, p) && s.threads[t].running
    requires p.op.ToSched? || (p.op == Client && p.waits != [])
    requires Picked(s, t)
    ensures ThreadInv(Schedule(s, t), t, p.(op := SchedOp(p)))
  {
    EnterTarget(s, t, p);
    EnterFrames(s, t, p);
    EnterOp(s, t, p);
    hide FramesInv;
    hide Covered;
    hide Pick;
  }

  lemma EnterTarget(s: State, t: Tid, p: Prog)
    requires ThreadInv(s, t, p) && s.threads[t].running && Picked(s, t)
    requires p.op.ToSched? || (p.op == Client && p.waits != [])
    ensures Pick(s, t).Some? && s.board.events[Pick(s, t).value].flag.Ready? ==> SchedOp(p).e == Pick(s, t).value
  {
    hide Pick;
    hide LockInv;
    if p.waits != [] { assert FrameInv(s, t, p, 0); }
  }

  lemma EnterFrames(s: State, t: Tid, p: Prog)
    requires ThreadInv(s, t, p) && Picked(s, t)
    requires p.op.ToSched? || (p.op == Client && p.waits != [])
    requires Pick(s, t).Some? && s.board.events[Pick(s, t).value].flag.Ready? ==> SchedOp(p).e == Pick(s, t).value
    ensures var p' := p.(op := SchedOp(p));
            FramesInv(Schedule(s, t), t, p') && Covered(Schedule(s, t), t, p')
  {
    hide Pick;
    hide LockInv;
    hide HeldInv;
    var s' := Schedule(s, t);
    var p' := p.(op := SchedOp(p));
    forall i | 0 <= i < |p.waits| ensures FrameInv(s', t, p', i) {
      assert FrameInv(s, t, p, i);
    }
    forall x: Eid | Own(s', t, x) && Listed(s'.board, x) ensures OpEvent(p'.op) == Some(x) || InWaits(p.waits, x) {
      assert Own(s, t, x) && Listed(s.board, x);
    }
  }

  lemma EnterOp(s: State, t: Tid, p: Prog)
    requires ThreadInv(s, t, p) && Picked(s, t) && s.threads[t].running
    requires p.op.ToSched? || (p.op == Client && p.waits != [])
    requires Pick(s, t).Some? && s.board.events[Pick(s, t).value].flag.Ready? ==> SchedOp(p).e == Pick(s, t).value
    ensures var p' := p.(op := SchedOp(p));
            OpInv(Schedule(s, t), t, p') && OpOwn(Schedule(s, t), t, p')
  {
    hide Pick;
    hide LockInv;
    if p.waits != [] { assert FrameInv(s, t, p, 0); }
  }

  // ---------------------------------------------------------------- yield and fd waits

  lemma AddEventStep(m: Machine, t: Tid, e: Eid, fd: Option<nat>)
    requires MInv(m) && Guard(m, AddEvent(t, e, fd))
    ensures Safe(m, AddEvent(t, e, fd)) && MInv(Apply(m, AddEvent(t, e, fd)))
  {
    hide Inv, ThreadInv, QueueInv;
    Counted(m.rt, t);
    var l := DirectList(fd);
    AddDirectKeeps(m.rt, t, e, l);
    AddDirectGood(m.rt, t, m.progs[t], e, fd);
    var m' := Apply(m, AddEvent(t, e, fd));
    forall x ensures FlagInv(m'.rt, x) { assert FlagInv(m.rt, x); }
    ClientAssemble(m, m', t);
  }

  lemma AddDirectGood(s: State, t: Tid, p: Prog, e: Eid, fd: Option<nat>)
    requires ThreadInv(s, t, p) && p.op == Client && e !in s.board.events && t in s.board.refcnt
    ensures ThreadInv(AddDirect(s, t, e, DirectList(fd)), t, p.(op := Pushing(e, fd)))
  {
    var s' := AddDirect(s, t, e, DirectList(fd));
    var p' := p.(op := Pushing(e, fd));
    forall i | 0 <= i < |p.waits| ensures FrameInv(s', t, p', i) && p.waits[i].e != e {
      assert FrameInv(s, t, p, i);
    }
    forall x: Eid | Own(s', t, x) && Listed(s'.board, x) ensures OpEvent(p'.op) == Some(x) || InWaits(p.waits, x) {
      if x != e { assert Own(s, t, x) && Listed(s.board, x); }
    }
  }

  lemma PushEventStep(m: Machine, t: Tid)
    requires MInv(m) && Guard(m, PushEvent(t))
    ensures Safe(m, PushEvent(t)) && MInv(Apply(m, PushEvent(t)))
  {
    hide Inv, ThreadInv, QueueInv;
    var e := m.progs[t].op.e;
    OpEventOwn(m.rt, t, m.progs[t]);
    PushKeeps(m.rt, t, e);
    PushGood(m.rt, t, m.progs[t]);
    var m' := Apply(m, PushEvent(t));
    forall x ensures FlagInv(m'.rt, x) { assert FlagInv(m.rt, x); }
    ClientAssemble(m, m', t);
  }

  lemma OpEventOwn(s: State, t: Tid, p: Prog)
    requires ThreadInv(s, t, p) && OpEvent(p.op).Some?
    ensures Own(s, t, OpEvent(p.op).value)
  {
  }

  lemma PushGood(s: State, t: Tid, p: Prog)
    requires ThreadInv(s, t, p) && p.op.Pushing? && p.op.e in s.board.events
    ensures ThreadInv(Push(s, t, p.op.e), t, p.(op := ToSched(p.op.e, Direct(p.op.fd))))
  {
    var s' := Push(s, t, p.op.e);
    var p' := p.(op := ToSched(p.op.e, Direct(p.op.fd)));
    forall i | 0 <= i < |p.waits| ensures FrameInv(s', t, p', i) {
      assert FrameInv(s, t, p, i);
    }
    forall x: Eid | Own(s', t, x) && Listed(s'.board, x) ensures OpEvent(p'.op) == Some(x) || InWaits(p.waits, x) {
      assert Own(s, t, x) && Listed(s.board, x);
    }
  }

  lemma FinishEventStep(m: Machine, t: Tid)
    requires MInv(m) && Guard(m, FinishEvent(t))
    ensures Safe(m, FinishEvent(t)) && MInv(Apply(m, FinishEvent(t)))
  {
    hide Inv, ThreadInv, QueueInv, FlagInv, FinishDirect;
    var op := m.progs[t].op;
    OpEventOwn(m.rt, t, m.progs[t]);
    FinishEventSafe(m.rt, t, m.progs[t]);
    FinishDirectKeeps(m.rt, t, op.e, op.kind.fd.Some?);
    FinishDirectGood(m.rt, t, m.progs[t]);
    FinishDirectOwn(m.rt, t, op.e, op.kind.fd.Some?);
    ClientAssemble(m, Apply(m, FinishEvent(t)), t);
  }

  lemma FinishDirectOwn(s: State, t: Tid, e: Eid, isFd: bool)
    requires t in s.threads && Own(s, t, e) && (s.threads[t].woken != Some(e) ==> Listed(s.board, e))
    ensures var s' := FinishDirect(s, t, e, isFd).0;
            && OnlyOwn(s, s', t) && s'.owner == s.owner
            && (forall x :: x in s'.board.events ==> x in s.board.events && s'.board.events[x].tc == s.board.events[x].tc
                                                     && s'.board.events[x].flag == s.board.events[x].flag)
            && (forall x, q: Qid :: On(s'.board, x, Waitq(q)) ==> On(s.board, x, Waitq(q)))
            && (forall x :: FlagInv(s, x) ==> FlagInv(s', x))
  {
  }

  /** remove_event does not spin: an event the thread was not woken with is still on a list. */
  lemma FinishEventSafe(s: State, t: Tid, p: Prog)
    requires ThreadInv(s, t, p) && p.op.Waiting? && p.op.kind.Direct? && s.threads[t].running
    ensures s.threads[t].woken != Some(p.op.e) ==> Listed(s.board, p.op.e)
  {
  }

  lemma FinishDirectGood(s: State, t: Tid, p: Prog)
    requires ThreadInv(s, t, p) && p.op.Waiting? && p.op.kind.Direct? && s.threads[t].running
    requires p.op.e in s.board.events
    requires s.threads[t].woken != Some(p.op.e) ==> Listed(s.board, p.op.e)
    ensures ThreadInv(FinishDirect(s, t, p.op.e, p.op.kind.fd.Some?).0, t, p.(op := Client))
  {
    var s' := FinishDirect(s, t, p.op.e, p.op.kind.fd.Some?).0;
    var p' := p.(op := Client);
    forall i | 0 <= i < |p.waits| ensures FrameInv(s', t, p', i) {
      assert FrameInv(s, t, p, i);
    }
    forall x: Eid | Own(s', t, x) && Listed(s'.board, x) ensures InWaits(p.waits, x) {
      assert Own(s, t, x) && Listed(s.board, x);
    }
  }

  // ---------------------------------------------------------------- subscriptions

  lemma SubscribeStep(m: Machine, t: Tid, e: Eid, q: Qid)
    requires MInv(m) && Guard(m, SubscribeTo(t, e, q))
    ensures Safe(m, SubscribeTo(t, e, q)) && MInv(Apply(m, SubscribeTo(t, e, q)))
  {
    hide Inv;
    hide ThreadInv;
    Counted(m.rt, t);
    SubscribeKeeps(m.rt, t, e, q);
    SubscribeGood(m.rt, t, m.progs[t], e, q);
    var m' := Apply(m, SubscribeTo(t, e, q));
    forall x ensures FlagInv(m'.rt, x) { assert FlagInv(m.rt, x); }
    assert m'.progs == m.progs[t := m.progs[t]];
    ClientAssemble(m, m', t);
  }

  lemma SubscribeGood(s: State, t: Tid, p: Prog, e: Eid, q: Qid)
    requires ThreadInv(s, t, p) && p.op == Client && e !in s.board.events && t in s.board.refcnt
    ensures ThreadInv(Subscribe(s, t, e, q), t, p)
  {
    var s' := Subscribe(s, t, e, q);
    forall i | 0 <= i < |p.waits| ensures FrameInv(s', t, p, i) {
      assert FrameInv(s, t, p, i);
    }
    forall x: Eid | Own(s', t, x) && Listed(s'.board, x) ensures InWaits(p.waits, x) {
      assert Own(s, t, x) && Listed(s.board, x);
    }
  }

  lemma UnsubscribeStep(m: Machine, t: Tid, e: Eid)
    requires MInv(m) && Guard(m, UnsubscribeFrom(t, e))
    ensures Safe(m, UnsubscribeFrom(t, e)) && MInv(Apply(m, UnsubscribeFrom(t, e)))
  {
    hide ThreadInv;
    hide Inv;
    SignalListed(m.rt, e);
    UnsubscribeKeeps(m.rt, e);
    UnsubscribeGood(m.rt, t, m.progs[t], e);
    var m' := Apply(m, UnsubscribeFrom(t, e));
    forall x ensures FlagInv(m'.rt, x) { assert FlagInv(m.rt, x); }
    assert m'.progs == m.progs[t := m.progs[t]];
    ClientAssemble(m, m', t);
  }

  lemma SignalListed(s: State, e: Eid)
    requires Inv(s) && e in s.board.events && s.board.events[e].flag.Signal?
    ensures Listed(s.board, e)
  {
    hide Placed;
    assert SignalPlaced(s.board, e);
  }

  lemma UnsubscribeGood(s: State, t: Tid, p: Prog, e: Eid)
    requires ThreadInv(s, t, p) && p.op == Client && Listed(s.board, e)
    requires s.board.events[e].flag.Signal? && s.board.events[e].tc == t
    ensures ThreadInv(Unsubscribe(s, e), t, p)
  {
    var s' := Unsubscribe(s, e);
    forall i | 0 <= i < |p.waits| ensures FrameInv(s', t, p, i) {
      assert FrameInv(s, t, p, i);
    }
    forall x: Eid | Own(s', t, x) && Listed(s'.board, x) ensures InWaits(p.waits, x) {
      assert Own(s, t, x) && Listed(s.board, x);
    }
  }

  // ---------------------------------------------------------------- exit

  /** A thread outside every call and without subscriptions has no listed event, so tc_die finds refcnt 0. */
  lemma NothingListed(m: Machine, t: Tid, e: Eid)
    requires MInv(m) && Guard(m, Die(t, e))
    ensures forall x :: x in m.rt.board.events && m.rt.board.events[x].tc == t ==> !Listed(m.rt.board, x)
    ensures t in m.rt.board.refcnt && m.rt.board.refcnt[t] == 0
  {
    Counted(m.rt, t);
    NoneListed(m, t);
    NoRefs(m.rt, t);
  }

  lemma NoneListed(m: Machine, t: Tid)
    requires MInv(m) && t in m.progs && m.progs[t].op == Client && m.progs[t].waits == []
    requires forall x :: x in m.rt.board.events && m.rt.board.events[x].tc == t ==> !m.rt.board.events[x].flag.Signal?
    ensures forall x :: x in m.rt.board.events && m.rt.board.events[x].tc == t ==> !Listed(m.rt.board, x)
  {
    hide Inv;
    assert ThreadInv(m.rt, t, m.progs[t]);
    forall x | x in m.rt.board.events && m.rt.board.events[x].tc == t ensures !Listed(m.rt.board, x) {
      assert QueueInv(m, x);
      assert Own(m.rt, t, x);
    }
  }

  lemma NoRefs(s: State, t: Tid)
    requires Inv(s) && t in s.board.refcnt
    requires forall x :: x in s.board.events && s.board.events[x].tc == t ==> !Listed(s.board, x)
    ensures s.board.refcnt[t] == 0
  {
    assert RefcntOf(s.board, t);
    assert ListedOf(s.board, t) == {};
  }

  lemma DieStep(m: Machine, t: Tid, e: Eid)
    requires MInv(m) && Guard(m, Die(t, e))
    ensures Safe(m, Die(t, e)) && MInv(Apply(m, Die(t, e)))
  {
    hide Inv, ThreadInv, QueueInv, FlagInv;
    NothingListed(m, t, e);
    PostExitKeeps(m.rt, t, e);
    DieGood(m.rt, t, m.progs[t], e);
    var m' := Apply(m, Die(t, e));
    DieOwn(m, t, e, m');
    Assemble(m, m', t);
  }

  lemma DieOwn(m: Machine, t: Tid, e: Eid, m': Machine)
    requires MInv(m) && t in m.progs && m.progs[t].op == Client && m.progs[t].held == {} && e !in m.rt.board.events
    requires m'.progs == m.progs[t := m.progs[t].(op := Dying(e))] && m'.rt.owner == m.rt.owner
    requires m'.rt.board.events == m.rt.board.events[e := Event(t, Exiting, None, Some(Immediate))]
    requires ThreadInv(m'.rt, t, m'.progs[t])
    ensures OwnGood(m', t)
  {
    hide Inv, ThreadInv;
    forall x | x in m'.rt.board.events && m'.rt.board.events[x].tc == t ensures QueueInv(m', x) && FlagInv(m'.rt, x) {
      assert QueueInv(m, x) && FlagInv(m.rt, x);
    }
    forall q: Qid | Owns(m'.rt, q, t) ensures q in m'.progs[t].held {
      assert OwnerInv(m, q);
    }
  }

  lemma DieGood(s: State, t: Tid, p: Prog, e: Eid)
    requires ThreadInv(s, t, p) && p.op == Client && p.waits == [] && p.held == {} && e !in s.board.events && t in s.board.refcnt
    requires forall x :: x in s.board.events && s.board.events[x].tc == t ==> !Listed(s.board, x)
    ensures ThreadInv(PostExit(s, t, e), t, p.(op := Dying(e)))
  {
  }

  lemma FreeThreadStep(m: Machine, t: Tid)
    requires MInv(m) && Guard(m, FreeThread(t))
    ensures Safe(m, FreeThread(t)) && MInv(Apply(m, FreeThread(t)))
  {
    hide Inv, ThreadInv, QueueInv, FlagInv;
    DyingUnlisted(m.rt, t, m.progs[t]);
    DiscardKeeps(m.rt, t);
    DiscardRest(m, t, Apply(m, FreeThread(t)));
  }

  lemma DyingUnlisted(s: State, t: Tid, p: Prog)
    requires ThreadInv(s, t, p) && p.op.Dying? && p.op.e in s.board.events && s.board.events[p.op.e].el.None?
    ensures forall x :: x in s.board.events && s.board.events[x].tc == t ==> !Listed(s.board, x)
    ensures p.held == {}
  {
  }

  lemma DiscardRest(m: Machine, t: Tid, m': Machine)
    requires t in m.progs && m.progs[t].op.Dying? && m.progs[t].held == {}
    requires m'.rt == Discard(m.rt, t) && m'.progs == m.progs - {t} && Inv(m'.rt)
    requires MInv(m)
    ensures MInv(m')
  {
    hide Inv, ThreadInv;
    forall q: Qid | q in m.rt.owner ensures m.rt.owner[q] != Some(t) { assert OwnerInv(m, q); }
    forall u | u in m'.progs ensures ThreadInv(m'.rt, u, m'.progs[u]) {
      OtherThread(m.rt, m'.rt, t, u, m.progs[u]);
    }
    forall q | q in m'.rt.owner ensures OwnerInv(m', q) { assert OwnerInv(m, q); }
    forall x ensures QueueInv(m', x) { assert QueueInv(m, x); }
    forall x ensures FlagInv(m'.rt, x) { assert FlagInv(m.rt, x); }
  }
}

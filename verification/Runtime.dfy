/**
  What each locked section of the event core does to the shared state
  (threaded_cr.c): dispatch, the scheduler entry, prepare/finish of a wait, the
  wakeups and the mutex hand-over.  One function is one critical section.

  `worker->woken_by_event` is kept with the thread the worker executes: while a
  thread is on a worker, nobody else writes that worker's copy.
 */
module Runtime {
  import opened Common
  import opened Events

  /** struct tc_thread: the fields that decide who runs. */
  datatype Thread = Thread(
    running: bool,          // TF_RUNNING
    top: Option<Eid>,       // event_stack
    woken: Option<Eid>,     // worker->woken_by_event
    workerNr: int,
    affine: bool,           // TF_AFFINE
    domain: Did)

  datatype State = State(
    board: Board,
    threads: map<Tid, Thread>,
    owner: map<Qid, Option<Tid>>)   // m_owner, by the mutex's waitqueue

  // ---------------------------------------------------------------- creation

  /** tc_thread_new: a thread enters with its start event on immediate. */
  function Spawn(s: State, t: Tid, e: Eid, th: Thread): State
    requires t !in s.threads && !Listed(s.board, e)
  {
    var b := s.board.(refcnt := s.board.refcnt[t := 0]);
    s.(board := Add(b, e, Event(t, Ready, None, Some(Immediate))),
       threads := s.threads[t := th])
  }

  // ---------------------------------------------------------------- dispatch

  /** The branch of run_or_queue that leaves the thread where it is. */
  predicate Busy(th: Thread, ev: Event, e: Eid) {
    th.running || (!ev.flag.Signal? && th.top.Some? && th.top != Some(e))
  }

  /** An event a worker may hand to run_or_queue. */
  predicate Runnable(s: State, e: Eid) {
    && Listed(s.board, e)
    && s.board.events[e].tc in s.threads
    && (s.board.events[e].el.value.Immediate? || s.board.events[e].el.value.Fd?)
  }

  /** run_or_queue: the new state, and the thread to switch to, if any. */
  function RunOrQueue(s: State, e: Eid): (State, Option<Tid>)
    requires Runnable(s, e)
  {
    var ev := s.board.events[e];
    var t := ev.tc;
    var th := s.threads[t];
    if ev.flag.Exiting? then
      (s.(board := Remove(s.board, e)), Some(t))
    else if Busy(th, ev, e) then
      (s.(board := Relocate(s.board, e, Pending(t), false)), None)
    else
      (s.(board := Deliver(s.board, e),
          threads := s.threads[t := th.(running := true, woken := Some(e))]),
       Some(t))
  }

  /** A delivered signal goes back to its subscription list; any other event is done. */
  function Deliver(b: Board, e: Eid): Board
    requires Listed(b, e)
    requires b.events[e].flag.Signal? ==> b.events[e].el != Some(Waitq(b.events[e].flag.wq))
  {
    var ev := b.events[e];
    if ev.flag.Signal? then Relocate(b, e, Waitq(ev.flag.wq), false) else Remove(b, e)
  }

  /** The last signal on a pending list. */
  function LastSignal(b: Board, q: seq<Eid>): Option<Eid> {
    if q == [] then None
    else if q[|q| - 1] in b.events && b.events[q[|q| - 1]].flag.Signal? then Some(q[|q| - 1])
    else LastSignal(b, q[..|q| - 1])
  }

  /** The pending event tc_scheduler returns with instead of parking. */
  function Pick(s: State, t: Tid): Option<Eid>
    requires t in s.threads
  {
    var p := At(s.board, Pending(t));
    if p == [] then None
    else match s.threads[t].top
      case None => Some(p[0])
      case Some(e) => if e in p then Some(e) else LastSignal(s.board, p)
  }

  /** tc_scheduler: take a pending event and stay, or park. */
  function Schedule(s: State, t: Tid): State
    requires t in s.threads
    requires Pick(s, t).Some? ==> On(s.board, Pick(s, t).value, Pending(t))
  {
    match Pick(s, t)
    case None => s.(threads := s.threads[t := s.threads[t].(running := false)])
    case Some(e) =>
      s.(board := Deliver(s.board, e),
         threads := s.threads[t := s.threads[t].(woken := Some(e))])
  }

  // ---------------------------------------------------------------- waiting

  /** _tc_waitq_prepare_to_wait for an EF_READY event */
  function Prepare(s: State, t: Tid, e: Eid, q: Qid): State
    requires t in s.threads && t in s.board.refcnt && !Listed(s.board, e)
  {
    s.(board := Add(s.board, e, Event(t, Ready, s.threads[t].top, Some(Waitq(q)))),
       threads := s.threads[t := s.threads[t].(woken := None, top := Some(e))])
  }

  /** _tc_waitq_prepare_to_wait for an EF_SIGNAL event: tc_signal_subscribe */
  function Subscribe(s: State, t: Tid, e: Eid, q: Qid): State
    requires t in s.threads && t in s.board.refcnt && !Listed(s.board, e)
  {
    s.(board := Add(s.board, e, Event(t, Signal(q), None, Some(Waitq(q)))),
       threads := s.threads[t := s.threads[t].(woken := None)])
  }

  /** tc_signal_unsubscribe; the memory is gone afterwards. */
  function Unsubscribe(s: State, e: Eid): State
    requires Listed(s.board, e)
  {
    var b := Remove(s.board, e);
    s.(board := b.(events := b.events - {e}))
  }

  /** The straight exit of tc_waitq_finish_wait. */
  predicate Straight(s: State, t: Tid, e: Eid)
    requires t in s.threads
  {
    var th := s.threads[t];
    th.top == Some(e) && (th.woken.None? || th.woken == Some(e))
  }

  /** The awaited event has fired but was not what the thread was woken with. */
  predicate Active(s: State, t: Tid, e: Eid) {
    On(s.board, e, Pending(t)) || On(s.board, e, Immediate)
  }

  function RemoveIfListed(b: Board, e: Eid): Board {
    if Listed(b, e) then Remove(b, e) else b
  }

  /**
    tc_waitq_finish_wait dereferences woken_by_event and asserts that it is a signal;
    a subscription of another thread can only be there because the memory was reused.
   */
  predicate FinishFaults(s: State, t: Tid, e: Eid)
    requires t in s.threads
  {
    && !Straight(s, t, e)
    && var w := s.threads[t].woken;
       w.None? || w.value == e || w.value !in s.board.events
       || !s.board.events[w.value].flag.Signal? || s.board.events[w.value].tc != t
  }

  /** tc_waitq_finish_wait: the new state, and whether it reports an interrupt. */
  function Finish(s: State, t: Tid, e: Eid): (State, bool)
    requires t in s.threads && t in s.board.refcnt && e in s.board.events
    requires !FinishFaults(s, t, e)
  {
    var th := s.threads[t];
    var b := RemoveIfListed(s.board, e);
    if Straight(s, t, e) then
      (s.(board := b,
          threads := s.threads[t := th.(top := s.board.events[e].next, woken := None)]), false)
    else if Active(s, t, e) then
      var w := th.woken.value;
      var b1 := RemoveIfListed(b, w);
      (s.(board := Add(b1, w, b1.events[w].(tc := t, el := Some(Pending(t)))),
          threads := s.threads[t := th.(top := s.board.events[e].next, woken := None)]), false)
    else
      (s.(board := b), true)
  }

  /** add_event_fd and add_event_cr: listed first, pushed on the stack later. */
  function AddDirect(s: State, t: Tid, e: Eid, l: ListId): State
    requires t in s.threads && t in s.board.refcnt && !Listed(s.board, e)
  {
    s.(board := Add(s.board, e, Event(t, Ready, None, Some(l))))
  }

  /** _tc_event_on_tc_stack */
  function Push(s: State, t: Tid, e: Eid): State
    requires t in s.threads && e in s.board.events
  {
    s.(board := s.board.(events := s.board.events[e := s.board.events[e].(next := s.threads[t].top)]),
       threads := s.threads[t := s.threads[t].(top := Some(e))])
  }

  /** The tails of tc_sched_yield and _tc_wait_fd, and whether they report an interrupt. */
  function FinishDirect(s: State, t: Tid, e: Eid, isFd: bool): (State, bool)
    requires t in s.threads && e in s.board.events
    requires s.threads[t].woken != Some(e) ==> Listed(s.board, e)
  {
    var th := s.threads[t];
    var intr := th.woken != Some(e);
    (s.(board := if intr then Remove(s.board, e) else s.board,
        threads := s.threads[t := th.(top := s.board.events[e].next,
                                      woken := if isFd || !intr then None else th.woken)]),
     intr)
  }

  // ---------------------------------------------------------------- exit

  /** tc_die: the exit event of a thread goes to immediate. */
  function PostExit(s: State, t: Tid, e: Eid): State
    requires t in s.board.refcnt && !Listed(s.board, e)
  {
    s.(board := Add(s.board, e, Event(t, Exiting, None, Some(Immediate))))
  }

  /** tc_thread_free: the thread is gone, and with it the memory of its events. */
  function Discard(s: State, t: Tid): State {
    State(Forget(s.board, t), s.threads - {t}, s.owner)
  }

  // ---------------------------------------------------------------- wakeups

  predicate WaitqSane(s: State, q: Qid) {
    var w := At(s.board, Waitq(q));
    w != [] ==> On(s.board, w[0], Waitq(q))
  }

  /** tc_waitq_wakeup_one */
  function WakeOne(s: State, q: Qid): State
    requires WaitqSane(s, q)
  {
    var w := At(s.board, Waitq(q));
    if w == [] then s else s.(board := Relocate(s.board, w[0], Immediate, true))
  }

  /** tc_waitq_wakeup_all: one waiter after the other to the head of immediate */
  function WakeAll(s: State, q: Qid): State
    decreases |At(s.board, Waitq(q))|
  {
    if At(s.board, Waitq(q)) == [] || !WaitqSane(s, q) then s else WakeAll(WakeOne(s, q), q)
  }

  /** tc_waitq_wakeup_one_owner on a mutex: tc_mutex_unlock */
  function Unlock(s: State, m: Qid): State
    requires WaitqSane(s, m) && m in s.owner
  {
    var w := At(s.board, Waitq(m));
    WakeOne(s, m).(owner := s.owner[m := if w == [] then None else Some(s.board.events[w[0]].tc)])
  }

  /** __sync_bool_compare_and_swap(&m->m_owner, 0, me) */
  predicate CasWins(s: State, m: Qid) {
    m in s.owner && s.owner[m].None?
  }

  function Cas(s: State, m: Qid, t: Tid): State {
    if CasWins(s, m) then s.(owner := s.owner[m := Some(t)]) else s
  }

  // ---------------------------------------------------------------- invariant

  /** A thread that is parked: nothing on its pending list could have kept it going. */
  ghost predicate ParkedRight(s: State, t: Tid)
    requires t in s.threads
  {
    !s.threads[t].running ==>
      forall e :: On(s.board, e, Pending(t)) ==>
                    && !s.board.events[e].flag.Signal?
                    && s.threads[t].top.Some?
                    && s.threads[t].top != Some(e)
  }

  /** A subscription is on its signal's list, on immediate, or on its owner's pending list. */
  ghost predicate SignalPlaced(b: Board, e: Eid)
    requires e in b.events
  {
    var ev := b.events[e];
    ev.flag.Signal? ==>
      ev.el == Some(Waitq(ev.flag.wq)) || ev.el == Some(Immediate) || ev.el == Some(Pending(ev.tc))
  }

  ghost predicate Inv(s: State) {
    && Placed(s.board)
    && s.board.refcnt.Keys == s.threads.Keys
    && (forall t :: t in s.threads ==> ParkedRight(s, t))
    && (forall e :: e in s.board.events ==> SignalPlaced(s.board, e))
  }

  lemma EventThread(s: State, e: Eid)
    requires Inv(s) && e in s.board.events
    ensures s.board.events[e].tc in s.threads
    ensures forall t :: On(s.board, e, Pending(t)) ==> t == s.board.events[e].tc
  {
    assert s.board.events[e].tc in s.board.refcnt;
  }

  lemma IsPlaced(s: State)
    requires Inv(s)
    ensures Placed(s.board)
  {
    hide Placed;
  }

  lemma Counted(s: State, t: Tid)
    requires Inv(s) && t in s.threads
    ensures t in s.board.refcnt
  {
    hide Placed;
  }

  lemma {:induction false} LastSignalSpec(b: Board, q: seq<Eid>)
    ensures match LastSignal(b, q)
            case None => forall e :: e in q && e in b.events ==> !b.events[e].flag.Signal?
            case Some(e) => e in q && e in b.events && b.events[e].flag.Signal?
  {
    if q != [] { LastSignalSpec(b, q[..|q| - 1]); }
  }

  lemma PickSpec(s: State, t: Tid)
    requires Inv(s) && t in s.threads
    ensures Pick(s, t).Some? ==> On(s.board, Pick(s, t).value, Pending(t))
    ensures Pick(s, t).Some? && !s.board.events[Pick(s, t).value].flag.Signal? ==>
              s.threads[t].top.None? || s.threads[t].top == Pick(s, t)
    ensures Pick(s, t).None? ==>
      forall e :: On(s.board, e, Pending(t)) ==>
        !s.board.events[e].flag.Signal? && s.threads[t].top.Some? && s.threads[t].top != Some(e)
    ensures s.threads[t].top.Some? && On(s.board, s.threads[t].top.value, Pending(t)) ==> Pick(s, t) == s.threads[t].top
  {
    var p := At(s.board, Pending(t));
    LastSignalSpec(s.board, p);
    assert ListNamed(s.board, Pending(t));
    forall e | On(s.board, e, Pending(t)) ensures e in p {
      assert Listed(s.board, e);
    }
  }

  predicate IsSignal(b: Board, e: Eid) {
    e in b.events && b.events[e].flag.Signal?
  }

  /** Entry i is a signal, and none comes after it. */
  predicate LastAt(b: Board, q: seq<Eid>, i: int) {
    0 <= i < |q| && IsSignal(b, q[i]) && forall j :: i < j < |q| ==> !IsSignal(b, q[j])
  }

  lemma {:induction false} LastSignalAt(b: Board, q: seq<Eid>) returns (i: int)
    ensures if LastSignal(b, q).Some? then LastAt(b, q, i) && LastSignal(b, q) == Some(q[i])
            else forall j :: 0 <= j < |q| ==> !IsSignal(b, q[j])
  {
    i := |q| - 1;
    if q != [] && !IsSignal(b, q[i]) {
      i := LastSignalAt(b, q[..|q| - 1]);
    }
  }

  /**
    What tc_scheduler returns with: the first pending event if nothing is awaited; the awaited
    event if it is pending, whatever signals are; else the last signal; else nothing.
   */
  lemma PickExact(s: State, t: Tid)
    requires Inv(s) && t in s.threads
    ensures var p, top, r := At(s.board, Pending(t)), s.threads[t].top, Pick(s, t);
            && (top.None? ==> r == if p == [] then None else Some(p[0]))
            && (top.Some? && On(s.board, top.value, Pending(t)) ==> r == top)
            && (top.Some? && !On(s.board, top.value, Pending(t)) ==>
                  if r.Some? then exists i :: LastAt(s.board, p, i) && r == Some(p[i])
                  else forall i :: 0 <= i < |p| ==> !IsSignal(s.board, p[i]))
  {
    var p := At(s.board, Pending(t));
    assert ListNamed(s.board, Pending(t));
    forall e ensures e in p <==> On(s.board, e, Pending(t)) {
      if On(s.board, e, Pending(t)) { assert Listed(s.board, e); }
    }
    hide Inv;
    var i := LastSignalAt(s.board, p);
    hide LastSignal;
  }

  // Every locked section keeps the invariant.

  lemma DeliverPlaced(b: Board, e: Eid)
    requires Placed(b) && Listed(b, e)
    requires b.events[e].flag.Signal? ==> b.events[e].el != Some(Waitq(b.events[e].flag.wq))
    ensures Placed(Deliver(b, e)) && Deliver(b, e).refcnt.Keys == b.refcnt.Keys
  {
    hide Placed;
    if b.events[e].flag.Signal? {
      RelocatePlaced(b, e, Waitq(b.events[e].flag.wq), false);
    } else {
      RemovePlaced(b, e);
    }
  }

  lemma RunOrQueueKeeps(s: State, e: Eid)
    requires Inv(s) && Runnable(s, e)
    ensures Inv(RunOrQueue(s, e).0)
  {
    hide Placed;
    var ev := s.board.events[e];
    if ev.flag.Exiting? {
      RemoveKeeps(s, e);
    } else if Busy(s.threads[ev.tc], ev, e) {
      QueueKeeps(s, e);
    } else {
      DeliverKeeps(s, e, s.threads[ev.tc].(running := true, woken := Some(e)));
    }
  }

  /** Delivering an event to its thread, which runs afterwards. */
  lemma DeliverKeeps(s: State, e: Eid, th: Thread)
    requires Inv(s) && Listed(s.board, e) && th.running
    requires s.board.events[e].flag.Signal? ==> !s.board.events[e].el.value.Waitq?
    ensures Inv(s.(board := Deliver(s.board, e), threads := s.threads[s.board.events[e].tc := th]))
  {
    hide Placed;
    var t := s.board.events[e].tc;
    EventThread(s, e);
    DeliverPlaced(s.board, e);
    var s' := s.(board := Deliver(s.board, e), threads := s.threads[t := th]);
    forall u | u in s'.threads ensures ParkedRight(s', u) {
      assert ParkedRight(s, u);
      assert forall x :: On(s'.board, x, Pending(u)) ==> On(s.board, x, Pending(u));
    }
    forall x | x in s'.board.events ensures SignalPlaced(s'.board, x) {
      assert SignalPlaced(s.board, x);
    }
  }

  lemma QueueKeeps(s: State, e: Eid)
    requires Inv(s) && Runnable(s, e) && !s.board.events[e].flag.Exiting?
    requires Busy(s.threads[s.board.events[e].tc], s.board.events[e], e)
    ensures Inv(RunOrQueue(s, e).0)
  {
    hide Placed;
    var s' := RunOrQueue(s, e).0;
    RelocatePlaced(s.board, e, Pending(s.board.events[e].tc), false);
    QueueParked(s, e);
    forall x | x in s'.board.events ensures SignalPlaced(s'.board, x) {
      assert SignalPlaced(s.board, x);
    }
  }

  lemma QueueParked(s: State, e: Eid)
    requires Inv(s) && Runnable(s, e) && !s.board.events[e].flag.Exiting?
    requires Busy(s.threads[s.board.events[e].tc], s.board.events[e], e)
    ensures forall t :: t in s.threads ==> ParkedRight(RunOrQueue(s, e).0, t)
  {
    hide Placed;
    var s' := RunOrQueue(s, e).0;
    forall t | t in s.threads ensures ParkedRight(s', t) {
      assert ParkedRight(s, t);
      forall x | On(s'.board, x, Pending(t)) && !s'.threads[t].running
        ensures !s'.board.events[x].flag.Signal? && s'.threads[t].top.Some? && s'.threads[t].top != Some(x)
      {
        if x != e { assert On(s.board, x, Pending(t)); }
      }
    }
  }

  lemma ScheduleKeeps(s: State, t: Tid)
    requires Inv(s) && t in s.threads && s.threads[t].running
    ensures Pick(s, t).Some? ==> On(s.board, Pick(s, t).value, Pending(t))
    ensures Inv(Schedule(s, t))
  {
    hide Placed;
    PickSpec(s, t);
    var s' := Schedule(s, t);
    if Pick(s, t).Some? {
      DeliverKeeps(s, Pick(s, t).value, s'.threads[t]);
    } else {
      forall u | u in s'.threads ensures ParkedRight(s', u) {
        assert ParkedRight(s, u);
      }
    }
  }

  /** Adding an event anywhere but to a parked thread's pending list. */
  lemma AddKeeps(s: State, e: Eid, ev: Event, th: Thread)
    requires Inv(s) && ev.el.Some? && ev.tc in s.threads && !Listed(s.board, e)
    requires ev.el.value.Pending? ==> ev.el.value.tc == ev.tc
    requires ev.flag.Signal? ==> ev.el == Some(Waitq(ev.flag.wq)) || ev.el == Some(Pending(ev.tc))
    requires s.threads[ev.tc].running && th.running
    ensures Inv(s.(board := Add(s.board, e, ev), threads := s.threads[ev.tc := th]))
  {
    hide Placed;
    AddPlaced(s.board, e, ev);
    var s' := s.(board := Add(s.board, e, ev), threads := s.threads[ev.tc := th]);
    forall u | u in s'.threads ensures ParkedRight(s', u) {
      assert ParkedRight(s, u);
      assert u != ev.tc ==> forall x :: On(s'.board, x, Pending(u)) ==> On(s.board, x, Pending(u));
    }
    forall x | x in s'.board.events ensures SignalPlaced(s'.board, x) {
      if x != e { assert SignalPlaced(s.board, x); }
    }
  }

  /** Removing an event that is not a signal, or that is a signal about to be re-added. */
  lemma RemoveKeeps(s: State, e: Eid)
    requires Inv(s) && Listed(s.board, e) && !s.board.events[e].flag.Signal?
    ensures Inv(s.(board := Remove(s.board, e)))
  {
    hide Placed;
    RemovePlaced(s.board, e);
    var s' := s.(board := Remove(s.board, e));
    forall u | u in s'.threads ensures ParkedRight(s', u) {
      assert ParkedRight(s, u);
      assert forall x :: On(s'.board, x, Pending(u)) ==> On(s.board, x, Pending(u));
    }
    forall x | x in s'.board.events ensures SignalPlaced(s'.board, x) {
      assert SignalPlaced(s.board, x);
    }
  }

  /** Replacing the record of a running thread by a running one. */
  lemma ThreadKeeps(s: State, t: Tid, th: Thread)
    requires Inv(s) && t in s.threads && th.running
    ensures Inv(s.(threads := s.threads[t := th]))
  {
    hide Placed;
    var s' := s.(threads := s.threads[t := th]);
    forall u | u in s'.threads ensures ParkedRight(s', u) {
      assert ParkedRight(s, u);
    }
  }

  lemma PrepareKeeps(s: State, t: Tid, e: Eid, q: Qid)
    requires Inv(s) && t in s.threads && s.threads[t].running && !Listed(s.board, e)
    ensures Inv(Prepare(s, t, e, q))
  {
    hide Placed;
    AddKeeps(s, e, Event(t, Ready, s.threads[t].top, Some(Waitq(q))),
             s.threads[t].(woken := None, top := Some(e)));
  }

  lemma SubscribeKeeps(s: State, t: Tid, e: Eid, q: Qid)
    requires Inv(s) && t in s.threads && s.threads[t].running && !Listed(s.board, e)
    ensures Inv(Subscribe(s, t, e, q))
  {
    hide Placed;
    AddKeeps(s, e, Event(t, Signal(q), None, Some(Waitq(q))), s.threads[t].(woken := None));
  }

  lemma UnsubscribeKeeps(s: State, e: Eid)
    requires Inv(s) && Listed(s.board, e)
    ensures Inv(Unsubscribe(s, e))
  {
    hide Placed;
    RemovePlaced(s.board, e);
    ForgetPlaced(Remove(s.board, e), e);
    var s' := Unsubscribe(s, e);
    forall u | u in s'.threads ensures ParkedRight(s', u) {
      assert ParkedRight(s, u);
      assert forall x :: On(s'.board, x, Pending(u)) ==> On(s.board, x, Pending(u));
    }
    forall x | x in s'.board.events ensures SignalPlaced(s'.board, x) {
      assert SignalPlaced(s.board, x);
    }
  }

  lemma FinishKeeps(s: State, t: Tid, e: Eid)
    requires Inv(s) && t in s.threads && s.threads[t].running
    requires e in s.board.events && s.board.events[e].flag.Ready?
    requires !FinishFaults(s, t, e)
    ensures Inv(Finish(s, t, e).0)
  {
    hide Placed;
    var th := s.threads[t];
    var s1 := s.(board := RemoveIfListed(s.board, e));
    if Listed(s.board, e) { RemoveKeeps(s, e); }
    if Straight(s, t, e) {
      ThreadKeeps(s1, t, th.(top := s.board.events[e].next, woken := None));
    } else if Active(s, t, e) {
      RequeueKeeps(s1, t, th.woken.value, th.(top := s.board.events[e].next, woken := None));
    }
  }

  /** The signal goes from wherever it is to the pending list. */
  lemma RequeueKeeps(s: State, t: Tid, w: Eid, th: Thread)
    requires Inv(s) && t in s.threads && s.threads[t].running && th.running
    requires w in s.board.events && s.board.events[w].flag.Signal? && s.board.events[w].tc == t
    ensures var b1 := RemoveIfListed(s.board, w);
            Inv(s.(board := Add(b1, w, b1.events[w].(tc := t, el := Some(Pending(t)))),
                   threads := s.threads[t := th]))
  {
    hide Placed;
    assert SignalPlaced(s.board, w);
    RemovePlaced(s.board, w);
    var b1 := RemoveIfListed(s.board, w);
    var ev := b1.events[w].(tc := t, el := Some(Pending(t)));
    AddPlaced(b1, w, ev);
    var s' := s.(board := Add(b1, w, ev), threads := s.threads[t := th]);
    forall u | u in s'.threads ensures ParkedRight(s', u) {
      assert ParkedRight(s, u);
      assert u != t ==> forall x :: On(s'.board, x, Pending(u)) ==> On(s.board, x, Pending(u));
    }
    forall x | x in s'.board.events ensures SignalPlaced(s'.board, x) {
      assert SignalPlaced(s.board, x);
    }
  }

  lemma AddDirectKeeps(s: State, t: Tid, e: Eid, l: ListId)
    requires Inv(s) && t in s.threads && s.threads[t].running && !Listed(s.board, e)
    requires l.Immediate? || l.Fd?
    ensures Inv(AddDirect(s, t, e, l))
  {
    hide Placed;
    AddKeeps(s, e, Event(t, Ready, None, Some(l)), s.threads[t]);
    assert s.threads[t := s.threads[t]] == s.threads;
  }

  lemma PushKeeps(s: State, t: Tid, e: Eid)
    requires Inv(s) && t in s.threads && s.threads[t].running && e in s.board.events
    ensures Inv(Push(s, t, e))
  {
    hide Placed;
    var s' := Push(s, t, e);
    RelinkPlaced(s.board, e, s.threads[t].top);
    forall u | u in s'.threads ensures ParkedRight(s', u) {
      assert ParkedRight(s, u);
      assert forall x :: On(s'.board, x, Pending(u)) ==> On(s.board, x, Pending(u));
    }
    forall x | x in s'.board.events ensures SignalPlaced(s'.board, x) {
      assert SignalPlaced(s.board, x);
    }
  }

  lemma FinishDirectKeeps(s: State, t: Tid, e: Eid, isFd: bool)
    requires Inv(s) && t in s.threads && s.threads[t].running
    requires e in s.board.events && s.board.events[e].flag.Ready?
    requires s.threads[t].woken != Some(e) ==> Listed(s.board, e)
    ensures Inv(FinishDirect(s, t, e, isFd).0)
  {
    hide Placed;
    var s' := FinishDirect(s, t, e, isFd).0;
    if s.threads[t].woken != Some(e) {
      RemoveKeeps(s, e);
      ThreadKeeps(s.(board := Remove(s.board, e)), t, s'.threads[t]);
    } else {
      ThreadKeeps(s, t, s'.threads[t]);
    }
  }

  /** A source event goes to immediate. */
  lemma ToImmediateKeeps(s: State, e: Eid, head: bool)
    requires Inv(s) && Listed(s.board, e) && !s.board.events[e].el.value.Immediate?
    ensures Inv(s.(board := Relocate(s.board, e, Immediate, head)))
  {
    hide Placed;
    RelocatePlaced(s.board, e, Immediate, head);
    var s' := s.(board := Relocate(s.board, e, Immediate, head));
    forall u | u in s'.threads ensures ParkedRight(s', u) {
      assert ParkedRight(s, u);
      assert forall x :: On(s'.board, x, Pending(u)) ==> On(s.board, x, Pending(u));
    }
    forall x | x in s'.board.events ensures SignalPlaced(s'.board, x) {
      assert SignalPlaced(s.board, x);
    }
  }

  lemma WakeOneKeeps(s: State, q: Qid)
    requires Inv(s)
    ensures WaitqSane(s, q) && Inv(WakeOne(s, q))
  {
    var w := At(s.board, Waitq(q));
    assert ListNamed(s.board, Waitq(q));
    if w != [] {
      assert On(s.board, w[0], Waitq(q));
      ToImmediateKeeps(s, w[0], true);
    }
  }

  lemma SpawnKeeps(s: State, t: Tid, e: Eid, th: Thread)
    requires Inv(s) && t !in s.threads && e !in s.board.events
    ensures Inv(Spawn(s, t, e, th))
  {
    hide Placed;
    EnrollPlaced(s.board, t);
    AddPlaced(s.board.(refcnt := s.board.refcnt[t := 0]), e, Event(t, Ready, None, Some(Immediate)));
    var s' := Spawn(s, t, e, th);
    forall u | u in s'.threads ensures ParkedRight(s', u) {
      if u != t { assert ParkedRight(s, u); }
      forall x | On(s'.board, x, Pending(u)) ensures On(s.board, x, Pending(u)) && u in s.threads {
        EventThread(s, x);
      }
    }
    forall x | x in s'.board.events ensures SignalPlaced(s'.board, x) {
      if x != e { assert SignalPlaced(s.board, x); }
    }
  }

  lemma PostExitKeeps(s: State, t: Tid, e: Eid)
    requires Inv(s) && t in s.threads && s.threads[t].running && !Listed(s.board, e)
    ensures t in s.board.refcnt && Inv(PostExit(s, t, e))
  {
    hide Placed;
    AddKeeps(s, e, Event(t, Exiting, None, Some(Immediate)), s.threads[t]);
    assert s.threads[t := s.threads[t]] == s.threads;
  }

  lemma DiscardKeeps(s: State, t: Tid)
    requires Inv(s) && t in s.threads
    requires forall x :: x in s.board.events && s.board.events[x].tc == t ==> !Listed(s.board, x)
    ensures Inv(Discard(s, t))
  {
    ForgetThreadPlaced(s.board, t);
    hide Placed;
    var s' := Discard(s, t);
    forall u | u in s'.threads ensures ParkedRight(s', u) {
      assert ParkedRight(s, u);
      assert forall x :: On(s'.board, x, Pending(u)) ==> On(s.board, x, Pending(u));
    }
    forall x | x in s'.board.events ensures SignalPlaced(s'.board, x) {
      assert SignalPlaced(s.board, x);
    }
  }

  /** What a finish does to the events and to the thread. */
  ghost predicate Finished(s: State, s': State, t: Tid, e: Eid, intr: bool)
    requires t in s.threads && e in s.board.events
  {
    && s'.owner == s.owner
    && s'.threads == s.threads[t := if intr then s.threads[t]
                                    else s.threads[t].(top := s.board.events[e].next, woken := None)]
    && s'.board.events.Keys == s.board.events.Keys
    && s'.board.events[e] == s.board.events[e].(el := None)
    && (forall x :: x in s.board.events && x != e ==>
          || s'.board.events[x] == s.board.events[x]
          || (s.board.events[x].flag.Signal? && s.board.events[x].tc == t
              && s'.board.events[x] == s.board.events[x].(el := Some(Pending(t)))))
  }

  lemma FinishEffect(s: State, t: Tid, e: Eid)
    requires t in s.threads && t in s.board.refcnt && e in s.board.events && !FinishFaults(s, t, e)
    ensures var (s', intr) := Finish(s, t, e);
            Finished(s, s', t, e, intr) && (intr <==> !Straight(s, t, e) && !Active(s, t, e))
  {
  }

  // ---------------------------------------------------------------- wakeup_all

  function Reversed(q: seq<Eid>): seq<Eid> {
    if q == [] then [] else Reversed(q[1..]) + [q[0]]
  }

  lemma WakeOneLists(s: State, q: Qid)
    requires WaitqSane(s, q) && At(s.board, Waitq(q)) != []
    ensures var s' := WakeOne(s, q);
            var w := At(s.board, Waitq(q));
            && At(s'.board, Waitq(q)) == w[1..]
            && At(s'.board, Immediate) == [w[0]] + At(s.board, Immediate)
            && s'.threads == s.threads && s'.owner == s.owner
            && s'.board.events == s.board.events[w[0] := s.board.events[w[0]].(el := Some(Immediate))]
  {
  }

  lemma {:induction false} WakeAllKeeps(s: State, q: Qid)
    requires Inv(s)
    ensures Inv(WakeAll(s, q)) && WakeAll(s, q).threads == s.threads && WakeAll(s, q).owner == s.owner
    decreases |At(s.board, Waitq(q))|
  {
    hide Inv;
    WakeOneKeeps(s, q);
    if At(s.board, Waitq(q)) != [] {
      WakeOneLists(s, q);
      WakeAllKeeps(WakeOne(s, q), q);
    }
  }

  lemma {:induction false} WakeAllOrder(s: State, q: Qid)
    requires Inv(s)
    ensures At(WakeAll(s, q).board, Waitq(q)) == []
    ensures At(WakeAll(s, q).board, Immediate) == Reversed(At(s.board, Waitq(q))) + At(s.board, Immediate)
    decreases |At(s.board, Waitq(q))|
  {
    hide Inv, WakeOne, Reversed, At;
    WakeOneKeeps(s, q);
    WakeAllUnfolds(s, q);
    hide WakeAll;
    var w, i := At(s.board, Waitq(q)), At(s.board, Immediate);
    if w == [] {
      NobodyReversed(i);
    } else {
      WakeOneLists(s, q);
      WakeAllOrder(WakeOne(s, q), q);
      HeadReversed(w, i);
    }
  }

  lemma WakeAllUnfolds(s: State, q: Qid)
    requires WaitqSane(s, q)
    ensures WakeAll(s, q) == if At(s.board, Waitq(q)) == [] then s else WakeAll(WakeOne(s, q), q)
  {
  }

  lemma NobodyReversed(i: seq<Eid>)
    ensures Reversed([]) + i == i
  {
  }

  lemma HeadReversed(w: seq<Eid>, i: seq<Eid>)
    requires w != []
    ensures Reversed(w[1..]) + ([w[0]] + i) == Reversed(w) + i
  {
  }

  lemma {:induction false} WakeAllMoves(s: State, q: Qid)
    requires Inv(s)
    ensures AllWoken(s, WakeAll(s, q), q)
    decreases |At(s.board, Waitq(q))|
  {
    hide Inv, AllWoken;
    WakeOneKeeps(s, q);
    if At(s.board, Waitq(q)) == [] {
      NoneWoken(s, q);
    } else {
      WakeOneLists(s, q);
      WakeAllMoves(WakeOne(s, q), q);
      AllWokenStep(s, WakeOne(s, q), WakeAll(s, q), q, At(s.board, Waitq(q))[0]);
    }
  }

  /**
    tc_waitq_wakeup_all empties the queue; the waiters are on immediate, the last to
    have queued up first; nothing else moves.
   */
  lemma WakeAllSpec(s: State, q: Qid)
    requires Inv(s)
    ensures var s' := WakeAll(s, q);
            && Inv(s')
            && At(s'.board, Waitq(q)) == []
            && At(s'.board, Immediate) == Reversed(At(s.board, Waitq(q))) + At(s.board, Immediate)
            && s'.threads == s.threads && s'.owner == s.owner
            && AllWoken(s, s', q)
  {
    hide *;
    WakeAllKeeps(s, q);
    WakeAllOrder(s, q);
    WakeAllMoves(s, q);
  }

  /** The events of queue q went to immediate, the others stayed as they were. */
  ghost predicate AllWoken(s: State, s': State, q: Qid) {
    && s'.board.events.Keys == s.board.events.Keys
    && forall e :: e in s.board.events ==>
         s'.board.events[e] == if On(s.board, e, Waitq(q)) then s.board.events[e].(el := Some(Immediate))
                               else s.board.events[e]
  }

  lemma AllWokenStep(s: State, s1: State, s': State, q: Qid, e: Eid)
    requires On(s.board, e, Waitq(q))
    requires s1.board.events == s.board.events[e := s.board.events[e].(el := Some(Immediate))]
    requires AllWoken(s1, s', q)
    ensures AllWoken(s, s', q)
  {
  }

  lemma NoneWoken(s: State, q: Qid)
    requires Inv(s) && At(s.board, Waitq(q)) == []
    ensures AllWoken(s, s, q)
  {
    forall e ensures !On(s.board, e, Waitq(q)) {
      assert Listed(s.board, e) ==> e in At(s.board, s.board.events[e].el.value);
    }
  }
}

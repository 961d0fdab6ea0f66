/**
  The event core as the library runs it: one object whose methods update the lists and
  records in place (threaded_cr.c).  Each method is a locked section; it is shown to do
  what the function of the same name in Runtime or Dispatching says.
 */
module Scheduler {
  import opened Common
  import opened Events
  import R = Runtime
  import D = Dispatching
  import F = FdEvents

  class EventCore {
    var events: map<Eid, Event>
    var lists: map<ListId, seq<Eid>>
    var immediateCount: int
    var refcnt: map<Tid, int>
    var threads: map<Tid, R.Thread>
    var owner: map<Qid, Option<Tid>>

    ghost function Abs(): R.State
      reads this
    {
      R.State(Board(events, lists, immediateCount, refcnt), threads, owner)
    }

    ghost predicate Valid()
      reads this
    {
      R.Inv(Abs())
    }

    constructor (mutexes: set<Qid>)
      ensures Valid()
      ensures events == map[] && threads == map[] && forall q :: q in mutexes ==> q in owner && owner[q].None?
    {
      events, lists, immediateCount, refcnt := map[], map[], 0, map[];
      threads := map[];
      owner := map q | q in mutexes :: None;
      new;
      forall l ensures ListNamed(Abs().board, l) {}
      forall t ensures RefcntOf(Abs().board, t) {}
    }

    function List(l: ListId): seq<Eid>
      reads this
    {
      if l in lists then lists[l] else []
    }

    // -------------------------------------------------------------- list primitives

    /** CIRCLEQ_REMOVE */
    method Unlink(e: Eid, ghost q: seq<Eid>) returns (r: seq<Eid>)
      requires e in events && events[e].el.Some? && q == List(events[e].el.value)
      requires Distinct(q) && e in q
      ensures r == Without(q, e)
    {
      var list := List(events[e].el.value);
      var i := 0;
      while list[i] != e
        invariant 0 <= i < |list| && e !in list[..i]
        decreases |list| - i
      {
        i := i + 1;
      }
      WithoutAt(list, e, i);
      r := list[..i] + list[i + 1..];
    }

    /** __remove_event: off the list, and the immediate count down, reset should it get negative. */
    method UnlinkCounted(e: Eid)
      requires ListsNamed(Abs().board) && NamesListed(Abs().board) && Listed(Abs().board, e)
      modifies this`lists, this`immediateCount
      ensures var b := old(Abs().board);
              var from := b.events[e].el.value;
              lists == b.lists[from := Without(At(b, from), e)] && immediateCount == CountOut(from, b.immediateCount)
    {
      var from := events[e].el.value;
      ghost var b := Abs().board;
      assert ListNamed(b, from);
      var q := Unlink(e, List(from));
      lists := lists[from := q];
      if from == Immediate {
        immediateCount := immediateCount - 1;
        if immediateCount < 0 {
          immediateCount := 0;
        }
      }
    }

    /** _remove_event */
    method RemoveEvent(e: Eid)
      requires Placed(Abs().board) && Listed(Abs().board, e)
      modifies this`events, this`lists, this`immediateCount, this`refcnt
      ensures Abs() == old(Abs()).(board := Remove(old(Abs()).board, e))
    {
      var t := events[e].tc;
      assert t in refcnt;
      UnlinkCounted(e);
      refcnt := refcnt[t := refcnt[t] - 1];
      events := events[e := events[e].(el := None)];
    }

    /** move_event, and with `head` the list code of the wakeups */
    method MoveEvent(e: Eid, to: ListId, head: bool)
      requires Placed(Abs().board) && Listed(Abs().board, e) && events[e].el != Some(to)
      modifies this`events, this`lists, this`immediateCount
      ensures Abs() == old(Abs()).(board := Relocate(old(Abs()).board, e, to, head))
    {
      var dst := List(to);
      UnlinkCounted(e);
      events := events[e := events[e].(el := Some(to))];
      lists := lists[to := if head then [e] + dst else dst + [e]];
      if to == Immediate {
        immediateCount := immediateCount + 1;
      }
    }

    /** _add_event; add_event_cr counts an event for immediate */
    method AddEvent(e: Eid, ev: Event)
      requires ev.el.Some? && ev.tc in refcnt && !Listed(Abs().board, e)
      modifies this`events, this`lists, this`immediateCount, this`refcnt
      ensures Abs() == old(Abs()).(board := Add(old(Abs()).board, e, ev))
    {
      var l := ev.el.value;
      refcnt := refcnt[ev.tc := refcnt[ev.tc] + 1];
      events := events[e := ev];
      lists := lists[l := List(l) + [e]];
      if l == Immediate {
        immediateCount := immediateCount + 1;
      }
    }

    // -------------------------------------------------------------- dispatch

    /** The tail of a delivery: a signal goes back to its list, any other event is done. */
    method Deliver(e: Eid)
      requires Placed(Abs().board) && Listed(Abs().board, e)
      requires events[e].flag.Signal? ==> events[e].el != Some(Waitq(events[e].flag.wq))
      modifies this`events, this`lists, this`immediateCount, this`refcnt
      ensures Abs() == old(Abs()).(board := R.Deliver(old(Abs()).board, e))
    {
      if events[e].flag.Signal? {
        MoveEvent(e, Waitq(events[e].flag.wq), false);
      } else {
        RemoveEvent(e);
      }
    }

    /** run_or_queue */
    method RunOrQueue(e: Eid) returns (tc: Option<Tid>)
      requires Valid() && R.Runnable(Abs(), e)
      modifies this
      ensures Valid()
      ensures (Abs(), tc) == R.RunOrQueue(old(Abs()), e)
    {
      R.RunOrQueueKeeps(Abs(), e);
      R.IsPlaced(Abs());
      hide R.Inv;
      hide Placed;
      var t := events[e].tc;
      if events[e].flag.Exiting? {
        RemoveEvent(e);
        tc := Some(t);
      } else if threads[t].running
             || (!events[e].flag.Signal? && threads[t].top.Some? && threads[t].top != Some(e)) {
        MoveEvent(e, Pending(t), false);
        tc := None;
      } else {
        Deliver(e);
        threads := threads[t := threads[t].(running := true, woken := Some(e))];
        tc := Some(t);
      }
    }

    /** _run_immediate: a thread that has exited is freed, and the search goes on. */
    method RunImmediate(nr: int, dom: Did) returns (o: D.Outcome)
      requires Valid() && D.ExitsAlone(Abs())
      modifies this
      ensures Valid() && !o.Reap?
      ensures (Abs(), o) == D.Search(old(Abs()), nr, dom)
    {
      hide R.Inv, D.Pass, D.ExitsAlone, D.Entries;
      D.SearchEnds(Abs(), nr, dom);
      ghost var s0 := Abs();
      while true
        invariant Valid() && D.ExitsAlone(Abs()) && D.Search(Abs(), nr, dom) == D.Search(s0, nr, dom)
        decreases |List(Immediate)|
      {
        D.EntriesOf(Abs());
        D.SearchShrinks(Abs(), nr, dom);
        o := SearchImmediate(nr, dom);
        if !o.Reap? {
          return;
        }
        ThreadFree(o.tc);
      }
    }

    /** tc_thread_free, as far as events and threads go */
    method ThreadFree(t: Tid)
      modifies this`events, this`refcnt, this`threads
      ensures Abs() == R.Discard(old(Abs()), t)
    {
      events := map x | x in events && events[x].tc != t :: events[x];
      refcnt := refcnt - {t};
      threads := threads - {t};
    }

    /** The locked part of _run_immediate: back to the head of the list after every queued event. */
    method SearchImmediate(nr: int, dom: Did) returns (o: D.Outcome)
      requires Valid()
      modifies this
      ensures Valid()
      ensures D.Entries(old(Abs()), At(old(Abs()).board, Immediate))
      ensures (Abs(), o) == D.Pass(old(Abs()), At(old(Abs()).board, Immediate), nr, dom)
    {
      hide R.Inv;
      hide D.Pass;
      hide R.RunOrQueue;
      D.EntriesOf(Abs());
      var i := 0;
      while i < |List(Immediate)|
        invariant Valid() && D.Entries(Abs(), List(Immediate)) && 0 <= i <= |List(Immediate)|
        invariant forall j :: 0 <= j < i ==> !D.Wanted(Abs(), List(Immediate)[j], nr, dom)
        invariant D.Pass(Abs(), List(Immediate), nr, dom) == D.Pass(old(Abs()), At(old(Abs()).board, Immediate), nr, dom)
        decreases |List(Immediate)|, |List(Immediate)| - i
      {
        var e := List(Immediate)[i];
        assert D.Entry(Abs(), e);
        var th := threads[events[e].tc];
        var wanted := th.domain == dom
                      && (nr == D.ANY_WORKER || th.workerNr == nr || (nr == D.FREE_WORKER && !th.affine));
        if !wanted {
          i := i + 1;
        } else {
          ghost var s, q := Abs(), List(Immediate);
          var exiting := events[e].flag.Exiting?;
          ScanStep(s, q, i, nr, dom);
          var tc := RunOrQueue(e);
          if tc.Some? {
            o := if exiting then D.Reap(tc.value) else D.Switch(tc.value, e);
            return;
          }
          i := 0;
        }
      }
      ScanEnds(Abs(), List(Immediate), nr, dom);
      o := D.Nothing;
    }

    // -------------------------------------------------------------- tc_scheduler

    /** tc_scheduler: the pending list is searched for the awaited event, then for a signal. */
    method TcScheduler(t: Tid) returns (parked: bool)
      requires Valid() && t in threads && threads[t].running
      modifies this
      ensures Valid()
      ensures R.Pick(old(Abs()), t).Some? ==> On(old(Abs()).board, R.Pick(old(Abs()), t).value, Pending(t))
      ensures Abs() == R.Schedule(old(Abs()), t)
      ensures parked <==> !threads[t].running
    {
      R.ScheduleKeeps(Abs(), t);
      R.PickSpec(Abs(), t);
      PendingOf(Abs(), t);
      R.IsPlaced(Abs());
      hide R.Inv;
      hide Placed;
      var p := List(Pending(t));
      var pick: Option<Eid> := None;
      if p != [] {
        if threads[t].top.None? {
          pick := Some(p[0]);
        } else {
          pick := SearchPending(t, p);
        }
      }
      assert pick == R.Pick(Abs(), t);
      hide R.Pick;
      if pick.Some? {
        Deliver(pick.value);
        threads := threads[t := threads[t].(woken := pick)];
        parked := false;
      } else {
        threads := threads[t := threads[t].(running := false)];
        parked := true;
      }
    }

    method SearchPending(t: Tid, p: seq<Eid>) returns (pick: Option<Eid>)
      requires t in threads && threads[t].top.Some?
      requires forall e :: e in p ==> e in events
      ensures pick == if threads[t].top.value in p then threads[t].top else R.LastSignal(Abs().board, p)
    {
      pick := None;
      var i := 0;
      while i < |p|
        invariant 0 <= i <= |p| && threads[t].top.value !in p[..i]
        invariant pick == R.LastSignal(Abs().board, p[..i])
      {
        if p[i] == threads[t].top.value {
          pick := Some(p[i]);
          return;
        }
        assert p[..i + 1][..i] == p[..i];
        if events[p[i]].flag.Signal? {
          pick := Some(p[i]);
        }
        i := i + 1;
      }
      assert p[..i] == p;
    }

    // -------------------------------------------------------------- waiting

    /** tc_waitq_prepare_to_wait */
    method PrepareToWait(t: Tid, e: Eid, q: Qid)
      requires Valid() && t in threads && threads[t].running && !Listed(Abs().board, e)
      modifies this
      ensures Valid() && t in old(Abs()).board.refcnt && Abs() == R.Prepare(old(Abs()), t, e, q)
    {
      R.Counted(Abs(), t);
      R.PrepareKeeps(Abs(), t, e, q);
      AddEvent(e, Event(t, Ready, threads[t].top, Some(Waitq(q))));
      threads := threads[t := threads[t].(woken := None, top := Some(e))];
    }

    /** remove_event_holding_locks */
    method RemoveIfListed(e: Eid)
      requires Placed(Abs().board)
      modifies this`events, this`lists, this`immediateCount, this`refcnt
      ensures Abs() == old(Abs()).(board := R.RemoveIfListed(old(Abs()).board, e)) && Placed(Abs().board)
    {
      if e in events && events[e].el.Some? {
        RemovePlaced(Abs().board, e);
        RemoveEvent(e);
      }
    }

    /** tc_waitq_finish_wait */
    method FinishWait(t: Tid, e: Eid) returns (intr: bool)
      requires Valid() && t in threads && threads[t].running
      requires e in events && events[e].flag.Ready? && !R.FinishFaults(Abs(), t, e)
      modifies this
      ensures Valid() && t in old(Abs()).board.refcnt
      ensures (Abs(), intr) == R.Finish(old(Abs()), t, e)
    {
      R.Counted(Abs(), t);
      R.FinishKeeps(Abs(), t, e);
      R.IsPlaced(Abs());
      hide R.Inv;
      hide Placed;
      var th := threads[t];
      var next := events[e].next;
      if th.top == Some(e) && (th.woken.None? || th.woken == Some(e)) {
        RemoveIfListed(e);
        threads := threads[t := th.(top := next, woken := None)];
        intr := false;
      } else {
        intr := FinishInterrupted(t, e);
      }
    }

    /** The part of tc_waitq_finish_wait for a thread that something else has woken */
    method FinishInterrupted(t: Tid, e: Eid) returns (intr: bool)
      requires Placed(Abs().board) && t in threads && t in refcnt
      requires e in events && !R.Straight(Abs(), t, e) && !R.FinishFaults(Abs(), t, e)
      modifies this
      ensures (Abs(), intr) == R.Finish(old(Abs()), t, e)
    {
      hide Placed;
      var th := threads[t];
      var next := events[e].next;
      var active := events[e].el == Some(Pending(t)) || events[e].el == Some(Immediate);
      RemoveIfListed(e);
      if active {
        var w := th.woken.value;
        RemoveIfListed(w);
        AddEvent(w, events[w].(tc := t, el := Some(Pending(t))));
        threads := threads[t := th.(top := next, woken := None)];
      }
      intr := !active;
    }

    // -------------------------------------------------------------- wakeups

    /** tc_waitq_wakeup_one_owner without an owner to set */
    method WakeupOne(q: Qid)
      requires Valid()
      modifies this
      ensures Valid() && R.WaitqSane(old(Abs()), q) && Abs() == R.WakeOne(old(Abs()), q)
    {
      R.WakeOneKeeps(Abs(), q);
      var w := List(Waitq(q));
      if w != [] {
        MoveEvent(w[0], Immediate, true);
      }
    }

    /** tc_mutex_unlock */
    method MutexUnlock(m: Qid)
      requires Valid() && m in owner && owner[m].Some?
      modifies this
      ensures Valid() && R.WaitqSane(old(Abs()), m) && Abs() == R.Unlock(old(Abs()), m)
    {
      var w := List(Waitq(m));
      R.WakeOneKeeps(Abs(), m);
      var woken := if w == [] then None else Some(events[w[0]].tc);
      WakeupOne(m);
      owner := owner[m := woken];
    }

    /** tc_waitq_wakeup_all, which is also tc_signal_fire */
    method WakeupAll(q: Qid)
      requires Valid()
      modifies this
      ensures Valid() && Abs() == R.WakeAll(old(Abs()), q)
    {
      while List(Waitq(q)) != []
        invariant Valid() && R.WakeAll(Abs(), q) == R.WakeAll(old(Abs()), q)
        decreases |List(Waitq(q))|
      {
        ghost var s := Abs();
        R.WakeOneKeeps(s, q);
        R.WakeOneLists(s, q);
        WakeupOne(q);
      }
    }

    /** wakeup_all_events: the event that is left for run_or_queue */
    method WakeupAllEvents(f: nat, nr: int) returns (e: Option<Eid>)
      requires Valid()
      modifies this
      ensures Valid() && (Abs(), e) == F.WakeFd(old(Abs()), f, nr)
    {
      F.FdList(Abs(), f);
      ghost var s0 := Abs();
      var todo := List(Fd(f));
      var ew: Option<Eid>, ex: Option<Eid> := None, None;
      hide F.LoopInv, R.Inv;
      while todo != []
        invariant Valid() && F.LoopInv(Abs(), todo, ew, ex)
        invariant F.Loop(Abs(), todo, nr, ew, ex) == F.WakeFd(s0, f, nr)
        decreases |todo|
      {
        var cur := todo[0];
        F.Step(Abs(), todo, ew, ex);
        F.LoopOn(Abs(), todo, ew, ex);
        if ew.None? && threads[events[cur].tc].workerNr == nr {
          ew := Some(cur);
        } else if ex.None? {
          ex := Some(cur);
        } else {
          MoveEvent(cur, Immediate, false);
        }
        todo := todo[1..];
      }
      F.LoopOn(Abs(), todo, ew, ex);
      if ew.Some? && ex.Some? {
        MoveEvent(ex.value, Immediate, false);
      }
      e := if ew.Some? then ew else ex;
    }

    /** __sync_bool_compare_and_swap(&m->m_owner, 0, t): tc_mutex_trylock */
    method MutexTryLock(m: Qid, t: Tid) returns (won: bool)
      requires m in owner
      modifies this`owner
      ensures Abs() == R.Cas(old(Abs()), m, t) && won == R.CasWins(old(Abs()), m)
    {
      won := owner[m].None?;
      if won {
        owner := owner[m := Some(t)];
      }
    }
  }

  // ---------------------------------------------------------------- what the loops need

  lemma PendingOf(s: R.State, t: Tid)
    requires R.Inv(s)
    ensures forall e :: e in At(s.board, Pending(t)) ==> e in s.board.events
  {
    assert ListNamed(s.board, Pending(t));
  }

  /** The scan arrives at a wanted entry behind unwanted ones. */
  lemma ScanStep(s: R.State, q: seq<Eid>, i: nat, nr: int, dom: Did)
    requires D.Entries(s, q) && q == At(s.board, Immediate) && i < |q|
    requires forall j :: 0 <= j < i ==> !D.Wanted(s, q[j], nr, dom)
    requires D.Wanted(s, q[i], nr, dom)
    ensures D.Entry(s, q[i])
    ensures var (s', tc) := R.RunOrQueue(s, q[i]);
            if tc.Some? then
              D.Pass(s, q, nr, dom) == (s', if s.board.events[q[i]].flag.Exiting? then D.Reap(tc.value)
                                            else D.Switch(tc.value, q[i]))
            else
              && |At(s'.board, Immediate)| < |q|
              && D.Entries(s', At(s'.board, Immediate))
              && D.Pass(s', At(s'.board, Immediate), nr, dom) == D.Pass(s, q, nr, dom)
  {
    var u, e, rest := q[..i], q[i], q[i + 1..];
    assert q == u + [e] + rest;
    assert D.Entry(s, e);
    D.RunOrQueueLists(s, u, e, rest, 0);
    if D.Stuck(s, e) {
      D.PassRestarts(s, u, e, rest, nr, dom);
    } else {
      assert q == u + ([e] + rest);
      D.PassSkips(s, u, [e] + rest, nr, dom);
    }
  }

  lemma ScanEnds(s: R.State, q: seq<Eid>, nr: int, dom: Did)
    requires D.Entries(s, q) && forall j :: 0 <= j < |q| ==> !D.Wanted(s, q[j], nr, dom)
    ensures D.Pass(s, q, nr, dom) == (s, D.Nothing)
  {
    assert q + [] == q;
    D.PassSkips(s, q, [], nr, dom);
  }
}

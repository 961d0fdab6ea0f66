/**
  tc_sleep as a state machine (threaded_cr.c): every call sorts its waiter into the timer
  list, one sleeper is elected master by trylock on timer_mutex, the others wait on their own
  waitqueue. A section under timer_lock is one step; what runs outside it is split up.
 */
module Sleepers {
  import opened Common
  import opened Waits
  import opened Timer

  type Sid = nat

  /** Where a call of tc_sleep is. */
  datatype Pc =
    | Yield          // before tc_sched_yield returns
    | Enlist         // before insert_into_timer_list
    | Prepare        // before tc_waitq_prepare_to_wait
    | Look           // waiting_done, before it looks at the list
    | Gauge          // waiting_done, before it reads the clock
    | Try            // before tc_mutex_trylock
    | Park           // before tc_scheduler
    | Parked         // inside tc_scheduler
    | Finish         // before tc_waitq_finish_wait
    | LeaveDone      // condition met by waiting_done, before tc_waitq_finish_wait
    | LeaveMaster    // condition met by trylock, before tc_waitq_finish_wait
    | MasterLook
    | MasterGauge
    | Program        // before the section around timerfd_reprogram_valid
    | WaitFd         // inside tc_wait_fd
    | Wake           // before the wake loop's section
    | Unlock         // before tc_mutex_unlock
    | Leave          // before remove_from_timer_list_wakeup
    | Done           // returned

  /** ok: rv is RV_OK; ts: the last clock reading. */
  datatype Sleeper = Sleeper(end: Time, pc: Pc, ev: Ev, ok: bool, ts: Time)

  datatype Sys = Sys(
    now: Time,
    list: seq<Waiter>,
    stamp: nat,
    owner: Option<Sid>,       // timer_mutex
    sleepers: seq<Sleeper>,
    count: int,               // timer_sleepers
    fault: bool)              // LIST_FIRST of an empty list followed, or a free mutex unlocked

  datatype Step =
    | Tick(now: Time)
    | Call(sec: int, nsec: int)
    | Move(s: Sid, intr: bool)      // one step of call s; intr: a signal interrupts

  predicate OnList(list: seq<Waiter>, s: Sid) {
    exists i :: 0 <= i < |list| && list[i].sid == s
  }

  predicate Guard(m: Sys, step: Step) {
    match step
    case Tick(t) => Clock(t) && Total(m.now) <= Total(t)
    case Call(_, _) => true
    case Move(s, intr) =>
      && s < |m.sleepers| && m.sleepers[s].pc != Done
      && (m.sleepers[s].pc == Parked ==> intr || m.sleepers[s].ev == Fired)
  }

  /** tc_waitq_wakeup_all on the waitqueues of the listed waiters */
  function Fire(sleepers: seq<Sleeper>, woken: seq<Waiter>): (r: seq<Sleeper>)
    ensures |r| == |sleepers|
  {
    seq(|sleepers|, i requires 0 <= i < |sleepers| =>
      if sleepers[i].ev == Waiting && OnList(woken, i) then sleepers[i].(ev := Fired) else sleepers[i])
  }

  function At(m: Sys, s: Sid, pc: Pc): Sys
    requires s < |m.sleepers|
  {
    m.(sleepers := m.sleepers[s := m.sleepers[s].(pc := pc)])
  }

  function AtEv(m: Sys, s: Sid, pc: Pc, ev: Ev, ok: bool): Sys
    requires s < |m.sleepers|
  {
    m.(sleepers := m.sleepers[s := m.sleepers[s].(pc := pc, ev := ev, ok := ok)])
  }

  function Apply(m: Sys, step: Step): Sys
    requires Guard(m, step)
  {
    match step
    case Tick(t) => m.(now := t)
    case Call(sec, nsec) =>
      var end := Deadline(Time(m.now.sec + sec, m.now.nsec + nsec));
      m.(sleepers := m.sleepers + [Sleeper(end, Yield, Off, true, m.now)], count := m.count + 1)
    case Move(s, intr) => Moved(m, s, intr)
  }

  function Moved(m: Sys, s: Sid, intr: bool): Sys
    requires Guard(m, Move(s, intr))
  {
    var p := m.sleepers[s];
    match p.pc
    case Yield => if intr then AtEv(m, s, Leave, Off, false) else At(m, s, Enlist)
    case Enlist =>
      At(m, s, Prepare).(list := Insert(m.list, Waiter(s, p.end, m.stamp)), stamp := m.stamp + 1)
    case Prepare => AtEv(m, s, Look, Waiting, p.ok)
    case Look => At(m, s, if OnList(m.list, s) then Gauge else LeaveDone)
    case Gauge => At(m, s, if Compare(m.now, p.end) >= 0 then LeaveDone else Try)
    case Try => if m.owner == None then At(m, s, LeaveMaster).(owner := Some(s)) else At(m, s, Park)
    case Park => At(m, s, Parked)
    case Parked => At(m, s, Finish)
    case Finish => if p.ev == Fired then AtEv(m, s, Prepare, Off, p.ok) else AtEv(m, s, Leave, Off, false)
    case LeaveDone => AtEv(m, s, Leave, Off, p.ok)
    case LeaveMaster => AtEv(m, s, MasterLook, Off, p.ok)
    case MasterLook => At(m, s, if OnList(m.list, s) then MasterGauge else Unlock)
    case MasterGauge =>
      m.(sleepers := m.sleepers[s := p.(pc := if Compare(m.now, p.end) >= 0 then Unlock else Program, ts := m.now)])
    case Program =>
      if m.list == [] then m.(fault := true)
      else At(m, s, if Expired(m.list[0].end, p.ts) then Wake else WaitFd)
    case WaitFd => if intr then AtEv(m, s, Unlock, Off, false) else At(m, s, Wake)
    case Wake => WokenUp(m, s)
    case Unlock => if m.owner == None then m.(fault := true) else At(m, s, Leave).(owner := None)
    case Leave => Left(m, s)
  }

  /** The master's wake loop */
  function WokenUp(m: Sys, s: Sid): Sys
    requires s < |m.sleepers|
  {
    var k := Due(m.list, m.now);
    At(m.(list := m.list[k..], sleepers := Fire(m.sleepers, m.list[..k])), s, MasterLook)
  }

  /** remove_from_timer_list_wakeup and the rest of tc_sleep */
  function Left(m: Sys, s: Sid): Sys
    requires s < |m.sleepers|
  {
    var list := WithoutSid(m.list, s);
    At(m.(list := list, sleepers := Fire(m.sleepers, if list == [] then [] else [list[0]]), count := m.count - 1), s, Done)
  }

  predicate Init(m: Sys) {
    Clock(m.now) && m.list == [] && m.owner == None && m.sleepers == [] && m.count == 0 && !m.fault
  }

  ghost predicate Run(ms: seq<Sys>, steps: seq<Step>) {
    && |ms| == |steps| + 1 && Init(ms[0])
    && forall i :: 0 <= i < |steps| ==> Guard(ms[i], steps[i]) && ms[i + 1] == Apply(ms[i], steps[i])
  }

  // ---------------------------------------------------------------- what every state satisfies

  predicate Unlisted(pc: Pc) {
    pc == Yield || pc == Enlist || pc == Done
  }

  /** Between trylock and unlock. */
  predicate Master(pc: Pc) {
    pc == LeaveMaster || pc == MasterLook || pc == MasterGauge || pc == Program || pc == WaitFd || pc == Wake || pc == Unlock
  }

  /** The event is in use from prepare to finish. */
  predicate Prepared(pc: Pc) {
    pc == Look || pc == Gauge || pc == Try || pc == Park || pc == Parked || pc == Finish || pc == LeaveDone || pc == LeaveMaster
  }

  predicate Reached(m: Sys, s: Sid)
    requires s < |m.sleepers|
  {
    Compare(m.now, m.sleepers[s].end) >= 0
  }

  /** RV_OK is only on its way once abs_end is reached; a waiter is taken off only when its time
      has come; the elected master has its own waiter on the list when it looks at the head. */
  ghost predicate SleeperInv(m: Sys, s: Sid)
    requires s < |m.sleepers|
  {
    var p := m.sleepers[s];
    && p.end.nsec <= SECOND && Clock(p.ts)
    && (Unlisted(p.pc) ==> !OnList(m.list, s))
    && (!Unlisted(p.pc) && p.ok && !OnList(m.list, s) ==> Reached(m, s))
    && ((p.pc == LeaveDone || p.pc == Unlock || p.pc == Leave || p.pc == Done) && p.ok ==> Reached(m, s))
    && (!(p.pc == Unlock || p.pc == Leave || p.pc == Done) ==> p.ok)
    && (p.pc == MasterGauge || p.pc == Program ==> OnList(m.list, s))
    && (Master(p.pc) <==> m.owner == Some(s))
    && (Prepared(p.pc) <==> p.ev != Off)
  }

  ghost predicate ListInv(m: Sys) {
    && Sorted(m.list) && DistinctSids(m.list)
    && forall i :: 0 <= i < |m.list| ==> WaiterInv(m, m.list[i])
  }

  ghost predicate WaiterInv(m: Sys, w: Waiter) {
    w.stamp < m.stamp && w.sid < |m.sleepers| && w.end == m.sleepers[w.sid].end
  }

  /** Awake, or woken up, and bound to try for mastership or to wake the head of the list. */
  predicate Committed(p: Sleeper) {
    || p.pc == Prepare || p.pc == Look || p.pc == Gauge || p.pc == Try || p.pc == LeaveDone || p.pc == Leave
    || ((p.pc == Park || p.pc == Parked || p.pc == Finish) && p.ev == Fired)
  }

  ghost predicate SomeCommitted(m: Sys) {
    exists s :: 0 <= s < |m.sleepers| && Committed(m.sleepers[s])
  }

  function Unfinished(sleepers: seq<Sleeper>): nat {
    if sleepers == [] then 0
    else Unfinished(sleepers[..|sleepers| - 1]) + (if sleepers[|sleepers| - 1].pc == Done then 0 else 1)
  }

  ghost predicate Inv(m: Sys) {
    && Clock(m.now) && !m.fault
    && ListInv(m)
    && (forall s :: 0 <= s < |m.sleepers| ==> SleeperInv(m, s))
    && (m.owner.Some? ==> m.owner.value < |m.sleepers|)
    && (m.list != [] && m.owner == None ==> SomeCommitted(m))
    && m.count == Unfinished(m.sleepers)
  }

  // ---------------------------------------------------------------- small facts

  lemma {:induction false} UnfinishedUpdate(q: seq<Sleeper>, s: Sid, p: Sleeper)
    requires s < |q|
    ensures Unfinished(q[s := p]) == Unfinished(q) - (if q[s].pc == Done then 0 else 1) + (if p.pc == Done then 0 else 1)
  {
    var n := |q| - 1;
    if s == n {
      assert q[s := p][..n] == q[..n];
    } else {
      assert q[s := p][..n] == q[..n][s := p];
      UnfinishedUpdate(q[..n], s, p);
    }
  }

  lemma {:induction false} UnfinishedSame(q: seq<Sleeper>, r: seq<Sleeper>)
    requires |q| == |r| && forall i :: 0 <= i < |q| ==> q[i].pc == r[i].pc
    ensures Unfinished(q) == Unfinished(r)
  {
    if q != [] {
      var n := |q| - 1;
      UnfinishedSame(q[..n], r[..n]);
    }
  }

  lemma LaterReached(now: Time, later: Time, end: Time)
    requires Clock(now) && Clock(later) && Total(now) <= Total(later) && Compare(now, end) >= 0
    ensures Compare(later, end) >= 0
  {
    CompareClock(later, now);
  }

  /** Sleeper v as another's step leaves it. */
  lemma SleeperFrame(m: Sys, m': Sys, v: Sid)
    requires v < |m.sleepers| && v < |m'.sleepers| && SleeperInv(m, v) && m'.now == m.now
    requires m'.sleepers[v] == m.sleepers[v] || (m.sleepers[v].ev == Waiting && m'.sleepers[v] == m.sleepers[v].(ev := Fired))
    requires m.owner == Some(v) <==> m'.owner == Some(v)
    requires OnList(m'.list, v) ==> OnList(m.list, v)
    requires OnList(m.list, v) && !OnList(m'.list, v) ==> Reached(m, v) && m.owner != Some(v)
    ensures SleeperInv(m', v)
  {
    hide OnList;
  }

  lemma CommittedFrame(m: Sys, m': Sys, s: Sid)
    requires |m'.sleepers| == |m.sleepers| && s < |m.sleepers| && SomeCommitted(m)
    requires forall v :: 0 <= v < |m.sleepers| && v != s && Committed(m.sleepers[v]) ==> Committed(m'.sleepers[v])
    requires Committed(m.sleepers[s]) ==> Committed(m'.sleepers[s])
    ensures SomeCommitted(m')
  {
    hide Committed;
    var v :| 0 <= v < |m.sleepers| && Committed(m.sleepers[v]);
    assert Committed(m'.sleepers[v]);
  }

  // ---------------------------------------------------------------- steps that touch one sleeper only

  lemma QuietKeeps(m: Sys, m': Sys, s: Sid, q: Sleeper)
    requires Inv(m) && s < |m.sleepers| && m' == m.(sleepers := m.sleepers[s := q])
    requires q.end == m.sleepers[s].end && (q.pc == Done <==> m.sleepers[s].pc == Done)
    requires SleeperInv(m', s)
    requires m.owner == None && Committed(m.sleepers[s]) ==> Committed(q)
    ensures Inv(m')
  {
    hide Committed;
    UnfinishedUpdate(m.sleepers, s, q);
    forall v | 0 <= v < |m'.sleepers| ensures SleeperInv(m', v) {
      if v != s { SleeperFrame(m, m', v); }
    }
    hide SleeperInv;
    if m.list != [] && m.owner == None {
      CommittedFrame(m, m', s);
    }
    forall i | 0 <= i < |m'.list| ensures WaiterInv(m', m'.list[i]) {
      assert WaiterInv(m, m.list[i]);
    }
  }

  predicate Quiet(m: Sys, s: Sid)
    requires s < |m.sleepers|
  {
    var pc := m.sleepers[s].pc;
    !(pc == Enlist || pc == Wake || pc == Unlock || pc == Leave || (pc == Try && m.owner == None))
  }

  lemma QuietStep(m: Sys, s: Sid, intr: bool)
    requires Guard(m, Move(s, intr)) && Quiet(m, s) && Inv(m)
    ensures Inv(Moved(m, s, intr))
  {
    var m' := Moved(m, s, intr);
    QuietShape(m, s, intr);
    QuietKeeps(m, m', s, m'.sleepers[s]);
  }

  lemma QuietShape(m: Sys, s: Sid, intr: bool)
    requires Guard(m, Move(s, intr)) && Quiet(m, s) && SleeperInv(m, s) && Clock(m.now)
    ensures var m' := Moved(m, s, intr);
            && |m'.sleepers| == |m.sleepers|
            && m' == m.(sleepers := m.sleepers[s := m'.sleepers[s]])
            && m'.sleepers[s].end == m.sleepers[s].end && m'.sleepers[s].pc != Done
            && SleeperInv(m', s)
            && (m.owner == None && Committed(m.sleepers[s]) ==> Committed(m'.sleepers[s]))
  {
    hide Compare;
    if Master(m.sleepers[s].pc) {
      MasterShape(m, s, intr);
    } else {
      WaiterShape(m, s, intr);
    }
  }

  lemma WaiterShape(m: Sys, s: Sid, intr: bool)
    requires Guard(m, Move(s, intr)) && Quiet(m, s) && SleeperInv(m, s) && !Master(m.sleepers[s].pc)
    ensures var m' := Moved(m, s, intr);
            && |m'.sleepers| == |m.sleepers|
            && m' == m.(sleepers := m.sleepers[s := m'.sleepers[s]])
            && m'.sleepers[s].end == m.sleepers[s].end && m'.sleepers[s].pc != Done
            && SleeperInv(m', s)
            && (m.owner == None && Committed(m.sleepers[s]) ==> Committed(m'.sleepers[s]))
  {
    hide Compare, OnList;
  }

  lemma MasterShape(m: Sys, s: Sid, intr: bool)
    requires Guard(m, Move(s, intr)) && Quiet(m, s) && SleeperInv(m, s) && Master(m.sleepers[s].pc) && Clock(m.now)
    ensures var m' := Moved(m, s, intr);
            && |m'.sleepers| == |m.sleepers|
            && m' == m.(sleepers := m.sleepers[s := m'.sleepers[s]])
            && m'.sleepers[s].end == m.sleepers[s].end && m'.sleepers[s].pc != Done
            && SleeperInv(m', s)
            && m.owner != None
  {
    Listed(m.list, s);
    hide Compare, OnList, Clock, Expired;
  }

  lemma Listed(list: seq<Waiter>, s: Sid)
    ensures OnList(list, s) ==> list != []
  {
  }

  lemma TryStep(m: Sys, s: Sid, intr: bool)
    requires Guard(m, Move(s, intr)) && m.sleepers[s].pc == Try && m.owner == None && Inv(m)
    ensures Inv(Moved(m, s, intr))
  {
    var m' := Moved(m, s, intr);
    assert SleeperInv(m, s);
    UnfinishedUpdate(m.sleepers, s, m'.sleepers[s]);
    hide Unfinished, Sorted, DistinctSids, OnList;
    forall v | 0 <= v < |m'.sleepers| ensures SleeperInv(m', v) {
      if v != s { SleeperFrame(m, m', v); }
    }
    hide SleeperInv;
    forall i | 0 <= i < |m'.list| ensures WaiterInv(m', m'.list[i]) {
      assert WaiterInv(m, m.list[i]);
    }
  }

  lemma UnlockStep(m: Sys, s: Sid, intr: bool)
    requires Guard(m, Move(s, intr)) && m.sleepers[s].pc == Unlock && Inv(m)
    ensures Inv(Moved(m, s, intr))
  {
    var m' := Moved(m, s, intr);
    assert SleeperInv(m, s);
    UnfinishedUpdate(m.sleepers, s, m'.sleepers[s]);
    hide Unfinished, Sorted, DistinctSids, OnList;
    forall v | 0 <= v < |m'.sleepers| ensures SleeperInv(m', v) {
      if v != s { SleeperFrame(m, m', v); }
    }
    forall i | 0 <= i < |m'.list| ensures WaiterInv(m', m'.list[i]) {
      assert WaiterInv(m, m.list[i]);
    }
    assert Committed(m'.sleepers[s]);
  }

  // ---------------------------------------------------------------- steps on the list

  /** Who is on the list after an insertion. */
  lemma ListedInsert(list: seq<Waiter>, w: Waiter, v: Sid)
    requires Sorted(list) && forall i :: 0 <= i < |list| ==> list[i].stamp < w.stamp
    ensures OnList(Insert(list, w), v) <==> v == w.sid || OnList(list, v)
  {
    InsertSorted(list, w);
    var r := Insert(list, w);
    hide Insert;
    if OnList(r, v) {
      var i :| 0 <= i < |r| && r[i].sid == v;
      assert r[i] in r;
    }
    if v == w.sid {
      assert w in r;
    } else if OnList(list, v) {
      var i :| 0 <= i < |list| && list[i].sid == v;
      assert list[i] in r;
    }
  }

  lemma InsertDistinct(list: seq<Waiter>, w: Waiter)
    requires DistinctSids(list) && !OnList(list, w.sid)
    ensures DistinctSids(Insert(list, w))
  {
    var k, r := Place(list, w), Insert(list, w);
    forall i, j | 0 <= i < j < |r| ensures r[i].sid != r[j].sid {
      assert i != k ==> r[i] == list[if i < k then i else i - 1];
      assert j != k ==> r[j] == list[if j < k then j else j - 1];
    }
  }

  lemma EnlistStep(m: Sys, s: Sid, intr: bool)
    requires Guard(m, Move(s, intr)) && m.sleepers[s].pc == Enlist && Inv(m)
    ensures Inv(Moved(m, s, intr))
  {
    hide Insert, Unfinished, OnList, ListInv, SleeperInv;
    var m' := Moved(m, s, intr);
    NotYetListed(m, s);
    EnlistList(m, m', s, Waiter(s, m.sleepers[s].end, m.stamp));
    UnfinishedUpdate(m.sleepers, s, m'.sleepers[s]);
    OwnEnlist(m, m', s);
    forall v | 0 <= v < |m'.sleepers| ensures SleeperInv(m', v) {
      if v != s { SleeperFrame(m, m', v); }
    }
    assert Committed(m'.sleepers[s]);
  }

  lemma NotYetListed(m: Sys, s: Sid)
    requires s < |m.sleepers| && m.sleepers[s].pc == Enlist && SleeperInv(m, s)
    ensures !OnList(m.list, s)
  {
    hide OnList;
  }

  lemma OwnEnlist(m: Sys, m': Sys, s: Sid)
    requires s < |m.sleepers| && m.sleepers[s].pc == Enlist && SleeperInv(m, s) && s < |m'.sleepers|
    requires m'.sleepers[s] == m.sleepers[s].(pc := Prepare) && m'.now == m.now && m'.owner == m.owner && OnList(m'.list, s)
    ensures SleeperInv(m', s)
  {
    hide OnList;
  }

  lemma EnlistList(m: Sys, m': Sys, s: Sid, w: Waiter)
    requires s < |m.sleepers| && w == Waiter(s, m.sleepers[s].end, m.stamp) && !OnList(m.list, s)
    requires m'.list == Insert(m.list, w) && m'.stamp == m.stamp + 1 && |m'.sleepers| == |m.sleepers|
    requires forall v :: 0 <= v < |m.sleepers| ==> m'.sleepers[v].end == m.sleepers[v].end
    requires ListInv(m)
    ensures ListInv(m') && forall v :: OnList(m'.list, v) <==> v == s || OnList(m.list, v)
  {
    forall i | 0 <= i < |m.list| ensures m.list[i].stamp < w.stamp { assert WaiterInv(m, m.list[i]); }
    InsertSorted(m.list, w);
    InsertDistinct(m.list, w);
    forall v ensures OnList(m'.list, v) <==> v == s || OnList(m.list, v) { ListedInsert(m.list, w, v); }
    hide Insert;
    forall i | 0 <= i < |m'.list| ensures WaiterInv(m', m'.list[i]) {
      assert m'.list[i] in m'.list;
      if m'.list[i] != w {
        var j :| 0 <= j < |m.list| && m.list[j] == m'.list[i];
        assert WaiterInv(m, m.list[j]);
      }
    }
  }

  /** A wakeup changes no more than an event that waits. */
  lemma FireAt(q: seq<Sleeper>, woken: seq<Waiter>, v: Sid)
    requires v < |q|
    ensures Fire(q, woken)[v] == q[v] || (q[v].ev == Waiting && Fire(q, woken)[v] == q[v].(ev := Fired))
    ensures OnList(woken, v) ==> Fire(q, woken)[v].ev != Waiting
  {
  }

  lemma FireCount(q: seq<Sleeper>, woken: seq<Waiter>)
    ensures Unfinished(Fire(q, woken)) == Unfinished(q)
  {
    UnfinishedSame(q, Fire(q, woken));
  }

  /** The sleepers after a step of s that wakes others and may take them off the list. */
  lemma FiredSleepers(m: Sys, m': Sys, s: Sid, woken: seq<Waiter>, q: Sleeper)
    requires s < |m.sleepers| && m'.sleepers == Fire(m.sleepers, woken)[s := q] && m'.now == m.now && m'.owner == m.owner
    requires forall v :: 0 <= v < |m.sleepers| ==> SleeperInv(m, v)
    requires forall v :: OnList(m'.list, v) ==> OnList(m.list, v)
    requires forall v :: 0 <= v < |m.sleepers| && v != s && OnList(m.list, v) && !OnList(m'.list, v) ==> Reached(m, v) && m.owner != Some(v)
    requires SleeperInv(m', s)
    ensures forall v :: 0 <= v < |m'.sleepers| ==> SleeperInv(m', v)
  {
    hide Fire, OnList;
    forall v | 0 <= v < |m'.sleepers| ensures SleeperInv(m', v) {
      if v != s {
        FireAt(m.sleepers, woken, v);
        SleeperFrame(m, m', v);
      }
    }
  }

  lemma FiredCount(q: seq<Sleeper>, s: Sid, woken: seq<Waiter>, p: Sleeper)
    requires s < |q| && p.end == q[s].end && q[s].pc != Done
    ensures var r := Fire(q, woken)[s := p];
            && Unfinished(r) == Unfinished(q) - (if p.pc == Done then 1 else 0)
            && forall v :: 0 <= v < |q| ==> r[v].end == q[v].end
  {
    FireCount(q, woken);
    FireAt(q, woken, s);
    UnfinishedUpdate(Fire(q, woken), s, p);
    hide Unfinished;
  }

  /** Only those whose time has come leave the list in the wake loop. */
  lemma WakeStep(m: Sys, s: Sid)
    requires s < |m.sleepers| && m.sleepers[s].pc == Wake && Inv(m)
    ensures Inv(WokenUp(m, s))
  {
    var m' := WokenUp(m, s);
    var woken := m.list[..Due(m.list, m.now)];
    hide Fire, Unfinished, ListInv, OnList, Due, SomeCommitted, SleeperInv;
    OwnEvent(m, s);
    FireAt(m.sleepers, woken, s);
    FiredCount(m.sleepers, s, woken, m'.sleepers[s]);
    WakeList(m, m');
    OwnWake(m, m', s);
    FiredSleepers(m, m', s, woken, m'.sleepers[s]);
  }

  lemma OwnWake(m: Sys, m': Sys, s: Sid)
    requires s < |m.sleepers| && m.sleepers[s].pc == Wake && SleeperInv(m, s) && s < |m'.sleepers|
    requires m'.sleepers[s] == m.sleepers[s].(pc := MasterLook) && m'.now == m.now && m'.owner == m.owner
    requires OnList(m.list, s) && !OnList(m'.list, s) ==> Reached(m, s)
    ensures SleeperInv(m', s) && m.owner == Some(s)
  {
    hide OnList;
  }

  lemma WakeList(m: Sys, m': Sys)
    requires m'.list == m.list[Due(m.list, m.now)..] && m'.stamp == m.stamp && |m'.sleepers| == |m.sleepers|
    requires forall v :: 0 <= v < |m.sleepers| ==> m'.sleepers[v].end == m.sleepers[v].end
    requires ListInv(m)
    ensures ListInv(m') && forall v :: OnList(m'.list, v) ==> OnList(m.list, v)
    ensures forall v :: 0 <= v < |m.sleepers| && OnList(m.list, v) && !OnList(m'.list, v) ==> Reached(m, v)
  {
    var k := Due(m.list, m.now);
    DueSplits(m.list, m.now);
    assert forall i :: 0 <= i < |m'.list| ==> m'.list[i] == m.list[i + k];
    forall i | 0 <= i < |m'.list| ensures WaiterInv(m', m'.list[i]) { assert WaiterInv(m, m.list[i + k]); }
    forall i | k <= i < |m.list| ensures OnList(m'.list, m.list[i].sid) { assert m'.list[i - k] == m.list[i]; }
    forall v | 0 <= v < |m.sleepers| && OnList(m.list, v) && !OnList(m'.list, v) ensures Reached(m, v) {
      var i :| 0 <= i < |m.list| && m.list[i].sid == v;
      assert WaiterInv(m, m.list[i]);
    }
  }

  lemma LeaveList(m: Sys, m': Sys, s: Sid)
    requires m'.list == WithoutSid(m.list, s) && m'.stamp == m.stamp && |m'.sleepers| == |m.sleepers|
    requires forall v :: 0 <= v < |m.sleepers| ==> m'.sleepers[v].end == m.sleepers[v].end
    requires ListInv(m)
    ensures ListInv(m') && forall v :: OnList(m'.list, v) <==> v != s && OnList(m.list, v)
  {
    WithoutKeeps(m.list, s);
    forall v ensures OnList(m'.list, v) <==> v != s && OnList(m.list, v) {
      if OnList(m'.list, v) {
        var i :| 0 <= i < |m'.list| && m'.list[i].sid == v;
        assert m'.list[i] in m'.list;
      }
      if v != s && OnList(m.list, v) {
        var i :| 0 <= i < |m.list| && m.list[i].sid == v;
        assert m.list[i] in m'.list;
      }
    }
    forall i | 0 <= i < |m'.list| ensures WaiterInv(m', m'.list[i]) {
      assert m'.list[i] in m.list;
      var j :| 0 <= j < |m.list| && m.list[j] == m'.list[i];
      assert WaiterInv(m, m.list[j]);
    }
  }

  /** Whoever leaves wakes the head, which then is bound to try for mastership. */
  lemma LeaveStep(m: Sys, s: Sid)
    requires s < |m.sleepers| && m.sleepers[s].pc == Leave && Inv(m)
    ensures Inv(Left(m, s))
  {
    var m' := Left(m, s);
    var list := WithoutSid(m.list, s);
    var woken := if list == [] then [] else [list[0]];
    hide Fire, Unfinished, ListInv, OnList, WithoutSid, SomeCommitted, SleeperInv;
    OwnEvent(m, s);
    FireAt(m.sleepers, woken, s);
    FiredCount(m.sleepers, s, woken, m'.sleepers[s]);
    LeaveList(m, m', s);
    OwnLeave(m, m', s);
    if list != [] && m.owner == None {
      HeadCommitted(m, m', s);
    }
    FiredSleepers(m, m', s, woken, m'.sleepers[s]);
  }

  lemma OwnEvent(m: Sys, s: Sid)
    requires s < |m.sleepers| && SleeperInv(m, s) && !Prepared(m.sleepers[s].pc)
    ensures m.sleepers[s].ev == Off
  {
    hide OnList;
  }

  lemma OwnLeave(m: Sys, m': Sys, s: Sid)
    requires s < |m.sleepers| && m.sleepers[s].pc == Leave && SleeperInv(m, s) && s < |m'.sleepers|
    requires m'.sleepers[s] == m.sleepers[s].(pc := Done) && m'.now == m.now && m'.owner == m.owner && !OnList(m'.list, s)
    ensures SleeperInv(m', s)
  {
    hide OnList;
  }

  lemma HeadCommitted(m: Sys, m': Sys, s: Sid)
    requires m'.list != [] && m.owner == None && s < |m.sleepers| && s < |m'.sleepers|
    requires m'.sleepers == Fire(m.sleepers, [m'.list[0]])[s := m'.sleepers[s]]
    requires forall v :: 0 <= v < |m.sleepers| ==> SleeperInv(m, v)
    requires ListInv(m') && forall v :: OnList(m'.list, v) <==> v != s && OnList(m.list, v)
    ensures SomeCommitted(m')
  {
    var h := m'.list[0].sid;
    assert WaiterInv(m', m'.list[0]) && OnList(m'.list, h);
    assert SleeperInv(m, h);
    assert OnList([m'.list[0]], h) by { assert [m'.list[0]][0].sid == h; }
    FireAt(m.sleepers, [m'.list[0]], h);
    assert Committed(m'.sleepers[h]);
  }

  // ---------------------------------------------------------------- every step, every run

  lemma TickStep(m: Sys, t: Time)
    requires Guard(m, Tick(t)) && Inv(m)
    ensures Inv(Apply(m, Tick(t)))
  {
    var m' := Apply(m, Tick(t));
    forall v | 0 <= v < |m'.sleepers| ensures SleeperInv(m', v) {
      assert SleeperInv(m, v);
      if Reached(m, v) { LaterReached(m.now, t, m.sleepers[v].end); }
    }
    forall i | 0 <= i < |m'.list| ensures WaiterInv(m', m'.list[i]) { assert WaiterInv(m, m.list[i]); }
  }

  lemma CallStep(m: Sys, sec: int, nsec: int)
    requires Inv(m)
    ensures Inv(Apply(m, Call(sec, nsec)))
  {
    var m' := Apply(m, Call(sec, nsec));
    var n := |m.sleepers|;
    assert m'.sleepers[..n] == m.sleepers;
    forall i | 0 <= i < |m'.list| ensures WaiterInv(m', m'.list[i]) && m'.list[i].sid != n { assert WaiterInv(m, m.list[i]); }
    forall v | 0 <= v < |m'.sleepers| ensures SleeperInv(m', v) {
      if v < n { SleeperFrame(m, m', v); }
    }
    if m'.list != [] && m'.owner == None {
      var v :| 0 <= v < n && Committed(m.sleepers[v]);
      assert Committed(m'.sleepers[v]);
    }
  }

  lemma StepKeeps(m: Sys, step: Step)
    requires Guard(m, step) && Inv(m)
    ensures Inv(Apply(m, step))
  {
    hide Inv, WokenUp, Left;
    match step
    case Tick(t) => TickStep(m, t);
    case Call(sec, nsec) => CallStep(m, sec, nsec);
    case Move(s, intr) =>
      if Quiet(m, s) { QuietStep(m, s, intr); }
      else if m.sleepers[s].pc == Enlist { EnlistStep(m, s, intr); }
      else if m.sleepers[s].pc == Wake { WakeStep(m, s); }
      else if m.sleepers[s].pc == Unlock { UnlockStep(m, s, intr); }
      else if m.sleepers[s].pc == Leave { LeaveStep(m, s); }
      else { TryStep(m, s, intr); }
  }

  lemma {:induction false} Reachable(ms: seq<Sys>, steps: seq<Step>, i: nat)
    requires Run(ms, steps) && i < |ms|
    ensures Inv(ms[i])
  {
    if i > 0 {
      Reachable(ms, steps, i - 1);
      hide Inv;
      StepKeeps(ms[i - 1], steps[i - 1]);
    }
  }

  // ---------------------------------------------------------------- what tc_sleep promises

  /** RV_OK only once the clock has reached abs_end, for any arguments; the waiter, which lives
      on the stack, is off the list on return. */
  lemma NoEarlyReturn(ms: seq<Sys>, steps: seq<Step>, i: nat, s: Sid)
    requires Run(ms, steps) && i < |ms| && s < |ms[i].sleepers| && ms[i].sleepers[s].pc == Done
    ensures ms[i].sleepers[s].ok ==> Total(ms[i].sleepers[s].end) <= Total(ms[i].now)
    ensures forall w :: w in ms[i].list ==> w.sid != s
  {
    Reachable(ms, steps, i);
    assert SleeperInv(ms[i], s);
    if ms[i].sleepers[s].ok {
      ReachedInTime(ms[i].now, ms[i].sleepers[s].end);
    }
  }

  /** How a step of call s changes what it will return. */
  lemma ReturnStep(m: Sys, step: Step, s: Sid)
    requires Guard(m, step) && s < |m.sleepers| && SleeperInv(m, s)
    ensures s < |Apply(m, step).sleepers|
    ensures var p, p' := m.sleepers[s], Apply(m, step).sleepers[s];
            && p'.end == p.end
            && (p.ok && !p'.ok <==> Interrupts(m, step, s) && p.ok)
            && (!p.ok ==> !p'.ok)
            && (p'.pc == Finish && p'.ev == Waiting && p.pc != Finish ==> step == Move(s, true) && p.pc == Parked)
            && (p.pc == Finish && p'.pc == Finish && p'.ev == Waiting ==> p.ev == Waiting)
            && (p.ev != Fired && p'.ev == Fired ==>
                  step.Move? && step.s != s && (m.sleepers[step.s].pc == Wake || m.sleepers[step.s].pc == Leave))
            && (p.ev == Off && p'.ev == Waiting ==> step.Move? && step.s == s && p.pc == Prepare)
  {
    if step.Move? && step.s == s {
      OwnReturn(m, s, step.intr);
      hide Moved;
    } else {
      Bystander(m, step, s);
      hide Apply;
    }
  }

  /** Another's step does no more to a call than wake its event. */
  lemma Bystander(m: Sys, step: Step, s: Sid)
    requires Guard(m, step) && s < |m.sleepers| && !(step.Move? && step.s == s)
    ensures s < |Apply(m, step).sleepers|
    ensures var p, p' := m.sleepers[s], Apply(m, step).sleepers[s];
            && (p' == p || (p.ev == Waiting && p' == p.(ev := Fired)))
            && (p' != p ==> step.Move? && (m.sleepers[step.s].pc == Wake || m.sleepers[step.s].pc == Leave))
  {
    hide Compare, Insert, OnList, Due, WithoutSid, Deadline, Fire, Expired;
    if step.Move? {
      var list := WithoutSid(m.list, step.s);
      FireAt(m.sleepers, m.list[..Due(m.list, m.now)], s);
      FireAt(m.sleepers, if list == [] then [] else [list[0]], s);
    }
  }

  lemma OwnReturn(m: Sys, s: Sid, intr: bool)
    requires Guard(m, Move(s, intr)) && SleeperInv(m, s)
    ensures s < |Moved(m, s, intr).sleepers|
    ensures var p, p' := m.sleepers[s], Moved(m, s, intr).sleepers[s];
            && p'.end == p.end
            && (p.ok && !p'.ok <==> Interrupts(m, Move(s, intr), s) && p.ok)
            && (!p.ok ==> !p'.ok)
            && (p'.pc == Finish && p'.ev == Waiting && p.pc != Finish ==> intr && p.pc == Parked)
            && (p.pc == Finish && p'.pc == Finish && p'.ev == Waiting ==> p.ev == Waiting)
            && (p.ev != Fired ==> p'.ev != Fired)
            && (p.ev == Off && p'.ev == Waiting ==> p.pc == Prepare)
  {
    hide Compare, Insert, OnList, Expired, WokenUp, Left;
    OwnFire(m, s);
  }

  lemma OwnFire(m: Sys, s: Sid)
    requires s < |m.sleepers|
    ensures m.sleepers[s].ev == Off ==> WokenUp(m, s).sleepers[s].ev == Off && Left(m, s).sleepers[s].ev == Off
    ensures |WokenUp(m, s).sleepers| == |Left(m, s).sleepers| == |m.sleepers|
    ensures var p, p1, p2 := m.sleepers[s], WokenUp(m, s).sleepers[s], Left(m, s).sleepers[s];
            p1.end == p2.end == p.end && p1.ok == p2.ok == p.ok && p1.pc == MasterLook && p2.pc == Done
  {
    hide Due, WithoutSid, Fire;
    var list := WithoutSid(m.list, s);
    FireAt(m.sleepers, m.list[..Due(m.list, m.now)], s);
    FireAt(m.sleepers, if list == [] then [] else [list[0]], s);
  }

  /** A step that ends call s with RV_INTR: a signal during the yield or during the master's wait for the
      timer, or the finish of a wait whose event nobody has woken. */
  predicate Interrupts(m: Sys, step: Step, s: Sid) {
    && step.Move? && step.s == s && s < |m.sleepers|
    && var p := m.sleepers[s];
       (p.pc == Yield && step.intr) || (p.pc == WaitFd && step.intr) || (p.pc == Finish && p.ev != Fired)
  }

  lemma InOrder(ms: seq<Sys>, steps: seq<Step>, i: nat, s: Sid)
    requires Run(ms, steps) && i < |ms| && s < |ms[i].sleepers|
    ensures SleeperInv(ms[i], s)
  {
    Reachable(ms, steps, i);
    hide SleeperInv;
  }

  lemma {:induction false} KeepsExisting(ms: seq<Sys>, steps: seq<Step>, h: nat, i: nat, s: Sid)
    requires Run(ms, steps) && h <= i < |ms| && s < |ms[h].sleepers|
    ensures s < |ms[i].sleepers| && ms[i].sleepers[s].end == ms[h].sleepers[s].end
    decreases i
  {
    hide SleeperInv, Apply, Guard;
    if h < i {
      KeepsExisting(ms, steps, h, i - 1, s);
      InOrder(ms, steps, i - 1, s);
      ReturnStep(ms[i - 1], steps[i - 1], s);
    }
  }

  /** A wait that was resumed without its event having been woken was resumed by a signal. */
  lemma {:induction false} ResumedBySignal(ms: seq<Sys>, steps: seq<Step>, i: nat, s: Sid) returns (h: nat)
    requires Run(ms, steps) && i < |ms| && s < |ms[i].sleepers| && ms[i].sleepers[s].pc == Finish && ms[i].sleepers[s].ev == Waiting
    ensures h < i && steps[h] == Move(s, true) && s < |ms[h].sleepers| && ms[h].sleepers[s].pc == Parked
    ensures forall k :: h < k <= i ==> s < |ms[k].sleepers| && ms[k].sleepers[s].pc == Finish && ms[k].sleepers[s].ev == Waiting
  {
    hide SleeperInv, Apply, Guard;
    WasThere(ms, steps, i, s);
    InOrder(ms, steps, i - 1, s);
    ReturnStep(ms[i - 1], steps[i - 1], s);
    if ms[i - 1].sleepers[s].pc == Finish {
      h := ResumedBySignal(ms, steps, i - 1, s);
    } else {
      h := i - 1;
    }
  }

  /** A call past its first state was there one step earlier. */
  lemma WasThere(ms: seq<Sys>, steps: seq<Step>, i: nat, s: Sid)
    requires Run(ms, steps) && i < |ms| && s < |ms[i].sleepers|
    ensures i > 0
    ensures s < |ms[i - 1].sleepers| || (steps[i - 1].Call? && s == |ms[i - 1].sleepers| && ms[i].sleepers[s].pc == Yield && ms[i].sleepers[s].ok)
  {
    if i > 0 { assert |Apply(ms[i - 1], steps[i - 1]).sleepers| >= |ms[i - 1].sleepers|; }
  }

  /** tc_sleep returns RV_INTR exactly if a step has interrupted it. */
  lemma {:induction false} InterruptedIff(ms: seq<Sys>, steps: seq<Step>, i: nat, s: Sid)
    requires Run(ms, steps) && i < |ms| && s < |ms[i].sleepers|
    ensures !ms[i].sleepers[s].ok <==> exists h :: 0 <= h < i && Interrupts(ms[h], steps[h], s)
    decreases i
  {
    hide SleeperInv, Apply, Guard, Interrupts;
    WasThere(ms, steps, i, s);
    if s < |ms[i - 1].sleepers| {
      InterruptedIff(ms, steps, i - 1, s);
      InOrder(ms, steps, i - 1, s);
      ReturnStep(ms[i - 1], steps[i - 1], s);
      if !ms[i].sleepers[s].ok && ms[i - 1].sleepers[s].ok { assert Interrupts(ms[i - 1], steps[i - 1], s); }
    } else {
      forall h | 0 <= h < i ensures !Interrupts(ms[h], steps[h], s) {
        if s < |ms[h].sleepers| { KeepsExisting(ms, steps, h, i - 1, s); }
        NobodyInterrupts(ms[h], steps[h], s);
      }
    }
  }

  lemma NobodyInterrupts(m: Sys, step: Step, s: Sid)
    ensures s >= |m.sleepers| ==> !Interrupts(m, step, s)
  {
  }

  /** A call that is never interrupted by a signal returns RV_OK. */
  lemma UninterruptedIsOk(ms: seq<Sys>, steps: seq<Step>, i: nat, s: Sid)
    requires Run(ms, steps) && i < |ms| && s < |ms[i].sleepers|
    requires forall h :: 0 <= h < i && steps[h] == Move(s, true) && s < |ms[h].sleepers| ==>
               var pc := ms[h].sleepers[s].pc; pc != Yield && pc != Parked && pc != WaitFd
    ensures ms[i].sleepers[s].ok
  {
    InterruptedIff(ms, steps, i, s);
    forall h | 0 <= h < i ensures !Interrupts(ms[h], steps[h], s) {
      if Interrupts(ms[h], steps[h], s) && ms[h].sleepers[s].pc == Finish {
        Reachable(ms, steps, h);
        assert SleeperInv(ms[h], s);
        var g := ResumedBySignal(ms, steps, h, s);
      }
    }
  }

  /** From the call on, abs_end is the clock reading plus what was asked for; so RV_OK comes only when
      that much time has gone by. */
  lemma SleepsLongEnough(ms: seq<Sys>, steps: seq<Step>, h: nat, i: nat, s: Sid)
    requires Run(ms, steps) && h < i < |ms| && steps[h].Call? && s == |ms[h].sleepers|
    ensures s < |ms[i].sleepers|
    ensures Total(ms[i].sleepers[s].end) == Total(ms[h].now) + steps[h].sec * SECOND + steps[h].nsec
    ensures ms[i].sleepers[s].pc == Done && ms[i].sleepers[s].ok ==>
              Total(ms[h].now) + steps[h].sec * SECOND + steps[h].nsec <= Total(ms[i].now)
  {
    assert ms[h + 1] == Apply(ms[h], steps[h]);
    KeepsExisting(ms, steps, h + 1, i, s);
    var t := Time(ms[h].now.sec + steps[h].sec, ms[h].now.nsec + steps[h].nsec);
    assert Total(t) == Total(ms[h].now) + steps[h].sec * SECOND + steps[h].nsec;
    assert ms[h + 1].sleepers[s].end == Deadline(t);
    hide Deadline, Apply;
    if ms[i].sleepers[s].pc == Done { NoEarlyReturn(ms, steps, i, s); }
  }

  /** waiting_done: a sleeper is done exactly when it is off the list or its time has come, and the master
      then lets go; if not, a sleeper tries for the mutex and the master looks at the head of the list. */
  lemma DoneExactly(ms: seq<Sys>, steps: seq<Step>, i: nat, s: Sid, intr: bool)
    requires Run(ms, steps) && i < |ms| && Guard(ms[i], Move(s, intr))
    ensures var m, p := ms[i], ms[i].sleepers[s];
            var p' := Moved(m, s, intr).sleepers[s];
            var listed := exists w :: w in m.list && w.sid == s;
            && (p.pc == Look ==> p'.pc == if listed then Gauge else LeaveDone)
            && (p.pc == Gauge ==> p'.pc == if Come(m.now, p.end) then LeaveDone else Try)
            && (p.pc == LeaveDone ==> p'.pc == Leave)
            && (p.pc == MasterLook ==> p'.pc == if listed then MasterGauge else Unlock)
            && (p.pc == MasterGauge ==> p'.pc == (if Come(m.now, p.end) then Unlock else Program) && p'.ts == m.now)
  {
    Reachable(ms, steps, i);
    var m := ms[i];
    assert SleeperInv(m, s);
    CompareClock(m.now, m.sleepers[s].end);
    assert OnList(m.list, s) <==> exists w :: w in m.list && w.sid == s by {
      if w :| w in m.list && w.sid == s {
        var k :| 0 <= k < |m.list| && m.list[k] == w;
      }
      if OnList(m.list, s) {
        var k :| 0 <= k < |m.list| && m.list[k].sid == s;
        assert m.list[k] in m.list;
      }
    }
    hide OnList, Inv, Come, Run, Insert, WokenUp, Left, Expired, Compare;
  }

  /** The master goes to sleep on the timer exactly when the head of the list is due later than the clock
      reading it has just taken. */
  lemma MasterWaits(ms: seq<Sys>, steps: seq<Step>, i: nat, s: Sid, intr: bool)
    requires Run(ms, steps) && i < |ms| && Guard(ms[i], Move(s, intr)) && ms[i].sleepers[s].pc == Program
    ensures ms[i].list != []
    ensures var p' := Moved(ms[i], s, intr).sleepers[s];
            if Total(ms[i].list[0].end) > Total(ms[i].sleepers[s].ts) then p'.pc == WaitFd else p'.pc == Wake
  {
    Reachable(ms, steps, i);
    var m := ms[i];
    assert SleeperInv(m, s);
    Listed(m.list, s);
    assert WaiterInv(m, m.list[0]) && SleeperInv(m, m.list[0].sid);
    ExpiredExact(m.list[0].end, m.sleepers[s].ts);
    hide Expired, Total;
  }

  lemma ExpiredExact(end: Time, now: Time)
    requires Clock(now) && end.nsec <= SECOND
    ensures Expired(end, now) <==> Total(end) <= Total(now)
  {
    if end.sec < now.sec {
      WholeSeconds(end.sec, now.sec);
    } else if end.sec > now.sec {
      WholeSeconds(now.sec, end.sec);
    }
  }

  /** A list that is not empty has a master, or somebody bound to become one or to wake the head. */
  lemma NoStrandedSleepers(ms: seq<Sys>, steps: seq<Step>, i: nat)
    requires Run(ms, steps) && i < |ms| && ms[i].list != [] && ms[i].owner == None
    ensures exists s :: 0 <= s < |ms[i].sleepers| && Committed(ms[i].sleepers[s])
  {
    Reachable(ms, steps, i);
  }

  /** How far a committed sleeper is from trylock or from waking the head. */
  function Distance(p: Sleeper): nat {
    match p.pc
    case Park => 8 case Parked => 7 case Finish => 6 case Prepare => 5 case Look => 4
    case Gauge => 3 case Try => 2 case LeaveDone => 2 case Leave => 1
    case _ => 0
  }

  /** While the mutex is free a committed sleeper can always move; each move takes the mutex,
      or wakes the head of the list, or brings it closer. */
  lemma CommittedMoves(m: Sys, s: Sid, intr: bool)
    requires s < |m.sleepers| && Committed(m.sleepers[s]) && m.owner == None
    ensures Guard(m, Move(s, intr))
    ensures var m' := Moved(m, s, intr);
            && |m'.sleepers| == |m.sleepers|
            && (|| m'.owner == Some(s)
                || (m.sleepers[s].pc == Leave && m'.sleepers[s].pc == Done)
                || (m'.owner == None && Committed(m'.sleepers[s]) && Distance(m'.sleepers[s]) < Distance(m.sleepers[s])))
  {
  }

  /** Left to itself it has the mutex, or has woken the head, after eight moves at most. */
  lemma {:induction false} CommittedArrives(m: Sys, s: Sid) returns (ms: seq<Sys>)
    requires s < |m.sleepers| && Committed(m.sleepers[s]) && m.owner == None
    ensures 1 < |ms| <= Distance(m.sleepers[s]) + 1 <= 9 && ms[0] == m
    ensures forall i :: 0 <= i < |ms| - 1 ==> Guard(ms[i], Move(s, false)) && ms[i + 1] == Moved(ms[i], s, false)
    ensures var m' := ms[|ms| - 1]; m'.owner == Some(s) || (s < |m'.sleepers| && m'.sleepers[s].pc == Done)
    decreases Distance(m.sleepers[s])
  {
    CommittedMoves(m, s, false);
    var m' := Moved(m, s, false);
    hide Moved, Guard;
    if m'.owner == Some(s) || m'.sleepers[s].pc == Done {
      ms := [m, m'];
    } else {
      var rest := CommittedArrives(m', s);
      ms := [m] + rest;
    }
  }

  /** One master at most; the list in order of abs_end and, for the same abs_end, of insertion;
      the head is there when the master looks at it; timer_sleepers counts the calls under way. */
  lemma TimerListGood(ms: seq<Sys>, steps: seq<Step>, i: nat)
    requires Run(ms, steps) && i < |ms|
    ensures Sorted(ms[i].list) && !ms[i].fault && ms[i].count == Unfinished(ms[i].sleepers)
    ensures forall s :: 0 <= s < |ms[i].sleepers| ==> (Master(ms[i].sleepers[s].pc) <==> ms[i].owner == Some(s))
    ensures forall s :: 0 <= s < |ms[i].sleepers| && ms[i].sleepers[s].pc == Program ==> ms[i].list != []
  {
    Reachable(ms, steps, i);
    var m := ms[i];
    forall s | 0 <= s < |m.sleepers|
      ensures (Master(m.sleepers[s].pc) <==> m.owner == Some(s)) && (m.sleepers[s].pc == Program ==> m.list != [])
    {
      assert SleeperInv(m, s);
    }
  }

  /** The wake loop of a reachable master takes off exactly the waiters whose time has come
      and leaves none of their events waiting. */
  lemma WakeLoopExact(ms: seq<Sys>, steps: seq<Step>, i: nat, s: Sid, intr: bool, j: nat)
    requires Run(ms, steps) && i < |ms| && Guard(ms[i], Move(s, intr)) && ms[i].sleepers[s].pc == Wake
    requires j < |ms[i].list|
    ensures var w, m' := ms[i].list[j], Moved(ms[i], s, intr);
            && (w !in m'.list <==> Come(ms[i].now, w.end))
            && w.sid < |m'.sleepers|
            && (w !in m'.list ==> m'.sleepers[w.sid].ev != Waiting)
            && (w in m'.list && w.sid != s ==> m'.sleepers[w.sid] == ms[i].sleepers[w.sid])
  {
    Reachable(ms, steps, i);
    assert SleeperInv(ms[i], s) && WaiterInv(ms[i], ms[i].list[j]);
    assert SleeperInv(ms[i], ms[i].list[j].sid);
    WokenExactly(ms[i], s, j);
  }

  lemma WokenExactly(m: Sys, s: Sid, j: nat)
    requires Clock(m.now) && ListInv(m) && s < |m.sleepers| && j < |m.list| && m.list[j].end.nsec <= SECOND
    requires m.sleepers[s].ev == Off
    ensures var w, m' := m.list[j], WokenUp(m, s);
            && (w !in m'.list <==> Come(m.now, w.end))
            && w.sid < |m'.sleepers|
            && (w !in m'.list ==> m'.sleepers[w.sid].ev != Waiting)
            && (w in m'.list && w.sid != s ==> m'.sleepers[w.sid] == m.sleepers[w.sid])
  {
    var k := Due(m.list, m.now);
    DueExact(m.list, m.now, j);
    assert WaiterInv(m, m.list[j]);
    hide Due, Fire, Come;
    if j >= k {
      assert m.list[k..][j - k] == m.list[j];
      forall i | 0 <= i < k ensures m.list[..k][i].sid != m.list[j].sid { assert m.list[..k][i] == m.list[i]; }
      NotFired(m.sleepers, m.list[..k], m.list[j].sid);
    } else {
      assert m.list[..k][j].sid == m.list[j].sid;
      FireAt(m.sleepers, m.list[..k], m.list[j].sid);
      FireAt(m.sleepers, m.list[..k], s);
      NotBehind(m.list, j, k);
    }
  }

  lemma NotFired(q: seq<Sleeper>, woken: seq<Waiter>, v: Sid)
    requires v < |q| && forall i :: 0 <= i < |woken| ==> woken[i].sid != v
    ensures Fire(q, woken)[v] == q[v]
  {
  }

  lemma NotBehind(list: seq<Waiter>, j: nat, k: nat)
    requires DistinctSids(list) && j < k <= |list|
    ensures list[j] !in list[k..]
  {
    forall q | 0 <= q < |list[k..]| ensures list[k..][q] != list[j] {
      assert list[k..][q] == list[q + k];
    }
  }
}

/**
  wakeup_all_events (threaded_cr.c): an fd with an error condition wakes all its waiters. One of them,
  on this worker if there is one, is handed to run_or_queue; the others go to immediate.
 */
module FdEvents {
  import opened Common
  import opened Events
  import opened Runtime

  /** The waiter's thread belongs to worker nr. */
  predicate Near(s: State, e: Eid, nr: int) {
    e in s.board.events && s.board.events[e].tc in s.threads && s.threads[s.board.events[e].tc].workerNr == nr
  }

  /** move_to_immediate */
  function ToImmediate(s: State, e: Eid): State {
    if Listed(s.board, e) && s.board.events[e].el != Some(Immediate)
    then s.(board := Relocate(s.board, e, Immediate, false)) else s
  }

  /** The loop over the waiters; ew: the first near one, ex: the first one other than that. */
  function Loop(s: State, todo: seq<Eid>, nr: int, ew: Option<Eid>, ex: Option<Eid>): (State, Option<Eid>)
    decreases |todo|
  {
    if todo == [] then
      if ew.Some? && ex.Some? then (ToImmediate(s, ex.value), ew) else (s, if ew.Some? then ew else ex)
    else if ew.None? && Near(s, todo[0], nr) then Loop(s, todo[1..], nr, Some(todo[0]), ex)
    else if ex.None? then Loop(s, todo[1..], nr, ew, Some(todo[0]))
    else Loop(ToImmediate(s, todo[0]), todo[1..], nr, ew, ex)
  }

  function WakeFd(s: State, f: nat, nr: int): (State, Option<Eid>) {
    Loop(s, At(s.board, Fd(f)), nr, None, None)
  }

  // ---------------------------------------------------------------- what it does

  /** The worker the thread of an event belongs to, if the thread is there. */
  function WorkerOf(s: State, e: Eid): Option<int> {
    if e in s.board.events && s.board.events[e].tc in s.threads
    then Some(s.threads[s.board.events[e].tc].workerNr) else None
  }

  /** Where the waiter that is handed over stands: the first one of worker nr, or the first of all. */
  predicate Chosen(s: State, q: seq<Eid>, nr: int, c: int) {
    && 0 <= c < |q|
    && (if exists i :: 0 <= i < |q| && WorkerOf(s, q[i]) == Some(nr)
        then WorkerOf(s, q[c]) == Some(nr) && forall i :: 0 <= i < c ==> WorkerOf(s, q[i]) != Some(nr)
        else c == 0)
  }

  /** x has gone to immediate, if gone, and is as it was otherwise. */
  ghost predicate Went(s: State, s': State, x: Eid, gone: bool)
    requires x in s.board.events
  {
    && s'.threads == s.threads && s'.owner == s.owner && x in s'.board.events
    && s'.board.events[x] == if gone then s.board.events[x].(el := Some(Immediate)) else s.board.events[x]
  }

  predicate OnFd(s: State, e: Eid) {
    Listed(s.board, e) && s.board.events[e].el.value.Fd?
  }

  lemma OneMoved(s: State, e: Eid, x: Eid)
    requires Inv(s) && OnFd(s, e) && x in s.board.events
    ensures Inv(ToImmediate(s, e)) && Went(s, ToImmediate(s, e), x, x == e)
    ensures At(ToImmediate(s, e).board, Immediate) == At(s.board, Immediate) + [e]
  {
    ToImmediateKeeps(s, e, false);
    hide Inv, Without;
  }

  /** What goes to immediate, in this order. */
  function Order(s: State, todo: seq<Eid>, nr: int, ew: Option<Eid>, ex: Option<Eid>): seq<Eid>
    decreases |todo|
  {
    if todo == [] then (if ew.Some? && ex.Some? then [ex.value] else [])
    else if ew.None? && Near(s, todo[0], nr) then Order(s, todo[1..], nr, Some(todo[0]), ex)
    else if ex.None? then Order(s, todo[1..], nr, ew, Some(todo[0]))
    else [todo[0]] + Order(s, todo[1..], nr, ew, ex)
  }

  /** The loop has still to deal with x. */
  predicate Left(todo: seq<Eid>, ew: Option<Eid>, ex: Option<Eid>, x: Eid) {
    x in todo || ew == Some(x) || ex == Some(x)
  }

  ghost predicate LoopInv(s: State, todo: seq<Eid>, ew: Option<Eid>, ex: Option<Eid>) {
    && Inv(s) && Distinct(todo) && (forall x :: Left(todo, ew, ex, x) ==> OnFd(s, x))
    && (ew.Some? ==> ew.value !in todo && ew != ex) && (ex.Some? ==> ex.value !in todo)
  }

  /** The order looks at threads only, which a move leaves alone. */
  lemma {:induction false} OrderSame(s: State, s': State, todo: seq<Eid>, nr: int, ew: Option<Eid>, ex: Option<Eid>)
    requires forall i :: 0 <= i < |todo| ==> (Near(s', todo[i], nr) <==> Near(s, todo[i], nr))
    ensures Order(s', todo, nr, ew, ex) == Order(s, todo, nr, ew, ex)
    decreases |todo|
  {
    if todo != [] {
      assert forall i :: 0 <= i < |todo| - 1 ==> todo[1..][i] == todo[i + 1];
      if ew.None? && Near(s, todo[0], nr) {
        OrderSame(s, s', todo[1..], nr, Some(todo[0]), ex);
      } else if ex.None? {
        OrderSame(s, s', todo[1..], nr, ew, Some(todo[0]));
      } else {
        OrderSame(s, s', todo[1..], nr, ew, ex);
      }
    }
  }

  lemma LeftSplits(todo: seq<Eid>, ew: Option<Eid>, ex: Option<Eid>, x: Eid)
    requires todo != []
    ensures Left(todo, ew, ex, x) <==> x == todo[0] || Left(todo[1..], ew, ex, x)
    ensures ew.None? ==> (Left(todo, ew, ex, x) <==> Left(todo[1..], Some(todo[0]), ex, x))
    ensures ex.None? ==> (Left(todo, ew, ex, x) <==> Left(todo[1..], ew, Some(todo[0]), x))
  {
    assert todo == [todo[0]] + todo[1..];
  }

  lemma Step(s: State, todo: seq<Eid>, ew: Option<Eid>, ex: Option<Eid>)
    requires LoopInv(s, todo, ew, ex) && todo != []
    ensures ew.None? ==> LoopInv(s, todo[1..], Some(todo[0]), ex)
    ensures ex.None? ==> LoopInv(s, todo[1..], ew, Some(todo[0]))
    ensures ex.Some? ==> LoopInv(ToImmediate(s, todo[0]), todo[1..], ew, ex)
  {
    hide Inv, Left, ToImmediate;
    var e, rest := todo[0], todo[1..];
    assert todo == [e] + rest && e !in rest && Distinct(rest);
    LeftSplits(todo, ew, ex, e);
    forall x ensures Left(rest, ew, ex, x) ==> OnFd(s, x) { LeftSplits(todo, ew, ex, x); }
    if ew.None? { forall x | Left(rest, Some(e), ex, x) ensures OnFd(s, x) { LeftSplits(todo, ew, ex, x); } }
    if ex.None? { forall x | Left(rest, ew, Some(e), x) ensures OnFd(s, x) { LeftSplits(todo, ew, ex, x); } }
    OneMoved(s, e, e);
    if ex.Some? {
      KeptApart(todo, ew, ex);
      forall x | Left(rest, ew, ex, x) ensures OnFd(ToImmediate(s, e), x) { OneMoved(s, e, x); }
    }
  }

  lemma KeptApart(todo: seq<Eid>, ew: Option<Eid>, ex: Option<Eid>)
    requires todo != [] && Distinct(todo) && (ew.Some? ==> ew.value !in todo) && (ex.Some? ==> ex.value !in todo)
    ensures !Left(todo[1..], ew, ex, todo[0])
  {
    assert todo == [todo[0]] + todo[1..];
  }

  /** Of the waiters all but one move, in order, to the tail of immediate; that one is returned. */
  lemma {:induction false} LoopMoves(s: State, todo: seq<Eid>, nr: int, ew: Option<Eid>, ex: Option<Eid>, x: Eid)
    requires LoopInv(s, todo, ew, ex) && x in s.board.events
    ensures var (s', r) := Loop(s, todo, nr, ew, ex);
            && Inv(s') && Went(s, s', x, Left(todo, ew, ex, x) && r != Some(x))
            && At(s'.board, Immediate) == At(s.board, Immediate) + Order(s, todo, nr, ew, ex)
    decreases |todo|
  {
    hide LoopInv, Inv, ToImmediate, Went, Near, Left, At;
    if todo == [] {
      LoopEnds(s, todo, nr, ew, ex, x);
    } else {
      Step(s, todo, ew, ex);
      var e, rest := todo[0], todo[1..];
      LeftSplits(todo, ew, ex, x);
      if ew.None? && Near(s, e, nr) {
        LoopMoves(s, rest, nr, Some(e), ex, x);
      } else if ex.None? {
        LoopMoves(s, rest, nr, ew, Some(e), x);
      } else {
        MoveOn(s, todo, nr, ew, ex, x);
        LoopMoves(ToImmediate(s, e), rest, nr, ew, ex, x);
        BothMoves(s, ToImmediate(s, e), Loop(s, todo, nr, ew, ex).0, x, x == e, Left(rest, ew, ex, x) && Loop(s, todo, nr, ew, ex).1 != Some(x));
        Appended(At(s.board, Immediate), e, Order(s, rest, nr, ew, ex));
      }
    }
  }

  lemma Appended(a: seq<Eid>, e: Eid, b: seq<Eid>)
    ensures (a + [e]) + b == a + ([e] + b)
  {
  }

  lemma LoopEnds(s: State, todo: seq<Eid>, nr: int, ew: Option<Eid>, ex: Option<Eid>, x: Eid)
    requires LoopInv(s, todo, ew, ex) && x in s.board.events && todo == []
    ensures var (s', r) := Loop(s, todo, nr, ew, ex);
            && Inv(s') && Went(s, s', x, Left(todo, ew, ex, x) && r != Some(x))
            && At(s'.board, Immediate) == At(s.board, Immediate) + Order(s, todo, nr, ew, ex)
  {
    assert ex.Some? ==> Left(todo, ew, ex, ex.value);
    if ew.Some? && ex.Some? { OneMoved(s, ex.value, x); }
    hide Inv, ToImmediate;
  }

  /** One waiter moves, the others are as before. */
  lemma MoveOn(s: State, todo: seq<Eid>, nr: int, ew: Option<Eid>, ex: Option<Eid>, x: Eid)
    requires LoopInv(s, todo, ew, ex) && todo != [] && x in s.board.events
    ensures var s1 := ToImmediate(s, todo[0]);
            && x in s1.board.events && Went(s, s1, x, x == todo[0])
            && At(s1.board, Immediate) == At(s.board, Immediate) + [todo[0]]
            && Order(s1, todo[1..], nr, ew, ex) == Order(s, todo[1..], nr, ew, ex)
            && Loop(s1, todo[1..], nr, ew, ex).1 != Some(todo[0])
            && !Left(todo[1..], ew, ex, todo[0])
  {
    var e, rest := todo[0], todo[1..];
    assert todo == [e] + rest && e !in rest;
    assert Left(todo, ew, ex, e);
    OneMoved(s, e, x);
    hide Inv;
    forall i | 0 <= i < |rest| ensures Near(ToImmediate(s, e), rest[i], nr) <==> Near(s, rest[i], nr) {
      NearSame(s, e, rest[i], nr);
    }
    OrderSame(s, ToImmediate(s, e), rest, nr, ew, ex);
    LoopReturns(ToImmediate(s, e), rest, nr, ew, ex, e);
  }

  lemma NearSame(s: State, e: Eid, x: Eid, nr: int)
    ensures Near(ToImmediate(s, e), x, nr) <==> Near(s, x, nr)
  {
  }

  lemma BothMoves(s: State, s1: State, s2: State, x: Eid, first: bool, second: bool)
    requires x in s.board.events && Went(s, s1, x, first) && Went(s1, s2, x, second)
    ensures Went(s, s2, x, first || second)
  {
  }

  /** What is returned is one of those left. */
  lemma {:induction false} LoopReturns(s: State, todo: seq<Eid>, nr: int, ew: Option<Eid>, ex: Option<Eid>, x: Eid)
    requires !Left(todo, ew, ex, x)
    ensures Loop(s, todo, nr, ew, ex).1 != Some(x)
    decreases |todo|
  {
    if todo != [] {
      var e, rest := todo[0], todo[1..];
      assert todo == [e] + rest;
      if ew.None? && Near(s, e, nr) {
        LoopReturns(s, rest, nr, Some(e), ex, x);
      } else if ex.None? {
        LoopReturns(s, rest, nr, ew, Some(e), x);
      } else {
        LoopReturns(ToImmediate(s, e), rest, nr, ew, ex, x);
      }
    }
  }

  lemma {:induction false} LoopNear(s: State, todo: seq<Eid>, nr: int, ew: Option<Eid>, ex: Option<Eid>)
    requires ew.Some?
    ensures Loop(s, todo, nr, ew, ex).1 == ew
    decreases |todo|
  {
    if todo != [] {
      if ex.None? {
        LoopNear(s, todo[1..], nr, ew, Some(todo[0]));
      } else {
        LoopNear(ToImmediate(s, todo[0]), todo[1..], nr, ew, ex);
      }
    }
  }

  /** The first near waiter is returned, else the first of all. */
  lemma {:induction false} LoopChooses(s: State, todo: seq<Eid>, nr: int, ex: Option<Eid>)
    ensures var r := Loop(s, todo, nr, None, ex).1;
            if exists i :: 0 <= i < |todo| && WorkerOf(s, todo[i]) == Some(nr)
            then exists c :: Chosen(s, todo, nr, c) && r == Some(todo[c])
            else r == if ex.Some? then ex else if todo == [] then None else Some(todo[0])
    decreases |todo|
  {
    if todo != [] {
      var e, rest := todo[0], todo[1..];
      assert forall i :: 0 <= i < |rest| ==> rest[i] == todo[i + 1];
      if Near(s, e, nr) {
        LoopNear(s, rest, nr, Some(e), ex);
        assert Chosen(s, todo, nr, 0);
      } else {
        var s1 := if ex.None? then s else ToImmediate(s, e);
        LoopChooses(s1, rest, nr, if ex.None? then Some(e) else ex);
        forall x ensures WorkerOf(s1, x) == WorkerOf(s, x) { WorkerSame(s, e, x); }
        hide Loop, Near, WorkerOf;
        if i :| 0 <= i < |todo| && WorkerOf(s, todo[i]) == Some(nr) {
          assert i > 0 && WorkerOf(s1, rest[i - 1]) == Some(nr);
          var c :| Chosen(s1, rest, nr, c) && Loop(s1, rest, nr, None, if ex.None? then Some(e) else ex).1 == Some(rest[c]);
          forall j | 0 <= j < c + 1 ensures WorkerOf(s, todo[j]) != Some(nr) {
            if j > 0 { assert WorkerOf(s1, rest[j - 1]) != Some(nr); }
          }
          assert Chosen(s, todo, nr, c + 1);
        } else {
          forall j | 0 <= j < |rest| ensures WorkerOf(s1, rest[j]) != Some(nr) {}
        }
      }
    }
  }

  lemma WorkerSame(s: State, e: Eid, x: Eid)
    ensures WorkerOf(ToImmediate(s, e), x) == WorkerOf(s, x)
  {
  }

  /**
    wakeup_all_events: the first waiter of this worker, or else the first one, is returned and stays on
    the fd's list; all the others are on immediate, behind what was there; nothing else has moved.
   */
  lemma WakeFdExact(s: State, f: nat, nr: int, x: Eid)
    requires Inv(s) && x in s.board.events
    ensures var q := At(s.board, Fd(f));
            var (s', r) := WakeFd(s, f, nr);
            && Inv(s')
            && (if q == [] then r == None else exists c :: Chosen(s, q, nr, c) && r == Some(q[c]))
            && Went(s, s', x, On(s.board, x, Fd(f)) && r != Some(x))
            && At(s'.board, Immediate) == At(s.board, Immediate) + Order(s, q, nr, None, None)
  {
    var q := At(s.board, Fd(f));
    FdList(s, f);
    LoopMoves(s, q, nr, None, None, x);
    LoopChooses(s, q, nr, None);
    hide Inv, Loop, Order;
    if q != [] && !(exists i :: 0 <= i < |q| && WorkerOf(s, q[i]) == Some(nr)) {
      assert Chosen(s, q, nr, 0);
    }
  }

  lemma FdList(s: State, f: nat)
    requires Inv(s)
    ensures LoopInv(s, At(s.board, Fd(f)), None, None)
    ensures forall x :: x in At(s.board, Fd(f)) <==> On(s.board, x, Fd(f))
  {
    assert ListNamed(s.board, Fd(f));
    forall x | On(s.board, x, Fd(f)) ensures x in At(s.board, Fd(f)) { assert Listed(s.board, x); }
  }

  /** What the loop has at hand is on the fd's list and has a thread. */
  lemma LoopOn(s: State, todo: seq<Eid>, ew: Option<Eid>, ex: Option<Eid>)
    requires LoopInv(s, todo, ew, ex)
    ensures Placed(s.board)
    ensures todo != [] ==> OnFd(s, todo[0]) && s.board.events[todo[0]].tc in s.threads
    ensures ex.Some? ==> OnFd(s, ex.value)
    ensures todo == [] && ew.Some? && ex.Some? ==> Inv(ToImmediate(s, ex.value))
  {
    if todo != [] {
      assert Left(todo, ew, ex, todo[0]);
      EventThread(s, todo[0]);
    }
    if ex.Some? {
      assert Left(todo, ew, ex, ex.value);
      OneMoved(s, ex.value, ex.value);
    }
    IsPlaced(s);
    hide Inv, Placed;
  }
}

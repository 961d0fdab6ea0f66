/**
  tc_parallel_for (threaded_cr.h) over i = a; i < b; i++: the threads of a pool draw values from
  a shared counter under a spinlock until it is used up, and the caller waits until the last of
  them has taken itself off the pool's list (tc_thread_pool_wait, tc_die in threaded_cr.c).
 */
module ParallelFor {
  type Tid = nat

  datatype Pc =
    | Draw              // before the locked test and increment
    | Body(i: int)
    | Exit              // the test failed, before LIST_REMOVE in tc_die
    | Gone              // off the list

  datatype Caller =
    | Creating          // in tc_thread_pool_new
    | Waiting           // in tc_thread_pool_wait
    | Returned(ok: bool)

  datatype Loop = Loop(
    a: int,
    b: int,
    next: int,                  // VAR
    threads: seq<Pc>,
    caller: Caller,
    started: multiset<int>,     // the bodies called
    finished: multiset<int>)    // the bodies that have returned

  datatype Step =
    | Create            // one thread of the pool, on the list before it can run
    | Created
    | Locked(t: Tid)    // while (COND_ST) { __i = INC_ST; up to the unlock
    | Ends(t: Tid)      // the body returns
    | Unlink(t: Tid)
    | Return            // the list is empty
    | Interrupt         // tc_thread_wait_domain reports RV_INTR

  predicate Guard(l: Loop, step: Step) {
    match step
    case Create => l.caller == Creating
    case Created => l.caller == Creating
    case Locked(t) => t < |l.threads| && l.threads[t] == Draw
    case Ends(t) => t < |l.threads| && l.threads[t].Body?
    case Unlink(t) => t < |l.threads| && l.threads[t] == Exit
    case Return => l.caller == Waiting && forall t :: 0 <= t < |l.threads| ==> l.threads[t] == Gone
    case Interrupt => l.caller == Waiting
  }

  function Apply(l: Loop, step: Step): Loop
    requires Guard(l, step)
  {
    match step
    case Create => l.(threads := l.threads + [Draw])
    case Created => l.(caller := Waiting)
    case Locked(t) =>
      if l.next < l.b
      then l.(next := l.next + 1, threads := l.threads[t := Body(l.next)], started := l.started + multiset{l.next})
      else l.(threads := l.threads[t := Exit])
    case Ends(t) => l.(threads := l.threads[t := Draw], finished := l.finished + multiset{l.threads[t].i})
    case Unlink(t) => l.(threads := l.threads[t := Gone])
    case Return => l.(caller := Returned(true))
    case Interrupt => l.(caller := Returned(false))
  }

  predicate Init(l: Loop) {
    l.next == l.a && l.threads == [] && l.caller == Creating && l.started == multiset{} && l.finished == multiset{}
  }

  ghost predicate Execution(ls: seq<Loop>, steps: seq<Step>) {
    && |ls| == |steps| + 1 && Init(ls[0])
    && forall i :: 0 <= i < |steps| ==> Guard(ls[i], steps[i]) && ls[i + 1] == Apply(ls[i], steps[i])
  }

  // ---------------------------------------------------------------- what every state satisfies

  /** How many bodies for value i are under way. */
  function Running(threads: seq<Pc>, i: int): nat {
    if threads == [] then 0
    else Running(threads[..|threads| - 1], i) + (if threads[|threads| - 1] == Body(i) then 1 else 0)
  }

  ghost predicate ValueInv(l: Loop, i: int) {
    && l.started[i] == (if l.a <= i < l.next then 1 else 0)
    && l.started[i] == l.finished[i] + Running(l.threads, i)
  }

  ghost predicate Inv(l: Loop) {
    && (forall i :: ValueInv(l, i))
    && l.a <= l.next && (l.next <= l.b || l.next == l.a)
    && (forall t :: 0 <= t < |l.threads| && (l.threads[t] == Exit || l.threads[t] == Gone) ==> l.b <= l.next)
    && (l.caller == Returned(true) ==> forall t :: 0 <= t < |l.threads| ==> l.threads[t] == Gone)
  }

  lemma {:induction false} RunningUpdate(q: seq<Pc>, t: Tid, pc: Pc, i: int)
    requires t < |q|
    ensures Running(q[t := pc], i) == Running(q, i) - (if q[t] == Body(i) then 1 else 0) + (if pc == Body(i) then 1 else 0)
  {
    var n := |q| - 1;
    if t == n {
      assert q[t := pc][..n] == q[..n];
    } else {
      assert q[t := pc][..n] == q[..n][t := pc];
      RunningUpdate(q[..n], t, pc, i);
    }
  }

  lemma {:induction false} NoneRunning(q: seq<Pc>, i: int)
    requires forall t :: 0 <= t < |q| ==> q[t] == Gone
    ensures Running(q, i) == 0
  {
    if q != [] { NoneRunning(q[..|q| - 1], i); }
  }

  lemma StepValue(l: Loop, step: Step, i: int)
    requires Guard(l, step) && ValueInv(l, i)
    requires l.a <= l.next
    ensures ValueInv(Apply(l, step), i)
  {
    var l' := Apply(l, step);
    match step
    case Locked(t) => RunningUpdate(l.threads, t, l'.threads[t], i);
    case Ends(t) => RunningUpdate(l.threads, t, Draw, i);
    case Unlink(t) => RunningUpdate(l.threads, t, Gone, i);
    case Create => assert l'.threads[..|l.threads|] == l.threads;
    case _ =>
  }

  lemma StepKeeps(l: Loop, step: Step)
    requires Guard(l, step) && Inv(l)
    ensures Inv(Apply(l, step))
  {
    hide ValueInv;
    forall i ensures ValueInv(Apply(l, step), i) { StepValue(l, step, i); }
  }

  lemma {:induction false} Reachable(ls: seq<Loop>, steps: seq<Step>, i: nat)
    requires Execution(ls, steps) && i < |ls|
    ensures Inv(ls[i]) && ls[i].a == ls[0].a && ls[i].b == ls[0].b
  {
    if i > 0 {
      Reachable(ls, steps, i - 1);
      StepKeeps(ls[i - 1], steps[i - 1]);
    }
  }

  // ---------------------------------------------------------------- what it promises

  /** In every interleaving a body is called at most once per value, and for no value outside [a, b). */
  lemma AtMostOnce(ls: seq<Loop>, steps: seq<Step>, k: nat, i: int)
    requires Execution(ls, steps) && k < |ls|
    ensures ls[k].started[i] <= 1 && (ls[k].started[i] == 1 ==> ls[0].a <= i < ls[0].b)
    ensures ls[k].finished[i] <= ls[k].started[i]
  {
    Reachable(ls, steps, k);
    assert ValueInv(ls[k], i);
  }

  /** When the wait returns uninterrupted, every value has been through a body that has returned,
      exactly once; unless no thread at all could be created and there was something to do. */
  lemma ExactlyOnce(ls: seq<Loop>, steps: seq<Step>, k: nat)
    requires Execution(ls, steps) && k < |ls| && ls[k].caller == Returned(true)
    ensures (forall i :: ls[k].finished[i] == if ls[0].a <= i < ls[0].b then 1 else 0)
            <==> |ls[k].threads| > 0 || ls[0].a >= ls[0].b
  {
    Reachable(ls, steps, k);
    var l := ls[k];
    forall i ensures l.finished[i] == if l.a <= i < l.next then 1 else 0 {
      assert ValueInv(l, i);
      NoneRunning(l.threads, i);
    }
    if |l.threads| > 0 {
      assert l.threads[0] == Gone;
    } else if l.a < l.b {
      NothingDrawn(ls, steps, k);
      assert l.finished[l.a] == 0;
    }
  }

  /** Without a thread the counter stays where it is. */
  lemma {:induction false} NothingDrawn(ls: seq<Loop>, steps: seq<Step>, k: nat)
    requires Execution(ls, steps) && k < |ls| && ls[k].threads == []
    ensures ls[k].next == ls[0].a
  {
    if k > 0 {
      NothingDrawn(ls, steps, k - 1);
    }
  }
}

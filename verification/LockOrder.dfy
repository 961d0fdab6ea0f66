/**
  The order in which threaded_cr.c takes its spinlocks. Every operation is a script of
  acquisitions and releases; workers run scripts one after the other, and a worker spins while
  the lock it is after is held. The running locks of the coroutines are in Lifecycle.
 */
module LockOrder {
  import opened Common

  type Tid = nat
  type Qid = nat
  type Wid = nat

  datatype Lock =
    | Domain(d: nat)      // tc_domain.lock
    | Timer(d: nat)       // timer_lock
    | Sync(d: nat)        // sync_lock
    | Fd(f: nat)          // tc_fd.events.lock
    | Immediate           // common.immediate.lock
    | Pending(t: Tid)     // tc_thread.pending.lock
    | Waitq(q: Qid)       // tc_waitq.waiters.lock

  function Rank(l: Lock): nat {
    match l
    case Immediate => 1
    case Pending(_) => 2
    case Waitq(_) => 3
    case _ => 0
  }

  datatype Act = Take(l: Lock) | Give(l: Lock)

  function Within(l: Lock, body: seq<Act>): seq<Act> {
    [Take(l)] + body + [Give(l)]
  }

  /** run_or_queue: the event's thread and, for a signal, its waitqueue */
  datatype Dispatch = Dispatch(t: Tid, signal: Option<Qid>)

  datatype Operation =
    | PrepareToWait(t: Tid, q: Qid)             // also tc_signal_subscribe, up to its list insertion
    | FinishWait(t: Tid, qs: seq<Qid>)          // qs: the lists its events are removed from
    | WakeUp(q: Qid)                            // wakeup_one, wakeup_one_owner, wakeup_all
    | Schedule(t: Tid, signal: Option<Qid>)
    | RunImmediate(calls: seq<Dispatch>)
    | FdEvent(f: nat, moves: nat, call: Option<Dispatch>)
    | Unsubscribe(t: Tid, q: Qid)
    | ThreadWait(d: nat, t: Tid, q: Qid)        // tc_thread_wait_ref
    | TimerSection(d: nat, qs: seq<Qid>)        // the wake loop, remove_from_timer_list_wakeup, the insertion
    | Single(l: Lock)                           // sections with one lock only, such as add_event_fd or worker_after_sleep

  function OnQueue(q: Option<Qid>): seq<Act> {
    if q.None? then [] else Within(Waitq(q.value), [])
  }

  function OnQueues(qs: seq<Qid>): seq<Act> {
    if qs == [] then [] else Within(Waitq(qs[0]), []) + OnQueues(qs[1..])
  }

  function RunOrQueue(c: Dispatch): seq<Act> {
    Within(Pending(c.t), OnQueue(c.signal))
  }

  function RunAll(calls: seq<Dispatch>): seq<Act> {
    if calls == [] then [] else RunOrQueue(calls[0]) + RunAll(calls[1..])
  }

  function MoveToImmediate(n: nat): seq<Act> {
    if n == 0 then [] else Within(Immediate, []) + MoveToImmediate(n - 1)
  }

  function WakeUps(qs: seq<Qid>): seq<Act> {
    if qs == [] then [] else Within(Immediate, Within(Waitq(qs[0]), [])) + WakeUps(qs[1..])
  }

  function Script(op: Operation): seq<Act> {
    match op
    case PrepareToWait(t, q) => Within(Pending(t), Within(Waitq(q), []))
    case FinishWait(t, qs) => Within(Immediate, Within(Pending(t), OnQueues(qs)))
    case WakeUp(q) => Within(Immediate, Within(Waitq(q), []))
    case Schedule(t, signal) => Within(Pending(t), OnQueue(signal))
    case RunImmediate(calls) => Within(Immediate, RunAll(calls))
    case FdEvent(f, moves, call) =>
      Within(Fd(f), MoveToImmediate(moves) + (if call.None? then [] else RunOrQueue(call.value)))
    case Unsubscribe(t, q) => Within(Immediate, Within(Pending(t), Within(Waitq(q), [])))
    case ThreadWait(d, t, q) => Within(Domain(d), Within(Pending(t), Within(Waitq(q), [])))
    case TimerSection(d, qs) => Within(Timer(d), WakeUps(qs))
    case Single(l) => Within(l, [])
  }

  // ---------------------------------------------------------------- every operation keeps the order

  /** A lock may be taken on top of these. */
  predicate Above(l: Lock, stack: seq<Lock>) {
    stack == [] || Rank(stack[|stack| - 1]) < Rank(l)
  }

  /** The locks held after a script, if it takes them in rank order and gives back the last one first. */
  function Exec(acts: seq<Act>, stack: seq<Lock>): Option<seq<Lock>> {
    if acts == [] then Some(stack)
    else match acts[0]
      case Take(l) => if Above(l, stack) then Exec(acts[1..], stack + [l]) else None
      case Give(l) =>
        if stack != [] && stack[|stack| - 1] == l then Exec(acts[1..], stack[..|stack| - 1]) else None
  }

  /** The script leaves the locks as it found them. */
  predicate Neutral(acts: seq<Act>, stack: seq<Lock>) {
    Exec(acts, stack) == Some(stack)
  }

  lemma {:induction false} ExecConcat(a: seq<Act>, b: seq<Act>, stack: seq<Lock>)
    requires Exec(a, stack).Some?
    ensures Exec(a + b, stack) == Exec(b, Exec(a, stack).value)
    decreases |a|
  {
    if a == [] {
      assert a + b == b;
    } else {
      assert (a + b)[1..] == a[1..] + b;
      match a[0]
      case Take(l) => ExecConcat(a[1..], b, stack + [l]);
      case Give(l) => ExecConcat(a[1..], b, stack[..|stack| - 1]);
    }
  }

  lemma WithinNeutral(l: Lock, body: seq<Act>, stack: seq<Lock>)
    requires Above(l, stack) && Neutral(body, stack + [l])
    ensures Neutral(Within(l, body), stack)
  {
    ExecConcat(body, [Give(l)], stack + [l]);
    assert (stack + [l])[..|stack|] == stack;
    assert Exec([Give(l)], stack + [l]) == Exec([Give(l)][1..], stack);
    assert Within(l, body)[1..] == body + [Give(l)];
  }

  lemma {:induction false} OnQueuesNeutral(qs: seq<Qid>, stack: seq<Lock>)
    requires stack != [] && Rank(stack[|stack| - 1]) < 3
    ensures Neutral(OnQueues(qs), stack)
  {
    if qs != [] {
      WithinNeutral(Waitq(qs[0]), [], stack);
      OnQueuesNeutral(qs[1..], stack);
      ExecConcat(Within(Waitq(qs[0]), []), OnQueues(qs[1..]), stack);
    }
  }

  lemma RunOrQueueNeutral(c: Dispatch, stack: seq<Lock>)
    requires stack == [] || Rank(stack[|stack| - 1]) < 2
    ensures Neutral(RunOrQueue(c), stack)
  {
    if c.signal.Some? {
      WithinNeutral(Waitq(c.signal.value), [], stack + [Pending(c.t)]);
    }
    WithinNeutral(Pending(c.t), OnQueue(c.signal), stack);
  }

  lemma {:induction false} RunAllNeutral(calls: seq<Dispatch>, stack: seq<Lock>)
    requires stack == [] || Rank(stack[|stack| - 1]) < 2
    ensures Neutral(RunAll(calls), stack)
  {
    if calls != [] {
      RunOrQueueNeutral(calls[0], stack);
      RunAllNeutral(calls[1..], stack);
      ExecConcat(RunOrQueue(calls[0]), RunAll(calls[1..]), stack);
    }
  }

  lemma {:induction false} MovesNeutral(n: nat, stack: seq<Lock>)
    requires Above(Immediate, stack)
    ensures Neutral(MoveToImmediate(n), stack)
  {
    if n > 0 {
      WithinNeutral(Immediate, [], stack);
      MovesNeutral(n - 1, stack);
      ExecConcat(Within(Immediate, []), MoveToImmediate(n - 1), stack);
    }
  }

  lemma {:induction false} WakeUpsNeutral(qs: seq<Qid>, stack: seq<Lock>)
    requires Above(Immediate, stack)
    ensures Neutral(WakeUps(qs), stack)
  {
    if qs != [] {
      var first := Within(Immediate, Within(Waitq(qs[0]), []));
      WithinNeutral(Waitq(qs[0]), [], stack + [Immediate]);
      WithinNeutral(Immediate, Within(Waitq(qs[0]), []), stack);
      WakeUpsNeutral(qs[1..], stack);
      ExecConcat(first, WakeUps(qs[1..]), stack);
    }
  }

  /** Every operation takes its locks in strictly increasing rank and gives all of them back. */
  lemma OperationOrdered(op: Operation)
    ensures Neutral(Script(op), [])
  {
    hide Exec, Within;
    EmptyNeutral();
    match op
    case PrepareToWait(t, q) => NestedPair(Pending(t), Waitq(q), []);
    case FinishWait(t, qs) =>
      OnQueuesNeutral(qs, [Immediate, Pending(t)]);
      InTwo(Immediate, Pending(t), OnQueues(qs));
    case WakeUp(q) => NestedPair(Immediate, Waitq(q), []);
    case Schedule(t, signal) => RunOrQueueNeutral(Dispatch(t, signal), []);
    case RunImmediate(calls) =>
      RunAllNeutral(calls, [Immediate]);
      InOne(Immediate, RunAll(calls));
    case FdEvent(f, moves, call) =>
      MovesNeutral(moves, [Fd(f)]);
      if call.Some? { RunOrQueueNeutral(call.value, [Fd(f)]); }
      var rest := if call.None? then [] else RunOrQueue(call.value);
      assert Neutral(rest, [Fd(f)]);
      ExecConcat(MoveToImmediate(moves), rest, [Fd(f)]);
      InOne(Fd(f), MoveToImmediate(moves) + rest);
    case Unsubscribe(t, q) =>
      NestedPair(Pending(t), Waitq(q), [Immediate]);
      InOne(Immediate, Within(Pending(t), Within(Waitq(q), [])));
    case ThreadWait(d, t, q) =>
      NestedPair(Pending(t), Waitq(q), [Domain(d)]);
      InOne(Domain(d), Within(Pending(t), Within(Waitq(q), [])));
    case TimerSection(d, qs) =>
      WakeUpsNeutral(qs, [Timer(d)]);
      InOne(Timer(d), WakeUps(qs));
    case Single(l) => InOne(l, []);
  }

  lemma EmptyNeutral()
    ensures forall stack :: Neutral([], stack)
  {
  }

  lemma InOne(l: Lock, body: seq<Act>)
    requires Neutral(body, [l])
    ensures Neutral(Within(l, body), [])
  {
    assert [] + [l] == [l];
    WithinNeutral(l, body, []);
  }

  lemma InTwo(k: Lock, l: Lock, body: seq<Act>)
    requires Neutral(body, [k, l]) && Rank(k) < Rank(l)
    ensures Neutral(Within(k, Within(l, body)), [])
  {
    assert [k] + [l] == [k, l];
    WithinNeutral(l, body, [k]);
    InOne(k, Within(l, body));
  }

  lemma NestedPair(k: Lock, l: Lock, stack: seq<Lock>)
    requires Rank(k) < Rank(l) && Above(k, stack)
    ensures Neutral(Within(k, Within(l, [])), stack)
  {
    WithinNeutral(l, [], stack + [k]);
    WithinNeutral(k, Within(l, []), stack);
  }

  // ---------------------------------------------------------------- workers

  /** held: in the order taken; todo: the rest of the operation under way */
  datatype Worker = Worker(held: seq<Lock>, todo: seq<Act>)

  datatype Step = Begin(w: Wid, op: Operation) | Advance(w: Wid)

  predicate Taken(ws: seq<Worker>, l: Lock) {
    exists w :: 0 <= w < |ws| && l in ws[w].held
  }

  predicate Guard(ws: seq<Worker>, step: Step) {
    && step.w < |ws|
    && match step
       case Begin(w, _) => ws[w].todo == []
       case Advance(w) => ws[w].todo != [] && (ws[w].todo[0].Take? ==> !Taken(ws, ws[w].todo[0].l))
  }

  function Apply(ws: seq<Worker>, step: Step): seq<Worker>
    requires Guard(ws, step)
  {
    match step
    case Begin(w, op) => ws[w := ws[w].(todo := Script(op))]
    case Advance(w) =>
      (match ws[w].todo[0]
       case Take(l) => ws[w := Worker(ws[w].held + [l], ws[w].todo[1..])]
       case Give(l) => ws[w := Worker(Without(ws[w].held, l), ws[w].todo[1..])])
  }

  ghost predicate Run(states: seq<seq<Worker>>, steps: seq<Step>) {
    && |states| == |steps| + 1
    && (forall w :: 0 <= w < |states[0]| ==> states[0][w] == Worker([], []))
    && forall i :: 0 <= i < |steps| ==> Guard(states[i], steps[i]) && states[i + 1] == Apply(states[i], steps[i])
  }

  ghost predicate Rising(q: seq<Lock>) {
    forall i, j :: 0 <= i < j < |q| ==> Rank(q[i]) < Rank(q[j])
  }

  /** What a worker holds rises in rank, and the rest of its script keeps to the order. */
  ghost predicate WorkerInv(w: Worker) {
    Rising(w.held) && Exec(w.todo, w.held) == Some([])
  }

  ghost predicate Inv(ws: seq<Worker>) {
    forall w :: 0 <= w < |ws| ==> WorkerInv(ws[w])
  }

  lemma {:induction false} WithoutLast(q: seq<Lock>, l: Lock)
    requires Rising(q) && q != [] && q[|q| - 1] == l
    ensures Without(q, l) == q[..|q| - 1]
  {
    if |q| > 1 {
      assert Rank(q[0]) < Rank(q[|q| - 1]);
      WithoutLast(q[1..], l);
      assert q[..|q| - 1] == [q[0]] + q[1..][..|q| - 2];
    }
  }

  lemma StepKeeps(ws: seq<Worker>, step: Step)
    requires Guard(ws, step) && Inv(ws)
    ensures |Apply(ws, step)| == |ws| && Inv(Apply(ws, step))
  {
    var k := ws[step.w];
    assert WorkerInv(k);
    if step.Begin? {
      OperationOrdered(step.op);
    } else {
      AdvanceKeeps(k);
    }
    hide WorkerInv, Taken;
  }

  lemma AdvanceKeeps(k: Worker)
    requires WorkerInv(k) && k.todo != []
    ensures match k.todo[0]
            case Take(l) => WorkerInv(Worker(k.held + [l], k.todo[1..]))
            case Give(l) => WorkerInv(Worker(Without(k.held, l), k.todo[1..]))
  {
    if k.todo[0].Give? {
      WithoutLast(k.held, k.todo[0].l);
    }
  }

  lemma {:induction false} Reachable(states: seq<seq<Worker>>, steps: seq<Step>, i: nat)
    requires Run(states, steps) && i < |states|
    ensures Inv(states[i])
  {
    if i > 0 {
      Reachable(states, steps, i - 1);
      hide Inv;
      StepKeeps(states[i - 1], steps[i - 1]);
    }
  }

  // ---------------------------------------------------------------- no deadlock

  /** v is after a lock that w holds. */
  predicate WaitsFor(ws: seq<Worker>, v: Wid, w: Wid) {
    v < |ws| && w < |ws| && ws[v].todo != [] && ws[v].todo[0].Take? && ws[v].todo[0].l in ws[w].held
  }

  lemma WantsHigher(k: Worker, l: Lock)
    requires WorkerInv(k) && k.todo != [] && k.todo[0].Take? && l in k.held
    ensures Rank(l) < Rank(k.todo[0].l)
  {
    var i :| 0 <= i < |k.held| && k.held[i] == l;
    assert Above(k.todo[0].l, k.held);
    assert i < |k.held| - 1 ==> Rank(k.held[i]) < Rank(k.held[|k.held| - 1]);
  }

  /** Along a chain of waiting workers the wanted rank rises. */
  lemma {:induction false} ChainRises(ws: seq<Worker>, c: seq<Wid>, k: nat)
    requires Inv(ws) && k < |c| && forall i :: 0 <= i < |c| - 1 ==> WaitsFor(ws, c[i], c[i + 1])
    requires c[0] < |ws| && ws[c[0]].todo != [] && ws[c[0]].todo[0].Take?
    requires c[|c| - 1] < |ws| && ws[c[|c| - 1]].todo != [] && ws[c[|c| - 1]].todo[0].Take?
    ensures c[k] < |ws| && ws[c[k]].todo != [] && ws[c[k]].todo[0].Take?
    ensures Rank(ws[c[0]].todo[0].l) + k <= Rank(ws[c[k]].todo[0].l)
  {
    if k > 0 {
      ChainRises(ws, c, k - 1);
      assert WaitsFor(ws, c[k - 1], c[k - 1 + 1]);
      if k < |c| - 1 { assert WaitsFor(ws, c[k], c[k + 1]); }
      WantsHigher(ws[c[k]], ws[c[k - 1]].todo[0].l);
    }
  }

  /** In no run do workers wait for each other in a circle. */
  lemma NoCircle(states: seq<seq<Worker>>, steps: seq<Step>, n: nat, c: seq<Wid>)
    requires Run(states, steps) && n < |states|
    requires |c| > 0 && forall i :: 0 <= i < |c| - 1 ==> WaitsFor(states[n], c[i], c[i + 1])
    ensures !WaitsFor(states[n], c[|c| - 1], c[0])
  {
    Reachable(states, steps, n);
    var ws := states[n];
    if WaitsFor(ws, c[|c| - 1], c[0]) {
      if |c| > 1 { assert WaitsFor(ws, c[0], c[0 + 1]); }
      ChainRises(ws, c, |c| - 1);
      WantsHigher(ws[c[0]], ws[c[|c| - 1]].todo[0].l);
    }
  }

  /** From a busy worker on, following who waits for whom, there is one that can go on. */
  lemma {:induction false} SomeoneAdvances(ws: seq<Worker>, v: Wid) returns (w: Wid)
    requires Inv(ws) && v < |ws| && ws[v].todo != []
    ensures w < |ws| && Guard(ws, Advance(w))
    decreases if ws[v].todo[0].Take? then 4 - Rank(ws[v].todo[0].l) else 0
  {
    var act := ws[v].todo[0];
    if act.Take? && Taken(ws, act.l) {
      var h :| 0 <= h < |ws| && act.l in ws[h].held;
      assert WorkerInv(ws[h]);
      if ws[h].todo[0].Take? {
        WantsHigher(ws[h], act.l);
        w := SomeoneAdvances(ws, h);
      } else {
        w := h;
      }
    } else {
      w := v;
    }
  }

  /** As long as an operation is under way, some worker can go on with one. */
  lemma NoDeadlock(states: seq<seq<Worker>>, steps: seq<Step>, n: nat, v: Wid)
    requires Run(states, steps) && n < |states| && v < |states[n]| && states[n][v].todo != []
    ensures exists w :: 0 <= w < |states[n]| && Guard(states[n], Advance(w))
  {
    Reachable(states, steps, n);
    var w := SomeoneAdvances(states[n], v);
  }
}

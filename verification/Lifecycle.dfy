/**
  Who executes which stack (threaded_cr.c): the running lock of a coroutine is taken by the
  worker that switches to it and given back by that worker once it has arrived elsewhere.
  A switch is three steps: take the lock, cr_call, unlock the previous one.
 */
module Lifecycle {
  type Wid = nat
  type Tid = nat

  /** A worker's own scheduler_part2, or a tc_thread. */
  datatype Cid = Part2(w: Wid) | Thr(t: Tid)

  /** What a worker does; at is the stack it does it on. */
  datatype Mode =
    | Run(at: Cid)
    | Lock(at: Cid, to: Cid)      // _switch_to before spin_lock(&new->running)
    | Jump(at: Cid, to: Cid)      // _switch_to before cr_call
    | Arrive(at: Cid, prev: Cid)  // on the new stack, before the unlock of previous->running
    | Reap(at: Cid, t: Tid)       // tc_thread_free before spin_lock(&tc->running)
    | Delete(at: Cid, t: Tid)     // tc_thread_free before cr_delete

  /** TF_RUNNING clear; set; EF_EXITING posted; its event taken by a worker; gone. */
  datatype Phase = Parked | Claimed | Exited | Reaping | Freed

  datatype Sys = Sys(
    workers: seq<Mode>,
    phase: seq<Phase>,
    holder: map<Cid, Wid>)        // the locked running locks, and who took them

  datatype Step =
    | Spawn
    | Dispatch(w: Wid, t: Tid)    // run_or_queue returns t
    | Park(w: Wid)                // tc_scheduler
    | Die(w: Wid)                 // tc_die
    | Take(w: Wid, t: Tid)        // run_or_queue on the EF_EXITING event of t
    | Acquire(w: Wid)             // a spin_lock on running that succeeds
    | Call(w: Wid)                // cr_call
    | Unlock(w: Wid)              // spin_unlock(&previous->running)
    | Free(w: Wid)                // cr_delete, free

  /** The running lock a worker is after. */
  function Target(mode: Mode): (r: set<Cid>) {
    match mode
    case Lock(_, to) => {to}
    case Reap(_, t) => {Thr(t)}
    case _ => {}
  }

  predicate Guard(m: Sys, step: Step) {
    if step.Spawn? then true else
    && step.w < |m.workers|
    && var mode := m.workers[step.w];
       match step
       case Spawn => true
       case Dispatch(w, t) => mode == Run(Part2(w)) && t < |m.phase| && m.phase[t] == Parked
       case Park(_) => mode.Run? && mode.at.Thr? && mode.at.t < |m.phase|
       case Die(_) => mode.Run? && mode.at.Thr? && mode.at.t < |m.phase|
       case Take(w, t) => mode == Run(Part2(w)) && t < |m.phase| && m.phase[t] == Exited
       case Acquire(_) => (mode.Lock? && mode.to !in m.holder) || (mode.Reap? && Thr(mode.t) !in m.holder)
       case Call(_) => mode.Jump?
       case Unlock(_) => mode.Arrive?
       case Free(_) => mode.Delete? && mode.t < |m.phase|
  }

  function Apply(m: Sys, step: Step): Sys
    requires Guard(m, step)
  {
    match step
    case Spawn => m.(phase := m.phase + [Parked])
    case Dispatch(w, t) => m.(phase := m.phase[t := Claimed], workers := m.workers[w := Lock(Part2(w), Thr(t))])
    case Park(w) =>
      var c := m.workers[w].at;
      m.(phase := m.phase[c.t := Parked], workers := m.workers[w := Lock(c, Part2(w))])
    case Die(w) =>
      var c := m.workers[w].at;
      m.(phase := m.phase[c.t := Exited], workers := m.workers[w := Lock(c, Part2(w))])
    case Take(w, t) => m.(phase := m.phase[t := Reaping], workers := m.workers[w := Reap(Part2(w), t)])
    case Acquire(w) =>
      (match m.workers[w]
       case Lock(at, to) => m.(holder := m.holder[to := w], workers := m.workers[w := Jump(at, to)])
       case Reap(at, t) => m.(holder := m.holder[Thr(t) := w], workers := m.workers[w := Delete(at, t)]))
    case Call(w) => m.(workers := m.workers[w := Arrive(m.workers[w].to, m.workers[w].at)])
    case Unlock(w) => m.(holder := m.holder - {m.workers[w].prev}, workers := m.workers[w := Run(m.workers[w].at)])
    case Free(w) =>
      var t := m.workers[w].t;
      m.(phase := m.phase[t := Freed], holder := m.holder - {Thr(t)}, workers := m.workers[w := Run(m.workers[w].at)])
  }

  ghost predicate Init(m: Sys) {
    && m.phase == []
    && (forall w :: 0 <= w < |m.workers| ==> m.workers[w] == Run(Part2(w)))
    && m.holder == map w | 0 <= w < |m.workers| :: Part2(w) := w
  }

  ghost predicate Execution(ms: seq<Sys>, steps: seq<Step>) {
    && |ms| == |steps| + 1 && Init(ms[0])
    && forall i :: 0 <= i < |steps| ==> Guard(ms[i], steps[i]) && ms[i + 1] == Apply(ms[i], steps[i])
  }

  // ---------------------------------------------------------------- what every state satisfies

  /** The coroutines whose running lock a worker holds. */
  predicate Occupies(mode: Mode, c: Cid) {
    || mode.at == c
    || (mode.Jump? && mode.to == c)
    || (mode.Arrive? && mode.prev == c)
    || (mode.Delete? && Thr(mode.t) == c)
  }

  /** Got t from run_or_queue and has not parked it since. */
  predicate Claims(mode: Mode, t: Tid) {
    match mode
    case Run(at) => at == Thr(t)
    case Lock(_, to) => to == Thr(t)
    case Jump(_, to) => to == Thr(t)
    case Arrive(at, _) => at == Thr(t)
    case _ => false
  }

  predicate Reaps(mode: Mode, t: Tid) {
    (mode.Reap? || mode.Delete?) && mode.t == t
  }

  /** Switches go between a thread and the worker's own scheduler_part2. */
  predicate Shape(mode: Mode, w: Wid) {
    match mode
    case Run(at) => at.Thr? || at == Part2(w)
    case Lock(at, to) => Pair(at, to, w)
    case Jump(at, to) => Pair(at, to, w)
    case Arrive(at, prev) => Pair(at, prev, w)
    case Reap(at, _) => at == Part2(w)
    case Delete(at, _) => at == Part2(w)
  }

  predicate Pair(a: Cid, b: Cid, w: Wid) {
    (a.Thr? && b == Part2(w)) || (a == Part2(w) && b.Thr?)
  }

  ghost predicate HolderInv(m: Sys, w: Wid, c: Cid)
    requires w < |m.workers|
  {
    Occupies(m.workers[w], c) <==> c in m.holder && m.holder[c] == w
  }

  ghost predicate PhaseInv(m: Sys, w: Wid, t: Tid)
    requires w < |m.workers|
  {
    && (Claims(m.workers[w], t) ==> t < |m.phase| && m.phase[t] == Claimed)
    && (Reaps(m.workers[w], t) ==> t < |m.phase| && m.phase[t] == Reaping)
    && (Occupies(m.workers[w], Thr(t)) ==> t < |m.phase| && m.phase[t] != Freed)
  }

  ghost predicate Lone(m: Sys, v: Wid, w: Wid, t: Tid)
    requires v < |m.workers| && w < |m.workers|
  {
    v != w ==>
      && !(Claims(m.workers[v], t) && Claims(m.workers[w], t))
      && !(Reaps(m.workers[v], t) && Reaps(m.workers[w], t))
  }

  ghost predicate Inv(m: Sys) {
    && (forall w :: 0 <= w < |m.workers| ==> Shape(m.workers[w], w))
    && (forall w, c :: 0 <= w < |m.workers| ==> HolderInv(m, w, c))
    && (forall c :: c in m.holder ==> m.holder[c] < |m.workers|)
    && (forall w, t :: 0 <= w < |m.workers| ==> PhaseInv(m, w, t))
    && (forall v, w, t :: 0 <= v < |m.workers| && 0 <= w < |m.workers| ==> Lone(m, v, w, t))
  }

  // ---------------------------------------------------------------- every step keeps it

  lemma StepShape(m: Sys, step: Step, w: Wid)
    requires Guard(m, step) && w < |m.workers| && Shape(m.workers[w], w)
    ensures |Apply(m, step).workers| == |m.workers| && Shape(Apply(m, step).workers[w], w)
  {
  }

  lemma StepHolder(m: Sys, step: Step, w: Wid, c: Cid)
    requires Guard(m, step) && w < |m.workers| && Shape(m.workers[w], w) && HolderInv(m, w, c)
    requires !step.Spawn? ==> Shape(m.workers[step.w], step.w) && HolderInv(m, step.w, c)
    ensures |Apply(m, step).workers| == |m.workers| && HolderInv(Apply(m, step), w, c)
  {
  }

  lemma StepPhase(m: Sys, step: Step, w: Wid, t: Tid)
    requires Guard(m, step) && w < |m.workers| && Shape(m.workers[w], w) && PhaseInv(m, w, t)
    requires HolderInv(m, w, Thr(t))
    requires !step.Spawn? ==> Shape(m.workers[step.w], step.w) && PhaseInv(m, step.w, t) && Lone(m, step.w, w, t)
                              && HolderInv(m, step.w, Thr(t))
    ensures |Apply(m, step).workers| == |m.workers| && PhaseInv(Apply(m, step), w, t)
  {
  }

  lemma StepLone(m: Sys, step: Step, v: Wid, w: Wid, t: Tid)
    requires Guard(m, step) && v < |m.workers| && w < |m.workers| && Lone(m, v, w, t)
    requires PhaseInv(m, v, t) && PhaseInv(m, w, t)
    requires !step.Spawn? ==> Shape(m.workers[step.w], step.w)
    ensures |Apply(m, step).workers| == |m.workers| && Lone(Apply(m, step), v, w, t)
  {
  }

  lemma StepKeeps(m: Sys, step: Step)
    requires Guard(m, step) && Inv(m)
    ensures Inv(Apply(m, step))
  {
    var m' := Apply(m, step);
    assert |m'.workers| == |m.workers|;
    assert forall c :: c in m'.holder ==> m'.holder[c] < |m'.workers|;
    hide Apply, Guard, Shape, HolderInv, PhaseInv, Lone;
    forall w | 0 <= w < |m'.workers| ensures Shape(m'.workers[w], w) { StepShape(m, step, w); }
    forall w, c | 0 <= w < |m'.workers| ensures HolderInv(m', w, c) { StepHolder(m, step, w, c); }
    forall w, t | 0 <= w < |m'.workers| ensures PhaseInv(m', w, t) { StepPhase(m, step, w, t); }
    forall v, w, t | 0 <= v < |m'.workers| && 0 <= w < |m'.workers| ensures Lone(m', v, w, t) { StepLone(m, step, v, w, t); }
  }

  lemma {:induction false} Reachable(ms: seq<Sys>, steps: seq<Step>, i: nat)
    requires Execution(ms, steps) && i < |ms|
    ensures Inv(ms[i])
  {
    if i > 0 {
      Reachable(ms, steps, i - 1);
      hide Inv;
      StepKeeps(ms[i - 1], steps[i - 1]);
    }
  }

  // ---------------------------------------------------------------- what it promises

  /** No stack is executed by two workers. */
  lemma StackExclusive(ms: seq<Sys>, steps: seq<Step>, i: nat, v: Wid, w: Wid)
    requires Execution(ms, steps) && i < |ms| && v < |ms[i].workers| && w < |ms[i].workers|
    requires ms[i].workers[v].at == ms[i].workers[w].at
    ensures v == w
  {
    Reachable(ms, steps, i);
    assert HolderInv(ms[i], v, ms[i].workers[v].at) && HolderInv(ms[i], w, ms[i].workers[v].at);
  }

  /** From its dispatch until it parks, a thread belongs to one worker. */
  lemma OneClaim(ms: seq<Sys>, steps: seq<Step>, i: nat, v: Wid, w: Wid, t: Tid)
    requires Execution(ms, steps) && i < |ms| && v < |ms[i].workers| && w < |ms[i].workers|
    requires Claims(ms[i].workers[v], t) && Claims(ms[i].workers[w], t)
    ensures v == w && t < |ms[i].phase| && ms[i].phase[t] == Claimed
  {
    Reachable(ms, steps, i);
    assert Lone(ms[i], v, w, t) && PhaseInv(ms[i], v, t);
  }

  /** A thread is deleted once, when no worker is on its stack, on its way to it or still about to
      release its lock. */
  lemma DeletedAlone(ms: seq<Sys>, steps: seq<Step>, i: nat, v: Wid)
    requires Execution(ms, steps) && i < |steps| && steps[i].Free? && v < |ms[i].workers| && v != steps[i].w
    ensures var t := ms[i].workers[steps[i].w].t;
            && !Occupies(ms[i].workers[v], Thr(t)) && !Claims(ms[i].workers[v], t) && !Reaps(ms[i].workers[v], t)
            && ms[i].workers[steps[i].w].at != Thr(t)
            && ms[i].phase[t] == Reaping
  {
    Reachable(ms, steps, i);
    var m, w := ms[i], steps[i].w;
    var t := m.workers[w].t;
    assert HolderInv(m, w, Thr(t)) && HolderInv(m, v, Thr(t)) && Lone(m, v, w, t);
    assert PhaseInv(m, w, t) && PhaseInv(m, v, t) && Shape(m.workers[w], w);
  }

  /** No worker ever touches a thread that is gone. */
  lemma FreedUntouched(ms: seq<Sys>, steps: seq<Step>, i: nat, w: Wid, t: Tid)
    requires Execution(ms, steps) && i < |ms| && w < |ms[i].workers| && t < |ms[i].phase| && ms[i].phase[t] == Freed
    ensures !Occupies(ms[i].workers[w], Thr(t)) && !Claims(ms[i].workers[w], t) && !Reaps(ms[i].workers[w], t)
  {
    Reachable(ms, steps, i);
    assert PhaseInv(ms[i], w, t);
  }

  /** Steps until the thread w leaves is unlocked. */
  function LeavingFor(mode: Mode): nat {
    if mode.Lock? then 3 else if mode.Jump? then 2 else if mode.Arrive? then 1 else 0
  }

  predicate Leaves(mode: Mode, t: Tid) {
    (mode.Lock? && mode.at == Thr(t)) || (mode.Jump? && mode.at == Thr(t)) || (mode.Arrive? && mode.prev == Thr(t))
  }

  function NextOf(mode: Mode, h: Wid): Step {
    if mode.Lock? then Acquire(h) else if mode.Jump? then Call(h) else Unlock(h)
  }

  /** A worker that spins on a running lock waits for one that is leaving that stack, and that one
      can always take its next step: it never spins itself. */
  lemma SpinEnds(ms: seq<Sys>, steps: seq<Step>, i: nat, w: Wid, c: Cid)
    requires Execution(ms, steps) && i < |ms| && w < |ms[i].workers| && c in Target(ms[i].workers[w]) && c in ms[i].holder
    ensures var m, h := ms[i], ms[i].holder[c];
            && h < |m.workers| && h != w && c.Thr? && Leaves(m.workers[h], c.t)
            && Guard(m, NextOf(m.workers[h], h))
            && var m' := Apply(m, NextOf(m.workers[h], h));
               && |m'.workers| == |m.workers|
               && (c !in m'.holder || (Leaves(m'.workers[h], c.t) && LeavingFor(m'.workers[h]) < LeavingFor(m.workers[h])))
  {
    Reachable(ms, steps, i);
    SpinShape(ms[i], w, ms[i].holder[c], c);
  }

  lemma SpinShape(m: Sys, w: Wid, h: Wid, c: Cid)
    requires Inv(m) && w < |m.workers| && c in Target(m.workers[w]) && c in m.holder && h == m.holder[c]
    ensures h < |m.workers| && h != w && c.Thr? && Leaves(m.workers[h], c.t)
    ensures Guard(m, NextOf(m.workers[h], h))
    ensures var m' := Apply(m, NextOf(m.workers[h], h));
            && |m'.workers| == |m.workers|
            && (c !in m'.holder || (Leaves(m'.workers[h], c.t) && LeavingFor(m'.workers[h]) < LeavingFor(m.workers[h])))
  {
    assert HolderInv(m, h, c) && HolderInv(m, w, c) && Shape(m.workers[w], w) && Shape(m.workers[h], h);
    assert c.Thr?;
    assert Lone(m, h, w, c.t) && PhaseInv(m, h, c.t) && PhaseInv(m, w, c.t);
    assert HolderInv(m, h, Part2(h));
    if Part2(h) in m.holder {
      var g := m.holder[Part2(h)];
      assert HolderInv(m, g, Part2(h)) && Shape(m.workers[g], g);
    }
  }

  // ---------------------------------------------------------------- nobody is forgotten, nobody comes back

  /** A claimed thread has its worker, and one that is being freed, too. */
  ghost predicate Tended(m: Sys, t: Tid) {
    t < |m.phase| ==>
      && (m.phase[t] == Claimed ==> exists w :: 0 <= w < |m.workers| && Claims(m.workers[w], t))
      && (m.phase[t] == Reaping ==> exists w :: 0 <= w < |m.workers| && Reaps(m.workers[w], t))
  }

  lemma TendedStep(m: Sys, step: Step, t: Tid)
    requires Guard(m, step) && Tended(m, t) && (!step.Spawn? ==> Shape(m.workers[step.w], step.w))
    ensures Tended(Apply(m, step), t)
  {
    var m' := Apply(m, step);
    if !step.Spawn? {
      assert |m'.workers| == |m.workers|;
      if t < |m'.phase| && m'.phase[t] == Claimed {
        if m.phase[t] == Claimed {
          var w :| 0 <= w < |m.workers| && Claims(m.workers[w], t);
          assert Claims(m'.workers[w], t);
        } else {
          assert Claims(m'.workers[step.w], t);
        }
      }
      if t < |m'.phase| && m'.phase[t] == Reaping {
        if m.phase[t] == Reaping {
          var w :| 0 <= w < |m.workers| && Reaps(m.workers[w], t);
          assert Reaps(m'.workers[w], t);
        } else {
          assert Reaps(m'.workers[step.w], t);
        }
      }
    }
  }

  /** A thread that TF_RUNNING marks is on its way to a worker's stack or there; so it is never lost. */
  lemma {:induction false} AlwaysTended(ms: seq<Sys>, steps: seq<Step>, i: nat, t: Tid)
    requires Execution(ms, steps) && i < |ms|
    ensures Tended(ms[i], t)
  {
    if i > 0 {
      AlwaysTended(ms, steps, i - 1, t);
      Reachable(ms, steps, i - 1);
      hide Tended, Apply;
      TendedStep(ms[i - 1], steps[i - 1], t);
    }
  }

  function Stage(p: Phase): nat {
    match p
    case Parked => 0 case Claimed => 0 case Exited => 1 case Reaping => 2 case Freed => 3
  }

  lemma StageStep(m: Sys, step: Step, t: Tid)
    requires Guard(m, step) && Inv(m) && t < |m.phase|
    ensures t < |Apply(m, step).phase| && Stage(m.phase[t]) <= Stage(Apply(m, step).phase[t])
  {
    if !step.Spawn? {
      assert PhaseInv(m, step.w, t);
      if step.Park? || step.Die? { assert PhaseInv(m, step.w, m.workers[step.w].at.t); }
    }
  }

  /** tc_die is final: a thread that has posted its exit event is never dispatched again, and one that is
      freed stays freed. */
  lemma {:induction false} NeverBack(ms: seq<Sys>, steps: seq<Step>, h: nat, i: nat, t: Tid)
    requires Execution(ms, steps) && h <= i < |ms| && t < |ms[h].phase|
    ensures t < |ms[i].phase| && Stage(ms[h].phase[t]) <= Stage(ms[i].phase[t])
    decreases i
  {
    if h < i {
      NeverBack(ms, steps, h, i - 1, t);
      Reachable(ms, steps, i - 1);
      hide Inv, Apply, Stage;
      StageStep(ms[i - 1], steps[i - 1], t);
    }
  }

  /** What exit and free do to the thread. */
  lemma ExitStages(ms: seq<Sys>, steps: seq<Step>, i: nat)
    requires Execution(ms, steps) && i < |steps|
    ensures var m, m' := ms[i], ms[i + 1];
            && (steps[i].Die? ==> m.workers[steps[i].w].at.t < |m'.phase| && m'.phase[m.workers[steps[i].w].at.t] == Exited)
            && (steps[i].Free? ==> m.workers[steps[i].w].t < |m'.phase| && m'.phase[m.workers[steps[i].w].t] == Freed)
            && (steps[i].Park? ==> m.workers[steps[i].w].at.t < |m'.phase| && m'.phase[m.workers[steps[i].w].at.t] == Parked)
  {
  }
}

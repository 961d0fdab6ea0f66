/**
  tc_thread_wait_ref against tc_die and tc_thread_free (threaded_cr.c). A thread object is found
  by its address on the domain's list; addresses are used again once the object is freed, so a
  reference also carries the thread's id. What runs under the domain's lock is one step.
 */
module Join {
  import opened Common
  import opened Waits

  type Tid = nat      // a thread, by the order of creation
  type Addr = nat
  type Jid = nat      // a call of tc_thread_wait_ref

  /** On the domain's list; taken off it; exit_waiters woken; EF_EXITING posted; freed. */
  datatype Life = Linked | Unlinked | Woken | Posted | Freed

  datatype Thread = Thread(addr: Addr, life: Life, waiters: seq<Jid>)

  /** struct tc_thread_ref; id 0 stands for any thread */
  datatype Ref = Ref(addr: Option<Addr>, id: nat)

  datatype Result = Ok | Intr | ThreadNa

  datatype Pc =
    | Start                       // before the section under the domain's lock
    | Park                        // before tc_scheduler
    | Finish                      // before tc_waitq_finish_wait
    | Done(rv: Result)

  /** on: the thread whose exit_waiters the call is on */
  datatype Joiner = Joiner(ref: Ref, pc: Pc, ev: Ev, on: Option<Tid>)

  datatype Sys = Sys(
    threads: seq<Thread>,
    joiners: seq<Joiner>,
    fault: bool)                  // "there are still waiters", or a list of a freed object touched

  datatype Step =
    | Create(addr: Addr)
    | Unlink(t: Tid)              // tc_die: LIST_REMOVE
    | Wake(t: Tid)                // tc_die: tc_waitq_wakeup_all(&tc->exit_waiters)
    | Post(t: Tid)                // tc_die: add_event_cr(EF_EXITING)
    | Free(t: Tid)                // tc_thread_free
    | Call(ref: Ref)
    | Lookup(j: Jid)
    | Resume(j: Jid, intr: bool)  // tc_scheduler returns
    | Leave(j: Jid)

  function IdOf(t: Tid): nat {
    t + 1
  }

  /** _thread_valid */
  predicate Valid(m: Sys, a: Addr, t: Tid) {
    t < |m.threads| && m.threads[t].addr == a && m.threads[t].life == Linked
  }

  predicate Guard(m: Sys, step: Step) {
    match step
    case Create(a) => forall t :: 0 <= t < |m.threads| && m.threads[t].life != Freed ==> m.threads[t].addr != a
    case Unlink(t) => t < |m.threads| && m.threads[t].life == Linked
    case Wake(t) => t < |m.threads| && m.threads[t].life == Unlinked
    case Post(t) => t < |m.threads| && m.threads[t].life == Woken
    case Free(t) => t < |m.threads| && m.threads[t].life == Posted
    case Call(_) => true
    case Lookup(j) => j < |m.joiners| && m.joiners[j].pc == Start
    case Resume(j, intr) => j < |m.joiners| && m.joiners[j].pc == Park && (intr || m.joiners[j].ev == Fired)
    case Leave(j) => j < |m.joiners| && m.joiners[j].pc == Finish
  }

  /** tc_waitq_wakeup_all */
  function Fire(joiners: seq<Joiner>, q: seq<Jid>): (r: seq<Joiner>)
    ensures |r| == |joiners|
  {
    seq(|joiners|, j requires 0 <= j < |joiners| => if j in q then joiners[j].(ev := Fired) else joiners[j])
  }

  function Live(m: Sys, t: Tid, life: Life): Sys
    requires t < |m.threads|
  {
    m.(threads := m.threads[t := m.threads[t].(life := life)])
  }

  /** The linked thread an address stands for, if there is one. */
  function Find(m: Sys, a: Addr, n: nat): (r: Option<Tid>)
    requires n <= |m.threads|
    ensures r.Some? ==> r.value < n && Valid(m, a, r.value)
    ensures r.None? ==> forall t :: 0 <= t < n ==> !Valid(m, a, t)
  {
    if n == 0 then None else if Valid(m, a, n - 1) then Some(n - 1) else Find(m, a, n - 1)
  }

  function Apply(m: Sys, step: Step): Sys
    requires Guard(m, step)
  {
    match step
    case Create(a) => m.(threads := m.threads + [Thread(a, Linked, [])])
    case Unlink(t) => Live(m, t, Unlinked)
    case Wake(t) =>
      m.(threads := m.threads[t := m.threads[t].(life := Woken, waiters := [])],
         joiners := Fire(m.joiners, m.threads[t].waiters))
    case Post(t) => Live(m, t, Posted)
    case Free(t) => if m.threads[t].waiters != [] then m.(fault := true) else Live(m, t, Freed)
    case Call(ref) => m.(joiners := m.joiners + [Joiner(ref, Start, Off, None)])
    case Lookup(j) => Looked(m, j)
    case Resume(j, intr) => m.(joiners := m.joiners[j := m.joiners[j].(pc := Finish)])
    case Leave(j) => Left(m, j)
  }

  function Looked(m: Sys, j: Jid): Sys
    requires j < |m.joiners|
  {
    var p := m.joiners[j];
    if p.ref.addr == None then m.(joiners := m.joiners[j := p.(pc := Done(Ok))])
    else match Find(m, p.ref.addr.value, |m.threads|)
      case None => m.(joiners := m.joiners[j := p.(pc := Done(ThreadNa))])
      case Some(t) =>
        if p.ref.id != 0 && IdOf(t) != p.ref.id then m.(joiners := m.joiners[j := p.(pc := Done(ThreadNa))])
        else m.(threads := m.threads[t := m.threads[t].(waiters := m.threads[t].waiters + [j])],
                joiners := m.joiners[j := p.(pc := Park, ev := Waiting, on := Some(t))])
  }

  /** tc_waitq_finish_wait: an event still on the waitqueue is taken off it */
  function Left(m: Sys, j: Jid): Sys
    requires j < |m.joiners|
  {
    var p := m.joiners[j];
    if p.ev == Fired then m.(joiners := m.joiners[j := p.(pc := Done(Ok), ev := Off)])
    else if p.on.None? || p.on.value >= |m.threads| || m.threads[p.on.value].life == Freed then m.(fault := true)
    else
      var t := p.on.value;
      m.(threads := m.threads[t := m.threads[t].(waiters := Without(m.threads[t].waiters, j))],
         joiners := m.joiners[j := p.(pc := Done(Intr), ev := Off)])
  }

  ghost predicate Execution(ms: seq<Sys>, steps: seq<Step>) {
    && |ms| == |steps| + 1 && ms[0] == Sys([], [], false)
    && forall i :: 0 <= i < |steps| ==> Guard(ms[i], steps[i]) && ms[i + 1] == Apply(ms[i], steps[i])
  }

  // ---------------------------------------------------------------- what every state satisfies

  /** Whoever has been woken may not get a waiter any more. */
  predicate Woke(life: Life) {
    life == Woken || life == Posted || life == Freed
  }

  ghost predicate ThreadInv(m: Sys, t: Tid)
    requires t < |m.threads|
  {
    && (Woke(m.threads[t].life) ==> m.threads[t].waiters == []) && Distinct(m.threads[t].waiters)
    && forall j :: j in m.threads[t].waiters ==> j < |m.joiners| && m.joiners[j].ev == Waiting && m.joiners[j].on == Some(t)
  }

  /** A call is on the exit_waiters of the thread its reference means, until that thread wakes it. */
  ghost predicate JoinerInv(m: Sys, j: Jid)
    requires j < |m.joiners|
  {
    var p := m.joiners[j];
    && (p.pc == Park || p.pc == Finish <==> p.ev != Off)
    && (p.ev != Off ==> p.on.Some?)
    && (p.pc == Start ==> p.on == None)
    && (p.pc == Done(Intr) ==> p.on.Some?)
    && (p.pc == Done(Ok) && p.ref.addr != None ==> p.on.Some?)
    && (p.on.Some? ==> OnInv(m, j, p, p.on.value))
  }

  ghost predicate OnInv(m: Sys, j: Jid, p: Joiner, t: Tid) {
    && t < |m.threads| && p.ref.addr == Some(m.threads[t].addr) && (p.ref.id != 0 ==> p.ref.id == IdOf(t))
    && (p.ev == Waiting ==> j in m.threads[t].waiters && !Woke(m.threads[t].life))
    && (p.ev == Fired || p.pc == Done(Ok) ==> Woke(m.threads[t].life))
  }

  ghost predicate Inv(m: Sys) {
    && !m.fault
    && (forall t :: 0 <= t < |m.threads| ==> ThreadInv(m, t))
    && (forall j :: 0 <= j < |m.joiners| ==> JoinerInv(m, j))
    && (forall s, t :: 0 <= s < t < |m.threads| && m.threads[s].life != Freed && m.threads[t].life != Freed
          ==> m.threads[s].addr != m.threads[t].addr)
  }

  // ---------------------------------------------------------------- every step keeps it

  lemma LifeStep(m: Sys, step: Step)
    requires Guard(m, step) && (step.Create? || step.Unlink? || step.Post? || step.Free?) && Inv(m)
    ensures Inv(Apply(m, step))
  {
    var m' := Apply(m, step);
    if !step.Create? { assert ThreadInv(m, step.t); }
    forall t | 0 <= t < |m'.threads| ensures ThreadInv(m', t) {
      if t < |m.threads| { assert ThreadInv(m, t); }
    }
    forall j | 0 <= j < |m'.joiners| ensures JoinerInv(m', j) { assert JoinerInv(m, j); }
  }

  lemma WakeStep(m: Sys, t: Tid)
    requires Guard(m, Wake(t)) && Inv(m)
    ensures Inv(Apply(m, Wake(t)))
  {
    var m' := Apply(m, Wake(t));
    forall s | 0 <= s < |m'.threads| ensures ThreadInv(m', s) {
      assert ThreadInv(m, s) && ThreadInv(m, t);
    }
    forall j | 0 <= j < |m'.joiners| ensures JoinerInv(m', j) {
      assert JoinerInv(m, j) && ThreadInv(m, t);
    }
  }

  lemma JoinStep(m: Sys, step: Step)
    requires Guard(m, step) && (step.Call? || step.Resume?) && Inv(m)
    ensures Inv(Apply(m, step))
  {
    var m' := Apply(m, step);
    forall t | 0 <= t < |m'.threads| ensures ThreadInv(m', t) { assert ThreadInv(m, t); }
    forall j | 0 <= j < |m'.joiners| ensures JoinerInv(m', j) {
      if j < |m.joiners| { assert JoinerInv(m, j); }
    }
  }

  lemma LookupStep(m: Sys, j: Jid)
    requires Guard(m, Lookup(j)) && Inv(m)
    ensures Inv(Looked(m, j))
  {
    var m' := Looked(m, j);
    assert JoinerInv(m, j);
    forall t | 0 <= t < |m'.threads| ensures ThreadInv(m', t) { assert ThreadInv(m, t); }
    forall k | 0 <= k < |m'.joiners| ensures JoinerInv(m', k) { assert JoinerInv(m, k); }
  }

  lemma LeaveStep(m: Sys, j: Jid)
    requires Guard(m, Leave(j)) && Inv(m)
    ensures Inv(Left(m, j))
  {
    var m' := Left(m, j);
    assert JoinerInv(m, j);
    var p := m.joiners[j];
    if p.ev == Waiting {
      assert ThreadInv(m, p.on.value);
      WithoutMembers(m.threads[p.on.value].waiters, j);
    }
    forall t | 0 <= t < |m'.threads| ensures ThreadInv(m', t) { assert ThreadInv(m, t); }
    forall k | 0 <= k < |m'.joiners| ensures JoinerInv(m', k) { assert JoinerInv(m, k); }
  }

  lemma StepKeeps(m: Sys, step: Step)
    requires Guard(m, step) && Inv(m)
    ensures Inv(Apply(m, step))
  {
    hide Inv, Looked, Left;
    match step
    case Create(_) => LifeStep(m, step);
    case Unlink(_) => LifeStep(m, step);
    case Wake(t) => WakeStep(m, t);
    case Post(_) => LifeStep(m, step);
    case Free(_) => LifeStep(m, step);
    case Call(_) => JoinStep(m, step);
    case Lookup(j) => LookupStep(m, j);
    case Resume(_, _) => JoinStep(m, step);
    case Leave(j) => LeaveStep(m, j);
  }

  lemma {:induction false} Reachable(ms: seq<Sys>, steps: seq<Step>, i: nat)
    requires Execution(ms, steps) && i < |ms|
    ensures Inv(ms[i])
  {
    if i > 0 {
      Reachable(ms, steps, i - 1);
      hide Inv;
      StepKeeps(ms[i - 1], steps[i - 1]);
    }
  }

  // ---------------------------------------------------------------- what it promises

  /** RV_OK means that the thread has left the domain's list and woken its waiters; with an id in
      the reference it is that very thread, whatever uses its address now. */
  lemma JoinedHasExited(ms: seq<Sys>, steps: seq<Step>, i: nat, j: Jid)
    requires Execution(ms, steps) && i < |ms| && j < |ms[i].joiners|
    requires ms[i].joiners[j].pc == Done(Ok) && ms[i].joiners[j].ref.addr.Some?
    ensures var m, p := ms[i], ms[i].joiners[j];
            && p.on.Some? && p.on.value < |m.threads|
            && m.threads[p.on.value].life != Linked && m.threads[p.on.value].life != Unlinked
            && m.threads[p.on.value].addr == p.ref.addr.value
            && (p.ref.id != 0 ==> IdOf(p.on.value) == p.ref.id)
  {
    Reachable(ms, steps, i);
    assert JoinerInv(ms[i], j);
  }

  /** No step gives a woken thread a waiter, and its memory is never freed with one. */
  lemma NoLateWaiter(ms: seq<Sys>, steps: seq<Step>, i: nat, t: Tid)
    requires Execution(ms, steps) && i < |ms| && t < |ms[i].threads| && Woke(ms[i].threads[t].life)
    ensures ms[i].threads[t].waiters == [] && !ms[i].fault
    ensures forall j :: 0 <= j < |ms[i].joiners| && ms[i].joiners[j].on == Some(t) ==> ms[i].joiners[j].ev != Waiting
  {
    Reachable(ms, steps, i);
    assert ThreadInv(ms[i], t);
    forall j | 0 <= j < |ms[i].joiners| && ms[i].joiners[j].on == Some(t) ensures ms[i].joiners[j].ev != Waiting {
      assert JoinerInv(ms[i], j);
    }
  }

  /** The linked thread at the address of the reference, if it has the id the reference asks for; a
      reference without id, as tc_thread_wait passes it, takes whoever is there. */
  predicate Meant(m: Sys, ref: Ref, t: Tid) {
    ref.addr.Some? && Valid(m, ref.addr.value, t) && (ref.id == 0 || ref.id == IdOf(t))
  }

  /** A call goes to sleep on the thread its reference means, of which there is one at most, or reports
      RV_THREAD_NA if there is none. */
  lemma LookupExact(ms: seq<Sys>, steps: seq<Step>, i: nat, j: Jid, t: Tid)
    requires Execution(ms, steps) && i < |ms| && Guard(ms[i], Lookup(j)) && ms[i].joiners[j].ref.addr.Some?
    ensures var m, ref := ms[i], ms[i].joiners[j].ref;
            var p := Looked(m, j).joiners[j];
            && (Meant(m, ref, t) <==> p.pc == Park && p.on == Some(t))
            && (p.pc == Done(ThreadNa) <==> forall u :: 0 <= u < |m.threads| ==> !Meant(m, ref, u))
            && (forall u :: Meant(m, ref, t) && Meant(m, ref, u) ==> u == t)
  {
    Reachable(ms, steps, i);
    var m, ref := ms[i], ms[i].joiners[j].ref;
    assert JoinerInv(m, j);
    var f := Find(m, ref.addr.value, |m.threads|);
    if f.Some? && (ref.id == 0 || ref.id == IdOf(f.value)) {
      assert Meant(m, ref, f.value);
    }
  }

  // ---------------------------------------------------------------- how a call ends

  /** What a step does to a call. */
  lemma CallStep(m: Sys, step: Step, j: Jid)
    requires Guard(m, step) && j < |m.joiners| && Inv(m)
    ensures j < |Apply(m, step).joiners|
    ensures var p, p' := m.joiners[j], Apply(m, step).joiners[j];
            && (p.pc == Start && step == Lookup(j) && p.ref.addr == None ==> p'.pc == Done(Ok))
            && (p.pc == Finish && step == Leave(j) ==> p'.pc == if p.ev == Fired then Done(Ok) else Done(Intr))
            && (p'.pc == Done(Intr) && p.pc != Done(Intr) ==> step == Leave(j) && p.pc == Finish && p.ev == Waiting)
            && (p'.pc == Finish && p'.ev == Waiting && p.pc != Finish ==> step == Resume(j, true) && p.pc == Park)
            && (p.pc == Finish && p'.pc == Finish && p'.ev == Waiting ==> p.ev == Waiting)
            && (p.pc.Done? ==> p'.pc == p.pc)
  {
    assert JoinerInv(m, j);
    if step.Wake? { assert ThreadInv(m, step.t); }
    hide Find, Without;
  }

  lemma BeganBefore(ms: seq<Sys>, steps: seq<Step>, i: nat, j: Jid)
    requires Execution(ms, steps) && i < |ms| && j < |ms[i].joiners| && ms[i].joiners[j].pc != Start
    ensures 0 < i <= |steps| && j < |ms[i - 1].joiners| && Guard(ms[i - 1], steps[i - 1]) && ms[i] == Apply(ms[i - 1], steps[i - 1])
  {
    hide Find, Without, Looked, Left;
    if i > 0 {
      var m, step := ms[i - 1], steps[i - 1];
      match step
      case Lookup(k) => LookedLength(m, k);
      case Leave(k) => LeftLength(m, k);
      case _ =>
    }
  }

  lemma LookedLength(m: Sys, j: Jid)
    requires j < |m.joiners|
    ensures |Looked(m, j).joiners| == |m.joiners|
  {
    hide Find;
  }

  lemma LeftLength(m: Sys, j: Jid)
    requires j < |m.joiners|
    ensures |Left(m, j).joiners| == |m.joiners|
  {
    hide Without;
  }

  /** A call that is about to finish with its event still waiting was resumed by a signal. */
  lemma {:induction false} ResumedBySignal(ms: seq<Sys>, steps: seq<Step>, i: nat, j: Jid) returns (h: nat)
    requires Execution(ms, steps) && i < |ms| && j < |ms[i].joiners| && ms[i].joiners[j].pc == Finish && ms[i].joiners[j].ev == Waiting
    ensures h < i && steps[h] == Resume(j, true)
  {
    hide Execution, Inv, Apply, Guard;
    BeganBefore(ms, steps, i, j);
    Reachable(ms, steps, i - 1);
    CallStep(ms[i - 1], steps[i - 1], j);
    if ms[i - 1].joiners[j].pc == Finish {
      h := ResumedBySignal(ms, steps, i - 1, j);
    } else {
      h := i - 1;
    }
  }

  /** tc_thread_wait_ref returns RV_INTR only because a signal woke the caller while the thread had not. */
  lemma {:induction false} IntrIsSignal(ms: seq<Sys>, steps: seq<Step>, i: nat, j: Jid) returns (h: nat, g: nat)
    requires Execution(ms, steps) && i < |ms| && j < |ms[i].joiners| && ms[i].joiners[j].pc == Done(Intr)
    ensures h < g < i && steps[h] == Resume(j, true) && steps[g] == Leave(j)
    ensures j < |ms[g].joiners| && ms[g].joiners[j].ev == Waiting
  {
    hide Execution, Inv, Apply, Guard;
    BeganBefore(ms, steps, i, j);
    Reachable(ms, steps, i - 1);
    CallStep(ms[i - 1], steps[i - 1], j);
    if ms[i - 1].joiners[j].pc == Done(Intr) {
      h, g := IntrIsSignal(ms, steps, i - 1, j);
    } else {
      g := i - 1;
      h := ResumedBySignal(ms, steps, g, j);
    }
  }
}

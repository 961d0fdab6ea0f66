/**
  How a worker is got out of epoll_wait when there is something on immediate (threaded_cr.c). The
  eventfd immediate_fd is written after an event was listed, but not always: a yield and the fd
  handler list events without a write. It is watched with EPOLLONESHOT, so it reports to one worker
  and is silent until that worker has read it and armed it again.

  One domain: its events on immediate, its eventfd, its workers. Other domains and other pthreads
  list events for it, too.
 */
module Alerting {
  type Wid = nat

  datatype Pass = Own | Free | Any

  /** Where a worker goes on when the thread it has switched to parks. */
  datatype Resume = Passed(left: nat, pass: Pass, did: bool) | Handled

  /** left: the rounds run_immediate may still do. */
  datatype Pc =
    | Round(left: nat, did: bool)               // run_immediate: before the test of its loop
    | Scan(left: nat, pass: Pass, did: bool)    // before or in _run_immediate
    | Running(back: Resume)                     // executes a tc_thread
    | Sleep(haveWork: bool)                  // before or in epoll_wait, which does not block if haveWork
    | FdEvent                                // has an fd event to handle
    | Alerted                                // epoll_wait has returned IWI_IMMEDIATE
    | Rearm                                  // rearm_immediate has read, before EPOLL_CTL_MOD

  datatype Domain = Domain(
    events: nat,             // events of this domain on immediate
    counter: nat,            // of immediate_fd; readable unless 0
    armed: bool,
    owed: nat,               // events listed by somebody who is about to write
    workers: seq<Pc>,
    fault: bool)             // the read of rearm_immediate would fail

  datatype Step =
    | Put                            // wakeup, new thread, exit: an event is listed
    | Alert                          // and then _iwi_immediate
    | Quiet(w: Wid)                  // tc_sched_yield, move_to_immediate: listed without a write
    | Iterate(w: Wid, few: bool)     // few: immediate_count is below the limit
    | Found(w: Wid, more: bool)      // the pass found a thread to run; more: events are left
    | Cleared(w: Wid, freed: bool)   // the pass took an event off: queued, or its thread freed
    | Missed(w: Wid)                 // _run_immediate returns 0
    | Parks(w: Wid)                  // the thread parks or exits
    | Report(w: Wid)                 // epoll_wait returns IWI_IMMEDIATE
    | Other(w: Wid, fd: bool)        // epoll_wait returns an fd event; or IWI_SYNC, IWI_ASYNC_IO, or at once
    | Handle(w: Wid, run: bool)      // the fd event is handled, with a thread to run or without
    | Read(w: Wid)
    | Arm(w: Wid)

  predicate At(d: Domain, w: Wid, pc: Pc) {
    w < |d.workers| && d.workers[w] == pc
  }

  predicate Guard(d: Domain, step: Step) {
    match step
    case Put => true
    case Alert => d.owed > 0
    case Quiet(w) => w < |d.workers| && (d.workers[w].Running? || d.workers[w].FdEvent?)
    case Iterate(w, _) => w < |d.workers| && d.workers[w].Round?
    case Found(w, more) => w < |d.workers| && d.workers[w].Scan? && d.events > 0 && (d.events > 1 ==> more)
    case Cleared(w, _) => w < |d.workers| && d.workers[w].Scan? && d.events > 0
    case Missed(w) => w < |d.workers| && d.workers[w].Scan? && (d.workers[w].pass == Any ==> d.events == 0)
    case Parks(w) => w < |d.workers| && d.workers[w].Running?
    case Report(w) => w < |d.workers| && d.workers[w].Sleep? && d.counter > 0 && d.armed
    case Other(w, fd) => w < |d.workers| && d.workers[w].Sleep?
    case Handle(w, _) => At(d, w, FdEvent)
    case Read(w) => At(d, w, Alerted)
    case Arm(w) => At(d, w, Rearm)
  }

  /** run_immediate after a pass: did is the first pass's own result, and or-ed with those of the others. */
  function After(left: nat, pass: Pass, did: bool, found: bool): Pc {
    match pass
    case Own => Scan(left, Free, found)
    case Free => Scan(left, Any, found || did)
    case Any => Round(left, found || did)
  }

  /** The top of the loop of scheduler_part2 */
  const TOP: Pc := Round(4, true)

  function Move(d: Domain, w: Wid, pc: Pc): Domain
    requires w < |d.workers|
  {
    d.(workers := d.workers[w := pc])
  }

  function Apply(d: Domain, step: Step): Domain
    requires Guard(d, step)
  {
    match step
    case Put => d.(events := d.events + 1, owed := d.owed + 1)
    case Alert => d.(owed := d.owed - 1, counter := d.counter + 1)
    case Quiet(_) => d.(events := d.events + 1)
    case Iterate(w, few) =>
      var Round(left, did) := d.workers[w];
      Move(d, w, if !did || left == 0 then Sleep(did) else Scan(left - 1, if few then Own else Any, did))
    case Found(w, more) =>
      var Scan(left, pass, did) := d.workers[w];
      Move(d, w, Running(Passed(left, pass, did))).(events := d.events - 1, counter := d.counter + (if more then 1 else 0))
    case Cleared(_, freed) => d.(events := d.events - 1, counter := d.counter + (if freed then 1 else 0))
    case Missed(w) =>
      var Scan(left, pass, did) := d.workers[w];
      Move(d, w, After(left, pass, did, false))
    case Parks(w) =>
      (match d.workers[w].back
       case Passed(left, pass, did) => Move(d, w, After(left, pass, did, true))
       case Handled => Move(d, w, TOP))
    case Report(w) => Move(d, w, Alerted).(armed := false)
    case Other(w, fd) => Move(d, w, if fd then FdEvent else TOP)
    case Handle(w, run) => Move(d, w, if run then Running(Handled) else TOP)
    case Read(w) => if d.counter == 0 then d.(fault := true) else Move(d, w, Rearm).(counter := 0)
    case Arm(w) => Move(d, w, TOP).(armed := true)
  }

  ghost predicate Init(d: Domain) {
    && d.events == 0 && d.counter == 0 && d.armed && d.owed == 0 && !d.fault
    && forall w :: 0 <= w < |d.workers| ==> d.workers[w] == TOP
  }

  ghost predicate Execution(ds: seq<Domain>, steps: seq<Step>) {
    && |ds| == |steps| + 1 && Init(ds[0])
    && forall i :: 0 <= i < |steps| ==> Guard(ds[i], steps[i]) && ds[i + 1] == Apply(ds[i], steps[i])
  }

  // ---------------------------------------------------------------- what every state satisfies

  /** Has taken the report and not armed the eventfd again. */
  predicate Silences(pc: Pc) {
    pc == Alerted || pc == Rearm
  }

  /** Will look through all of immediate before it blocks in epoll_wait. */
  predicate Looks(pc: Pc) {
    pc != Sleep(false) && !(pc.Round? && !pc.did)
  }

  ghost predicate SomeLooks(d: Domain) {
    exists w :: 0 <= w < |d.workers| && Looks(d.workers[w])
  }

  ghost predicate Inv(d: Domain) {
    && !d.fault
    && (d.events > 0 ==> d.owed > 0 || (d.counter > 0 && d.armed) || SomeLooks(d))
    && (!d.armed ==> exists w :: 0 <= w < |d.workers| && Silences(d.workers[w]))
    && (forall w :: 0 <= w < |d.workers| && Silences(d.workers[w]) ==> !d.armed)
    && (forall v, w :: 0 <= v < w < |d.workers| ==> !(Silences(d.workers[v]) && Silences(d.workers[w])))
    && (forall w :: 0 <= w < |d.workers| && d.workers[w] == Alerted ==> d.counter > 0)
  }

  /** Somebody other than w looks, or w does after the step. */
  lemma LooksStays(d: Domain, d': Domain, w: Wid)
    requires w < |d.workers| == |d'.workers| && d'.workers == d.workers[w := d'.workers[w]]
    requires Looks(d.workers[w]) ==> Looks(d'.workers[w])
    ensures SomeLooks(d) ==> SomeLooks(d')
  {
    if SomeLooks(d) {
      var v :| 0 <= v < |d.workers| && Looks(d.workers[v]);
      assert Looks(d'.workers[v]);
    }
  }

  /** A step of worker w that has no part in arming. */
  lemma WorkerStep(d: Domain, d': Domain, w: Wid)
    requires Inv(d) && w < |d.workers| == |d'.workers| && d'.workers == d.workers[w := d'.workers[w]]
    requires d'.armed == d.armed && d'.owed == d.owed && d'.fault == d.fault && d'.counter >= d.counter
    requires !Silences(d.workers[w]) && !Silences(d'.workers[w])
    requires d'.events <= d.events || Looks(d.workers[w])
    requires d'.events == 0 || (Looks(d.workers[w]) ==> Looks(d'.workers[w]))
    ensures Inv(d')
  {
    if !d.armed {
      var v :| 0 <= v < |d.workers| && Silences(d.workers[v]);
      assert Silences(d'.workers[v]);
    }
    if d'.events > 0 {
      LooksStays(d, d', w);
      if Looks(d.workers[w]) { assert Looks(d'.workers[w]); }
    }
  }

  lemma ReportStep(d: Domain, w: Wid)
    requires Inv(d) && Guard(d, Report(w))
    ensures Inv(Apply(d, Report(w)))
  {
    var d' := Apply(d, Report(w));
    assert Silences(d'.workers[w]) && Looks(d'.workers[w]);
  }

  lemma ReadStep(d: Domain, w: Wid)
    requires Inv(d) && Guard(d, Read(w))
    ensures Inv(Apply(d, Read(w)))
  {
    var d' := Apply(d, Read(w));
    assert Silences(d.workers[w]) && Silences(d'.workers[w]) && Looks(d'.workers[w]);
  }

  lemma ArmStep(d: Domain, w: Wid)
    requires Inv(d) && Guard(d, Arm(w))
    ensures Inv(Apply(d, Arm(w)))
  {
    var d' := Apply(d, Arm(w));
    assert Silences(d.workers[w]) && Looks(d'.workers[w]);
  }

  lemma PutStep(d: Domain, step: Step)
    requires Inv(d) && Guard(d, step) && (step.Put? || step.Alert?)
    ensures Inv(Apply(d, step))
  {
    var d' := Apply(d, step);
    if !d.armed {
      var v :| 0 <= v < |d.workers| && Silences(d.workers[v]);
      assert Silences(d'.workers[v]) && Looks(d'.workers[v]);
    }
    if SomeLooks(d) {
      var v :| 0 <= v < |d.workers| && Looks(d.workers[v]);
      assert Looks(d'.workers[v]);
    }
  }

  lemma StepKeeps(d: Domain, step: Step)
    requires Guard(d, step) && Inv(d)
    ensures Inv(Apply(d, step))
  {
    match step
    case Put => PutStep(d, step);
    case Alert => PutStep(d, step);
    case Report(w) => ReportStep(d, w);
    case Read(w) => ReadStep(d, w);
    case Arm(w) => ArmStep(d, w);
    case _ =>
      hide Inv;
      WorkerStep(d, Apply(d, step), step.w);
  }

  lemma {:induction false} Reachable(ds: seq<Domain>, steps: seq<Step>, i: nat)
    requires Execution(ds, steps) && i < |ds|
    ensures Inv(ds[i])
  {
    if i > 0 {
      Reachable(ds, steps, i - 1);
      hide Inv;
      StepKeeps(ds[i - 1], steps[i - 1]);
    }
  }

  // ---------------------------------------------------------------- what it promises

  /** A worker ceases to look only by going through all of immediate and finding nothing. */
  lemma LooksUntilEmpty(d: Domain, step: Step, w: Wid)
    requires Guard(d, step) && w < |d.workers| && Looks(d.workers[w])
    ensures |Apply(d, step).workers| == |d.workers|
    ensures !Looks(Apply(d, step).workers[w]) ==> step == Missed(w) && d.workers[w].pass == Any && d.events == 0
  {
  }

  /** While an event of the domain is on immediate, a worker is up and will look at all of immediate
      before it blocks, or the eventfd is readable and armed, or somebody is about to write it. */
  lemma NobodyOversleeps(ds: seq<Domain>, steps: seq<Step>, i: nat)
    requires Execution(ds, steps) && i < |ds| && ds[i].events > 0
    ensures || (exists w :: 0 <= w < |ds[i].workers| && Looks(ds[i].workers[w]))
            || (ds[i].counter > 0 && ds[i].armed)
            || ds[i].owed > 0
  {
    Reachable(ds, steps, i);
  }

  /** With all workers blocked in epoll_wait and no write outstanding, the report is due. */
  lemma SleepersAreWoken(ds: seq<Domain>, steps: seq<Step>, i: nat, w: Wid)
    requires Execution(ds, steps) && i < |ds| && ds[i].events > 0 && ds[i].owed == 0
    requires w < |ds[i].workers| && forall v :: 0 <= v < |ds[i].workers| ==> ds[i].workers[v] == Sleep(false)
    ensures Guard(ds[i], Report(w))
  {
    Reachable(ds, steps, i);
  }

  /** One worker at most handles a report, and its read finds something. */
  lemma OneReport(ds: seq<Domain>, steps: seq<Step>, i: nat)
    requires Execution(ds, steps) && i < |ds|
    ensures !ds[i].fault
    ensures forall v, w :: 0 <= v < w < |ds[i].workers| ==> !(Silences(ds[i].workers[v]) && Silences(ds[i].workers[w]))
    ensures ds[i].armed <==> forall w :: 0 <= w < |ds[i].workers| ==> !Silences(ds[i].workers[w])
  {
    Reachable(ds, steps, i);
  }

  /** A round in which all three passes find immediate empty ends in a blocking epoll_wait. */
  lemma EmptyRoundSleeps(d: Domain, w: Wid)
    requires w < |d.workers| && d.workers[w].Round? && d.workers[w].did && d.workers[w].left > 0 && d.events == 0
    ensures var d1 := Apply(d, Iterate(w, true));
            && Guard(d1, Missed(w))
            && var d2 := Apply(d1, Missed(w));
               && Guard(d2, Missed(w))
               && var d3 := Apply(d2, Missed(w));
                  && Guard(d3, Missed(w))
                  && var d4 := Apply(d3, Missed(w));
                     && Guard(d4, Iterate(w, true))
                     && At(Apply(d4, Iterate(w, true)), w, Sleep(false))
  {
  }

  // ---------------------------------------------------------------- lookers get there

  /** In, or about to enter, the pass over all of immediate. */
  predicate LooksAtAll(pc: Pc) {
    pc.Scan? && pc.pass == Any
  }

  /** How many of its own moves a looker is from that, at most. */
  function Distance(pc: Pc): nat {
    match pc
    case Scan(_, Any, _) => 0
    case Scan(_, Free, _) => 2
    case Scan(_, Own, _) => 4
    case Round(left, _) => if left > 0 then 5 else 9
    case Running(Passed(left, pass, _)) => (match pass case Own => 3 case Free => 1 case Any => if left > 0 then 6 else 10)
    case Running(Handled) => 6
    case Sleep(_) => 8
    case FdEvent => 7
    case Alerted => 7
    case Rearm => 6
  }

  /** A step by which worker w gets on; it stays where it is when it lists an event or takes one off. */
  predicate GetsOn(step: Step, w: Wid) {
    !step.Put? && !step.Alert? && !step.Quiet? && !step.Cleared? && step.w == w
  }

  lemma DistanceStep(d: Domain, step: Step, w: Wid)
    requires Guard(d, step) && Inv(d) && w < |d.workers| && Looks(d.workers[w])
    ensures w < |Apply(d, step).workers|
    ensures var pc, pc' := d.workers[w], Apply(d, step).workers[w];
            if GetsOn(step, w) then LooksAtAll(pc) || (Looks(pc') && Distance(pc') < Distance(pc)) else pc' == pc
  {
    if step.Read? { assert d.workers[step.w] == Alerted ==> d.counter > 0; }
  }

  function Moves(steps: seq<Step>, w: Wid, i: nat, j: nat): nat
    requires i <= j <= |steps|
    decreases j
  {
    if i == j then 0 else Moves(steps, w, i, j - 1) + (if GetsOn(steps[j - 1], w) then 1 else 0)
  }

  lemma {:induction false} MovesDown(ds: seq<Domain>, steps: seq<Step>, i: nat, j: nat, w: Wid)
    requires Execution(ds, steps) && i <= j <= |steps| < |ds| && w < |ds[i].workers| && Looks(ds[i].workers[w])
    requires forall k :: i <= k < j && w < |ds[k].workers| ==> !LooksAtAll(ds[k].workers[w])
    ensures w < |ds[j].workers| && Looks(ds[j].workers[w])
    ensures Moves(steps, w, i, j) + Distance(ds[j].workers[w]) <= Distance(ds[i].workers[w])
    decreases j
  {
    hide Execution, Inv, Apply, Guard, Distance, GetsOn, Looks, LooksAtAll;
    if i < j {
      MovesDown(ds, steps, i, j - 1, w);
      Reachable(ds, steps, j - 1);
      StepAt(ds, steps, j - 1);
      DistanceStep(ds[j - 1], steps[j - 1], w);
    }
  }

  lemma StepAt(ds: seq<Domain>, steps: seq<Step>, k: nat)
    requires Execution(ds, steps) && k < |steps|
    ensures |ds| == |steps| + 1 && Guard(ds[k], steps[k]) && ds[k + 1] == Apply(ds[k], steps[k])
  {
    hide Apply, Guard, Init;
  }

  /** A worker that looks comes to the pass over all of immediate within ten of its own moves. */
  lemma LookersLook(ds: seq<Domain>, steps: seq<Step>, i: nat, j: nat, w: Wid)
    requires Execution(ds, steps) && i <= j <= |steps| && w < |ds[i].workers| && Looks(ds[i].workers[w])
    requires Moves(steps, w, i, j) > 10
    ensures exists k :: i <= k < j && w < |ds[k].workers| && LooksAtAll(ds[k].workers[w])
  {
    if forall k :: i <= k < j && w < |ds[k].workers| ==> !LooksAtAll(ds[k].workers[w]) {
      MovesDown(ds, steps, i, j, w);
      assert false;
    }
  }
}

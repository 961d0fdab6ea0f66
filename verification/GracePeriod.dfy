/**
  Deferred free of a tc_fd (threaded_cr.c): a worker in epoll_wait may still be handed an
  fd that is being unregistered, so the memory is released only after every worker that
  was in the sleeping section at that time has left it.
 */
module GracePeriod {
  import opened Common

  type Wid = nat
  type Fdid = nat

  datatype Flags = Flags(onList: bool, mustSync: bool)

  /** What sync_lock protects. */
  datatype Sync = Sync(ring: seq<Wid>, flags: seq<Flags>, barrier: int, freeList: seq<Fdid>)

  // ---------------------------------------------------------------- the three locked sections

  /** worker_prepare_sleep */
  function PrepareSleep(y: Sync, w: Wid): Sync
    requires w < |y.flags|
  {
    y.(ring := if y.flags[w].onList then y.ring else [w] + y.ring,
       flags := y.flags[w := y.flags[w].(onList := true)])
  }

  /** worker_after_sleep: the new state, and what _process_free_list is to free */
  function AfterSleep(y: Sync, w: Wid): (Sync, seq<Fdid>)
    requires w < |y.flags|
  {
    var ring := if y.flags[w].onList then Without(y.ring, w) else y.ring;
    var flags := y.flags[w := Flags(false, false)];
    if !y.flags[w].mustSync then (Sync(ring, flags, y.barrier, y.freeList), [])
    else if y.barrier - 1 == 0 then (Sync(ring, flags, 0, []), y.freeList)
    else (Sync(ring, flags, y.barrier - 1, y.freeList), [])
  }

  /** The loop over the sleeping workers. */
  function Mark(flags: seq<Flags>, barrier: int, ring: seq<Wid>): (r: (seq<Flags>, int))
    requires forall i :: 0 <= i < |ring| ==> ring[i] < |flags|
    ensures |r.0| == |flags|
    decreases |ring|
  {
    if ring == [] then (flags, barrier)
    else if flags[ring[0]].mustSync then Mark(flags, barrier, ring[1..])
    else Mark(flags[ring[0] := Flags(false, true)], barrier + 1, ring[1..])
  }

  /** store_for_later_free */
  function Store(y: Sync, f: Fdid): (Sync, seq<Fdid>)
    requires forall i :: 0 <= i < |y.ring| ==> y.ring[i] < |y.flags|
  {
    var list := [f] + y.freeList;
    var (flags, barrier) := Mark(y.flags, y.barrier, y.ring);
    if barrier != 0 then (Sync([], flags, barrier, list), []) else (Sync([], flags, barrier, []), list)
  }

  // ---------------------------------------------------------------- the domain

  datatype Stage = Registered | Leaving | Listed | Draining | Freed

  /** inside: between worker_prepare_sleep and worker_after_sleep; hold: the fd epoll_wait returned. */
  datatype Worker = Worker(inside: bool, hold: Option<Fdid>)

  datatype Domain = Domain(
    sync: Sync,
    workers: seq<Worker>,
    stage: map<Fdid, Stage>,
    draining: seq<Fdid>,      // taken off the free list, not yet freed
    freed: seq<Fdid>)         // in the order of the free() calls

  datatype Step =
    | Register(f: Fdid)                 // tc_register_fd
    | Delete(f: Fdid)                   // EPOLL_CTL_DEL in _tc_fd_unregister
    | StoreFree(f: Fdid)                // store_for_later_free
    | EnterSleep(w: Wid)                // worker_prepare_sleep
    | Fetch(w: Wid, f: Fdid)            // epoll_wait returns an fd it knows
    | LeaveSleep(w: Wid)                // worker_after_sleep
    | FreeOne(i: nat)                   // one _tc_fd_free of _process_free_list

  predicate Guard(d: Domain, step: Step) {
    match step
    case Register(f) => f !in d.stage
    case Delete(f) => f in d.stage && d.stage[f] == Registered
    case StoreFree(f) => f in d.stage && d.stage[f] == Leaving
    case EnterSleep(w) => w < |d.workers| && !d.workers[w].inside
    case Fetch(w, f) =>
      w < |d.workers| && d.workers[w].inside && d.workers[w].hold.None? && f in d.stage && d.stage[f] == Registered
    case LeaveSleep(w) => w < |d.workers| && d.workers[w].inside
    case FreeOne(i) => i < |d.draining|
  }

  /** The ring names workers of the domain. */
  predicate Sane(d: Domain) {
    && |d.sync.flags| == |d.workers|
    && forall i :: 0 <= i < |d.sync.ring| ==> d.sync.ring[i] < |d.workers|
  }

  function Advance(stage: map<Fdid, Stage>, q: seq<Fdid>, to: Stage): map<Fdid, Stage> {
    map f | f in stage :: if f in q then to else stage[f]
  }

  function Apply(d: Domain, step: Step): Domain
    requires Sane(d) && Guard(d, step)
  {
    match step
    case Register(f) => d.(stage := d.stage[f := Registered])
    case Delete(f) => d.(stage := d.stage[f := Leaving])
    case StoreFree(f) =>
      var (y, out) := Store(d.sync, f);
      d.(sync := y, stage := Advance(d.stage[f := Listed], out, Draining), draining := d.draining + out)
    case EnterSleep(w) =>
      d.(sync := PrepareSleep(d.sync, w), workers := d.workers[w := Worker(true, None)])
    case Fetch(w, f) => d.(workers := d.workers[w := d.workers[w].(hold := Some(f))])
    case LeaveSleep(w) =>
      var (y, out) := AfterSleep(d.sync, w);
      d.(sync := y, workers := d.workers[w := Worker(false, None)],
         stage := Advance(d.stage, out, Draining), draining := d.draining + out)
    case FreeOne(i) =>
      d.(stage := d.stage[d.draining[i] := Freed],
         draining := d.draining[..i] + d.draining[i + 1..], freed := d.freed + [d.draining[i]])
  }

  ghost predicate Init(d: Domain) {
    && d.sync.ring == [] && d.sync.barrier == 0 && d.sync.freeList == []
    && |d.sync.flags| == |d.workers|
    && (forall w :: 0 <= w < |d.workers| ==> d.workers[w] == Worker(false, None) && d.sync.flags[w] == Flags(false, false))
    && d.stage == map[] && d.draining == [] && d.freed == []
  }

  ghost predicate Run(ds: seq<Domain>, steps: seq<Step>) {
    && |ds| == |steps| + 1 && Init(ds[0])
    && forall i :: 0 <= i < |steps| ==> Sane(ds[i]) && Guard(ds[i], steps[i]) && ds[i + 1] == Apply(ds[i], steps[i])
  }

  // ---------------------------------------------------------------- what every state satisfies

  function Syncing(flags: seq<Flags>): nat {
    if flags == [] then 0
    else Syncing(flags[..|flags| - 1]) + (if flags[|flags| - 1].mustSync then 1 else 0)
  }

  /** A worker in the section is on the ring or has to sync, never both; outside it is neither. */
  ghost predicate WorkerInv(d: Domain, w: Wid)
    requires w < |d.workers| && |d.sync.flags| == |d.workers|
  {
    && (d.workers[w].inside <==> (d.sync.flags[w].onList || d.sync.flags[w].mustSync))
    && !(d.sync.flags[w].onList && d.sync.flags[w].mustSync)
    && (d.sync.flags[w].onList <==> w in d.sync.ring)
    && (d.workers[w].hold.Some? ==> d.workers[w].inside && HoldInv(d, w, d.workers[w].hold.value))
  }

  /** A held fd has not been let go; once it is on the free list, its holder has to sync. */
  ghost predicate HoldInv(d: Domain, w: Wid, f: Fdid)
    requires w < |d.sync.flags|
  {
    && f in d.stage
    && (d.stage[f] == Registered || d.stage[f] == Leaving || (d.stage[f] == Listed && d.sync.flags[w].mustSync))
  }

  ghost predicate StageInv(d: Domain, f: Fdid) {
    && (f in d.sync.freeList <==> f in d.stage && d.stage[f] == Listed)
    && (f in d.draining <==> f in d.stage && d.stage[f] == Draining)
    && (f in d.freed <==> f in d.stage && d.stage[f] == Freed)
  }

  ghost predicate Inv(d: Domain) {
    && Sane(d)
    && Distinct(d.sync.ring)
    && (forall w :: 0 <= w < |d.workers| ==> WorkerInv(d, w))
    && d.sync.barrier == Syncing(d.sync.flags)
    && (d.sync.barrier == 0 ==> d.sync.freeList == [])
    && (forall f :: StageInv(d, f))
    && Distinct(d.sync.freeList) && Distinct(d.draining) && Distinct(d.freed)
  }

  // ---------------------------------------------------------------- lists and counts

  lemma {:induction false} SyncingUpdate(flags: seq<Flags>, w: Wid, fl: Flags)
    requires w < |flags|
    ensures Syncing(flags[w := fl]) == Syncing(flags) - (if flags[w].mustSync then 1 else 0) + (if fl.mustSync then 1 else 0)
  {
    var n := |flags| - 1;
    if w == n {
      assert flags[w := fl][..n] == flags[..n];
    } else {
      assert flags[w := fl][..n] == flags[..n][w := fl];
      SyncingUpdate(flags[..n], w, fl);
    }
  }

  lemma {:induction false} SyncingZero(flags: seq<Flags>)
    ensures Syncing(flags) == 0 <==> forall w :: 0 <= w < |flags| ==> !flags[w].mustSync
  {
    if flags != [] {
      var n := |flags| - 1;
      SyncingZero(flags[..n]);
      assert forall w :: 0 <= w < n ==> flags[w] == flags[..n][w];
    }
  }

  /** The loop marks the sleepers that were not marked, and counts them. */
  lemma {:induction false} MarkSpec(flags: seq<Flags>, barrier: int, ring: seq<Wid>)
    requires forall i :: 0 <= i < |ring| ==> ring[i] < |flags|
    ensures var (flags', barrier') := Mark(flags, barrier, ring);
            && barrier' - Syncing(flags') == barrier - Syncing(flags)
            && forall w :: 0 <= w < |flags| ==>
                 flags'[w] == if w in ring && !flags[w].mustSync then Flags(false, true) else flags[w]
    decreases |ring|
  {
    if ring != [] {
      assert ring == [ring[0]] + ring[1..];
      if flags[ring[0]].mustSync {
        MarkSpec(flags, barrier, ring[1..]);
      } else {
        SyncingUpdate(flags, ring[0], Flags(false, true));
        MarkSpec(flags[ring[0] := Flags(false, true)], barrier + 1, ring[1..]);
      }
    }
  }

  // ---------------------------------------------------------------- every step keeps it

  /** Whoever is in the section has to sync once a store has gone over the ring. */
  lemma StoreWorker(d: Domain, f: Fdid, d': Domain, w: Wid)
    requires Inv(d) && Guard(d, StoreFree(f)) && d' == Apply(d, StoreFree(f)) && w < |d.workers|
    ensures WorkerInv(d', w)
    ensures d.workers[w].inside ==> d'.sync.flags[w].mustSync
  {
    MarkSpec(d.sync.flags, d.sync.barrier, d.sync.ring);
    SyncingZero(d'.sync.flags);
    assert WorkerInv(d, w);
    if d.workers[w].hold.Some? {
      var h := d.workers[w].hold.value;
      assert StageInv(d, h) && StageInv(d, f);
    }
  }

  lemma StoreStep(d: Domain, f: Fdid)
    requires Inv(d) && Guard(d, StoreFree(f))
    ensures Inv(Apply(d, StoreFree(f)))
  {
    var d' := Apply(d, StoreFree(f));
    forall w | 0 <= w < |d'.workers| ensures WorkerInv(d', w) { StoreWorker(d, f, d', w); }
    MarkSpec(d.sync.flags, d.sync.barrier, d.sync.ring);
    StoreStages(d, f, d');
  }

  lemma StoreStages(d: Domain, f: Fdid, d': Domain)
    requires (forall g :: StageInv(d, g)) && Sane(d) && Guard(d, StoreFree(f)) && d' == Apply(d, StoreFree(f))
    requires Distinct(d.sync.freeList) && Distinct(d.draining)
    ensures forall g :: StageInv(d', g)
    ensures Distinct(d'.sync.freeList) && Distinct(d'.draining)
  {
    hide Mark;
    assert StageInv(d, f);
    forall g ensures StageInv(d', g) { assert StageInv(d, g); }
    var list := [f] + d.sync.freeList;
    assert Distinct(list);
    forall i, j | 0 <= i < |d.draining| && 0 <= j < |list| ensures d.draining[i] != list[j] {
      assert StageInv(d, d.draining[i]) && d.draining[i] in d.draining && list[j] in list;
    }
  }

  lemma LeaveStep(d: Domain, w: Wid)
    requires Inv(d) && Guard(d, LeaveSleep(w))
    ensures Inv(Apply(d, LeaveSleep(w)))
  {
    var d' := Apply(d, LeaveSleep(w));
    WithoutMembers(d.sync.ring, w);
    SyncingUpdate(d.sync.flags, w, Flags(false, false));
    SyncingZero(d'.sync.flags);
    forall v | 0 <= v < |d'.workers| ensures WorkerInv(d', v) { LeaveWorker(d, w, d', v); }
    forall i | 0 <= i < |d'.sync.ring| ensures d'.sync.ring[i] < |d'.workers| {
      assert d'.sync.ring[i] in d'.sync.ring;
    }
    LeaveStages(d, w, d');
  }

  /** The last one to sync finds no holder of a listed fd. */
  lemma LeaveWorker(d: Domain, w: Wid, d': Domain, v: Wid)
    requires Inv(d) && Guard(d, LeaveSleep(w)) && d' == Apply(d, LeaveSleep(w)) && v < |d.workers|
    ensures WorkerInv(d', v)
  {
    WithoutMembers(d.sync.ring, w);
    SyncingUpdate(d.sync.flags, w, Flags(false, false));
    SyncingZero(d'.sync.flags);
    assert WorkerInv(d, v) && WorkerInv(d, w);
    if d.workers[v].hold.Some? {
      assert StageInv(d, d.workers[v].hold.value);
    }
  }

  lemma LeaveStages(d: Domain, w: Wid, d': Domain)
    requires (forall g :: StageInv(d, g)) && Sane(d) && Guard(d, LeaveSleep(w)) && d' == Apply(d, LeaveSleep(w))
    requires Distinct(d.sync.freeList) && Distinct(d.draining)
    ensures forall g :: StageInv(d', g)
    ensures Distinct(d'.sync.freeList) && Distinct(d'.draining)
  {
    forall g ensures StageInv(d', g) { assert StageInv(d, g); }
    var list := d.sync.freeList;
    forall i, j | 0 <= i < |d.draining| && 0 <= j < |list| ensures d.draining[i] != list[j] {
      assert StageInv(d, d.draining[i]) && d.draining[i] in d.draining && list[j] in list;
    }
  }

  lemma EnterStep(d: Domain, w: Wid)
    requires Inv(d) && Guard(d, EnterSleep(w))
    ensures Inv(Apply(d, EnterSleep(w)))
  {
    var d' := Apply(d, EnterSleep(w));
    SyncingUpdate(d.sync.flags, w, d.sync.flags[w].(onList := true));
    assert WorkerInv(d, w);
    forall v | 0 <= v < |d'.workers| ensures WorkerInv(d', v) { assert WorkerInv(d, v); }
    forall g ensures StageInv(d', g) { assert StageInv(d, g); }
  }

  lemma FreeStep(d: Domain, i: nat)
    requires Inv(d) && Guard(d, FreeOne(i))
    ensures Inv(Apply(d, FreeOne(i)))
    ensures d.draining[i] !in d.freed && forall w :: 0 <= w < |d.workers| ==> d.workers[w].hold != Some(d.draining[i])
  {
    var d' := Apply(d, FreeOne(i));
    var f := d.draining[i];
    assert f in d.draining && StageInv(d, f);
    forall w | 0 <= w < |d'.workers| ensures WorkerInv(d', w) && d.workers[w].hold != Some(f) { assert WorkerInv(d, w); }
    forall g ensures StageInv(d', g) {
      assert StageInv(d, g);
      if g in d.draining && g != f {
        var j :| 0 <= j < |d.draining| && d.draining[j] == g;
        assert d'.draining[if j < i then j else j - 1] == g;
      }
    }
  }

  lemma StepKeeps(d: Domain, step: Step)
    requires Inv(d) && Guard(d, step)
    ensures Inv(Apply(d, step))
  {
    match step
    case StoreFree(f) => StoreStep(d, f);
    case EnterSleep(w) => EnterStep(d, w);
    case LeaveSleep(w) => LeaveStep(d, w);
    case FreeOne(i) => FreeStep(d, i);
    case Register(f) => StageStep(d, step, f);
    case Delete(f) => StageStep(d, step, f);
    case Fetch(w, f) => StageStep(d, step, f);
  }

  lemma StageStep(d: Domain, step: Step, f: Fdid)
    requires Inv(d) && Guard(d, step) && (step == Register(f) || step == Delete(f) || (step.Fetch? && step.f == f))
    ensures Inv(Apply(d, step))
  {
    var d' := Apply(d, step);
    assert StageInv(d, f);
    forall w | 0 <= w < |d'.workers| ensures WorkerInv(d', w) { assert WorkerInv(d, w); }
    forall g ensures StageInv(d', g) { assert StageInv(d, g); }
  }

  lemma InitGood(d: Domain)
    requires Init(d)
    ensures Inv(d)
  {
    SyncingZero(d.sync.flags);
    forall f ensures StageInv(d, f) {}
  }

  lemma {:induction false} Reachable(ds: seq<Domain>, steps: seq<Step>, i: nat)
    requires Run(ds, steps) && i < |ds|
    ensures Inv(ds[i])
  {
    if i == 0 {
      InitGood(ds[0]);
    } else {
      Reachable(ds, steps, i - 1);
      hide Inv;
      StepKeeps(ds[i - 1], steps[i - 1]);
    }
  }

  // ---------------------------------------------------------------- what it promises

  /** In no run is a tc_fd freed that a worker still has in hand, and none is freed twice. */
  lemma NoUseAfterFree(ds: seq<Domain>, steps: seq<Step>, i: nat)
    requires Run(ds, steps) && i < |steps| && steps[i].FreeOne?
    ensures var f := ds[i].draining[steps[i].i];
            && (forall w :: 0 <= w < |ds[i].workers| ==> ds[i].workers[w].hold != Some(f))
            && f !in ds[i].freed
  {
    Reachable(ds, steps, i);
    FreeStep(ds[i], steps[i].i);
  }

  /** What a worker has in hand is neither freed nor about to be. */
  lemma HeldIsAlive(ds: seq<Domain>, steps: seq<Step>, i: nat, w: Wid)
    requires Run(ds, steps) && i < |ds| && w < |ds[i].workers| && ds[i].workers[w].hold.Some?
    ensures var f := ds[i].workers[w].hold.value;
            && f !in ds[i].freed && f !in ds[i].draining
            && (f in ds[i].sync.freeList ==> w < |ds[i].sync.flags| && ds[i].sync.flags[w].mustSync)
  {
    Reachable(ds, steps, i);
    assert WorkerInv(ds[i], w) && StageInv(ds[i], ds[i].workers[w].hold.value);
  }

  /** The barrier counts the workers that have to sync; when none has to, nothing waits to be freed;
      nobody on the ring has to sync, so the test in store_for_later_free never fails. */
  lemma BarrierExact(ds: seq<Domain>, steps: seq<Step>, i: nat)
    requires Run(ds, steps) && i < |ds|
    ensures var y := ds[i].sync;
            && y.barrier == Syncing(y.flags)
            && ((forall w :: 0 <= w < |y.flags| ==> !y.flags[w].mustSync) ==> y.freeList == [])
            && Distinct(y.ring)
            && (forall w :: w in y.ring <==> 0 <= w < |y.flags| && y.flags[w].onList)
            && (forall w :: w in y.ring ==> w < |y.flags| && !y.flags[w].mustSync)
            && Distinct(ds[i].freed)
  {
    Reachable(ds, steps, i);
    var d := ds[i];
    SyncingZero(d.sync.flags);
    forall w: Wid ensures w in d.sync.ring <==> 0 <= w < |d.sync.flags| && d.sync.flags[w].onList {
      if w < |d.workers| { assert WorkerInv(d, w); }
    }
    forall w: Wid | w in d.sync.ring ensures w < |d.sync.flags| && !d.sync.flags[w].mustSync {
      assert WorkerInv(d, w);
    }
  }

  /** When memory goes: a store hands over everything stored so far, the latest first, exactly if no worker
      has to sync after it, and keeps it all otherwise; a worker that leaves does so exactly if it was the
      last that had to. */
  lemma DrainsExactly(y: Sync, f: Fdid, w: Wid)
    requires y.barrier == Syncing(y.flags) && w < |y.flags| && forall i :: 0 <= i < |y.ring| ==> y.ring[i] < |y.flags|
    ensures var (y', out) := Store(y, f);
            if forall v :: 0 <= v < |y'.flags| ==> !y'.flags[v].mustSync
            then out == [f] + y.freeList && y'.freeList == [] else out == [] && y'.freeList == [f] + y.freeList
    ensures var (y', out) := AfterSleep(y, w);
            if y.flags[w].mustSync && (forall v :: 0 <= v < |y'.flags| ==> !y'.flags[v].mustSync)
            then out == y.freeList && y'.freeList == [] else out == [] && y'.freeList == y.freeList
  {
    MarkSpec(y.flags, y.barrier, y.ring);
    SyncingZero(Store(y, f).0.flags);
    SyncingUpdate(y.flags, w, Flags(false, false));
    SyncingZero(AfterSleep(y, w).0.flags);
    hide Mark, Syncing;
  }
}

/**
  _run_immediate (threaded_cr.c): a worker looks for something to run.  The code goes
  back to the head of the list whenever it had to queue an event; `Pass` walks the list
  once.  The two agree (Scheduler.RunImmediate), and this module says what a pass does.
 */
module Dispatching {
  import opened Common
  import opened Events
  import opened Runtime

  const FREE_WORKER: int := -1
  const ANY_WORKER: int := -2

  datatype Outcome = Nothing | Switch(tc: Tid, e: Eid) | Reap(tc: Tid)

  predicate Entry(s: State, e: Eid) {
    On(s.board, e, Immediate) && s.board.events[e].tc in s.threads
  }

  /** Distinct entries of immediate, with their threads. */
  predicate Entries(s: State, q: seq<Eid>) {
    && (forall i :: 0 <= i < |q| ==> Entry(s, q[i]))
    && (forall i, j :: 0 <= i < j < |q| ==> q[i] != q[j])
  }

  /** An event of this domain for this worker, for any free worker, or for any worker. */
  predicate Wanted(s: State, e: Eid, nr: int, dom: Did) {
    e in s.board.events && s.board.events[e].tc in s.threads &&
    var th := s.threads[s.board.events[e].tc];
    th.domain == dom && (nr == ANY_WORKER || th.workerNr == nr || (nr == FREE_WORKER && !th.affine))
  }

  /** Whether run_or_queue leaves the thread of e where it is. */
  predicate Stuck(s: State, e: Eid) {
    && e in s.board.events && s.board.events[e].tc in s.threads
    && !s.board.events[e].flag.Exiting?
    && Busy(s.threads[s.board.events[e].tc], s.board.events[e], e)
  }

  /** One walk over the entries of immediate. */
  function Pass(s: State, todo: seq<Eid>, nr: int, dom: Did): (State, Outcome)
    requires Entries(s, todo)
    decreases |todo|
  {
    if todo == [] then (s, Nothing)
    else if !Wanted(s, todo[0], nr, dom) then Pass(s, todo[1..], nr, dom)
    else
      var e := todo[0];
      assert Entry(s, e);
      if Stuck(s, e) then
        QueueingEntries(s, e, todo[1..]);
        Pass(RunOrQueue(s, e).0, todo[1..], nr, dom)
      else if s.board.events[e].flag.Exiting? then (RunOrQueue(s, e).0, Reap(s.board.events[e].tc))
      else (RunOrQueue(s, e).0, Switch(s.board.events[e].tc, e))
  }

  // ---------------------------------------------------------------- queueing is independent

  /** Queueing an event changes neither who is wanted nor who is stuck. */
  lemma QueueingKeeps(s: State, e: Eid, x: Eid)
    requires Entry(s, e) && Stuck(s, e)
    ensures var s' := RunOrQueue(s, e).0;
            && RunOrQueue(s, e).1.None?
            && s'.threads == s.threads
            && (Stuck(s', x) <==> Stuck(s, x))
            && (x in s'.board.events <==> x in s.board.events)
            && (x in s.board.events ==>
                  && s'.board.events[x].tc == s.board.events[x].tc
                  && s'.board.events[x].flag == s.board.events[x].flag
                  && (x != e ==> s'.board.events[x] == s.board.events[x]))
  {
  }

  lemma QueueingEntries(s: State, e: Eid, q: seq<Eid>)
    requires Entry(s, e) && Stuck(s, e) && Entries(s, q)
    requires forall i :: 0 <= i < |q| ==> q[i] != e
    ensures Entries(RunOrQueue(s, e).0, q)
  {
    var s' := RunOrQueue(s, e).0;
    forall i | 0 <= i < |q| ensures Entry(s', q[i]) {
      assert Entry(s, q[i]);
      QueueingKeeps(s, e, q[i]);
    }
  }

  /** Entries that are not wanted make no difference. */
  lemma {:induction false} PassSkips(s: State, u: seq<Eid>, rest: seq<Eid>, nr: int, dom: Did)
    requires Entries(s, u + rest)
    requires forall i :: 0 <= i < |u| ==> !Wanted(s, u[i], nr, dom)
    ensures Entries(s, rest)
    ensures Pass(s, u + rest, nr, dom) == Pass(s, rest, nr, dom)
  {
    var v := u + rest;
    assert forall i :: 0 <= i < |rest| ==> rest[i] == v[|u| + i];
    if u == [] {
      assert v == rest;
    } else {
      assert v[0] == u[0] && v[1..] == u[1..] + rest;
      assert Entries(s, v[1..]);
      PassSkips(s, u[1..], rest, nr, dom);
    }
  }

  /** Starting over after queueing the entry behind an unwanted prefix is going on. */
  lemma PassRestarts(s: State, u: seq<Eid>, e: Eid, rest: seq<Eid>, nr: int, dom: Did)
    requires Entries(s, u + [e] + rest)
    requires forall i :: 0 <= i < |u| ==> !Wanted(s, u[i], nr, dom)
    requires Wanted(s, e, nr, dom) && Stuck(s, e)
    ensures Entry(s, e) && Entries(RunOrQueue(s, e).0, u + rest)
    ensures Pass(s, u + [e] + rest, nr, dom) == Pass(RunOrQueue(s, e).0, u + rest, nr, dom)
  {
    var v := u + [e] + rest;
    var w := u + rest;
    assert v[|u|] == e && Entry(s, e);
    assert forall i :: 0 <= i < |w| ==> w[i] == v[if i < |u| then i else i + 1];
    assert Entries(s, w);
    QueueingEntries(s, e, w);
    var s' := RunOrQueue(s, e).0;
    forall i | 0 <= i < |u| ensures !Wanted(s', u[i], nr, dom) {
      QueueingKeeps(s, e, u[i]);
    }
    PassSkips(s', u, rest, nr, dom);
    assert v == u + ([e] + rest);
    PassSkips(s, u, [e] + rest, nr, dom);
    assert ([e] + rest)[1..] == rest;
  }

  // ---------------------------------------------------------------- what a pass does

  /** The first wanted entry whose thread can run, or the length of the list. */
  function FirstRunnable(s: State, q: seq<Eid>, nr: int, dom: Did): nat {
    if q == [] || (Wanted(s, q[0], nr, dom) && !Stuck(s, q[0])) then 0
    else 1 + FirstRunnable(s, q[1..], nr, dom)
  }

  /** The entries that are not wanted, in order. */
  function Skipped(s: State, q: seq<Eid>, nr: int, dom: Did): seq<Eid> {
    if q == [] then []
    else (if Wanted(s, q[0], nr, dom) then [] else [q[0]]) + Skipped(s, q[1..], nr, dom)
  }

  /** The wanted entries of thread t, in order. */
  function Queued(s: State, q: seq<Eid>, nr: int, dom: Did, t: Tid): seq<Eid> {
    if q == [] then []
    else (if Wanted(s, q[0], nr, dom) && s.board.events[q[0]].tc == t then [q[0]] else [])
         + Queued(s, q[1..], nr, dom, t)
  }

  lemma {:induction false} FirstRunnableSpec(s: State, q: seq<Eid>, nr: int, dom: Did)
    ensures FirstRunnable(s, q, nr, dom) <= |q|
    ensures forall i :: 0 <= i < FirstRunnable(s, q, nr, dom) ==> !Wanted(s, q[i], nr, dom) || Stuck(s, q[i])
    ensures var k := FirstRunnable(s, q, nr, dom);
            k < |q| ==> Wanted(s, q[k], nr, dom) && !Stuck(s, q[k])
  {
    if q != [] && !(Wanted(s, q[0], nr, dom) && !Stuck(s, q[0])) {
      FirstRunnableSpec(s, q[1..], nr, dom);
      assert forall i :: 0 < i < |q| ==> q[i] == q[1..][i - 1];
    }
  }

  /** The filters look only at wanted, stuck and the thread. */
  lemma {:induction false} FiltersSame(s: State, e: Eid, q: seq<Eid>, nr: int, dom: Did, t: Tid)
    requires Entry(s, e) && Stuck(s, e)
    ensures var s' := RunOrQueue(s, e).0;
            && FirstRunnable(s', q, nr, dom) == FirstRunnable(s, q, nr, dom)
            && Skipped(s', q, nr, dom) == Skipped(s, q, nr, dom)
            && Queued(s', q, nr, dom, t) == Queued(s, q, nr, dom, t)
  {
    if q != [] {
      QueueingKeeps(s, e, q[0]);
      FiltersSame(s, e, q[1..], nr, dom, t);
    }
  }

  /** immediate and one pending list after a run_or_queue that queues, and after one that does not. */
  lemma RunOrQueueLists(s: State, pre: seq<Eid>, e: Eid, rest: seq<Eid>, t: Tid)
    requires At(s.board, Immediate) == pre + [e] + rest && Entries(s, pre + [e] + rest)
    ensures Entry(s, e)
    ensures var b' := RunOrQueue(s, e).0.board;
            && At(b', Immediate) == pre + rest
            && At(b', Pending(t)) == At(s.board, Pending(t))
                                     + (if Stuck(s, e) && s.board.events[e].tc == t then [e] else [])
  {
    var q := pre + [e] + rest;
    assert q[|pre|] == e && Entry(s, e);
    WithoutAt(q, e, |pre|);
    assert q[..|pre|] + q[|pre| + 1..] == pre + rest;
    hide Without;
  }

  /** What a pass over `todo`, behind the entries `pre`, leaves on immediate and on t's pending list, and its outcome. */
  ghost predicate Effect(s: State, pre: seq<Eid>, todo: seq<Eid>, nr: int, dom: Did, t: Tid)
    requires Entries(s, todo)
  {
    var (s', o) := Pass(s, todo, nr, dom);
    var k := FirstRunnable(s, todo, nr, dom);
    && k <= |todo|
    && At(s'.board, Immediate) == pre + Skipped(s, todo[..k], nr, dom) + (if k < |todo| then todo[k + 1..] else [])
    && At(s'.board, Pending(t)) == At(s.board, Pending(t)) + Queued(s, todo[..k], nr, dom, t)
    && (if k == |todo| then o == Nothing
        else assert Entry(s, todo[k]);
             o == if s.board.events[todo[k]].flag.Exiting? then Reap(s.board.events[todo[k]].tc)
                  else Switch(s.board.events[todo[k]].tc, todo[k]))
  }

  lemma {:induction false} PassEffect(s: State, pre: seq<Eid>, todo: seq<Eid>, nr: int, dom: Did, t: Tid)
    requires At(s.board, Immediate) == pre + todo && Entries(s, pre + todo)
    ensures Entries(s, todo) && Effect(s, pre, todo, nr, dom, t)
    decreases |todo|
  {
    var v := pre + todo;
    assert forall i :: 0 <= i < |todo| ==> todo[i] == v[|pre| + i];
    if todo != [] {
      var e, rest := todo[0], todo[1..];
      assert Entry(s, e);
      hide Effect;
      if !Wanted(s, e, nr, dom) {
        assert v == (pre + [e]) + rest;
        PassEffect(s, pre + [e], rest, nr, dom, t);
        EffectSkip(s, pre, e, rest, todo, nr, dom, t);
      } else {
        assert v == pre + [e] + rest;
        RunOrQueueLists(s, pre, e, rest, t);
        if Stuck(s, e) {
          PrefixEntries(s, pre, e, rest);
          PassEffect(RunOrQueue(s, e).0, pre, rest, nr, dom, t);
          EffectQueue(s, pre, e, rest, todo, nr, dom, t);
        } else {
          EffectStop(s, pre, e, rest, todo, nr, dom, t);
        }
      }
    }
  }

  lemma EffectSkip(s: State, pre: seq<Eid>, e: Eid, rest: seq<Eid>, todo: seq<Eid>, nr: int, dom: Did, t: Tid)
    requires todo == [e] + rest && Entries(s, todo) && Entries(s, rest) && !Wanted(s, e, nr, dom)
    requires Effect(s, pre + [e], rest, nr, dom, t)
    ensures Effect(s, pre, todo, nr, dom, t)
  {
    hide RunOrQueue;
    assert todo[1..] == rest;
    var k := FirstRunnable(s, todo, nr, dom);
    assert todo[..k][0] == e && todo[..k][1..] == rest[..k - 1];
    assert k < |todo| ==> todo[k] == rest[k - 1] && todo[k + 1..] == rest[k..];
  }

  lemma EffectQueue(s: State, pre: seq<Eid>, e: Eid, rest: seq<Eid>, todo: seq<Eid>, nr: int, dom: Did, t: Tid)
    requires todo == [e] + rest && Entries(s, todo) && Wanted(s, e, nr, dom) && Stuck(s, e) && Entry(s, e)
    requires var s1 := RunOrQueue(s, e).0;
             && Entries(s1, rest) && Effect(s1, pre, rest, nr, dom, t)
             && At(s1.board, Pending(t)) == At(s.board, Pending(t)) + (if s.board.events[e].tc == t then [e] else [])
    ensures Effect(s, pre, todo, nr, dom, t)
  {
    hide Effect;
    assert todo[1..] == rest;
    var k := FirstRunnable(s, rest, nr, dom);
    FirstRunnableSpec(s, rest, nr, dom);
    FiltersSame(s, e, rest, nr, dom, t);
    FiltersSame(s, e, rest[..k], nr, dom, t);
    if k < |rest| { QueueingKeeps(s, e, rest[k]); }
    EffectCarries(s, RunOrQueue(s, e).0, pre, e, rest, todo, nr, dom, t, k);
  }

  lemma FilterStep(s: State, e: Eid, q: seq<Eid>, nr: int, dom: Did, t: Tid)
    requires Wanted(s, e, nr, dom)
    ensures Skipped(s, [e] + q, nr, dom) == Skipped(s, q, nr, dom)
    ensures Queued(s, [e] + q, nr, dom, t) == (if s.board.events[e].tc == t then [e] else []) + Queued(s, q, nr, dom, t)
  {
    assert ([e] + q)[1..] == q;
    assert [] + Skipped(s, q, nr, dom) == Skipped(s, q, nr, dom);
  }

  lemma EffectCarries(s: State, s1: State, pre: seq<Eid>, e: Eid, rest: seq<Eid>, todo: seq<Eid>,
                      nr: int, dom: Did, t: Tid, k: nat)
    requires todo == [e] + rest && Entries(s, todo) && Wanted(s, e, nr, dom) && Stuck(s, e)
    requires Entries(s1, rest) && Effect(s1, pre, rest, nr, dom, t)
    requires At(s1.board, Pending(t)) == At(s.board, Pending(t)) + (if s.board.events[e].tc == t then [e] else [])
    requires k == FirstRunnable(s1, rest, nr, dom) && k <= |rest| && FirstRunnable(s, todo, nr, dom) == k + 1
    requires Skipped(s1, rest[..k], nr, dom) == Skipped(s, rest[..k], nr, dom)
    requires Queued(s1, rest[..k], nr, dom, t) == Queued(s, rest[..k], nr, dom, t)
    requires k < |rest| ==>
               && rest[k] in s.board.events && rest[k] in s1.board.events
               && s1.board.events[rest[k]].tc == s.board.events[rest[k]].tc
               && s1.board.events[rest[k]].flag == s.board.events[rest[k]].flag
    requires Pass(s, todo, nr, dom) == Pass(s1, rest, nr, dom)
    ensures Effect(s, pre, todo, nr, dom, t)
  {
    FilterStep(s, e, rest[..k], nr, dom, t);
    assert todo[..k + 1] == [e] + rest[..k];
    hide Pass;
    hide FirstRunnable;
    hide Skipped;
    hide Queued;
    hide At;
    hide Wanted;
    hide Stuck;
    assert k < |rest| ==> todo[k + 1] == rest[k] && todo[k + 2..] == rest[k + 1..];
    Associates(At(s.board, Pending(t)), if s.board.events[e].tc == t then [e] else [], Queued(s, rest[..k], nr, dom, t));
  }

  lemma Associates(a: seq<Eid>, b: seq<Eid>, c: seq<Eid>)
    ensures (a + b) + c == a + (b + c)
  {
  }

  lemma EffectStop(s: State, pre: seq<Eid>, e: Eid, rest: seq<Eid>, todo: seq<Eid>, nr: int, dom: Did, t: Tid)
    requires todo == [e] + rest && Entries(s, todo) && Wanted(s, e, nr, dom) && !Stuck(s, e) && Entry(s, e)
    requires var s1 := RunOrQueue(s, e).0;
             At(s1.board, Immediate) == pre + rest && At(s1.board, Pending(t)) == At(s.board, Pending(t))
    ensures Effect(s, pre, todo, nr, dom, t)
  {
    hide RunOrQueue;
    assert todo[..0] == [] && todo[1..] == rest;
  }

  /**
    A whole scan: it stops at the first wanted entry whose thread can run; the wanted
    entries before it are queued, in order, on their threads' pending lists; what is not
    wanted, and what lies behind, stays on immediate; it finds nothing only if every
    wanted entry was queued.
   */
  lemma PassMeaning(s: State, nr: int, dom: Did, t: Tid)
    requires Entries(s, At(s.board, Immediate))
    ensures var q := At(s.board, Immediate);
            var (s', o) := Pass(s, q, nr, dom);
            var k := FirstRunnable(s, q, nr, dom);
            && k <= |q|
            && At(s'.board, Immediate) == Skipped(s, q[..k], nr, dom) + (if k < |q| then q[k + 1..] else [])
            && At(s'.board, Pending(t)) == At(s.board, Pending(t)) + Queued(s, q[..k], nr, dom, t)
            && (o == Nothing <==> k == |q|)
            && (o.Switch? ==> k < |q| && o.e == q[k] && o.tc == s.board.events[o.e].tc)
            && (o.Reap? ==> k < |q| && s.board.events[q[k]].flag.Exiting? && o.tc == s.board.events[q[k]].tc)
  {
    hide Pass, FirstRunnable, Skipped, Queued, Entries, Effect;
    var q := At(s.board, Immediate);
    assert [] + q == q;
    PassEffect(s, [], q, nr, dom, t);
    EffectMeans(s, q, nr, dom, t);
  }

  lemma EffectMeans(s: State, q: seq<Eid>, nr: int, dom: Did, t: Tid)
    requires Entries(s, q) && Effect(s, [], q, nr, dom, t)
    ensures var (s', o) := Pass(s, q, nr, dom);
            var k := FirstRunnable(s, q, nr, dom);
            && k <= |q|
            && At(s'.board, Immediate) == Skipped(s, q[..k], nr, dom) + (if k < |q| then q[k + 1..] else [])
            && At(s'.board, Pending(t)) == At(s.board, Pending(t)) + Queued(s, q[..k], nr, dom, t)
            && (o == Nothing <==> k == |q|)
            && (k < |q| ==> q[k] in s.board.events)
            && (o.Switch? ==> k < |q| && o.e == q[k] && o.tc == s.board.events[o.e].tc)
            && (o.Reap? ==> k < |q| && s.board.events[q[k]].flag.Exiting? && o.tc == s.board.events[q[k]].tc)
  {
    hide Pass, FirstRunnable, Skipped, Queued;
    var k := FirstRunnable(s, q, nr, dom);
    if k < |q| { assert Entry(s, q[k]); }
    hide Entries, At;
    assert [] + Skipped(s, q[..k], nr, dom) == Skipped(s, q[..k], nr, dom);
  }

  lemma PrefixEntries(s: State, pre: seq<Eid>, e: Eid, rest: seq<Eid>)
    requires Entries(s, pre + [e] + rest) && Stuck(s, e)
    ensures Entry(s, e) && Entries(RunOrQueue(s, e).0, pre + rest)
  {
    var v := pre + [e] + rest;
    var w := pre + rest;
    assert v[|pre|] == e && Entry(s, e);
    assert forall i :: 0 <= i < |w| ==> w[i] == v[if i < |pre| then i else i + 1];
    assert Entries(s, w);
    QueueingEntries(s, e, w);
  }

  // ---------------------------------------------------------------- exits are no end of the search

  lemma EntriesOf(s: State)
    requires Inv(s)
    ensures Entries(s, At(s.board, Immediate))
  {
    var q := At(s.board, Immediate);
    assert ListNamed(s.board, Immediate);
    forall i | 0 <= i < |q| ensures Entry(s, q[i]) {
      assert q[i] in q;
      EventThread(s, q[i]);
    }
  }

  /** The thread of an exit event has nothing else on a list; tc_die sees to that. */
  ghost predicate ExitsAlone(s: State) {
    forall e, x :: Listed(s.board, e) && s.board.events[e].flag.Exiting? && Listed(s.board, x) && x != e ==>
                     s.board.events[x].tc != s.board.events[e].tc
  }

  ghost predicate Unlisted(s: State, t: Tid) {
    forall x :: x in s.board.events && s.board.events[x].tc == t ==> !Listed(s.board, x)
  }

  lemma RunOrQueueExits(s: State, e: Eid)
    requires Runnable(s, e) && ExitsAlone(s)
    ensures ExitsAlone(RunOrQueue(s, e).0)
    ensures s.board.events[e].flag.Exiting? ==> Unlisted(RunOrQueue(s, e).0, s.board.events[e].tc)
  {
  }

  lemma {:induction false} PassKeeps(s: State, todo: seq<Eid>, nr: int, dom: Did)
    requires Inv(s) && ExitsAlone(s) && Entries(s, todo)
    ensures var (s', o) := Pass(s, todo, nr, dom);
            Inv(s') && ExitsAlone(s') && (o.Reap? ==> o.tc in s'.threads && Unlisted(s', o.tc))
    decreases |todo|
  {
    hide Inv;
    if todo != [] {
      var e := todo[0];
      assert Entry(s, e);
      if !Wanted(s, e, nr, dom) {
        PassKeeps(s, todo[1..], nr, dom);
      } else {
        RunOrQueueKeeps(s, e);
        RunOrQueueExits(s, e);
        hide ExitsAlone, Unlisted;
        if Stuck(s, e) {
          QueueingEntries(s, e, todo[1..]);
          PassKeeps(RunOrQueue(s, e).0, todo[1..], nr, dom);
        }
      }
    }
  }

  /** What is left on immediate by a pass that found nothing is not wanted. */
  lemma {:induction false} PassLeaves(s: State, pre: seq<Eid>, todo: seq<Eid>, nr: int, dom: Did)
    requires At(s.board, Immediate) == pre + todo && Entries(s, pre + todo)
    requires forall i :: 0 <= i < |pre| ==> !Wanted(s, pre[i], nr, dom)
    ensures Entries(s, todo)
    ensures var (s', o) := Pass(s, todo, nr, dom);
            o == Nothing ==> forall e :: e in At(s'.board, Immediate) ==> !Wanted(s', e, nr, dom)
    decreases |todo|
  {
    var v := pre + todo;
    assert forall i :: 0 <= i < |todo| ==> todo[i] == v[|pre| + i];
    if todo == [] {
      assert v == pre;
    } else {
      var e, rest := todo[0], todo[1..];
      assert Entry(s, e);
      if !Wanted(s, e, nr, dom) {
        assert v == (pre + [e]) + rest;
        PassLeaves(s, pre + [e], rest, nr, dom);
      } else if Stuck(s, e) {
        assert v == pre + [e] + rest;
        RunOrQueueLists(s, pre, e, rest, 0);
        PrefixEntries(s, pre, e, rest);
        forall i | 0 <= i < |pre| ensures !Wanted(RunOrQueue(s, e).0, pre[i], nr, dom) {
          QueueingKeeps(s, e, pre[i]);
        }
        PassQueues(s, todo, nr, dom);
        PassLeaves(RunOrQueue(s, e).0, pre, rest, nr, dom);
        hide Pass, RunOrQueue, Wanted;
      }
    }
  }

  lemma PassQueues(s: State, todo: seq<Eid>, nr: int, dom: Did)
    requires Entries(s, todo) && todo != [] && Wanted(s, todo[0], nr, dom) && Stuck(s, todo[0])
    ensures Entry(s, todo[0]) && Entries(RunOrQueue(s, todo[0]).0, todo[1..])
    ensures Pass(s, todo, nr, dom) == Pass(RunOrQueue(s, todo[0]).0, todo[1..], nr, dom)
  {
    assert Entry(s, todo[0]);
    QueueingEntries(s, todo[0], todo[1..]);
    hide RunOrQueue;
  }

  /** _run_immediate: a pass that comes upon an exit event frees the thread and is followed by another. */
  ghost function Search(s: State, nr: int, dom: Did): (State, Outcome)
    requires Inv(s) && ExitsAlone(s)
    decreases |At(s.board, Immediate)|
  {
    EntriesOf(s);
    var (s', o) := Pass(s, At(s.board, Immediate), nr, dom);
    if o.Reap? then
      SearchShrinks(s, nr, dom);
      Search(Discard(s', o.tc), nr, dom)
    else (s', o)
  }

  lemma SearchShrinks(s: State, nr: int, dom: Did)
    requires Inv(s) && ExitsAlone(s) && Entries(s, At(s.board, Immediate))
    ensures var (s', o) := Pass(s, At(s.board, Immediate), nr, dom);
            o.Reap? ==>
              var s1 := Discard(s', o.tc);
              Inv(s1) && ExitsAlone(s1) && |At(s1.board, Immediate)| < |At(s.board, Immediate)|
  {
    var q := At(s.board, Immediate);
    hide Inv, Entries;
    PassKeeps(s, q, nr, dom);
    PassMeaning(s, nr, dom, 0);
    SkippedLength(s, q[..FirstRunnable(s, q, nr, dom)], nr, dom);
    var (s', o) := Pass(s, q, nr, dom);
    hide Pass, FirstRunnable;
    if o.Reap? { DiscardKeeps(s', o.tc); }
  }

  lemma {:induction false} SkippedLength(s: State, q: seq<Eid>, nr: int, dom: Did)
    ensures |Skipped(s, q, nr, dom)| <= |q|
  {
    if q != [] { SkippedLength(s, q[1..], nr, dom); }
  }

  /** The search ends with a thread to switch to, or with no wanted event left on immediate. */
  lemma {:induction false} SearchEnds(s: State, nr: int, dom: Did)
    requires Inv(s) && ExitsAlone(s)
    ensures var (s', o) := Search(s, nr, dom);
            && Inv(s') && ExitsAlone(s') && !o.Reap?
            && (o == Nothing ==> forall e :: e in At(s'.board, Immediate) ==> !Wanted(s', e, nr, dom))
    decreases |At(s.board, Immediate)|
  {
    var q := At(s.board, Immediate);
    EntriesOf(s);
    hide Inv, Wanted;
    PassKeeps(s, q, nr, dom);
    assert [] + q == q;
    PassLeaves(s, [], q, nr, dom);
    SearchShrinks(s, nr, dom);
    var (s', o) := Pass(s, q, nr, dom);
    hide Pass, Entries, ExitsAlone;
    if o.Reap? { SearchEnds(Discard(s', o.tc), nr, dom); }
  }

  // ---------------------------------------------------------------- whose events these are

  /** A pass takes and queues events of the threads it is asked for, and leaves everybody else alone. */
  lemma {:induction false} PassServes(s: State, todo: seq<Eid>, nr: int, dom: Did, t: Tid)
    requires Entries(s, todo)
    ensures var (s', o) := Pass(s, todo, nr, dom);
            && (!o.Nothing? ==>
                  && o.tc in s.threads && s.threads[o.tc].domain == dom
                  && (nr == -2 || s.threads[o.tc].workerNr == nr || (nr == -1 && !s.threads[o.tc].affine)))
            && s'.threads.Keys == s.threads.Keys
            && (t in s.threads ==> s'.threads[t] == s.threads[t].(running := s'.threads[t].running, woken := s'.threads[t].woken))
            && (t in s.threads && (s.threads[t].domain != dom ||
                  !(nr == -2 || s.threads[t].workerNr == nr || (nr == -1 && !s.threads[t].affine))) ==>
                Untouched(s, s', t))
    decreases |todo|
  {
    if todo != [] {
      var e := todo[0];
      assert Entry(s, e);
      if !Wanted(s, e, nr, dom) {
        PassServes(s, todo[1..], nr, dom, t);
      } else {
        RunOrQueueServes(s, e, t);
        if Stuck(s, e) {
          QueueingEntries(s, e, todo[1..]);
          QueueingKeeps(s, e, e);
          PassServes(RunOrQueue(s, e).0, todo[1..], nr, dom, t);
          hide RunOrQueue;
        }
      }
    }
  }

  /** Thread t and its events are as they were. */
  ghost predicate Untouched(s: State, s': State, t: Tid) {
    && t in s.threads && t in s'.threads && s'.threads[t] == s.threads[t]
    && forall x :: x in s.board.events && s.board.events[x].tc == t ==>
         x in s'.board.events && s'.board.events[x] == s.board.events[x]
  }

  lemma RunOrQueueServes(s: State, e: Eid, t: Tid)
    requires Entry(s, e)
    ensures var s' := RunOrQueue(s, e).0;
            && s'.threads.Keys == s.threads.Keys && s'.board.events.Keys == s.board.events.Keys
            && (t in s.threads ==> s'.threads[t] == s.threads[t].(running := s'.threads[t].running, woken := s'.threads[t].woken))
            && (t in s.threads && t != s.board.events[e].tc ==> Untouched(s, s', t))
  {
  }

  /**
    The whole search, in plain terms: it switches to a thread of the domain that the worker number asks
    for; it comes back with nothing only when no such thread has an event on immediate; threads that are
    not asked for, of other domains above all, and their events are left alone.  -2 asks for all, -1 for
    those without a worker of their own.
   */
  lemma {:induction false} SearchServes(s: State, nr: int, dom: Did, t: Tid)
    requires Inv(s) && ExitsAlone(s)
    ensures var (s', o) := Search(s, nr, dom);
            && (o.Switch? ==>
                  && o.tc in s.threads && s.threads[o.tc].domain == dom
                  && (nr == -2 || s.threads[o.tc].workerNr == nr || (nr == -1 && !s.threads[o.tc].affine)))
            && (o.Nothing? ==> forall e :: On(s'.board, e, Immediate) && s'.board.events[e].tc in s'.threads ==>
                  var th := s'.threads[s'.board.events[e].tc];
                  th.domain != dom || !(nr == -2 || th.workerNr == nr || (nr == -1 && !th.affine)))
            && (t in s.threads && (s.threads[t].domain != dom ||
                  !(nr == -2 || s.threads[t].workerNr == nr || (nr == -1 && !s.threads[t].affine))) ==>
                Untouched(s, s', t))
    decreases |At(s.board, Immediate)|
  {
    var q := At(s.board, Immediate);
    EntriesOf(s);
    SearchEnds(s, nr, dom);
    PassServes(s, q, nr, dom, t);
    SearchShrinks(s, nr, dom);
    var (s1, o1) := Pass(s, q, nr, dom);
    var (s', o) := Search(s, nr, dom);
    if o.Nothing? { LeftUnwanted(s', nr, dom); }
    if o1.Reap? {
      hide Inv, Pass, Entries, ExitsAlone, Wanted;
      var s2 := Discard(s1, o1.tc);
      SearchServes(s2, nr, dom, t);
      if o.Switch? { PassServes(s, q, nr, dom, o.tc); }
      hide Search, Discard;
    }
  }

  lemma LeftUnwanted(s: State, nr: int, dom: Did)
    requires Inv(s) && forall e :: e in At(s.board, Immediate) ==> !Wanted(s, e, nr, dom)
    ensures forall e :: On(s.board, e, Immediate) && s.board.events[e].tc in s.threads ==>
              var th := s.threads[s.board.events[e].tc];
              th.domain != dom || !(nr == -2 || th.workerNr == nr || (nr == -1 && !th.affine))
  {
    forall e | On(s.board, e, Immediate) ensures e in At(s.board, Immediate) { assert Listed(s.board, e); }
    hide Inv;
  }
}

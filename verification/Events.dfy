/**
  Events and the lists they travel on (threaded_cr.c, threaded_cr.h).

  An event is on at most one list at a time: the source it waits on (a waitqueue
  or a file descriptor), the process-wide `immediate` list, or the `pending` list
  of its thread.  `el` names that list.  This module holds the three elementary
  moves (add, remove, relocate) and shows that each of them keeps the placement
  invariant: names and lists agree, and both counters are exact.
 */
module Events {
  import opened Common

  type Tid = nat   // struct tc_thread *
  type Eid = nat   // struct event *
  type Qid = nat   // struct tc_waitq *; a mutex and a signal go by their waitqueue
  type Did = nat   // struct tc_domain *

  datatype ListId = Immediate | Pending(tc: Tid) | Waitq(q: Qid) | Fd(fd: nat)

  datatype Flag = Ready | Signal(wq: Qid) | Exiting

  datatype Event = Event(tc: Tid, flag: Flag, next: Option<Eid>, el: Option<ListId>)

  /** The part of the runtime that events and lists make up. */
  datatype Board = Board(
    events: map<Eid, Event>,
    lists: map<ListId, seq<Eid>>,
    immediateCount: int,
    refcnt: map<Tid, int>)

  // ---------------------------------------------------------------- placement

  function At(b: Board, l: ListId): seq<Eid> {
    if l in b.lists then b.lists[l] else []
  }

  predicate Listed(b: Board, e: Eid) {
    e in b.events && b.events[e].el.Some?
  }

  /** e is on list l. */
  predicate On(b: Board, e: Eid, l: ListId) {
    e in b.events && b.events[e].el == Some(l)
  }

  ghost function ListedOf(b: Board, t: Tid): set<Eid> {
    set e | e in b.events && b.events[e].tc == t && b.events[e].el.Some?
  }

  /** Every entry of the list is an event that names the list, and appears there once. */
  ghost predicate ListNamed(b: Board, l: ListId) {
    Distinct(At(b, l)) && forall e :: e in At(b, l) ==> On(b, e, l)
  }

  ghost predicate ListsNamed(b: Board) {
    forall l :: ListNamed(b, l)
  }

  /** Every event that names a list is on it. */
  ghost predicate NamesListed(b: Board) {
    forall e :: Listed(b, e) ==> e in At(b, b.events[e].el.value)
  }

  ghost predicate PendingOwn(b: Board) {
    forall e, t :: On(b, e, Pending(t)) ==> b.events[e].tc == t
  }

  /** The thread's refcnt is the number of its listed events. */
  ghost predicate RefcntOf(b: Board, t: Tid) {
    t in b.refcnt ==> b.refcnt[t] == |ListedOf(b, t)|
  }

  ghost predicate RefcntExact(b: Board) {
    && (forall e :: e in b.events ==> b.events[e].tc in b.refcnt)
    && (forall t :: RefcntOf(b, t))
  }

  ghost predicate Placed(b: Board) {
    && ListsNamed(b)
    && NamesListed(b)
    && PendingOwn(b)
    && RefcntExact(b)
    && b.immediateCount == |At(b, Immediate)|
  }

  // ---------------------------------------------------------------- moves

  /** __remove_event on the immediate list: a count below zero is reported and reset. */
  function CountOut(from: ListId, c: int): int {
    if from == Immediate then (if c - 1 < 0 then 0 else c - 1) else c
  }

  function CountIn(to: ListId, c: int): int {
    if to == Immediate then c + 1 else c
  }

  /** _remove_event */
  function Remove(b: Board, e: Eid): Board
    requires Listed(b, e)
  {
    var from := b.events[e].el.value;
    var t := b.events[e].tc;
    Board(
      b.events[e := b.events[e].(el := None)],
      b.lists[from := Without(At(b, from), e)],
      CountOut(from, b.immediateCount),
      if t in b.refcnt then b.refcnt[t := b.refcnt[t] - 1] else b.refcnt)
  }

  /** move_event, move_to_immediate and the CIRCLEQ code of the wakeups */
  function Relocate(b: Board, e: Eid, to: ListId, head: bool): Board
    requires Listed(b, e) && b.events[e].el != Some(to)
  {
    var from := b.events[e].el.value;
    var dst := At(b, to);
    Board(
      b.events[e := b.events[e].(el := Some(to))],
      b.lists[from := Without(At(b, from), e)][to := if head then [e] + dst else dst + [e]],
      CountIn(to, CountOut(from, b.immediateCount)),
      b.refcnt)
  }

  /** _add_event, and the immediate_count update of add_event_cr */
  function Add(b: Board, e: Eid, ev: Event): Board
    requires ev.el.Some? && ev.tc in b.refcnt && !Listed(b, e)
  {
    var l := ev.el.value;
    Board(
      b.events[e := ev],
      b.lists[l := At(b, l) + [e]],
      CountIn(l, b.immediateCount),
      b.refcnt[ev.tc := b.refcnt[ev.tc] + 1])
  }

  /** The thread is no longer counted, and its events are no longer there. */
  function Forget(b: Board, t: Tid): Board {
    b.(events := map x | x in b.events && b.events[x].tc != t :: b.events[x], refcnt := b.refcnt - {t})
  }

  // ---------------------------------------------------------------- conservation

  lemma NotOn(b: Board, e: Eid, l: ListId)
    requires ListsNamed(b) && (e in b.events ==> b.events[e].el != Some(l))
    ensures e !in At(b, l)
  {
    assert ListNamed(b, l);
  }

  /** Nothing the thread has listed changed. */
  lemma SameRefcnt(b: Board, b': Board, t: Tid)
    requires RefcntOf(b, t) && (t in b'.refcnt ==> t in b.refcnt && b'.refcnt[t] == b.refcnt[t])
    requires forall x :: x in b'.events && b'.events[x].tc == t && b'.events[x].el.Some? ==>
                           x in b.events && b.events[x].tc == t && b.events[x].el.Some?
    requires forall x :: x in b.events && b.events[x].tc == t && b.events[x].el.Some? ==>
                           x in b'.events && b'.events[x].tc == t && b'.events[x].el.Some?
    ensures RefcntOf(b', t)
  {
    assert ListedOf(b', t) == ListedOf(b, t);
  }

  lemma RemovePlaced(b: Board, e: Eid)
    requires Placed(b) && Listed(b, e)
    ensures Placed(Remove(b, e))
    ensures Remove(b, e).refcnt.Keys == b.refcnt.Keys
  {
    RemoveLists(b, e);
    RemoveRefcnt(b, e);
  }

  lemma RemoveLists(b: Board, e: Eid)
    requires Placed(b) && Listed(b, e)
    ensures ListsNamed(Remove(b, e)) && NamesListed(Remove(b, e)) && PendingOwn(Remove(b, e))
    ensures Remove(b, e).immediateCount == |At(Remove(b, e), Immediate)|
  {
    hide RefcntExact;
    var b' := Remove(b, e);
    var from := b.events[e].el.value;
    assert ListNamed(b, from);
    WithoutMembers(At(b, from), e);
    hide Without;
    forall l ensures ListNamed(b', l) {
      assert ListNamed(b, l);
      if l != from {
        NotOn(b, e, l);
      }
    }
    forall x | Listed(b', x) ensures x in At(b', b'.events[x].el.value) {
      assert Listed(b, x);
    }
    forall x, u | On(b', x, Pending(u)) ensures b'.events[x].tc == u {
      assert On(b, x, Pending(u));
    }
  }

  lemma RemoveRefcnt(b: Board, e: Eid)
    requires RefcntExact(b) && Listed(b, e)
    ensures RefcntExact(Remove(b, e))
    ensures Remove(b, e).refcnt.Keys == b.refcnt.Keys
  {
    hide Without;
    var b' := Remove(b, e);
    var t := b.events[e].tc;
    forall u ensures RefcntOf(b', u) {
      assert RefcntOf(b, u);
      if u == t {
        assert ListedOf(b', t) == ListedOf(b, t) - {e};
      } else {
        SameRefcnt(b, b', u);
      }
    }
  }

  lemma RelocatePlaced(b: Board, e: Eid, to: ListId, head: bool)
    requires Placed(b) && Listed(b, e) && b.events[e].el != Some(to)
    requires to.Pending? ==> to.tc == b.events[e].tc
    ensures Placed(Relocate(b, e, to, head))
  {
    var b' := Relocate(b, e, to, head);
    RelocateLists(b, e, to, head);
    hide ListsNamed;
    hide NamesListed;
    hide PendingOwn;
    hide Without;
    forall u ensures RefcntOf(b', u) {
      assert RefcntOf(b, u);
      SameRefcnt(b, b', u);
    }
  }

  lemma RelocateLists(b: Board, e: Eid, to: ListId, head: bool)
    requires Placed(b) && Listed(b, e) && b.events[e].el != Some(to)
    requires to.Pending? ==> to.tc == b.events[e].tc
    ensures var b' := Relocate(b, e, to, head);
            ListsNamed(b') && NamesListed(b') && PendingOwn(b') && b'.immediateCount == |At(b', Immediate)|
  {
    hide RefcntExact;
    var b' := Relocate(b, e, to, head);
    var from := b.events[e].el.value;
    assert ListNamed(b, from) && ListNamed(b, to);
    WithoutMembers(At(b, from), e);
    hide Without;
    NotOn(b, e, to);
    forall l ensures ListNamed(b', l) {
      assert ListNamed(b, l);
      if l != from && l != to {
        NotOn(b, e, l);
      }
    }
    forall x | Listed(b', x) ensures x in At(b', b'.events[x].el.value) {
      assert Listed(b, x);
    }
    forall x, u | On(b', x, Pending(u)) ensures b'.events[x].tc == u {
      if x != e { assert On(b, x, Pending(u)); }
    }
  }

  lemma AddPlaced(b: Board, e: Eid, ev: Event)
    requires Placed(b) && ev.el.Some? && ev.tc in b.refcnt && !Listed(b, e)
    requires ev.el.value.Pending? ==> ev.el.value.tc == ev.tc
    ensures Placed(Add(b, e, ev))
    ensures Add(b, e, ev).refcnt.Keys == b.refcnt.Keys
  {
    AddLists(b, e, ev);
    AddRefcnt(b, e, ev);
  }

  lemma AddLists(b: Board, e: Eid, ev: Event)
    requires Placed(b) && ev.el.Some? && ev.tc in b.refcnt && !Listed(b, e)
    requires ev.el.value.Pending? ==> ev.el.value.tc == ev.tc
    ensures var b' := Add(b, e, ev);
            ListsNamed(b') && NamesListed(b') && PendingOwn(b') && b'.immediateCount == |At(b', Immediate)|
  {
    hide RefcntExact;
    var b' := Add(b, e, ev);
    var to := ev.el.value;
    forall l ensures ListNamed(b', l) {
      assert ListNamed(b, l);
      NotOn(b, e, l);
    }
    forall x | Listed(b', x) ensures x in At(b', b'.events[x].el.value) {
      if x != e { assert Listed(b, x); }
    }
    forall x, u | On(b', x, Pending(u)) ensures b'.events[x].tc == u {
      if x != e { assert On(b, x, Pending(u)); }
    }
  }

  lemma AddRefcnt(b: Board, e: Eid, ev: Event)
    requires RefcntExact(b) && ev.el.Some? && ev.tc in b.refcnt && !Listed(b, e)
    ensures RefcntExact(Add(b, e, ev))
    ensures Add(b, e, ev).refcnt.Keys == b.refcnt.Keys
  {
    var b' := Add(b, e, ev);
    forall u ensures RefcntOf(b', u) {
      assert RefcntOf(b, u);
      if u == ev.tc {
        assert ListedOf(b', u) == ListedOf(b, u) + {e};
      } else {
        SameRefcnt(b, b', u);
      }
    }
  }

  /** The memory of an event that is on no list may go. */
  lemma ForgetPlaced(b: Board, e: Eid)
    requires Placed(b) && !Listed(b, e)
    ensures Placed(b.(events := b.events - {e}))
  {
    var b' := b.(events := b.events - {e});
    forall l ensures ListNamed(b', l) {
      assert ListNamed(b, l);
      NotOn(b, e, l);
    }
    SameLists(b, b');
  }

  /** The stack link of an event has no part in its placement. */
  lemma RelinkPlaced(b: Board, e: Eid, next: Option<Eid>)
    requires Placed(b) && e in b.events
    ensures Placed(b.(events := b.events[e := b.events[e].(next := next)]))
  {
    var b' := b.(events := b.events[e := b.events[e].(next := next)]);
    forall l ensures ListNamed(b', l) {
      assert ListNamed(b, l);
    }
    SameLists(b, b');
  }

  /** Nothing that is listed changed, and no list. */
  lemma SameLists(b: Board, b': Board)
    requires Placed(b) && ListsNamed(b')
    requires b'.lists == b.lists && b'.immediateCount == b.immediateCount && b'.refcnt == b.refcnt
    requires forall x :: x in b'.events ==> x in b.events && b'.events[x].tc == b.events[x].tc
                                            && b'.events[x].el == b.events[x].el
    requires forall x :: x in b.events && x !in b'.events ==> b.events[x].el.None?
    ensures Placed(b')
  {
    hide ListsNamed;
    forall x | Listed(b', x) ensures x in At(b', b'.events[x].el.value) {
      assert Listed(b, x);
    }
    forall x, u | On(b', x, Pending(u)) ensures b'.events[x].tc == u {
      assert On(b, x, Pending(u));
    }
    forall u ensures RefcntOf(b', u) {
      assert RefcntOf(b, u);
      SameRefcnt(b, b', u);
    }
  }

  /** A new thread starts with no event. */
  lemma EnrollPlaced(b: Board, t: Tid)
    requires Placed(b) && t !in b.refcnt
    ensures Placed(b.(refcnt := b.refcnt[t := 0]))
  {
    var b' := b.(refcnt := b.refcnt[t := 0]);
    forall l ensures ListNamed(b', l) {
      assert ListNamed(b, l);
    }
    forall x | Listed(b', x) ensures x in At(b', b'.events[x].el.value) {
      assert Listed(b, x);
    }
    forall x, u | On(b', x, Pending(u)) ensures b'.events[x].tc == u {
      assert On(b, x, Pending(u));
    }
    forall u ensures RefcntOf(b', u) {
      assert RefcntOf(b, u);
      if u == t {
        assert ListedOf(b', u) == {};
      } else {
        SameRefcnt(b, b', u);
      }
    }
  }

  /** A thread without a listed event may go. */
  lemma ForgetThreadPlaced(b: Board, t: Tid)
    requires Placed(b) && forall x :: x in b.events && b.events[x].tc == t ==> !Listed(b, x)
    ensures Placed(Forget(b, t))
  {
    var b' := Forget(b, t);
    forall l ensures ListNamed(b', l) {
      assert ListNamed(b, l);
    }
    hide ListsNamed;
    forall x | Listed(b', x) ensures x in At(b', b'.events[x].el.value) {
      assert Listed(b, x);
    }
    forall x, u | On(b', x, Pending(u)) ensures b'.events[x].tc == u {
      assert On(b, x, Pending(u));
    }
    forall u ensures RefcntOf(b', u) {
      assert RefcntOf(b, u);
      if u != t { SameRefcnt(b, b', u); }
    }
  }
}

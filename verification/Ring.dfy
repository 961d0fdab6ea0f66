/**
  The headless circular list (clist.h) on the heap, and the three locked sections of the
  deferred free that work on it (threaded_cr.c), shown to do what GracePeriod says.
 */
module Ring {
  import opened Common
  import G = GracePeriod

  /** struct clist_entry; tag stands for container_of: the worker's number, -1 for the list head. */
  class Entry {
    var next: Entry
    var prev: Entry
    const tag: int

    /** CLIST_INIT */
    constructor (tag: int)
      ensures this.tag == tag && next == this && prev == this
    {
      this.tag := tag;
      next := this;
      prev := this;
    }
  }

  function After(i: nat, n: nat): nat
    requires i < n
  {
    if i + 1 == n then 0 else i + 1
  }

  function Before(i: nat, n: nat): nat
    requires i < n
  {
    if i == 0 then n - 1 else i - 1
  }

  /** Both links of node i lead to its neighbours. */
  ghost predicate Linked(nodes: seq<Entry>, i: nat)
    requires i < |nodes|
    reads nodes
  {
    nodes[i].next == nodes[After(i, |nodes|)] && nodes[i].prev == nodes[Before(i, |nodes|)]
  }

  /** nodes is the ring, in next order. */
  ghost predicate IsRing(nodes: seq<Entry>)
    reads nodes
  {
    && |nodes| > 0
    && (forall i, j :: 0 <= i < j < |nodes| ==> nodes[i] != nodes[j])
    && (forall i :: 0 <= i < |nodes| ==> Linked(nodes, i))
  }

  ghost function Inserted(nodes: seq<Entry>, elm: Entry, i: nat): seq<Entry>
    requires i < |nodes|
  {
    nodes[..i + 1] + [elm] + nodes[i + 1..]
  }

  function Dropped<T>(q: seq<T>, i: nat): seq<T>
    requires i < |q|
  {
    q[..i] + q[i + 1..]
  }

  /** CLIST_INSERT_AFTER */
  method InsertAfter(listelm: Entry, elm: Entry, ghost nodes: seq<Entry>, ghost i: nat)
    requires IsRing(nodes) && i < |nodes| && nodes[i] == listelm && elm !in nodes
    modifies elm, listelm, listelm.next
    ensures IsRing(Inserted(nodes, elm, i))
  {
    ghost var n := |nodes|;
    ghost var a := After(i, n);
    ghost var r := Inserted(nodes, elm, i);
    assert Linked(nodes, i);
    forall k | 0 <= k < n ensures nodes[k].next == nodes[After(k, n)] && nodes[k].prev == nodes[Before(k, n)] {
      assert Linked(nodes, k);
    }
    elm.next := listelm.next;
    elm.prev := listelm;
    listelm.next.prev := elm;
    listelm.next := elm;
    assert forall k :: 0 <= k < n && k != i ==> nodes[k].next == nodes[After(k, n)];
    assert forall k :: 0 <= k < n && k != a ==> nodes[k].prev == nodes[Before(k, n)];
    hide After;
    hide Before;
    Relinked(nodes, r, elm, i, a);
  }

  /** Entry k of the longer ring. */
  lemma InsertedAt(nodes: seq<Entry>, elm: Entry, i: nat, k: nat)
    requires i < |nodes| && k <= |nodes|
    ensures |Inserted(nodes, elm, i)| == |nodes| + 1
    ensures Inserted(nodes, elm, i)[k] == if k <= i then nodes[k] else if k == i + 1 then elm else nodes[k - 1]
  {
  }

  lemma Relinked(nodes: seq<Entry>, r: seq<Entry>, elm: Entry, i: nat, a: nat)
    requires i < |nodes| && elm !in nodes && a == After(i, |nodes|) && r == Inserted(nodes, elm, i)
    requires forall k, j :: 0 <= k < j < |nodes| ==> nodes[k] != nodes[j]
    requires nodes[i].next == elm && elm.next == nodes[a] && elm.prev == nodes[i] && nodes[a].prev == elm
    requires forall k :: 0 <= k < |nodes| && k != i ==> nodes[k].next == nodes[After(k, |nodes|)]
    requires forall k :: 0 <= k < |nodes| && k != a ==> nodes[k].prev == nodes[Before(k, |nodes|)]
    ensures IsRing(r)
  {
    hide Inserted;
    var n := |nodes|;
    InsertedAt(nodes, elm, i, 0);
    forall k, j | 0 <= k < j < |r| ensures r[k] != r[j] {
      InsertedAt(nodes, elm, i, k);
      InsertedAt(nodes, elm, i, j);
    }
    forall k | 0 <= k < |r| ensures Linked(r, k) {
      InsertedAt(nodes, elm, i, k);
      InsertedAt(nodes, elm, i, After(k, n + 1));
      InsertedAt(nodes, elm, i, Before(k, n + 1));
    }
  }

  /** CLIST_REMOVE */
  method Remove(elm: Entry, ghost nodes: seq<Entry>, ghost i: nat)
    requires IsRing(nodes) && 0 < i < |nodes| && nodes[i] == elm
    modifies elm.next, elm.prev
    ensures IsRing(Dropped(nodes, i))
  {
    ghost var n := |nodes|;
    ghost var a := After(i, n);
    ghost var r := Dropped(nodes, i);
    assert Linked(nodes, i);
    forall k | 0 <= k < n ensures nodes[k].next == nodes[After(k, n)] && nodes[k].prev == nodes[Before(k, n)] {
      assert Linked(nodes, k);
    }
    elm.next.prev := elm.prev;
    elm.prev.next := elm.next;
    assert forall k :: 0 <= k < n && k != i - 1 ==> nodes[k].next == nodes[After(k, n)];
    assert forall k :: 0 <= k < n && k != a ==> nodes[k].prev == nodes[Before(k, n)];
    hide After;
    hide Before;
    Bypassed(nodes, r, i, a);
  }

  /** Entry k of the shorter ring. */
  lemma DroppedAt<T>(q: seq<T>, i: nat, k: nat)
    requires i < |q| && k < |q| - 1
    ensures |Dropped(q, i)| == |q| - 1
    ensures Dropped(q, i)[k] == q[if k < i then k else k + 1]
  {
  }

  lemma Bypassed(nodes: seq<Entry>, r: seq<Entry>, i: nat, a: nat)
    requires 0 < i < |nodes| && a == After(i, |nodes|) && r == Dropped(nodes, i)
    requires forall k, j :: 0 <= k < j < |nodes| ==> nodes[k] != nodes[j]
    requires nodes[i - 1].next == nodes[a] && nodes[a].prev == nodes[i - 1]
    requires forall k :: 0 <= k < |nodes| && k != i - 1 ==> nodes[k].next == nodes[After(k, |nodes|)]
    requires forall k :: 0 <= k < |nodes| && k != a ==> nodes[k].prev == nodes[Before(k, |nodes|)]
    ensures IsRing(r)
  {
    hide Dropped;
    var n := |nodes| - 1;
    DroppedAt(nodes, i, 0);
    forall k, j | 0 <= k < j < |r| ensures r[k] != r[j] {
      DroppedAt(nodes, i, k);
      DroppedAt(nodes, i, j);
    }
    forall k | 0 <= k < |r| ensures Linked(r, k) {
      DroppedAt(nodes, i, k);
      DroppedAt(nodes, i, After(k, n));
      DroppedAt(nodes, i, Before(k, n));
    }
  }

  /** CLIST_EMPTY */
  method IsEmpty(elm: Entry, ghost nodes: seq<Entry>) returns (empty: bool)
    requires IsRing(nodes) && nodes[0] == elm
    ensures empty <==> nodes == [elm]
  {
    assert Linked(nodes, 0);
    empty := elm.next == elm;
  }

  /** members are the entries of the workers in ring. */
  ghost predicate Names(chain: seq<Entry>, members: seq<Entry>, ring: seq<G.Wid>) {
    && |members| == |ring|
    && forall i :: 0 <= i < |ring| ==> ring[i] < |chain| && members[i] == chain[ring[i]]
  }

  /** The entries are distinct, and know whose they are. */
  ghost predicate Shape(head: Entry, chain: seq<Entry>) {
    && head !in chain && head.tag == -1
    && (forall v, w :: 0 <= v < w < |chain| ==> chain[v] != chain[w])
    && (forall w :: 0 <= w < |chain| ==> chain[w].tag == w)
  }

  /** The ring holds the flagged workers, each once, and none of them has to sync. */
  ghost predicate FlagsMatch(flags: seq<G.Flags>, ring: seq<G.Wid>) {
    && Distinct(ring)
    && forall w :: 0 <= w < |flags| ==> (flags[w].onList <==> w in ring) && !(flags[w].onList && flags[w].mustSync)
  }

  /** The part of struct tc_domain and of the worker_structs that sync_lock protects. */
  class SyncDomain {
    const head: Entry                 // sleeping_workers
    const chain: seq<Entry>           // each worker's sleeping_chain
    var flags: seq<G.Flags>           // is_on_sleeping_list, must_sync
    var barrier: int
    var freeList: seq<G.Fdid>         // following free_list_next
    ghost var ring: seq<G.Wid>        // the workers on the ring, from head.next on
    ghost var members: seq<Entry>     // their entries

    ghost predicate Valid()
      reads this, head, chain
    {
      && Shape(head, chain)
      && |flags| == |chain| && FlagsMatch(flags, ring)
      && Names(chain, members, ring)
      && (forall i :: 0 <= i < |members| ==> members[i] in chain)
      && IsRing([head] + members)
    }

    ghost function Abs(): G.Sync
      reads this
    {
      G.Sync(ring, flags, barrier, freeList)
    }

    /** A domain with n workers, none of them asleep. */
    constructor (n: nat)
      ensures Valid() && |chain| == n && Abs() == G.Sync([], seq(n, i => G.Flags(false, false)), 0, [])
      ensures fresh(head) && forall e :: e in chain ==> fresh(e)
    {
      var h := new Entry(-1);
      var c: seq<Entry> := [];
      while |c| < n
        invariant |c| <= n && h !in c && h.tag == -1 && h.next == h && h.prev == h && fresh(h)
        invariant forall w :: 0 <= w < |c| ==> fresh(c[w]) && c[w].tag == w
        invariant forall v, w :: 0 <= v < w < |c| ==> c[v] != c[w]
      {
        var e := new Entry(|c|);
        c := c + [e];
      }
      head, chain := h, c;
      flags := seq(n, i => G.Flags(false, false));
      barrier, freeList, ring, members := 0, [], [], [];
      new;
      assert [head] + members == [head];
    }

    /** worker_prepare_sleep */
    method PrepareSleep(w: G.Wid)
      requires Valid() && w < |chain| && !flags[w].mustSync
      modifies this, head, chain
      ensures Valid() && Abs() == G.PrepareSleep(old(Abs()), w)
    {
      hide Shape, Names, FlagsMatch, IsRing, Inserted;
      FlagsEnter(flags, ring, w);
      if !flags[w].onList {
        NamesEnter(head, chain, members, ring, flags, w);
        Neighbours([head] + members, 0);
        InsertAfter(head, chain[w], [head] + members, 0);
        ring := [w] + ring;
        members := [chain[w]] + members;
      }
      flags := flags[w := flags[w].(onList := true)];
    }

    /** The CLIST_REMOVE of worker_after_sleep */
    method LeaveRing(w: G.Wid)
      requires Valid() && w < |chain| && flags[w].onList
      modifies this, head, chain
      ensures Valid() && Abs() == old(Abs()).(ring := Without(old(ring), w),
                                              flags := old(flags)[w := old(flags)[w].(onList := false)])
    {
      hide Shape, Names, FlagsMatch, IsRing, Without, Distinct, Dropped;
      ghost var i := Leaving(head, chain, members, ring, flags, w);
      Neighbours([head] + members, i + 1);
      Remove(chain[w], [head] + members, i + 1);
      ring := Dropped(ring, i);
      members := Dropped(members, i);
      flags := flags[w := flags[w].(onList := false)];
    }

    /** worker_after_sleep; out is the list handed to _process_free_list */
    method AfterSleep(w: G.Wid) returns (out: seq<G.Fdid>)
      requires Valid() && w < |chain|
      modifies this, head, chain
      ensures Valid() && (Abs(), out) == G.AfterSleep(old(Abs()), w)
    {
      hide IsRing, Shape, Names, FlagsMatch, Without;
      out := [];
      if flags[w].onList {
        LeaveRing(w);
      }
      FlagsSync(flags, ring, w);
      if flags[w].mustSync {
        flags := flags[w := flags[w].(mustSync := false)];
        barrier := barrier - 1;
        if barrier == 0 {
          out := freeList;
          freeList := [];
        }
      }
      assert flags == old(flags)[w := G.Flags(false, false)];
    }

    /** The loop of store_for_later_free over the sleeping workers */
    method MarkSleepers()
      requires Valid()
      modifies this`flags, this`barrier
      ensures Within(ring, |old(flags)|) && (flags, barrier) == G.Mark(old(flags), old(barrier), ring)
    {
      ghost var k, r, flags0, barrier0 := 0, ring, flags, barrier;
      NamesBound(chain, members, ring);
      FirstNode(head, members);
      hide IsRing, Names, Shape, FlagsMatch, G.Mark, Rest, Within, NodeAt;
      var list := head.next;
      while list != head
        invariant 0 <= k <= |r| && list == NodeAt(head, members, k) && |flags| == |chain|
        invariant Rest(flags, barrier, r, k) == Rest(flags0, barrier0, r, 0)
        decreases |r| - k
      {
        TagAt(head, chain, members, r, k);
        NextNode(head, members, k);
        MarkStep(flags, barrier, r, k);
        var w := list.tag;
        if !flags[w].mustSync {
          flags := flags[w := G.Flags(false, true)];
          barrier := barrier + 1;
        }
        list := list.next;
        k := k + 1;
      }
      LastNode(head, members, k);
      MarkNone(flags, barrier, r);
      MarkAll(flags0, barrier0, r);
    }

    /** store_for_later_free */
    method StoreForLaterFree(f: G.Fdid) returns (out: seq<G.Fdid>)
      requires Valid()
      modifies this, head
      ensures Valid() && (Abs(), out) == G.Store(old(Abs()), f)
    {
      MarkClears(flags, barrier, members, chain, ring);
      hide Shape, Names, FlagsMatch, G.Mark, IsRing;
      freeList := [f] + freeList;
      MarkSleepers();
      head.next := head;
      head.prev := head;
      ring, members := [], [];
      assert [head] + members == [head];
      LoneHead(head);
      NoNames(chain);
      if barrier != 0 {
        out := [];
      } else {
        out := freeList;
        freeList := [];
      }
    }
  }

  lemma Flagged(flags: seq<G.Flags>, ring: seq<G.Wid>, w: G.Wid)
    requires FlagsMatch(flags, ring) && w < |flags| && flags[w].onList
    ensures w in ring && Distinct(ring)
  {
  }

  lemma FlagsEnter(flags: seq<G.Flags>, ring: seq<G.Wid>, w: G.Wid)
    requires FlagsMatch(flags, ring) && w < |flags| && !flags[w].mustSync
    ensures FlagsMatch(flags[w := flags[w].(onList := true)], if flags[w].onList then ring else [w] + ring)
  {
  }

  lemma FlagsLeave(flags: seq<G.Flags>, ring: seq<G.Wid>, w: G.Wid)
    requires FlagsMatch(flags, ring) && w < |flags|
    ensures FlagsMatch(flags[w := flags[w].(onList := false)], Without(ring, w))
  {
    WithoutMembers(ring, w);
  }

  lemma FlagsSync(flags: seq<G.Flags>, ring: seq<G.Wid>, w: G.Wid)
    requires FlagsMatch(flags, ring) && w < |flags|
    ensures FlagsMatch(flags[w := flags[w].(mustSync := false)], ring)
  {
  }

  /** The k-th entry behind the head, and behind the last one the head again. */
  ghost function NodeAt(head: Entry, members: seq<Entry>, k: nat): Entry
    requires k <= |members|
  {
    if k == |members| then head else members[k]
  }

  lemma FirstNode(head: Entry, members: seq<Entry>)
    requires IsRing([head] + members)
    ensures head.next == NodeAt(head, members, 0)
  {
    assert Linked([head] + members, 0);
  }

  lemma NextNode(head: Entry, members: seq<Entry>, k: nat)
    requires IsRing([head] + members) && k < |members|
    ensures NodeAt(head, members, k) == members[k] && members[k].next == NodeAt(head, members, k + 1)
  {
    assert Linked([head] + members, k + 1);
  }

  lemma LastNode(head: Entry, members: seq<Entry>, k: nat)
    requires IsRing([head] + members) && k <= |members| && NodeAt(head, members, k) == head
    ensures k == |members|
  {
    var nodes := [head] + members;
    forall i | 0 <= i < |members| ensures members[i] != head {
      assert nodes[0] != nodes[i + 1];
    }
  }

  ghost predicate Within(ring: seq<G.Wid>, n: nat) {
    forall i :: 0 <= i < |ring| ==> ring[i] < n
  }

  /** What is left of the loop from the k-th sleeper on. */
  ghost function Rest(flags: seq<G.Flags>, barrier: int, ring: seq<G.Wid>, k: nat): (seq<G.Flags>, int)
    requires Within(ring, |flags|) && k <= |ring|
  {
    G.Mark(flags, barrier, ring[k..])
  }

  lemma MarkStep(flags: seq<G.Flags>, barrier: int, ring: seq<G.Wid>, k: nat)
    requires k < |ring| && Within(ring, |flags|)
    ensures var w := ring[k];
            && w < |flags|
            && Rest(flags, barrier, ring, k) ==
                if flags[w].mustSync then Rest(flags, barrier, ring, k + 1)
                else Rest(flags[w := G.Flags(false, true)], barrier + 1, ring, k + 1)
  {
    assert ring[k..][1..] == ring[k + 1..];
  }

  lemma MarkNone(flags: seq<G.Flags>, barrier: int, ring: seq<G.Wid>)
    requires Within(ring, |flags|)
    ensures Rest(flags, barrier, ring, |ring|) == (flags, barrier)
  {
    assert ring[|ring|..] == [];
  }

  lemma MarkAll(flags: seq<G.Flags>, barrier: int, ring: seq<G.Wid>)
    requires Within(ring, |flags|)
    ensures G.Mark(flags, barrier, ring) == Rest(flags, barrier, ring, 0)
  {
    assert ring[0..] == ring;
  }

  /** No flag is left for a worker whose entry leaves with the others. */
  lemma MarkClears(flags: seq<G.Flags>, barrier: int, members: seq<Entry>, chain: seq<Entry>, ring: seq<G.Wid>)
    requires Names(chain, members, ring) && |flags| == |chain| && FlagsMatch(flags, ring)
    ensures forall i :: 0 <= i < |ring| ==> ring[i] < |flags|
    ensures |G.Mark(flags, barrier, ring).0| == |flags|
    ensures FlagsMatch(G.Mark(flags, barrier, ring).0, [])
  {
    G.MarkSpec(flags, barrier, ring);
  }

  lemma LoneHead(head: Entry)
    requires head.next == head && head.prev == head
    ensures IsRing([head])
  {
  }

  lemma NoNames(chain: seq<Entry>)
    ensures Names(chain, [], [])
  {
  }

  lemma NamesBound(chain: seq<Entry>, members: seq<Entry>, ring: seq<G.Wid>)
    requires Names(chain, members, ring)
    ensures |members| == |ring| && Within(ring, |chain|)
  {
  }

  lemma TagAt(head: Entry, chain: seq<Entry>, members: seq<Entry>, ring: seq<G.Wid>, k: nat)
    requires Names(chain, members, ring) && Shape(head, chain) && k < |ring|
    ensures |members| == |ring| && members[k].tag == ring[k]
  {
  }

  lemma NamesEnter(head: Entry, chain: seq<Entry>, members: seq<Entry>, ring: seq<G.Wid>, flags: seq<G.Flags>, w: G.Wid)
    requires Shape(head, chain) && Names(chain, members, ring)
    requires |flags| == |chain| && FlagsMatch(flags, ring) && w < |flags| && !flags[w].onList
    ensures Names(chain, [chain[w]] + members, [w] + ring)
    ensures chain[w] !in [head] + members
    ensures Inserted([head] + members, chain[w], 0) == [head] + ([chain[w]] + members)
  {
    forall i | 0 <= i < |members| ensures members[i] != chain[w] {
      assert ring[i] in ring;
    }
  }

  /** Worker w's place on the ring, and what is left without it. */
  lemma Leaving(head: Entry, chain: seq<Entry>, members: seq<Entry>, ring: seq<G.Wid>, flags: seq<G.Flags>, w: G.Wid) returns (i: nat)
    requires Shape(head, chain) && Names(chain, members, ring)
    requires |flags| == |chain| && FlagsMatch(flags, ring) && w < |flags| && flags[w].onList
    ensures i < |ring| == |members|
    ensures Without(ring, w) == Dropped(ring, i)
    ensures FlagsMatch(flags[w := flags[w].(onList := false)], Dropped(ring, i))
    ensures Names(chain, Dropped(members, i), Dropped(ring, i))
    ensures chain[w] == ([head] + members)[i + 1]
    ensures Dropped([head] + members, i + 1) == [head] + Dropped(members, i)
    ensures forall k :: 0 <= k < |Dropped(members, i)| ==> Dropped(members, i)[k] in chain
  {
    hide *;
    Flagged(flags, ring, w);
    i :| 0 <= i < |ring| && ring[i] == w;
    WithoutDropped(ring, w, i);
    FlagsLeave(flags, ring, w);
    NamesLeave(chain, members, ring, i);
    HeadStays(head, members, i);
  }

  lemma HeadStays(head: Entry, members: seq<Entry>, i: nat)
    requires i < |members|
    ensures Dropped([head] + members, i + 1) == [head] + Dropped(members, i)
  {
  }

  lemma NamesLeave(chain: seq<Entry>, members: seq<Entry>, ring: seq<G.Wid>, i: nat)
    requires Names(chain, members, ring) && i < |ring|
    ensures |members| == |ring| && |Dropped(members, i)| == |members| - 1
    ensures Names(chain, Dropped(members, i), Dropped(ring, i)) && members[i] == chain[ring[i]]
    ensures forall k :: 0 <= k < |Dropped(members, i)| ==> Dropped(members, i)[k] in chain
  {
    var m, r := Dropped(members, i), Dropped(ring, i);
    forall k | 0 <= k < |r| ensures r[k] < |chain| && m[k] == chain[r[k]] {
      DroppedAt(members, i, k);
      DroppedAt(ring, i, k);
    }
  }

  lemma Neighbours(nodes: seq<Entry>, i: nat)
    requires IsRing(nodes) && i < |nodes|
    ensures nodes[i].next in nodes && nodes[i].prev in nodes
  {
    assert Linked(nodes, i);
  }

  lemma WithoutDropped(q: seq<G.Wid>, w: G.Wid, i: nat)
    requires Distinct(q) && i < |q| && q[i] == w
    ensures Without(q, w) == Dropped(q, i)
  {
    WithoutAt(q, w, i);
  }
}

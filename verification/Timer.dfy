/**
  Timespec arithmetic and the timer list of tc_sleep (threaded_cr.c).
 */
module Timer {
  datatype Time = Time(sec: int, nsec: int)

  const SECOND: int := 1_000_000_000

  function Total(t: Time): int {
    t.sec * SECOND + t.nsec
  }

  /** tv_nsec as tc_sleep leaves it: the upper bound is closed. */
  predicate InRange(t: Time) {
    0 <= t.nsec <= SECOND
  }

  /** tv_nsec as the clock reports it. */
  predicate Clock(t: Time) {
    0 <= t.nsec < SECOND
  }

  // ---------------------------------------------------------------- arithmetic

  /** compare_ts_times */
  function Compare(a: Time, b: Time): int {
    if a.sec < b.sec then -1
    else if a.sec > b.sec then 1
    else if a.nsec < b.nsec then -1
    else if a.nsec > b.nsec then 1
    else 0
  }

  /** The clock has reached end as compare_ts_times sees it: in total, and, should tv_nsec be negative, in seconds. */
  predicate Come(now: Time, end: Time) {
    Total(end) <= Total(now) && (0 <= end.nsec || end.sec <= now.sec)
  }

  /** Against a clock reading the comparison is exact although tv_nsec of the other may be 10^9; it is
      late, by less than the negative tv_nsec, for a deadline that has one. */
  lemma CompareClock(now: Time, end: Time)
    requires Clock(now) && end.nsec <= SECOND
    ensures Compare(now, end) >= 0 <==> Come(now, end)
    ensures 0 <= end.nsec ==> (Compare(now, end) >= 0 <==> Total(end) <= Total(now))
  {
    if now.sec < end.sec {
      assert (now.sec + 1) * SECOND <= end.sec * SECOND;
    } else if now.sec > end.sec {
      assert (end.sec + 1) * SECOND <= now.sec * SECOND;
    }
  }

  /** A deadline is never taken for reached too early, even one with a negative tv_nsec. */
  lemma ReachedInTime(now: Time, end: Time)
    requires Clock(now) && end.nsec <= SECOND && Compare(now, end) >= 0
    ensures Total(end) <= Total(now)
  {
    if now.sec > end.sec {
      assert (end.sec + 1) * SECOND <= now.sec * SECOND;
    }
  }

  /** Two deadlines are told apart wrongly exactly when one is a whole second written as 10^9 ns. */
  lemma CompareTies(a: Time, b: Time)
    requires InRange(a) && InRange(b)
    ensures (Compare(a, b) < 0 ==> Total(a) <= Total(b)) && (Total(a) < Total(b) ==> Compare(a, b) < 0)
    ensures Compare(a, b) < 0 && Total(a) == Total(b) <==> b == Time(a.sec + 1, 0) && a.nsec == SECOND
  {
    if a.sec < b.sec {
      assert (a.sec + 1) * SECOND <= b.sec * SECOND;
      if a.sec + 1 < b.sec {
        assert (a.sec + 2) * SECOND <= b.sec * SECOND;
      }
    } else if a.sec > b.sec {
      assert (b.sec + 1) * SECOND <= a.sec * SECOND;
    }
  }

  /** The normalising loop of tc_sleep */
  function Deadline(t: Time): (r: Time)
    ensures Total(r) == Total(t) && r.nsec <= SECOND && (r.nsec >= 0 <==> t.nsec >= 0)
    decreases t.nsec
  {
    if t.nsec > SECOND then Deadline(Time(t.sec + 1, t.nsec - SECOND)) else t
  }

  /** tc_sleep's abs_end */
  method AbsEnd(now: Time, sec: int, nsec: int) returns (end: Time)
    ensures Total(end) == Total(now) + Total(Time(sec, nsec))
    ensures end.nsec <= SECOND && (end.nsec >= 0 <==> now.nsec + nsec >= 0)
    ensures end == Deadline(Time(now.sec + sec, now.nsec + nsec))
  {
    var s, n := now.sec + sec, now.nsec + nsec;
    while n > SECOND
      invariant Deadline(Time(s, n)) == Deadline(Time(now.sec + sec, now.nsec + nsec))
      decreases n
    {
      n := n - SECOND;
      s := s + 1;
    }
    end := Time(s, n);
  }

  /** timer_delta: the difference, and whether it reports expiry. The report is right unless the
      tv_nsec are more than that many whole seconds apart; in range, it is always right. */
  method TimerDelta(later: Time, earlier: Time) returns (delta: Time, expired: bool)
    ensures Total(delta) == Total(later) - Total(earlier) && delta.nsec >= 0
    ensures (expired <==> Total(later) <= Total(earlier)) <==>
            !(later.sec < earlier.sec && later.nsec - earlier.nsec > (earlier.sec - later.sec) * SECOND)
    ensures InRange(later) && InRange(earlier) ==> (expired <==> Total(later) <= Total(earlier))
    ensures expired == Expired(later, earlier)
  {
    var s, n := later.sec - earlier.sec, later.nsec - earlier.nsec;
    while n < 0
      invariant Total(Time(s, n)) == Total(later) - Total(earlier)
      invariant n < SECOND || (s == later.sec - earlier.sec && n == later.nsec - earlier.nsec)
      invariant later.nsec >= earlier.nsec ==> s == later.sec - earlier.sec && n == later.nsec - earlier.nsec
      invariant later.nsec < earlier.nsec ==> n < SECOND
      decreases -n
    {
      s := s - 1;
      n := n + SECOND;
    }
    delta := Time(s, n);
    expired := s < 0 || (s == 0 && n <= 0);
    DeltaSign(s, n);
    if later.sec < earlier.sec {
      WholeSeconds(later.sec, earlier.sec);
    }
  }

  /** timer_delta's result */
  function Expired(later: Time, earlier: Time): bool {
    if later.nsec < earlier.nsec then Total(later) <= Total(earlier)
    else later.sec < earlier.sec || (later.sec == earlier.sec && later.nsec == earlier.nsec)
  }

  lemma DeltaSign(s: int, n: int)
    requires 0 <= n
    ensures s >= 0 ==> (Total(Time(s, n)) <= 0 <==> s == 0 && n == 0)
    ensures s < 0 && n <= SECOND ==> Total(Time(s, n)) <= 0
  {
    if s >= 0 {
      assert s * SECOND >= s;
    } else {
      assert s * SECOND <= -1 * SECOND;
    }
  }

  lemma WholeSeconds(a: int, b: int)
    requires a < b
    ensures (b - a) * SECOND == b * SECOND - a * SECOND && (b - a) * SECOND >= SECOND
  {
    assert (b - a) * SECOND >= 1 * SECOND;
  }

  // ---------------------------------------------------------------- the list

  /** struct timer_waiter; stamp numbers the insertions. */
  datatype Waiter = Waiter(sid: nat, end: Time, stamp: nat)

  /** By abs_end; equal ones in insertion order. */
  predicate Ahead(v: Waiter, w: Waiter) {
    Compare(v.end, w.end) < 0 || (v.end == w.end && v.stamp < w.stamp)
  }

  ghost predicate Sorted(list: seq<Waiter>) {
    forall i, j :: 0 <= i < j < |list| ==> Ahead(list[i], list[j])
  }

  /** Where the search of insert_into_timer_list stops. */
  function Place(list: seq<Waiter>, w: Waiter): (k: nat)
    ensures k <= |list|
  {
    if list == [] || Compare(w.end, list[0].end) < 0 then 0 else 1 + Place(list[1..], w)
  }

  function Insert(list: seq<Waiter>, w: Waiter): seq<Waiter> {
    list[..Place(list, w)] + [w] + list[Place(list, w)..]
  }

  /** How many waiters the master's loop takes off. */
  function Due(list: seq<Waiter>, now: Time): (k: nat)
    ensures k <= |list|
  {
    if list == [] || Compare(now, list[0].end) < 0 then 0 else 1 + Due(list[1..], now)
  }

  /** LIST_REMOVE, if sid's waiter is on the list */
  function WithoutSid(list: seq<Waiter>, sid: nat): seq<Waiter> {
    if list == [] then [] else if list[0].sid == sid then list[1..] else [list[0]] + WithoutSid(list[1..], sid)
  }

  lemma {:induction false} PlaceSplits(list: seq<Waiter>, w: Waiter)
    requires Sorted(list)
    ensures forall i :: 0 <= i < |list| ==> (i < Place(list, w) <==> Compare(w.end, list[i].end) >= 0)
  {
    if list != [] {
      var rest := list[1..];
      assert forall i :: 0 <= i < |rest| ==> rest[i] == list[i + 1];
      PlaceSplits(rest, w);
      forall i | 0 <= i < |list| ensures i < Place(list, w) <==> Compare(w.end, list[i].end) >= 0 {
        if i > 0 {
          assert list[i] == rest[i - 1] && Ahead(list[0], list[i]);
        }
      }
    }
  }

  /** Entry i of the longer list. */
  lemma InsertAt(list: seq<Waiter>, w: Waiter, i: nat)
    requires i <= |list|
    ensures var k := Place(list, w);
            |Insert(list, w)| == |list| + 1
            && Insert(list, w)[i] == if i < k then list[i] else if i == k then w else list[i - 1]
  {
  }

  lemma InsertOrdered(list: seq<Waiter>, w: Waiter)
    requires Sorted(list) && forall i :: 0 <= i < |list| ==> list[i].stamp < w.stamp
    ensures Sorted(Insert(list, w))
  {
    PlaceSplits(list, w);
    InsertAt(list, w, 0);
    var r := Insert(list, w);
    forall i, j | 0 <= i < j < |r| ensures Ahead(r[i], r[j]) {
      InsertAt(list, w, i);
      InsertAt(list, w, j);
      hide Insert, Place;
    }
  }

  lemma InsertMembers(list: seq<Waiter>, w: Waiter)
    ensures multiset(Insert(list, w)) == multiset(list) + multiset{w}
    ensures forall v :: v in Insert(list, w) <==> v == w || v in list
  {
    hide Place, Compare;
    var k := Place(list, w);
    assert list == list[..k] + list[k..];
  }

  /** The list stays sorted, and a newcomer goes behind those with the same abs_end. */
  lemma InsertSorted(list: seq<Waiter>, w: Waiter)
    requires Sorted(list) && forall i :: 0 <= i < |list| ==> list[i].stamp < w.stamp
    ensures Sorted(Insert(list, w)) && multiset(Insert(list, w)) == multiset(list) + multiset{w}
    ensures forall v :: v in Insert(list, w) <==> v == w || v in list
  {
    hide *;
    InsertOrdered(list, w);
    InsertMembers(list, w);
  }

  lemma {:induction false} DueSplits(list: seq<Waiter>, now: Time)
    requires Sorted(list)
    ensures forall i :: 0 <= i < |list| ==> (i < Due(list, now) <==> Compare(now, list[i].end) >= 0)
  {
    if list != [] {
      var rest := list[1..];
      assert forall i :: 0 <= i < |rest| ==> rest[i] == list[i + 1];
      DueSplits(rest, now);
      forall i | 0 <= i < |list| ensures i < Due(list, now) <==> Compare(now, list[i].end) >= 0 {
        if i > 0 {
          assert list[i] == rest[i - 1] && Ahead(list[0], list[i]);
        }
      }
    }
  }

  /** The loop takes off exactly the waiters whose time has come. */
  lemma DueExact(list: seq<Waiter>, now: Time, i: nat)
    requires Sorted(list) && Clock(now) && i < |list| && list[i].end.nsec <= SECOND
    ensures i < Due(list, now) <==> Come(now, list[i].end)
  {
    DueSplits(list, now);
    CompareClock(now, list[i].end);
  }

  ghost predicate DistinctSids(list: seq<Waiter>) {
    forall i, j :: 0 <= i < j < |list| ==> list[i].sid != list[j].sid
  }

  lemma {:induction false} WithoutSidMembers(list: seq<Waiter>, sid: nat)
    requires DistinctSids(list)
    ensures forall v :: v in WithoutSid(list, sid) <==> v in list && v.sid != sid
  {
    if list != [] {
      assert list == [list[0]] + list[1..];
      WithoutSidMembers(list[1..], sid);
      assert forall v :: v in list[1..] ==> v.sid != list[0].sid;
    }
  }

  lemma {:induction false} WithoutSidOrdered(list: seq<Waiter>, sid: nat)
    requires Sorted(list) && DistinctSids(list)
    ensures Sorted(WithoutSid(list, sid)) && DistinctSids(WithoutSid(list, sid))
  {
    hide Ahead;
    if list != [] && list[0].sid != sid {
      var rest := list[1..];
      WithoutSidOrdered(rest, sid);
      WithoutSidMembers(rest, sid);
      var r := WithoutSid(list, sid);
      forall j | 0 < j < |r| ensures Ahead(r[0], r[j]) && r[0].sid != r[j].sid {
        assert r[j] in WithoutSid(rest, sid);
      }
    }
  }

  lemma WithoutKeeps(list: seq<Waiter>, sid: nat)
    requires Sorted(list) && DistinctSids(list)
    ensures Sorted(WithoutSid(list, sid)) && DistinctSids(WithoutSid(list, sid))
    ensures forall v :: v in WithoutSid(list, sid) <==> v in list && v.sid != sid
  {
    hide *;
    WithoutSidMembers(list, sid);
    WithoutSidOrdered(list, sid);
  }

  /** timer_list, under timer_lock */
  class TimerList {
    var list: seq<Waiter>

    /** insert_into_timer_list; first: the timer has to be programmed anew */
    method InsertWaiter(w: Waiter) returns (first: bool)
      modifies this
      ensures list == Insert(old(list), w)
      ensures first <==> old(list) == [] || Compare(w.end, old(list)[0].end) < 0
    {
      var cur := 0;
      assert list[0..] == list;
      while cur < |list|
        invariant 0 <= cur <= |list| && list == old(list)
        invariant Place(list, w) == cur + Place(list[cur..], w)
      {
        assert list[cur..][1..] == list[cur + 1..];
        if Compare(w.end, list[cur].end) < 0 {
          break;
        }
        cur := cur + 1;
      }
      list := list[..cur] + [w] + list[cur..];
      first := cur == 0;
    }

    /** The master's wake loop; woken: the waitqueues it wakes, in order */
    method WakeDue(now: Time) returns (woken: seq<Waiter>)
      modifies this
      ensures woken + list == old(list) && |woken| == Due(old(list), now)
    {
      woken := [];
      while list != []
        invariant woken + list == old(list) && |woken| + Due(list, now) == Due(old(list), now)
        decreases |list|
      {
        if Compare(now, list[0].end) < 0 {
          break;
        }
        woken := woken + [list[0]];
        list := list[1..];
      }
    }
  }
}

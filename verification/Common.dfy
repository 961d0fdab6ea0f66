/** What several components share: optional values and lists as sequences. */
module Common {
  datatype Option<+T> = None | Some(value: T)

  ghost predicate Distinct<T>(q: seq<T>) {
    forall i, j :: 0 <= i < j < |q| ==> q[i] != q[j]
  }

  /** CIRCLEQ_REMOVE, LIST_REMOVE, CLIST_REMOVE */
  function Without<T(==)>(q: seq<T>, x: T): seq<T> {
    if q == [] then [] else if q[0] == x then q[1..] else [q[0]] + Without(q[1..], x)
  }

  lemma {:induction false} WithoutAt<T>(q: seq<T>, x: T, i: nat)
    requires Distinct(q) && i < |q| && q[i] == x
    ensures Without(q, x) == q[..i] + q[i + 1..]
  {
    if i > 0 {
      assert q[1..][i - 1] == x;
      WithoutAt(q[1..], x, i - 1);
      assert q == [q[0]] + q[1..];
      assert q[..i] + q[i + 1..] == [q[0]] + (q[1..][..i - 1] + q[1..][i..]);
    }
  }

  /** One entry goes, the others stay. */
  lemma {:induction false} WithoutMembers<T>(q: seq<T>, x: T)
    requires Distinct(q)
    ensures Distinct(Without(q, x))
    ensures |Without(q, x)| == |q| - (if x in q then 1 else 0)
    ensures forall y :: y in Without(q, x) <==> y in q && y != x
  {
    if q != [] {
      assert q == [q[0]] + q[1..];
      assert q[0] !in q[1..];
      if q[0] != x {
        WithoutMembers(q[1..], x);
      }
    }
  }
}

/** A wait seen from outside the event core. */
module Waits {
  /**
    The event of a wait whose placement does not matter: not in use, on its waitqueue, or woken
    up. Wakeups.FinishReports is why tc_waitq_finish_wait reports an interrupt exactly for Waiting.
   */
  datatype Ev = Off | Waiting | Fired
}

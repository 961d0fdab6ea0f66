/**
  The spinlock (spinlock.c, spinlock.h) on a 64-bit little-endian machine. The lock word holds
  the owner's marker; trylock is a compare-and-swap whose result is cut down to an int, so a
  caller takes the lower half, the tid, of what it found for the whole word.
 */
module Spinlock {
  type Tid = nat      // a pthread, by number

  const HALF: int := 0x1_0000_0000

  /** union spinlock_marker */
  datatype Marker = Marker(tid: nat, cpu: nat)

  predicate Fits(k: Marker) {
    k.tid < HALF && k.cpu < HALF
  }

  /** m of a marker: the tid is the lower half */
  function Word(k: Marker): nat {
    k.tid + k.cpu * HALF
  }

  function LowerHalf(word: nat): nat {
    word % HALF
  }

  /** The conversion of spin_trylock_plain's 64-bit value to its int result */
  function Truncated(word: nat): int {
    if LowerHalf(word) < HALF / 2 then LowerHalf(word) else LowerHalf(word) - HALF
  }

  /** And back to 64 bits, where the slow path stores the int in current_owner.m */
  function Extended(i: int): nat
    requires -HALF <= i < HALF
  {
    if i < 0 then i + HALF * HALF else i
  }

  lemma LowerHalfOfWord(k: Marker)
    requires Fits(k)
    ensures LowerHalf(Word(k)) == k.tid
  {
    WordParts(k.tid, k.cpu);
  }

  lemma WordParts(low: nat, high: nat)
    requires low < HALF
    ensures (low + high * HALF) % HALF == low && (low + high * HALF) / HALF == high
  {
  }

  /** The result keeps the tid, and forgets the cpu: it reads as 0, or as all ones for a negative int. */
  lemma TruncatedTid(k: Marker)
    requires Fits(k)
    ensures LowerHalf(Extended(Truncated(Word(k)))) == k.tid
    ensures Extended(Truncated(Word(k))) / HALF == if k.tid < HALF / 2 then 0 else HALF - 1
  {
    LowerHalfOfWord(k);
    if k.tid < HALF / 2 {
      WordParts(k.tid, 0);
    } else {
      assert Extended(Truncated(Word(k))) == k.tid + (HALF - 1) * HALF;
      WordParts(k.tid, HALF - 1);
    }
  }

  /** A caller that finds marker k in the lock is told so exactly when the tid is not 0. */
  lemma ZeroMeansFree(k: Marker)
    requires Fits(k)
    ensures Truncated(Word(k)) == 0 <==> k.tid == 0
  {
    LowerHalfOfWord(k);
  }

  // ---------------------------------------------------------------- the lock in use

  datatype Pc =
    | Out
    | Fast            // spin_lock's trylock
    | Second          // __spin_lock's trylock
    | Join            // before spinners is counted up
    | Peek            // before the dirty read
    | Attempt         // before the trylock in the loop
    | Judge(seen: nat)  // current_owner.m is not 0
    | Doze            // before spinners is counted down for a sleep
    | Asleep          // before spinners is counted up again
    | Quit            // has the lock, before spinners is counted down
    | Held

  datatype Thread = Thread(mark: Marker, pc: Pc)

  datatype Lock = Lock(
    word: nat,
    spinners: int,
    threads: seq<Thread>,
    alarm: bool)      // "Spinlock deadlock detected"

  /** sleep: the delay conditions of the loop hold. */
  datatype Step = Move(t: Tid, sleep: bool)

  predicate Guard(l: Lock, step: Step) {
    step.t < |l.threads| && Fits(l.threads[step.t].mark)
  }

  function At(l: Lock, t: Tid, pc: Pc): Lock
    requires t < |l.threads|
  {
    l.(threads := l.threads[t := l.threads[t].(pc := pc)])
  }

  /** spin_trylock_plain, and where the caller goes on success and on failure */
  function TryLock(l: Lock, t: Tid, got: Pc, failed: Pc): Lock
    requires t < |l.threads|
  {
    var l' := if l.word == 0 then l.(word := Word(l.threads[t].mark)) else l;
    At(l', t, if Truncated(l.word) == 0 then got else failed)
  }

  function Apply(l: Lock, step: Step): Lock
    requires Guard(l, step)
  {
    var t := step.t;
    match l.threads[t].pc
    case Out => At(l, t, Fast)
    case Fast => TryLock(l, t, Held, Second)
    case Second => TryLock(l, t, Held, Join)
    case Join => At(l, t, Peek).(spinners := l.spinners + 1)
    case Peek => At(l, t, if l.word == 0 then Attempt else Judge(l.word))
    case Attempt => TryLock(l, t, Quit, Judge(Extended(Truncated(l.word))))
    case Judge(seen) =>
      if LowerHalf(seen) == l.threads[t].mark.tid then l.(alarm := true)
      else At(l, t, if step.sleep then Doze else Peek)
    case Doze => At(l, t, Asleep).(spinners := l.spinners - 1)
    case Asleep => At(l, t, Peek).(spinners := l.spinners + 1)
    case Quit => At(l, t, Held).(spinners := l.spinners - 1)
    case Held => At(l, t, Out).(word := 0)
  }

  ghost predicate Init(l: Lock) {
    && l.word == 0 && l.spinners == 0 && !l.alarm
    && forall t :: 0 <= t < |l.threads| ==> l.threads[t].pc == Out && Fits(l.threads[t].mark)
  }

  ghost predicate Run(ls: seq<Lock>, steps: seq<Step>) {
    && |ls| == |steps| + 1 && Init(ls[0])
    && forall i :: 0 <= i < |steps| ==> Guard(ls[i], steps[i]) && ls[i + 1] == Apply(ls[i], steps[i])
  }

  // ---------------------------------------------------------------- what every state satisfies

  predicate Has(pc: Pc) {
    pc == Quit || pc == Held
  }

  /** In the slow loop and not asleep. */
  predicate Spins(pc: Pc) {
    pc == Peek || pc == Attempt || pc.Judge? || pc == Doze || pc == Quit
  }

  function Spinning(threads: seq<Thread>): nat {
    if threads == [] then 0
    else Spinning(threads[..|threads| - 1]) + (if Spins(threads[|threads| - 1].pc) then 1 else 0)
  }

  ghost predicate ThreadInv(l: Lock, t: Tid)
    requires t < |l.threads|
  {
    var p := l.threads[t];
    && Fits(p.mark) && p.mark.tid != 0
    && (Has(p.pc) ==> l.word == Word(p.mark))
  }

  ghost predicate OneHolder(l: Lock) {
    forall t, u :: 0 <= t < u < |l.threads| ==> !(Has(l.threads[t].pc) && Has(l.threads[u].pc))
  }

  ghost predicate Inv(l: Lock) {
    && (forall t :: 0 <= t < |l.threads| ==> ThreadInv(l, t))
    && OneHolder(l)
    && (l.word != 0 ==> exists t :: 0 <= t < |l.threads| && Has(l.threads[t].pc))
    && l.spinners == Spinning(l.threads)
  }

  lemma {:induction false} SpinningUpdate(q: seq<Thread>, t: Tid, p: Thread)
    requires t < |q|
    ensures Spinning(q[t := p]) == Spinning(q) - (if Spins(q[t].pc) then 1 else 0) + (if Spins(p.pc) then 1 else 0)
  {
    var n := |q| - 1;
    if t == n {
      assert q[t := p][..n] == q[..n];
    } else {
      assert q[t := p][..n] == q[..n][t := p];
      SpinningUpdate(q[..n], t, p);
    }
  }

  lemma {:induction false} NoneSpinning(q: seq<Thread>)
    requires forall t :: 0 <= t < |q| ==> q[t].pc == Out
    ensures Spinning(q) == 0
  {
    if q != [] { NoneSpinning(q[..|q| - 1]); }
  }

  /** What the loop makes of a lock word it finds. */
  lemma FoundWord(k: Marker)
    requires Fits(k)
    ensures Truncated(Word(k)) == 0 <==> k.tid == 0
    ensures LowerHalf(Word(k)) == k.tid && LowerHalf(Extended(Truncated(Word(k)))) == k.tid
  {
    ZeroMeansFree(k);
    TruncatedTid(k);
    LowerHalfOfWord(k);
  }

  /** The word in a lock that is taken is the marker of the thread that has it, and it is not 0. */
  lemma HeldWord(l: Lock) returns (h: Tid)
    requires Inv(l) && l.word != 0
    ensures h < |l.threads| && Has(l.threads[h].pc) && Fits(l.threads[h].mark) && l.threads[h].mark.tid != 0
    ensures l.word == Word(l.threads[h].mark) && Truncated(l.word) != 0
  {
    h :| 0 <= h < |l.threads| && Has(l.threads[h].pc);
    assert ThreadInv(l, h);
    FoundWord(l.threads[h].mark);
  }

  /** What a step does to word and holders. */
  ghost predicate Moves(l: Lock, t: Tid, l': Lock) {
    && t < |l.threads| == |l'.threads| && l'.threads == l.threads[t := l'.threads[t]]
    && l'.threads[t].mark == l.threads[t].mark
    && (Has(l'.threads[t].pc) && !Has(l.threads[t].pc) ==> l.word == 0 && l'.word == Word(l.threads[t].mark) && l'.word != 0)
    && (Has(l.threads[t].pc) ==> l'.word == if Has(l'.threads[t].pc) then l.word else 0)
    && (!Has(l.threads[t].pc) && !Has(l'.threads[t].pc) ==> l'.word == l.word)
  }

  /** A thread gets the lock only when nobody has it. */
  lemma Gets(l: Lock, step: Step)
    requires Guard(l, step) && Inv(l)
    ensures Moves(l, step.t, Apply(l, step))
  {
    var t := step.t;
    assert ThreadInv(l, t);
    FoundWord(l.threads[t].mark);
    if l.word != 0 {
      var h := HeldWord(l);
    } else {
      assert Truncated(0) == 0;
    }
    hide LowerHalf, Word, Truncated, Spinning;
  }

  lemma StepKeeps(l: Lock, step: Step)
    requires Guard(l, step) && Inv(l)
    ensures Inv(Apply(l, step))
  {
    var l' := Apply(l, step);
    StepCount(l, step);
    Gets(l, step);
    hide Apply, Spinning, Word;
    StepThreads(l, step.t, l');
    StepHolders(l, step.t, l');
  }

  /** The marker of a named thread is not the free lock. */
  lemma NamedWord(k: Marker)
    requires Fits(k) && k.tid != 0
    ensures Word(k) != 0
  {
    LowerHalfOfWord(k);
  }

  lemma StepThreads(l: Lock, t: Tid, l': Lock)
    requires Inv(l) && Moves(l, t, l')
    ensures forall u :: 0 <= u < |l'.threads| ==> ThreadInv(l', u)
  {
    hide Word;
    forall u | 0 <= u < |l'.threads| ensures ThreadInv(l', u) {
      assert ThreadInv(l, u) && ThreadInv(l, t);
      NamedWord(l.threads[u].mark);
    }
  }

  lemma StepHolders(l: Lock, t: Tid, l': Lock)
    requires Inv(l) && Moves(l, t, l')
    ensures OneHolder(l') && (l'.word != 0 ==> exists u :: 0 <= u < |l'.threads| && Has(l'.threads[u].pc))
  {
    hide Word, Has;
    forall u | 0 <= u < |l.threads| && Has(l.threads[u].pc) ensures l.word != 0 {
      assert ThreadInv(l, u);
      NamedWord(l.threads[u].mark);
    }
    if l'.word != 0 {
      if Has(l'.threads[t].pc) {
      } else {
        var u :| 0 <= u < |l.threads| && Has(l.threads[u].pc);
        assert u != t && Has(l'.threads[u].pc);
      }
    }
  }

  lemma StepCount(l: Lock, step: Step)
    requires Guard(l, step) && l.spinners == Spinning(l.threads)
    ensures var l' := Apply(l, step);
            && l'.spinners == Spinning(l'.threads) && |l'.threads| == |l.threads|
            && forall t :: 0 <= t < |l.threads| ==> l'.threads[t].mark == l.threads[t].mark
  {
    hide Apply;
    var p := StepShape(l, step);
    SpinningUpdate(l.threads, step.t, p);
    hide Spinning;
  }

  /** One thread moves on; spinners changes with it. */
  lemma StepShape(l: Lock, step: Step) returns (p: Thread)
    requires Guard(l, step)
    ensures var l' := Apply(l, step);
            && l'.threads == l.threads[step.t := p] && p.mark == l.threads[step.t].mark
            && l'.spinners - l.spinners == (if Spins(p.pc) then 1 else 0) - (if Spins(l.threads[step.t].pc) then 1 else 0)
  {
    hide Word, LowerHalf, Truncated;
    p := Apply(l, step).threads[step.t];
  }

  ghost predicate Named(l: Lock) {
    forall t :: 0 <= t < |l.threads| ==> l.threads[t].mark.tid != 0
  }

  lemma {:induction false} Reachable(ls: seq<Lock>, steps: seq<Step>, i: nat)
    requires Run(ls, steps) && i < |ls| && Named(ls[0])
    ensures Inv(ls[i])
  {
    if i == 0 {
      NoneSpinning(ls[0].threads);
    } else {
      Reachable(ls, steps, i - 1);
      hide Inv;
      StepKeeps(ls[i - 1], steps[i - 1]);
    }
  }

  // ---------------------------------------------------------------- what it promises

  /** With markers whose tid is not 0, one thread at most has the lock. */
  lemma Exclusive(ls: seq<Lock>, steps: seq<Step>, i: nat)
    requires Run(ls, steps) && i < |ls| && Named(ls[0])
    ensures OneHolder(ls[i])
  {
    Reachable(ls, steps, i);
  }

  /** spinners counts the threads in the slow loop that are not asleep. */
  lemma SpinnersExact(ls: seq<Lock>, steps: seq<Step>, i: nat)
    requires Run(ls, steps) && i < |ls| && Named(ls[0])
    ensures ls[i].spinners == Spinning(ls[i].threads)
  {
    Reachable(ls, steps, i);
  }

  /** A single marker with tid 0 is enough to let two threads in. */
  lemma NamelessBreaks(l: Lock, t: Tid, u: Tid) returns (ls: seq<Lock>, steps: seq<Step>)
    requires Init(l) && t < |l.threads| && u < |l.threads| && t != u && l.threads[t].mark.tid == 0
    ensures Run(ls, steps) && ls[0] == l
    ensures var m := ls[|ls| - 1]; |m.threads| == |l.threads| && Has(m.threads[t].pc) && Has(m.threads[u].pc)
  {
    var k := l.threads[t].mark;
    LowerHalfOfWord(k);
    ZeroMeansFree(k);
    steps := [Move(t, false), Move(t, false), Move(u, false), Move(u, false)];
    var l1 := Apply(l, steps[0]);
    var l2 := Apply(l1, steps[1]);
    var l3 := Apply(l2, steps[2]);
    var l4 := Apply(l3, steps[3]);
    ls := [l, l1, l2, l3, l4];
    hide LowerHalf, Word;
  }

  /** Mutual exclusion in every run, exactly when no tid is 0. */
  lemma ExclusiveIff(l: Lock)
    requires Init(l) && |l.threads| >= 2
    ensures (forall ls: seq<Lock>, steps: seq<Step> :: Run(ls, steps) && ls[0] == l ==> OneHolder(ls[|ls| - 1])) <==> Named(l)
  {
    if Named(l) {
      forall ls: seq<Lock>, steps: seq<Step> | Run(ls, steps) && ls[0] == l ensures OneHolder(ls[|ls| - 1]) {
        Exclusive(ls, steps, |ls| - 1);
      }
    } else {
      var t :| 0 <= t < |l.threads| && l.threads[t].mark.tid == 0;
      var u := if t == 0 then 1 else 0;
      var ls, steps := NamelessBreaks(l, t, u);
      assert !OneHolder(ls[|ls| - 1]);
    }
  }

  /** A try on a free lock gets it, and an unlock frees it. */
  lemma FreeIsTaken(l: Lock, step: Step)
    requires Guard(l, step)
    ensures var pc := l.threads[step.t].pc;
            var l' := Apply(l, step);
            && step.t < |l'.threads|
            && ((pc == Fast || pc == Second || pc == Attempt) && l.word == 0 ==>
                  Has(l'.threads[step.t].pc) && l'.word == Word(l.threads[step.t].mark))
            && (pc == Held ==> l'.word == 0 && l'.threads[step.t].pc == Out)
  {
    assert Truncated(0) == 0;
    hide Word;
  }

  // ---------------------------------------------------------------- the deadlock detection

  ghost predicate OwnTids(l: Lock) {
    forall t, u :: 0 <= t < u < |l.threads| ==> l.threads[t].mark.tid != l.threads[u].mark.tid
  }

  /** What a thread has seen in the lock is another's tid. */
  ghost predicate Quiet(l: Lock) {
    && OwnTids(l) && !l.alarm
    && forall t :: 0 <= t < |l.threads| ==>
         (l.threads[t].pc.Judge? ==> LowerHalf(l.threads[t].pc.seen) != l.threads[t].mark.tid)
  }

  lemma QuietStep(l: Lock, step: Step)
    requires Guard(l, step) && Inv(l) && Quiet(l)
    ensures Quiet(Apply(l, step))
  {
    var t := step.t;
    assert ThreadInv(l, t);
    if l.word != 0 {
      var h := HeldWord(l);
      FoundWord(l.threads[h].mark);
    }
    hide LowerHalf, Word, Spinning, Inv;
  }

  lemma {:induction false} StaysQuiet(ls: seq<Lock>, steps: seq<Step>, i: nat)
    requires Run(ls, steps) && i < |ls| && Named(ls[0]) && OwnTids(ls[0])
    ensures Quiet(ls[i])
  {
    if i > 0 {
      StaysQuiet(ls, steps, i - 1);
      Reachable(ls, steps, i - 1);
      hide Inv, Quiet;
      QuietStep(ls[i - 1], steps[i - 1]);
    }
  }

  /** Two threads with one tid: the second takes the first one's lock for its own. */
  lemma SharedTidAlarms(l: Lock, t: Tid, u: Tid) returns (ls: seq<Lock>, steps: seq<Step>)
    requires Init(l) && t < |l.threads| && u < |l.threads| && t != u
    requires l.threads[t].mark.tid == l.threads[u].mark.tid != 0
    ensures Run(ls, steps) && ls[0] == l && ls[|ls| - 1].alarm
    ensures |ls[|ls| - 1].threads| == |l.threads| && ls[|ls| - 1].threads[t].pc == Held
  {
    var k := l.threads[t].mark;
    FoundWord(k);
    NamedWord(k);
    assert Truncated(0) == 0;
    hide LowerHalf, Word, Truncated;
    var a, b := Move(t, false), Move(u, false);
    steps := [a, a, b, b, b, b, b, b];
    var l1 := Apply(l, a);
    var l2 := Apply(l1, a);
    var l3 := Apply(l2, b);
    var l4 := Apply(l3, b);
    var l5 := Apply(l4, b);
    var l6 := Apply(l5, b);
    var l7 := Apply(l6, b);
    var l8 := Apply(l7, b);
    ls := [l, l1, l2, l3, l4, l5, l6, l7, l8];
  }

  /** The detection stays silent in every run exactly when no two threads share a tid; whoever has
      the default marker of a pthread that is no worker shares it. */
  lemma AlarmIff(l: Lock)
    requires Init(l) && Named(l)
    ensures (forall ls: seq<Lock>, steps: seq<Step> :: Run(ls, steps) && ls[0] == l ==> !ls[|ls| - 1].alarm) <==> OwnTids(l)
  {
    if OwnTids(l) {
      forall ls: seq<Lock>, steps: seq<Step> | Run(ls, steps) && ls[0] == l ensures !ls[|ls| - 1].alarm {
        StaysQuiet(ls, steps, |ls| - 1);
      }
    } else {
      var t, u :| 0 <= t < u < |l.threads| && l.threads[t].mark.tid == l.threads[u].mark.tid;
      var ls, steps := SharedTidAlarms(l, t, u);
    }
  }
}

/**
 Lock freedom of the queue without the token channel: while no call completes, the
 threads together can take only so many steps.
 */
module QueueLockFree {
  import opened Wrappers
  import opened LockFreeQueue
  import opened QueueCounts
  import opened QueueProgress

  // The farthest a thread can be from its next swap.
  const FAR: nat := 12

  // One pass round the loop when the view has gone stale.
  ghost function Stale(m: Memory, l: Local): nat {
    if Fresh(m, l) then 0 else 6
  }

  // How far a thread is from a swap or from its return, while the pointers stay.
  ghost function Rank(m: Memory, l: Local): nat {
    match l
    case EnqStart(_) => 4
    case EnqTail(_, _) => 3 + Stale(m, l)
    case EnqNext(_, _, _) => 2 + Stale(m, l)
    case EnqChecked(_, _, _) => 1 + Stale(m, l)
    case EnqLinked(_, _) => 2
    case EnqSwung => 1
    case DeqStart => 5
    case DeqHead(_) => 4 + Stale(m, l)
    case DeqTail(_, _) => 3 + Stale(m, l)
    case DeqNext(_, _, _) => 2 + Stale(m, l)
    case DeqChecked(_, _, _) => 1 + Stale(m, l)
    case DeqTaken(_) => 1
    case _ => FAR
  }

  // The swaps a thread may still bring about before a call of its own completes: that
  // of its link and of the tail behind it, or that of the head.
  ghost function Left(l: Local): int {
    if l.EnqLinked? || l.EnqSwung? || l.EnqCounted? || l.DeqTaken? then 0 else 2
  }

  ghost function Ranks(m: Memory): Local -> int {
    (l: Local) => Rank(m, l)
  }

  ghost function Lag(m: Memory): int {
    |m.enqueued| - m.swings
  }

  // ------------------------------------------------------------- one thread's step

  lemma {:induction false} EnqDescends(m: Memory, l: Local, m': Memory, l': Local)
    requires MemInv(m) && LocalInv(m, l) && InEnqueue(l) && EnqStep(m, l) == Some((m', l'))
    requires !m.synch && !AtRest(l')
    ensures if Swaps(m') == Swaps(m) then Rank(m', l') < Rank(m, l) && Left(l') == Left(l) && Lag(m') == Lag(m)
            else Left(l') + Lag(m') < Left(l) + Lag(m)
  {
    assert LinkedInv(m, m.tail);
  }

  lemma {:induction false} DeqDescends(m: Memory, l: Local, m': Memory, l': Local)
    requires MemInv(m) && LocalInv(m, l) && InDequeue(l) && DeqStep(m, l) == Some((m', l'))
    requires !m.synch && !AtRest(l') && !l'.Crashed?
    ensures if Swaps(m') == Swaps(m) then Rank(m', l') < Rank(m, l) && Left(l') == Left(l) && Lag(m') == Lag(m)
            else Left(l') + Lag(m') < Left(l) + Lag(m)
  {
  }

  // A step that completes no call brings its thread closer, or uses up a swap.
  lemma {:induction false} StepDescends(m: Memory, l: Local, c: Call, m': Memory, l': Local)
    requires MemInv(m) && LocalInv(m, l) && Step(m, l, c) == Some((m', l'))
    requires !m.synch && !AtRest(l') && !l'.Crashed?
    ensures if Swaps(m') == Swaps(m) then Rank(m', l') < Rank(m, l) && Left(l') == Left(l) && Lag(m') == Lag(m)
            else Left(l') + Lag(m') < Left(l) + Lag(m)
  {
    if c.Resume? {
      if InEnqueue(l) {
        EnqDescends(m, l, m', l');
      } else {
        DeqDescends(m, l, m', l');
      }
    }
  }

  // While the pointers stay, so do the ranks of the others.
  lemma {:induction false} RankStays(m: Memory, m': Memory, l: Local)
    requires MemInv(m) && LocalInv(m, l) && SamePointers(m, m')
    ensures Rank(m', l) == Rank(m, l)
  {
    assert LinkedInv(m, m.tail) && LinkedInv(m, m.head);
  }

  // ---------------------------------------------------------------- all the threads

  lemma {:induction false} TotalSame(ls: map<Tid, Local>, w: Local -> int, w': Local -> int)
    requires forall t :: t in ls ==> w(ls[t]) == w'(ls[t])
    ensures Total(ls, w) == Total(ls, w')
    decreases |ls|
  {
    if ls.Keys == {} {
    } else {
      var t :| t in ls;
      TotalPick(ls, w, t);
      TotalPick(ls, w', t);
      TotalSame(ls - {t}, w, w');
    }
  }

  lemma {:induction false} TotalAtMost(ls: map<Tid, Local>, w: Local -> int, bound: nat)
    requires forall l :: 0 <= w(l) <= bound
    ensures 0 <= Total(ls, w) <= bound * |ls|
    decreases |ls|
  {
    if ls.Keys == {} {
    } else {
      var t :| t in ls;
      TotalPick(ls, w, t);
      TotalAtMost(ls - {t}, w, bound);
      assert |ls - {t}| == |ls| - 1;
      assert bound * |ls| == bound * (|ls| - 1) + bound;
    }
  }

  // The swaps that can still succeed before a call completes.
  ghost function SwapsLeft(s: Queue): int {
    Total(s.locals, Left) + Lag(s.mem)
  }

  // Each of them may send every thread round its loop once more.
  ghost function Weigh(left: int, threads: nat, ranks: int): int {
    left * (FAR * threads + 1) + ranks
  }

  ghost function Potential(s: Queue): int {
    Weigh(SwapsLeft(s), |s.locals|, Total(s.locals, Ranks(s.mem)))
  }

  lemma {:induction false} FewerSwaps(left: int, left': int, threads: nat, ranks: int, ranks': int)
    requires left' < left && 0 <= ranks && ranks' <= FAR * threads
    ensures Weigh(left', threads, ranks') < Weigh(left, threads, ranks)
  {
    var w := FAR * threads + 1;
    Scaled(left - 1, left', w);
    assert left * w == (left - 1) * w + w;
  }

  lemma {:induction false} RanksStay(s: Queue, m': Memory)
    requires Inv(s) && SamePointers(s.mem, m')
    ensures Total(s.locals, Ranks(m')) == Total(s.locals, Ranks(s.mem))
  {
    forall u | u in s.locals ensures Ranks(m')(s.locals[u]) == Ranks(s.mem)(s.locals[u]) {
      assert LocalInv(s.mem, s.locals[u]);
      RankStays(s.mem, m', s.locals[u]);
    }
    TotalSame(s.locals, Ranks(m'), Ranks(s.mem));
  }

  lemma {:induction false} SameSize(ls: map<Tid, Local>, t: Tid, l: Local)
    requires t in ls
    ensures |ls[t := l]| == |ls|
  {
    assert ls[t := l].Keys == ls.Keys;
    assert |ls[t := l]| == |ls[t := l].Keys| && |ls| == |ls.Keys|;
  }

  // A thread moves to place l' without a swap and without completing its call.
  lemma {:induction false} QuietDescends(s: Queue, t: Tid, m': Memory, l': Local)
    requires Inv(s) && t in s.locals && SamePointers(s.mem, m')
    requires Rank(m', l') < Rank(s.mem, s.locals[t]) && Left(l') == Left(s.locals[t]) && Lag(m') == Lag(s.mem)
    ensures Potential(Queue(m', s.locals[t := l'])) < Potential(s)
  {
    RanksFall(s, t, m', l');
    TotalUpdate(s.locals, Left, t, l');
    SameSize(s.locals, t, l');
    LowerRanks(SwapsLeft(s), |s.locals|, Total(s.locals, Ranks(s.mem)), Total(s.locals[t := l'], Ranks(m')));
  }

  lemma {:induction false} RanksFall(s: Queue, t: Tid, m': Memory, l': Local)
    requires Inv(s) && t in s.locals && SamePointers(s.mem, m') && Rank(m', l') < Rank(s.mem, s.locals[t])
    ensures Total(s.locals[t := l'], Ranks(m')) < Total(s.locals, Ranks(s.mem))
  {
    RanksStay(s, m');
    assert LocalInv(s.mem, s.locals[t]);
    RankStays(s.mem, m', s.locals[t]);
    TotalUpdate(s.locals, Ranks(m'), t, l');
  }

  lemma {:induction false} LowerRanks(left: int, threads: nat, ranks: int, ranks': int)
    requires ranks' < ranks
    ensures Weigh(left, threads, ranks') < Weigh(left, threads, ranks)
  {
  }

  // It moves there with a swap.
  lemma {:induction false} SwapDescends(s: Queue, t: Tid, m': Memory, l': Local)
    requires t in s.locals && Left(l') + Lag(m') < Left(s.locals[t]) + Lag(s.mem)
    ensures Potential(Queue(m', s.locals[t := l'])) < Potential(s)
  {
    var s' := Queue(m', s.locals[t := l']);
    SameSize(s.locals, t, l');
    TotalUpdate(s.locals, Left, t, l');
    TotalAtMost(s'.locals, Ranks(m'), FAR);
    TotalAtMost(s.locals, Ranks(s.mem), FAR);
    FewerSwaps(SwapsLeft(s), SwapsLeft(s'), |s.locals|, Total(s.locals, Ranks(s.mem)), Total(s'.locals, Ranks(m')));
  }

  lemma {:induction false} Scaled(a: int, b: int, w: nat)
    requires b <= a
    ensures b * w <= a * w
    decreases a - b
  {
    if a == b {
    } else {
      Scaled(a - 1, b, w);
      assert a * w == (a - 1) * w + w;
    }
  }

  ghost predicate Completes(tr: seq<Queue>, es: seq<Event>, k: nat)
    requires |tr| == |es| + 1 && k < |es|
  {
    AtRest(LocalAt(tr, k + 1, es[k].tid))
  }

  lemma {:induction false} StepLowers(tr: seq<Queue>, es: seq<Event>, k: nat)
    requires IsRun(tr, es) && k < |es| && !tr[k].mem.synch && !Completes(tr, es, k)
    ensures Potential(tr[k + 1]) < Potential(tr[k])
  {
    RunKeepsInv(tr, es, k);
    RunKeepsInv(tr, es, k + 1);
    assert StepAt(tr, es, k);
    var s, e, s' := tr[k], es[k], tr[k + 1];
    var l := s.locals[e.tid];
    var l' :| Step(s.mem, l, e.call) == Some((s'.mem, l')) && s'.locals == s.locals[e.tid := l'];
    assert s' == Queue(s'.mem, s.locals[e.tid := l']);
    assert LocalInv(s.mem, l) && LocalInv(s'.mem, s'.locals[e.tid]);
    StepDescends(s.mem, l, e.call, s'.mem, l');
    QuietStep(s.mem, l, e.call, s'.mem, l');
    if Swaps(s'.mem) == Swaps(s.mem) {
      QuietDescends(s, e.tid, s'.mem, l');
    } else {
      SwapDescends(s, e.tid, s'.mem, l');
    }
  }

  lemma {:induction false} SameThreads(tr: seq<Queue>, es: seq<Event>, k: nat)
    requires IsRun(tr, es) && k < |tr|
    ensures tr[k].locals.Keys == tr[0].locals.Keys && tr[k].mem.synch == tr[0].mem.synch
  {
    if k == 0 {
    } else {
      SameThreads(tr, es, k - 1);
      assert StepAt(tr, es, k - 1);
    }
  }

  lemma {:induction false} SwapsLeftBounds(tr: seq<Queue>, es: seq<Event>, k: nat)
    requires IsRun(tr, es) && k < |tr|
    ensures |tr[k].locals| == |tr[0].locals| && 0 <= SwapsLeft(tr[k]) <= 2 * |tr[0].locals| + 1
  {
    SameThreads(tr, es, k);
    assert |tr[k].locals| == |tr[k].locals.Keys| && |tr[0].locals| == |tr[0].locals.Keys|;
    RunKeepsInv(tr, es, k);
    TotalAtMost(tr[k].locals, Left, 2);
  }

  lemma {:induction false} PotentialBounds(tr: seq<Queue>, es: seq<Event>, k: nat)
    requires IsRun(tr, es) && k < |tr|
    ensures var n := |tr[0].locals|;
      0 <= Potential(tr[k]) <= (2 * n + 1) * (FAR * n + 1) + FAR * n
  {
    var s, n := tr[k], |tr[0].locals|;
    SwapsLeftBounds(tr, es, k);
    TotalAtMost(s.locals, Ranks(s.mem), FAR);
    Scaled(2 * n + 1, SwapsLeft(s), FAR * n + 1);
    Scaled(SwapsLeft(s), 0, FAR * n + 1);
  }

  lemma {:induction false} QuietRunLowers(tr: seq<Queue>, es: seq<Event>, i: nat, k: nat)
    requires IsRun(tr, es) && i <= k < |tr| && !tr[0].mem.synch
    requires forall j: nat :: i <= j < k ==> !Completes(tr, es, j)
    ensures Potential(tr[k]) + (k - i) <= Potential(tr[i])
    decreases k - i
  {
    if i == k {
    } else {
      QuietRunLowers(tr, es, i, k - 1);
      SameThreads(tr, es, k - 1);
      StepLowers(tr, es, k - 1);
    }
  }

  // With n threads and no token channel, any stretch of a run in which no call
  // completes is shorter than a number that depends on n alone.
  lemma {:induction false} LockFree(tr: seq<Queue>, es: seq<Event>, i: nat, k: nat)
    requires IsRun(tr, es) && i <= k < |tr| && !tr[0].mem.synch
    requires forall j: nat :: i <= j < k ==> !Completes(tr, es, j)
    ensures var n := |tr[0].locals|;
      k - i <= (2 * n + 1) * (FAR * n + 1) + FAR * n
  {
    QuietRunLowers(tr, es, i, k);
    PotentialBounds(tr, es, i);
    PotentialBounds(tr, es, k);
  }
}

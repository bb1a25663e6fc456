/**
 Why a thread retries: it goes round its loop again only if, in the meantime, some swap
 succeeded, its own swing of the tail included.
 */
module QueueProgress {
  import opened Wrappers
  import opened LockFreeQueue

  // The number of successful swaps so far.
  ghost function Swaps(m: Memory): nat {
    |m.enqueued| + |m.dequeued| + m.swings
  }

  // What a thread has loaded is still what a load would give now.
  ghost predicate Fresh(m: Memory, l: Local) {
    match l
    case EnqTail(_, tail) => tail == m.tail
    case EnqNext(_, tail, next) => tail == m.tail && next == NextOf(m, tail)
    case EnqChecked(_, tail, next) => tail == m.tail && next == NextOf(m, tail)
    case DeqHead(head) => head == m.head
    case DeqTail(head, tail) => head == m.head && tail == m.tail
    case DeqNext(head, tail, next) => head == m.head && tail == m.tail && next == NextOf(m, head)
    case DeqChecked(head, tail, next) => head == m.head && tail == m.tail && next == NextOf(m, head)
    case _ => true
  }

  // The top of the retry loop of either operation.
  ghost predicate Top(l: Local) {
    l.EnqStart? || l.DeqStart?
  }

  ghost predicate SamePointers(m: Memory, m': Memory) {
    && m'.head == m.head && m'.tail == m.tail && |m.heap| <= |m'.heap|
    && forall a :: 0 <= a < |m.heap| ==> m'.heap[a] == m.heap[a]
  }

  lemma {:induction false} QuietEnqStep(m: Memory, l: Local, m': Memory, l': Local)
    requires MemInv(m) && LocalInv(m, l) && InEnqueue(l) && EnqStep(m, l) == Some((m', l'))
    ensures Swaps(m') >= Swaps(m)
    ensures Swaps(m') == Swaps(m) ==> SamePointers(m, m')
  {
  }

  lemma {:induction false} QuietDeqStep(m: Memory, l: Local, m': Memory, l': Local)
    requires MemInv(m) && LocalInv(m, l) && InDequeue(l) && DeqStep(m, l) == Some((m', l'))
    ensures Swaps(m') >= Swaps(m)
    ensures Swaps(m') == Swaps(m) ==> SamePointers(m, m')
  {
  }

  lemma {:induction false} QuietStep(m: Memory, l: Local, c: Call, m': Memory, l': Local)
    requires MemInv(m) && LocalInv(m, l) && Step(m, l, c) == Some((m', l'))
    ensures Swaps(m') >= Swaps(m)
    ensures Swaps(m') == Swaps(m) ==> SamePointers(m, m')
  {
    if c.Resume? {
      if InEnqueue(l) { QuietEnqStep(m, l, m', l'); } else { QuietDeqStep(m, l, m', l'); }
    }
  }

  lemma {:induction false} StaysFresh(m: Memory, m': Memory, l: Local)
    requires MemInv(m) && LocalInv(m, l) && SamePointers(m, m') && Fresh(m, l)
    ensures Fresh(m', l)
  {
    assert LinkedInv(m, m.tail) && LinkedInv(m, m.head);
  }

  lemma {:induction false} OwnStepFresh(m: Memory, l: Local, c: Call, m': Memory, l': Local)
    requires MemInv(m) && LocalInv(m, l) && Step(m, l, c) == Some((m', l'))
    requires Fresh(m, l) && Swaps(m') == Swaps(m)
    ensures Fresh(m', l')
    ensures c.Resume? ==> !Top(l')
  {
    assert LinkedInv(m, m.tail);
  }

  // One step of a run, for thread t.
  lemma {:induction false} RunStep(tr: seq<Queue>, es: seq<Event>, k: nat, t: Tid)
    requires IsRun(tr, es) && k < |es|
    ensures Swaps(tr[k + 1].mem) >= Swaps(tr[k].mem)
    ensures Swaps(tr[k + 1].mem) == Swaps(tr[k].mem) && Fresh(tr[k].mem, LocalAt(tr, k, t))
      ==> Fresh(tr[k + 1].mem, LocalAt(tr, k + 1, t)) && (es[k] == Event(t, Resume) ==> !Top(LocalAt(tr, k + 1, t)))
    ensures es[k].tid != t ==> LocalAt(tr, k + 1, t) == LocalAt(tr, k, t)
    ensures es[k].tid == t && !es[k].call.Resume? ==> AtRest(LocalAt(tr, k, t))
  {
    RunKeepsInv(tr, es, k);
    assert StepAt(tr, es, k);
    var s, e, s' := tr[k], es[k], tr[k + 1];
    var l := s.locals[e.tid];
    var l' :| Step(s.mem, l, e.call) == Some((s'.mem, l')) && s'.locals == s.locals[e.tid := l'];
    assert LocalInv(s.mem, l);
    QuietStep(s.mem, l, e.call, s'.mem, l');
    if Swaps(s'.mem) == Swaps(s.mem) && Fresh(s.mem, LocalAt(tr, k, t)) {
      if e.tid == t {
        OwnStepFresh(s.mem, l, e.call, s'.mem, l');
      } else if t in s.locals {
        assert LocalInv(s.mem, s.locals[t]);
        StaysFresh(s.mem, s'.mem, s.locals[t]);
      }
    }
  }

  lemma {:induction false} StillFresh(tr: seq<Queue>, es: seq<Event>, i: nat, k: nat, t: Tid)
    requires IsRun(tr, es) && i <= k < |tr| && Top(LocalAt(tr, i, t))
    ensures Swaps(tr[i].mem) <= Swaps(tr[k].mem)
    ensures Swaps(tr[i].mem) == Swaps(tr[k].mem) ==> Fresh(tr[k].mem, LocalAt(tr, k, t))
    decreases k - i
  {
    if i >= k {
    } else {
      StillFresh(tr, es, i, k - 1, t);
      RunStep(tr, es, k - 1, t);
    }
  }

  // From one visit to the top of its loop to the next, within one call, a swap
  // has succeeded somewhere.
  lemma {:induction false} RetryMeansProgress(tr: seq<Queue>, es: seq<Event>, i: nat, k: nat, t: Tid)
    requires IsRun(tr, es) && i < k < |tr|
    requires Top(LocalAt(tr, i, t)) && Top(LocalAt(tr, k, t))
    requires forall j: nat :: i < j < k ==> !AtRest(LocalAt(tr, j, t))
    requires es[k - 1].tid == t
    ensures Swaps(tr[i].mem) < Swaps(tr[k].mem)
  {
    StillFresh(tr, es, i, k - 1, t);
    RunStep(tr, es, k - 1, t);
  }
}

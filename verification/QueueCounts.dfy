/**
 What the size counter and the token channel of the lock-free queue say about the
 values waiting, for every interleaving.
 */
module QueueCounts {
  import opened Wrappers
  import opened LockFreeQueue

  // The sum of a weight over all threads.
  ghost function Total(ls: map<Tid, Local>, w: Local -> int): int
    decreases |ls|
  {
    if ls.Keys == {} then 0
    else var t :| t in ls; w(ls[t]) + Total(ls - {t}, w)
  }

  lemma {:induction false} TotalPick(ls: map<Tid, Local>, w: Local -> int, t: Tid)
    requires t in ls
    ensures Total(ls, w) == w(ls[t]) + Total(ls - {t}, w)
    decreases |ls|
  {
    var u :| u in ls && Total(ls, w) == w(ls[u]) + Total(ls - {u}, w);
    if u != t {
      TotalPick(ls - {u}, w, t);
      TotalPick(ls - {t}, w, u);
      assert ls - {u} - {t} == ls - {t} - {u};
    }
  }

  lemma {:induction false} TotalUpdate(ls: map<Tid, Local>, w: Local -> int, t: Tid, l: Local)
    requires t in ls
    ensures Total(ls[t := l], w) == Total(ls, w) - w(ls[t]) + w(l)
  {
    TotalPick(ls, w, t);
    TotalPick(ls[t := l], w, t);
    assert ls[t := l] - {t} == ls - {t};
  }

  lemma {:induction false} TotalAtLeast(ls: map<Tid, Local>, w: Local -> int)
    requires forall l :: w(l) >= 0
    ensures Total(ls, w) >= 0
    ensures forall t :: t in ls ==> Total(ls, w) >= w(ls[t])
    decreases |ls|
  {
    if ls.Keys == {} {
    } else {
      forall t | t in ls ensures Total(ls, w) >= w(ls[t]) && Total(ls, w) >= 0 {
        TotalPick(ls, w, t);
        TotalAtLeast(ls - {t}, w);
      }
      var t :| t in ls;
    }
  }

  lemma {:induction false} TotalZero(ls: map<Tid, Local>, w: Local -> int)
    requires forall t :: t in ls ==> w(ls[t]) == 0
    ensures Total(ls, w) == 0
    decreases |ls|
  {
    if ls.Keys == {} {
    } else {
      var t :| t in ls;
      TotalPick(ls, w, t);
      TotalZero(ls - {t}, w);
    }
  }

  // +1 for a value linked and not counted, -1 for one taken and not counted.
  function Uncounted(l: Local): int {
    if l.EnqLinked? || l.EnqSwung? then 1 else if l.DeqTaken? then -1 else 0
  }

  // 1 for an Enqueue that has linked its value and not sent its token.
  function Unsent(l: Local): int {
    if l.EnqLinked? || l.EnqSwung? || l.EnqCounted? then 1 else 0
  }

  // 1 for a Dequeue that has received a token and not yet taken a value with it.
  function Holding(l: Local): int {
    if l.DeqToken? || l.DeqHead? || l.DeqTail? || l.DeqNext? || l.DeqChecked? then 1 else 0
  }

  ghost predicate Counts(m: Memory, uncounted: int, unsent: int, holding: int) {
    && m.size + uncounted == |m.enqueued| - |m.dequeued|
    && (m.synch ==>
          && m.sent + unsent == |m.enqueued|
          && m.received == |m.dequeued| + holding + m.wasted
          && m.tokens == m.sent - m.received)
  }

  ghost predicate CountsInv(s: Queue) {
    Counts(s.mem, Total(s.locals, Uncounted), Total(s.locals, Unsent), Total(s.locals, Holding))
  }

  lemma {:induction false} EnqCounts(m: Memory, l: Local, m': Memory, l': Local, uncounted: int, unsent: int,
          holding: int)
    requires InEnqueue(l) && EnqStep(m, l) == Some((m', l')) && Counts(m, uncounted, unsent, holding)
    ensures Counts(m', uncounted - Uncounted(l) + Uncounted(l'), unsent - Unsent(l) + Unsent(l'),
                   holding - Holding(l) + Holding(l'))
  {
  }

  lemma {:induction false} DeqCounts(m: Memory, l: Local, m': Memory, l': Local, uncounted: int, unsent: int,
          holding: int)
    requires InDequeue(l) && DeqStep(m, l) == Some((m', l')) && Counts(m, uncounted, unsent, holding)
    requires !l'.Crashed?
    ensures Counts(m', uncounted - Uncounted(l) + Uncounted(l'), unsent - Unsent(l) + Unsent(l'),
                   holding - Holding(l) + Holding(l'))
  {
  }

  lemma {:induction false} StepCounts(m: Memory, l: Local, c: Call, m': Memory, l': Local,
                   uncounted: int, unsent: int, holding: int)
    requires MemInv(m) && LocalInv(m, l) && Step(m, l, c) == Some((m', l'))
    requires Counts(m, uncounted, unsent, holding)
    ensures Counts(m', uncounted - Uncounted(l) + Uncounted(l'), unsent - Unsent(l) + Unsent(l'),
                   holding - Holding(l) + Holding(l'))
  {
    if c.Resume? {
      if InEnqueue(l) {
        EnqCounts(m, l, m', l', uncounted, unsent, holding);
      } else {
        DeqIsGood(m, l, m', l');
        DeqCounts(m, l, m', l', uncounted, unsent, holding);
      }
    }
  }

  lemma {:induction false} RunCounts(tr: seq<Queue>, es: seq<Event>, k: nat)
    requires IsRun(tr, es) && k < |tr|
    ensures CountsInv(tr[k])
  {
    if k == 0 {
      var threads, synch :| tr[0] == Init(threads, synch);
      TotalZero(tr[0].locals, Uncounted);
      TotalZero(tr[0].locals, Unsent);
      TotalZero(tr[0].locals, Holding);
    } else {
      RunCounts(tr, es, k - 1);
      RunKeepsInv(tr, es, k - 1);
      assert StepAt(tr, es, k - 1);
      var s, e, s' := tr[k - 1], es[k - 1], tr[k];
      var l' :| Step(s.mem, s.locals[e.tid], e.call) == Some((s'.mem, l')) && s'.locals == s.locals[e.tid := l'];
      assert LocalInv(s.mem, s.locals[e.tid]);
      StepCounts(s.mem, s.locals[e.tid], e.call, s'.mem, l',
                 Total(s.locals, Uncounted), Total(s.locals, Unsent), Total(s.locals, Holding));
      TotalUpdate(s.locals, Uncounted, e.tid, l');
      TotalUpdate(s.locals, Unsent, e.tid, l');
      TotalUpdate(s.locals, Holding, e.tid, l');
    }
  }

  ghost predicate AllAtRest(s: Queue) {
    forall t :: t in s.locals ==> AtRest(s.locals[t])
  }

  // When every thread is at rest the counter is the length of the queue.
  lemma {:induction false} QuiescentLen(tr: seq<Queue>, es: seq<Event>, k: nat)
    requires IsRun(tr, es) && k < |tr| && AllAtRest(tr[k])
    ensures tr[k].mem.size == |Waiting(tr[k].mem)|
  {
    RunCounts(tr, es, k);
    RunKeepsInv(tr, es, k);
    TotalZero(tr[k].locals, Uncounted);
  }

  // A Dequeue returns with its value the counter as it is after the removal; when no other
  // call is in progress, that is the number of values waiting.
  lemma {:induction false} ReturnedLen(tr: seq<Queue>, es: seq<Event>, k: nat)
    requires IsRun(tr, es) && k < |es| && es[k].tid in tr[k].locals && tr[k].locals[es[k].tid].DeqTaken?
    ensures var t := es[k].tid;
      && t in tr[k + 1].locals && tr[k + 1].locals[t].DeqDone?
      && tr[k + 1].locals[t].result == Some(tr[k].locals[t].taken)
      && tr[k + 1].locals[t].len == tr[k + 1].mem.size == tr[k].mem.size - 1
      && (AllAtRest(tr[k + 1]) ==> tr[k + 1].locals[t].len == |Waiting(tr[k + 1].mem)|)
  {
    assert StepAt(tr, es, k);
    if AllAtRest(tr[k + 1]) { QuiescentLen(tr, es, k + 1); }
  }

  // The channel never holds more than its buffer.
  lemma {:induction false} ChannelBounded(tr: seq<Queue>, es: seq<Event>, k: nat)
    requires IsRun(tr, es) && k < |tr|
    ensures tr[k].mem.tokens <= 32768
  {
    if k == 0 {
      var threads, synch :| tr[0] == Init(threads, synch);
    } else {
      ChannelBounded(tr, es, k - 1);
      assert StepAt(tr, es, k - 1);
    }
  }

  // With the channel on, the values waiting are accounted for exactly: by tokens
  // in the channel, by Enqueues still to send one, by Dequeues holding one, and
  // by tokens wasted.
  lemma {:induction false} WaitingBalance(tr: seq<Queue>, es: seq<Event>, k: nat)
    requires IsRun(tr, es) && k < |tr| && tr[k].mem.synch
    ensures var s := tr[k];
      |Waiting(s.mem)| == s.mem.tokens + Total(s.locals, Unsent) + Total(s.locals, Holding) + s.mem.wasted
  {
    RunCounts(tr, es, k);
    RunKeepsInv(tr, es, k);
  }

  // ------------------------------------------------------- exactly one consumer

  ghost predicate OneConsumer(es: seq<Event>, c: Tid) {
    forall i :: 0 <= i < |es| && es[i].call.Dequeue? ==> es[i].tid == c
  }

  // A token holder sees the true head, and a tail and a successor beyond it.
  ghost predicate ConsumerView(m: Memory, l: Local) {
    match l
    case DeqHead(head) => head == m.head
    case DeqTail(head, tail) => head == m.head && tail in m.linked && m.linked[tail] > |m.dequeued|
    case DeqNext(head, tail, next) =>
      head == m.head && tail in m.linked && m.linked[tail] > |m.dequeued| && next.Some?
    case DeqChecked(head, tail, next) =>
      head == m.head && tail in m.linked && m.linked[tail] > |m.dequeued| && next.Some?
    case DeqDone(result, _) => result.Some?
    case _ => true
  }

  ghost predicate ConsumerInv(s: Queue, c: Tid) {
    && s.mem.synch && s.mem.wasted == 0
    && (forall t :: t in s.locals && t != c ==> !InDequeue(s.locals[t]) && !s.locals[t].DeqDone?)
    && (c in s.locals ==> ConsumerView(s.mem, s.locals[c]))
  }

  // While the consumer holds a token the tail is past the head: the value its
  // token stands for has been linked and its own Enqueue has seen the tail move.
  lemma {:induction false} TailAhead(s: Queue, c: Tid)
    requires Inv(s) && CountsInv(s) && s.mem.synch && s.mem.wasted == 0
    requires c in s.locals && Holding(s.locals[c]) == 1
    ensures |s.mem.dequeued| < s.mem.swings
  {
    TotalAtLeast(s.locals, Unsent);
    TotalAtLeast(s.locals, Holding);
    if s.mem.swings < |s.mem.enqueued| {
      var t :| t in s.locals && Swinger(s.mem, s.locals[t]);
      assert Total(s.locals, Unsent) >= Unsent(s.locals[t]);
    }
  }

  lemma {:induction false} EnqKeepsView(m: Memory, l: Local, m': Memory, l': Local, k: Local)
    requires MemInv(m) && LocalInv(m, l) && InEnqueue(l) && EnqStep(m, l) == Some((m', l'))
    requires ConsumerView(m, k)
    ensures ConsumerView(m', k) && m'.wasted == m.wasted && m'.synch == m.synch
    ensures InEnqueue(l') || l'.EnqDone?
  {
    EnqIsGood(m, l, m', l');
  }

  lemma {:induction false} DeqKeepsView(m: Memory, l: Local, m': Memory, l': Local)
    requires MemInv(m) && LocalInv(m, l) && InDequeue(l) && DeqStep(m, l) == Some((m', l'))
    requires ConsumerView(m, l) && m.synch && (Holding(l) == 1 ==> |m.dequeued| < m.swings)
    ensures ConsumerView(m', l') && m'.wasted == m.wasted && m'.synch
  {
    DeqIsGood(m, l, m', l');
    if l.DeqTail? { assert LinkedInv(m, l.head); }
  }

  lemma {:induction false} EnqKeepsConsumer(s: Queue, t: Tid, m': Memory, l': Local, c: Tid)
    requires Inv(s) && ConsumerInv(s, c) && t in s.locals && InEnqueue(s.locals[t])
    requires EnqStep(s.mem, s.locals[t]) == Some((m', l'))
    ensures ConsumerInv(Queue(m', s.locals[t := l']), c)
  {
    assert LocalInv(s.mem, s.locals[t]);
    EnqKeepsView(s.mem, s.locals[t], m', l', if c in s.locals then s.locals[c] else Idle);
  }

  lemma {:induction false} DeqKeepsConsumer(s: Queue, t: Tid, m': Memory, l': Local, c: Tid)
    requires Inv(s) && CountsInv(s) && ConsumerInv(s, c) && t in s.locals && InDequeue(s.locals[t])
    requires DeqStep(s.mem, s.locals[t]) == Some((m', l'))
    ensures ConsumerInv(Queue(m', s.locals[t := l']), c)
  {
    assert LocalInv(s.mem, s.locals[t]) && t == c;
    if Holding(s.locals[t]) == 1 { TailAhead(s, c); }
    DeqKeepsView(s.mem, s.locals[t], m', l');
  }

  lemma {:induction false} StepKeepsConsumer(s: Queue, e: Event, s': Queue, c: Tid)
    requires Inv(s) && CountsInv(s) && ConsumerInv(s, c) && IsStep(s, e, s')
    requires e.call.Dequeue? ==> e.tid == c
    ensures ConsumerInv(s', c)
  {
    var l := s.locals[e.tid];
    var l' :| Step(s.mem, l, e.call) == Some((s'.mem, l')) && s'.locals == s.locals[e.tid := l'];
    assert s' == Queue(s'.mem, s.locals[e.tid := l']);
    if e.call.Resume? {
      if InEnqueue(l) {
        EnqKeepsConsumer(s, e.tid, s'.mem, l', c);
      } else {
        DeqKeepsConsumer(s, e.tid, s'.mem, l', c);
      }
    }
  }

  lemma {:induction false} RunKeepsConsumer(tr: seq<Queue>, es: seq<Event>, k: nat, c: Tid)
    requires IsRun(tr, es) && k < |tr| && tr[0].mem.synch && OneConsumer(es, c)
    ensures ConsumerInv(tr[k], c)
  {
    if k == 0 {
      var threads, synch :| tr[0] == Init(threads, synch);
    } else {
      RunKeepsConsumer(tr, es, k - 1, c);
      RunKeepsInv(tr, es, k - 1);
      RunCounts(tr, es, k - 1);
      assert StepAt(tr, es, k - 1);
      StepKeepsConsumer(tr[k - 1], es[k - 1], tr[k], c);
    }
  }

  // With any number of producers and one consumer, a Dequeue that has received a
  // token never retries and never returns nothing; the tokens in the channel
  // never exceed the values waiting, and equal them when no call is in progress.
  lemma {:induction false} OneConsumerTokens(tr: seq<Queue>, es: seq<Event>, k: nat, c: Tid)
    requires IsRun(tr, es) && k < |tr| && tr[0].mem.synch && OneConsumer(es, c)
    ensures var s := tr[k];
      && s.mem.wasted == 0
      && (forall t :: t in s.locals && s.locals[t].DeqDone? ==> s.locals[t].result.Some?)
      && s.mem.tokens <= |Waiting(s.mem)|
      && |Waiting(s.mem)| == s.mem.tokens + Total(s.locals, Unsent) + Total(s.locals, Holding)
      && ((forall t :: t in s.locals ==> !InEnqueue(s.locals[t]) && Holding(s.locals[t]) == 0)
          ==> s.mem.tokens == |Waiting(s.mem)|)
  {
    RunKeepsConsumer(tr, es, k, c);
    WaitingBalance(tr, es, k);
    var ls := tr[k].locals;
    TotalAtLeast(ls, Unsent);
    TotalAtLeast(ls, Holding);
    if forall t :: t in ls ==> !InEnqueue(ls[t]) && Holding(ls[t]) == 0 {
      TotalZero(ls, Unsent);
      TotalZero(ls, Holding);
    }
  }
}

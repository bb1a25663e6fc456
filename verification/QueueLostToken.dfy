/**
 The one-consumer restriction on the token channel is exact: with any two consumers
 there is a run that loses a token and leaves a value behind that no token announces.
 */
module QueueLostToken {
  import opened Wrappers
  import opened LockFreeQueue
  import opened QueueCounts

  // Only the given threads call Dequeue.
  ghost predicate ConsumersIn(es: seq<Event>, consumers: set<Tid>) {
    forall i :: 0 <= i < |es| && es[i].call.Dequeue? ==> es[i].tid in consumers
  }

  // A run with the token channel on whose consumers are among the given threads.
  ghost predicate IsTokenRun(tr: seq<Queue>, es: seq<Event>, consumers: set<Tid>) {
    IsRun(tr, es) && tr[0].mem.synch && ConsumersIn(es, consumers)
  }

  ghost predicate Ends(tr: seq<Queue>, es: seq<Event>, s: Queue) {
    |tr| == |es| + 1 && tr[|es|] == s
  }

  // Some run with the two consumers ends in the given state.
  ghost predicate Reachable(m: Memory, ls: map<Tid, Local>, a: Tid, b: Tid) {
    exists tr, es :: IsTokenRun(tr, es, {a, b}) && Ends(tr, es, Queue(m, ls))
  }

  // One more step of thread t, from place l to place l'.
  lemma {:induction false} Go(m: Memory, ls: map<Tid, Local>, a: Tid, b: Tid, t: Tid, l: Local, c: Call, m': Memory,
          l': Local)
    requires Reachable(m, ls[t := l], a, b) && Step(m, l, c) == Some((m', l'))
    requires c.Dequeue? ==> t in {a, b}
    ensures Reachable(m', ls[t := l'], a, b)
  {
    var s, s' := Queue(m, ls[t := l]), Queue(m', ls[t := l']);
    var tr, es :| IsTokenRun(tr, es, {a, b}) && Ends(tr, es, s);
    var tr', es' := tr + [s'], es + [Event(t, c)];
    assert IsStep(s, Event(t, c), s') by {
      assert s'.locals == s.locals[t := l'];
    }
    forall i: nat | i < |es'| ensures StepAt(tr', es', i) {
      if i < |es| { assert StepAt(tr, es, i); }
    }
    assert IsTokenRun(tr', es', {a, b}) && Ends(tr', es', s');
  }

  // What an Enqueue of v on its own does to the queue.
  ghost predicate Appended(m: Memory, v: Value, m': Memory) {
    var n := |m.heap|;
    && m.tail < n
    && m'.heap == m.heap[m.tail := m.heap[m.tail].(next := Some(n))] + [Holder(None, Some(v))]
    && m'.tail == n && m'.head == m.head && m'.synch && m'.tokens == m.tokens + 1
    && m'.enqueued == m.enqueued + [v] && m'.dequeued == m.dequeued && m'.wasted == m.wasted
  }

  // Thread p, alone, up to the link.
  lemma {:induction false} SoloLink(m: Memory, ls: map<Tid, Local>, a: Tid, b: Tid, p: Tid, l: Local, v: Value)
    requires Reachable(m, ls[p := l], a, b) && AtRest(l) && m.tail < |m.heap| && m.heap[m.tail].next == None
    ensures var n := |m.heap|;
      Reachable(Link(m.(heap := m.heap + [Holder(None, Some(v))]), n, m.tail), ls[p := EnqLinked(n, m.tail)], a, b)
  {
    var n, tail := |m.heap|, m.tail;
    var m1 := m.(heap := m.heap + [Holder(None, Some(v))]);
    Go(m, ls, a, b, p, l, Enqueue(v), m1, EnqStart(n));
    Go(m1, ls, a, b, p, EnqStart(n), Resume, m1, EnqTail(n, tail));
    Go(m1, ls, a, b, p, EnqTail(n, tail), Resume, m1, EnqNext(n, tail, None));
    Go(m1, ls, a, b, p, EnqNext(n, tail, None), Resume, m1, EnqChecked(n, tail, None));
    Go(m1, ls, a, b, p, EnqChecked(n, tail, None), Resume, Link(m1, n, tail), EnqLinked(n, tail));
  }

  // Thread p enqueues v on its own.
  lemma {:induction false} SoloEnqueue(m: Memory, ls: map<Tid, Local>, a: Tid, b: Tid, p: Tid, l: Local, v: Value)
    returns (m': Memory)
    requires Reachable(m, ls[p := l], a, b) && AtRest(l)
    requires m.synch && m.tokens < CHANNEL_CAPACITY && m.tail < |m.heap| && m.heap[m.tail].next == None
    ensures Reachable(m', ls[p := EnqDone], a, b) && Appended(m, v, m')
  {
    SoloLink(m, ls, a, b, p, l, v);
    var n, tail := |m.heap|, m.tail;
    var m2 := Link(m.(heap := m.heap + [Holder(None, Some(v))]), n, tail);
    var m3 := SwingTail(m2, tail, n);
    Go(m2, ls, a, b, p, EnqLinked(n, tail), Resume, m3, EnqSwung);
    var m4 := m3.(size := m3.size + 1);
    Go(m3, ls, a, b, p, EnqSwung, Resume, m4, EnqCounted);
    m' := m4.(tokens := m4.tokens + 1, sent := m4.sent + 1);
    Go(m4, ls, a, b, p, EnqCounted, Resume, m', EnqDone);
  }

  // Thread t starts a Dequeue, receives a token and reads the head.
  lemma {:induction false} Receive(m: Memory, ls: map<Tid, Local>, a: Tid, b: Tid, t: Tid) returns (m': Memory)
    requires Reachable(m, ls[t := Idle], a, b) && t in {a, b} && m.synch && m.tokens > 0
    ensures m' == m.(tokens := m.tokens - 1, received := m.received + 1)
    ensures Reachable(m', ls[t := DeqHead(m.head)], a, b)
  {
    Go(m, ls, a, b, t, Idle, Dequeue, m, DeqStart);
    m' := m.(tokens := m.tokens - 1, received := m.received + 1);
    Go(m, ls, a, b, t, DeqStart, Resume, m', DeqToken);
    Go(m', ls, a, b, t, DeqToken, Resume, m', DeqHead(m.head));
  }

  // It goes on to look at the tail and at the successor of the head.
  lemma {:induction false} Look(m: Memory, ls: map<Tid, Local>, a: Tid, b: Tid, t: Tid) returns (m': Memory)
    requires Reachable(m, ls[t := Idle], a, b) && t in {a, b} && m.synch && m.tokens > 0
    ensures m' == m.(tokens := m.tokens - 1, received := m.received + 1)
    ensures Reachable(m', ls[t := DeqChecked(m.head, m.tail, NextOf(m, m.head))], a, b)
  {
    var head, tail, next := m.head, m.tail, NextOf(m, m.head);
    m' := Receive(m, ls, a, b, t);
    Go(m', ls, a, b, t, DeqHead(head), Resume, m', DeqTail(head, tail));
    Go(m', ls, a, b, t, DeqTail(head, tail), Resume, m', DeqNext(head, tail, next));
    Go(m', ls, a, b, t, DeqNext(head, tail, next), Resume, m', DeqChecked(head, tail, next));
  }

  // A producer that is neither of the two consumers, and where all three stand.
  function Three(a: Tid, b: Tid, producer: Local, atA: Local, atB: Local): map<Tid, Local> {
    map[a + b + 1 := producer, a := atA, b := atB]
  }

  lemma {:induction false} PlaceProducer(a: Tid, b: Tid, q: Local, x: Local, y: Local, l: Local)
    ensures a != b ==> Three(a, b, q, x, y)[a + b + 1 := l] == Three(a, b, l, x, y)
  {
  }

  lemma {:induction false} PlaceA(a: Tid, b: Tid, q: Local, x: Local, y: Local, l: Local)
    ensures a != b ==> Three(a, b, q, x, y)[a := l] == Three(a, b, q, l, y)
  {
  }

  lemma {:induction false} PlaceB(a: Tid, b: Tid, q: Local, x: Local, y: Local, l: Local)
    ensures a != b ==> Three(a, b, q, x, y)[b := l] == Three(a, b, q, x, l)
  {
  }

  // Two values are enqueued.
  lemma {:induction false} TwoEnqueued(a: Tid, b: Tid) returns (m: Memory)
    requires a != b
    ensures Reachable(m, Three(a, b, EnqDone, Idle, Idle), a, b)
    ensures m.synch && m.tokens == 2 && m.head == 0 && m.tail == 2 && m.wasted == 0
    ensures m.enqueued == [7, 8] && m.dequeued == []
    ensures NextOf(m, 0) == Some(1) && ValueOf(m, 1) == 7
  {
    var p, s := a + b + 1, Init({a + b + 1, a, b}, true);
    var ls := Three(a, b, Idle, Idle, Idle);
    assert s.locals == ls;
    assert IsTokenRun([s], [], {a, b}) && Ends([s], [], s);
    PlaceProducer(a, b, Idle, Idle, Idle, Idle);
    PlaceProducer(a, b, Idle, Idle, Idle, EnqDone);
    m := SoloEnqueue(s.mem, ls, a, b, p, Idle, 7);
    m := SoloEnqueue(m, ls, a, b, p, EnqDone, 8);
  }

  // Two consumers each receive a token and look at the same head.
  lemma {:induction false} TwoLooking(a: Tid, b: Tid) returns (m: Memory)
    requires a != b
    ensures var seen := DeqChecked(0, 2, Some(1)); Reachable(m, Three(a, b, EnqDone, seen, seen), a, b)
    ensures m.synch && m.tokens == 0 && m.head == 0 && m.wasted == 0
    ensures m.enqueued == [7, 8] && m.dequeued == [] && ValueOf(m, 1) == 7
  {
    m := TwoEnqueued(a, b);
    var seen := DeqChecked(0, 2, Some(1));
    PlaceA(a, b, EnqDone, Idle, Idle, Idle);
    PlaceA(a, b, EnqDone, Idle, Idle, seen);
    m := Look(m, Three(a, b, EnqDone, Idle, Idle), a, b, a);
    PlaceB(a, b, EnqDone, seen, Idle, Idle);
    PlaceB(a, b, EnqDone, seen, Idle, seen);
    m := Look(m, Three(a, b, EnqDone, seen, Idle), a, b, b);
  }

  // All threads are at rest or wait for a token.
  ghost predicate Still(s: Queue) {
    forall t :: t in s.locals ==> AtRest(s.locals[t]) || s.locals[t].DeqStart?
  }

  // For any two consumers: one takes the first value, the other retries without its
  // token; the second value waits, the channel is empty and the retry is blocked.
  lemma {:induction false} TwoConsumersLoseAToken(a: Tid, b: Tid) returns (tr: seq<Queue>, es: seq<Event>)
    requires a != b
    ensures IsTokenRun(tr, es, {a, b})
    ensures var s := tr[|tr| - 1];
      && s.mem.tokens == 0 && Waiting(s.mem) == [8] && s.mem.wasted == 1
      && b in s.locals && s.locals[b] == DeqStart && Step(s.mem, DeqStart, Resume) == None
      && Still(s)
  {
    var m := TwoLooking(a, b);
    var seen := DeqChecked(0, 2, Some(1));
    PlaceA(a, b, EnqDone, seen, seen, seen);
    PlaceA(a, b, EnqDone, seen, seen, DeqTaken(7));
    var m1 := Take(m, 1);
    Go(m, Three(a, b, EnqDone, seen, seen), a, b, a, seen, Resume, m1, DeqTaken(7));
    PlaceB(a, b, EnqDone, DeqTaken(7), seen, seen);
    PlaceB(a, b, EnqDone, DeqTaken(7), seen, DeqStart);
    var m2 := Waste(m1);
    Go(m1, Three(a, b, EnqDone, DeqTaken(7), seen), a, b, b, seen, Resume, m2, DeqStart);
    var m3, done := m2.(size := m2.size - 1), DeqDone(Some(7), m2.size - 1);
    PlaceA(a, b, EnqDone, DeqTaken(7), DeqStart, DeqTaken(7));
    PlaceA(a, b, EnqDone, DeqTaken(7), DeqStart, done);
    Go(m2, Three(a, b, EnqDone, DeqTaken(7), DeqStart), a, b, a, DeqTaken(7), Resume, m3, done);
    tr, es :| IsTokenRun(tr, es, {a, b}) && Ends(tr, es, Queue(m3, Three(a, b, EnqDone, done, DeqStart)));
  }

  // No run whose consumers are among the given threads wastes a token.
  ghost predicate NeverWastes(consumers: set<Tid>) {
    forall tr: seq<Queue>, es :: IsTokenRun(tr, es, consumers) ==> tr[|tr| - 1].mem.wasted == 0
  }

  // Whenever such a run stands still, a token announces each value that waits.
  ghost predicate NeverStrands(consumers: set<Tid>) {
    forall tr: seq<Queue>, es :: IsTokenRun(tr, es, consumers) && Still(tr[|tr| - 1]) ==>
      tr[|tr| - 1].mem.tokens == |Waiting(tr[|tr| - 1].mem)|
  }

  lemma {:induction false} AtMostOne(consumers: set<Tid>, c: Tid, d: Tid)
    requires |consumers| <= 1 && c in consumers && d in consumers
    ensures c == d
  {
    assert |consumers - {c}| == |consumers| - 1;
    assert consumers - {c} == {};
  }

  // With at most one consumer every run is covered by the one-consumer theorem.
  lemma {:induction false} FewConsumersKeepTokens(consumers: set<Tid>, tr: seq<Queue>, es: seq<Event>)
    requires |consumers| <= 1 && IsTokenRun(tr, es, consumers)
    ensures tr[|tr| - 1].mem.wasted == 0
    ensures Still(tr[|tr| - 1]) ==> tr[|tr| - 1].mem.tokens == |Waiting(tr[|tr| - 1].mem)|
  {
    var c := TheConsumer(consumers, es);
    OneConsumerTokens(tr, es, |tr| - 1, c);
  }

  lemma {:induction false} TheConsumer(consumers: set<Tid>, es: seq<Event>) returns (c: Tid)
    requires |consumers| <= 1 && ConsumersIn(es, consumers)
    ensures OneConsumer(es, c)
  {
    c :| consumers != {} ==> c in consumers;
    forall i | 0 <= i < |es| && es[i].call.Dequeue? ensures es[i].tid == c {
      AtMostOne(consumers, c, es[i].tid);
    }
  }

  // The channel loses no token, and strands no value, exactly when at most one thread
  // consumes.
  lemma {:induction false} TokensKeptIff(consumers: set<Tid>)
    ensures NeverWastes(consumers) <==> |consumers| <= 1
    ensures NeverStrands(consumers) <==> |consumers| <= 1
  {
    if |consumers| <= 1 {
      forall tr: seq<Queue>, es | IsTokenRun(tr, es, consumers)
        ensures tr[|tr| - 1].mem.wasted == 0
        ensures Still(tr[|tr| - 1]) ==> tr[|tr| - 1].mem.tokens == |Waiting(tr[|tr| - 1].mem)|
      {
        FewConsumersKeepTokens(consumers, tr, es);
      }
    } else {
      var a :| a in consumers;
      assert |consumers - {a}| > 0;
      var b :| b in consumers - {a};
      var tr, es := TwoConsumersLoseAToken(a, b);
      assert IsTokenRun(tr, es, consumers);
    }
  }
}

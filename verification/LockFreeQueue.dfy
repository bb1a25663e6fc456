/**
 The lock-free FIFO queue of `queues/lfqueue.go` (the Michael and Scott queue,
 PODC 1996) as a transition system: any number of threads, one step per atomic
 load, compare-and-swap, counter update or channel operation.
 */
module LockFreeQueue {
  import opened Wrappers

  type Addr = nat
  type Tid = nat
  // Payloads are moved and never inspected, so any type with equality will do.
  type Value = int

  // The buffer size of the token channel.
  const CHANNEL_CAPACITY: nat := 32768

  datatype Holder = Holder(next: Option<Addr>, value: Option<Value>)

  // What the threads share. The fields after `tokens` are history: they are
  // written by the steps and never read by them.
  datatype Memory = Memory(
    heap: seq<Holder>,
    head: Addr,
    tail: Addr,
    size: int,
    synch: bool,
    tokens: nat,
    chain: seq<Addr>,       // the holders linked so far, the initial one first
    linked: map<Addr, nat>, // the place of each of them in the chain
    enqueued: seq<Value>,   // values linked by successful swaps of a next pointer
    dequeued: seq<Value>,   // values taken by successful swaps of the head
    swings: nat,            // successful swaps of the tail
    sent: nat,
    received: nat,
    wasted: nat             // tokens whose receiver retried or returned nothing
  )

  // Where a thread stands, named after the operation it has just finished.
  datatype Local =
    | Idle
    | EnqStart(node: Addr)
    | EnqTail(node: Addr, tail: Addr)
    | EnqNext(node: Addr, tail: Addr, next: Option<Addr>)
    | EnqChecked(node: Addr, tail: Addr, next: Option<Addr>)
    | EnqLinked(node: Addr, tail: Addr)
    | EnqSwung
    | EnqCounted
    | EnqDone
    | DeqStart
    | DeqToken
    | DeqHead(head: Addr)
    | DeqTail(head: Addr, tail: Addr)
    | DeqNext(head: Addr, tail: Addr, next: Option<Addr>)
    | DeqChecked(head: Addr, tail: Addr, next: Option<Addr>)
    | DeqTaken(taken: Value)
    | DeqDone(result: Option<Value>, len: int)
    | Crashed

  datatype Queue = Queue(mem: Memory, locals: map<Tid, Local>)

  datatype Call = Enqueue(value: Value) | Dequeue | Resume

  function Init(threads: set<Tid>, synch: bool): Queue {
    Queue(Memory([Holder(None, None)], 0, 0, 0, synch, 0, [0], map[0 := 0], [], [], 0, 0, 0, 0),
          map t | t in threads :: Idle)
  }

  predicate AtRest(l: Local) {
    l.Idle? || l.EnqDone? || l.DeqDone?
  }

  predicate InEnqueue(l: Local) {
    || l.EnqStart? || l.EnqTail? || l.EnqNext? || l.EnqChecked? || l.EnqLinked? || l.EnqSwung?
    || l.EnqCounted?
  }

  predicate InDequeue(l: Local) {
    || l.DeqStart? || l.DeqToken? || l.DeqHead? || l.DeqTail? || l.DeqNext? || l.DeqChecked?
    || l.DeqTaken?
  }

  // A read of a next pointer.
  function NextOf(m: Memory, a: Addr): Option<Addr> {
    if a < |m.heap| then m.heap[a].next else None
  }

  function ValueOf(m: Memory, a: Addr): Value {
    if a < |m.heap| && m.heap[a].value.Some? then m.heap[a].value.value else 0
  }

  // Swap of the tail pointer.
  function SwingTail(m: Memory, from: Addr, to: Addr): Memory {
    if m.tail == from then m.(tail := to, swings := m.swings + 1) else m
  }

  // A Dequeue that goes round its loop again, or gives up, has used its token up.
  function Waste(m: Memory): Memory {
    if m.synch then m.(wasted := m.wasted + 1) else m
  }

  function Link(m: Memory, node: Addr, tail: Addr): Memory
    requires tail < |m.heap|
  {
    m.(heap := m.heap[tail := m.heap[tail].(next := Some(node))],
       chain := m.chain + [node],
       linked := m.linked[node := |m.chain|],
       enqueued := m.enqueued + [ValueOf(m, node)])
  }

  function Take(m: Memory, next: Addr): Memory {
    m.(head := next, dequeued := m.dequeued + [ValueOf(m, next)])
  }

  // One step of a thread inside Enqueue; None when it is blocked on the channel.
  function EnqStep(m: Memory, l: Local): Option<(Memory, Local)>
    requires InEnqueue(l)
  {
    match l
    case EnqStart(n) => Some((m, EnqTail(n, m.tail)))
    case EnqTail(n, tail) => Some((m, EnqNext(n, tail, NextOf(m, tail))))
    case EnqNext(n, tail, next) => Some((m, if tail == m.tail then EnqChecked(n, tail, next) else EnqStart(n)))
    case EnqChecked(n, tail, next) =>
      if next.Some? then Some((SwingTail(m, tail, next.value), EnqStart(n)))
      else if tail < |m.heap| && NextOf(m, tail) == None then Some((Link(m, n, tail), EnqLinked(n, tail)))
      else Some((m, EnqStart(n)))
    case EnqLinked(n, tail) => Some((SwingTail(m, tail, n), EnqSwung))
    case EnqSwung => Some((m.(size := m.size + 1), if m.synch then EnqCounted else EnqDone))
    case EnqCounted =>
      if m.tokens < CHANNEL_CAPACITY then Some((m.(tokens := m.tokens + 1, sent := m.sent + 1), EnqDone))
      else None
  }

  // One step of a thread inside Dequeue; None when it waits for a token.
  function DeqStep(m: Memory, l: Local): Option<(Memory, Local)>
    requires InDequeue(l)
  {
    match l
    case DeqStart =>
      if !m.synch then Some((m, DeqHead(m.head)))
      else if m.tokens > 0 then Some((m.(tokens := m.tokens - 1, received := m.received + 1), DeqToken))
      else None
    case DeqToken => Some((m, DeqHead(m.head)))
    case DeqHead(head) => Some((m, DeqTail(head, m.tail)))
    case DeqTail(head, tail) => Some((m, DeqNext(head, tail, NextOf(m, head))))
    case DeqNext(head, tail, next) =>
      if head == m.head then Some((m, DeqChecked(head, tail, next))) else Some((Waste(m), DeqStart))
    case DeqChecked(head, tail, next) =>
      if head == tail then
        if next.None? then Some((Waste(m), DeqDone(None, 0)))
        else Some((Waste(SwingTail(m, tail, next.value)), DeqStart))
      else if next.None? then Some((m, Crashed))
      else if m.head == head then Some((Take(m, next.value), DeqTaken(ValueOf(m, next.value))))
      else Some((Waste(m), DeqStart))
    case DeqTaken(v) => Some((m.(size := m.size - 1), DeqDone(Some(v), m.size - 1)))
  }

  // One step of a thread: a call when it is at rest, the next operation otherwise.
  function Step(m: Memory, l: Local, c: Call): Option<(Memory, Local)> {
    match c
    case Enqueue(v) =>
      if AtRest(l) then Some((m.(heap := m.heap + [Holder(None, Some(v))]), EnqStart(|m.heap|))) else None
    case Dequeue => if AtRest(l) then Some((m, DeqStart)) else None
    case Resume => if InEnqueue(l) then EnqStep(m, l) else if InDequeue(l) then DeqStep(m, l) else None
  }

  datatype Event = Event(tid: Tid, call: Call)

  ghost predicate IsStep(s: Queue, e: Event, s': Queue) {
    && e.tid in s.locals
    && exists l' :: Step(s.mem, s.locals[e.tid], e.call) == Some((s'.mem, l')) && s'.locals == s.locals[e.tid := l']
  }

  ghost predicate StepAt(tr: seq<Queue>, es: seq<Event>, i: nat)
    requires |tr| == |es| + 1 && i < |es|
  {
    IsStep(tr[i], es[i], tr[i + 1])
  }

  // The states of a run under a schedule: tr[i+1] is tr[i] after event i.
  ghost predicate IsRun(tr: seq<Queue>, es: seq<Event>) {
    && |tr| == |es| + 1
    && (exists threads, synch :: tr[0] == Init(threads, synch))
    && forall i: nat {:trigger StepAt(tr, es, i)} :: i < |es| ==> StepAt(tr, es, i)
  }

  // ------------------------------------------------------------------ invariant

  ghost predicate EndsInv(m: Memory) {
    && |m.chain| == |m.enqueued| + 1
    && |m.dequeued| <= m.swings <= |m.enqueued| <= m.swings + 1
    && m.head in m.linked && m.linked[m.head] == |m.dequeued|
    && m.tail in m.linked && m.linked[m.tail] == m.swings
    && m.dequeued == m.enqueued[..|m.dequeued|]
  }

  // Holder b was linked right behind holder a.
  ghost predicate Follows(m: Memory, a: Addr, b: Addr) {
    a in m.linked && b in m.linked && m.linked[b] == m.linked[a] + 1
  }

  ghost predicate LinkedInv(m: Memory, a: Addr)
    requires a in m.linked
  {
    && a < |m.heap|
    && m.linked[a] <= |m.enqueued| && m.linked[a] < |m.chain| && m.chain[m.linked[a]] == a
    && (if m.linked[a] == |m.enqueued| then m.heap[a].next.None?
        else m.heap[a].next.Some? && Follows(m, a, m.heap[a].next.value))
    && (m.linked[a] > 0 ==> m.heap[a].value == Some(m.enqueued[m.linked[a] - 1]))
  }

  ghost predicate MemInv(m: Memory) {
    EndsInv(m) && forall a {:trigger LinkedInv(m, a)} :: a in m.linked ==> LinkedInv(m, a)
  }

  // The holder a thread has allocated and not linked yet.
  function Held(l: Local): Option<Addr> {
    match l
    case EnqStart(n) => Some(n)
    case EnqTail(n, _) => Some(n)
    case EnqNext(n, _, _) => Some(n)
    case EnqChecked(n, _, _) => Some(n)
    case _ => None
  }

  ghost predicate HeldInv(m: Memory, l: Local) {
    Held(l).Some? ==>
      var n := Held(l).value;
      && n < |m.heap| && n !in m.linked
      && m.heap[n].next.None? && m.heap[n].value.Some?
  }

  // What a loaded tail and its successor say about the links.
  ghost predicate TailView(m: Memory, tail: Addr, next: Option<Addr>) {
    && tail in m.linked && m.linked[tail] <= m.swings
    && (next.Some? ==> Follows(m, tail, next.value))
  }

  ghost predicate HeadView(m: Memory, head: Addr, tail: Addr) {
    && head in m.linked && m.linked[head] <= |m.dequeued|
    && tail in m.linked && m.linked[head] <= m.linked[tail] <= m.swings
  }

  ghost predicate DeqView(m: Memory, head: Addr, tail: Addr, next: Option<Addr>) {
    && HeadView(m, head, tail)
    && if next.Some? then Follows(m, head, next.value) else m.linked[head] == m.linked[tail]
  }

  ghost predicate LocalInv(m: Memory, l: Local) {
    && HeldInv(m, l)
    && match l
       case EnqTail(_, tail) => TailView(m, tail, None)
       case EnqNext(_, tail, next) => TailView(m, tail, next)
       case EnqChecked(_, tail, next) => TailView(m, tail, next)
       case EnqLinked(n, tail) => TailView(m, tail, Some(n))
       case DeqHead(head) => head in m.linked && m.linked[head] <= |m.dequeued|
       case DeqTail(head, tail) => HeadView(m, head, tail)
       case DeqNext(head, tail, next) => DeqView(m, head, tail, next)
       case DeqChecked(head, tail, next) => DeqView(m, head, tail, next)
       case Crashed => false
       case _ => true
  }

  ghost predicate Apart(l: Local, k: Local) {
    Held(l).Some? ==> Held(l) != Held(k)
  }

  // An Enqueue that has linked its holder behind the current tail.
  ghost predicate Swinger(m: Memory, l: Local) {
    l.EnqLinked? && l.tail == m.tail
  }

  ghost predicate Inv(s: Queue) {
    && MemInv(s.mem)
    && (forall t :: t in s.locals ==> LocalInv(s.mem, s.locals[t]))
    && (forall t, u :: t in s.locals && u in s.locals && t != u ==> Apart(s.locals[t], s.locals[u]))
    // A lagging tail has an Enqueue about to swing it.
    && (s.mem.swings < |s.mem.enqueued| ==> exists t :: t in s.locals && Swinger(s.mem, s.locals[t]))
  }

  // --------------------------------------------------------- one thread's step

  // Holder n, not linked yet, is left alone.
  ghost predicate Untouched(m: Memory, m': Memory, n: Addr) {
    n < |m.heap| && n !in m.linked ==> n < |m'.heap| && m'.heap[n] == m.heap[n] && n !in m'.linked
  }

  // What a step does to the memory, as the other threads see it; `held` is the
  // one holder the step may link.
  ghost predicate Grows(m: Memory, m': Memory, held: Option<Addr>) {
    && |m.dequeued| <= |m'.dequeued| && m.swings <= m'.swings
    && (forall a :: a in m.linked ==> a in m'.linked && m'.linked[a] == m.linked[a])
    && (forall n: Addr {:trigger Untouched(m, m', n)} :: held != Some(n) ==> Untouched(m, m', n))
  }

  lemma {:induction false} ViewsSurvive(m: Memory, m': Memory, held: Option<Addr>, l: Local)
    requires LocalInv(m, l) && Grows(m, m', held) && (Held(l).Some? ==> Held(l) != held)
    ensures LocalInv(m', l)
  {
    if Held(l).Some? { assert Untouched(m, m', Held(l).value); }
  }

  lemma {:induction false} SwingKeepsMem(m: Memory, next: Addr, w: nat)
    requires MemInv(m) && Follows(m, m.tail, next)
    ensures var m' := m.(tail := next, swings := m.swings + 1, wasted := w);
      MemInv(m') && Grows(m, m', None) && m'.swings == |m'.enqueued|
  {
    var m' := m.(tail := next, swings := m.swings + 1, wasted := w);
    assert LinkedInv(m, next);
    forall a | a in m'.linked ensures LinkedInv(m', a) { assert LinkedInv(m, a); }
  }

  lemma {:induction false} QuietKeepsMem(m: Memory, m': Memory)
    requires MemInv(m)
    requires m' == m.(size := m'.size, tokens := m'.tokens, sent := m'.sent,
                      received := m'.received, wasted := m'.wasted)
    ensures MemInv(m') && Grows(m, m', None)
  {
    forall a | a in m'.linked ensures LinkedInv(m', a) { assert LinkedInv(m, a); }
  }

  // Only the last holder has no successor, so a next pointer is swapped there
  // alone, and by then the tail has caught up with it.
  lemma {:induction false} LinkKeepsMem(m: Memory, node: Addr, tail: Addr)
    requires MemInv(m) && HeldInv(m, EnqStart(node)) && TailView(m, tail, None)
    requires tail < |m.heap| && NextOf(m, tail) == None
    ensures MemInv(Link(m, node, tail)) && Grows(m, Link(m, node, tail), Some(node))
    ensures tail == m.tail && m.swings == |m.enqueued|
  {
    var m' := Link(m, node, tail);
    assert LinkedInv(m, tail) && LinkedInv(m, m.tail);
    assert tail == m.tail;
    assert forall n: Addr :: n != node ==> Untouched(m, m', n);
    forall a | a in m'.linked ensures LinkedInv(m', a) {
      if a != node { assert LinkedInv(m, a); }
    }
  }

  lemma {:induction false} TakeKeepsMem(m: Memory, head: Addr, tail: Addr, next: Addr)
    requires MemInv(m) && DeqView(m, head, tail, Some(next))
    requires head != tail && m.head == head
    ensures MemInv(Take(m, next)) && Grows(m, Take(m, next), None)
    ensures |m.dequeued| < |m.enqueued| && ValueOf(m, next) == m.enqueued[|m.dequeued|]
  {
    var m' := Take(m, next);
    assert LinkedInv(m, head) && LinkedInv(m, tail) && LinkedInv(m, next);
    assert m'.dequeued == m'.enqueued[..|m'.dequeued|];
    forall a | a in m'.linked ensures LinkedInv(m', a) { assert LinkedInv(m, a); }
  }

  lemma {:induction false} AllocateKeepsMem(m: Memory, v: Value)
    requires MemInv(m)
    ensures var m' := m.(heap := m.heap + [Holder(None, Some(v))]);
      MemInv(m') && Grows(m, m', None) && |m.heap| !in m'.linked
  {
    var m' := m.(heap := m.heap + [Holder(None, Some(v))]);
    forall a | a in m'.linked ensures LinkedInv(m', a) && a < |m.heap| { assert LinkedInv(m, a); }
  }

  // A thread's step, seen from all sides: the memory, the others, itself, the lag.
  ghost predicate GoodStep(m: Memory, l: Local, m': Memory, l': Local) {
    && MemInv(m') && Grows(m, m', Held(l)) && LocalInv(m', l')
    && (Held(l').None? || Held(l') == Held(l) || Held(l') == Some(|m.heap|))
    && (m'.swings < |m'.enqueued| ==>
          Swinger(m', l') || (m.swings < |m.enqueued| && m'.tail == m.tail && !Swinger(m, l)))
  }

  lemma {:induction false} EnqSwapIsGood(m: Memory, l: Local, m': Memory, l': Local)
    requires MemInv(m) && LocalInv(m, l) && (l.EnqChecked? || l.EnqLinked?)
    requires EnqStep(m, l) == Some((m', l'))
    ensures GoodStep(m, l, m', l')
  {
    if l.EnqLinked? && m.tail == l.tail { SwingKeepsMem(m, l.node, m.wasted); }
    else if l.EnqChecked? && l.next.Some? && m.tail == l.tail { SwingKeepsMem(m, l.next.value, m.wasted); }
    else if l'.EnqLinked? { LinkKeepsMem(m, l.node, l.tail); }
    else { QuietKeepsMem(m, m'); }
  }

  lemma {:induction false} EnqIsGood(m: Memory, l: Local, m': Memory, l': Local)
    requires MemInv(m) && LocalInv(m, l) && InEnqueue(l) && EnqStep(m, l) == Some((m', l'))
    ensures GoodStep(m, l, m', l')
  {
    if l.EnqChecked? || l.EnqLinked? {
      EnqSwapIsGood(m, l, m', l');
    } else {
      if l.EnqTail? { assert LinkedInv(m, l.tail); }
      QuietKeepsMem(m, m');
    }
  }

  lemma {:induction false} DeqSwapIsGood(m: Memory, l: Local, m': Memory, l': Local)
    requires MemInv(m) && LocalInv(m, l) && l.DeqChecked? && DeqStep(m, l) == Some((m', l'))
    ensures GoodStep(m, l, m', l')
  {
    var DeqChecked(head, tail, next) := l;
    assert LinkedInv(m, head) && LinkedInv(m, tail);
    if l'.DeqTaken? { TakeKeepsMem(m, head, tail, next.value); }
    else if head == tail && next.Some? && m.tail == tail { SwingKeepsMem(m, next.value, m'.wasted); }
    else { QuietKeepsMem(m, m'); }
  }

  lemma {:induction false} DeqIsGood(m: Memory, l: Local, m': Memory, l': Local)
    requires MemInv(m) && LocalInv(m, l) && InDequeue(l) && DeqStep(m, l) == Some((m', l'))
    ensures GoodStep(m, l, m', l')
  {
    if l.DeqChecked? {
      DeqSwapIsGood(m, l, m', l');
    } else {
      if l.DeqTail? { assert LinkedInv(m, l.head); }
      QuietKeepsMem(m, m');
    }
  }

  lemma {:induction false} StepIsGood(m: Memory, l: Local, c: Call, m': Memory, l': Local)
    requires MemInv(m) && LocalInv(m, l) && Step(m, l, c) == Some((m', l'))
    ensures GoodStep(m, l, m', l')
  {
    match c
    case Enqueue(v) => AllocateKeepsMem(m, v);
    case Dequeue => QuietKeepsMem(m, m');
    case Resume => if InEnqueue(l) { EnqIsGood(m, l, m', l'); } else { DeqIsGood(m, l, m', l'); }
  }

  // ------------------------------------------------------------ all the threads

  lemma {:induction false} GoodStepKeepsInv(s: Queue, t: Tid, m': Memory, l': Local)
    requires Inv(s) && t in s.locals && GoodStep(s.mem, s.locals[t], m', l')
    ensures Inv(Queue(m', s.locals[t := l']))
  {
    var s' := Queue(m', s.locals[t := l']);
    forall u | u in s'.locals ensures LocalInv(m', s'.locals[u]) {
      if u != t {
        assert LocalInv(s.mem, s.locals[u]) && Apart(s.locals[u], s.locals[t]);
        ViewsSurvive(s.mem, m', Held(s.locals[t]), s.locals[u]);
      }
    }
    forall u, w | u in s'.locals && w in s'.locals && u != w ensures Apart(s'.locals[u], s'.locals[w]) {
      assert u != t ==> LocalInv(s.mem, s.locals[u]);
      assert w != t ==> LocalInv(s.mem, s.locals[w]);
      assert Apart(s.locals[u], s.locals[w]) && Apart(s.locals[w], s.locals[u]);
    }
    if m'.swings < |m'.enqueued| && !Swinger(m', l') {
      var u :| u in s.locals && Swinger(s.mem, s.locals[u]);
      assert Swinger(m', s'.locals[u]);
    } else if m'.swings < |m'.enqueued| {
      assert Swinger(m', s'.locals[t]);
    }
  }

  lemma {:induction false} StepKeepsInv(s: Queue, e: Event, s': Queue)
    requires Inv(s) && IsStep(s, e, s')
    ensures Inv(s')
  {
    var l' :| Step(s.mem, s.locals[e.tid], e.call) == Some((s'.mem, l')) && s'.locals == s.locals[e.tid := l'];
    assert LocalInv(s.mem, s.locals[e.tid]);
    StepIsGood(s.mem, s.locals[e.tid], e.call, s'.mem, l');
    GoodStepKeepsInv(s, e.tid, s'.mem, l');
    assert s' == Queue(s'.mem, s.locals[e.tid := l']);
  }

  lemma {:induction false} RunKeepsInv(tr: seq<Queue>, es: seq<Event>, k: nat)
    requires IsRun(tr, es) && k < |tr|
    ensures Inv(tr[k])
  {
    if k == 0 {
      var threads, synch :| tr[0] == Init(threads, synch);
    } else {
      RunKeepsInv(tr, es, k - 1);
      assert StepAt(tr, es, k - 1);
      StepKeepsInv(tr[k - 1], es[k - 1], tr[k]);
    }
  }

  // ------------------------------------------------------------ linearizability

  // The values linked and not taken yet: the abstract queue.
  ghost function Waiting(m: Memory): seq<Value> {
    if |m.dequeued| <= |m.enqueued| then m.enqueued[|m.dequeued|..] else []
  }

  // Safety in every reachable state of every interleaving.
  lemma {:induction false} FifoOrder(tr: seq<Queue>, es: seq<Event>, k: nat)
    requires IsRun(tr, es) && k < |tr|
    ensures var m := tr[k].mem;
      && m.dequeued <= m.enqueued
      && m.enqueued == m.dequeued + Waiting(m)
      && m.head in m.linked && m.tail in m.linked
      && m.linked[m.head] <= m.linked[m.tail]
      && |m.enqueued| - 1 <= m.linked[m.tail] <= |m.enqueued|
    ensures forall t :: t in tr[k].locals ==> !tr[k].locals[t].Crashed?
  {
    RunKeepsInv(tr, es, k);
    assert forall t :: t in tr[k].locals ==> LocalInv(tr[k].mem, tr[k].locals[t]);
  }

  // Where a thread that takes a step can have come from.
  ghost predicate From(m: Memory, l: Local, l': Local) {
    match l'
    case EnqStart(n) => Held(l) == Some(n)
    case EnqTail(n, _) => Held(l) == Some(n)
    case EnqNext(n, _, _) => Held(l) == Some(n)
    case EnqChecked(n, _, _) => Held(l) == Some(n)
    case EnqLinked(n, _) => Held(l) == Some(n)
    case EnqSwung => l.EnqLinked?
    case EnqCounted => l.EnqSwung?
    case EnqDone => l.EnqSwung? || l.EnqCounted?
    case DeqNext(head, tail, next) => l == DeqTail(head, tail) && next == NextOf(m, head)
    case DeqChecked(head, tail, next) => l == DeqNext(head, tail, next)
    case DeqTaken(v) => l.DeqChecked?
    case DeqDone(result, _) => if result.Some? then l == DeqTaken(result.value) else l.DeqChecked? && l.next.None?
    case _ => !l.DeqTaken?
  }

  ghost predicate Begins(c: Call, l: Local, m': Memory, l': Local) {
    match c
    case Enqueue(v) =>
      AtRest(l) && l'.EnqStart? && l'.node < |m'.heap| && m'.heap[l'.node].value == Some(v)
    case Dequeue => AtRest(l) && l' == DeqStart
    case Resume => InEnqueue(l) || InDequeue(l)
  }

  // A successful swap of a next pointer appends to the abstract queue, a
  // successful swap of the head removes the oldest value, all else leaves it alone.
  ghost predicate Effect(m: Memory, m': Memory, l': Local) {
    match l'
    case EnqLinked(n, _) => Waiting(m') == Waiting(m) + [ValueOf(m, n)]
    case DeqTaken(v) => Waiting(m) == [v] + Waiting(m')
    case _ => Waiting(m') == Waiting(m)
  }

  ghost predicate KeepsValues(m: Memory, m': Memory) {
    forall n :: 0 <= n < |m.heap| ==> n < |m'.heap| && m'.heap[n].value == m.heap[n].value
  }

  ghost predicate Flow(m: Memory, c: Call, l: Local, m': Memory, l': Local) {
    Begins(c, l, m', l') && (c.Resume? ==> From(m, l, l')) && Effect(m, m', l') && KeepsValues(m, m')
  }

  lemma {:induction false} EnqFlow(m: Memory, l: Local, m': Memory, l': Local)
    requires MemInv(m) && InEnqueue(l) && EnqStep(m, l) == Some((m', l'))
    ensures Flow(m, Resume, l, m', l')
  {
    if l'.EnqLinked? { assert Waiting(m') == Waiting(m) + [ValueOf(m, l.node)]; }
  }

  lemma {:induction false} DeqFlow(m: Memory, l: Local, m': Memory, l': Local)
    requires MemInv(m) && LocalInv(m, l) && InDequeue(l) && DeqStep(m, l) == Some((m', l'))
    ensures Flow(m, Resume, l, m', l')
  {
    DeqIsGood(m, l, m', l');
    if l'.DeqTaken? { TakeOldest(m, l, m', l'); }
  }

  // A successful swap of the head takes the oldest value.
  lemma {:induction false} TakeOldest(m: Memory, l: Local, m': Memory, l': Local)
    requires MemInv(m) && LocalInv(m, l) && InDequeue(l) && DeqStep(m, l) == Some((m', l')) && l'.DeqTaken?
    ensures Waiting(m) == [l'.taken] + Waiting(m')
  {
    TakeKeepsMem(m, l.head, l.tail, l.next.value);
    assert Waiting(m) == [m.enqueued[|m.dequeued|]] + Waiting(m');
  }

  lemma {:induction false} StepFlow(m: Memory, l: Local, c: Call, m': Memory, l': Local)
    requires MemInv(m) && LocalInv(m, l) && Step(m, l, c) == Some((m', l'))
    ensures Flow(m, c, l, m', l')
  {
    if c.Resume? {
      if InEnqueue(l) { EnqFlow(m, l, m', l'); } else { DeqFlow(m, l, m', l'); }
    }
  }

  ghost function LocalAt(tr: seq<Queue>, k: nat, t: Tid): Local
    requires k < |tr|
  {
    if t in tr[k].locals then tr[k].locals[t] else Idle
  }

  // The facts about step k of a run that the theorems below need.
  lemma {:induction false} RunFlow(tr: seq<Queue>, es: seq<Event>, k: nat)
    requires IsRun(tr, es) && k < |es|
    ensures forall t :: t != es[k].tid ==> LocalAt(tr, k + 1, t) == LocalAt(tr, k, t)
    ensures Flow(tr[k].mem, es[k].call, LocalAt(tr, k, es[k].tid), tr[k + 1].mem, LocalAt(tr, k + 1, es[k].tid))
  {
    RunKeepsInv(tr, es, k);
    assert StepAt(tr, es, k);
    var s, e, s' := tr[k], es[k], tr[k + 1];
    var l' :| Step(s.mem, s.locals[e.tid], e.call) == Some((s'.mem, l')) && s'.locals == s.locals[e.tid := l'];
    assert LocalInv(s.mem, s.locals[e.tid]);
    StepFlow(s.mem, s.locals[e.tid], e.call, s'.mem, l');
  }

  ghost function WaitingAt(tr: seq<Queue>, k: nat): seq<Value>
    requires k < |tr|
  {
    Waiting(tr[k].mem)
  }

  // Step k of a run, when it takes thread t to a place inside Enqueue.
  lemma {:induction false} EnqueueStep(tr: seq<Queue>, es: seq<Event>, k: nat, t: Tid)
    requires IsRun(tr, es) && k < |es| && InEnqueue(LocalAt(tr, k + 1, t))
    ensures es[k].tid != t ==> LocalAt(tr, k, t) == LocalAt(tr, k + 1, t)
    ensures KeepsValues(tr[k].mem, tr[k + 1].mem)
    ensures es[k].tid == t ==>
      var l, l' := LocalAt(tr, k, t), LocalAt(tr, k + 1, t);
      && (match es[k].call
          case Enqueue(v) =>
            && AtRest(l) && Held(l').Some? && Held(l').value < |tr[k + 1].mem.heap|
            && tr[k + 1].mem.heap[Held(l').value].value == Some(v)
          case _ => if Held(l').Some? then Held(l) == Held(l') else !AtRest(l) && (Held(l).Some? <==> l'.EnqLinked?))
      && (if l'.EnqLinked?
          then Held(l) == Some(l'.node) && WaitingAt(tr, k + 1) == WaitingAt(tr, k) + [ValueOf(tr[k].mem, l'.node)]
          else WaitingAt(tr, k + 1) == WaitingAt(tr, k))
  {
    RunFlow(tr, es, k);
  }

  // Step k of a run, when it takes thread t to a place inside Dequeue.
  lemma {:induction false} DequeueStep(tr: seq<Queue>, es: seq<Event>, k: nat, t: Tid)
    requires IsRun(tr, es) && k < |es| && InDequeue(LocalAt(tr, k + 1, t))
    ensures es[k].tid != t ==> LocalAt(tr, k, t) == LocalAt(tr, k + 1, t)
    ensures es[k].tid == t ==>
      && !LocalAt(tr, k, t).DeqTaken?
      && (match LocalAt(tr, k + 1, t)
          case DeqTaken(v) => es[k].call.Resume? && WaitingAt(tr, k) == [v] + WaitingAt(tr, k + 1)
          case _ => WaitingAt(tr, k + 1) == WaitingAt(tr, k))
  {
    RunFlow(tr, es, k);
  }

  // Step k, if it is thread t's, leaves the abstract queue alone.
  ghost predicate Quiet(tr: seq<Queue>, es: seq<Event>, k: nat, t: Tid)
    requires |tr| == |es| + 1 && k < |es|
  {
    es[k].tid == t ==> WaitingAt(tr, k + 1) == WaitingAt(tr, k)
  }

  // The call begun by event i takes effect at step k, before state j, and the
  // thread changes the abstract queue at no other step of the call.
  ghost predicate Point(tr: seq<Queue>, es: seq<Event>, i: nat, j: nat, k: nat, t: Tid)
    requires |tr| == |es| + 1 && j <= |es|
  {
    && i < k < j && es[k].tid == t
    && forall m: nat :: i <= m < j && m != k ==> Quiet(tr, es, m, t)
  }

  ghost predicate EnqueuedAt(tr: seq<Queue>, es: seq<Event>, i: nat, j: nat, k: nat, t: Tid, v: Value)
    requires |tr| == |es| + 1 && j <= |es|
  {
    Point(tr, es, i, j, k, t) && WaitingAt(tr, k + 1) == WaitingAt(tr, k) + [v]
  }

  ghost predicate DequeuedAt(tr: seq<Queue>, es: seq<Event>, i: nat, j: nat, k: nat, t: Tid, v: Value)
    requires |tr| == |es| + 1 && j <= |es|
  {
    Point(tr, es, i, j, k, t) && WaitingAt(tr, k) == [v] + WaitingAt(tr, k + 1)
  }

  // States i+1 to j are inside the call thread t began with event i.
  ghost predicate Inside(tr: seq<Queue>, es: seq<Event>, i: nat, j: nat, t: Tid, call: Call) {
    && |tr| == |es| + 1 && i < j <= |es| && es[i] == Event(t, call)
    && forall k: nat :: i < k <= j ==>
         if call.Enqueue? then InEnqueue(LocalAt(tr, k, t)) else InDequeue(LocalAt(tr, k, t))
  }

  lemma {:induction false} EnqueueProgress(tr: seq<Queue>, es: seq<Event>, i: nat, j: nat, t: Tid, v: Value)
    requires IsRun(tr, es) && Inside(tr, es, i, j, t, Enqueue(v))
    ensures match Held(LocalAt(tr, j, t))
            case Some(n) =>
              && n < |tr[j].mem.heap| && tr[j].mem.heap[n].value == Some(v)
              && forall k: nat :: i <= k < j ==> Quiet(tr, es, k, t)
            case None => exists k: nat :: EnqueuedAt(tr, es, i, j, k, t, v)
  {
    EnqueueStep(tr, es, j - 1, t);
    var l, l' := LocalAt(tr, j - 1, t), LocalAt(tr, j, t);
    assert l'.EnqLinked? || Quiet(tr, es, j - 1, t);
    if i >= j - 1 {
    } else {
      EnqueueProgress(tr, es, i, j - 1, t, v);
      if Held(l).None? {
        var k: nat :| EnqueuedAt(tr, es, i, j - 1, k, t, v);
        assert EnqueuedAt(tr, es, i, j, k, t, v);
      } else if Held(l').None? {
        assert EnqueuedAt(tr, es, i, j, j - 1, t, v);
      }
    }
  }

  // A completed Enqueue(v) appends v to the abstract queue in exactly one step
  // between its call and its return.
  lemma {:induction false} EnqueueLinearizes(tr: seq<Queue>, es: seq<Event>, i: nat, end: nat, t: Tid, v: Value)
    requires IsRun(tr, es) && 0 < end <= |es| && Inside(tr, es, i, end - 1, t, Enqueue(v))
    requires LocalAt(tr, end, t).EnqDone?
    ensures exists k: nat :: EnqueuedAt(tr, es, i, end, k, t, v)
  {
    var j := end - 1;
    EnqueueProgress(tr, es, i, j, t, v);
    RunFlow(tr, es, j);
    var k: nat :| EnqueuedAt(tr, es, i, j, k, t, v);
    assert Quiet(tr, es, j, t);
    assert EnqueuedAt(tr, es, i, end, k, t, v);
  }

  lemma {:induction false} DequeueProgress(tr: seq<Queue>, es: seq<Event>, i: nat, j: nat, t: Tid)
    requires IsRun(tr, es) && Inside(tr, es, i, j, t, Dequeue)
    ensures match LocalAt(tr, j, t)
            case DeqTaken(v) => exists k: nat :: DequeuedAt(tr, es, i, j, k, t, v)
            case _ => forall k: nat :: i <= k < j ==> Quiet(tr, es, k, t)
  {
    DequeueStep(tr, es, j - 1, t);
    var l, l' := LocalAt(tr, j - 1, t), LocalAt(tr, j, t);
    assert l'.DeqTaken? || Quiet(tr, es, j - 1, t);
    if i >= j - 1 {
    } else {
      DequeueProgress(tr, es, i, j - 1, t);
      if l.DeqTaken? {
        var k: nat :| DequeuedAt(tr, es, i, j - 1, k, t, l.taken);
        assert DequeuedAt(tr, es, i, j, k, t, l.taken);
      } else if l'.DeqTaken? {
        assert DequeuedAt(tr, es, i, j, j - 1, t, l'.taken);
      }
    }
  }

  // A loaded successor that was nil: at that instant the queue was empty.
  lemma {:induction false} NilWasEmpty(tr: seq<Queue>, es: seq<Event>, i: nat, j: nat, t: Tid)
    requires IsRun(tr, es) && Inside(tr, es, i, j, t, Dequeue)
    requires LocalAt(tr, j, t).DeqNext? || LocalAt(tr, j, t).DeqChecked?
    requires LocalAt(tr, j, t).next.None?
    ensures exists k: nat :: i < k < j && WaitingAt(tr, k) == []
  {
    RunFlow(tr, es, j - 1);
    var l := LocalAt(tr, j - 1, t);
    if l.DeqTail? {
      RunKeepsInv(tr, es, j - 1);
      assert LocalInv(tr[j - 1].mem, l) && LinkedInv(tr[j - 1].mem, l.head);
      assert WaitingAt(tr, j - 1) == [];
    } else {
      NilWasEmpty(tr, es, i, j - 1, t);
    }
  }

  // A completed Dequeue that returns v removed v, the oldest waiting value, in
  // exactly one step of the call; one that returns nothing changed nothing, and
  // during the call there was an instant at which the queue was empty.
  lemma {:induction false} DequeueLinearizes(tr: seq<Queue>, es: seq<Event>, i: nat, end: nat, t: Tid)
    requires IsRun(tr, es) && 0 < end <= |es| && Inside(tr, es, i, end - 1, t, Dequeue)
    requires LocalAt(tr, end, t).DeqDone?
    ensures match LocalAt(tr, end, t).result
            case Some(v) => exists k: nat :: DequeuedAt(tr, es, i, end, k, t, v)
            case None =>
              && (forall k: nat :: i <= k < end ==> Quiet(tr, es, k, t))
              && exists k: nat :: i < k < end && WaitingAt(tr, k) == []
  {
    var j := end - 1;
    DequeueProgress(tr, es, i, j, t);
    RunFlow(tr, es, j);
    assert Quiet(tr, es, j, t);
    var l := LocalAt(tr, j, t);
    if l.DeqTaken? {
      var k: nat :| DequeuedAt(tr, es, i, j, k, t, l.taken);
      assert DequeuedAt(tr, es, i, end, k, t, l.taken);
    } else {
      NilWasEmpty(tr, es, i, j, t);
    }
  }
}

/**
 The pools of contract transactions and the choice of a batch for the next pin:
 `GetAllUncofirmed` and the pool operations in `smc/store.go`, `Find`, `Put` and
 `Remove` in `smc/pool.go`.
 */
module ContractPool {
  type Id = nat
  type Address = nat

  datatype Tx = Tx(id: Id, sender: Address, nonce: nat, fuel: nat)

  const MAX_INT: int := 0x7FFF_FFFF_FFFF_FFFF

  // A number reduced to a signed 64-bit word.
  function Int64(n: int): (r: int)
    ensures -MAX_INT - 1 <= r <= MAX_INT
    ensures -MAX_INT - 1 <= n <= MAX_INT ==> r == n
  {
    (n + MAX_INT + 1) % 0x1_0000_0000_0000_0000 - MAX_INT - 1
  }

  function Uint64(n: nat): nat {
    n % 0x1_0000_0000_0000_0000
  }

  // ----------------------------------------------------------------- the selection

  // A sender with an account whose nonce is the transaction's.
  predicate Eligible(accounts: map<Address, nat>, t: Tx) {
    t.sender in accounts && Uint64(accounts[t.sender]) == t.nonce
  }

  datatype Selection = Selection(senders: set<Address>, left: int, batch: seq<Tx>)

  function Consider(accounts: map<Address, nat>, s: Selection, t: Tx): Selection {
    if Eligible(accounts, t) && t.sender !in s.senders && s.left >= Int64(t.fuel)
    then Selection(s.senders + {t.sender}, Int64(s.left - Int64(t.fuel)), s.batch + [t])
    else s
  }

  // The filter's state after a scan of the transactions in the given order.
  function Scan(accounts: map<Address, nat>, limit: int, order: seq<Tx>): Selection {
    if order == [] then Selection({}, limit, [])
    else Consider(accounts, Scan(accounts, limit, order[..|order| - 1]), order[|order| - 1])
  }

  // Each transaction of the pool once.
  ghost predicate ScansPool(pool: map<Id, Tx>, order: seq<Tx>) {
    && |order| == |pool|
    && (forall t :: t in order <==> t in pool.Values)
  }

  // The pool is scanned in some order.
  method GetAllUnconfirmed(pool: map<Id, Tx>, accounts: map<Address, nat>, limit: int)
    returns (batch: seq<Tx>)
    ensures exists order :: ScansPool(pool, order) && batch == Scan(accounts, limit, order).batch
    ensures forall t :: t in batch ==> t in pool.Values && HasNonce(accounts, t)
    ensures forall i, j :: 0 <= i < j < |batch| ==> batch[i].sender != batch[j].sender
  {
    var senders, left := {}, limit;
    batch := [];
    ghost var order := [];
    var rest := pool.Keys;
    while rest != {}
      invariant rest <= pool.Keys && |order| + |rest| == |pool|
      invariant forall t :: t in order <==> exists id :: id in pool && id !in rest && pool[id] == t
      invariant Selection(senders, left, batch) == Scan(accounts, limit, order)
      decreases rest
    {
      var id :| id in rest;
      var t := pool[id];
      ghost var longer := order + [t];
      assert longer[..|order|] == order;
      if t.sender in accounts {
        var fuel := Int64(t.fuel);
        if Uint64(accounts[t.sender]) == t.nonce && t.sender !in senders && left >= fuel {
          senders := senders + {t.sender};
          left := Int64(left - fuel);
          batch := batch + [t];
        }
      }
      order, rest := longer, rest - {id};
    }
    assert ScansPool(pool, order);
    BatchOnePerSender(accounts, limit, order);
  }

  // --------------------------------------------------------- what every batch keeps

  function Fuel(batch: seq<Tx>): nat {
    if batch == [] then 0 else Fuel(batch[..|batch| - 1]) + batch[|batch| - 1].fuel
  }

  // The transaction's nonce is that of its sender's account, which has 64 bits.
  predicate HasNonce(accounts: map<Address, nat>, t: Tx) {
    && t.sender in accounts && t.nonce < 0x1_0000_0000_0000_0000
    && (accounts[t.sender] < 0x1_0000_0000_0000_0000 ==> accounts[t.sender] == t.nonce)
  }

  // Below 2^64 the account's nonce and the transaction's must be the same, and that is all.
  lemma {:induction false} EligibleIff(accounts: map<Address, nat>, t: Tx)
    ensures Eligible(accounts, t) ==> HasNonce(accounts, t)
    ensures t.sender in accounts && accounts[t.sender] == t.nonce < 0x1_0000_0000_0000_0000 ==> Eligible(accounts, t)
  {
  }

  // At most one transaction per sender, and only ones with the account's nonce.
  ghost predicate OnePerSender(accounts: map<Address, nat>, s: Selection) {
    && (forall i, j :: 0 <= i < j < |s.batch| ==> s.batch[i].sender != s.batch[j].sender)
    && (forall i :: 0 <= i < |s.batch| ==> Eligible(accounts, s.batch[i]) && s.batch[i].sender in s.senders)
    && (forall a :: a in s.senders ==> exists i :: 0 <= i < |s.batch| && s.batch[i].sender == a)
  }

  lemma {:induction false} ConsiderOnePerSender(accounts: map<Address, nat>, s: Selection, t: Tx)
    requires OnePerSender(accounts, s)
    ensures OnePerSender(accounts, Consider(accounts, s, t))
  {
    var s' := Consider(accounts, s, t);
    forall a | a in s'.senders ensures exists i :: 0 <= i < |s'.batch| && s'.batch[i].sender == a {
      if a in s.senders {
        var i :| 0 <= i < |s.batch| && s.batch[i].sender == a;
        assert s'.batch[i].sender == a;
      } else {
        assert s'.batch[|s.batch|].sender == a;
      }
    }
  }

  lemma {:induction false} BatchOnePerSender(accounts: map<Address, nat>, limit: int, order: seq<Tx>)
    ensures OnePerSender(accounts, Scan(accounts, limit, order))
    ensures forall t :: t in Scan(accounts, limit, order).batch ==> t in order && HasNonce(accounts, t)
  {
    if order == [] {
    } else {
      var front, t := order[..|order| - 1], order[|order| - 1];
      BatchOnePerSender(accounts, limit, front);
      ConsiderOnePerSender(accounts, Scan(accounts, limit, front), t);
      EligibleIff(accounts, t);
      assert forall u :: u in order <==> u in front || u == t;
    }
  }

  // A fuel that survives the reduction to 64 bits, or is refused after it.
  predicate Safe(accounts: map<Address, nat>, limit: int, t: Tx) {
    Eligible(accounts, t) ==> t.fuel <= MAX_INT || Int64(t.fuel) > limit
  }

  // The filter's remaining fuel is what the batch leaves, and no skipped transaction
  // of an unselected sender fits into it.
  ghost predicate WithinLimit(accounts: map<Address, nat>, limit: int, order: seq<Tx>, s: Selection) {
    && s.left == limit - Fuel(s.batch) && s.left >= 0
    && forall t :: t in order && Eligible(accounts, t) && t.sender !in s.senders ==> t.fuel > s.left
  }

  lemma {:induction false} FuelOneMore(batch: seq<Tx>, t: Tx)
    ensures Fuel(batch + [t]) == Fuel(batch) + t.fuel
  {
    assert (batch + [t])[..|batch|] == batch;
  }

  lemma {:induction false} ConsiderWithinLimit(accounts: map<Address, nat>, limit: int, front: seq<Tx>, order: seq<Tx>,
          s: Selection, t: Tx)
    requires 0 <= limit <= MAX_INT && Safe(accounts, limit, t) && order == front + [t]
    requires WithinLimit(accounts, limit, front, s)
    ensures WithinLimit(accounts, limit, order, Consider(accounts, s, t))
  {
    FuelOneMore(s.batch, t);
    assert forall u :: u in order <==> u in front || u == t;
  }

  lemma {:induction false} BatchWithinLimit(accounts: map<Address, nat>, limit: int, order: seq<Tx>)
    requires 0 <= limit <= MAX_INT && forall t :: t in order ==> Safe(accounts, limit, t)
    ensures WithinLimit(accounts, limit, order, Scan(accounts, limit, order))
  {
    if order == [] {
    } else {
      var front, t := order[..|order| - 1], order[|order| - 1];
      assert order == front + [t];
      assert t in order && forall u :: u in front ==> u in order;
      BatchWithinLimit(accounts, limit, front);
      ConsiderWithinLimit(accounts, limit, front, order, Scan(accounts, limit, front), t);
    }
  }

  // A transaction scanned first is selected whenever its reduced fuel fits, and stays
  // selected.
  lemma {:induction false} FirstIsSelected(accounts: map<Address, nat>, limit: int, order: seq<Tx>)
    requires order != [] && Eligible(accounts, order[0]) && limit >= Int64(order[0].fuel)
    ensures Fuel(Scan(accounts, limit, order).batch) >= order[0].fuel
  {
    var front := order[..|order| - 1];
    var s, s' := Scan(accounts, limit, front), Scan(accounts, limit, order);
    if front == [] {
    } else {
      FirstIsSelected(accounts, limit, front);
    }
    assert s'.batch != s.batch ==> s'.batch[..|s.batch|] == s.batch;
  }

  predicate Keyed(pool: map<Id, Tx>) {
    forall id :: id in pool ==> pool[id].id == id
  }

  lemma {:induction false} AnOrder(pool: map<Id, Tx>) returns (order: seq<Tx>)
    requires Keyed(pool)
    ensures ScansPool(pool, order)
    decreases |pool|
  {
    if |pool| == 0 {
      order := [];
    } else {
      var id :| id in pool;
      order := AnOrderFrom(pool, id);
    }
  }

  lemma {:induction false} AnOrderFrom(pool: map<Id, Tx>, id: Id) returns (order: seq<Tx>)
    requires Keyed(pool) && id in pool
    ensures ScansPool(pool, order) && order != [] && order[0] == pool[id]
    decreases |pool|, 0
  {
    var others := pool - {id};
    var rest := AnOrder(others);
    order := [pool[id]] + rest;
    forall t ensures t in order <==> t in pool.Values {
      assert t in rest <==> t in others.Values;
      if t in pool.Values {
        var k :| k in pool && pool[k] == t;
        assert k != id ==> k in others && others[k] == t;
      }
    }
  }

  // Every scan order stays within the limit exactly when each eligible transaction is
  // safe.
  lemma {:induction false} WithinLimitIff(pool: map<Id, Tx>, accounts: map<Address, nat>, limit: int)
    requires Keyed(pool) && 0 <= limit <= MAX_INT
    ensures (forall order :: ScansPool(pool, order) ==> Fuel(Scan(accounts, limit, order).batch) <= limit)
       <==> (forall t :: t in pool.Values ==> Safe(accounts, limit, t))
  {
    if forall t :: t in pool.Values ==> Safe(accounts, limit, t) {
      forall order | ScansPool(pool, order) ensures Fuel(Scan(accounts, limit, order).batch) <= limit {
        BatchWithinLimit(accounts, limit, order);
      }
    } else {
      var id :| id in pool && !Safe(accounts, limit, pool[id]);
      var order := AnOrderFrom(pool, id);
      FirstIsSelected(accounts, limit, order);
    }
  }

  // 2^63 units of fuel read as a negative number and fit into any batch.
  lemma {:induction false} HugeFuelIsSelected()
    ensures var t := Tx(1, 5, 0, 0x8000_0000_0000_0000);
      Scan(map[5 := 0], 100, [t]).batch == [t] && Fuel([t]) > 100
  {
    var t := Tx(1, 5, 0, 0x8000_0000_0000_0000);
    assert [t][..0] == [];
    assert Scan(map[5 := 0], 100, [t]) == Consider(map[5 := 0], Selection({}, 100, []), t);
  }

  // ----------------------------------------------------------------- the two pools

  datatype Pools = Pools(unconfirmed: map<Id, Tx>, confirmed: map<Id, Tx>)

  // The operations, each two calls that lock one pool.
  datatype Op = AddConfirmed(t: Tx) | RemoveUnconfirmed(t: Tx) | AddUnconfirmed(t: Tx)

  datatype Call = RemoveFrom(confirmed: bool, t: Tx) | PutInto(confirmed: bool, t: Tx)

  function Calls(op: Op): seq<Call> {
    match op
    case AddConfirmed(t) => [RemoveFrom(false, t), PutInto(true, t)]
    case RemoveUnconfirmed(t) => [RemoveFrom(false, t)]
    case AddUnconfirmed(t) => [PutInto(false, t), RemoveFrom(true, t)]
  }

  function Make(p: Pools, c: Call): Pools {
    match c
    case RemoveFrom(confirmed, t) =>
      if confirmed then p.(confirmed := p.confirmed - {t.id}) else p.(unconfirmed := p.unconfirmed - {t.id})
    case PutInto(confirmed, t) =>
      if confirmed then p.(confirmed := p.confirmed[t.id := t]) else p.(unconfirmed := p.unconfirmed[t.id := t])
  }

  function MakeAll(p: Pools, calls: seq<Call>): Pools {
    if calls == [] then p else Make(MakeAll(p, calls[..|calls| - 1]), calls[|calls| - 1])
  }

  class Store {
    var unconfirmed: map<Id, Tx>
    var confirmed: map<Id, Tx>

    ghost function Now(): Pools
      reads this
    {
      Pools(unconfirmed, confirmed)
    }

    constructor ()
      ensures Now() == Pools(map[], map[])
    {
      unconfirmed, confirmed := map[], map[];
    }

    method Put(conf: bool, t: Tx)
      modifies this
      ensures Now() == Make(old(Now()), PutInto(conf, t))
    {
      if conf { confirmed := confirmed[t.id := t]; } else { unconfirmed := unconfirmed[t.id := t]; }
    }

    method Remove(conf: bool, t: Tx)
      modifies this
      ensures Now() == Make(old(Now()), RemoveFrom(conf, t))
    {
      if conf { confirmed := confirmed - {t.id}; } else { unconfirmed := unconfirmed - {t.id}; }
    }

    method Confirm(t: Tx)
      modifies this
      ensures Now() == MakeAll(old(Now()), Calls(AddConfirmed(t)))
    {
      MakeTwo(Now(), RemoveFrom(false, t), PutInto(true, t));
      Remove(false, t);
      Put(true, t);
    }

    method Drop(t: Tx)
      modifies this
      ensures Now() == MakeAll(old(Now()), Calls(RemoveUnconfirmed(t)))
    {
      MakeOne(Now(), RemoveFrom(false, t));
      Remove(false, t);
    }

    method Submit(t: Tx)
      modifies this
      ensures Now() == MakeAll(old(Now()), Calls(AddUnconfirmed(t)))
    {
      MakeTwo(Now(), PutInto(false, t), RemoveFrom(true, t));
      Put(false, t);
      Remove(true, t);
    }
  }

  lemma {:induction false} MakeOne(p: Pools, c: Call)
    ensures MakeAll(p, [c]) == Make(p, c)
  {
    assert [c][..0] == [];
  }

  lemma {:induction false} MakeOneMore(p: Pools, calls: seq<Call>, c: Call)
    ensures MakeAll(p, calls + [c]) == Make(MakeAll(p, calls), c)
  {
    assert (calls + [c])[..|calls|] == calls;
  }

  lemma {:induction false} MakeTwo(p: Pools, c: Call, d: Call)
    ensures MakeAll(p, [c, d]) == Make(Make(p, c), d)
  {
    assert [c, d][..1] == [c];
    MakeOne(p, c);
  }

  // What each operation does when no other interferes: which pool holds the id, with which
  // transaction, and nothing else changes.
  lemma {:induction false} OpMoves(p: Pools, op: Op)
    ensures var q, t := MakeAll(p, Calls(op)), op.t;
      && q.unconfirmed == (if op.AddUnconfirmed? then p.unconfirmed[t.id := t] else p.unconfirmed - {t.id})
      && (t.id in q.unconfirmed <==> op.AddUnconfirmed?)
      && (t.id in q.confirmed <==> op.AddConfirmed? || (op.RemoveUnconfirmed? && t.id in p.confirmed))
      && (op.AddConfirmed? ==> q.confirmed == p.confirmed[t.id := t])
      && (op.RemoveUnconfirmed? ==> q.confirmed == p.confirmed)
      && (op.AddUnconfirmed? ==> q.confirmed == p.confirmed - {t.id})
  {
    match op {
      case AddConfirmed(t) => MakeTwo(p, RemoveFrom(false, t), PutInto(true, t));
      case RemoveUnconfirmed(t) => MakeOne(p, RemoveFrom(false, t));
      case AddUnconfirmed(t) => MakeTwo(p, PutInto(false, t), RemoveFrom(true, t));
    }
  }

  // Calls of different threads may interleave. What happens to one id depends only on
  // the calls for that id.
  function For(calls: seq<Call>, id: Id): seq<Call> {
    if calls == [] then []
    else
      var last := calls[|calls| - 1];
      For(calls[..|calls| - 1], id) + if last.t.id == id then [last] else []
  }

  predicate Both(p: Pools, id: Id) {
    id in p.unconfirmed && id in p.confirmed
  }

  ghost predicate SameAt(p: Pools, q: Pools, id: Id) {
    (id in p.unconfirmed <==> id in q.unconfirmed) && (id in p.confirmed <==> id in q.confirmed)
  }

  lemma {:induction false} MakeAt(p: Pools, q: Pools, c: Call, id: Id)
    requires SameAt(p, q, id)
    ensures SameAt(Make(p, c), if c.t.id == id then Make(q, c) else q, id)
  {
  }

  lemma {:induction false} OnlyOwnCallsMatter(p: Pools, calls: seq<Call>, id: Id)
    ensures SameAt(MakeAll(p, calls), MakeAll(p, For(calls, id)), id)
  {
    if calls == [] {
    } else {
      var front, last := calls[..|calls| - 1], calls[|calls| - 1];
      var own := For(front, id);
      OnlyOwnCallsMatter(p, front, id);
      MakeAt(MakeAll(p, front), MakeAll(p, own), last, id);
      MakeOneMore(p, own, last);
      assert own + [] == own;
    }
  }

  function AllCalls(ops: seq<Op>): seq<Call> {
    if ops == [] then [] else AllCalls(ops[..|ops| - 1]) + Calls(ops[|ops| - 1])
  }

  lemma {:induction false} MakeJoin(p: Pools, a: seq<Call>, b: seq<Call>)
    ensures MakeAll(p, a + b) == MakeAll(MakeAll(p, a), b)
  {
    if b == [] {
      assert a + b == a;
    } else {
      MakeJoin(p, a, b[..|b| - 1]);
      assert (a + b)[..|a + b| - 1] == a + b[..|b| - 1];
    }
  }

  lemma {:induction false} OpKeepsApart(p: Pools, op: Op, id: Id)
    requires !Both(p, id)
    ensures !Both(MakeAll(p, Calls(op)), id)
  {
    match op {
      case AddConfirmed(t) => MakeTwo(p, RemoveFrom(false, t), PutInto(true, t));
      case RemoveUnconfirmed(t) => MakeOne(p, RemoveFrom(false, t));
      case AddUnconfirmed(t) => MakeTwo(p, PutInto(false, t), RemoveFrom(true, t));
    }
  }

  lemma {:induction false} OpsKeepApart(p: Pools, ops: seq<Op>, id: Id)
    requires !Both(p, id)
    ensures !Both(MakeAll(p, AllCalls(ops)), id)
  {
    if ops == [] {
    } else {
      var front, op := ops[..|ops| - 1], ops[|ops| - 1];
      OpsKeepApart(p, front, id);
      MakeJoin(p, AllCalls(front), Calls(op));
      OpKeepsApart(MakeAll(p, AllCalls(front)), op, id);
    }
  }

  // However the calls of different ids interleave: an id whose own calls are those of
  // whole operations, one after the other, is never left in both pools.
  lemma {:induction false} PoolsStayApart(p: Pools, calls: seq<Call>, id: Id, ops: seq<Op>)
    requires !Both(p, id) && For(calls, id) == AllCalls(ops)
    ensures !Both(MakeAll(p, calls), id)
  {
    OnlyOwnCallsMatter(p, calls, id);
    OpsKeepApart(p, ops, id);
  }

  // ------------------------------------------------------ operations that run at once

  // The calls are an interleaving of what the threads still have to do.
  ghost predicate Interleaves(threads: seq<seq<Call>>, calls: seq<Call>)
    decreases |calls|
  {
    if calls == [] then forall i :: 0 <= i < |threads| ==> threads[i] == []
    else exists i :: MakesNext(threads, i, calls[0]) && Interleaves(After(threads, i), calls[1..])
  }

  // Thread i is the one to make call c next.
  ghost predicate MakesNext(threads: seq<seq<Call>>, i: int, c: Call) {
    0 <= i < |threads| && threads[i] != [] && threads[i][0] == c
  }

  ghost function After(threads: seq<seq<Call>>, i: int): seq<seq<Call>> {
    if 0 <= i < |threads| && threads[i] != [] then threads[i := threads[i][1..]] else threads
  }

  // One thread for each operation.
  function Threads(ops: seq<Op>): (threads: seq<seq<Call>>)
    ensures |threads| == |ops| && forall i :: 0 <= i < |ops| ==> threads[i] == Calls(ops[i])
  {
    seq(|ops|, i requires 0 <= i < |ops| => Calls(ops[i]))
  }

  lemma {:induction false} MakeFirst(p: Pools, c: Call, calls: seq<Call>)
    ensures MakeAll(p, [c] + calls) == MakeAll(Make(p, c), calls)
  {
    MakeJoin(p, [c], calls);
    MakeOne(p, c);
  }

  predicate Is(c: Call, put: bool, confirmed: bool, id: Id) {
    c.t.id == id && c.confirmed == confirmed && c.PutInto? == put
  }

  // What is left of an operation that does not submit the id: a put into the confirmed
  // comes after a removal from the unconfirmed, or when that has happened.
  ghost predicate NoSubmit(rest: seq<Call>, id: Id, removed: bool) {
    && |rest| <= 2 && (forall k :: 0 <= k < |rest| ==> !Is(rest[k], true, false, id))
    && (forall k :: 0 <= k < |rest| && Is(rest[k], true, true, id) ==>
          if k == 0 then removed else Is(rest[0], false, false, id))
  }

  // Without a submission of the id, its first call of all removes it from the
  // unconfirmed for good.
  lemma {:induction false} NoSubmitStaysApart(p: Pools, threads: seq<seq<Call>>, calls: seq<Call>, id: Id)
    requires Interleaves(threads, calls) && !Both(p, id)
    requires forall i :: 0 <= i < |threads| ==> NoSubmit(threads[i], id, id !in p.unconfirmed)
    ensures !Both(MakeAll(p, calls), id)
    decreases |calls|
  {
    if calls == [] {
    } else {
      var c := calls[0];
      var i :| MakesNext(threads, i, c) && Interleaves(After(threads, i), calls[1..]);
      var p' := Make(p, c);
      assert NoSubmit(threads[i], id, id !in p.unconfirmed);
      forall j | 0 <= j < |threads| ensures NoSubmit(After(threads, i)[j], id, id !in p'.unconfirmed) {
        assert NoSubmit(threads[j], id, id !in p.unconfirmed);
      }
      NoSubmitStaysApart(p', After(threads, i), calls[1..], id);
      assert calls == [c] + calls[1..];
      MakeFirst(p, c, calls[1..]);
    }
  }

  // What is left of an operation that does not confirm the id: a put into the
  // unconfirmed is followed by a removal from the confirmed.
  ghost predicate NoConfirm(rest: seq<Call>, id: Id) {
    && (forall k :: 0 <= k < |rest| ==> !Is(rest[k], true, true, id))
    && (forall k :: 0 <= k < |rest| && Is(rest[k], true, false, id) ==>
          |rest| == 2 && k == 0 && Is(rest[1], false, true, id))
  }

  ghost predicate RemovalPending(threads: seq<seq<Call>>, id: Id) {
    exists i :: 0 <= i < |threads| && RemovalLeft(threads[i], id)
  }

  ghost predicate RemovalLeft(rest: seq<Call>, id: Id) {
    |rest| == 1 && Is(rest[0], false, true, id)
  }

  // Without a confirmation of the id, whenever it is in both pools some submission has
  // still to remove it from the confirmed.
  lemma {:induction false} NoConfirmStaysApart(p: Pools, threads: seq<seq<Call>>, calls: seq<Call>, id: Id)
    requires Interleaves(threads, calls) && (Both(p, id) ==> RemovalPending(threads, id))
    requires forall i :: 0 <= i < |threads| ==> NoConfirm(threads[i], id)
    ensures !Both(MakeAll(p, calls), id)
    decreases |calls|
  {
    if calls == [] {
    } else {
      var c := calls[0];
      var i :| MakesNext(threads, i, c) && Interleaves(After(threads, i), calls[1..]);
      NoConfirmStep(p, threads, i, c, id);
      NoConfirmStaysApart(Make(p, c), After(threads, i), calls[1..], id);
      assert calls == [c] + calls[1..];
      MakeFirst(p, c, calls[1..]);
    }
  }

  lemma {:induction false} NoConfirmStep(p: Pools, threads: seq<seq<Call>>, i: int, c: Call, id: Id)
    requires MakesNext(threads, i, c) && (Both(p, id) ==> RemovalPending(threads, id))
    requires forall i :: 0 <= i < |threads| ==> NoConfirm(threads[i], id)
    ensures Both(Make(p, c), id) ==> RemovalPending(After(threads, i), id)
    ensures forall j :: 0 <= j < |After(threads, i)| ==> NoConfirm(After(threads, i)[j], id)
  {
    var after := After(threads, i);
    assert NoConfirm(threads[i], id);
    forall j | 0 <= j < |after| ensures NoConfirm(after[j], id) {
      assert NoConfirm(threads[j], id);
    }
    if Both(Make(p, c), id) {
      if Both(p, id) {
        var j :| 0 <= j < |threads| && RemovalLeft(threads[j], id);
        assert i != j;
        assert RemovalLeft(after[j], id);
      } else {
        assert Is(c, true, false, id);
        assert RemovalLeft(after[i], id);
      }
    }
  }

  // --------------------------------------------------------- an overlap can be had

  // One thread runs to its end before the others go on.
  lemma {:induction false} RunThread(threads: seq<seq<Call>>, i: nat, calls: seq<Call>)
    requires i < |threads| && Interleaves(threads[i := []], calls)
    ensures Interleaves(threads, threads[i] + calls)
    decreases |threads[i]|
  {
    if threads[i] == [] {
      assert threads[i := []] == threads && threads[i] + calls == calls;
    } else {
      var after := After(threads, i);
      assert after[i := []] == threads[i := []];
      RunThread(after, i, calls);
      var all := threads[i] + calls;
      assert all[1..] == after[i] + calls && MakesNext(threads, i, all[0]);
    }
  }

  // All threads but a and b, from the n-th on, run one after the other.
  function Cleared(threads: seq<seq<Call>>, n: nat, a: nat, b: nat): (r: seq<seq<Call>>)
    ensures |r| == |threads|
    ensures forall i :: 0 <= i < |r| ==> r[i] == if i < n && i != a && i != b then [] else threads[i]
  {
    seq(|threads|, i requires 0 <= i < |threads| => if i < n && i != a && i != b then [] else threads[i])
  }

  lemma {:induction false} RunOthers(threads: seq<seq<Call>>, n: nat, a: nat, b: nat, last: seq<Call>)
    returns (calls: seq<Call>, first: seq<Call>)
    requires n <= |threads| && Interleaves(Cleared(threads, |threads|, a, b), last)
    ensures Interleaves(Cleared(threads, n, a, b), calls) && calls == first + last
    decreases |threads| - n
  {
    if n == |threads| {
      calls, first := last, [];
    } else {
      var rest, before := RunOthers(threads, n + 1, a, b, last);
      var more;
      calls, more := RunOther(threads, n, a, b, rest);
      first := more + before;
      Associates(more, before, last);
    }
  }

  lemma {:induction false} Associates(a: seq<Call>, b: seq<Call>, c: seq<Call>)
    ensures a + (b + c) == (a + b) + c
  {
  }

  lemma {:induction false} RunOther(threads: seq<seq<Call>>, n: nat, a: nat, b: nat, rest: seq<Call>)
    returns (calls: seq<Call>, first: seq<Call>)
    requires n < |threads| && Interleaves(Cleared(threads, n + 1, a, b), rest)
    ensures Interleaves(Cleared(threads, n, a, b), calls) && calls == first + rest
  {
    var now, later := Cleared(threads, n, a, b), Cleared(threads, n + 1, a, b);
    if n == a || n == b {
      assert now == later;
      calls, first := rest, [];
    } else {
      assert now[n := []] == later;
      RunThread(now, n, rest);
      calls, first := now[n] + rest, now[n];
    }
  }

  function Overlapping(t: Tx, u: Tx): seq<Call> {
    [RemoveFrom(false, t), PutInto(false, u), RemoveFrom(true, u), PutInto(true, t)]
  }

  // A confirmation of t that a submission of u comes between.
  lemma {:induction false} InterleavedOverlap(p: Pools, t: Tx, u: Tx)
    requires t.id == u.id
    ensures Both(MakeAll(p, Overlapping(t, u)), t.id)
  {
    var a, b := [RemoveFrom(false, t), PutInto(false, u)], [RemoveFrom(true, u), PutInto(true, t)];
    MakeJoin(p, a, b);
    assert a + b == Overlapping(t, u);
    MakeTwo(p, a[0], a[1]);
    MakeTwo(MakeAll(p, a), b[0], b[1]);
  }

  lemma {:induction false} TwoOverlap(threads: seq<seq<Call>>, a: nat, b: nat, t: Tx, u: Tx)
    requires a < |threads| && b < |threads| && a != b
    requires threads[a] == Calls(AddConfirmed(t)) && threads[b] == Calls(AddUnconfirmed(u))
    requires forall i :: 0 <= i < |threads| && i != a && i != b ==> threads[i] == []
    ensures Interleaves(threads, Overlapping(t, u))
  {
    var calls := Overlapping(t, u);
    var t1 := After(threads, a);
    var t2 := After(t1, b);
    var t3 := After(t2, b);
    var t4 := After(t3, a);
    assert t1[a] == [PutInto(true, t)] && t2[b] == [RemoveFrom(true, u)] && t3[b] == [] && t4[a] == [];
    assert Interleaves(t4, calls[4..]);
    assert MakesNext(t3, a, calls[3..][0]) && calls[3..][1..] == calls[4..];
    assert Interleaves(t3, calls[3..]);
    assert MakesNext(t2, b, calls[2..][0]) && calls[2..][1..] == calls[3..];
    assert Interleaves(t2, calls[2..]);
    assert MakesNext(t1, b, calls[1..][0]) && calls[1..][1..] == calls[2..];
    assert Interleaves(t1, calls[1..]);
    assert MakesNext(threads, a, calls[0]);
  }

  predicate Confirms(ops: seq<Op>, id: Id) {
    exists i :: 0 <= i < |ops| && ops[i].AddConfirmed? && ops[i].t.id == id
  }

  predicate Submits(ops: seq<Op>, id: Id) {
    exists i :: 0 <= i < |ops| && ops[i].AddUnconfirmed? && ops[i].t.id == id
  }

  ghost predicate AlwaysApart(p: Pools, ops: seq<Op>, id: Id) {
    forall calls :: Interleaves(Threads(ops), calls) ==> !Both(MakeAll(p, calls), id)
  }

  lemma {:induction false} BothOverlap(p: Pools, ops: seq<Op>, a: nat, b: nat) returns (calls: seq<Call>)
    requires a < |ops| && b < |ops| && ops[a].AddConfirmed? && ops[b].AddUnconfirmed? && ops[a].t.id == ops[b].t.id
    ensures Interleaves(Threads(ops), calls) && Both(MakeAll(p, calls), ops[a].t.id)
  {
    var threads, last := Threads(ops), Overlapping(ops[a].t, ops[b].t);
    TwoOverlap(Cleared(threads, |threads|, a, b), a, b, ops[a].t, ops[b].t);
    var first;
    calls, first := RunOthers(threads, 0, a, b, last);
    assert Cleared(threads, 0, a, b) == threads;
    MakeJoin(p, first, last);
    InterleavedOverlap(MakeAll(p, first), ops[a].t, ops[b].t);
  }

  lemma {:induction false} OneKindStaysApart(p: Pools, ops: seq<Op>, id: Id, calls: seq<Call>)
    requires !Both(p, id) && !(Confirms(ops, id) && Submits(ops, id)) && Interleaves(Threads(ops), calls)
    ensures !Both(MakeAll(p, calls), id)
  {
    if Submits(ops, id) {
      assert forall i :: 0 <= i < |ops| ==> NoConfirm(Calls(ops[i]), id);
      NoConfirmStaysApart(p, Threads(ops), calls, id);
    } else {
      assert forall i :: 0 <= i < |ops| ==> NoSubmit(Calls(ops[i]), id, id !in p.unconfirmed);
      NoSubmitStaysApart(p, Threads(ops), calls, id);
    }
  }

  // Operations on any ids run at once. Every interleaving of their calls leaves an id
  // out of one of the pools exactly when they do not both confirm and submit it.
  lemma {:induction false} ApartIff(p: Pools, ops: seq<Op>, id: Id)
    requires !Both(p, id)
    ensures AlwaysApart(p, ops, id) <==> !(Confirms(ops, id) && Submits(ops, id))
  {
    if Confirms(ops, id) && Submits(ops, id) {
      var a: nat :| a < |ops| && ops[a].AddConfirmed? && ops[a].t.id == id;
      var b: nat :| b < |ops| && ops[b].AddUnconfirmed? && ops[b].t.id == id;
      var calls := BothOverlap(p, ops, a, b);
    } else {
      forall calls | Interleaves(Threads(ops), calls) ensures !Both(MakeAll(p, calls), id) {
        OneKindStaysApart(p, ops, id, calls);
      }
    }
  }
}

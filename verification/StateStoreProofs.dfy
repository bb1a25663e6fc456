/**
 The state store behaves as a stack of full copies: what every run of writes,
 checkpoints, commits and reverts promises about the accounts and slots.
 */
module StateStoreProofs {
  import opened Wrappers
  import opened StateStore

  // ------------------------------------------------------------- observing data

  // A missing slot and an explicit zero word read the same.
  function Slot(d: Data, a: string, k: string): Bytes {
    if k in StorageOf(d, a) then StorageOf(d, a)[k] else EMPTY_ARRAY
  }

  ghost predicate Same(d: Data, e: Data) {
    && d.accounts == e.accounts
    && forall a, k :: Slot(d, a, k) == Slot(e, a, k)
  }

  // Same data, same answers.
  lemma {:induction false} SameReads(d: Data, e: Data, a: string, k: string)
    requires Same(d, e)
    ensures GetValue(d, a, k).0 == GetValue(e, a, k).0
    ensures a in d.accounts <==> a in e.accounts
    ensures a in d.accounts ==> d.accounts[a] == e.accounts[a]
  {
    if a in d.accounts { assert Slot(d, d.accounts[a].address, k) == Slot(e, e.accounts[a].address, k); }
  }

  ghost predicate Keyed(d: Data) {
    forall a :: a in d.accounts ==> d.accounts[a].address == a
  }

  // No stored account lacks a nonce.
  ghost predicate NoEmpty(d: Data) {
    forall a :: a in d.accounts ==> !d.accounts[a].IsEmpty()
  }

  lemma {:induction false} SetSlotAt(d: Data, a: string, k: string, v: Bytes)
    ensures forall b, j :: Slot(SetSlot(d, a, k, v), b, j) == if (b, j) == (a, k) then v else Slot(d, b, j)
  {
  }

  lemma {:induction false} SetAccountSlots(d: Data, acc: StoredAccount)
    ensures forall a, k :: Slot(SetAccount(d, acc), a, k) == Slot(d, a, k)
  {
  }

  // -------------------------------------------------------------------- undoing

  function UndoList(d: Data, ms: seq<Modification>): Data
    decreases |ms|
  {
    if ms == [] then d else UndoList(UndoData(d, ms[0]), ms[1..])
  }

  lemma {:induction false} UndoAllData(s: Store, ms: seq<Modification>)
    ensures UndoAll(s, ms).data == UndoList(s.data, ms)
    ensures UndoAll(s, ms).collectDiffs == s.collectDiffs
    decreases |ms|
  {
    if ms == [] {
    } else {
      UndoAllData(UndoOne(s, ms[0]), ms[1..]);
    }
  }

  lemma {:induction false} UndoConcat(d: Data, xs: seq<Modification>, ys: seq<Modification>)
    ensures UndoList(d, xs + ys) == UndoList(UndoList(d, xs), ys)
    decreases |xs|
  {
    if xs == [] {
      assert xs + ys == ys;
    } else {
      UndoConcat(UndoData(d, xs[0]), xs[1..], ys);
      assert (xs + ys)[1..] == xs[1..] + ys;
    }
  }

  lemma {:induction false} UndoOneSame(d: Data, e: Data, m: Modification)
    requires Same(d, e)
    ensures Same(UndoData(d, m), UndoData(e, m))
  {
    if m.SlotWas? {
      SetSlotAt(d, m.address, m.key, m.value);
      SetSlotAt(e, m.address, m.key, m.value);
    } else {
      assert forall a, k :: Slot(UndoData(d, m), a, k) == Slot(d, a, k);
      assert forall a, k :: Slot(UndoData(e, m), a, k) == Slot(e, a, k);
    }
  }

  lemma {:induction false} UndoSame(d: Data, e: Data, ms: seq<Modification>)
    requires Same(d, e)
    ensures Same(UndoList(d, ms), UndoList(e, ms))
    decreases |ms|
  {
    if ms == [] {
    } else {
      UndoOneSame(d, e, ms[0]);
      UndoSame(UndoData(d, ms[0]), UndoData(e, ms[0]), ms[1..]);
    }
  }

  lemma {:induction false} UndoKeyed(d: Data, ms: seq<Modification>)
    requires Keyed(d)
    ensures Keyed(UndoList(d, ms))
    decreases |ms|
  {
    if ms == [] {
    } else {
      UndoKeyed(UndoData(d, ms[0]), ms[1..]);
    }
  }

  function Drop(d: Data, a: string): Data {
    d.(accounts := d.accounts - {a})
  }

  // An account without a nonce that is not in the copy undone to was written
  // since, so an older record decides it and its present state does not matter.
  lemma {:induction false} DropForgotten(d: Data, a: string, xs: seq<Modification>, copy: Data)
    requires Same(UndoList(d, xs), copy) && NoEmpty(copy)
    requires a in d.accounts && d.accounts[a].IsEmpty()
    ensures Same(UndoList(Drop(d, a), xs), copy)
    decreases |xs|
  {
    if xs == [] {
    } else {
      var m := xs[0];
      if m.AccountWas? && m.account.address == a {
        assert UndoData(Drop(d, a), m) == UndoData(d, m);
      } else {
        assert UndoData(Drop(d, a), m) == Drop(UndoData(d, m), a);
        DropForgotten(UndoData(d, m), a, xs[1..], copy);
      }
    }
  }

  // Undoing the record of an account write right after it leaves the data as they were,
  // except that an account without a nonce is gone.
  lemma {:induction false} UndoAccountWrite(d: Data, acc: StoredAccount)
    requires Keyed(d)
    ensures var a := acc.address;
      Same(UndoData(SetAccount(d, acc), AccountRecord(d, a)),
           if a in d.accounts && d.accounts[a].IsEmpty() then Drop(d, a) else d)
  {
    var d', a := SetAccount(d, acc), acc.address;
    var undone := UndoData(d', AccountRecord(d, a));
    SetAccountSlots(d, acc);
    assert forall b, k :: Slot(undone, b, k) == Slot(d', b, k);
    if a in d.accounts && d.accounts[a].IsEmpty() {
      assert undone.accounts == d.accounts - {a};
      assert forall b, k :: Slot(Drop(d, a), b, k) == Slot(d, b, k);
    } else {
      assert undone.accounts == d.accounts;
    }
  }

  // A write and its record cancel out, as far as a copy below them can tell.
  lemma {:induction false} PushAccount(d: Data, acc: StoredAccount, xs: seq<Modification>, copy: Data)
    requires Keyed(d) && Same(UndoList(d, xs), copy) && NoEmpty(copy)
    ensures Same(UndoList(SetAccount(d, acc), [AccountRecord(d, acc.address)] + xs), copy)
  {
    var m, a := AccountRecord(d, acc.address), acc.address;
    var undone := UndoData(SetAccount(d, acc), m);
    assert ([m] + xs)[1..] == xs;
    UndoAccountWrite(d, acc);
    if a in d.accounts && d.accounts[a].IsEmpty() {
      DropForgotten(d, a, xs, copy);
      UndoSame(undone, Drop(d, a), xs);
    } else {
      UndoSame(undone, d, xs);
    }
  }

  lemma {:induction false} PushSlot(d: Data, a: string, k: string, v: Bytes, xs: seq<Modification>, copy: Data)
    requires Same(UndoList(d, xs), copy)
    ensures Same(UndoList(SetSlot(d, a, k, v), [SlotRecord(d, a, k)] + xs), copy)
  {
    var d', m := SetSlot(d, a, k, v), SlotRecord(d, a, k);
    assert ([m] + xs)[1..] == xs;
    SetSlotAt(d, a, k, v);
    SetSlotAt(d', a, k, m.value);
    UndoSame(UndoData(d', m), d, xs);
  }

  // --------------------------------------------------------- one open checkpoint

  ghost predicate WellFormed(s: Store) {
    && Keyed(s.data)
    && (forall i :: 0 <= i < |s.checkPoints| ==> s.checkPoints[i] <= |s.modifications|)
    && (forall i, j :: 0 <= i < j < |s.checkPoints| ==> s.checkPoints[j] <= s.checkPoints[i])
  }

  // The journal records above the i-th newest checkpoint.
  function Above(s: Store, i: nat): seq<Modification>
    requires i < |s.checkPoints| && s.checkPoints[i] <= |s.modifications|
  {
    s.modifications[..|s.modifications| - s.checkPoints[i]]
  }

  // Undoing down to the i-th newest checkpoint gives the copy taken there.
  ghost predicate Level(s: Store, i: nat, copy: Data) {
    && i < |s.checkPoints| && s.checkPoints[i] <= |s.modifications|
    && Same(UndoList(s.data, Above(s, i)), copy)
  }

  lemma {:induction false} PutAccountLevel(s: Store, acc: StoredAccount, i: nat, copy: Data)
    requires WellFormed(s) && Level(s, i, copy) && NoEmpty(copy)
    ensures Level(PutAccount(s, acc), i, copy)
  {
    var s' := PutAccount(s, acc);
    PushAccount(s.data, Trimmed(acc), Above(s, i), copy);
    assert Above(s', i) == [AccountRecord(s.data, Trimmed(acc).address)] + Above(s, i);
  }

  lemma {:induction false} PutValueLevel(s: Store, a: Hex, k: string, v: Bytes, i: nat, copy: Data)
    requires WellFormed(s) && Level(s, i, copy) && NoEmpty(copy)
    ensures Level(PutValue(s, a, k, v), i, copy)
  {
    var s1, s' := WithAccount(s, a), PutValue(s, a, k, v);
    if a !in s.data.accounts { PutAccountLevel(s, DefaultAccount(a), i, copy); }
    PushSlot(s1.data, a, k, v, Above(s1, i), copy);
    assert Above(s', i) == [SlotRecord(s1.data, a, k)] + Above(s1, i);
  }

  lemma {:induction false} RevertLevel(s: Store, i: nat, copy: Data)
    requires WellFormed(s) && Level(s, i, copy)
    ensures Revert(s).Some?
    ensures i == 0 ==> Same(Revert(s).value.data, copy)
    ensures i > 0 ==> Level(Revert(s).value, i - 1, copy)
  {
    var s' := Revert(s).value;
    UndoAllData(s, Above(s, 0));
    if i > 0 {
      assert Above(s, i) == Above(s, 0) + Above(s', i - 1);
      UndoConcat(s.data, Above(s, 0), Above(s', i - 1));
    }
  }

  lemma {:induction false} ApplyWellFormed(s: Store, op: Op)
    requires WellFormed(s)
    ensures Apply(s, op).None? <==> s.checkPoints == [] && (op.OpCommit? || op.OpRevert?)
    ensures Apply(s, op).Some? ==>
      && WellFormed(Apply(s, op).value)
      && |Apply(s, op).value.checkPoints| == |s.checkPoints|
           + (if op.OpCheckpoint? then 1 else if op.OpCommit? || op.OpRevert? then -1 else 0)
  {
    if op.OpRevert? && s.checkPoints != [] {
      UndoAllData(s, Above(s, 0));
      UndoKeyed(s.data, Above(s, 0));
    }
  }

  // The place of an open checkpoint after one more operation.
  function Shifted(i: nat, op: Op): int {
    if op.OpCheckpoint? then i + 1 else if op.OpCommit? || op.OpRevert? then i - 1 else i
  }

  lemma {:induction false} ApplyLevel(s: Store, op: Op, i: nat, copy: Data)
    requires WellFormed(s) && Level(s, i, copy) && NoEmpty(copy) && Shifted(i, op) >= 0
    ensures Apply(s, op).Some? && Level(Apply(s, op).value, Shifted(i, op), copy)
  {
    match op
    case OpPutAccount(acc) => PutAccountLevel(s, acc, i, copy);
    case OpPutValue(a, k, v) => PutValueLevel(s, a, k, v, i, copy);
    case OpCheckpoint => assert Above(Checkpoint(s), i + 1) == Above(s, i);
    case OpCommit => assert Above(Commit(s).value, i - 1) == Above(s, i);
    case OpRevert => RevertLevel(s, i, copy);
  }

  lemma {:induction false} CheckpointLevel(s: Store)
    requires WellFormed(s)
    ensures Level(Checkpoint(s), 0, s.data)
  {
    assert Above(Checkpoint(s), 0) == [];
  }

  // -------------------------------------------------------- stack of full copies

  datatype Copies = Copies(current: Data, saved: seq<Data>)

  function CopiesApply(c: Copies, op: Op): Option<Copies> {
    match op
    case OpPutAccount(acc) => Some(c.(current := SetAccount(c.current, Trimmed(acc))))
    case OpPutValue(a, k, v) =>
      var d := if a in c.current.accounts then c.current else SetAccount(c.current, DefaultAccount(a));
      Some(c.(current := SetSlot(d, a, k, v)))
    case OpCheckpoint => Some(c.(saved := [c.current] + c.saved))
    case OpCommit => if c.saved == [] then None else Some(c.(saved := c.saved[1..]))
    case OpRevert => if c.saved == [] then None else Some(Copies(c.saved[0], c.saved[1..]))
  }

  function CopiesRun(c: Copies, ops: seq<Op>): Option<Copies>
    decreases |ops|
  {
    if ops == [] then Some(c)
    else match CopiesApply(c, ops[0])
      case None => None
      case Some(c1) => CopiesRun(c1, ops[1..])
  }

  // Every checkpoint of the run is taken where no account lacks a nonce.
  ghost predicate CleanRun(c: Copies, ops: seq<Op>)
    decreases |ops|
  {
    ops != [] ==>
      && (ops[0].OpCheckpoint? ==> NoEmpty(c.current))
      && (CopiesApply(c, ops[0]).Some? ==> CleanRun(CopiesApply(c, ops[0]).value, ops[1..]))
  }

  ghost predicate Refines(s: Store, c: Copies) {
    && WellFormed(s) && Same(s.data, c.current) && |s.checkPoints| == |c.saved|
    && forall i: nat {:trigger c.saved[i]} :: i < |c.saved| ==> Level(s, i, c.saved[i]) && NoEmpty(c.saved[i])
  }

  lemma {:induction false} WritesSame(s: Store, c: Copies, op: Op)
    requires Same(s.data, c.current) && (op.OpPutAccount? || op.OpPutValue?)
    ensures Same(Apply(s, op).value.data, CopiesApply(c, op).value.current)
  {
    var d, e := s.data, c.current;
    match op
    case OpPutAccount(acc) =>
      SetAccountSlots(d, Trimmed(acc));
      SetAccountSlots(e, Trimmed(acc));
    case OpPutValue(a, k, v) =>
      SetAccountSlots(d, DefaultAccount(a));
      SetAccountSlots(e, DefaultAccount(a));
      var d1 := WithAccount(s, a).data;
      var e1 := if a in e.accounts then e else SetAccount(e, DefaultAccount(a));
      assert Same(d1, e1);
      SetSlotAt(d1, a, k, v);
      SetSlotAt(e1, a, k, v);
  }

  lemma {:induction false} ApplyRefines(s: Store, c: Copies, op: Op)
    requires Refines(s, c) && (op.OpCheckpoint? ==> NoEmpty(c.current))
    ensures Apply(s, op).None? <==> CopiesApply(c, op).None?
    ensures Apply(s, op).Some? ==> Refines(Apply(s, op).value, CopiesApply(c, op).value)
  {
    ApplyWellFormed(s, op);
    if Apply(s, op).Some? {
      var s', c' := Apply(s, op).value, CopiesApply(c, op).value;
      forall i: nat | i < |c'.saved| ensures Level(s', i, c'.saved[i]) && NoEmpty(c'.saved[i]) {
        if op.OpCheckpoint? && i == 0 {
          CheckpointLevel(s);
        } else {
          var j := if op.OpCheckpoint? then i - 1 else if op.OpCommit? || op.OpRevert? then i + 1 else i;
          assert c'.saved[i] == c.saved[j];
          ApplyLevel(s, op, j, c.saved[j]);
        }
      }
      if op.OpPutAccount? || op.OpPutValue? { WritesSame(s, c, op); }
      if op.OpRevert? { RevertLevel(s, 0, c.saved[0]); }
    }
  }

  // Over every run, however nested, the store shows what a stack of full copies
  // would show, and panics exactly where that stack is empty.
  lemma {:induction false} StackOfCopies(s: Store, c: Copies, ops: seq<Op>)
    requires Refines(s, c) && CleanRun(c, ops)
    ensures match (Run(s, ops), CopiesRun(c, ops))
            case (Some(s'), Some(c')) => Refines(s', c')
            case (None, None) => true
            case _ => false
    decreases |ops|
  {
    if ops == [] {
    } else {
      ApplyRefines(s, c, ops[0]);
      if Apply(s, ops[0]).Some? {
        StackOfCopies(Apply(s, ops[0]).value, CopiesApply(c, ops[0]).value, ops[1..]);
      }
    }
  }

  // The same from an empty store, in the terms callers observe.
  lemma {:induction false} StackOfCopiesFromEmpty(ops: seq<Op>, a: string, k: string)
    requires CleanRun(Copies(NEW_STORE.data, []), ops)
    ensures Run(NEW_STORE, ops).None? <==> CopiesRun(Copies(NEW_STORE.data, []), ops).None?
    ensures Run(NEW_STORE, ops).Some? ==>
      var d, e := Run(NEW_STORE, ops).value.data, CopiesRun(Copies(NEW_STORE.data, []), ops).value.current;
      && d.accounts == e.accounts
      && GetValue(d, a, k).0 == GetValue(e, a, k).0
  {
    StackOfCopies(NEW_STORE, Copies(NEW_STORE.data, []), ops);
    if Run(NEW_STORE, ops).Some? {
      SameReads(Run(NEW_STORE, ops).value.data, CopiesRun(Copies(NEW_STORE.data, []), ops).value.current, a, k);
    }
  }

  // ------------------------------------------------ exactly when revert restores

  // Well bracketed: what the operations open they close, and nothing more.
  predicate Balanced(ops: seq<Op>, depth: nat)
    decreases |ops|
  {
    if ops == [] then depth == 0
    else if Shifted(depth, ops[0]) < 0 then false
    else Balanced(ops[1..], Shifted(depth, ops[0]))
  }

  lemma {:induction false} RunLevel(s: Store, ops: seq<Op>, depth: nat, copy: Data)
    requires WellFormed(s) && Level(s, depth, copy) && NoEmpty(copy) && Balanced(ops, depth)
    ensures Run(s, ops).Some? && WellFormed(Run(s, ops).value) && Level(Run(s, ops).value, 0, copy)
    decreases |ops|
  {
    if ops == [] {
    } else {
      ApplyLevel(s, ops[0], depth, copy);
      ApplyWellFormed(s, ops[0]);
      RunLevel(Apply(s, ops[0]).value, ops[1..], Shifted(depth, ops[0]), copy);
    }
  }

  // Checkpoint, body, revert.
  function Bracketed(s: Store, body: seq<Op>): Option<Store> {
    match Run(Checkpoint(s), body)
    case None => None
    case Some(s1) => Revert(s1)
  }

  ghost predicate Restores(s: Store, body: seq<Op>) {
    Bracketed(s, body).Some? && Same(Bracketed(s, body).value.data, s.data)
  }

  // A revert brings back the data of its checkpoint, whatever well-bracketed
  // operations came between, exactly when no account lacked a nonce there.
  lemma {:induction false} RevertRestoresIff(s: Store)
    requires WellFormed(s)
    ensures (forall body :: Balanced(body, 0) ==> Restores(s, body)) <==> NoEmpty(s.data)
  {
    if NoEmpty(s.data) {
      forall body | Balanced(body, 0) ensures Restores(s, body) {
        CheckpointLevel(s);
        RunLevel(Checkpoint(s), body, 0, s.data);
        RevertLevel(Run(Checkpoint(s), body).value, 0, s.data);
      }
    } else {
      var a :| a in s.data.accounts && s.data.accounts[a].IsEmpty();
      EmptyNonceIsLost(s, a);
    }
  }

  // An account without a nonce is deleted by the revert of any write to it.
  lemma {:induction false} EmptyNonceIsLost(s: Store, a: string)
    requires WellFormed(s) && a in s.data.accounts && s.data.accounts[a].IsEmpty()
    ensures exists body :: Balanced(body, 0) && !Restores(s, body)
  {
    var op := OpPutAccount(DefaultAccount("0x" + a));
    var body := [op];
    assert Balanced(body[1..], 0);
    assert Trimmed(op.account).address == a;
    var s1 := PutAccount(Checkpoint(s), op.account);
    assert Run(Checkpoint(s), body) == Some(s1) by { assert Run(s1, body[1..]) == Some(s1); }
    assert Above(s1, 0) == [AccountRecord(s.data, a)];
    UndoAllData(s1, Above(s1, 0));
    assert UndoList(UndoData(s1.data, Above(s1, 0)[0]), Above(s1, 0)[1..]) == UndoData(s1.data, Above(s1, 0)[0]);
    assert a !in Revert(s1).value.data.accounts;
    assert !Restores(s, body);
  }

  // Every account written carries a nonce, as all callers of the store see to.
  predicate Nonced(ops: seq<Op>) {
    forall i :: 0 <= i < |ops| && ops[i].OpPutAccount? ==> !ops[i].account.IsEmpty()
  }

  lemma {:induction false} NoncedRunsAreClean(c: Copies, ops: seq<Op>)
    requires Nonced(ops) && NoEmpty(c.current) && forall i :: 0 <= i < |c.saved| ==> NoEmpty(c.saved[i])
    ensures CleanRun(c, ops)
    decreases |ops|
  {
    if ops == [] || CopiesApply(c, ops[0]).None? {
    } else {
      NoncedRunsAreClean(CopiesApply(c, ops[0]).value, ops[1..]);
    }
  }

  // ---------------------------------------------- a revert never writes a nil map

  // Every slot record names an account store that exists, so that undoing it
  // assigns into a map that is there.
  ghost predicate SlotsOwned(s: Store) {
    forall i :: 0 <= i < |s.modifications| && s.modifications[i].SlotWas? ==>
      s.modifications[i].address in s.data.mappings
  }

  lemma {:induction false} UndoKeepsStores(s: Store, ms: seq<Modification>)
    ensures s.data.mappings.Keys <= UndoAll(s, ms).data.mappings.Keys
    decreases |ms|
  {
    if ms == [] {
    } else {
      UndoKeepsStores(UndoOne(s, ms[0]), ms[1..]);
    }
  }

  lemma {:induction false} ApplyOwns(s: Store, op: Op)
    requires SlotsOwned(s) && Apply(s, op).Some?
    ensures SlotsOwned(Apply(s, op).value)
  {
    if op.OpRevert? { UndoKeepsStores(s, Above(s, 0)); }
  }

  lemma {:induction false} RevertsAssignIntoStores(s: Store, ops: seq<Op>)
    requires SlotsOwned(s) && Run(s, ops).Some?
    ensures SlotsOwned(Run(s, ops).value)
    decreases |ops|
  {
    if ops == [] {
    } else {
      ApplyOwns(s, ops[0]);
      RevertsAssignIntoStores(Apply(s, ops[0]).value, ops[1..]);
    }
  }
}

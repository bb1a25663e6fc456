/**
 What is written to the state store is what is read from it.
 */
module StateStoreReads {
  import opened Wrappers
  import opened StateStore
  import opened StateStoreProofs

  lemma {:induction false} ZerosAre(n: nat)
    ensures |Zeros(n)| == n && forall i :: 0 <= i < n ==> Zeros(n)[i] == 0
  {
    if n == 0 {
    } else {
      ZerosAre(n - 1);
    }
  }

  // The zero word has 32 bytes.
  lemma {:induction false} ZeroWord()
    ensures |EMPTY_ARRAY| == 32 && forall i :: 0 <= i < 32 ==> EMPTY_ARRAY[i] == 0
  {
    ZerosAre(32);
  }

  // ------------------------------------------------------------------------ slots

  // A slot reads as the last value written to it, and the write is seen nowhere else;
  // only an account it creates brings back the slots that an earlier one left behind.
  lemma {:induction false} ReadBack(s: Store, a: Hex, k: string, v: Bytes)
    requires WellFormed(s)
    ensures GetValue(PutValue(s, a, k, v).data, a, k) == (v, true)
    ensures forall b, j :: (b, j) != (a, k) && (b != a || a in s.data.accounts) ==>
      GetValue(PutValue(s, a, k, v).data, b, j) == GetValue(s.data, b, j)
    ensures forall j :: j != k && a !in s.data.accounts ==>
      GetValue(PutValue(s, a, k, v).data, a, j).0 == Slot(s.data, a, j)
  {
  }

  // What is read of a known account is its slot; an unknown one has none.
  lemma {:induction false} ReadsSlot(d: Data, a: string, k: string)
    requires Keyed(d)
    ensures a in d.accounts ==> GetValue(d, a, k).0 == Slot(d, a, k)
    ensures a !in d.accounts ==> GetValue(d, a, k) == (EMPTY_ARRAY, false)
  {
  }

  // -------------------------------------------------------------------- accounts

  // A written account is found under its address, without the prefix if it has one; all
  // other accounts, and all slots of known accounts, stay as they are.
  lemma {:induction false} AccountReadBack(s: Store, account: StoredAccount, a: string)
    requires WellFormed(s) && (account.address == "0x" + a || (account.address == a && !HasPrefix0x(a)))
    ensures PutAccount(s, account).data.accounts == s.data.accounts[a := account.(address := a)]
    ensures forall b, k :: b != a || a in s.data.accounts ==>
      GetValue(PutAccount(s, account).data, b, k) == GetValue(s.data, b, k)
  {
    assert account.address == "0x" + a ==> account.address[..2] == "0x" && account.address[2..] == a;
    SetAccountSlots(s.data, Trimmed(account));
  }

  // A write to a slot of an unknown account makes one without balance, nonce or code.
  lemma {:induction false} ValueMakesAccount(s: Store, a: Hex, k: string, v: Bytes)
    ensures var was, now := s.data.accounts, PutValue(s, a, k, v).data.accounts;
      && now.Keys == was.Keys + {a} && (forall b :: b in was ==> now[b] == was[b])
      && (a !in was ==> now[a].address == a && now[a].balance == now[a].nonce == "0" && now[a].code == "")
  {
  }

  // ------------------------------------------------------------------ never written

  predicate Writes(op: Op, a: string, k: string) {
    op.OpPutValue? && op.address == a && op.key == k
  }

  // The slot does not exist, and the journal has no record of it.
  ghost predicate Untouched(s: Store, a: string, k: string) {
    && k !in StorageOf(s.data, a)
    && forall i :: 0 <= i < |s.modifications| ==> !Records(s.modifications[i], a, k)
  }

  predicate Records(m: Modification, a: string, k: string) {
    m.SlotWas? && m.address == a && m.key == k
  }

  lemma {:induction false} UndoUntouched(d: Data, ms: seq<Modification>, a: string, k: string)
    requires k !in StorageOf(d, a) && forall i :: 0 <= i < |ms| ==> !Records(ms[i], a, k)
    ensures k !in StorageOf(UndoList(d, ms), a)
    decreases |ms|
  {
    if ms == [] {
    } else {
      UndoUntouched(UndoData(d, ms[0]), ms[1..], a, k);
    }
  }

  lemma {:induction false} ApplyUntouched(s: Store, op: Op, a: string, k: string)
    requires Untouched(s, a, k) && !Writes(op, a, k) && Apply(s, op).Some?
    ensures Untouched(Apply(s, op).value, a, k)
  {
    if op.OpRevert? {
      var n := |s.modifications| - s.checkPoints[0];
      UndoAllData(s, s.modifications[..n]);
      UndoUntouched(s.data, s.modifications[..n], a, k);
    }
  }

  lemma {:induction false} RunUntouched(s: Store, ops: seq<Op>, a: string, k: string)
    requires WellFormed(s) && Untouched(s, a, k) && Run(s, ops).Some?
    requires forall i :: 0 <= i < |ops| ==> !Writes(ops[i], a, k)
    ensures WellFormed(Run(s, ops).value) && Untouched(Run(s, ops).value, a, k)
    decreases |ops|
  {
    if ops == [] {
    } else {
      ApplyWellFormed(s, ops[0]);
      ApplyUntouched(s, ops[0], a, k);
      RunUntouched(Apply(s, ops[0]).value, ops[1..], a, k);
    }
  }

  // In every run from an empty store, a slot never written reads as the zero word and
  // does not exist.
  lemma {:induction false} NeverWrittenReadsZero(ops: seq<Op>, a: string, k: string)
    requires Run(NEW_STORE, ops).Some? && forall i :: 0 <= i < |ops| ==> !Writes(ops[i], a, k)
    ensures GetValue(Run(NEW_STORE, ops).value.data, a, k) == (EMPTY_ARRAY, false)
  {
    RunUntouched(NEW_STORE, ops, a, k);
  }

  // ------------------------------------------------------------------- no capture

  lemma {:induction false} UndoKeepsDiffs(s: Store, ms: seq<Modification>)
    requires !s.collectDiffs
    ensures UndoAll(s, ms).diffs == s.diffs
    decreases |ms|
  {
    if ms == [] {
    } else {
      UndoKeepsDiffs(UndoOne(s, ms[0]), ms[1..]);
    }
  }

  // While nothing is captured no run changes the diffs.
  lemma {:induction false} NoCaptureNoDiffs(s: Store, ops: seq<Op>)
    requires !s.collectDiffs && Run(s, ops).Some?
    ensures Run(s, ops).value.diffs == s.diffs && !Run(s, ops).value.collectDiffs
    decreases |ops|
  {
    if ops == [] {
    } else {
      if ops[0].OpRevert? {
        var undone := s.modifications[..|s.modifications| - s.checkPoints[0]];
        UndoKeepsDiffs(s, undone);
        UndoAllData(s, undone);
      }
      NoCaptureNoDiffs(Apply(s, ops[0]).value, ops[1..]);
    }
  }
}

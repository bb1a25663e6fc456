/**
 The diff collector of the state store follows every run of writes and nested
 reverts.
 */
module StateStoreDiffs {
  import opened Wrappers
  import opened StateStore
  import opened StateStoreProofs

  // Capture is switched on with nothing collected and no checkpoint open.
  ghost predicate CaptureStart(s: Store) {
    WellFormed(s) && s.collectDiffs && s.diffs == NO_DIFFS && s.checkPoints == []
  }

  // ----------------------------------------------- recorded entries are the live ones

  ghost predicate DiffsLive(s: Store) {
    && (forall a :: a in s.diffs.accounts ==> a in s.data.accounts && s.data.accounts[a] == s.diffs.accounts[a])
    && (forall a, k :: (a, k) in s.diffs.mappings ==> Slot(s.data, a, k) == s.diffs.mappings[(a, k)])
  }

  // A slot without an entry is as it was at the start, or reads as zero.
  ghost predicate SlotsLeft(s: Store, start: Data) {
    forall a, k :: (a, k) !in s.diffs.mappings ==>
      Slot(s.data, a, k) == Slot(start, a, k) || Slot(s.data, a, k) == EMPTY_ARRAY
  }

  ghost predicate Following(s: Store, start: Data) {
    s.collectDiffs && DiffsLive(s) && SlotsLeft(s, start)
  }

  lemma {:induction false} PutAccountFollows(s: Store, acc: StoredAccount, start: Data)
    requires Following(s, start)
    ensures Following(PutAccount(s, acc), start)
  {
    SetAccountSlots(s.data, Trimmed(acc));
  }

  lemma {:induction false} PutValueFollows(s: Store, a: Hex, k: string, v: Bytes, start: Data)
    requires Following(s, start)
    ensures Following(PutValue(s, a, k, v), start)
  {
    if a !in s.data.accounts { PutAccountFollows(s, DefaultAccount(a), start); }
    SetSlotAt(WithAccount(s, a).data, a, k, v);
  }

  lemma {:induction false} UndoFollows(s: Store, m: Modification, start: Data)
    requires Following(s, start)
    ensures Following(UndoOne(s, m), start)
  {
    if m.SlotWas? {
      SetSlotAt(s.data, m.address, m.key, m.value);
    } else {
      assert forall a, k :: Slot(UndoOne(s, m).data, a, k) == Slot(s.data, a, k);
    }
  }

  lemma {:induction false} UndoAllFollows(s: Store, ms: seq<Modification>, start: Data)
    requires Following(s, start)
    ensures Following(UndoAll(s, ms), start)
    decreases |ms|
  {
    if ms == [] {
    } else {
      UndoFollows(s, ms[0], start);
      UndoAllFollows(UndoOne(s, ms[0]), ms[1..], start);
    }
  }

  lemma {:induction false} RunFollows(s: Store, ops: seq<Op>, start: Data)
    requires Following(s, start)
    ensures Run(s, ops).Some? ==> Following(Run(s, ops).value, start)
    decreases |ops|
  {
    if ops == [] || Apply(s, ops[0]).None? {
    } else {
      var s1 := Apply(s, ops[0]).value;
      match ops[0] {
        case OpPutAccount(acc) => PutAccountFollows(s, acc, start);
        case OpPutValue(a, k, v) => PutValueFollows(s, a, k, v, start);
        case OpRevert => UndoAllFollows(s, s.modifications[..|s.modifications| - s.checkPoints[0]], start);
        case _ =>
      }
      assert Following(s1, start);
      RunFollows(s1, ops[1..], start);
    }
  }

  // Through every run, every recorded entry equals the live value.
  lemma {:induction false} DiffEntriesAreLive(s: Store, ops: seq<Op>)
    requires CaptureStart(s) && Run(s, ops).Some?
    ensures DiffsLive(Run(s, ops).value)
  {
    RunFollows(s, ops, s.data);
  }

  // ------------------------------------------------------------------- overlays

  function OverlaySlot(start: Data, x: Diffs, a: string, k: string): Bytes {
    if (a, k) in x.mappings then x.mappings[(a, k)] else Slot(start, a, k)
  }

  ghost predicate SlotFollowed(s: Store, ops: seq<Op>, a: string, k: string) {
    Run(s, ops).Some? ==>
      var s' := Run(s, ops).value;
      OverlaySlot(s.data, s'.diffs, a, k) == Slot(s'.data, a, k)
  }

  // Laying the slot diffs over the start gives the live slot in every run exactly
  // when the slot read as zero at the start.
  lemma {:induction false} SlotOverlayIff(s: Store, a: Hex, k: string)
    requires CaptureStart(s)
    ensures (forall ops :: SlotFollowed(s, ops, a, k)) <==> Slot(s.data, a, k) == EMPTY_ARRAY
  {
    if Slot(s.data, a, k) == EMPTY_ARRAY {
      forall ops ensures SlotFollowed(s, ops, a, k) {
        RunFollows(s, ops, s.data);
      }
    } else {
      SlotDiffIsDropped(s, a, k);
    }
  }

  // A write over a zero slot, reverted, leaves the slot zero and no entry for it.
  lemma {:induction false} ZeroLeavesNoEntry(s: Store, a: Hex, k: string, v: Bytes)
    requires s.collectDiffs && a in s.data.accounts && Slot(s.data, a, k) == EMPTY_ARRAY
    ensures var r := Revert(PutValue(Checkpoint(s), a, k, v));
      r.Some? && Slot(r.value.data, a, k) == EMPTY_ARRAY && (a, k) !in r.value.diffs.mappings
  {
    var s3 := PutValue(Checkpoint(s), a, k, v);
    var m := SlotWas(a, k, EMPTY_ARRAY);
    assert s3.modifications[..|s3.modifications| - s3.checkPoints[0]] == [m];
    assert UndoAll(s3, [m]) == UndoOne(s3, m) by { assert [m][1..] == []; }
    SetSlotAt(s3.data, a, k, EMPTY_ARRAY);
  }

  // Writing zero, then writing and reverting, drops the entry that says zero.
  lemma {:induction false} SlotDiffIsDropped(s: Store, a: Hex, k: string)
    requires CaptureStart(s) && Slot(s.data, a, k) != EMPTY_ARRAY
    ensures exists ops :: !SlotFollowed(s, ops, a, k)
  {
    var v := Slot(s.data, a, k);
    var ops := [OpPutValue(a, k, EMPTY_ARRAY), OpCheckpoint, OpPutValue(a, k, v), OpRevert];
    var s1 := PutValue(s, a, k, EMPTY_ARRAY);
    assert s1.collectDiffs && a in s1.data.accounts && Slot(s1.data, a, k) == EMPTY_ARRAY by {
      SetSlotAt(WithAccount(s, a).data, a, k, EMPTY_ARRAY);
    }
    ZeroLeavesNoEntry(s1, a, k, v);
    var s3 := PutValue(Checkpoint(s1), a, k, v);
    RunFour(s, ops, s1, Checkpoint(s1), s3, Revert(s3).value);
    assert !SlotFollowed(s, ops, a, k);
  }

  lemma {:induction false} RunFour(s: Store, ops: seq<Op>, s1: Store, s2: Store, s3: Store, s4: Store)
    requires |ops| == 4 && Apply(s, ops[0]) == Some(s1) && Apply(s1, ops[1]) == Some(s2)
    requires Apply(s2, ops[2]) == Some(s3) && Apply(s3, ops[3]) == Some(s4)
    ensures Run(s, ops) == Some(s4)
  {
    assert ops[1..][1..] == ops[2..] && ops[2..][1..] == ops[3..] && ops[3..][1..] == [];
    assert Run(s3, ops[3..]) == Run(s4, []);
    assert Run(s2, ops[2..]) == Run(s3, ops[3..]);
    assert Run(s1, ops[1..]) == Run(s2, ops[2..]);
  }

  predicate SaysAbsent(m: Modification) {
    m.AccountWas? && m.account.IsEmpty()
  }

  ghost predicate AbsentAtStart(ms: seq<Modification>, start: Data) {
    forall i :: 0 <= i < |ms| && SaysAbsent(ms[i]) ==> ms[i].account.address !in start.accounts
  }

  lemma {:induction false} AbsentSplit(ms: seq<Modification>, n: nat, start: Data)
    requires AbsentAtStart(ms, start) && n <= |ms|
    ensures AbsentAtStart(ms[..n], start) && AbsentAtStart(ms[n..], start)
  {
    forall i | 0 <= i < |ms[n..]| && SaysAbsent(ms[n..][i]) ensures ms[n..][i].account.address !in start.accounts {
      assert ms[n..][i] == ms[n + i];
    }
  }

  // Every record above the start's journal that says "absent" is about an account
  // that was absent at the start.
  ghost predicate AbsentRecords(s: Store, base: nat, start: Data) {
    && base <= |s.modifications|
    && (forall i :: 0 <= i < |s.checkPoints| ==> base <= s.checkPoints[i])
    && AbsentAtStart(s.modifications[..|s.modifications| - base], start)
  }

  ghost predicate AccountsFollowed(s: Store, start: Data) {
    s.data.accounts == start.accounts + s.diffs.accounts
  }

  ghost predicate Tracking(s: Store, base: nat, start: Data) {
    && s.collectDiffs && NoEmpty(s.data)
    && AbsentRecords(s, base, start) && AccountsFollowed(s, start)
  }

  lemma {:induction false} PutAccountTracks(s: Store, acc: StoredAccount, base: nat, start: Data)
    requires Tracking(s, base, start) && !acc.IsEmpty()
    ensures Tracking(PutAccount(s, acc), base, start)
  {
    var s' := PutAccount(s, acc);
    var m := AccountRecord(s.data, Trimmed(acc).address);
    assert s'.modifications[..|s'.modifications| - base] == [m] + s.modifications[..|s.modifications| - base];
  }

  // A slot record on top of the journal says nothing about accounts.
  lemma {:induction false} SlotRecordTracks(s: Store, s': Store, m: Modification, base: nat, start: Data)
    requires Tracking(s, base, start) && m.SlotWas?
    requires s'.collectDiffs && s'.modifications == [m] + s.modifications && s'.checkPoints == s.checkPoints
    requires s'.data.accounts == s.data.accounts && s'.diffs.accounts == s.diffs.accounts
    ensures Tracking(s', base, start)
  {
    assert s'.modifications[..|s'.modifications| - base] == [m] + s.modifications[..|s.modifications| - base];
  }

  lemma {:induction false} PutValueTracks(s: Store, a: Hex, k: string, v: Bytes, base: nat, start: Data)
    requires Tracking(s, base, start)
    ensures Tracking(PutValue(s, a, k, v), base, start)
  {
    if a !in s.data.accounts { PutAccountTracks(s, DefaultAccount(a), base, start); }
    var s1 := WithAccount(s, a);
    SlotRecordTracks(s1, PutValue(s, a, k, v), SlotRecord(s1.data, a, k), base, start);
  }

  lemma {:induction false} UndoTracks(s: Store, m: Modification, start: Data)
    requires s.collectDiffs && NoEmpty(s.data) && AccountsFollowed(s, start)
    requires SaysAbsent(m) ==> m.account.address !in start.accounts
    ensures NoEmpty(UndoOne(s, m).data) && AccountsFollowed(UndoOne(s, m), start)
  {
    if m.AccountWas? {
      var a, x := m.account.address, s.diffs.accounts;
      if SaysAbsent(m) {
        assert (start.accounts + x) - {a} == start.accounts + (x - {a});
      } else {
        assert (start.accounts + x)[a := m.account] == start.accounts + x[a := m.account];
      }
    }
  }

  lemma {:induction false} UndoAllTracks(s: Store, ms: seq<Modification>, start: Data)
    requires s.collectDiffs && NoEmpty(s.data) && AccountsFollowed(s, start) && AbsentAtStart(ms, start)
    ensures NoEmpty(UndoAll(s, ms).data) && AccountsFollowed(UndoAll(s, ms), start)
    decreases |ms|
  {
    if ms == [] {
    } else {
      UndoTracks(s, ms[0], start);
      UndoAllTracks(UndoOne(s, ms[0]), ms[1..], start);
    }
  }

  lemma {:induction false} RevertTracks(s: Store, base: nat, start: Data)
    requires Tracking(s, base, start) && Revert(s).Some?
    ensures Tracking(Revert(s).value, base, start)
  {
    var n := |s.modifications| - s.checkPoints[0];
    var newer := s.modifications[..|s.modifications| - base];
    AbsentSplit(newer, n, start);
    assert s.modifications[..n] == newer[..n];
    UndoAllTracks(s, s.modifications[..n], start);
    UndoAllData(s, s.modifications[..n]);
    var s' := Revert(s).value;
    assert s'.modifications[..|s'.modifications| - base] == newer[n..];
  }

  lemma {:induction false} RunTracks(s: Store, ops: seq<Op>, base: nat, start: Data)
    requires Tracking(s, base, start) && Nonced(ops)
    ensures Run(s, ops).Some? ==> Tracking(Run(s, ops).value, base, start)
    decreases |ops|
  {
    if ops == [] || Apply(s, ops[0]).None? {
    } else {
      match ops[0] {
        case OpPutAccount(acc) => PutAccountTracks(s, acc, base, start);
        case OpPutValue(a, k, v) => PutValueTracks(s, a, k, v, base, start);
        case OpRevert => RevertTracks(s, base, start);
        case _ =>
      }
      RunTracks(Apply(s, ops[0]).value, ops[1..], base, start);
    }
  }

  ghost predicate OverlayExact(s: Store, ops: seq<Op>) {
    Run(s, ops).Some? ==> AccountsFollowed(Run(s, ops).value, s.data)
  }

  // Laying the account diffs over the starting accounts gives exactly the live
  // accounts, absences included, in every run of writes that carry nonces,
  // exactly when no starting account lacked one.
  lemma {:induction false} AccountOverlayIff(s: Store)
    requires CaptureStart(s)
    ensures (forall ops :: Nonced(ops) ==> OverlayExact(s, ops)) <==> NoEmpty(s.data)
  {
    if NoEmpty(s.data) {
      forall ops | Nonced(ops) ensures OverlayExact(s, ops) {
        RunTracks(s, ops, |s.modifications|, s.data);
      }
    } else {
      var a :| a in s.data.accounts && s.data.accounts[a].IsEmpty();
      EmptyNonceBreaksOverlay(s, a);
    }
  }

  lemma {:induction false} EmptyNonceBreaksOverlay(s: Store, a: string)
    requires CaptureStart(s) && a in s.data.accounts && s.data.accounts[a].IsEmpty()
    ensures exists ops :: Nonced(ops) && !OverlayExact(s, ops)
  {
    var put := OpPutAccount(DefaultAccount("0x" + a));
    assert Trimmed(put.account).address == a;
    var ops := [OpCheckpoint, put, OpRevert, OpCheckpoint];
    var s1 := Checkpoint(s);
    var s2 := PutAccount(s1, put.account);
    var m := AccountRecord(s.data, a);
    assert s2.modifications[..|s2.modifications| - s2.checkPoints[0]] == [m];
    assert UndoAll(s2, [m]) == UndoOne(s2, m) by { assert [m][1..] == []; }
    var s3 := Revert(s2).value;
    RunFour(s, ops, s1, s2, s3, Checkpoint(s3));
    assert a !in s3.data.accounts;
    assert !OverlayExact(s, ops);
  }
}

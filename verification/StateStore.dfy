/**
 The transactional contract state store of `vm/server.go`: accounts and storage
 slots, a newest-first undo journal, a newest-first stack of checkpoint lengths
 and a diff collector that follows reverts.
 */
module StateStore {
  import opened Wrappers

  newtype byte = x: int | 0 <= x < 256
  type Bytes = seq<byte>

  // What a slot that was never written reads as.
  const EMPTY_ARRAY: Bytes := Zeros(32)

  function Zeros(n: nat): Bytes {
    if n == 0 then [] else [0] + Zeros(n - 1)
  }

  predicate HasPrefix0x(s: string) {
    |s| >= 2 && s[..2] == "0x"
  }

  function TrimPrefix0x(s: string): string {
    if HasPrefix0x(s) then s[2..] else s
  }

  // The hex text of a byte string never begins with 0x.
  type Hex = s: string | !HasPrefix0x(s)

  datatype StoredAccount = StoredAccount(
    address: string,
    publicKey: string,
    balance: string,
    nonce: string,
    codeHash: string,
    code: string,
    created: int
  ) {
    predicate IsEmpty() {
      nonce == ""
    }
  }

  datatype Modification =
    | SlotWas(address: string, key: string, value: Bytes)
    | AccountWas(account: StoredAccount)

  // The contents proper.
  datatype Data = Data(accounts: map<string, StoredAccount>, mappings: map<string, map<string, Bytes>>)

  datatype Diffs = Diffs(accounts: map<string, StoredAccount>, mappings: map<(string, string), Bytes>)

  datatype Store = Store(
    data: Data,
    modifications: seq<Modification>,
    checkPoints: seq<nat>,
    collectDiffs: bool,
    diffs: Diffs
  )

  const NO_DIFFS := Diffs(map[], map[])
  const NEW_STORE := Store(Data(map[], map[]), [], [], false, NO_DIFFS)

  // ----------------------------------------------------------------- operations

  function StorageOf(d: Data, a: string): map<string, Bytes> {
    if a in d.mappings then d.mappings[a] else map[]
  }

  function SetSlot(d: Data, a: string, k: string, v: Bytes): Data {
    d.(mappings := d.mappings[a := StorageOf(d, a)[k := v]])
  }

  function SetAccount(d: Data, acc: StoredAccount): Data {
    Data(d.accounts[acc.address := acc], d.mappings[acc.address := StorageOf(d, acc.address)])
  }

  function Trimmed(acc: StoredAccount): StoredAccount {
    acc.(address := TrimPrefix0x(acc.address))
  }

  // The account written for a slot whose account does not exist.
  function DefaultAccount(a: string): StoredAccount {
    StoredAccount(a, "", "0", "0", "", "", 0)
  }

  function AccountRecord(d: Data, a: string): Modification {
    AccountWas(if a in d.accounts then d.accounts[a] else StoredAccount(a, "", "", "", "", "", 0))
  }

  function SlotRecord(d: Data, a: string, k: string): Modification {
    SlotWas(a, k, if k in StorageOf(d, a) then StorageOf(d, a)[k] else EMPTY_ARRAY)
  }

  function PutAccount(s: Store, account: StoredAccount): Store {
    var acc := Trimmed(account);
    s.(data := SetAccount(s.data, acc),
       modifications := [AccountRecord(s.data, acc.address)] + s.modifications,
       diffs := if s.collectDiffs then s.diffs.(accounts := s.diffs.accounts[acc.address := acc]) else s.diffs)
  }

  function WithAccount(s: Store, a: Hex): Store {
    if a in s.data.accounts then s else PutAccount(s, DefaultAccount(a))
  }

  function PutValue(s: Store, a: Hex, k: string, v: Bytes): Store {
    var s1 := WithAccount(s, a);
    s1.(data := SetSlot(s1.data, a, k, v),
        modifications := [SlotRecord(s1.data, a, k)] + s1.modifications,
        diffs := if s1.collectDiffs then s1.diffs.(mappings := s1.diffs.mappings[(a, k) := v]) else s1.diffs)
  }

  // The value read and whether the slot exists.
  function GetValue(d: Data, a: string, k: string): (Bytes, bool) {
    if a in d.accounts && k in StorageOf(d, d.accounts[a].address)
    then (StorageOf(d, d.accounts[a].address)[k], true)
    else (EMPTY_ARRAY, false)
  }

  function Checkpoint(s: Store): Store {
    s.(checkPoints := [|s.modifications|] + s.checkPoints)
  }

  function UndoData(d: Data, m: Modification): Data {
    match m
    case SlotWas(a, k, v) => SetSlot(d, a, k, v)
    case AccountWas(acc) =>
      if acc.IsEmpty() then d.(accounts := d.accounts - {acc.address})
      else d.(accounts := d.accounts[acc.address := acc])
  }

  function UndoDiffs(x: Diffs, m: Modification): Diffs {
    match m
    case SlotWas(a, k, v) =>
      if v == EMPTY_ARRAY then x.(mappings := x.mappings - {(a, k)}) else x.(mappings := x.mappings[(a, k) := v])
    case AccountWas(acc) =>
      if acc.IsEmpty() then x.(accounts := x.accounts - {acc.address})
      else x.(accounts := x.accounts[acc.address := acc])
  }

  function UndoOne(s: Store, m: Modification): Store {
    s.(data := UndoData(s.data, m), diffs := if s.collectDiffs then UndoDiffs(s.diffs, m) else s.diffs)
  }

  // Records applied newest first.
  function UndoAll(s: Store, ms: seq<Modification>): Store
    decreases |ms|
  {
    if ms == [] then s else UndoAll(UndoOne(s, ms[0]), ms[1..])
  }

  // None: the panic of a revert without a checkpoint, or of one whose checkpoint
  // lies above the journal.
  function Revert(s: Store): Option<Store> {
    if s.checkPoints == [] || |s.modifications| < s.checkPoints[0] then None
    else
      var n := |s.modifications| - s.checkPoints[0];
      Some(UndoAll(s, s.modifications[..n]).(modifications := s.modifications[n..], checkPoints := s.checkPoints[1..]))
  }

  function Commit(s: Store): Option<Store> {
    if s.checkPoints == [] then None else Some(s.(checkPoints := s.checkPoints[1..]))
  }

  datatype Op =
    | OpPutAccount(account: StoredAccount)
    | OpPutValue(address: Hex, key: string, value: Bytes)
    | OpCheckpoint
    | OpCommit
    | OpRevert

  function Apply(s: Store, op: Op): Option<Store> {
    match op
    case OpPutAccount(acc) => Some(PutAccount(s, acc))
    case OpPutValue(a, k, v) => Some(PutValue(s, a, k, v))
    case OpCheckpoint => Some(Checkpoint(s))
    case OpCommit => Commit(s)
    case OpRevert => Revert(s)
  }

  function Run(s: Store, ops: seq<Op>): Option<Store>
    decreases |ops|
  {
    if ops == [] then Some(s)
    else match Apply(s, ops[0])
      case None => None
      case Some(s1) => Run(s1, ops[1..])
  }

  // ------------------------------------------------------------- the live object

  class Storage {
    var accounts: map<string, StoredAccount>
    var mappings: map<string, map<string, Bytes>>
    var checkPoints: seq<nat>
    var modifications: seq<Modification>
    var collectDiffs: bool
    var accountDiffs: map<string, StoredAccount>
    var mappingDiffs: map<(string, string), Bytes>

    ghost function State(): Store
      reads this
    {
      Store(Data(accounts, mappings), modifications, checkPoints, collectDiffs, Diffs(accountDiffs, mappingDiffs))
    }

    constructor ()
      ensures State() == NEW_STORE
    {
      accounts, mappings, checkPoints, modifications := map[], map[], [], [];
      collectDiffs, accountDiffs, mappingDiffs := false, map[], map[];
    }

    method LookupAccount(a: string) returns (account: Option<StoredAccount>)
      ensures account == if a in State().data.accounts then Some(State().data.accounts[a]) else None
    {
      if a in accounts { account := Some(accounts[a]); } else { account := None; }
    }

    method LookupValue(a: string, k: string) returns (value: Bytes, found: bool)
      ensures (value, found) == GetValue(State().data, a, k)
    {
      value, found := EMPTY_ARRAY, false;
      if a in accounts {
        var owner := accounts[a].address;
        if owner in mappings && k in mappings[owner] {
          value, found := mappings[owner][k], true;
        }
      }
    }

    method StoreAccount(account: StoredAccount)
      modifies this
      ensures State() == PutAccount(old(State()), account)
    {
      var acc := account.(address := TrimPrefix0x(account.address));
      var modification := AccountWas(StoredAccount(acc.address, "", "", "", "", "", 0));
      if acc.address in accounts { modification := AccountWas(accounts[acc.address]); }
      accounts := accounts[acc.address := acc];
      if collectDiffs { accountDiffs := accountDiffs[acc.address := acc]; }
      modifications := [modification] + modifications;
      mappings := mappings[acc.address := if acc.address in mappings then mappings[acc.address] else map[]];
    }

    method StoreValue(a: Hex, k: string, v: Bytes)
      modifies this
      ensures State() == PutValue(old(State()), a, k, v)
    {
      if a !in accounts { StoreAccount(DefaultAccount(a)); }
      var accountStore := if a in mappings then mappings[a] else map[];
      var preValue := if k in accountStore then accountStore[k] else EMPTY_ARRAY;
      modifications := [SlotWas(a, k, preValue)] + modifications;
      mappings := mappings[a := accountStore[k := v]];
      if collectDiffs { mappingDiffs := mappingDiffs[(a, k) := v]; }
    }

    method PushCheckpoint()
      modifies this
      ensures State() == Checkpoint(old(State()))
    {
      checkPoints := [|modifications|] + checkPoints;
    }

    method UndoRecord(m: Modification)
      modifies this
      ensures State() == UndoOne(old(State()), m)
    {
      match m {
        case SlotWas(a, k, v) =>
          var accountStore := if a in mappings then mappings[a] else map[];
          mappings := mappings[a := accountStore[k := v]];
          if collectDiffs {
            if v == EMPTY_ARRAY { mappingDiffs := mappingDiffs - {(a, k)}; }
            else { mappingDiffs := mappingDiffs[(a, k) := v]; }
          }
        case AccountWas(acc) =>
          if acc.IsEmpty() {
            accounts := accounts - {acc.address};
            if collectDiffs { accountDiffs := accountDiffs - {acc.address}; }
          } else {
            accounts := accounts[acc.address := acc];
            if collectDiffs { accountDiffs := accountDiffs[acc.address := acc]; }
          }
      }
    }

    // Undoes the journal records above the newest checkpoint, newest first.
    method RevertCheckpoint() returns (panicked: bool)
      modifies this
      ensures match Revert(old(State()))
              case None => panicked && State() == old(State())
              case Some(s) => !panicked && State() == s
    {
      if checkPoints == [] || |modifications| < checkPoints[0] { return true; }
      panicked := false;
      var toRevert := modifications[..|modifications| - checkPoints[0]];
      var i := 0;
      while i < |toRevert|
        invariant 0 <= i <= |toRevert|
        invariant modifications == old(modifications) && checkPoints == old(checkPoints)
        invariant collectDiffs == old(collectDiffs)
        invariant UndoAll(State(), toRevert[i..]) == UndoAll(old(State()), toRevert)
      {
        assert toRevert[i..][0] == toRevert[i] && toRevert[i..][1..] == toRevert[i + 1..];
        UndoRecord(toRevert[i]);
        i := i + 1;
      }
      modifications := modifications[|toRevert|..];
      checkPoints := checkPoints[1..];
    }

    method CommitCheckpoint() returns (panicked: bool)
      modifies this
      ensures match Commit(old(State()))
              case None => panicked && State() == old(State())
              case Some(s) => !panicked && State() == s
    {
      if checkPoints == [] { return true; }
      panicked := false;
      checkPoints := checkPoints[1..];
    }

    method CaptureDiffs() returns (panicked: bool)
      modifies this
      ensures panicked == old(collectDiffs)
      ensures State() == old(State()).(collectDiffs := true)
    {
      panicked := collectDiffs;
      collectDiffs := true;
    }

    method ResetDiffs()
      modifies this
      ensures State() == old(State()).(collectDiffs := false, diffs := NO_DIFFS)
    {
      collectDiffs, accountDiffs, mappingDiffs := false, map[], map[];
    }
  }
}

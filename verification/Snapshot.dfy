/**
 Handing the pinned balances to a new peer: `GetPinnedBalances` in `dag/pin.go`, the
 list built by `respondLatestBalances` and read by `handleLatestBalances` in
 `dag/sync.go`.
 */
module Snapshot {
  import opened Wrappers

  type Wallet = nat
  type Balances = map<Wallet, nat>

  datatype Pin = Pin(number: int, balance: Balances)

  // -------------------------------------------------------- two ways to look it up

  // Newest pin first.
  function Lookup(pins: seq<Pin>, w: Wallet): Option<nat> {
    if pins == [] then None
    else if w in pins[|pins| - 1].balance then Some(pins[|pins| - 1].balance[w])
    else Lookup(pins[..|pins| - 1], w)
  }

  function Get(b: Balances, w: Wallet): Option<nat> {
    if w in b then Some(b[w]) else None
  }

  // How many pins come before the first whose number is above the limit.
  function Cut(pins: seq<Pin>, limit: int): (n: nat)
    ensures n <= |pins|
    ensures forall i :: 0 <= i < n ==> pins[i].number <= limit
    ensures n < |pins| ==> pins[n].number > limit
  {
    if pins == [] || pins[0].number > limit then 0 else 1 + Cut(pins[1..], limit)
  }

  // Later pins overwrite earlier ones.
  function Merge(pins: seq<Pin>): Balances {
    if pins == [] then map[] else Merge(pins[..|pins| - 1]) + pins[|pins| - 1].balance
  }

  lemma {:induction false} MergeIsLookup(pins: seq<Pin>, w: Wallet)
    ensures Get(Merge(pins), w) == Lookup(pins, w)
  {
    if pins == [] {
    } else {
      MergeIsLookup(pins[..|pins| - 1], w);
    }
  }

  // The fold over the pins agrees, for every wallet, with the newest-first lookup over
  // the pins before the cut.
  method GetPinnedBalances(pins: seq<Pin>, limit: int) returns (resp: Balances)
    ensures forall w :: Get(resp, w) == Lookup(pins[..Cut(pins, limit)], w)
    ensures resp == Merge(pins[..Cut(pins, limit)])
  {
    resp := map[];
    var i := 0;
    ghost var n := Cut(pins, limit);
    while i < |pins|
      invariant 0 <= i <= n
      invariant resp == Merge(pins[..i])
    {
      if pins[i].number > limit { break; }
      assert pins[..i + 1][..i] == pins[..i];
      ghost var before := resp;
      var rest := pins[i].balance.Keys;
      while rest != {}
        invariant rest <= pins[i].balance.Keys
        invariant forall w :: Get(resp, w)
                           == if w in pins[i].balance && w !in rest then Some(pins[i].balance[w]) else Get(before, w)
        decreases rest
      {
        var w :| w in rest;
        resp := resp[w := pins[i].balance[w]];
        rest := rest - {w};
      }
      SameGets(resp, before + pins[i].balance);
      i := i + 1;
    }
    forall w ensures Get(resp, w) == Lookup(pins[..n], w) {
      MergeIsLookup(pins[..n], w);
    }
  }

  lemma {:induction false} SameGets(a: Balances, b: Balances)
    requires forall w :: Get(a, w) == Get(b, w)
    ensures a == b
  {
    assert forall w :: w in a <==> Get(a, w).Some?;
    assert forall w :: w in b <==> Get(b, w).Some?;
    forall w | w in a ensures a[w] == b[w] {
      assert Get(a, w) == Get(b, w);
    }
  }

  predicate NonDecreasing(pins: seq<Pin>) {
    forall i, j :: 0 <= i < j < |pins| ==> pins[i].number <= pins[j].number
  }

  predicate NoneAbove(pins: seq<Pin>) {
    forall i :: 0 <= i < |pins| ==> pins[i].number <= pins[|pins| - 1].number
  }

  // With the number of the newest pin as the limit, nothing is cut off exactly when no
  // number is above it; numbers that never fall are enough.
  lemma {:induction false} NothingCutIff(pins: seq<Pin>)
    requires pins != []
    ensures pins[..Cut(pins, pins[|pins| - 1].number)] == pins <==> NoneAbove(pins)
    ensures NonDecreasing(pins) ==> NoneAbove(pins)
  {
    var n := Cut(pins, pins[|pins| - 1].number);
    assert |pins[..n]| == n;
  }

  // ------------------------------------------------------------------ the message

  datatype Detail = Height(height: int) | Length(length: int) | Address(wallet: Wallet) | Amount(amount: nat)

  // A number squeezed into 32 bits.
  function Int32(n: int): (r: int)
    ensures -0x8000_0000 <= r < 0x8000_0000
    ensures -0x8000_0000 <= n < 0x8000_0000 ==> r == n
  {
    (n + 0x8000_0000) % 0x1_0000_0000 - 0x8000_0000
  }

  function Flat(list: seq<(Wallet, nat)>): seq<Detail> {
    if list == [] then [] else Flat(list[..|list| - 1]) + [Address(list[|list| - 1].0), Amount(list[|list| - 1].1)]
  }

  function AsMap(list: seq<(Wallet, nat)>): Balances {
    if list == [] then map[] else AsMap(list[..|list| - 1])[list[|list| - 1].0 := list[|list| - 1].1]
  }

  // The entries of the map, each once, in some order.
  ghost predicate Lists(list: seq<(Wallet, nat)>, b: Balances) {
    |list| == |b| && AsMap(list) == b
  }

  function Message(height: int, list: seq<(Wallet, nat)>): seq<Detail> {
    [Height(height), Length(Int32(|list|))] + Flat(list)
  }

  method Flatten(b: Balances) returns (details: seq<Detail>)
    ensures exists list :: Lists(list, b) && details == Flat(list)
  {
    details := [];
    ghost var list := [];
    var rest := b.Keys;
    while rest != {}
      invariant rest <= b.Keys && |list| + |rest| == |b|
      invariant details == Flat(list) && AsMap(list) == b - rest
      decreases rest
    {
      var w :| w in rest;
      details := details + [Address(w)];
      details := details + [Amount(b[w])];
      ghost var longer := list + [(w, b[w])];
      assert longer[..|list|] == list;
      assert AsMap(longer) == b - (rest - {w});
      list, rest := longer, rest - {w};
    }
    assert Lists(list, b);
  }

  // The leader lists the balances of the pins up to the number of the newest one.
  ghost predicate Sent(pins: seq<Pin>, list: seq<(Wallet, nat)>)
    requires pins != []
  {
    Lists(list, Merge(pins[..Cut(pins, pins[|pins| - 1].number)]))
  }

  lemma {:induction false} SentIsAll(pins: seq<Pin>, list: seq<(Wallet, nat)>)
    requires pins != [] && NoneAbove(pins) && Sent(pins, list)
    ensures Lists(list, Merge(pins))
  {
    NothingCutIff(pins);
  }

  // The leader's answer; none without a pin.
  method RespondLatestBalances(pins: seq<Pin>) returns (r: Option<(Pin, seq<Detail>)>)
    ensures r.None? <==> pins == []
    ensures r.Some? ==>
      var latest := pins[|pins| - 1];
      && r.value.0 == latest
      && exists list :: Sent(pins, list) && r.value.1 == Message(latest.number, list)
  {
    if pins == [] { return None; }
    var latest := pins[|pins| - 1];
    var balances := GetPinnedBalances(pins, latest.number);
    var entries := Flatten(balances);
    ghost var list :| Lists(list, balances) && entries == Flat(list);
    r := Some((latest, [Height(latest.number), Length(Int32(|balances|))] + entries));
    assert r.value.1 == Message(latest.number, list);
  }

  // ------------------------------------------------------------------- the reader

  predicate PairAt(details: seq<Detail>, i: nat) {
    2 * i + 3 < |details| && details[2 * i + 2].Address? && details[2 * i + 3].Amount?
  }

  // Wallet and amount alternate, n times.
  predicate Readable(details: seq<Detail>, n: int) {
    forall i: nat {:trigger PairAt(details, i)} :: i < n ==> PairAt(details, i)
  }

  function Overlay(b: Balances, details: seq<Detail>, n: nat): Balances
    requires Readable(details, n)
  {
    if n == 0 then b
    else
      assert PairAt(details, n - 1);
      Overlay(b, details, n - 1)[details[2 * (n - 1) + 2].wallet := details[2 * (n - 1) + 3].amount]
  }

  class Peer {
    var pins: seq<Pin>
    var ready: bool

    constructor ()
      ensures pins == [] && !ready
    {
      pins, ready := [], false;
    }

    method HandleLatestBalances(latest: Pin, details: seq<Detail>) returns (ok: bool)
      requires |details| >= 2 && details[0].Height? && details[1].Length? && Readable(details, details[1].length)
      modifies this
      ensures old(ready) ==> ok && ready && pins == old(pins)
      ensures !old(ready) ==> ok == ready == (latest.number == details[0].height)
      ensures !old(ready) ==> pins == old(pins) + [if ok then Updated(latest, details) else latest]
    {
      if ready { return true; }
      pins := pins + [latest];
      var current := pins[|pins| - 1].number;
      if current != details[0].height { return false; }
      var length, offset, i := details[1].length, 2, 0;
      while i < length
        invariant 0 <= i && (i <= length || i == 0) && offset == 2 * i + 2
        invariant pins == old(pins) + [latest.(balance := Overlay(latest.balance, details, i))]
        invariant !ready
      {
        assert PairAt(details, i);
        var w := details[offset].wallet;
        offset := offset + 1;
        var b := details[offset].amount;
        offset := offset + 1;
        var last := |pins| - 1;
        pins := pins[last := pins[last].(balance := pins[last].balance[w := b])];
        i := i + 1;
      }
      ready := true;
      return true;
    }
  }

  // How many pairs the reader applies for an announced length.
  function Applied(length: int): nat {
    if length < 0 then 0 else length
  }

  function Updated(latest: Pin, details: seq<Detail>): Pin
    requires |details| >= 2 && details[1].Length? && Readable(details, details[1].length)
  {
    latest.(balance := Overlay(latest.balance, details, Applied(details[1].length)))
  }

  // ------------------------------------------------------------------- round trip

  lemma {:induction false} FlatAt(list: seq<(Wallet, nat)>, i: nat)
    requires i < |list|
    ensures |Flat(list)| == 2 * |list|
    ensures Flat(list)[2 * i] == Address(list[i].0) && Flat(list)[2 * i + 1] == Amount(list[i].1)
  {
    var front := list[..|list| - 1];
    if i < |front| {
      FlatAt(front, i);
    } else if front != [] {
      FlatAt(front, 0);
    }
  }

  lemma {:induction false} MessageReadable(height: int, list: seq<(Wallet, nat)>)
    ensures Readable(Message(height, list), |list|)
    ensures Readable(Message(height, list), Int32(|list|))
  {
    var details := Message(height, list);
    forall i: nat | i < |list| ensures PairAt(details, i) {
      PairOf(height, list, i);
    }
  }

  lemma {:induction false} PairOf(height: int, list: seq<(Wallet, nat)>, i: nat)
    requires i < |list|
    ensures var details := Message(height, list);
      && PairAt(details, i)
      && details[2 * i + 2].wallet == list[i].0 && details[2 * i + 3].amount == list[i].1
  {
    FlatAt(list, i);
    var details := Message(height, list);
    assert details[2 * i + 2] == Flat(list)[2 * i] && details[2 * i + 3] == Flat(list)[2 * i + 1];
  }

  // Reading the first n pairs overlays the first n entries.
  lemma {:induction false} OverlayIsMerge(b: Balances, height: int, list: seq<(Wallet, nat)>, n: nat)
    requires n <= |list|
    ensures Readable(Message(height, list), n)
    ensures Overlay(b, Message(height, list), n) == b + AsMap(list[..n])
  {
    MessageReadable(height, list);
    if n == 0 {
      assert list[..0] == [];
    } else {
      OverlayIsMerge(b, height, list, n - 1);
      PairOf(height, list, n - 1);
      var (w, a) := list[n - 1];
      assert list[..n][..n - 1] == list[..n - 1];
      assert AsMap(list[..n]) == AsMap(list[..n - 1])[w := a];
      assert b + AsMap(list[..n - 1])[w := a] == (b + AsMap(list[..n - 1]))[w := a];
    }
  }

  // What the peer knows after applying the leader's answer.
  ghost function Received(peer: seq<Pin>, latest: Pin, list: seq<(Wallet, nat)>): seq<Pin> {
    MessageReadable(latest.number, list);
    peer + [Updated(latest, Message(latest.number, list))]
  }

  lemma {:induction false} ReceivedBalance(latest: Pin, list: seq<(Wallet, nat)>)
    requires |list| < 0x8000_0000
    ensures Readable(Message(latest.number, list), Int32(|list|))
    ensures Updated(latest, Message(latest.number, list)).balance == latest.balance + AsMap(list)
  {
    MessageReadable(latest.number, list);
    OverlayIsMerge(latest.balance, latest.number, list, |list|);
    assert list[..|list|] == list;
  }

  lemma {:induction false} NewestIsMerged(pins: seq<Pin>)
    requires pins != []
    ensures pins[|pins| - 1].balance + Merge(pins) == Merge(pins)
  {
  }

  // A peer that applies the snapshot gets the leader's pinned balance for every wallet
  // the leader knows, and keeps its own for the others; a fresh peer has no others.
  lemma {:induction false} SnapshotIsFaithful(pins: seq<Pin>, peer: seq<Pin>, list: seq<(Wallet, nat)>, w: Wallet)
    requires pins != [] && NoneAbove(pins) && Sent(pins, list) && |list| < 0x8000_0000
    ensures var leader := Lookup(pins, w);
      Lookup(Received(peer, pins[|pins| - 1], list), w) == if leader.Some? then leader else Lookup(peer, w)
  {
    var latest := pins[|pins| - 1];
    SentIsAll(pins, list);
    MergeIsLookup(pins, w);
    ReceivedBalance(latest, list);
    NewestIsMerged(pins);
    var updated := Updated(latest, Message(latest.number, list));
    assert updated.balance == Merge(pins);
    LookupNewest(peer, updated, w);
  }

  // The leader answers and the peer reads the answer. A peer that was not ready accepts it
  // and is ready; if the length fits it has the leader's balance of every wallet that the
  // leader knows, and its own of all others.
  method HandOver(pins: seq<Pin>, peer: Peer) returns (ok: bool)
    modifies peer
    ensures pins == [] ==> !ok && peer.pins == old(peer.pins) && peer.ready == old(peer.ready)
    ensures pins != [] ==> ok && peer.ready
    ensures pins != [] && old(peer.ready) ==> peer.pins == old(peer.pins)
    ensures pins != [] && !old(peer.ready) ==>
      exists list :: Sent(pins, list) && peer.pins == Received(old(peer.pins), pins[|pins| - 1], list)
    ensures pins != [] && !old(peer.ready) && NoneAbove(pins) && |Merge(pins)| < 0x8000_0000 ==> forall w ::
      Lookup(peer.pins, w) == if Lookup(pins, w).Some? then Lookup(pins, w) else Lookup(old(peer.pins), w)
  {
    var answer := RespondLatestBalances(pins);
    if answer.None? { return false; }
    var (latest, details) := answer.value;
    ghost var list :| Sent(pins, list) && details == Message(latest.number, list);
    MessageReadable(latest.number, list);
    ghost var was := peer.pins;
    ghost var ready := peer.ready;
    ok := peer.HandleLatestBalances(latest, details);
    if !ready && NoneAbove(pins) && |Merge(pins)| < 0x8000_0000 {
      SentIsAll(pins, list);
      forall w ensures Lookup(peer.pins, w) == if Lookup(pins, w).Some? then Lookup(pins, w) else Lookup(was, w) {
        SnapshotIsFaithful(pins, was, list, w);
      }
    }
  }

  lemma {:induction false} LookupNewest(pins: seq<Pin>, p: Pin, w: Wallet)
    ensures Lookup(pins + [p], w) == if w in p.balance then Some(p.balance[w]) else Lookup(pins, w)
  {
    assert (pins + [p])[..|pins|] == pins;
  }

  // --------------------------------------------------- when the length does not fit

  lemma {:induction false} AsMapSize(list: seq<(Wallet, nat)>)
    ensures |AsMap(list)| <= |list|
    ensures |AsMap(list)| == |list| && list != [] ==>
      |AsMap(list[..|list| - 1])| == |list| - 1 && list[|list| - 1].0 !in AsMap(list[..|list| - 1])
  {
    if list == [] {
    } else {
      var front, w := list[..|list| - 1], list[|list| - 1].0;
      AsMapSize(front);
      assert AsMap(list).Keys == AsMap(front).Keys + {w};
    }
  }

  // In a list of all entries the wallets differ, so each entry is found again, and none
  // of the first n wallets comes later.
  lemma {:induction false} EntryAt(list: seq<(Wallet, nat)>, n: nat, j: nat)
    requires |AsMap(list)| == |list| && n <= |list| && j < |list|
    ensures Get(AsMap(list), list[j].0) == Some(list[j].1)
    ensures Get(AsMap(list[..n]), list[j].0) == if j < n then Some(list[j].1) else None
  {
    var last := |list| - 1;
    AsMapSize(list);
    if n <= last {
      assert list[..last][..n] == list[..n];
      if j < last {
        EntryAt(list[..last], n, j);
      } else {
        TakeKeys(list[..last], n);
      }
    } else {
      assert list[..n] == list;
      if j < last { EntryAt(list[..last], last, j); }
    }
  }

  lemma {:induction false} TakeKeys(list: seq<(Wallet, nat)>, n: nat)
    requires n <= |list|
    ensures AsMap(list[..n]).Keys <= AsMap(list).Keys
  {
    if n == |list| {
      assert list[..n] == list;
    } else {
      TakeKeys(list[..|list| - 1], n);
      assert list[..|list| - 1][..n] == list[..n];
    }
  }

  lemma {:induction false} EntryOf(list: seq<(Wallet, nat)>, w: Wallet) returns (j: nat)
    requires w in AsMap(list)
    ensures j < |list| && list[j].0 == w
  {
    if w == list[|list| - 1].0 {
      j := |list| - 1;
    } else {
      j := EntryOf(list[..|list| - 1], w);
    }
  }

  // What the reader applies of a list.
  lemma {:induction false} ReceivedPart(latest: Pin, list: seq<(Wallet, nat)>)
    ensures var n := Applied(Int32(|list|));
      && n <= |list| && Readable(Message(latest.number, list), Int32(|list|))
      && Updated(latest, Message(latest.number, list)).balance == latest.balance + AsMap(list[..n])
  {
    MessageReadable(latest.number, list);
    Int32Below(|list|);
    OverlayIsMerge(latest.balance, latest.number, list, Applied(Int32(|list|)));
  }

  lemma {:induction false} Int32Below(n: nat)
    ensures Int32(n) <= n
  {
    assert n + 0x8000_0000 >= (n + 0x8000_0000) % 0x1_0000_0000;
  }

  // The newest pin itself already holds the entries that are not applied.
  ghost predicate RestIsNewest(latest: Pin, list: seq<(Wallet, nat)>) {
    forall j :: Applied(Int32(|list|)) <= j < |list| ==> Get(latest.balance, list[j].0) == Some(list[j].1)
  }

  ghost predicate GetsAll(pins: seq<Pin>, list: seq<(Wallet, nat)>)
    requires pins != []
  {
    forall w :: Lookup(Received([], pins[|pins| - 1], list), w) == Lookup(pins, w)
  }

  lemma {:induction false} ReceivedAt(pins: seq<Pin>, list: seq<(Wallet, nat)>, w: Wallet)
    requires pins != [] && NoneAbove(pins) && Sent(pins, list)
    ensures var latest, n := pins[|pins| - 1], Applied(Int32(|list|));
      && n <= |list| && Lookup(pins, w) == Get(AsMap(list), w)
      && Lookup(Received([], latest, list), w) == Get(latest.balance + AsMap(list[..n]), w)
      && (w in latest.balance ==> Lookup(pins, w) == Get(latest.balance, w))
  {
    var latest := pins[|pins| - 1];
    SentIsAll(pins, list);
    MergeIsLookup(pins, w);
    ReceivedPart(latest, list);
    var updated := Updated(latest, Message(latest.number, list));
    assert Received([], latest, list) == [updated];
    LookupNewest([], updated, w);
    assert [] + [updated] == [updated];
  }

  // Whatever the number of wallets, a fresh peer gets every leader balance exactly when
  // the newest pin already holds the entries beyond the announced length.
  lemma {:induction false} SnapshotCompleteIff(pins: seq<Pin>, list: seq<(Wallet, nat)>)
    requires pins != [] && NoneAbove(pins) && Sent(pins, list)
    ensures GetsAll(pins, list) <==> RestIsNewest(pins[|pins| - 1], list)
  {
    var latest, n := pins[|pins| - 1], Applied(Int32(|list|));
    SentIsAll(pins, list);
    if GetsAll(pins, list) {
      forall j | n <= j < |list| ensures Get(latest.balance, list[j].0) == Some(list[j].1) {
        ReceivedAt(pins, list, list[j].0);
        EntryAt(list, n, j);
        assert Lookup(Received([], latest, list), list[j].0) == Lookup(pins, list[j].0);
      }
    }
    if RestIsNewest(latest, list) {
      forall w ensures Lookup(Received([], latest, list), w) == Lookup(pins, w) {
        ReceivedAt(pins, list, w);
        if w in AsMap(list) {
          var j := EntryOf(list, w);
          EntryAt(list, n, j);
        } else {
          TakeKeys(list, n);
        }
      }
    }
  }

  // k wallets with one coin each.
  function Coins(k: nat): Balances {
    if k == 0 then map[] else Coins(k - 1)[k - 1 := 1]
  }

  lemma {:induction false} CoinsHold(k: nat, w: Wallet)
    ensures |Coins(k)| == k && Get(Coins(k), w) == if w < k then Some(1) else None
  {
    if k == 0 {
    } else {
      CoinsHold(k - 1, w);
      CoinsHold(k - 1, k - 1);
      assert k - 1 !in Coins(k - 1);
      assert Coins(k).Keys == Coins(k - 1).Keys + {k - 1};
    }
  }

  // An old pin with k wallets and an empty newest one.
  function HugePins(k: nat): seq<Pin> {
    [Pin(0, Coins(k)), Pin(1, map[])]
  }

  lemma {:induction false} HugePinsHold(k: nat)
    ensures NoneAbove(HugePins(k)) && Merge(HugePins(k)) == Coins(k)
  {
    var old_, latest := Pin(0, Coins(k)), Pin(1, map[]);
    assert [old_, latest][..1] == [old_] && [old_][..0] == [];
    assert Merge([old_]) == Coins(k);
  }

  // From 2^31 wallets up to 2^32 the announced length is negative, and the peer learns
  // of none of them.
  lemma {:induction false} HugeSnapshotIsLost(k: nat, list: seq<(Wallet, nat)>, w: Wallet)
    requires 0x8000_0000 <= k < 0x1_0000_0000 && Sent(HugePins(k), list) && w < k
    ensures Lookup(HugePins(k), w) == Some(1)
    ensures Lookup(Received([], HugePins(k)[1], list), w) == None
    ensures !GetsAll(HugePins(k), list)
  {
    var pins := HugePins(k);
    HugePinsHold(k);
    SentIsAll(pins, list);
    CoinsHold(k, w);
    MergeIsLookup(pins, w);
    NegativeLength(pins[1], list, w);
  }

  lemma {:induction false} NegativeLength(latest: Pin, list: seq<(Wallet, nat)>, w: Wallet)
    requires 0x8000_0000 <= |list| < 0x1_0000_0000
    ensures Lookup(Received([], latest, list), w) == Get(latest.balance, w)
  {
    ReceivedPart(latest, list);
    assert Applied(Int32(|list|)) == 0 && list[..0] == [];
    var updated := Updated(latest, Message(latest.number, list));
    assert Received([], latest, list) == [] + [updated];
    LookupNewest([], updated, w);
  }
}

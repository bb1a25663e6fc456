/**
 The balance index: a per-wallet cache of running balances (`dag/slice.go`) over a
 list of pins (`dag/pin.go`), updated by payments (`dag/node.go`).
 */
module Ledger {
  import opened Wrappers

  type Wallet = string

  // A transaction id and the balance it left behind.
  datatype Entry = Entry(txId: string, balance: int)

  datatype Payment = Payment(id: string, sender: Wallet, recipient: Wallet, amount: nat, time: int)

  // Balances are stored as the bytes of a big integer, which drop its sign.
  datatype Pin = Pin(balances: map<Wallet, nat>, sites: seq<string>)

  datatype State = State(cache: map<Wallet, seq<Entry>>, pins: seq<Pin>)

  function ToBytes(x: int): nat {
    if x < 0 then -x else x
  }

  // ------------------------------------------------------------------ lookups

  // The newest pin that knows the wallet.
  function Latest(pins: seq<Pin>, w: Wallet): Option<int> {
    if pins == [] then None
    else if w in pins[|pins| - 1].balances then Some(pins[|pins| - 1].balances[w])
    else Latest(pins[..|pins| - 1], w)
  }

  function Cached(cache: map<Wallet, seq<Entry>>, w: Wallet): Option<int> {
    if w in cache && |cache[w]| > 0 then Some(cache[w][|cache[w]| - 1].balance) else None
  }

  // Cache first, then the pins.
  function Lookup(s: State, w: Wallet): Option<int> {
    if Cached(s.cache, w).Some? then Cached(s.cache, w) else Latest(s.pins, w)
  }

  function Balance(s: State, w: Wallet): int {
    if Lookup(s, w).Some? then Lookup(s, w).value else 0
  }

  // ----------------------------------------------------------------- payments

  // Moves the wallet's balance by an amount, unless that would make it negative;
  // a refusal may leave an empty list behind.
  function Shift(s: State, w: Wallet, txId: string, amount: int): (State, bool) {
    var entries := if w in s.cache then s.cache[w] else [];
    var balance := Balance(s, w) + amount;
    if balance < 0 then (s.(cache := s.cache[w := entries]), false)
    else (s.(cache := s.cache[w := entries + [Entry(txId, balance)]]), true)
  }

  function Pay(s: State, p: Payment): (State, bool) {
    if p.sender == p.recipient then (s, true)
    else
      var (s1, ok) := Shift(s, p.sender, p.id, 0 - p.amount);
      if !ok then (s1, false) else Shift(s1, p.recipient, p.id, p.amount)
  }

  // ------------------------------------------------------------ pin formation

  // Stable insertion by time, what the library sort computes.
  function InsertByTime(sites: seq<Payment>, p: Payment): (r: seq<Payment>) {
    if sites == [] || sites[|sites| - 1].time <= p.time then sites + [p]
    else InsertByTime(sites[..|sites| - 1], p) + [sites[|sites| - 1]]
  }

  function SortByTime(sites: seq<Payment>): (r: seq<Payment>) {
    if sites == [] then [] else InsertByTime(SortByTime(sites[..|sites| - 1]), sites[|sites| - 1])
  }

  // The wallets the sites mention.
  function Touched(sites: seq<Payment>): set<Wallet> {
    if sites == [] then {}
    else Touched(sites[..|sites| - 1]) + {sites[|sites| - 1].sender, sites[|sites| - 1].recipient}
  }

  function Ids(sites: seq<Payment>): seq<string> {
    seq(|sites|, i requires 0 <= i < |sites| => sites[i].id)
  }

  // The balances of all wallets the sites mention move from the cache to a new pin.
  function FormPin(s: State, sites: seq<Payment>): State {
    State(s.cache - Touched(sites),
          s.pins + [Pin(PinnedBalances(s, Touched(sites)), Ids(SortByTime(sites)))])
  }

  function PinnedBalances(s: State, ws: set<Wallet>): map<Wallet, nat> {
    map w | w in ws :: ToBytes(Balance(s, w))
  }

  ghost predicate EndsWithBalance(lists: map<Wallet, seq<int>>, s: State) {
    forall w :: w in lists ==> lists[w] != [] && lists[w][|lists[w]| - 1] == Balance(s, w)
  }

  function Genesis(w: Wallet, amount: nat): State {
    State(map[], [Pin(map[w := amount], [""])])
  }

  // ------------------------------------------------------------ the live objects

  class NodeTxPin {
    var pins: seq<Pin>

    constructor ()
      ensures pins == []
    {
      pins := [];
    }

    method SetGenesis(id: string, w: Wallet, amount: nat)
      modifies this
      ensures pins == old(pins) + [Pin(map[w := amount], [id])]
    {
      pins := pins + [Pin(map[w := amount], [id])];
    }

    method LatestBalance(w: Wallet) returns (balance: Option<int>)
      ensures balance == Latest(pins, w)
    {
      var i := |pins|;
      assert pins[..i] == pins;
      while i > 0
        invariant 0 <= i <= |pins|
        invariant Latest(pins, w) == Latest(pins[..i], w)
      {
        i := i - 1;
        assert pins[..i + 1][..i] == pins[..i];
        if w in pins[i].balances { return Some(pins[i].balances[w]); }
      }
      return None;
    }

    method BalanceForWallet(cache: WalletCache, w: Wallet) returns (balance: Option<int>)
      ensures balance == Lookup(State(cache.cache, pins), w)
    {
      balance := cache.Get(w);
      if balance.None? { balance := LatestBalance(w); }
    }

    // The balances of all senders and recipients as they are now, one list per wallet.
    method CollectBalances(cache: WalletCache, sites: seq<Payment>)
      returns (senders: map<Wallet, seq<int>>, receivers: map<Wallet, seq<int>>)
      ensures forall j :: 0 <= j < |sites| ==> sites[j].sender in senders && sites[j].recipient in receivers
      ensures EndsWithBalance(senders, State(cache.cache, pins)) && EndsWithBalance(receivers, State(cache.cache, pins))
    {
      senders, receivers := map[], map[];
      var i := 0;
      while i < |sites|
        invariant 0 <= i <= |sites|
        invariant forall j :: 0 <= j < i ==> sites[j].sender in senders && sites[j].recipient in receivers
        invariant EndsWithBalance(senders, State(cache.cache, pins))
        invariant EndsWithBalance(receivers, State(cache.cache, pins))
      {
        var w := sites[i].sender;
        var b := BalanceForWallet(cache, w);
        senders := senders[w := (if w in senders then senders[w] else []) + [if b.Some? then b.value else 0]];
        w := sites[i].recipient;
        b := BalanceForWallet(cache, w);
        receivers := receivers[w := (if w in receivers then receivers[w] else []) + [if b.Some? then b.value else 0]];
        i := i + 1;
      }
    }

    // Writes the collected balances into a new pin and drops the wallets from the cache.
    method FillPin(cache: WalletCache, sites: seq<Payment>, senders: map<Wallet, seq<int>>,
                   receivers: map<Wallet, seq<int>>) returns (pin: Pin)
      requires forall j :: 0 <= j < |sites| ==> sites[j].sender in senders && sites[j].recipient in receivers
      requires EndsWithBalance(senders, State(cache.cache, pins))
      requires EndsWithBalance(receivers, State(cache.cache, pins))
      modifies cache
      ensures pin == old(Pin(PinnedBalances(State(cache.cache, pins), Touched(sites)), Ids(sites)))
      ensures cache.cache == old(cache.cache) - Touched(sites)
    {
      ghost var s := State(cache.cache, pins);
      var balances: map<Wallet, nat> := map[];
      var ids: seq<string> := [];
      var i := 0;
      while i < |sites|
        invariant 0 <= i <= |sites|
        invariant ids == Ids(sites[..i]) && balances == PinnedBalances(s, Touched(sites[..i]))
        invariant cache.cache == s.cache - Touched(sites[..i])
      {
        NextSite(s, sites, i);
        var site := sites[i];
        ids := ids + [site.id];
        var sent, got := senders[site.sender], receivers[site.recipient];
        assert sent[|sent| - 1] == Balance(s, site.sender) && got[|got| - 1] == Balance(s, site.recipient);
        balances := balances[site.sender := ToBytes(sent[|sent| - 1])];
        balances := balances[site.recipient := ToBytes(got[|got| - 1])];
        cache.Remove(site.sender);
        cache.Remove(site.recipient);
        i := i + 1;
      }
      assert sites == sites[..i];
      pin := Pin(balances, ids);
    }

    // Forms a pin from confirmed sites.
    method AddPin(cache: WalletCache, sites: seq<Payment>)
      modifies this, cache
      ensures State(cache.cache, pins) == FormPin(old(State(cache.cache, pins)), sites)
    {
      var sorted := SortByTime(sites);
      SortTouches(sites);
      var senders, receivers := CollectBalances(cache, sorted);
      var pin := FillPin(cache, sorted, senders, receivers);
      pins := pins + [pin];
    }

    // None: some wallet's balance is unknown.
    method GetBalances(cache: WalletCache, wallets: seq<Wallet>) returns (balances: Option<seq<int>>)
      ensures balances == Priced(State(cache.cache, pins), wallets)
      ensures InOrder(State(cache.cache, pins), wallets, balances)
    {
      PricedInOrder(State(cache.cache, pins), wallets);
      var found: seq<int> := [];
      var i := 0;
      while i < |wallets|
        invariant 0 <= i <= |wallets|
        invariant Priced(State(cache.cache, pins), wallets[..i]) == Some(found)
      {
        var b := BalanceForWallet(cache, wallets[i]);
        assert wallets[..i + 1][..i] == wallets[..i];
        if b.None? {
          UnknownSpoils(State(cache.cache, pins), wallets, i + 1);
          return None;
        }
        found := found + [b.value];
        i := i + 1;
      }
      assert wallets[..i] == wallets;
      return Some(found);
    }
  }

  class WalletCache {
    var cache: map<Wallet, seq<Entry>>

    constructor ()
      ensures cache == map[]
    {
      cache := map[];
    }

    method Add(pins: NodeTxPin, w: Wallet, txId: string, amount: nat) returns (ok: bool)
      modifies this
      ensures (State(cache, pins.pins), ok) == Shift(old(State(cache, pins.pins)), w, txId, amount)
    {
      var loaded := Load(pins, w);
      var balance := loaded + amount;
      ok := balance >= 0;
      if ok {
        cache := cache[w := cache[w] + [Entry(txId, balance)]];
        assert cache == old(cache)[w := cache[w]];
      }
    }

    method Sub(pins: NodeTxPin, w: Wallet, txId: string, amount: nat) returns (ok: bool)
      modifies this
      ensures (State(cache, pins.pins), ok) == Shift(old(State(cache, pins.pins)), w, txId, 0 - amount)
    {
      var loaded := Load(pins, w);
      var balance := loaded - amount;
      ok := balance >= 0;
      if ok {
        cache := cache[w := cache[w] + [Entry(txId, balance)]];
        assert cache == old(cache)[w := cache[w]];
      }
    }

    // The balance a change starts from; the wallet has a list from now on.
    method Load(pins: NodeTxPin, w: Wallet) returns (loaded: int)
      modifies this
      ensures loaded == old(Balance(State(cache, pins.pins), w))
      ensures cache == old(cache[w := if w in cache then cache[w] else []])
    {
      if w !in cache || |cache[w]| == 0 {
        cache := cache[w := []];
        var b := pins.LatestBalance(w);
        loaded := if b.Some? then b.value else 0;
      } else {
        loaded := cache[w][|cache[w]| - 1].balance;
        assert cache == cache[w := cache[w]];
      }
    }

    method Get(w: Wallet) returns (balance: Option<int>)
      ensures balance == Cached(cache, w)
    {
      if w in cache && |cache[w]| > 0 { return Some(cache[w][|cache[w]| - 1].balance); }
      return None;
    }

    method Remove(w: Wallet)
      modifies this
      ensures cache == old(cache) - {w}
    {
      cache := cache - {w};
    }

    // Accepts or refuses a payment.
    method UpdateBalanceIfValid(pins: NodeTxPin, p: Payment) returns (valid: bool)
      modifies this
      ensures (State(cache, pins.pins), valid) == Pay(old(State(cache, pins.pins)), p)
    {
      if p.sender == p.recipient { return true; }
      valid := Sub(pins, p.sender, p.id, p.amount);
      if valid { valid := Add(pins, p.recipient, p.id, p.amount); }
    }
  }

  function Priced(s: State, ws: seq<Wallet>): Option<seq<int>> {
    if ws == [] then Some([])
    else
      var rest := Priced(s, ws[..|ws| - 1]);
      var b := Lookup(s, ws[|ws| - 1]);
      if rest.Some? && b.Some? then Some(rest.value + [b.value]) else None
  }

  // Each balance stands where its wallet does; there is no answer exactly when some
  // wallet is not known.
  ghost predicate InOrder(s: State, ws: seq<Wallet>, answer: Option<seq<int>>) {
    && (answer.Some? <==> forall i :: 0 <= i < |ws| ==> Lookup(s, ws[i]).Some?)
    && (answer.Some? ==> |answer.value| == |ws|)
    && (answer.Some? ==> forall i :: 0 <= i < |ws| ==> Lookup(s, ws[i]) == Some(answer.value[i]))
  }

  lemma {:induction false} PricedInOrder(s: State, ws: seq<Wallet>)
    ensures InOrder(s, ws, Priced(s, ws))
  {
    if ws == [] {
    } else {
      var front, last := ws[..|ws| - 1], ws[|ws| - 1];
      PricedInOrder(s, front);
      assert forall i :: 0 <= i < |ws| ==> ws[i] == if i < |front| then front[i] else last;
      assert Priced(s, front).None? ==> exists i :: 0 <= i < |front| && Lookup(s, front[i]).None?;
    }
  }

  lemma {:induction false} UnknownSpoils(s: State, ws: seq<Wallet>, i: nat)
    requires i <= |ws| && Priced(s, ws[..i]).None?
    ensures Priced(s, ws).None?
    decreases |ws| - i
  {
    if i < |ws| {
      assert ws[..i + 1][..i] == ws[..i];
      UnknownSpoils(s, ws, i + 1);
    } else {
      assert ws[..i] == ws;
    }
  }

  // What one more site adds to a pin and takes out of the cache.
  lemma {:induction false} NextSite(s: State, sites: seq<Payment>, i: nat)
    requires i < |sites|
    ensures Ids(sites[..i + 1]) == Ids(sites[..i]) + [sites[i].id]
    ensures PinnedBalances(s, Touched(sites[..i + 1])) ==
      PinnedBalances(s, Touched(sites[..i]))[sites[i].sender := ToBytes(Balance(s, sites[i].sender))]
                                            [sites[i].recipient := ToBytes(Balance(s, sites[i].recipient))]
    ensures s.cache - Touched(sites[..i + 1])
         == s.cache - Touched(sites[..i]) - {sites[i].sender} - {sites[i].recipient}
  {
    assert sites[..i + 1][..i] == sites[..i];
  }

  predicate Ascending(sites: seq<Payment>) {
    forall i, j :: 0 <= i < j < |sites| ==> sites[i].time <= sites[j].time
  }

  lemma {:induction false} InsertKeepsSites(sites: seq<Payment>, p: Payment)
    ensures multiset(InsertByTime(sites, p)) == multiset(sites) + multiset{p}
    ensures Touched(InsertByTime(sites, p)) == Touched(sites) + {p.sender, p.recipient}
  {
    if sites == [] || sites[|sites| - 1].time <= p.time {
      assert (sites + [p])[..|sites|] == sites;
    } else {
      var rest, last := sites[..|sites| - 1], sites[|sites| - 1];
      assert sites == rest + [last];
      InsertKeepsSites(rest, p);
      var r := InsertByTime(rest, p);
      assert (r + [last])[..|r|] == r;
    }
  }

  lemma {:induction false} InsertKeepsOrder(sites: seq<Payment>, p: Payment)
    requires Ascending(sites)
    ensures Ascending(InsertByTime(sites, p))
    ensures forall q :: q in InsertByTime(sites, p) ==> q in sites || q == p
  {
    if sites == [] || sites[|sites| - 1].time <= p.time {
    } else {
      var rest, last := sites[..|sites| - 1], sites[|sites| - 1];
      InsertKeepsOrder(rest, p);
      assert forall q :: q in rest ==> q.time <= last.time;
      var r := InsertByTime(rest, p);
      assert forall i :: 0 <= i < |r| ==> r[i] in r && r[i].time <= last.time;
    }
  }

  // Sorting neither drops nor adds a site, and orders them by time.
  lemma {:induction false} SortByTimeSorts(sites: seq<Payment>)
    ensures multiset(SortByTime(sites)) == multiset(sites) && Ascending(SortByTime(sites))
  {
    if sites == [] {
    } else {
      var rest, last := sites[..|sites| - 1], sites[|sites| - 1];
      assert sites == rest + [last];
      SortByTimeSorts(rest);
      InsertKeepsSites(SortByTime(rest), last);
      InsertKeepsOrder(SortByTime(rest), last);
    }
  }

  lemma {:induction false} SortTouches(sites: seq<Payment>)
    ensures Touched(SortByTime(sites)) == Touched(sites)
  {
    if sites == [] {
    } else {
      SortTouches(sites[..|sites| - 1]);
      InsertKeepsSites(SortByTime(sites[..|sites| - 1]), sites[|sites| - 1]);
    }
  }

  // The sites with a given time, in their order.
  function At(sites: seq<Payment>, time: int): seq<Payment> {
    if sites == [] then []
    else At(sites[..|sites| - 1], time) + if sites[|sites| - 1].time == time then [sites[|sites| - 1]] else []
  }

  lemma {:induction false} InsertIsLast(sites: seq<Payment>, p: Payment, time: int)
    ensures At(InsertByTime(sites, p), time) == At(sites, time) + if p.time == time then [p] else []
  {
    if sites == [] || sites[|sites| - 1].time <= p.time {
      assert (sites + [p])[..|sites|] == sites;
    } else {
      var rest, last := sites[..|sites| - 1], sites[|sites| - 1];
      InsertIsLast(rest, p, time);
      var r := InsertByTime(rest, p);
      assert (r + [last])[..|r|] == r;
    }
  }

  // Sites with the same time keep their order.
  lemma {:induction false} SortByTimeIsStable(sites: seq<Payment>, time: int)
    ensures At(SortByTime(sites), time) == At(sites, time)
  {
    if sites == [] {
    } else {
      SortByTimeIsStable(sites[..|sites| - 1], time);
      InsertIsLast(SortByTime(sites[..|sites| - 1]), sites[|sites| - 1], time);
    }
  }
}

/**
 The balance index agrees with a plain replay of the accepted payments, and money
 is conserved, over every run of payments and pin formations.
 */
module LedgerProofs {
  import opened Wrappers
  import opened Ledger

  // -------------------------------------------------------- the plain ledger

  type Book = map<Wallet, int>

  function Held(b: Book, w: Wallet): int {
    if w in b then b[w] else 0
  }

  function Accepts(b: Book, p: Payment): bool {
    p.sender == p.recipient || Held(b, p.sender) >= p.amount
  }

  function Transfer(b: Book, p: Payment): Book {
    if p.sender == p.recipient || !Accepts(b, p) then b
    else b[p.sender := Held(b, p.sender) - p.amount][p.recipient := Held(b, p.recipient) + p.amount]
  }

  datatype Op = OpPay(payment: Payment) | OpPin(sites: seq<Payment>)

  // The index after a run, and which payments it accepted.
  function Run(s: State, ops: seq<Op>): (State, seq<bool>)
    decreases |ops|
  {
    if ops == [] then (s, [])
    else match ops[0]
      case OpPay(p) =>
        var (s1, ok) := Pay(s, p);
        var (s2, oks) := Run(s1, ops[1..]);
        (s2, [ok] + oks)
      case OpPin(sites) => Run(FormPin(s, sites), ops[1..])
  }

  // The plain replay: pins do not exist for it.
  function Replay(b: Book, ops: seq<Op>): (Book, seq<bool>)
    decreases |ops|
  {
    if ops == [] then (b, [])
    else match ops[0]
      case OpPay(p) =>
        var (b2, oks) := Replay(Transfer(b, p), ops[1..]);
        (b2, [Accepts(b, p)] + oks)
      case OpPin(_) => Replay(b, ops[1..])
  }

  // ----------------------------------------------------------------- agreement

  ghost predicate Agrees(s: State, b: Book) {
    forall w :: Balance(s, w) == Held(b, w) >= 0
  }

  // A change to one wallet is seen there and nowhere else; a refusal nowhere.
  lemma {:induction false} ShiftAt(s: State, w: Wallet, txId: string, amount: int)
    ensures var (s1, ok) := Shift(s, w, txId, amount);
      && ok == (Balance(s, w) + amount >= 0)
      && s1.pins == s.pins
      && (forall v :: v != w ==> Lookup(s1, v) == Lookup(s, v))
      && Lookup(s1, w) == if ok then Some(Balance(s, w) + amount) else Lookup(s, w)
  {
  }

  // What a payment does to every balance, and which wallets it makes known.
  lemma {:induction false} PayAt(s: State, p: Payment)
    requires Balance(s, p.recipient) >= 0
    ensures var (s', ok) := Pay(s, p);
      && ok == (p.sender == p.recipient || Balance(s, p.sender) >= p.amount)
      && s'.pins == s.pins
      && s'.cache.Keys == s.cache.Keys
           + (if p.sender == p.recipient then {} else if ok then {p.sender, p.recipient} else {p.sender})
      && (!ok || p.sender == p.recipient ==> forall w :: Lookup(s', w) == Lookup(s, w))
      && (ok && p.sender != p.recipient ==>
            && Balance(s', p.sender) == Balance(s, p.sender) - p.amount
            && Balance(s', p.recipient) == Balance(s, p.recipient) + p.amount
            && forall w :: w != p.sender && w != p.recipient ==> Balance(s', w) == Balance(s, w))
  {
    if p.sender != p.recipient {
      ShiftAt(s, p.sender, p.id, 0 - p.amount);
      var (s1, ok) := Shift(s, p.sender, p.id, 0 - p.amount);
      if ok { ShiftAt(s1, p.recipient, p.id, p.amount); }
    }
  }

  // An accepted payment adds one entry with its id and the new balance to the lists of
  // its two wallets, and leaves all other lists alone.
  lemma {:induction false} PayRecords(s: State, p: Payment)
    requires Pay(s, p).1 && p.sender != p.recipient
    ensures var was, now := s.cache, Pay(s, p).0.cache;
      && now.Keys == was.Keys + {p.sender, p.recipient}
      && now[p.sender] == Entries(s, p.sender) + [Entry(p.id, Balance(s, p.sender) - p.amount)]
      && now[p.recipient] == Entries(s, p.recipient) + [Entry(p.id, Balance(s, p.recipient) + p.amount)]
      && forall w :: w in was && w != p.sender && w != p.recipient ==> now[w] == was[w]
  {
    ShiftAt(s, p.sender, p.id, 0 - p.amount);
  }

  function Entries(s: State, w: Wallet): seq<Entry> {
    if w in s.cache then s.cache[w] else []
  }

  lemma {:induction false} PayAgrees(s: State, b: Book, p: Payment)
    requires Agrees(s, b)
    ensures Pay(s, p).1 == Accepts(b, p) && Agrees(Pay(s, p).0, Transfer(b, p))
  {
    assert Balance(s, p.sender) == Held(b, p.sender) && Balance(s, p.recipient) == Held(b, p.recipient);
    PayAt(s, p);
    var s', b' := Pay(s, p).0, Transfer(b, p);
    forall w ensures Balance(s', w) == Held(b', w) >= 0 { assert Balance(s, w) == Held(b, w); }
  }

  // Forming a pin changes no balance; a wallet nobody knew becomes known with zero.
  lemma {:induction false} FormPinAt(s: State, sites: seq<Payment>, w: Wallet)
    requires Balance(s, w) >= 0
    ensures Balance(FormPin(s, sites), w) == Balance(s, w)
    ensures Lookup(FormPin(s, sites), w) == if w in Touched(sites) then Some(Balance(s, w)) else Lookup(s, w)
  {
    var s' := FormPin(s, sites);
    assert s'.pins[..|s'.pins| - 1] == s.pins;
  }

  // Some site sends from or to the wallet.
  ghost predicate Mentions(sites: seq<Payment>, w: Wallet) {
    exists i :: 0 <= i < |sites| && (sites[i].sender == w || sites[i].recipient == w)
  }

  lemma {:induction false} TouchedIsMentioned(sites: seq<Payment>, w: Wallet)
    ensures w in Touched(sites) <==> Mentions(sites, w)
  {
    if sites == [] {
    } else {
      var front, last := sites[..|sites| - 1], sites[|sites| - 1];
      TouchedIsMentioned(front, w);
      assert forall i :: 0 <= i < |sites| ==> sites[i] == if i < |front| then front[i] else last;
      assert w == last.sender || w == last.recipient ==> Mentions(sites, w);
      if Mentions(front, w) {
        var i :| 0 <= i < |front| && (front[i].sender == w || front[i].recipient == w);
        assert sites[i] == front[i];
      }
    }
  }

  // The new pin holds the balance of exactly the wallets the sites mention, and names the
  // sites in order of time; the cache forgets exactly these wallets.
  lemma {:induction false} FormPinMoves(s: State, sites: seq<Payment>, w: Wallet)
    ensures var s' := FormPin(s, sites);
      && |s'.pins| == |s.pins| + 1 && s'.pins[..|s.pins|] == s.pins
      && var pin := s'.pins[|s.pins|];
      && (w in pin.balances <==> Mentions(sites, w))
      && (w in pin.balances && Balance(s, w) >= 0 ==> pin.balances[w] == Balance(s, w))
      && (w in s'.cache <==> w in s.cache && !Mentions(sites, w))
      && (w in s'.cache ==> s'.cache[w] == s.cache[w])
      && |pin.sites| == |sites| == |SortByTime(sites)|
      && forall i :: 0 <= i < |sites| ==> pin.sites[i] == SortByTime(sites)[i].id
  {
    TouchedIsMentioned(sites, w);
    SortByTimeSorts(sites);
    assert |multiset(SortByTime(sites))| == |multiset(sites)|;
  }

  // The balance looked up for every wallet is the plain replay of the accepted
  // payments, and the index accepts exactly the payments the replay accepts.
  lemma {:induction false} IndexIsReplay(s: State, b: Book, ops: seq<Op>)
    requires Agrees(s, b)
    ensures Agrees(Run(s, ops).0, Replay(b, ops).0) && Run(s, ops).1 == Replay(b, ops).1
    decreases |ops|
  {
    if ops == [] {
    } else {
      match ops[0]
      case OpPay(p) =>
        PayAgrees(s, b, p);
        IndexIsReplay(Pay(s, p).0, Transfer(b, p), ops[1..]);
      case OpPin(sites) =>
        forall w ensures Balance(FormPin(s, sites), w) == Balance(s, w) { FormPinAt(s, sites, w); }
        IndexIsReplay(FormPin(s, sites), b, ops[1..]);
    }
  }

  lemma {:induction false} GenesisAgrees(w: Wallet, amount: nat)
    ensures Agrees(Genesis(w, amount), map[w := amount])
  {
    var s := Genesis(w, amount);
    forall v ensures Balance(s, v) == Held(map[w := amount], v) { assert Latest(s.pins[..0], v) == None; }
  }

  lemma {:induction false} IndexIsReplayFromGenesis(w: Wallet, amount: nat, ops: seq<Op>)
    ensures Agrees(Run(Genesis(w, amount), ops).0, Replay(map[w := amount], ops).0)
    ensures Run(Genesis(w, amount), ops).1 == Replay(map[w := amount], ops).1
  {
    GenesisAgrees(w, amount);
    IndexIsReplay(Genesis(w, amount), map[w := amount], ops);
  }

  // A refused payment changes no balance, even where it leaves an empty list behind.
  lemma {:induction false} RefusalChangesNothing(s: State, p: Payment, w: Wallet)
    requires !Pay(s, p).1 && Balance(s, p.recipient) >= 0
    ensures Lookup(Pay(s, p).0, w) == Lookup(s, w)
  {
    PayAt(s, p);
  }

  // -------------------------------------------------------------- conservation

  ghost function Sum(ws: set<Wallet>, s: State): int
    decreases ws
  {
    if ws == {} then 0 else var w :| w in ws; Balance(s, w) + Sum(ws - {w}, s)
  }

  lemma {:induction false} SumPick(ws: set<Wallet>, s: State, w: Wallet)
    requires w in ws
    ensures Sum(ws, s) == Balance(s, w) + Sum(ws - {w}, s)
    decreases ws
  {
    var u :| u in ws && Sum(ws, s) == Balance(s, u) + Sum(ws - {u}, s);
    if u != w {
      SumPick(ws - {u}, s, w);
      SumPick(ws - {w}, s, u);
      assert ws - {u} - {w} == ws - {w} - {u};
    }
  }

  lemma {:induction false} SumSame(ws: set<Wallet>, s: State, s': State)
    requires forall w :: w in ws ==> Balance(s', w) == Balance(s, w)
    ensures Sum(ws, s') == Sum(ws, s)
    decreases ws
  {
    if ws == {} {
    } else {
      var w :| w in ws;
      SumPick(ws, s, w);
      SumPick(ws, s', w);
      SumSame(ws - {w}, s, s');
    }
  }

  // Wallets without a balance add nothing.
  lemma {:induction false} SumGrow(ws: set<Wallet>, more: set<Wallet>, s: State)
    requires forall w :: w in more && w !in ws ==> Balance(s, w) == 0
    ensures Sum(ws + more, s) == Sum(ws, s)
    decreases more - ws
  {
    if more <= ws {
      assert ws + more == ws;
    } else {
      var w :| w in more && w !in ws;
      SumPick(ws + {w}, s, w);
      assert ws + {w} - {w} == ws;
      SumGrow(ws + {w}, more, s);
      assert ws + {w} + more == ws + more;
    }
  }

  function PinWallets(pins: seq<Pin>): set<Wallet> {
    if pins == [] then {} else PinWallets(pins[..|pins| - 1]) + pins[|pins| - 1].balances.Keys
  }

  // All wallets the pins or the cache mention.
  function Known(s: State): set<Wallet> {
    PinWallets(s.pins) + s.cache.Keys
  }

  lemma {:induction false} LatestKnown(pins: seq<Pin>, w: Wallet)
    ensures Latest(pins, w).Some? <==> w in PinWallets(pins)
  {
    if pins == [] {
    } else {
      LatestKnown(pins[..|pins| - 1], w);
    }
  }

  lemma {:induction false} UnknownHasNone(s: State, w: Wallet)
    requires w !in Known(s)
    ensures Balance(s, w) == 0
  {
    LatestKnown(s.pins, w);
  }

  ghost predicate NonNegative(s: State) {
    forall w :: Balance(s, w) >= 0
  }

  // Moving an amount between two of the wallets leaves the sum alone.
  lemma {:induction false} SumMove(ws: set<Wallet>, s: State, s': State, a: Wallet, b: Wallet)
    requires a in ws && b in ws && a != b
    requires Balance(s, a) + Balance(s, b) == Balance(s', a) + Balance(s', b)
    requires forall w :: w != a && w != b ==> Balance(s', w) == Balance(s, w)
    ensures Sum(ws, s') == Sum(ws, s)
  {
    SumPick(ws, s, a);
    SumPick(ws - {a}, s, b);
    SumPick(ws, s', a);
    SumPick(ws - {a}, s', b);
    SumSame(ws - {a} - {b}, s, s');
  }

  lemma {:induction false} KnownGrows(s: State, more: set<Wallet>)
    ensures Sum(Known(s) + more, s) == Sum(Known(s), s)
  {
    forall w | w !in Known(s) ensures Balance(s, w) == 0 { UnknownHasNone(s, w); }
    SumGrow(Known(s), more, s);
  }

  lemma {:induction false} PayConserves(s: State, p: Payment)
    requires NonNegative(s)
    ensures NonNegative(Pay(s, p).0) && Sum(Known(Pay(s, p).0), Pay(s, p).0) == Sum(Known(s), s)
  {
    assert Balance(s, p.recipient) >= 0;
    PayAt(s, p);
    var s' := Pay(s, p).0;
    assert Known(s') == Known(s) + s'.cache.Keys;
    KnownGrows(s, s'.cache.Keys);
    forall w ensures Balance(s', w) >= 0 { assert Balance(s, w) >= 0; }
    if Pay(s, p).1 && p.sender != p.recipient {
      SumMove(Known(s'), s, s', p.sender, p.recipient);
    } else {
      SumSame(Known(s'), s, s');
    }
  }

  lemma {:induction false} FormPinConserves(s: State, sites: seq<Payment>)
    requires NonNegative(s)
    ensures NonNegative(FormPin(s, sites)) && Sum(Known(FormPin(s, sites)), FormPin(s, sites)) == Sum(Known(s), s)
  {
    var s' := FormPin(s, sites);
    forall w ensures Balance(s', w) == Balance(s, w) { FormPinAt(s, sites, w); }
    assert s'.pins[..|s'.pins| - 1] == s.pins;
    assert Known(s') == Known(s) + Touched(sites);
    KnownGrows(s, Touched(sites));
    SumSame(Known(s'), s, s');
  }

  // Over every run, balances stay non-negative and the known wallets together
  // hold what they held at the start.
  lemma {:induction false} RunConserves(s: State, ops: seq<Op>)
    requires NonNegative(s)
    ensures NonNegative(Run(s, ops).0) && Sum(Known(Run(s, ops).0), Run(s, ops).0) == Sum(Known(s), s)
    decreases |ops|
  {
    if ops == [] {
    } else {
      match ops[0]
      case OpPay(p) =>
        PayConserves(s, p);
        RunConserves(Pay(s, p).0, ops[1..]);
      case OpPin(sites) =>
        FormPinConserves(s, sites);
        RunConserves(FormPin(s, sites), ops[1..]);
    }
  }

  lemma {:induction false} GenesisSum(w: Wallet, amount: nat)
    ensures NonNegative(Genesis(w, amount)) && Sum(Known(Genesis(w, amount)), Genesis(w, amount)) == amount
  {
    var s := Genesis(w, amount);
    GenesisAgrees(w, amount);
    assert PinWallets(s.pins[..0]) == {};
    assert Known(s) == {w};
    SumPick({w}, s, w);
    assert {w} - {w} == {};
  }

  // ------------------------------------------------ the generator tool's equality

  function SumSeq(bs: seq<int>): int {
    if bs == [] then 0 else SumSeq(bs[..|bs| - 1]) + bs[|bs| - 1]
  }

  ghost predicate Lists(ws: seq<Wallet>, set_: set<Wallet>) {
    && (forall w :: w in ws <==> w in set_)
    && (forall i, j :: 0 <= i < j < |ws| ==> ws[i] != ws[j])
  }

  lemma {:induction false} PricedSum(s: State, ws: seq<Wallet>, known: set<Wallet>)
    requires Lists(ws, known)
    ensures Priced(s, ws).Some? <==> forall w :: w in known ==> Lookup(s, w).Some?
    ensures Priced(s, ws).Some? ==> SumSeq(Priced(s, ws).value) == Sum(known, s)
    decreases |ws|
  {
    if ws == [] {
      assert known == {};
    } else {
      var rest, last := ws[..|ws| - 1], ws[|ws| - 1];
      assert ws == rest + [last];
      assert Lists(rest, known - {last});
      PricedSum(s, rest, known - {last});
      SumPick(known, s, last);
      assert forall w :: w in known <==> w in known - {last} || w == last;
    }
  }

  // A wallet whose only trace is the empty list a refused debit left behind.
  predicate OnlyRefused(s: State, w: Wallet) {
    w in s.cache && s.cache[w] == [] && w !in PinWallets(s.pins)
  }

  // Asking for the balances of all known wallets, in any order, gives amounts that
  // add up to the genesis amount; the request fails exactly when some wallet is
  // known only through a refused debit.
  lemma {:induction false} KnownBalancesAddUp(w: Wallet, amount: nat, ops: seq<Op>, ws: seq<Wallet>)
    requires Lists(ws, Known(Run(Genesis(w, amount), ops).0))
    ensures var s := Run(Genesis(w, amount), ops).0;
      match Priced(s, ws)
      case Some(bs) => SumSeq(bs) == amount && forall v :: !OnlyRefused(s, v)
      case None => exists v :: OnlyRefused(s, v)
  {
    GenesisSum(w, amount);
    RunConserves(Genesis(w, amount), ops);
    var s := Run(Genesis(w, amount), ops).0;
    PricedSum(s, ws, Known(s));
    forall v ensures v in Known(s) && Lookup(s, v).None? <==> OnlyRefused(s, v) { LatestKnown(s.pins, v); }
  }

  // Such a wallet is one refused payment away.
  lemma {:induction false} RefusedDebitFailsTheTool(w: Wallet, v: Wallet, amount: nat)
    requires v != w
    ensures var s := Run(Genesis(w, amount), [OpPay(Payment("id", v, w, 1, 0))]).0;
      OnlyRefused(s, v) && Sum(Known(s), s) == amount
  {
    var s, p := Genesis(w, amount), Payment("id", v, w, 1, 0);
    GenesisAgrees(w, amount);
    assert Pay(s, p).0.cache == map[v := []];
    assert [OpPay(p)][1..] == [] && s.pins[..0] == [];
    GenesisSum(w, amount);
    RunConserves(s, [OpPay(p)]);
  }
}

/**
 Rebuilding the chain of pins: what requests and inserts do to a list of pins that
 come from one signature-linked chain. A pin of the chain is given by its number.
 */
module PinRebuild {
  import opened Sequences
  import opened Wrappers
  import opened PinChain
  import opened Iteration

  predicate Within(ns: seq<nat>, n: nat) {
    forall i :: 0 <= i < |ns| ==> ns[i] < n
  }

  // The pins with the given numbers.
  function Pick(chain: seq<Pin>, ns: seq<nat>): (pins: seq<Pin>)
    requires Within(ns, |chain|)
    ensures |pins| == |ns| && forall i :: 0 <= i < |ns| ==> pins[i] == chain[ns[i]]
  {
    seq(|ns|, i requires 0 <= i < |ns| => chain[ns[i]])
  }

  // ------------------------------------------------------ the same, on the numbers

  function IndexOf(ns: seq<nat>, k: nat): (i: nat)
    ensures i <= |ns| && (i < |ns| ==> ns[i] == k)
    ensures forall j :: 0 <= j < i ==> ns[j] != k
    ensures i == |ns| <==> k !in ns
  {
    if ns == [] || ns[0] == k then 0 else 1 + IndexOf(ns[1..], k)
  }

  // Before the successor; without one, at the end; but genesis only into an empty list.
  function Put(ns: seq<nat>, k: nat): seq<nat> {
    var i := IndexOf(ns, k + 1);
    if k in ns then ns
    else if i < |ns| then ns[..i] + [k] + ns[i..]
    else if k == 0 && ns != [] then ns
    else ns + [k]
  }

  function AskAt(ns: seq<nat>, i: nat): seq<nat>
    requires i < |ns|
  {
    if ns[i] == 0 || (i > 0 && ns[i - 1] == ns[i] - 1) then [] else [ns[i] - 1]
  }

  function Asked(ns: seq<nat>): seq<nat> {
    if ns == [] then [] else AskAt(ns, |ns| - 1) + Asked(ns[..|ns| - 1])
  }

  lemma {:induction false} ChainFacts(chain: seq<Pin>, a: nat, k: nat)
    requires IsChain(chain) && a < |chain| && k < |chain|
    ensures chain[a].sign == chain[k].sign <==> a == k
    ensures chain[a].prev == Some(chain[k].sign) <==> a == k + 1
    ensures chain[a].prev == None <==> a == 0
  {
    assert LinkedAt(chain, a);
  }

  lemma {:induction false} SuccessorIndex(chain: seq<Pin>, ns: seq<nat>, k: nat)
    requires IsChain(chain) && Within(ns, |chain|) && k < |chain|
    ensures SuccessorAt(Pick(chain, ns), chain[k].sign) == IndexOf(ns, k + 1)
    ensures Has(Pick(chain, ns), chain[k].sign) <==> k in ns
  {
    var pins := Pick(chain, ns);
    forall i | 0 <= i < |ns|
      ensures pins[i].prev == Some(chain[k].sign) <==> ns[i] == k + 1
      ensures pins[i].sign == chain[k].sign <==> ns[i] == k
    {
      ChainFacts(chain, ns[i], k);
    }
    if k in ns {
      assert pins[IndexOf(ns, k)].sign == chain[k].sign;
    }
  }

  lemma {:induction false} PickSplice(chain: seq<Pin>, ns: seq<nat>, i: nat, k: nat)
    requires Within(ns, |chain|) && k < |chain| && i <= |ns|
    ensures Within(ns[..i] + [k] + ns[i..], |chain|)
    ensures Pick(chain, ns[..i] + [k] + ns[i..]) == Pick(chain, ns)[..i] + [chain[k]] + Pick(chain, ns)[i..]
  {
  }

  // Inserting a pin of the chain puts its number.
  lemma {:induction false} PutIsInsert(chain: seq<Pin>, ns: seq<nat>, k: nat)
    requires IsChain(chain) && Within(ns, |chain|) && k < |chain|
    ensures Within(Put(ns, k), |chain|) && Insert(Pick(chain, ns), chain[k]) == Pick(chain, Put(ns, k))
  {
    SuccessorIndex(chain, ns, k);
    ChainFacts(chain, k, k);
    if ns != [] { ChainFacts(chain, ns[0], k); }
    PickSplice(chain, ns, IndexOf(ns, k + 1), k);
    if k !in ns && IndexOf(ns, k + 1) == |ns| && !(k == 0 && ns != []) {
      assert ns[..|ns|] + [k] + ns[|ns|..] == ns + [k];
      assert Pick(chain, ns)[..|ns|] + [chain[k]] + Pick(chain, ns)[|ns|..] == Pick(chain, ns) + [chain[k]];
    } else if k !in ns && k == 0 && ns != [] {
      assert ns[0] in ns;
    }
  }

  ghost predicate AreSigns(chain: seq<Pin>, signs: seq<Sign>, ks: seq<nat>) {
    |signs| == |ks| && forall i :: 0 <= i < |ks| ==> ks[i] < |chain| && signs[i] == chain[ks[i]].sign
  }

  lemma {:induction false} RequestIsAsked(chain: seq<Pin>, ns: seq<nat>, i: nat)
    requires IsChain(chain) && Within(ns, |chain|) && i < |ns|
    ensures AreSigns(chain, RequestAt(Pick(chain, ns), i), AskAt(ns, i))
  {
    assert LinkedAt(chain, ns[i]);
    if i > 0 && ns[i] > 0 {
      ChainFacts(chain, ns[i] - 1, ns[i - 1]);
    }
  }

  lemma {:induction false} RequestsOfPick(chain: seq<Pin>, ns: seq<nat>, front: seq<nat>)
    requires ns != [] && front == ns[..|ns| - 1] && Within(ns, |chain|)
    ensures Requests(Pick(chain, ns)) == RequestAt(Pick(chain, ns), |ns| - 1) + Requests(Pick(chain, front))
  {
    assert Pick(chain, ns)[..|ns| - 1] == Pick(chain, front);
  }

  lemma {:induction false} SignsJoin(chain: seq<Pin>, s1: seq<Sign>, k1: seq<nat>, s2: seq<Sign>, k2: seq<nat>)
    requires AreSigns(chain, s1, k1) && AreSigns(chain, s2, k2)
    ensures AreSigns(chain, s1 + s2, k1 + k2)
  {
  }

  // The search asks for the pins with the numbers asked.
  lemma {:induction false} AskedIsRequests(chain: seq<Pin>, ns: seq<nat>)
    requires IsChain(chain) && Within(ns, |chain|)
    ensures AreSigns(chain, Requests(Pick(chain, ns)), Asked(ns))
  {
    if ns == [] {
    } else {
      var front, pins := ns[..|ns| - 1], Pick(chain, ns);
      RequestsOfPick(chain, ns, front);
      AskedIsRequests(chain, front);
      RequestIsAsked(chain, ns, |ns| - 1);
      SignsJoin(chain, RequestAt(pins, |ns| - 1), AskAt(ns, |ns| - 1), Requests(Pick(chain, front)), Asked(front));
    }
  }

  // ------------------------------------------------------------ lists in order

  ghost predicate Ascending(ns: seq<nat>) {
    forall i, j :: 0 <= i < j < |ns| ==> ns[i] < ns[j]
  }

  ghost predicate EndsWith(ns: seq<nat>, newest: nat) {
    ns != [] && ns[|ns| - 1] == newest
  }

  // Not in the list, but its successor is.
  predicate Wanted(ns: seq<nat>, k: nat) {
    k !in ns && k + 1 in ns
  }

  lemma {:induction false} PutWanted(ns: seq<nat>, newest: nat, k: nat)
    requires Ascending(ns) && EndsWith(ns, newest) && Wanted(ns, k)
    ensures var ns' := Put(ns, k);
      Ascending(ns') && |ns'| == |ns| + 1 && EndsWith(ns', newest)
    ensures forall m {:trigger m in Put(ns, k)} :: m in Put(ns, k) <==> m in ns || m == k
  {
    var i := IndexOf(ns, k + 1);
    forall j | 0 <= j < i ensures ns[j] < k {
      assert ns[j] < ns[i] && ns[j] in ns;
    }
    SpliceAscends(ns, i, k);
    forall m ensures m in Put(ns, k) <==> m in ns || m == k {
      SpliceHolds(ns, i, k, m);
    }
  }

  lemma {:induction false} SpliceAscends(ns: seq<nat>, i: nat, k: nat)
    requires Ascending(ns) && i < |ns| && k < ns[i] && forall j :: 0 <= j < i ==> ns[j] < k
    ensures Ascending(ns[..i] + [k] + ns[i..])
  {
    var ns' := ns[..i] + [k] + ns[i..];
    forall a, b | 0 <= a < b < |ns'| ensures ns'[a] < ns'[b] {
      var a', b' := if a <= i then a else a - 1, if b <= i then b else b - 1;
      assert a != i ==> ns'[a] == ns[a'];
      assert b != i ==> ns'[b] == ns[b'];
    }
  }

  lemma {:induction false} SpliceHolds(ns: seq<nat>, i: nat, k: nat, m: nat)
    requires i <= |ns|
    ensures m in ns[..i] + [k] + ns[i..] <==> m in ns || m == k
  {
    assert ns == ns[..i] + ns[i..];
  }

  function PutAll(ns: seq<nat>, ks: seq<nat>): seq<nat> {
    if ks == [] then ns else Put(PutAll(ns, ks[..|ks| - 1]), ks[|ks| - 1])
  }

  // Wanted pins may arrive in any order.
  lemma {:induction false} PutAllWanted(ns: seq<nat>, newest: nat, ks: seq<nat>)
    requires Ascending(ns) && EndsWith(ns, newest) && Distinct(ks) && forall k :: k in ks ==> Wanted(ns, k)
    ensures var ns' := PutAll(ns, ks);
      Ascending(ns') && |ns'| == |ns| + |ks| && EndsWith(ns', newest)
    ensures forall m {:trigger m in PutAll(ns, ks)} :: m in PutAll(ns, ks) <==> m in ns || m in ks
  {
    if ks == [] {
    } else {
      var front, k := ks[..|ks| - 1], ks[|ks| - 1];
      assert k in ks && k !in front && forall m :: m in ks <==> m in front || m == k;
      PutAllWanted(ns, newest, front);
      PutWanted(PutAll(ns, front), newest, k);
    }
  }

  lemma {:induction false} WantedBelow(front: seq<nat>, last: nat, k: nat)
    requires Ascending(front + [last])
    ensures Wanted(front + [last], k) <==> Wanted(front, k) || (k + 1 == last && k !in front)
  {
    var ns := front + [last];
    assert forall i :: 0 <= i < |front| ==> front[i] == ns[i] && ns[i] < ns[|front|];
    assert forall m :: m in ns <==> m in front || m == last;
  }

  lemma {:induction false} AskAtIff(front: seq<nat>, last: nat)
    requires Ascending(front + [last])
    ensures AskAt(front + [last], |front|) == if last > 0 && last - 1 !in front then [last - 1] else []
  {
    var ns := front + [last];
    if last > 0 && last - 1 in front {
      var i :| 0 <= i < |front| && front[i] == last - 1;
      assert ns[i] == last - 1;
      assert ns[i] <= ns[|front| - 1] < ns[|front|];
    }
  }

  // One search asks for exactly the missing predecessors, each once.
  lemma {:induction false} AskedIsWanted(ns: seq<nat>)
    requires Ascending(ns)
    ensures Distinct(Asked(ns)) && forall k :: k in Asked(ns) <==> Wanted(ns, k)
  {
    if ns == [] {
    } else {
      var front, last := ns[..|ns| - 1], ns[|ns| - 1];
      assert ns == front + [last];
      AskedIsWanted(front);
      AskedSnoc(front, last, Asked(front));
      assert Asked(ns) == AskAt(ns, |ns| - 1) + Asked(front);
    }
  }

  lemma {:induction false} AskedSnoc(front: seq<nat>, last: nat, asked: seq<nat>)
    requires Ascending(front + [last]) && Distinct(asked) && forall k :: k in asked <==> Wanted(front, k)
    ensures var all := AskAt(front + [last], |front|) + asked;
      Distinct(all) && forall k :: k in all <==> Wanted(front + [last], k)
  {
    var ns, new_ := front + [last], AskAt(front + [last], |front|);
    AskAtIff(front, last);
    LastNotIn(front, last);
    forall k ensures k in new_ + asked <==> Wanted(ns, k) {
      WantedBelow(front, last, k);
    }
    if last > 0 {
      assert !Wanted(front, last - 1);
      assert last - 1 !in asked;
    }
  }

  // The newest is asked for first.
  lemma {:induction false} AskedDescends(ns: seq<nat>)
    requires Ascending(ns)
    ensures forall i, j :: 0 <= i < j < |Asked(ns)| ==> Asked(ns)[i] > Asked(ns)[j]
  {
    if ns == [] {
    } else {
      var front, last := ns[..|ns| - 1], ns[|ns| - 1];
      AskedDescends(front);
      AskedIsWanted(front);
      forall k | k in Asked(front) ensures k + 1 < last {
        assert Wanted(front, k);
        assert forall i :: 0 <= i < |front| ==> front[i] == ns[i] && ns[i] < last;
      }
      assert Asked(ns) == AskAt(ns, |ns| - 1) + Asked(front);
      assert forall j :: 0 <= j < |Asked(front)| ==> Asked(front)[j] in Asked(front);
    }
  }

  lemma {:induction false} LastNotIn(front: seq<nat>, last: nat)
    requires Ascending(front + [last])
    ensures last !in front
  {
    var ns := front + [last];
    assert forall i :: 0 <= i < |front| ==> front[i] == ns[i] && ns[i] < ns[|front|];
  }

  // -------------------------------------------------------------------- rebuilding

  // One search and the arrival of all it asked for.
  function Round(ns: seq<nat>): seq<nat> {
    PutAll(ns, Asked(ns))
  }

  function Rounds(ns: seq<nat>, m: nat): seq<nat> {
    Iterate(Round, ns, m)
  }

  lemma {:induction false} RoundGrows(ns: seq<nat>, newest: nat)
    requires Ascending(ns) && EndsWith(ns, newest)
    ensures Ascending(Round(ns)) && |Round(ns)| == |ns| + |Asked(ns)| && EndsWith(Round(ns), newest)
  {
    AskedIsWanted(ns);
    var ks := Asked(ns);
    PutAllWanted(ns, newest, ks);
  }

  // Nothing is asked for exactly when the list starts with genesis and goes on
  // without a gap.
  ghost predicate IsPrefix(ns: seq<nat>) {
    forall i :: 0 <= i < |ns| ==> ns[i] == i
  }

  lemma {:induction false} AskedNothing(ns: seq<nat>)
    requires Distinct(ns)
    ensures Asked(ns) == [] <==> IsPrefix(ns)
  {
    if ns == [] {
    } else {
      var front, last := ns[..|ns| - 1], ns[|ns| - 1];
      assert forall i :: 0 <= i < |front| ==> front[i] == ns[i];
      AskedNothing(front);
      assert Asked(ns) == AskAt(ns, |ns| - 1) + Asked(front);
      assert IsPrefix(ns) <==> IsPrefix(front) && last == |front|;
      if |ns| > 1 {
        assert front[0] == ns[0] && front[|front| - 1] == ns[|ns| - 2];
        assert last != ns[0];
      }
    }
  }

  lemma {:induction false} AscendingBound(ns: seq<nat>, i: nat)
    requires Ascending(ns) && i < |ns|
    ensures i <= ns[i]
  {
    if i == 0 {
    } else {
      AscendingBound(ns, i - 1);
      assert ns[i - 1] < ns[i];
    }
  }

  // In order, with the same newest pin, and at rest or grown by m at least.
  ghost predicate OnTheWay(ns: seq<nat>, newest: nat, length: nat, m: nat) {
    Ascending(ns) && EndsWith(ns, newest) && (Asked(ns) == [] || |ns| >= length + m)
  }

  lemma {:induction false} RoundMovesOn(ns: seq<nat>, newest: nat, length: nat, m: nat)
    requires OnTheWay(ns, newest, length, m)
    ensures OnTheWay(Round(ns), newest, length, m + 1)
  {
    RoundGrows(ns, newest);
    if Asked(ns) == [] {
      assert Round(ns) == ns;
    }
  }

  lemma {:induction false} RoundsMoveOn(ns: seq<nat>, newest: nat, m: nat)
    requires Ascending(ns) && EndsWith(ns, newest)
    ensures OnTheWay(Rounds(ns, m), newest, |ns|, m)
  {
    var f, p := Round, (y, k: nat) => OnTheWay(y, newest, |ns|, k);
    forall y, k: nat | p(y, k) ensures p(f(y), k + 1) {
      RoundMovesOn(y, newest, |ns|, k);
    }
    assert OnTheWay(ns, newest, |ns|, 0);
    assert p(ns, 0);
    IterateKeeps(f, p, ns, m);
  }

  // A list in order is rebuilt up to its newest pin after as many rounds as that pin
  // has predecessors, and then nothing more is asked.
  lemma {:induction false} AscendingIsRebuilt(ns: seq<nat>)
    requires Ascending(ns) && ns != []
    ensures var newest := ns[|ns| - 1]; var ns' := Rounds(ns, newest);
      Asked(ns') == [] && IsPrefix(ns') && |ns'| == newest + 1
  {
    var newest := ns[|ns| - 1];
    var ns' := Rounds(ns, newest);
    RoundsMoveOn(ns, newest, newest);
    AscendingBound(ns', |ns'| - 1);
    if Asked(ns') != [] {
      AskedIsWanted(ns');
      FullIsPrefix(ns');
      AskedNothing(ns');
    }
    AskedNothing(ns');
  }

  lemma {:induction false} FullIsPrefix(ns: seq<nat>)
    requires Ascending(ns) && ns != [] && |ns| >= ns[|ns| - 1] + 1
    ensures IsPrefix(ns)
  {
    forall i | 0 <= i < |ns| ensures ns[i] == i {
      AscendingBound(ns, i);
      AscendingGap(ns, i);
    }
  }

  lemma {:induction false} AscendingGap(ns: seq<nat>, i: nat)
    requires Ascending(ns) && i < |ns|
    ensures ns[i] + (|ns| - 1 - i) <= ns[|ns| - 1]
    decreases |ns| - i
  {
    if i == |ns| - 1 {
    } else {
      assert ns[i] < ns[i + 1];
      AscendingGap(ns, i + 1);
    }
  }

  // ------------------------------------------------------- lists out of order stay so

  ghost predicate OutOfOrder(ns: seq<nat>) {
    exists i, j :: 0 <= i < j < |ns| && ns[i] > ns[j]
  }

  lemma {:induction false} SpliceStaysOutOfOrder(ns: seq<nat>, p: nat, k: nat)
    requires OutOfOrder(ns) && p <= |ns|
    ensures OutOfOrder(ns[..p] + [k] + ns[p..])
  {
    var i, j :| 0 <= i < j < |ns| && ns[i] > ns[j];
    var ns' := ns[..p] + [k] + ns[p..];
    var i', j' := if p <= i then i + 1 else i, if p <= j then j + 1 else j;
    assert 0 <= i' < j' < |ns'| && ns'[i'] > ns'[j'];
  }

  lemma {:induction false} PutStaysOutOfOrder(ns: seq<nat>, k: nat)
    requires OutOfOrder(ns)
    ensures OutOfOrder(Put(ns, k))
  {
    SpliceStaysOutOfOrder(ns, IndexOf(ns, k + 1), k);
    SpliceStaysOutOfOrder(ns, |ns|, k);
    assert ns[..|ns|] + [k] + ns[|ns|..] == ns + [k];
  }

  // Whatever pins of the chain arrive, and in whatever order, a list that has two
  // pins in the wrong order always asks for more.
  lemma {:induction false} OutOfOrderAsksForever(ns: seq<nat>, ks: seq<nat>)
    requires OutOfOrder(ns) && Distinct(ns)
    ensures OutOfOrder(PutAll(ns, ks)) && Distinct(PutAll(ns, ks)) && Asked(PutAll(ns, ks)) != []
  {
    if ks == [] {
    } else {
      var before, k := PutAll(ns, ks[..|ks| - 1]), ks[|ks| - 1];
      OutOfOrderAsksForever(ns, ks[..|ks| - 1]);
      PutStaysOutOfOrder(before, k);
      PutKeepsDistinct(before, k);
    }
    AskedNothing(PutAll(ns, ks));
  }

  lemma {:induction false} PutKeepsDistinct(ns: seq<nat>, k: nat)
    requires Distinct(ns)
    ensures Distinct(Put(ns, k))
  {
  }

  ghost predicate Restless(ns: seq<nat>) {
    OutOfOrder(ns) && Distinct(ns) && Asked(ns) != []
  }

  lemma {:induction false} RoundsStayOutOfOrder(ns: seq<nat>, m: nat)
    requires OutOfOrder(ns) && Distinct(ns)
    ensures Restless(Rounds(ns, m))
  {
    AskedNothing(ns);
    var p := (y, k: nat) => Restless(y);
    var f := Round;
    forall y, k: nat | p(y, k) ensures p(f(y), k + 1) {
      OutOfOrderAsksForever(y, Asked(y));
    }
    IterateKeeps(f, p, ns, m);
  }

  // The search comes to rest exactly for lists in order.
  lemma {:induction false} RebuiltIff(ns: seq<nat>)
    requires Distinct(ns) && ns != []
    ensures (exists m :: Asked(Rounds(ns, m)) == []) <==> Ascending(ns)
  {
    if Ascending(ns) {
      AscendingIsRebuilt(ns);
    } else {
      assert OutOfOrder(ns);
      forall m ensures Asked(Rounds(ns, m)) != [] {
        RoundsStayOutOfOrder(ns, m);
      }
    }
  }

  // The pins from one number on, without a gap.
  ghost predicate IsRun(ns: seq<nat>, first: nat) {
    ns != [] && forall i :: 0 <= i < |ns| ==> ns[i] == first + i
  }

  // A round with one request.
  lemma {:induction false} RoundOfOne(ns: seq<nat>, k: nat)
    requires Asked(ns) == [k]
    ensures Round(ns) == Put(ns, k)
  {
    assert [k][..0] == [];
    assert PutAll(ns, [k][..0]) == ns;
  }

  lemma {:induction false} RunRound(ns: seq<nat>, first: nat)
    requires IsRun(ns, first) && first > 0
    ensures Round(ns) == [first - 1] + ns && IsRun(Round(ns), first - 1)
  {
    RunAsksOne(ns, first);
    var k: nat := first - 1;
    RoundOfOne(ns, k);
    assert k !in ns && ns[0] == k + 1;
    assert IndexOf(ns, k + 1) == 0;
    assert ns[..0] + [k] + ns[0..] == [k] + ns;
  }

  // What m rounds make of the newest pin alone.
  ghost predicate Counted(ns: seq<nat>, newest: nat, m: nat) {
    m <= newest && IsRun(ns, newest - m) && |ns| == m + 1
  }

  lemma {:induction false} CountOne(ns: seq<nat>, newest: nat, m: nat)
    requires Counted(ns, newest, m) && m < newest
    ensures Counted(Round(ns), newest, m + 1)
  {
    RunRound(ns, newest - m);
  }

  lemma {:induction false} CountRounds(newest: nat, m: nat)
    requires m <= newest
    ensures Counted(Rounds([newest], m), newest, m)
  {
    if m == 0 {
    } else {
      CountRounds(newest, m - 1);
      CountOne(Rounds([newest], m - 1), newest, m - 1);
    }
  }

  // From the newest pin alone, each round asks for exactly one pin, the missing
  // predecessor, until the whole chain is there.
  lemma {:induction false} FromNewest(newest: nat, m: nat)
    requires m <= newest
    ensures var ns := Rounds([newest], m);
      && IsRun(ns, newest - m) && |ns| == m + 1
      && Asked(ns) == if m < newest then [newest - m - 1] else []
  {
    CountRounds(newest, m);
    RunAsksOne(Rounds([newest], m), newest - m);
  }

  lemma {:induction false} RunAsksOne(ns: seq<nat>, first: nat)
    requires IsRun(ns, first)
    ensures Asked(ns) == if first > 0 then [first - 1] else []
  {
    if |ns| > 1 {
      RunAsksOne(ns[..|ns| - 1], first);
      assert ns[|ns| - 2] == ns[|ns| - 1] - 1;
    } else {
      assert Asked(ns[..0]) == [];
    }
  }

  // ------------------------------------------------------------- on the pins again

  // The place of the pin with the given signature, or the length.
  function PlaceOf(chain: seq<Pin>, s: Sign): (k: nat)
    ensures k <= |chain| && (k < |chain| ==> chain[k].sign == s)
    ensures forall j :: 0 <= j < k ==> chain[j].sign != s
  {
    if chain == [] || chain[0].sign == s then 0 else 1 + PlaceOf(chain[1..], s)
  }

  // The requested pins arrive from peers that know the chain.
  function Serve(chain: seq<Pin>, pins: seq<Pin>, signs: seq<Sign>): seq<Pin> {
    if signs == [] then pins
    else
      var rest, k := Serve(chain, pins, signs[..|signs| - 1]), PlaceOf(chain, signs[|signs| - 1]);
      if k < |chain| then Insert(rest, chain[k]) else rest
  }

  function SyncRounds(chain: seq<Pin>, pins: seq<Pin>, m: nat): seq<Pin> {
    Iterate(before => Serve(chain, before, Requests(before)), pins, m)
  }

  lemma {:induction false} ServePutsAll(chain: seq<Pin>, ns: seq<nat>, signs: seq<Sign>, ks: seq<nat>)
    requires IsChain(chain) && Within(ns, |chain|) && AreSigns(chain, signs, ks)
    ensures Within(PutAll(ns, ks), |chain|)
    ensures Serve(chain, Pick(chain, ns), signs) == Pick(chain, PutAll(ns, ks))
  {
    if ks == [] {
    } else {
      var last := |ks| - 1;
      ServePutsAll(chain, ns, signs[..last], ks[..last]);
      assert signs[last] == chain[ks[last]].sign;
      assert PlaceOf(chain, signs[last]) == ks[last];
      PutIsInsert(chain, PutAll(ns, ks[..last]), ks[last]);
    }
  }

  ghost predicate Shows(chain: seq<Pin>, pins: seq<Pin>, ns: seq<nat>) {
    Within(ns, |chain|) && pins == Pick(chain, ns)
  }

  lemma {:induction false} RoundIsServed(chain: seq<Pin>, pins: seq<Pin>, ns: seq<nat>)
    requires IsChain(chain) && Shows(chain, pins, ns)
    ensures Shows(chain, Serve(chain, pins, Requests(pins)), Round(ns))
  {
    AskedIsRequests(chain, ns);
    ServePutsAll(chain, ns, Requests(pins), Asked(ns));
  }

  lemma {:induction false} SyncRoundsAreRounds(chain: seq<Pin>, ns: seq<nat>, m: nat)
    requires IsChain(chain) && Within(ns, |chain|)
    ensures Shows(chain, SyncRounds(chain, Pick(chain, ns), m), Rounds(ns, m))
  {
    var serve := before => Serve(chain, before, Requests(before));
    var r := (a, b) => Shows(chain, a, b);
    var f := Round;
    forall a, b | r(a, b) ensures r(serve(a), f(b)) {
      RoundIsServed(chain, a, b);
    }
    IterateRelates(serve, f, r, Pick(chain, ns), ns, m);
    assert SyncRounds(chain, Pick(chain, ns), m) == Iterate(serve, Pick(chain, ns), m);
  }

  // Any pins of a chain that are in order and include the newest grow back into the
  // whole chain, after which no request is made.
  lemma {:induction false} ChainIsRebuilt(chain: seq<Pin>, ns: seq<nat>)
    requires IsChain(chain) && Within(ns, |chain|) && chain != []
    requires Ascending(ns) && EndsWith(ns, |chain| - 1)
    ensures SyncRounds(chain, Pick(chain, ns), |chain| - 1) == chain && Requests(chain) == []
  {
    var rebuilt := Rounds(ns, |chain| - 1);
    AscendingIsRebuilt(ns);
    SyncRoundsAreRounds(chain, ns, |chain| - 1);
    assert Pick(chain, rebuilt) == chain;
    AskedIsRequests(chain, rebuilt);
  }

  lemma {:induction false} AskedIffRequested(chain: seq<Pin>, ns: seq<nat>, m: nat)
    requires IsChain(chain) && Within(ns, |chain|)
    ensures Requests(SyncRounds(chain, Pick(chain, ns), m)) == [] <==> Asked(Rounds(ns, m)) == []
  {
    SyncRoundsAreRounds(chain, ns, m);
    AskedIsRequests(chain, Rounds(ns, m));
  }

  // Rounds of requests and arrivals come to rest exactly for pins in order.
  lemma {:induction false} PinsRebuiltIff(chain: seq<Pin>, ns: seq<nat>)
    requires IsChain(chain) && Within(ns, |chain|) && Distinct(ns) && ns != []
    ensures (exists m: nat :: Requests(SyncRounds(chain, Pick(chain, ns), m)) == []) <==> Ascending(ns)
  {
    RebuiltIff(ns);
    forall m: nat
      ensures Requests(SyncRounds(chain, Pick(chain, ns), m)) == [] <==> Asked(Rounds(ns, m)) == []
    {
      AskedIffRequested(chain, ns, m);
    }
  }

  lemma {:induction false} ArriveTwo(p: Pin, q: Pin)
    requires p.sign != q.sign && p.prev.Some? && q.prev.Some? && p.prev != Some(q.sign)
    ensures InsertAll([], [p, q]) == [p, q]
  {
    assert [p, q][..1] == [p] && [p][..0] == [];
    assert InsertAll([], [p]) == [p];
  }

  // Two arrivals are enough: the newer of two pins first, with a gap between them. From
  // then on requests never stop.
  lemma {:induction false} WrongOrderArrives(chain: seq<Pin>, k: nat, n: nat, m: nat)
    requires IsChain(chain) && 0 < k && k + 1 < n < |chain|
    ensures InsertAll([], [chain[n], chain[k]]) == Pick(chain, [n, k])
    ensures Requests(SyncRounds(chain, InsertAll([], [chain[n], chain[k]]), m)) != []
  {
    ChainFacts(chain, n, k);
    ChainFacts(chain, k, n);
    ArriveTwo(chain[n], chain[k]);
    var ns := [n, k];
    assert ns[0] > ns[1];
    assert OutOfOrder(ns) && Distinct(ns);
    RoundsStayOutOfOrder(ns, m);
    AskedIffRequested(chain, ns, m);
  }
}

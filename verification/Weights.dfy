/**
 Cumulative weights: one backwards pass over the DAG counts, for every vertex, the
 approval chains that end at it (`updateCumWeights` in `dag/weights.go`).
 */
module Weights {
  import opened Tips

  // ------------------------------------------------------------------ approvers

  function SourcesOf(sources: map<Id, seq<Id>>, v: Id): seq<Id> {
    if v in sources then sources[v] else []
  }

  // A new vertex becomes the last approver of each of its targets.
  function LinkAll(sources: map<Id, seq<Id>>, id: Id, targets: seq<Id>): map<Id, seq<Id>> {
    if targets == [] then sources
    else
      var rest, t := LinkAll(sources, id, targets[..|targets| - 1]), targets[|targets| - 1];
      rest[t := SourcesOf(rest, t) + [id]]
  }

  lemma {:induction false} LinkAllSources(sources: map<Id, seq<Id>>, id: Id, targets: seq<Id>, v: Id)
    ensures var was, now := SourcesOf(sources, v), SourcesOf(LinkAll(sources, id, targets), v);
      && was <= now
      && (forall k :: |was| <= k < |now| ==> now[k] == id)
      && (|was| < |now| <==> v in targets)
  {
    if targets == [] {
    } else {
      var front := targets[..|targets| - 1];
      LinkAllSources(sources, id, front, v);
      assert v in targets <==> v in front || v == targets[|targets| - 1];
    }
  }

  function LinksTo(v: Id, targets: seq<Id>): seq<(Id, Id)> {
    seq(|targets|, i requires 0 <= i < |targets| => (v, targets[i]))
  }

  // Where the links from u lead, in their order.
  function TargetsIn(links: seq<(Id, Id)>, u: Id): seq<Id> {
    if links == [] then []
    else
      var last := links[|links| - 1];
      TargetsIn(links[..|links| - 1], u) + if last.0 == u then [last.1] else []
  }

  lemma {:induction false} TargetsInHolds(links: seq<(Id, Id)>, u: Id, v: Id)
    ensures v in TargetsIn(links, u) <==> (u, v) in links
  {
    if links == [] {
    } else {
      var front, last := links[..|links| - 1], links[|links| - 1];
      TargetsInHolds(front, u, v);
      assert links == front + [last];
    }
  }

  lemma {:induction false} NoTargetsIn(links: seq<(Id, Id)>, u: Id)
    requires forall l :: l in links ==> l.0 != u
    ensures TargetsIn(links, u) == []
  {
    if links == [] {
    } else {
      NoTargetsIn(links[..|links| - 1], u);
    }
  }

  lemma {:induction false} TargetsInJoin(links: seq<(Id, Id)>, more: seq<(Id, Id)>, u: Id)
    ensures TargetsIn(links + more, u) == TargetsIn(links, u) + TargetsIn(more, u)
  {
    if more == [] {
      assert links + more == links;
    } else {
      TargetsInJoin(links, more[..|more| - 1], u);
      assert (links + more)[..|links + more| - 1] == links + more[..|more| - 1];
    }
  }

  // Linking v to its targets adds exactly these, for v alone.
  lemma {:induction false} LinksToLead(v: Id, targets: seq<Id>, u: Id)
    ensures TargetsIn(LinksTo(v, targets), u) == if u == v then targets else []
  {
    if targets == [] {
    } else {
      LinksToLead(v, targets[..|targets| - 1], u);
      assert LinksTo(v, targets)[..|targets| - 1] == LinksTo(v, targets[..|targets| - 1]);
    }
  }

  lemma {:induction false} LinkedOn(links: seq<(Id, Id)>, v: Id, targets: seq<Id>, u: Id)
    ensures TargetsIn(links + LinksTo(v, targets), u) == TargetsIn(links, u) + if u == v then targets else []
  {
    TargetsInJoin(links, LinksTo(v, targets), u);
    LinksToLead(v, targets, u);
  }

  method LinkTargets(sources: map<Id, seq<Id>>, id: Id, targets: seq<Id>) returns (linked: map<Id, seq<Id>>)
    ensures linked == LinkAll(sources, id, targets)
  {
    linked := sources;
    var i := 0;
    while i < |targets|
      invariant 0 <= i <= |targets|
      invariant linked == LinkAll(sources, id, targets[..i])
    {
      var t := targets[i];
      assert targets[..i + 1][..i] == targets[..i];
      linked := linked[t := (if t in linked then linked[t] else []) + [id]];
      i := i + 1;
    }
    assert targets[..i] == targets;
  }

  // The approver lists hold exactly the vertices that declare the target.
  ghost predicate Matches(cache: map<Id, Vertex>, sources: map<Id, seq<Id>>) {
    forall u, v :: u in SourcesOf(sources, v) <==> u in cache && v in cache[u].targets
  }

  lemma {:induction false} GrowMatches(cache: map<Id, Vertex>, sources: map<Id, seq<Id>>, v: Vertex)
    requires Matches(cache, sources) && v.id !in cache
    ensures Matches(cache[v.id := v], LinkAll(sources, v.id, v.targets))
  {
    var sources' := LinkAll(sources, v.id, v.targets);
    forall u, t
      ensures u in SourcesOf(sources', t) <==> u in cache[v.id := v] && t in cache[v.id := v][u].targets
    {
      LinkAllSources(sources, v.id, v.targets, t);
      var was, now := SourcesOf(sources, t), SourcesOf(sources', t);
      assert u in was ==> u in now;
      assert t in v.targets ==> now[|was|] == v.id;
    }
  }

  // The place of every vertex in the order of addition.
  ghost predicate Places(order: seq<Id>, place: map<Id, nat>) {
    && (forall i :: 0 <= i < |order| ==> order[i] in place && place[order[i]] == i)
    && (forall v :: v in place ==> place[v] < |order| && order[place[v]] == v)
  }

  ghost predicate Later(place: map<Id, nat>, v: Id, s: Id) {
    v in place && s in place && place[v] < place[s]
  }

  // Approvers come after the vertices they approve.
  ghost predicate Linked(place: map<Id, nat>, sources: map<Id, seq<Id>>) {
    forall v, k {:trigger Later(place, v, SourcesOf(sources, v)[k])} ::
      0 <= k < |SourcesOf(sources, v)| ==> Later(place, v, SourcesOf(sources, v)[k])
  }

  lemma {:induction false} GrowLinked(order: seq<Id>, place: map<Id, nat>, sources: map<Id, seq<Id>>, id: Id,
          targets: seq<Id>)
    requires Places(order, place) && Linked(place, sources) && id !in place
    requires forall t :: t in targets ==> t in place
    ensures Places(order + [id], place[id := |order|])
    ensures Linked(place[id := |order|], LinkAll(sources, id, targets))
  {
    var sources' := LinkAll(sources, id, targets);
    forall v, k | 0 <= k < |SourcesOf(sources', v)|
      ensures Later(place[id := |order|], v, SourcesOf(sources', v)[k])
    {
      LinkAllSources(sources, id, targets, v);
      if k < |SourcesOf(sources, v)| {
        assert Later(place, v, SourcesOf(sources, v)[k]);
      }
    }
  }

  // --------------------------------------------------------------------- chains

  // A chain of approvals that ends at v, followed backwards: each number picks one
  // of the approvers of the vertex reached so far.
  predicate IsChain(sources: map<Id, seq<Id>>, v: Id, chain: seq<nat>)
    decreases |chain|
  {
    chain == [] ||
    (chain[0] < |SourcesOf(sources, v)| && IsChain(sources, SourcesOf(sources, v)[chain[0]], chain[1..]))
  }

  ghost function Prefixed(k: nat, chains: set<seq<nat>>): set<seq<nat>> {
    set c | c in chains :: [k] + c
  }

  // The chains that end at v and pick one of its first n approvers, if any.
  ghost function Chains(order: seq<Id>, place: map<Id, nat>, sources: map<Id, seq<Id>>, v: Id, n: nat): set<seq<nat>>
    requires Places(order, place) && Linked(place, sources) && v in place && n <= |SourcesOf(sources, v)|
    decreases |order| - place[v], n
  {
    if n == 0 then {[]}
    else
      var s := SourcesOf(sources, v)[n - 1];
      assert Later(place, v, s);
      Chains(order, place, sources, v, n - 1) +
      Prefixed(n - 1, Chains(order, place, sources, s, |SourcesOf(sources, s)|))
  }

  ghost function AllChains(order: seq<Id>, place: map<Id, nat>, sources: map<Id, seq<Id>>, v: Id): set<seq<nat>>
    requires Places(order, place) && Linked(place, sources) && v in place
  {
    Chains(order, place, sources, v, |SourcesOf(sources, v)|)
  }

  lemma {:induction false} EmptyChain(order: seq<Id>, place: map<Id, nat>, sources: map<Id, seq<Id>>, v: Id, n: nat)
    requires Places(order, place) && Linked(place, sources) && v in place && n <= |SourcesOf(sources, v)|
    ensures [] in Chains(order, place, sources, v, n)
  {
    if n == 0 {
    } else {
      EmptyChain(order, place, sources, v, n - 1);
    }
  }

  lemma {:induction false} ChainsStep(order: seq<Id>, place: map<Id, nat>, sources: map<Id, seq<Id>>, v: Id, n: nat,
          c: seq<nat>)
    requires Places(order, place) && Linked(place, sources) && v in place && n < |SourcesOf(sources, v)| && c != []
    ensures Later(place, v, SourcesOf(sources, v)[n])
    ensures c in Chains(order, place, sources, v, n + 1) <==>
      || c in Chains(order, place, sources, v, n)
      || (c[0] == n && c[1..] in AllChains(order, place, sources, SourcesOf(sources, v)[n]))
  {
    assert Later(place, v, SourcesOf(sources, v)[n]);
    PrefixedIff(n, AllChains(order, place, sources, SourcesOf(sources, v)[n]), c);
  }

  // The set holds exactly the chains.
  lemma {:induction false} ChainsAreChains(order: seq<Id>, place: map<Id, nat>, sources: map<Id, seq<Id>>,
                                           v: Id, n: nat, c: seq<nat>)
    requires Places(order, place) && Linked(place, sources) && v in place && n <= |SourcesOf(sources, v)|
    ensures c in Chains(order, place, sources, v, n) <==> (c == [] || c[0] < n) && IsChain(sources, v, c)
    decreases |order| - place[v], n
  {
    if c == [] {
      EmptyChain(order, place, sources, v, n);
    } else if n > 0 {
      ChainsStep(order, place, sources, v, n - 1, c);
      if c[0] == n - 1 {
        var s := SourcesOf(sources, v)[n - 1];
        ChainsAreChains(order, place, sources, s, |SourcesOf(sources, s)|, c[1..]);
        ChainTail(sources, v, c);
      }
      ChainsAreChains(order, place, sources, v, n - 1, c);
    }
  }

  lemma {:induction false} ChainTail(sources: map<Id, seq<Id>>, v: Id, c: seq<nat>)
    requires c != [] && c[0] < |SourcesOf(sources, v)|
    ensures var s := SourcesOf(sources, v)[c[0]];
      IsChain(sources, v, c) <==> IsChain(sources, s, c[1..]) && (c[1..] == [] || c[1..][0] < |SourcesOf(sources, s)|)
  {
  }

  lemma {:induction false} PrefixedIff(k: nat, chains: set<seq<nat>>, c: seq<nat>)
    requires c != []
    ensures c in Prefixed(k, chains) <==> c[0] == k && c[1..] in chains
  {
    if c in Prefixed(k, chains) {
      var d :| d in chains && c == [k] + d;
      assert c[1..] == d;
    }
    if c[0] == k && c[1..] in chains {
      assert c == [k] + c[1..];
    }
  }

  lemma {:induction false} PrefixedSize(k: nat, chains: set<seq<nat>>)
    ensures |Prefixed(k, chains)| == |chains|
  {
    if chains == {} {
    } else {
      var c :| c in chains;
      PrefixedSize(k, chains - {c});
      var rest := Prefixed(k, chains - {c});
      forall d | d in chains - {c} ensures [k] + d != [k] + c {
        assert ([k] + d)[1..] == d && ([k] + c)[1..] == c;
      }
      assert Prefixed(k, chains) == rest + {[k] + c};
    }
  }

  // One approver more brings exactly its own chains.
  lemma {:induction false} ChainsGrow(order: seq<Id>, place: map<Id, nat>, sources: map<Id, seq<Id>>, v: Id, k: nat)
    requires Places(order, place) && Linked(place, sources) && v in place && k < |SourcesOf(sources, v)|
    ensures Later(place, v, SourcesOf(sources, v)[k])
    ensures |Chains(order, place, sources, v, k + 1)| ==
      |Chains(order, place, sources, v, k)| + |AllChains(order, place, sources, SourcesOf(sources, v)[k])|
  {
    assert Later(place, v, SourcesOf(sources, v)[k]);
    var fewer, tails := Chains(order, place, sources, v, k), AllChains(order, place, sources, SourcesOf(sources, v)[k]);
    PrefixedSize(k, tails);
    forall c | c in Prefixed(k, tails) ensures c !in fewer {
      assert c[0] == k;
      ChainsAreChains(order, place, sources, v, k, c);
    }
    assert fewer !! Prefixed(k, tails);
  }

  // ----------------------------------------------------------- the backwards pass

  // The step, n times.
  ghost function Times(step: real, n: nat): real {
    if n == 0 then 0.0 else step + Times(step, n - 1)
  }

  lemma {:induction false} TimesIsProduct(step: real, n: nat)
    ensures Times(step, n) == step * n as real
  {
    if n == 0 {
      assert n as real == 0.0;
    } else {
      TimesIsProduct(step, n - 1);
      var m := (n - 1) as real;
      assert n as real == m + 1.0;
      assert step * (m + 1.0) == step * m + step;
    }
  }

  lemma {:induction false} TimesAdds(step: real, a: nat, b: nat)
    ensures Times(step, a + b) == Times(step, a) + Times(step, b)
  {
    if b == 0 {
    } else {
      TimesAdds(step, a, b - 1);
    }
  }

  ghost predicate Right(order: seq<Id>, place: map<Id, nat>, sources: map<Id, seq<Id>>, step: real,
                        weight: map<Id, real>, v: Id)
    requires Places(order, place) && Linked(place, sources) && v in place
  {
    v in weight && weight[v] == Times(step, |AllChains(order, place, sources, v)|)
  }

  ghost predicate RightFrom(order: seq<Id>, place: map<Id, nat>, sources: map<Id, seq<Id>>, step: real,
                            weight: map<Id, real>, i: nat)
    requires Places(order, place) && Linked(place, sources)
  {
    forall v {:trigger Right(order, place, sources, step, weight, v)} ::
      v in place && place[v] >= i ==> Right(order, place, sources, step, weight, v)
  }

  lemma {:induction false} SumGrows(order: seq<Id>, place: map<Id, nat>, sources: map<Id, seq<Id>>, step: real,
                 weight: map<Id, real>, v: Id, k: nat)
    requires Places(order, place) && Linked(place, sources) && v in place && k < |SourcesOf(sources, v)|
    requires RightFrom(order, place, sources, step, weight, place[v] + 1)
    ensures SourcesOf(sources, v)[k] in weight
    ensures Times(step, |Chains(order, place, sources, v, k + 1)|) ==
      Times(step, |Chains(order, place, sources, v, k)|) + weight[SourcesOf(sources, v)[k]]
  {
    ChainsGrow(order, place, sources, v, k);
    var s := SourcesOf(sources, v)[k];
    assert Right(order, place, sources, step, weight, s);
    TimesAdds(step, |Chains(order, place, sources, v, k)|, |AllChains(order, place, sources, s)|);
  }

  // The sum over the approvers of a vertex, once all later weights are right.
  method SumSources(order: seq<Id>, ghost place: map<Id, nat>, sources: map<Id, seq<Id>>, step: real,
                    weight: map<Id, real>, v: Id)
    returns (sum: real)
    requires Places(order, place) && Linked(place, sources) && v in place
    requires RightFrom(order, place, sources, step, weight, place[v] + 1)
    ensures sum + step == Times(step, |AllChains(order, place, sources, v)|)
  {
    var list, k := SourcesOf(sources, v), 0;
    sum := 0.0;
    assert Times(step, 1) == step + Times(step, 0);
    while k < |list|
      invariant 0 <= k <= |list|
      invariant sum + step == Times(step, |Chains(order, place, sources, v, k)|)
    {
      SumGrows(order, place, sources, step, weight, v, k);
      sum := sum + weight[list[k]];
      k := k + 1;
    }
  }

  lemma {:induction false} SetWeight(order: seq<Id>, place: map<Id, nat>, sources: map<Id, seq<Id>>, step: real,
                  weight: map<Id, real>, weight': map<Id, real>, v: Id, w: real)
    requires Places(order, place) && Linked(place, sources) && v in place && weight' == weight[v := w]
    requires RightFrom(order, place, sources, step, weight, place[v] + 1)
    requires w == Times(step, |AllChains(order, place, sources, v)|)
    ensures RightFrom(order, place, sources, step, weight', place[v])
  {
    forall u | u in place && place[u] >= place[v] ensures Right(order, place, sources, step, weight', u) {
      assert order[place[u]] == u && order[place[v]] == v;
      if u != v {
        assert Right(order, place, sources, step, weight, u);
      }
    }
  }

  // Every weight is the step times the number of chains that end at the vertex.
  ghost predicate CountsChains(order: seq<Id>, place: map<Id, nat>, sources: map<Id, seq<Id>>, step: real,
                               weight: map<Id, real>)
    requires Places(order, place) && Linked(place, sources)
  {
    forall v {:trigger AllChains(order, place, sources, v)} ::
      v in place ==> v in weight && weight[v] == step * |AllChains(order, place, sources, v)| as real
  }

  lemma {:induction false} RightCounts(order: seq<Id>, place: map<Id, nat>, sources: map<Id, seq<Id>>, step: real,
                    weight: map<Id, real>)
    requires Places(order, place) && Linked(place, sources) && RightFrom(order, place, sources, step, weight, 0)
    ensures CountsChains(order, place, sources, step, weight)
  {
    forall v | v in place
      ensures v in weight && weight[v] == step * |AllChains(order, place, sources, v)| as real
    {
      assert Right(order, place, sources, step, weight, v);
      TimesIsProduct(step, |AllChains(order, place, sources, v)|);
    }
  }

  // Whatever the weights were before, the pass makes them count the chains.
  method UpdateCumWeights(order: seq<Id>, ghost place: map<Id, nat>, sources: map<Id, seq<Id>>, step: real,
                          stale: map<Id, real>)
    returns (weight: map<Id, real>)
    requires Places(order, place) && Linked(place, sources)
    ensures CountsChains(order, place, sources, step, weight)
  {
    weight := stale;
    var i := |order|;
    while i > 0
      invariant 0 <= i <= |order|
      invariant RightFrom(order, place, sources, step, weight, i)
    {
      i := i - 1;
      var v := order[i];
      var sum := SumSources(order, place, sources, step, weight, v);
      SetWeight(order, place, sources, step, weight, weight[v := sum + step], v, sum + step);
      weight := weight[v := sum + step];
    }
    RightCounts(order, place, sources, step, weight);
  }
}

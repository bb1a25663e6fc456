/**
 Adding a transaction to the local DAG: choosing the tips it approves, linking it
 and counting the approvals (`dag/add.go`, `addToDag` in `dag/dag.go`).
 */
module LocalDag {
  import opened Sequences
  import opened Wrappers
  import opened Tips
  import opened Weights
  import Runs = TipsProofs
  import Money = Ledger

  // A vertex that does not approve u leaves u's list alone.
  lemma {:induction false} ApproveAllSkips(c: Counter, targets: seq<Id>, approver: Id, u: Id)
    requires u !in targets
    ensures var c' := ApproveAll(c, targets, approver);
      c'.cache == c.cache && (u in c.tips ==> u in c'.tips)
  {
    if targets == [] {
    } else {
      var front := targets[..|targets| - 1];
      assert u !in front && u != targets[|targets| - 1];
      ApproveAllSkips(c, front, approver, u);
    }
  }

  function Values(ids: seq<Option<Id>>): (r: seq<Id>)
    requires forall k :: 0 <= k < |ids| ==> ids[k].Some?
    ensures |r| == |ids| && forall k :: 0 <= k < |ids| ==> r[k] == ids[k].value
  {
    if ids == [] then [] else [ids[0].value] + Values(ids[1..])
  }

  // All links from the candidates to their targets.
  method CandidateLinks(cache: map<Id, Vertex>, candidates: seq<Id>) returns (links: seq<(Id, Id)>)
    requires forall v :: v in candidates ==> v in cache
    ensures forall l :: l in links <==> l.0 in candidates && l.1 in cache[l.0].targets
  {
    links := [];
    var i := 0;
    while i < |candidates|
      invariant 0 <= i <= |candidates|
      invariant forall l :: l in links <==> l.0 in candidates[..i] && l.1 in cache[l.0].targets
    {
      var v, j, before := candidates[i], 0, links;
      while j < |cache[v].targets|
        invariant 0 <= j <= |cache[v].targets|
        invariant forall l :: l in links <==> l in before || (l.0 == v && l.1 in cache[v].targets[..j])
      {
        links := links + [(v, cache[v].targets[j])];
        j := j + 1;
      }
      assert cache[v].targets[..j] == cache[v].targets;
      assert candidates[..i + 1] == candidates[..i] + [v];
      i := i + 1;
    }
    assert candidates[..i] == candidates;
  }

  // Order, approver lists and counter speak of the same vertices.
  ghost predicate Consistent(order: seq<Id>, place: map<Id, nat>, sources: map<Id, seq<Id>>, c: Counter) {
    && Places(order, place) && Linked(place, sources) && Matches(c.cache, sources)
    && place.Keys == c.cache.Keys && |order| == |c.cache|
    && |order| > 0 && order[0] == Runs.GENESIS
  }

  lemma {:induction false} GrowConsistent(order: seq<Id>, place: map<Id, nat>, sources: map<Id, seq<Id>>, c: Counter,
          v: Vertex)
    requires Consistent(order, place, sources, c) && v.id !in c.cache && forall t :: t in v.targets ==> t in c.cache
    ensures Consistent(order + [v.id], place[v.id := |order|], LinkAll(sources, v.id, v.targets), AddVertex(c, v))
  {
    GrowLinked(order, place, sources, v.id, v.targets);
    GrowMatches(c.cache, sources, v);
    NewVertexIsTip(c, v);
  }

  lemma {:induction false} GrowValid(d: Runs.Dag, order: seq<Id>, place: map<Id, nat>, sources: map<Id, seq<Id>>,
          v: Vertex)
    requires Consistent(order, place, sources, d.counter) && Runs.Inv(d)
    requires v.id !in d.counter.cache && Runs.MayApprove(d, v.targets)
    ensures var d' := Runs.Apply(d, Runs.Grow(v));
      && Consistent(order + [v.id], place[v.id := |order|], LinkAll(sources, v.id, v.targets), d'.counter)
      && Runs.Inv(d') && d'.counter.cache == d.counter.cache[v.id := v]
  {
    Runs.EnabledGrows(d, v);
    Runs.TargetsKnown(d, v);
    GrowConsistent(order, place, sources, d.counter, v);
    Runs.GrowKeepsInv(d, v);
    Runs.GrowKeepsShape(d, v);
  }

  // The links from a vertex are those to its targets, in order, unless a payment with the
  // same id was refused before; a refused payment leaves its links behind.
  ghost predicate LinksHold(links: seq<(Id, Id)>, cache: map<Id, Vertex>, refused: set<Id>) {
    && (forall u {:trigger LinkedAt(links, cache, refused, u)} :: u in cache ==> LinkedAt(links, cache, refused, u))
    && forall l :: l in links ==> l.0 in cache || l.0 in refused
  }

  ghost predicate LinkedAt(links: seq<(Id, Id)>, cache: map<Id, Vertex>, refused: set<Id>, u: Id) {
    && u in cache && (u !in refused ==> TargetsIn(links, u) == cache[u].targets)
    && forall v :: v in cache[u].targets ==> v in TargetsIn(links, u)
  }

  // A link is there for each target of a vertex and for nothing else.
  lemma {:induction false} LinksAreTargets(links: seq<(Id, Id)>, cache: map<Id, Vertex>, refused: set<Id>, u: Id, v: Id)
    requires LinksHold(links, cache, refused) && u in cache
    ensures v in cache[u].targets ==> (u, v) in links
    ensures u !in refused ==> ((u, v) in links <==> v in cache[u].targets)
    ensures u !in refused ==> |TargetsIn(links, u)| == |cache[u].targets|
  {
    assert LinkedAt(links, cache, refused, u);
    TargetsInHolds(links, u, v);
  }

  // The transaction is linked to what it may approve, whether it is accepted or not.
  ghost predicate Links(d: Runs.Dag, was: seq<(Id, Id)>, id: Id, targets: seq<Id>, now: seq<(Id, Id)>) {
    Runs.MayApprove(d, targets) && now == was + LinksTo(id, targets)
  }

  lemma {:induction false} LinksNew(links: seq<(Id, Id)>, cache: map<Id, Vertex>, refused: set<Id>, id: Id)
    requires LinksHold(links, cache, refused) && id !in cache && id !in refused
    ensures TargetsIn(links, id) == []
  {
    NoTargetsIn(links, id);
  }

  // A payment links its targets, and then is refused or counted.
  lemma {:induction false} RefusedLinks(links: seq<(Id, Id)>, cache: map<Id, Vertex>, refused: set<Id>, v: Vertex)
    requires LinksHold(links, cache, refused) && v.id !in cache
    ensures LinksHold(links + LinksTo(v.id, v.targets), cache, refused + {v.id})
  {
    var links', refused' := links + LinksTo(v.id, v.targets), refused + {v.id};
    forall u | u in cache ensures LinkedAt(links', cache, refused', u) {
      assert LinkedAt(links, cache, refused, u);
      LinkedOn(links, v.id, v.targets, u);
    }
  }

  lemma {:induction false} CountedLinks(links: seq<(Id, Id)>, cache: map<Id, Vertex>, refused: set<Id>, v: Vertex)
    requires LinksHold(links, cache, refused) && v.id !in cache
    ensures LinksHold(links + LinksTo(v.id, v.targets), cache[v.id := v], refused)
  {
    var links', cache' := links + LinksTo(v.id, v.targets), cache[v.id := v];
    forall u | u in cache' ensures LinkedAt(links', cache', refused, u) {
      LinkedOn(links, v.id, v.targets, u);
      if u == v.id {
        if u !in refused { LinksNew(links, cache, refused, u); }
      } else {
        assert LinkedAt(links, cache, refused, u);
      }
    }
  }

  lemma {:induction false} SomeTip(d: Runs.Dag)
    requires Runs.Inv(d)
    ensures |d.counter.tips| >= 1
  {
    Runs.OpenBounds(d.counter.tips);
  }

  // Either selection, on all current tips, makes a choice that may be approved.
  lemma {:induction false} TipsAreChoice(d: Runs.Dag, candidates: seq<Id>, chosen: seq<Option<Id>>)
    requires Runs.Inv(d) && Runs.Added(d) >= d.width && Distinct(candidates)
    requires forall t :: t in candidates <==> t in d.counter.tips && t in d.counter.cache
    requires AllFrom(chosen, candidates)
    requires |candidates| == 1 ==>
      chosen == if d.alg == Random then [Some(candidates[0])] else [Some(candidates[0]), Some(candidates[0])]
    requires |candidates| >= 2 ==> IsPair(chosen)
    ensures Runs.MayApprove(d, Values(chosen))
  {
    SomeTip(d);
    AllListed(d.counter.tips.Keys, candidates);
    var targets := Values(chosen);
    if |candidates| == 1 {
      assert candidates[0] in candidates;
      assert targets[0] == candidates[0];
      assert targets == if d.alg == Random then [targets[0]] else [targets[0], targets[0]];
    } else {
      assert targets[0] != targets[1];
      assert forall t :: t in targets ==> t in candidates;
    }
  }

  class Dag {
    const width: nat
    const alg: Algorithm
    const counter: ConfirmationCounter
    var order: seq<Id>
    var links: seq<(Id, Id)>
    var sources: map<Id, seq<Id>>
    var weight: map<Id, real>
    ghost var place: map<Id, nat>
    ghost var popped: multiset<Id>
    ghost var refused: set<Id>

    ghost function State(): Runs.Dag
      reads this, counter
    {
      Runs.Dag(width, alg, counter.State(), popped)
    }

    ghost predicate Grown()
      reads this, counter
    {
      Consistent(order, place, sources, counter.State()) && Runs.Inv(State())
    }

    ghost predicate Valid()
      reads this, counter
    {
      Grown() && LinksHold(links, counter.cache, refused)
    }

    // The configured width is cut to eight bits.
    constructor (initialWidth: nat, alg: Algorithm)
      ensures Valid() && State() == Runs.NewDag(initialWidth % 0x100, alg)
      ensures fresh(counter) && links == [] && refused == {}
    {
      this.width, this.alg := initialWidth % 0x100, alg;
      var c := new ConfirmationCounter();
      c.Add(Vertex(Runs.GENESIS, []));
      counter := c;
      order, links, sources, weight := [Runs.GENESIS], [], map[], map[];
      place, popped, refused := map[Runs.GENESIS := 0], multiset{}, {};
      new;
      Runs.NewDagInv(width, alg);
      Runs.NewDagCounter(width, alg);
      assert LinkedAt(links, counter.cache, refused, Runs.GENESIS);
    }

    // The vertices the next transaction approves: genesis while the star grows, then a
    // lone tip once or twice, or two different tips.
    method ChooseTips(approveTx: nat) returns (targets: seq<Id>)
      requires Grown()
      ensures Runs.MayApprove(State(), targets)
    {
      if |order| - 1 < width { return [order[0]]; }
      var candidates := counter.GetTips();
      SomeTip(State());
      AllListed(counter.tips.Keys, candidates);
      var candidateLinks := CandidateLinks(counter.cache, candidates);
      var tips, panicked;
      if alg != Random {
        tips, panicked := WeightedMcmc(alg, counter.tips, candidates, candidateLinks, sources, approveTx);
        assert !panicked;
      } else {
        tips := RandomPair(candidates);
      }
      TipsAreChoice(State(), candidates, tips);
      targets := Values(tips);
    }

    // The links are there before the payment is accepted.
    method ChooseAndLink(id: Id, approveTx: nat) returns (targets: seq<Id>)
      requires Valid() && id !in counter.cache
      modifies this`links
      ensures Grown() && State() == old(State()) && Runs.MayApprove(State(), targets)
      ensures links == old(links) + LinksTo(id, targets)
      ensures LinksHold(links, counter.cache, refused + {id})
      ensures LinksHold(links, counter.cache[id := Vertex(id, targets)], refused)
    {
      targets := ChooseTips(approveTx);
      RefusedLinks(links, counter.cache, refused, Vertex(id, targets));
      CountedLinks(links, counter.cache, refused, Vertex(id, targets));
      links := links + LinksTo(id, targets);
    }

    method AddToDag(v: Vertex)
      requires Grown() && v.id !in counter.cache && Runs.MayApprove(State(), v.targets)
      modifies this`order, this`sources, this`place, counter
      ensures Grown() && State() == Runs.Apply(old(State()), Runs.Grow(v)) && order == old(order) + [v.id]
      ensures counter.cache == old(counter.cache)[v.id := v]
    {
      ghost var d := State();
      GrowValid(d, order, place, sources, v);
      sources := LinkTargets(sources, v.id, v.targets);
      place := place[v.id := |order|];
      order := order + [v.id];
      counter.Add(v);
      assert State() == Runs.Apply(d, Runs.Grow(v));
    }

    method Settle(v: Vertex, ok: bool)
      requires Grown() && v.id !in counter.cache && Runs.MayApprove(State(), v.targets)
      requires LinksHold(links, counter.cache, refused + {v.id})
      requires LinksHold(links, counter.cache[v.id := v], refused)
      modifies this`order, this`sources, this`place, this`refused, counter
      ensures Valid()
      ensures State() == if ok then Runs.Apply(old(State()), Runs.Grow(v)) else old(State())
      ensures order == if ok then old(order) + [v.id] else old(order)
      ensures refused == if ok then old(refused) else old(refused) + {v.id}
    {
      if ok {
        AddToDag(v);
      } else {
        refused := refused + {v.id};
      }
    }

    method AddPayment(id: Id, payment: Money.Payment, pins: Money.NodeTxPin, cache: Money.WalletCache,
                      approveTx: nat) returns (approved: seq<Id>, ok: bool)
      requires Valid() && id !in counter.cache
      modifies this`links, this`order, this`sources, this`place, this`refused, counter, cache
      ensures Valid()
      ensures (Money.State(cache.cache, pins.pins), ok) == Money.Pay(old(Money.State(cache.cache, pins.pins)), payment)
      ensures ok ==>
        && State() == Runs.Apply(old(State()), Runs.Grow(Vertex(id, approved))) && order == old(order) + [id]
        && Runs.MayApprove(old(State()), approved)
      ensures !ok ==> State() == old(State()) && order == old(order) && approved == []
      ensures refused == if ok then old(refused) else old(refused) + {id}
      ensures exists targets ::
        Links(old(State()), old(links), id, targets, links) && (ok ==> approved == targets)
    {
      var targets := ChooseAndLink(id, approveTx);
      ok := cache.UpdateBalanceIfValid(pins, payment);
      assert Links(old(State()), old(links), id, targets, links);
      Settle(Vertex(id, targets), ok);
      approved := if ok then targets else [];
    }

    // A payment that the ledger accepts is added with the chosen targets; any other
    // transaction leaves DAG and counter as they are. (A refused payment does leave
    // its links behind.) Under mcmc+ the weights are brought up to date.
    method AddTxDag(id: Id, payment: Option<Money.Payment>, pins: Money.NodeTxPin, cache: Money.WalletCache,
                    approveTx: nat, step: real) returns (approved: seq<Id>, ok: bool)
      requires Valid() && id !in counter.cache
      modifies this, counter, cache
      ensures Valid()
      ensures var ledger := old(Money.State(cache.cache, pins.pins));
        match payment
        case None => ok && Money.State(cache.cache, pins.pins) == ledger
        case Some(p) => (Money.State(cache.cache, pins.pins), ok) == Money.Pay(ledger, p)
      ensures payment.Some? && ok ==>
        && State() == Runs.Apply(old(State()), Runs.Grow(Vertex(id, approved))) && order == old(order) + [id]
        && Runs.MayApprove(old(State()), approved)
      ensures payment.None? || !ok ==> State() == old(State()) && order == old(order) && approved == []
      ensures refused == if ok then old(refused) else old(refused) + {id}
      ensures payment.None? ==> links == old(links)
      ensures payment.Some? ==> exists targets ::
        Links(old(State()), old(links), id, targets, links) && (ok ==> approved == targets)
      ensures alg == McmcPlus && ok ==> CountsChains(order, place, sources, step, weight)
      ensures alg != McmcPlus || !ok ==> weight == old(weight)
    {
      approved, ok := [], true;
      if payment.Some? {
        approved, ok := AddPayment(id, payment.value, pins, cache, approveTx);
        if !ok { return; }
      }
      if alg == McmcPlus {
        weight := UpdateCumWeights(order, place, sources, step, weight);
      }
    }

    // The confirmed vertices, handed to a new pin: each of them once, and none is nil.
    method GetConfirmedSites() returns (ids: seq<Id>, nodes: seq<Option<Vertex>>)
      requires Valid()
      modifies this`popped, counter
      ensures Valid() && State() == Runs.Apply(old(State()), Runs.Pop)
      ensures multiset(ids) == multiset(old(counter.confirmed)) && popped == old(popped) + multiset(ids)
      ensures |nodes| == |ids|
      ensures forall i :: 0 <= i < |ids| ==> ids[i] in counter.cache && nodes[i] == Some(counter.cache[ids[i]])
    {
      Runs.PopKeepsInv(State());
      ids, nodes := counter.Pop();
      popped := popped + multiset(ids);
      assert forall i :: 0 <= i < |ids| ==> ids[i] in multiset(ids);
    }
  }

  lemma {:induction false} NewVertexIsTip(c: Counter, v: Vertex)
    requires v.id !in v.targets
    ensures var c' := AddVertex(c, v); v.id in c'.tips && c'.cache == c.cache[v.id := v]
  {
    ApproveAllSkips(Enter(c, v), v.targets, v.id, v.id);
  }

  lemma {:induction false} AllListed(tips: set<Id>, candidates: seq<Id>)
    requires Distinct(candidates) && forall t :: t in tips <==> t in candidates
    ensures |candidates| == |tips|
    decreases |candidates|
  {
    if candidates == [] {
      assert tips == {};
    } else {
      AllListed(tips - {candidates[0]}, candidates[1..]);
    }
  }
}

/**
 Tip selection and confirmation counting: the counter of `dag/confirmation.go`, the
 tip choice of `dag/add.go` and `dag/weights.go`, and the DAG they grow.
 */
module Tips {
  import opened Sequences
  import opened Wrappers

  type Id = nat

  datatype Vertex = Vertex(id: Id, targets: seq<Id>)

  // Per tip the list of its own id and its approvers' ids.
  datatype Counter = Counter(tips: map<Id, seq<Id>>, cache: map<Id, Vertex>, confirmed: set<Id>)

  const NO_VERTICES := Counter(map[], map[], {})

  // Two approvals besides its own entry take a vertex from the tips to the confirmed.
  function Approve(c: Counter, t: Id, approver: Id): Counter {
    var list := (if t in c.tips then c.tips[t] else []) + [approver];
    if |list| > 2 then c.(tips := c.tips - {t}, confirmed := c.confirmed + {t})
    else c.(tips := c.tips[t := list])
  }

  function ApproveAll(c: Counter, targets: seq<Id>, approver: Id): Counter {
    if targets == [] then c
    else Approve(ApproveAll(c, targets[..|targets| - 1], approver), targets[|targets| - 1], approver)
  }

  function Enter(c: Counter, v: Vertex): Counter {
    c.(cache := c.cache[v.id := v], tips := c.tips[v.id := [v.id]])
  }

  function AddVertex(c: Counter, v: Vertex): Counter {
    ApproveAll(Enter(c, v), v.targets, v.id)
  }

  lemma {:induction false} ApproveAllCache(c: Counter, targets: seq<Id>, approver: Id)
    ensures ApproveAll(c, targets, approver).cache == c.cache
  {
    if targets == [] {
    } else {
      ApproveAllCache(c, targets[..|targets| - 1], approver);
    }
  }

  class ConfirmationCounter {
    var tips: map<Id, seq<Id>>
    var cache: map<Id, Vertex>
    var confirmed: set<Id>

    ghost function State(): Counter
      reads this
    {
      Counter(tips, cache, confirmed)
    }

    constructor ()
      ensures State() == NO_VERTICES
    {
      tips, cache, confirmed := map[], map[], {};
    }

    method IsTip(id: Id) returns (b: bool)
      ensures b == (id in State().tips)
    {
      b := id in tips;
    }

    method Add(v: Vertex)
      modifies this
      ensures State() == AddVertex(old(State()), v)
    {
      cache := cache[v.id := v];
      tips := tips[v.id := [v.id]];
      ghost var entered := State();
      var i := 0;
      while i < |v.targets|
        invariant 0 <= i <= |v.targets|
        invariant State() == ApproveAll(entered, v.targets[..i], v.id)
      {
        assert v.targets[..i + 1][..i] == v.targets[..i];
        CountApproval(v.targets[i], v.id);
        i := i + 1;
      }
      assert v.targets[..i] == v.targets;
    }

    method CountApproval(t: Id, approver: Id)
      modifies this
      ensures State() == Approve(old(State()), t, approver)
    {
      tips := tips[t := (if t in tips then tips[t] else []) + [approver]];
      if |tips[t]| > 2 {
        confirmed := confirmed + {t};
        tips := tips - {t};
        assert tips == old(tips) - {t};
      }
    }

    // Hands out the confirmed vertices, one each, and forgets them; None stands for
    // a vertex the cache has lost.
    method Pop() returns (ids: seq<Id>, nodes: seq<Option<Vertex>>)
      modifies this
      ensures State() == old(State()).(confirmed := {})
      ensures multiset(ids) == multiset(old(confirmed)) && |nodes| == |ids|
      ensures forall i :: 0 <= i < |ids| ==> nodes[i] == if ids[i] in cache then Some(cache[ids[i]]) else None
    {
      ids, nodes := [], [];
      var rest := confirmed;
      while rest != {}
        invariant rest <= confirmed && State() == old(State()) && |nodes| == |ids|
        invariant multiset(ids) + multiset(rest) == multiset(confirmed)
        invariant forall i :: 0 <= i < |ids| ==> nodes[i] == if ids[i] in cache then Some(cache[ids[i]]) else None
        decreases rest
      {
        var id :| id in rest;
        assert multiset(rest) == multiset(rest - {id}) + multiset{id};
        ids := ids + [id];
        nodes := nodes + [if id in cache then Some(cache[id]) else None];
        rest := rest - {id};
      }
      confirmed := {};
    }

    method GetTips() returns (ids: seq<Id>)
      ensures forall id :: id in ids <==> id in tips && id in cache
      ensures forall i, j :: 0 <= i < j < |ids| ==> ids[i] != ids[j]
    {
      ids := [];
      var rest := tips.Keys;
      while rest != {}
        invariant rest <= tips.Keys
        invariant forall id :: id in ids <==> id in tips.Keys - rest && id in cache
        invariant forall i, j :: 0 <= i < j < |ids| ==> ids[i] != ids[j]
        decreases rest
      {
        var id :| id in rest;
        if id in cache { ids := ids + [id]; }
        rest := rest - {id};
      }
    }
  }

  // -------------------------------------------------------------- tip selection

  predicate IsNodeTip(tips: map<Id, seq<Id>>, links: seq<(Id, Id)>, id: Id) {
    links == [] || id in tips
  }

  function SourcesByLinks(links: seq<(Id, Id)>, id: Id): seq<Id> {
    if links == [] then []
    else (if links[0].1 == id then [links[0].0] else []) + SourcesByLinks(links[1..], id)
  }

  // The approvers a vertex knows of; without any, those the links know of.
  function Approvers(sources: map<Id, seq<Id>>, links: seq<(Id, Id)>, id: Id): seq<Id> {
    if id in sources && sources[id] != [] then sources[id] else SourcesByLinks(links, id)
  }

  lemma {:induction false} LinksName(links: seq<(Id, Id)>, id: Id, a: Id)
    ensures a in SourcesByLinks(links, id) <==> (a, id) in links
  {
    if links == [] {
    } else {
      LinksName(links[1..], id, a);
      assert links == [links[0]] + links[1..];
    }
  }

  lemma {:induction false} ApproversAre(sources: map<Id, seq<Id>>, links: seq<(Id, Id)>, id: Id, a: Id)
    ensures var known := id in sources && sources[id] != [];
      a in Approvers(sources, links, id) <==> if known then a in sources[id] else (a, id) in links
  {
    LinksName(links, id, a);
  }

  // The configured algorithm; any other name has no sampler.
  datatype Algorithm = McmcPlus | McmcPlusPlus | Random | Unknown

  // Two of the samplers draw from an empty list of approvers, and panic.
  predicate Strict(alg: Algorithm) {
    alg.McmcPlusPlus? || alg.Random?
  }

  // One step of a walk: to some approver, or nowhere when there is none or no sampler.
  predicate MayStep(alg: Algorithm, sources: map<Id, seq<Id>>, links: seq<(Id, Id)>, a: Id, b: Id) {
    var approvers := Approvers(sources, links, a);
    if approvers == [] || alg == Unknown then a == b else b in approvers
  }

  ghost predicate IsWalk(alg: Algorithm, sources: map<Id, seq<Id>>, links: seq<(Id, Id)>, start: Id, path: seq<Id>) {
    && path != [] && path[0] == start
    && forall i, j {:trigger MayStep(alg, sources, links, path[i], path[j])} ::
      0 <= i && j == i + 1 < |path| ==> MayStep(alg, sources, links, path[i], path[j])
  }

  // No vertex of the path but the last is a tip.
  ghost predicate PassesNoTip(tips: map<Id, seq<Id>>, links: seq<(Id, Id)>, path: seq<Id>) {
    forall i :: 0 <= i < |path| - 1 ==> !IsNodeTip(tips, links, path[i])
  }

  // The steps after which a walk gives up: a round of as many steps as there are links for
  // every approval limit up to 3, but at least one step.
  function Patience(links: nat, approveTx: nat): nat {
    if approveTx > 3 then 1 else Rounds(4 - approveTx, links)
  }

  function Rounds(n: nat, links: nat): nat {
    if n == 0 then 0 else links + Rounds(n - 1, links)
  }

  // A walk on its way to the tips.
  ghost predicate OnWay(alg: Algorithm, tips: map<Id, seq<Id>>, sources: map<Id, seq<Id>>, selection: seq<(Id, Id)>,
                        links: seq<(Id, Id)>, start: Id, path: seq<Id>, at: Id) {
    IsWalk(alg, sources, selection, start, path) && PassesNoTip(tips, links, path) && path[|path| - 1] == at
  }

  lemma {:induction false} WalkOn(alg: Algorithm, tips: map<Id, seq<Id>>, sources: map<Id, seq<Id>>,
          selection: seq<(Id, Id)>, links: seq<(Id, Id)>, start: Id, path: seq<Id>, at: Id, next: Id)
    requires OnWay(alg, tips, sources, selection, links, start, path, at)
    requires !IsNodeTip(tips, links, at) && MayStep(alg, sources, selection, at, next)
    ensures OnWay(alg, tips, sources, selection, links, start, path + [next], next)
  {
    var path' := path + [next];
    forall i, j | 0 <= i && j == i + 1 < |path'| ensures MayStep(alg, sources, selection, path'[i], path'[j]) {
      if j < |path| { assert MayStep(alg, sources, selection, path[i], path[j]); }
    }
  }

  // How a walk ends: at the first tip, or after as many steps as it has patience for, or
  // with a panic where there is no approver.
  ghost predicate Ends(alg: Algorithm, tips: map<Id, seq<Id>>, sources: map<Id, seq<Id>>, selection: seq<(Id, Id)>,
                       links: seq<(Id, Id)>, patience: nat, steps: int, at: Id, particle: Option<Id>, panicked: bool)
  {
    if particle.Some? then particle.value == at && IsNodeTip(tips, links, at) && !panicked
    else if panicked then Strict(alg) && !IsNodeTip(tips, links, at) && Approvers(sources, selection, at) == []
    else steps == patience
  }

  // The steps left with a limit and a count.
  function Left(links: nat, limit: nat, count: nat): nat {
    if limit > 3 then 1 else count + Rounds(3 - limit, links)
  }

  lemma {:induction false} OneStepLess(links: nat, limit: nat, count: nat)
    requires limit > 3 || count > 0
    ensures limit <= 3 && count > 1 ==> Left(links, limit, count - 1) == Left(links, limit, count) - 1
    ensures limit <= 2 && count == 1 ==> Left(links, limit + 1, links) == Left(links, limit, count) - 1
    ensures limit > 3 || (limit == 3 && count == 1) ==> Left(links, limit, count) == 1
  {
  }

  // Some walk from the start ends like this.
  ghost predicate Walked(alg: Algorithm, tips: map<Id, seq<Id>>, sources: map<Id, seq<Id>>, selection: seq<(Id, Id)>,
                         links: seq<(Id, Id)>, patience: nat, start: Id, particle: Option<Id>, panicked: bool)
  {
    exists path, at ::
      && OnWay(alg, tips, sources, selection, links, start, path, at)
      && Ends(alg, tips, sources, selection, links, patience, |path| - 1, at, particle, panicked)
  }

  // The sampler's choice among the approvers.
  method WeightedSelect(alg: Algorithm, approvers: seq<Id>) returns (chosen: Option<Id>, panicked: bool)
    ensures panicked <==> approvers == [] && (alg == McmcPlusPlus || alg == Random)
    ensures chosen.None? <==> approvers == [] || alg == Unknown
    ensures chosen.Some? ==> chosen.value in approvers
  {
    if alg == Unknown { return None, false; }
    if approvers == [] { return None, Strict(alg); }
    var i: nat :| i < |approvers|;
    return Some(approvers[i]), false;
  }

  method WalkStep(alg: Algorithm, tips: map<Id, seq<Id>>, sources: map<Id, seq<Id>>, selection: seq<(Id, Id)>,
                  links: seq<(Id, Id)>, ghost start: Id, ghost path: seq<Id>, at: Id)
    returns (next: Id, panicked: bool)
    requires OnWay(alg, tips, sources, selection, links, start, path, at) && !IsNodeTip(tips, links, at)
    ensures panicked <==> Strict(alg) && Approvers(sources, selection, at) == []
    ensures !panicked ==> OnWay(alg, tips, sources, selection, links, start, path + [next], next)
  {
    var chosen;
    chosen, panicked := WeightedSelect(alg, Approvers(sources, selection, at));
    next := if chosen.Some? then chosen.value else at;
    if !panicked { WalkOn(alg, tips, sources, selection, links, start, path, at, next); }
  }

  // A walk towards the tips, every step to an approver of the sampler's choice; it
  // gives up after the approval limit has been raised past 3.
  method WeightedRandomWalk(alg: Algorithm, tips: map<Id, seq<Id>>, sources: map<Id, seq<Id>>,
                            linkSelection: seq<(Id, Id)>, links: seq<(Id, Id)>, start: Id, approveTx: nat)
    returns (particle: Option<Id>, panicked: bool)
    ensures Walked(alg, tips, sources, linkSelection, links, Patience(|links|, approveTx), start, particle, panicked)
    ensures particle.Some? ==> links == [] || particle.value in tips
    ensures links == [] || start in tips ==> particle == Some(start)
    ensures panicked ==> particle.None? && (alg == McmcPlusPlus || alg == Random)
  {
    var at, limit, count := start, approveTx, |links|;
    ghost var path, patience := [start], Patience(|links|, approveTx);
    while !IsNodeTip(tips, links, at)
      invariant 0 <= count <= |links| && (links != [] ==> count > 0)
      invariant IsNodeTip(tips, links, start) ==> at == start
      invariant OnWay(alg, tips, sources, linkSelection, links, start, path, at)
      invariant |path| - 1 + Left(|links|, limit, count) == patience
      decreases if limit > 3 then 0 else 4 - limit, count
    {
      var next;
      next, panicked := WalkStep(alg, tips, sources, linkSelection, links, start, path, at);
      if panicked { return None, true; }
      OneStepLess(|links|, limit, count);
      at, path := next, path + [next];
      count := count - 1;
      if count == 0 { count, limit := |links|, limit + 1; }
      if limit > 3 { return None, false; }
    }
    return Some(at), false;
  }

  function Without(ids: seq<Id>, id: Id): seq<Id> {
    if ids == [] then [] else if ids[0] == id then ids[1..] else [ids[0]] + Without(ids[1..], id)
  }

  lemma {:induction false} WithoutKeeps(ids: seq<Id>, id: Id)
    ensures |Without(ids, id)| >= |ids| - 1
    ensures forall k :: k in Without(ids, id) ==> k in ids
    ensures Distinct(ids) ==> forall k :: k in Without(ids, id) <==> k in ids && k != id
  {
    if ids == [] {
    } else {
      assert forall k :: k in ids <==> k == ids[0] || k in ids[1..];
      WithoutKeeps(ids[1..], id);
    }
  }

  // The links that do not start at the given vertex.
  method DropLinksFrom(links: seq<(Id, Id)>, source: Id) returns (kept: seq<(Id, Id)>)
    ensures forall l :: l in kept <==> l in links && l.0 != source
  {
    kept := [];
    var i := 0;
    while i < |links|
      invariant 0 <= i <= |links|
      invariant forall l :: l in kept <==> l in links[..i] && l.0 != source
    {
      if links[i].0 != source { kept := kept + [links[i]]; }
      i := i + 1;
    }
    assert links[..i] == links;
  }

  // Two different vertices, both found.
  predicate IsPair(ids: seq<Option<Id>>) {
    |ids| == 2 && ids[0].Some? && ids[1].Some? && ids[0] != ids[1]
  }

  predicate AllTips(tips: map<Id, seq<Id>>, ids: seq<Id>) {
    forall id :: id in ids ==> id in tips
  }

  predicate AllFrom(chosen: seq<Option<Id>>, ids: seq<Id>) {
    forall k :: 0 <= k < |chosen| ==> chosen[k].Some? && chosen[k].value in ids
  }

  // Chooses the vertices a new one will approve. From current tips it chooses only
  // current tips, without a panic: a lone one twice, from more two different ones.
  method WeightedMcmc(alg: Algorithm, tips: map<Id, seq<Id>>, candidates: seq<Id>, links: seq<(Id, Id)>,
                      sources: map<Id, seq<Id>>, approveTx: nat)
    returns (chosen: seq<Option<Id>>, panicked: bool)
    ensures candidates == [] ==> chosen == [] && !panicked
    ensures panicked ==> Strict(alg)
    ensures candidates != [] && AllTips(tips, candidates) ==>
      !panicked && chosen != [] && AllFrom(chosen, candidates)
    ensures |candidates| != 2 ==> forall k :: 0 <= k < |chosen| && chosen[k].Some? ==>
      links == [] || chosen[k].value in tips
    ensures |candidates| == 1 && AllTips(tips, candidates) ==> chosen == [Some(candidates[0]), Some(candidates[0])]
    ensures |candidates| >= 2 && Distinct(candidates) && AllTips(tips, candidates) ==> IsPair(chosen)
  {
    panicked := false;
    if |candidates| == 0 { return [], false; }
    if |candidates| == 2 { return [Some(candidates[0]), Some(candidates[1])], false; }
    var selection, linkSelection := candidates, links;
    assert selection[0] in selection;
    var first :| first in selection;
    var tip1, tip2;
    tip1, panicked := WeightedRandomWalk(alg, tips, sources, links, links, first, approveTx);
    if panicked { return [], true; }
    if tip1.Some? && |selection| > 1 {
      WithoutKeeps(selection, tip1.value);
      selection := Without(selection, tip1.value);
      linkSelection := DropLinksFrom(linkSelection, tip1.value);
    }
    assert selection[0] in selection;
    var second :| second in selection;
    tip2, panicked := WeightedRandomWalk(alg, tips, sources, linkSelection, links, second, approveTx);
    if panicked { return [], true; }
    if tip1.None? && tip2.None? { return [], false; }
    if tip2.None? { return [tip1], false; }
    return [tip1, tip2], false;
  }

  // The plain random choice: a lone candidate once; otherwise the second draw is
  // repeated until it differs.
  method RandomPair(candidates: seq<Id>) returns (chosen: seq<Option<Id>>)
    requires candidates != []
    ensures chosen != [] && AllFrom(chosen, candidates)
    ensures |candidates| == 1 ==> chosen == [Some(candidates[0])]
    ensures |candidates| >= 2 && Distinct(candidates) ==> IsPair(chosen)
  {
    var c1: nat :| c1 < |candidates|;
    chosen := [Some(candidates[c1])];
    if |candidates| > 1 {
      var others := candidates[..c1] + candidates[c1 + 1..];
      assert others[0] in others;
      var second :| second in others;
      chosen := chosen + [Some(second)];
    }
  }
}

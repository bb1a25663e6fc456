/**
 Topological sorting of DAG vertices (`topologicalSort` in `dag/utils.go`). The lists
 of link targets are kept per major number, so the sort follows the links of every
 vertex that shares its major number.
 */
module TopoSort {
  import opened Sequences
  import opened Wrappers

  type Id = nat
  type Link = (Id, Id)

  // t is a target of a vertex with the same major number as v.
  predicate Child(major: map<Id, nat>, links: seq<Link>, v: Id, t: Id) {
    exists k :: 0 <= k < |links| && SameMajor(major, links[k].0, v) && links[k].1 == t
  }

  predicate SameMajor(major: map<Id, nat>, u: Id, v: Id) {
    u in major && v in major && major[u] == major[v]
  }

  // A walk along the children, through the nodes to be sorted.
  ghost predicate IsWalk(major: map<Id, nat>, links: seq<Link>, nodes: seq<Id>, walk: seq<Id>) {
    && (forall i :: 0 <= i < |walk| ==> walk[i] in nodes)
    && (forall i, j :: 0 <= i && j == i + 1 < |walk| ==> Child(major, links, walk[i], walk[j]))
  }

  ghost predicate Acyclic(major: map<Id, nat>, links: seq<Link>, nodes: seq<Id>) {
    forall walk :: IsWalk(major, links, nodes, walk) && |walk| >= 2 ==> walk[0] != walk[|walk| - 1]
  }

  // Every sorted node comes after its children.
  ghost predicate ChildrenFirst(major: map<Id, nat>, links: seq<Link>, nodes: seq<Id>, result: seq<Id>) {
    forall i: nat {:trigger ReadyAt(major, links, nodes, result, i)} ::
      i < |result| ==> ReadyAt(major, links, nodes, result, i)
  }

  ghost predicate ReadyAt(major: map<Id, nat>, links: seq<Link>, nodes: seq<Id>, result: seq<Id>, i: nat)
    requires i < |result|
  {
    forall t :: t in nodes && Child(major, links, result[i], t) ==> t in result[..i]
  }

  // The targets of all links, listed under the major number of the source.
  method GetTargetLists(major: map<Id, nat>, links: seq<Link>) returns (lists: map<nat, seq<Id>>)
    requires forall k :: 0 <= k < |links| ==> links[k].0 in major
    ensures ListsOf(major, links, lists)
  {
    lists := map[];
    var i := 0;
    while i < |links|
      invariant 0 <= i <= |links|
      invariant ListsOf(major, links[..i], lists)
    {
      var m, before := major[links[i].0], lists;
      lists := lists[m := (if m in lists then lists[m] else []) + [links[i].1]];
      ListsGrow(major, links[..i], links[i], before, lists);
      assert links[..i + 1] == links[..i] + [links[i]];
      i := i + 1;
    }
    assert links[..i] == links;
  }

  lemma {:induction false} ListsGrow(major: map<Id, nat>, links: seq<Link>, l: Link, lists: map<nat, seq<Id>>,
          lists': map<nat, seq<Id>>)
    requires l.0 in major && ListsOf(major, links, lists)
    requires lists' == lists[major[l.0] := TargetsOf(major, lists, l.0) + [l.1]]
    ensures ListsOf(major, links + [l], lists')
  {
    var links' := links + [l];
    forall v ensures ListsAt(major, links', lists', v) {
      assert ListsAt(major, links, lists, v);
      forall t ensures t in TargetsOf(major, lists', v) <==> Child(major, links', v, t) {
        ChildSnoc(major, links, l, v, t);
      }
    }
  }

  lemma {:induction false} ChildSnoc(major: map<Id, nat>, links: seq<Link>, l: Link, v: Id, t: Id)
    ensures Child(major, links + [l], v, t) <==>
      Child(major, links, v, t) || (SameMajor(major, l.0, v) && l.1 == t)
  {
    var all := links + [l];
    if Child(major, links, v, t) {
      var k :| 0 <= k < |links| && SameMajor(major, links[k].0, v) && links[k].1 == t;
      assert all[k] == links[k];
    }
    assert all[|links|] == l;
  }

  lemma {:induction false} WalkStep(major: map<Id, nat>, links: seq<Link>, nodes: seq<Id>, path: seq<Id>, v: Id)
    requires IsWalk(major, links, nodes, path) && v in nodes && Acyclic(major, links, nodes)
    requires path != [] ==> Child(major, links, path[|path| - 1], v)
    ensures IsWalk(major, links, nodes, path + [v]) && v !in path
  {
    forall i | 0 <= i < |path| ensures path[i] != v {
      var end := path[i..] + [v];
      assert IsWalk(major, links, nodes, end);
      assert end[0] == path[i] && end[|end| - 1] == v;
    }
  }

  // ------------------------------------------------------------------- the visits

  datatype State = State(unvisited: seq<Id>, result: seq<Id>)

  function Remove(s: seq<Id>, v: Id): seq<Id> {
    if s == [] then [] else if s[0] == v then s[1..] else [s[0]] + Remove(s[1..], v)
  }

  lemma {:induction false} RemoveAt(s: seq<Id>, i: nat)
    requires i < |s| && s[i] !in s[..i]
    ensures Remove(s, s[i]) == s[..i] + s[i + 1..]
  {
    if i == 0 {
    } else {
      assert s[i] == s[1..][i - 1] && s[1..][..i - 1] == s[1..i];
      assert s[..i] == [s[0]] + s[1..i];
      RemoveAt(s[1..], i - 1);
    }
  }

  function TargetsOf(major: map<Id, nat>, lists: map<nat, seq<Id>>, v: Id): seq<Id> {
    if v in major && major[v] in lists then lists[major[v]] else []
  }

  function Done(s: State, v: Id): State {
    if v in s.unvisited then State(Remove(s.unvisited, v), s.result + [v]) else s
  }

  // The visit of one node, cut off (None) where calls would nest deeper than depth.
  function Visited(depth: nat, major: map<Id, nat>, lists: map<nat, seq<Id>>, v: Id, s: State): Option<State>
    decreases depth, 0, 0
  {
    if v !in s.unvisited then Some(s)
    else if depth == 0 then None
    else
      match VisitedAll(depth - 1, major, lists, TargetsOf(major, lists, v), s)
      case None => None
      case Some(s') => Some(Done(s', v))
  }

  function VisitedAll(depth: nat, major: map<Id, nat>, lists: map<nat, seq<Id>>, ts: seq<Id>, s: State): Option<State>
    decreases depth, 1, |ts|
  {
    if ts == [] then Some(s)
    else
      match VisitedAll(depth, major, lists, ts[..|ts| - 1], s)
      case None => None
      case Some(s') => Visited(depth, major, lists, ts[|ts| - 1], s')
  }

  // The whole sort, cut off after so many rounds.
  function Sorted(depth: nat, rounds: nat, major: map<Id, nat>, lists: map<nat, seq<Id>>, s: State): Option<seq<Id>> {
    if s.unvisited == [] then Some(s.result)
    else if rounds == 0 then None
    else
      match Visited(depth, major, lists, s.unvisited[|s.unvisited| - 1], s)
      case None => None
      case Some(s') => Sorted(depth, rounds - 1, major, lists, s')
  }

  // ------------------------------------------------ a cycle is never sorted to an end

  // A set of nodes each of which has a child in the set.
  ghost predicate Trap(major: map<Id, nat>, lists: map<nat, seq<Id>>, c: set<Id>) {
    forall v {:trigger HasChild(major, lists, c, v)} :: v in c ==> HasChild(major, lists, c, v)
  }

  ghost predicate HasChild(major: map<Id, nat>, lists: map<nat, seq<Id>>, c: set<Id>, v: Id) {
    exists t :: t in TargetsOf(major, lists, v) && t in c
  }

  ghost predicate Keeps(s: State, c: set<Id>) {
    forall v :: v in c ==> v in s.unvisited
  }

  lemma {:induction false} RemoveKeeps(s: seq<Id>, v: Id, u: Id)
    requires u in s && u != v
    ensures u in Remove(s, v)
  {
    if s[0] != v && s[0] != u {
      RemoveKeeps(s[1..], v, u);
    }
  }

  lemma {:induction false} VisitKeepsTrap(depth: nat, major: map<Id, nat>, lists: map<nat, seq<Id>>, v: Id, s: State,
                                          c: set<Id>)
    requires Trap(major, lists, c) && Keeps(s, c)
    ensures var r := Visited(depth, major, lists, v, s); r.Some? ==> v !in c && Keeps(r.value, c)
    decreases depth, 0, 0
  {
    if v in s.unvisited && depth > 0 {
      VisitAllKeepsTrap(depth - 1, major, lists, TargetsOf(major, lists, v), s, c);
      var r := VisitedAll(depth - 1, major, lists, TargetsOf(major, lists, v), s);
      assert v in c ==> HasChild(major, lists, c, v);
      if r.Some? && v !in c {
        forall u | u in c && v in r.value.unvisited ensures u in Done(r.value, v).unvisited {
          RemoveKeeps(r.value.unvisited, v, u);
        }
      }
    }
  }

  lemma {:induction false} VisitAllKeepsTrap(depth: nat, major: map<Id, nat>, lists: map<nat, seq<Id>>, ts: seq<Id>,
                                             s: State, c: set<Id>)
    requires Trap(major, lists, c) && Keeps(s, c)
    ensures var r := VisitedAll(depth, major, lists, ts, s);
      r.Some? ==> (forall t :: t in ts ==> t !in c) && Keeps(r.value, c)
    decreases depth, 1, |ts|
  {
    if ts == [] {
    } else {
      VisitAllKeepsTrap(depth, major, lists, ts[..|ts| - 1], s, c);
      var r := VisitedAll(depth, major, lists, ts[..|ts| - 1], s);
      if r.Some? {
        VisitKeepsTrap(depth, major, lists, ts[|ts| - 1], r.value, c);
      }
    }
  }

  lemma {:induction false} TrapNeverSorted(depth: nat, rounds: nat, major: map<Id, nat>, lists: map<nat, seq<Id>>,
                                           s: State, c: set<Id>)
    requires Trap(major, lists, c) && Keeps(s, c) && c != {}
    ensures Sorted(depth, rounds, major, lists, s).None?
  {
    var v :| v in c;
    assert v in s.unvisited;
    if rounds == 0 {
    } else {
      var last := s.unvisited[|s.unvisited| - 1];
      VisitKeepsTrap(depth, major, lists, last, s, c);
      var r := Visited(depth, major, lists, last, s);
      if r.Some? {
        TrapNeverSorted(depth, rounds - 1, major, lists, r.value, c);
      }
    }
  }

  // The lists give each node its children.
  ghost predicate ListsOf(major: map<Id, nat>, links: seq<Link>, lists: map<nat, seq<Id>>) {
    forall v {:trigger ListsAt(major, links, lists, v)} :: ListsAt(major, links, lists, v)
  }

  ghost predicate ListsAt(major: map<Id, nat>, links: seq<Link>, lists: map<nat, seq<Id>>, v: Id) {
    forall t :: t in TargetsOf(major, lists, v) <==> Child(major, links, v, t)
  }

  lemma {:induction false} VisitedStep(depth: nat, major: map<Id, nat>, lists: map<nat, seq<Id>>, v: Id, s: State,
          s': State)
    requires v in s.unvisited && VisitedAll(depth, major, lists, TargetsOf(major, lists, v), s) == Some(s')
    ensures Visited(depth + 1, major, lists, v, s) == Some(Done(s', v))
  {
  }

  lemma {:induction false} VisitedAllStep(depth: nat, major: map<Id, nat>, lists: map<nat, seq<Id>>, ts: seq<Id>,
          k: nat, s: State, s': State, s'': State)
    requires k < |ts| && VisitedAll(depth, major, lists, ts[..k], s) == Some(s')
    requires Visited(depth, major, lists, ts[k], s') == Some(s'')
    ensures VisitedAll(depth, major, lists, ts[..k + 1], s) == Some(s'')
  {
    assert ts[..k + 1][..k] == ts[..k];
  }

  lemma {:induction false} SortedStep(depth: nat, rounds: nat, major: map<Id, nat>, lists: map<nat, seq<Id>>, v: Id,
          s: State, s': State)
    requires s.unvisited != [] && v == s.unvisited[|s.unvisited| - 1]
    requires Visited(depth, major, lists, v, s) == Some(s')
    ensures Sorted(depth, rounds + 1, major, lists, s) == Sorted(depth, rounds, major, lists, s')
  {
  }

  // The sort, with no more nested calls and no more rounds than nodes.
  ghost predicate SortsTo(major: map<Id, nat>, links: seq<Link>, nodes: seq<Id>, result: seq<Id>) {
    exists lists ::
      && ListsOf(major, links, lists)
      && Sorted(|nodes|, |nodes|, major, lists, State(nodes, [])) == Some(result)
  }

  // When the children have a cycle, no number of nested calls and rounds is enough.
  lemma {:induction false} CycleNeverSorted(depth: nat, rounds: nat, major: map<Id, nat>, links: seq<Link>,
          lists: map<nat, seq<Id>>, nodes: seq<Id>)
    requires ListsOf(major, links, lists) && !Acyclic(major, links, nodes)
    ensures Sorted(depth, rounds, major, lists, State(nodes, [])).None?
  {
    var walk :| IsWalk(major, links, nodes, walk) && |walk| >= 2 && walk[0] == walk[|walk| - 1];
    var c := set v | v in walk;
    forall v | v in c ensures HasChild(major, lists, c, v) {
      var i :| 0 <= i < |walk| && walk[i] == v;
      var i' := if i == |walk| - 1 then 0 else i;
      assert walk[i'] == v && walk[i' + 1] in c;
      assert Child(major, links, walk[i'], walk[i' + 1]) && ListsAt(major, links, lists, v);
    }
    assert walk[0] in c;
    TrapNeverSorted(depth, rounds, major, lists, State(nodes, []), c);
  }

  // ------------------------------------------------------ a sort that ends is right

  // Each node is either still unvisited or sorted, once.
  ghost predicate Split(nodes: seq<Id>, s: State) {
    && Distinct(nodes) && |s.unvisited| + |s.result| == |nodes|
    && multiset(s.unvisited) + multiset(s.result) == multiset(nodes)
  }

  lemma {:induction false} SplitFacts(nodes: seq<Id>, s: State, v: Id)
    requires Split(nodes, s)
    ensures v in nodes <==> v in s.unvisited || v in s.result
    ensures !(v in s.unvisited && v in s.result)
  {
    DistinctCounts(nodes, v);
    assert v in nodes <==> v in multiset(nodes);
    assert v in s.unvisited <==> v in multiset(s.unvisited);
    assert v in s.result <==> v in multiset(s.result);
  }

  lemma {:induction false} DistinctCounts(s: seq<Id>, v: Id)
    requires Distinct(s)
    ensures multiset(s)[v] <= 1
  {
    if s == [] {
    } else {
      assert s == [s[0]] + s[1..];
      DistinctCounts(s[1..], v);
      assert s[0] == v ==> v !in s[1..] && v !in multiset(s[1..]);
    }
  }

  lemma {:induction false} RemoveCounts(s: seq<Id>, v: Id)
    requires v in s
    ensures multiset(s) == multiset(Remove(s, v)) + multiset{v} && |s| == |Remove(s, v)| + 1
  {
    assert s == [s[0]] + s[1..];
    if s[0] != v {
      RemoveCounts(s[1..], v);
    }
  }

  lemma {:induction false} ChildrenFirstGrows(major: map<Id, nat>, links: seq<Link>, nodes: seq<Id>, result: seq<Id>,
          v: Id)
    requires ChildrenFirst(major, links, nodes, result)
    requires forall t :: t in nodes && Child(major, links, v, t) ==> t in result
    ensures ChildrenFirst(major, links, nodes, result + [v])
  {
    var r := result + [v];
    forall i: nat | i < |r| ensures ReadyAt(major, links, nodes, r, i) {
      assert r[..i] == result[..i];
      assert if i < |result| then ReadyAt(major, links, nodes, result, i) else result[..i] == result;
    }
  }

  ghost predicate Right(major: map<Id, nat>, links: seq<Link>, nodes: seq<Id>, s: State) {
    Split(nodes, s) && ChildrenFirst(major, links, nodes, s.result)
  }

  lemma {:induction false} DoneIsRight(major: map<Id, nat>, links: seq<Link>, nodes: seq<Id>, s: State, v: Id)
    requires Right(major, links, nodes, s) && v in nodes
    requires forall t :: t in nodes && Child(major, links, v, t) ==> t in s.result
    ensures Right(major, links, nodes, Done(s, v)) && s.result <= Done(s, v).result && v in Done(s, v).result
  {
    SplitFacts(nodes, s, v);
    if v in s.unvisited {
      RemoveCounts(s.unvisited, v);
      ChildrenFirstGrows(major, links, nodes, s.result, v);
    }
  }

  lemma {:induction false} VisitedIsRight(depth: nat, major: map<Id, nat>, links: seq<Link>,
                                          lists: map<nat, seq<Id>>, nodes: seq<Id>, v: Id, s: State)
    requires ListsOf(major, links, lists) && Right(major, links, nodes, s)
    ensures var r := Visited(depth, major, lists, v, s);
      r.Some? ==>
        && Right(major, links, nodes, r.value) && s.result <= r.value.result
        && (v in nodes ==> v in r.value.result)
    decreases depth, 0, 0
  {
    SplitFacts(nodes, s, v);
    if v in s.unvisited && depth > 0 {
      var ts := TargetsOf(major, lists, v);
      VisitedAllIsRight(depth - 1, major, links, lists, nodes, ts, s);
      var r := VisitedAll(depth - 1, major, lists, ts, s);
      if r.Some? {
        assert ListsAt(major, links, lists, v);
        DoneIsRight(major, links, nodes, r.value, v);
      }
    }
  }

  lemma {:induction false} VisitedAllIsRight(depth: nat, major: map<Id, nat>, links: seq<Link>,
                                             lists: map<nat, seq<Id>>, nodes: seq<Id>, ts: seq<Id>, s: State)
    requires ListsOf(major, links, lists) && Right(major, links, nodes, s)
    ensures var r := VisitedAll(depth, major, lists, ts, s);
      r.Some? ==>
        && Right(major, links, nodes, r.value) && s.result <= r.value.result
        && forall t :: t in ts && t in nodes ==> t in r.value.result
    decreases depth, 1, |ts|
  {
    if ts == [] {
    } else {
      var front := ts[..|ts| - 1];
      VisitedAllIsRight(depth, major, links, lists, nodes, front, s);
      var r := VisitedAll(depth, major, lists, front, s);
      if r.Some? {
        VisitedIsRight(depth, major, links, lists, nodes, ts[|ts| - 1], r.value);
      }
    }
  }

  // The same nodes, each after all of its link targets among them.
  ghost predicate IsSorted(links: seq<Link>, nodes: seq<Id>, result: seq<Id>) {
    && multiset(result) == multiset(nodes)
    && forall i: nat {:trigger TargetsBefore(links, nodes, result, i)} ::
      i < |result| ==> TargetsBefore(links, nodes, result, i)
  }

  ghost predicate TargetsBefore(links: seq<Link>, nodes: seq<Id>, result: seq<Id>, i: nat)
    requires i < |result|
  {
    forall t :: t in nodes && (result[i], t) in links ==> t in result[..i]
  }

  lemma {:induction false} OwnLink(major: map<Id, nat>, links: seq<Link>, v: Id, t: Id)
    requires (v, t) in links && v in major
    ensures Child(major, links, v, t)
  {
    var k :| 0 <= k < |links| && links[k] == (v, t);
    assert SameMajor(major, links[k].0, v);
  }

  lemma {:induction false} RightIsSorted(major: map<Id, nat>, links: seq<Link>, nodes: seq<Id>, s: State)
    requires Right(major, links, nodes, s) && s.unvisited == [] && forall v :: v in nodes ==> v in major
    ensures IsSorted(links, nodes, s.result)
  {
    var result := s.result;
    forall i: nat | i < |result| ensures TargetsBefore(links, nodes, result, i) {
      SplitFacts(nodes, s, result[i]);
      assert ReadyAt(major, links, nodes, result, i);
      forall t | t in nodes && (result[i], t) in links ensures t in result[..i] {
        OwnLink(major, links, result[i], t);
      }
    }
  }

  // Whatever the links, a sort that ends has sorted.
  lemma {:induction false} SortedIsSorted(depth: nat, rounds: nat, major: map<Id, nat>, links: seq<Link>,
                                          lists: map<nat, seq<Id>>, nodes: seq<Id>, s: State)
    requires ListsOf(major, links, lists) && Right(major, links, nodes, s) && forall v :: v in nodes ==> v in major
    ensures var r := Sorted(depth, rounds, major, lists, s); r.Some? ==> IsSorted(links, nodes, r.value)
  {
    if s.unvisited == [] {
      RightIsSorted(major, links, nodes, s);
    } else if rounds > 0 {
      var v := s.unvisited[|s.unvisited| - 1];
      VisitedIsRight(depth, major, links, lists, nodes, v, s);
      var r := Visited(depth, major, lists, v, s);
      if r.Some? {
        SortedStep(depth, rounds - 1, major, lists, v, s, r.value);
        SortedIsSorted(depth, rounds - 1, major, links, lists, nodes, r.value);
      }
    }
  }

  // ---------------------------------------------------- without a cycle it does end

  // The chain of calls never repeats a node, so it is no longer than the input.
  lemma {:induction false} DistinctWithin(path: seq<Id>, nodes: seq<Id>)
    requires Distinct(path) && forall i :: 0 <= i < |path| ==> path[i] in nodes
    ensures |path| <= |nodes|
    decreases |path|
  {
    if path == [] {
    } else {
      var v, rest := path[|path| - 1], path[..|path| - 1];
      var i :| 0 <= i < |nodes| && nodes[i] == v;
      var others := nodes[..i] + nodes[i + 1..];
      forall k | 0 <= k < |rest| ensures rest[k] in others {
        assert rest[k] != v && rest[k] == path[k] && path[k] in nodes;
      }
      DistinctWithin(rest, others);
    }
  }

  // A chain of nested visits, with room for so many more.
  ghost predicate IsPath(major: map<Id, nat>, links: seq<Link>, nodes: seq<Id>, path: seq<Id>, room: nat) {
    IsWalk(major, links, nodes, path) && Distinct(path) && |path| + room == |nodes|
  }

  lemma {:induction false} PathGrows(major: map<Id, nat>, links: seq<Link>, nodes: seq<Id>, path: seq<Id>, room: nat,
          v: Id)
    requires Acyclic(major, links, nodes) && IsPath(major, links, nodes, path, room) && v in nodes
    requires path != [] ==> Child(major, links, path[|path| - 1], v)
    ensures room > 0 && IsPath(major, links, nodes, path + [v], room - 1)
  {
    WalkStep(major, links, nodes, path, v);
    DistinctWithin(path + [v], nodes);
  }

  lemma {:induction false} RemoveWithin(s: seq<Id>, v: Id)
    ensures forall u :: u in Remove(s, v) ==> u in s
  {
    if s == [] || s[0] == v {
    } else {
      RemoveWithin(s[1..], v);
    }
  }

  class Sorter {
    const major: map<Id, nat>
    const links: seq<Link>
    const nodes: seq<Id>
    const children: map<nat, seq<Id>>
    var unvisited: seq<Id>
    var result: seq<Id>

    ghost function Now(): State
      reads this
    {
      State(unvisited, result)
    }

    ghost predicate Valid()
      reads this
    {
      && Acyclic(major, links, nodes) && ListsOf(major, links, children)
      && (forall v :: v in unvisited ==> v in nodes)
    }

    constructor (major: map<Id, nat>, links: seq<Link>, nodes: seq<Id>)
      requires Acyclic(major, links, nodes)
      requires forall k :: 0 <= k < |links| ==> links[k].0 in major
      ensures Valid() && Now() == State(nodes, [])
      ensures this.major == major && this.links == links && this.nodes == nodes
    {
      this.major, this.links, this.nodes := major, links, nodes;
      var lists := GetTargetLists(major, links);
      children := lists;
      unvisited, result := nodes, [];
    }

    // Visits the unvisited children of v, then v itself; path is the chain of visits
    // that led here.
    method Visit(v: Id, ghost path: seq<Id>, ghost room: nat)
      requires Valid() && IsPath(major, links, nodes, path, room)
      requires path != [] ==> Child(major, links, path[|path| - 1], v)
      modifies this
      ensures Valid() && Visited(room, major, children, v, old(Now())) == Some(Now())
      decreases room, 0
    {
      if v !in unvisited { return; }
      PathGrows(major, links, nodes, path, room, v);
      assert ListsAt(major, links, children, v);
      VisitTargets(TargetsOf(major, children, v), v, path + [v], room - 1);
      VisitedStep(room - 1, major, children, v, old(Now()), Now());
      Finish(v);
    }

    // The loop over the children of v, the last vertex of the path.
    method VisitTargets(targets: seq<Id>, v: Id, ghost path: seq<Id>, ghost room: nat)
      requires Valid() && IsPath(major, links, nodes, path, room)
      requires path != [] && path[|path| - 1] == v && forall t :: t in targets ==> Child(major, links, v, t)
      modifies this
      ensures Valid() && VisitedAll(room, major, children, targets, old(Now())) == Some(Now())
      decreases room, 1
    {
      var k := 0;
      while k < |targets|
        invariant 0 <= k <= |targets|
        invariant Valid() && VisitedAll(room, major, children, targets[..k], old(Now())) == Some(Now())
      {
        assert targets[k] in targets;
        ghost var before := Now();
        Visit(targets[k], path, room);
        VisitedAllStep(room, major, children, targets, k, old(Now()), before, Now());
        k := k + 1;
      }
      assert targets[..k] == targets;
    }

    // Moves a node to the result, unless a visit of its children has already.
    method Finish(v: Id)
      requires Valid()
      modifies this
      ensures Valid() && Now() == Done(old(Now()), v)
    {
      if v in unvisited {
        var i := 0;
        while unvisited[i] != v
          invariant 0 <= i < |unvisited| && v !in unvisited[..i] && v in unvisited && Now() == old(Now())
          decreases |unvisited| - i
        {
          assert v in unvisited[..i + 1] + unvisited[i + 1..];
          i := i + 1;
        }
        RemoveAt(unvisited, i);
        RemoveWithin(unvisited, v);
        unvisited := unvisited[..i] + unvisited[i + 1..];
        result := result + [v];
      }
    }

    // Visits all nodes one by one, from the end.
    method VisitEach()
      requires Valid() && Now() == State(nodes, []) && Distinct(nodes)
      modifies this
      ensures Sorted(|nodes|, |nodes|, major, children, State(nodes, [])) == Some(result)
    {
      ghost var rounds, s0 := |nodes|, Now();
      while |unvisited| > 0
        invariant Valid() && Right(major, links, nodes, Now()) && rounds >= |unvisited|
        invariant SameEnd(|nodes|, major, children, rounds, Now(), |nodes|, s0)
        decreases rounds
      {
        VisitLast(rounds, s0);
        rounds := rounds - 1;
      }
    }

    method VisitLast(ghost rounds: nat, ghost s0: State)
      requires Valid() && Right(major, links, nodes, Now()) && rounds >= |unvisited| > 0
      requires SameEnd(|nodes|, major, children, rounds, Now(), |nodes|, s0)
      modifies this
      ensures Valid() && Right(major, links, nodes, Now()) && rounds - 1 >= |unvisited|
      ensures SameEnd(|nodes|, major, children, rounds - 1, Now(), |nodes|, s0)
    {
      var v := unvisited[|unvisited| - 1];
      Visit(v, [], |nodes|);
      RoundEnds(|nodes|, major, links, children, nodes, v, rounds, old(Now()), Now(), |nodes|, s0);
    }
  }

  ghost predicate SameEnd(depth: nat, major: map<Id, nat>, lists: map<nat, seq<Id>>, rounds: nat, s: State,
                          rounds': nat, s': State)
  {
    Sorted(depth, rounds, major, lists, s) == Sorted(depth, rounds', major, lists, s')
  }

  // A round sorts at least the node it starts with.
  lemma {:induction false} RoundEnds(depth: nat, major: map<Id, nat>, links: seq<Link>, lists: map<nat, seq<Id>>,
          nodes: seq<Id>, v: Id, rounds: nat, s: State, s': State, rounds0: nat, s0: State)
    requires ListsOf(major, links, lists) && Right(major, links, nodes, s) && rounds > 0
    requires s.unvisited != [] && v == s.unvisited[|s.unvisited| - 1]
    requires Visited(depth, major, lists, v, s) == Some(s')
    requires SameEnd(depth, major, lists, rounds, s, rounds0, s0)
    ensures SameEnd(depth, major, lists, rounds - 1, s', rounds0, s0)
    ensures Right(major, links, nodes, s') && |s'.unvisited| < |s.unvisited|
  {
    SplitFacts(nodes, s, v);
    VisitedIsRight(depth, major, links, lists, nodes, v, s);
    SortedStep(depth, rounds - 1, major, lists, v, s, s');
  }

  // Without a cycle the sort ends, within as many nested calls and rounds as there
  // are nodes, and it has sorted.
  method TopologicalSort(major: map<Id, nat>, links: seq<Link>, nodes: seq<Id>) returns (result: seq<Id>)
    requires Distinct(nodes) && Acyclic(major, links, nodes)
    requires forall v :: v in nodes ==> v in major
    requires forall k :: 0 <= k < |links| ==> links[k].0 in major
    ensures IsSorted(links, nodes, result) && SortsTo(major, links, nodes, result)
  {
    var s := new Sorter(major, links, nodes);
    s.VisitEach();
    result := s.result;
    SortedIsSorted(|nodes|, |nodes|, major, links, s.children, nodes, State(nodes, []));
  }

  // --------------------------------------------------- what distinct majors give

  ghost predicate IsLinkWalk(links: seq<Link>, walk: seq<Id>) {
    forall i, j :: 0 <= i && j == i + 1 < |walk| ==> (walk[i], walk[j]) in links
  }

  ghost predicate LinksAcyclic(links: seq<Link>) {
    forall walk :: IsLinkWalk(links, walk) && |walk| >= 2 ==> walk[0] != walk[|walk| - 1]
  }

  predicate DistinctMajors(major: map<Id, nat>) {
    forall u, v :: u in major && v in major && major[u] == major[v] ==> u == v
  }

  // When no two vertices share a major number, links without a cycle are enough for
  // the sort to be defined.
  lemma {:induction false} DistinctMajorsSuffice(major: map<Id, nat>, links: seq<Link>, nodes: seq<Id>)
    requires DistinctMajors(major) && LinksAcyclic(links)
    ensures Acyclic(major, links, nodes)
  {
    forall walk | IsWalk(major, links, nodes, walk) && |walk| >= 2 ensures walk[0] != walk[|walk| - 1] {
      forall i, j | 0 <= i && j == i + 1 < |walk| ensures (walk[i], walk[j]) in links {
        assert Child(major, links, walk[i], walk[j]);
        var k :| 0 <= k < |links| && SameMajor(major, links[k].0, walk[i]) && links[k].1 == walk[j];
        assert links[k] == (walk[i], walk[j]);
      }
      assert IsLinkWalk(links, walk);
    }
  }

  lemma {:induction false} LinkStep(links: seq<Link>, walk: seq<Id>, i: nat)
    requires IsLinkWalk(links, walk) && i + 1 < |walk|
    ensures (walk[i], walk[i + 1]) in links
  {
  }

  // With a shared major number they are not: one link, from 1 to 2, and yet 2 becomes
  // its own child.
  lemma {:induction false} SharedMajorMakesACycle()
    ensures LinksAcyclic([(1, 2)])
    ensures !Acyclic(map[1 := 7, 2 := 7], [(1, 2)], [1, 2])
  {
    var links := [(1, 2)];
    forall walk | IsLinkWalk(links, walk) && |walk| >= 2 ensures walk[0] != walk[|walk| - 1] {
      LinkStep(links, walk, 0);
      if |walk| > 2 { LinkStep(links, walk, 1); }
    }
    var major: map<Id, nat> := map[1 := 7, 2 := 7];
    assert SameMajor(major, links[0].0, 2);
    assert IsWalk(major, links, [1, 2], [2, 2]);
  }
}

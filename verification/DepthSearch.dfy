/**
 Depth-first search for the tips above a vertex (`visit` and `dfSearch` in
 `dag/search.go`), on any finite graph of approvers.
 */
module DepthSearch {
  import opened Sequences
  import opened Wrappers

  type Id = nat

  // The approvers of every vertex.
  type Graph = map<Id, seq<Id>>

  function Sources(g: Graph, v: Id): seq<Id> {
    if v in g then g[v] else []
  }

  ghost predicate IsPath(g: Graph, path: seq<Id>) {
    forall i, j :: 0 <= i && j == i + 1 < |path| ==> path[j] in Sources(g, path[i])
  }

  ghost predicate Connects(g: Graph, path: seq<Id>, from: Id, to: Id) {
    path != [] && path[0] == from && path[|path| - 1] == to && IsPath(g, path)
  }

  ghost predicate Reaches(g: Graph, from: Id, to: Id) {
    exists path :: Connects(g, path, from, to)
  }

  lemma {:induction false} ReachesSelf(g: Graph, v: Id)
    ensures Reaches(g, v, v)
  {
    assert Connects(g, [v], v, v);
  }

  lemma {:induction false} ReachesAlong(g: Graph, from: Id, s: Id, to: Id)
    requires s in Sources(g, from) && Reaches(g, s, to)
    ensures Reaches(g, from, to)
  {
    var path :| Connects(g, path, s, to);
    assert Connects(g, [from] + path, from, to);
  }

  predicate IsClosed(g: Graph, seen: seq<Id>, v: Id) {
    forall s :: s in Sources(g, v) ==> s in seen
  }

  // A list that holds the approvers of all its vertices holds what they reach.
  lemma {:induction false} ClosedHolds(g: Graph, seen: seq<Id>, path: seq<Id>, from: Id, to: Id)
    requires forall v :: v in seen ==> IsClosed(g, seen, v)
    requires from in seen && Connects(g, path, from, to)
    ensures to in seen
    decreases |path|
  {
    if |path| <= 1 {
    } else {
      assert path[1] in Sources(g, path[0]);
      assert IsClosed(g, seen, from);
      ClosedHolds(g, seen, path[1..], path[1], to);
    }
  }

  // Everything a search can meet.
  ghost function Vertices(g: Graph, start: Id): set<Id> {
    {start} + g.Keys + set v, s | v in g && s in g[v] :: s
  }

  // The vertices with at most one approver, in the order given.
  function Tips(g: Graph, vs: seq<Id>): (r: seq<Id>)
    ensures forall v :: v in r <==> v in vs && |Sources(g, v)| <= 1
    ensures Distinct(vs) ==> Distinct(r)
  {
    if vs == [] then []
    else
      var last := vs[|vs| - 1];
      assert Distinct(vs) ==> last !in vs[..|vs| - 1];
      Tips(g, vs[..|vs| - 1]) + if |Sources(g, last)| <= 1 then [last] else []
  }

  ghost predicate Met(g: Graph, v: Id, after: seq<Id>, w: Id) {
    Reaches(g, v, w) && (w == v || IsClosed(g, after, w))
  }

  // What a visit from v adds: vertices that v reaches, none twice, and with each of
  // them, except perhaps v itself, its approvers.
  ghost predicate Explored(g: Graph, v: Id, before: seq<Id>, after: seq<Id>) {
    && before <= after && Distinct(after)
    && forall w {:trigger Met(g, v, after, w)} :: w in after && w !in before ==> Met(g, v, after, w)
  }

  lemma {:induction false} ExploreSource(g: Graph, v: Id, s: Id, start: seq<Id>, before: seq<Id>, after: seq<Id>)
    requires Explored(g, v, start, before) && s in Sources(g, v) && Explored(g, s, before, after)
    requires s !in before ==> IsClosed(g, after, s)
    ensures Explored(g, v, start, after)
  {
    forall w | w in after && w !in start ensures Met(g, v, after, w) {
      if w in before {
        assert Met(g, v, before, w);
      } else {
        assert Met(g, s, after, w);
        ReachesAlong(g, v, s, w);
      }
    }
  }

  ghost function ToSet(s: seq<Id>): set<Id> {
    set v | v in s
  }

  ghost predicate HoldsSources(g: Graph, all: set<Id>) {
    forall u {:trigger SourcesIn(g, all, u)} :: u in all ==> SourcesIn(g, all, u)
  }

  ghost predicate SourcesIn(g: Graph, all: set<Id>, u: Id) {
    forall k :: 0 <= k < |Sources(g, u)| ==> Sources(g, u)[k] in all
  }

  lemma {:induction false} VerticesHoldSources(g: Graph, start: Id)
    ensures HoldsSources(g, Vertices(g, start))
  {
    forall u ensures SourcesIn(g, Vertices(g, start), u) {
      forall k | 0 <= k < |Sources(g, u)| ensures Sources(g, u)[k] in Vertices(g, start) {
        assert u in g && Sources(g, u)[k] in g[u];
      }
    }
  }

  // A vertex on the visiting path is not closed yet, so nothing is said about
  // vertices visited before.
  method Visit(g: Graph, v: Id, targets: seq<Id>, visited: seq<Id>, ghost all: set<Id>)
    returns (targets': seq<Id>, visited': seq<Id>)
    requires targets == Tips(g, visited) && Distinct(visited) && v in all && HoldsSources(g, all)
    ensures Explored(g, v, visited, visited') && v in visited'
    ensures v !in visited ==> IsClosed(g, visited', v)
    ensures targets' == Tips(g, visited')
    decreases all - ToSet(visited), 1
  {
    targets', visited' := targets, visited;
    if v in visited { return; }
    visited' := visited' + [v];
    if |Sources(g, v)| <= 1 { targets' := targets' + [v]; }
    assert visited'[..|visited|] == visited;
    ReachesSelf(g, v);
    assert Met(g, v, visited', v);
    assert ToSet(visited') == ToSet(visited) + {v};
    targets', visited' := VisitSources(g, v, targets', visited', all, visited);
  }

  method VisitSources(g: Graph, v: Id, targets: seq<Id>, visited: seq<Id>, ghost all: set<Id>, ghost start: seq<Id>)
    returns (targets': seq<Id>, visited': seq<Id>)
    requires targets == Tips(g, visited) && v in all && HoldsSources(g, all) && Explored(g, v, start, visited)
    ensures Explored(g, v, start, visited') && visited <= visited' && IsClosed(g, visited', v)
    ensures targets' == Tips(g, visited')
    decreases all - ToSet(visited), 2
  {
    targets', visited' := targets, visited;
    assert SourcesIn(g, all, v);
    var i := 0;
    while i < |Sources(g, v)|
      invariant 0 <= i <= |Sources(g, v)|
      invariant Explored(g, v, start, visited') && visited <= visited' && targets' == Tips(g, visited')
      invariant forall k :: 0 <= k < i ==> Sources(g, v)[k] in visited'
    {
      ghost var before := visited';
      assert ToSet(visited) <= ToSet(visited');
      targets', visited' := Visit(g, Sources(g, v)[i], targets', visited', all);
      ExploreSource(g, v, Sources(g, v)[i], start, before, visited');
      assert ToSet(before) <= ToSet(visited');
      i := i + 1;
    }
  }

  // Each vertex that the start reaches and that has at most one approver, once.
  method DfSearch(g: Graph, start: Option<Id>) returns (targets: seq<Id>)
    ensures Distinct(targets)
    ensures forall t :: t in targets <==> start.Some? && Reaches(g, start.value, t) && |Sources(g, t)| <= 1
  {
    targets := [];
    if start == None { return; }
    var visited: seq<Id>;
    VerticesHoldSources(g, start.value);
    targets, visited := Visit(g, start.value, [], [], Vertices(g, start.value));
    forall w | w in visited ensures Reaches(g, start.value, w) && IsClosed(g, visited, w) {
      assert Met(g, start.value, visited, w);
    }
    forall t | Reaches(g, start.value, t) ensures t in visited {
      var path :| Connects(g, path, start.value, t);
      ClosedHolds(g, visited, path, start.value, t);
    }
  }
}

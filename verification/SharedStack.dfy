/**
 Two recursive searches whose calls all work on one shared stack: `visit` and
 `GetTipVertices` in `graph/dgraph.go`, `visit` and `traverseDagSlice` in
 `dag/traverse.go`. An inner call may empty the stack of the outer one.
 */
module SharedStack {
  type Id = nat

  // The vertices that may be entered, with their edges.
  type Graph = map<Id, seq<Id>>

  function Out(g: Graph, v: Id): seq<Id> {
    if v in g then g[v] else []
  }

  ghost predicate Step(g: Graph, v: Id, t: Id) {
    t in Out(g, v) && t in g
  }

  ghost predicate Connects(g: Graph, path: seq<Id>, from: Id, to: Id) {
    && path != [] && path[0] == from && path[|path| - 1] == to
    && forall i, j {:trigger Step(g, path[i], path[j])} ::
      0 <= i && j == i + 1 < |path| ==> Step(g, path[i], path[j])
  }

  // Some start leads there, by edges to vertices that may be entered.
  ghost predicate Reached(g: Graph, starts: set<Id>, v: Id) {
    exists path, s :: s in starts && Connects(g, path, s, v)
  }

  lemma {:induction false} ReachedStart(g: Graph, starts: set<Id>, s: Id)
    requires s in starts
    ensures Reached(g, starts, s)
  {
    assert Connects(g, [s], s, s);
  }

  lemma {:induction false} ReachedNext(g: Graph, starts: set<Id>, v: Id, t: Id)
    requires Reached(g, starts, v) && Step(g, v, t)
    ensures Reached(g, starts, t)
  {
    var path, s :| s in starts && Connects(g, path, s, v);
    assert Connects(g, path + [t], s, t);
  }

  // ---------------------------------------------------------- what the calls keep

  ghost predicate Covered(g: Graph, vis: set<Id>, ws: seq<Id>, v: Id) {
    forall t :: Step(g, v, t) ==> t in vis || t in ws
  }

  // Successors of visited vertices are visited or on the stack; whatever is on the
  // stack or visited has been reached.
  ghost predicate Kept(g: Graph, starts: set<Id>, vis: set<Id>, ws: seq<Id>) {
    && (forall v {:trigger Covered(g, vis, ws, v)} :: v in vis ==> Covered(g, vis, ws, v))
    && (forall v {:trigger Reached(g, starts, v)} :: v in vis ==> Reached(g, starts, v))
    && (forall t {:trigger Reached(g, starts, t)} :: t in ws && t in g ==> Reached(g, starts, t))
  }

  // Popping a vertex that need not be entered.
  lemma {:induction false} KeptPop(g: Graph, starts: set<Id>, vis: set<Id>, ws: seq<Id>, v: Id)
    requires Kept(g, starts, vis, ws + [v]) && (v in vis || v !in g)
    ensures Kept(g, starts, vis, ws)
  {
    forall u | u in vis ensures Covered(g, vis, ws, u) {
      assert Covered(g, vis, ws + [v], u);
    }
    assert forall t :: t in ws ==> t in ws + [v];
  }

  // Entering the vertex on top and pushing its edges.
  lemma {:induction false} KeptEnter(g: Graph, starts: set<Id>, vis: set<Id>, ws: seq<Id>, v: Id)
    requires Kept(g, starts, vis, ws + [v]) && (v in g || v in starts)
    ensures Kept(g, starts, vis + {v}, ws + Out(g, v))
  {
    var vis', ws' := vis + {v}, ws + Out(g, v);
    forall u | u in vis' ensures Covered(g, vis', ws', u) {
      assert u in vis ==> Covered(g, vis, ws + [v], u);
    }
    assert v in ws + [v];
    if v in starts { ReachedStart(g, starts, v); }
    forall t | t in ws' && t in g ensures Reached(g, starts, t) {
      if t in Out(g, v) {
        ReachedNext(g, starts, v, t);
      } else {
        assert t in ws + [v];
      }
    }
  }

  // With the stack empty, the visited vertices are the reached ones.
  lemma {:induction false} KeptIsExact(g: Graph, starts: set<Id>, vis: set<Id>, v: Id)
    requires Kept(g, starts, vis, []) && starts <= vis
    ensures v in vis <==> Reached(g, starts, v)
  {
    if Reached(g, starts, v) {
      var path, s :| s in starts && Connects(g, path, s, v);
      PathStays(g, starts, vis, path, s, v);
    }
  }

  lemma {:induction false} PathStays(g: Graph, starts: set<Id>, vis: set<Id>, path: seq<Id>, from: Id, to: Id)
    requires Kept(g, starts, vis, []) && from in vis && Connects(g, path, from, to)
    ensures to in vis
    decreases |path|
  {
    if |path| <= 1 {
    } else {
      assert Covered(g, vis, [], from);
      assert Step(g, path[0], path[1]);
      PathStays(g, starts, vis, path[1..], path[1], to);
    }
  }

  // ------------------------------------------------------------ tips of the graph

  class TipSearch {
    const g: Graph
    const starts: set<Id>
    var ws: seq<Id>
    var vis: set<Id>
    var tips: set<Id>

    // The vertices entered so far that have fewer than two edges.
    ghost predicate TipsKept()
      reads this
    {
      tips == set v | v in vis && |Out(g, v)| < 2
    }

    constructor (g: Graph, start: Id)
      ensures this.g == g && starts == {start} && ws == [] && vis == {} && tips == {}
    {
      this.g, starts := g, {start};
      ws, vis, tips := [], {}, {};
    }

    ghost predicate OnlyKnown()
      reads this
    {
      && (forall t :: t in ws ==> t in g)
      && (forall v {:trigger EdgesKnown(g, v)} :: v in g ==> EdgesKnown(g, v))
    }

    method Visit(cur: Id)
      requires cur in g && cur !in vis && TipsKept() && OnlyKnown()
      requires Kept(g, starts, vis, ws + [cur])
      modifies this
      ensures TipsKept() && OnlyKnown() && Kept(g, starts, vis, ws)
      ensures old(vis) + {cur} <= vis
      ensures ws == if |Out(g, cur)| == 0 then old(ws) else []
      decreases g.Keys - vis
    {
      KeptEnter(g, starts, vis, ws, cur);
      vis := vis + {cur};
      var es := g[cur];
      if |es| < 2 { tips := tips + {cur}; }
      assert ws + [] == ws && EdgesKnown(g, cur);
      if |es| == 0 { return; }
      ws := ws + es;
      while |ws| > 0
        invariant TipsKept() && OnlyKnown() && Kept(g, starts, vis, ws)
        invariant old(vis) + {cur} <= vis
        decreases g.Keys - vis, |ws|
      {
        var id := ws[|ws| - 1];
        assert ws == ws[..|ws| - 1] + [id];
        ws := ws[..|ws| - 1];
        if id !in vis {
          Visit(id);
        } else {
          KeptPop(g, starts, vis, ws, id);
        }
      }
    }
  }

  ghost predicate EdgesKnown(g: Graph, v: Id) {
    forall t :: t in Out(g, v) ==> t in g
  }

  // Exactly the vertices reached from genesis that have fewer than two edges.
  method GetTipVertices(g: Graph, genesis: Id) returns (tips: set<Id>)
    requires genesis in g && forall v, t :: v in g && t in g[v] ==> t in g
    ensures forall v :: v in tips <==> Reached(g, {genesis}, v) && |Out(g, v)| < 2
  {
    var s := new TipSearch(g, genesis);
    ReachedStart(g, {genesis}, genesis);
    s.Visit(genesis);
    tips := s.tips;
    forall v ensures v in s.vis <==> Reached(g, {genesis}, v) {
      KeptIsExact(g, {genesis}, s.vis, v);
    }
  }

  // ------------------------------------------------------ the slice below the tips

  // What may be entered: the known vertices that are no pins.
  function Enterable(pin: map<Id, bool>, edges: map<Id, seq<Id>>): Graph {
    map v | v in pin && !pin[v] :: Out(edges, v)
  }

  // An edge between known vertices that are no pins.
  ghost predicate SliceStep(pin: map<Id, bool>, edges: map<Id, seq<Id>>, a: Id, b: Id) {
    a in pin && !pin[a] && b in pin && !pin[b] && a in edges && b in edges[a]
  }

  ghost predicate SlicePath(pin: map<Id, bool>, edges: map<Id, seq<Id>>, path: seq<Id>, v: Id) {
    && path != [] && path[|path| - 1] == v
    && forall i, j {:trigger SliceStep(pin, edges, path[i], path[j])} ::
      0 <= i && j == i + 1 < |path| ==> SliceStep(pin, edges, path[i], path[j])
  }

  // Some start leads there along such edges.
  ghost predicate InSlice(pin: map<Id, bool>, edges: map<Id, seq<Id>>, starts: set<Id>, v: Id) {
    exists path :: SlicePath(pin, edges, path, v) && path[0] in starts
  }

  lemma {:induction false} ReachedInSlice(pin: map<Id, bool>, edges: map<Id, seq<Id>>, starts: set<Id>, v: Id)
    ensures Reached(Enterable(pin, edges), starts, v) <==> InSlice(pin, edges, starts, v)
  {
    var g := Enterable(pin, edges);
    assert forall a, b :: SliceStep(pin, edges, a, b) <==> Step(g, a, b);
    if Reached(g, starts, v) {
      var path, s :| s in starts && Connects(g, path, s, v);
      assert SlicePath(pin, edges, path, v);
    }
    if InSlice(pin, edges, starts, v) {
      var path :| SlicePath(pin, edges, path, v) && path[0] in starts;
      assert Connects(g, path, path[0], v);
    }
  }

  class SliceSearch {
    const pin: map<Id, bool>
    const edges: map<Id, seq<Id>>
    const starts: set<Id>
    var vis: set<Id>
    var ws: seq<Id>

    ghost const g: Graph

    constructor (pin: map<Id, bool>, edges: map<Id, seq<Id>>, starts: set<Id>)
      ensures this.pin == pin && this.edges == edges && this.starts == starts
      ensures g == Enterable(pin, edges) && vis == {} && ws == []
    {
      this.pin, this.edges, this.starts, g := pin, edges, starts, Enterable(pin, edges);
      vis, ws := {}, [];
    }

    // The first call of a start may find it visited already; it is entered again.
    method Visit(cur: Id)
      requires cur in pin && (cur in g || cur in starts) && g == Enterable(pin, edges)
      requires Kept(g, starts, vis, ws + [cur])
      modifies this`vis, this`ws
      ensures Kept(g, starts, vis, ws) && old(vis) + {cur} <= vis
      ensures ws == if pin[cur] then old(ws) else []
      decreases g.Keys - vis, if cur in vis then 1 else 0
    {
      KeptEnter(g, starts, vis, ws, cur);
      vis := vis + {cur};
      assert ws + [] == ws;
      if pin[cur] { return; }
      ws := ws + Out(edges, cur);
      while |ws| > 0
        invariant Kept(g, starts, vis, ws) && old(vis) + {cur} <= vis
        decreases g.Keys - vis, |ws|
      {
        var id := ws[|ws| - 1];
        assert ws == ws[..|ws| - 1] + [id];
        ws := ws[..|ws| - 1];
        if id !in vis && id in pin && !pin[id] {
          Visit(id);
        } else {
          KeptPop(g, starts, vis, ws, id);
        }
      }
    }
  }

  // Exactly the start ids and everything reached from them through known vertices
  // that are no pins, each once.
  method TraverseDagSlice(pin: map<Id, bool>, edges: map<Id, seq<Id>>, ids: seq<Id>) returns (txs: seq<Id>)
    requires forall id :: id in ids ==> id in pin
    ensures forall v :: v in txs <==> InSlice(pin, edges, (set id | id in ids), v)
    ensures forall i, j :: 0 <= i < j < |txs| ==> txs[i] != txs[j]
  {
    var s := new SliceSearch(pin, edges, set id | id in ids);
    var i := 0;
    while i < |ids|
      invariant 0 <= i <= |ids| && s.ws == []
      invariant s.pin == pin && s.edges == edges && s.starts == (set id | id in ids) && s.g == Enterable(pin, edges)
      invariant fresh(s) && Kept(s.g, s.starts, s.vis, []) && forall k :: 0 <= k < i ==> ids[k] in s.vis
    {
      KeptStart(s.g, s.starts, s.vis, ids[i]);
      s.Visit(ids[i]);
      i := i + 1;
    }
    forall v ensures v in s.vis <==> InSlice(pin, edges, s.starts, v) {
      KeptIsExact(s.g, s.starts, s.vis, v);
      ReachedInSlice(pin, edges, s.starts, v);
    }
    txs := Listed(s.vis);
  }

  method Listed(vis: set<Id>) returns (txs: seq<Id>)
    ensures forall v :: v in txs <==> v in vis
    ensures forall i, j :: 0 <= i < j < |txs| ==> txs[i] != txs[j]
  {
    txs := [];
    var rest := vis;
    while rest != {}
      invariant rest <= vis && forall v :: v in txs <==> v in vis - rest
      invariant forall i, j :: 0 <= i < j < |txs| ==> txs[i] != txs[j]
      decreases rest
    {
      var v :| v in rest;
      ghost var before := txs;
      txs, rest := txs + [v], rest - {v};
      assert forall u :: u in txs <==> u in before || u == v;
    }
  }

  lemma {:induction false} KeptStart(g: Graph, starts: set<Id>, vis: set<Id>, s: Id)
    requires Kept(g, starts, vis, []) && s in starts
    ensures Kept(g, starts, vis, [] + [s])
  {
    ReachedStart(g, starts, s);
    forall v | v in vis ensures Covered(g, vis, [] + [s], v) {
      assert Covered(g, vis, [], v);
    }
  }
}

/**
 Whom the list of a tip names: itself and its approvers, over every run of local
 additions.
 */
module TipLists {
  import opened Tips
  import opened TipsProofs

  function ListOf(c: Counter, v: Id): seq<Id> {
    if v in c.tips then c.tips[v] else []
  }

  // Every entry is an old one or the approver.
  lemma {:induction false} ApproveAllNames(c: Counter, targets: seq<Id>, approver: Id, v: Id)
    ensures forall x :: x in ListOf(ApproveAll(c, targets, approver), v) ==>
      x in ListOf(c, v) || (x == approver && v in targets)
  {
    if targets == [] {
    } else {
      var front, t := targets[..|targets| - 1], targets[|targets| - 1];
      ApproveAllNames(c, front, approver, v);
      assert forall u :: u in front ==> u in targets;
      assert t in targets;
    }
  }

  // As long as the list has room it keeps its entries.
  lemma {:induction false} ApproveAllKeeps(c: Counter, targets: seq<Id>, approver: Id, v: Id)
    requires |ListOf(c, v)| + multiset(targets)[v] <= 2
    ensures ListOf(c, v) <= ListOf(ApproveAll(c, targets, approver), v)
    ensures |ListOf(ApproveAll(c, targets, approver), v)| == |ListOf(c, v)| + multiset(targets)[v]
    ensures forall i :: |ListOf(c, v)| <= i < |ListOf(ApproveAll(c, targets, approver), v)| ==>
      ListOf(ApproveAll(c, targets, approver), v)[i] == approver
  {
    if targets == [] {
    } else {
      var front, t := targets[..|targets| - 1], targets[|targets| - 1];
      assert targets == front + [t];
      CountLast(front, t, v);
      ApproveAllKeeps(c, front, approver, v);
    }
  }

  // A tip's list names the tip and vertices that approve it; for a vertex other than
  // genesis, first the vertex itself and then approvers.
  ghost predicate Names(c: Counter, v: Id) {
    && (forall x :: x in ListOf(c, v) ==> x == v || x in Approving(c, v))
    && (v in c.tips && v != GENESIS ==> ItselfFirst(c, v))
  }

  ghost predicate ItselfFirst(c: Counter, v: Id)
    requires v in c.tips
  {
    && c.tips[v] != [] && c.tips[v][0] == v
    && forall i :: 0 < i < |c.tips[v]| ==> c.tips[v][i] in Approving(c, v)
  }

  ghost predicate AllName(d: Dag) {
    forall v {:trigger Names(d.counter, v)} :: v in d.counter.cache ==> Names(d.counter, v)
  }

  lemma {:induction false} GrowNamesNew(d: Dag, v: Vertex)
    requires Inv(d) && Grows(d, v)
    ensures Names(AddVertex(d.counter, v), v.id)
  {
    TargetsKnown(d, v);
    ApproveAllNames(Enter(d.counter, v), v.targets, v.id, v.id);
    ApproveAllKeeps(Enter(d.counter, v), v.targets, v.id, v.id);
  }

  // Whoever stays a tip had room, unless it is genesis.
  lemma {:induction false} StaysWithRoom(d: Dag, v: Vertex, u: Id)
    requires Inv(d) && Grows(d, v) && u in d.counter.cache && u != GENESIS
    requires u in AddVertex(d.counter, v).tips
    ensures u in d.counter.tips && |d.counter.tips[u]| + multiset(v.targets)[u] <= 2
  {
    TargetsKnown(d, v);
    GrowOld(d, v, u);
    assert Follows(d, u);
    GrowKeepsInv(d, v);
    assert Follows(Apply(d, Grow(v)), u);
  }

  lemma {:induction false} GrowNamesOld(d: Dag, v: Vertex, u: Id)
    requires Inv(d) && Grows(d, v) && u in d.counter.cache && Names(d.counter, u)
    ensures Names(AddVertex(d.counter, v), u)
  {
    var c, c' := Enter(d.counter, v), AddVertex(d.counter, v);
    TargetsKnown(d, v);
    GrowKeepsShape(d, v);
    GrowApproving(d.counter, c', v, u);
    assert ListOf(c, u) == ListOf(d.counter, u);
    ApproveAllNames(c, v.targets, v.id, u);
    if u in c'.tips && u != GENESIS {
      StaysWithRoom(d, v, u);
      ApproveAllKeeps(c, v.targets, v.id, u);
    }
  }

  lemma {:induction false} ApplyNames(d: Dag, e: Event)
    requires Inv(d) && AllName(d) && Enabled(d, e)
    ensures AllName(Apply(d, e))
  {
    var d' := Apply(d, e);
    if e.Grow? {
      EnabledGrows(d, e.v);
      GrowKeepsShape(d, e.v);
    }
    forall u | u in d'.counter.cache ensures Names(d'.counter, u) {
      if e.Grow? && u == e.v.id {
        GrowNamesNew(d, e.v);
      } else {
        assert Names(d.counter, u);
        if e.Grow? {
          GrowNamesOld(d, e.v, u);
        } else {
          assert Approving(d'.counter, u) == Approving(d.counter, u);
        }
      }
    }
  }

  lemma {:induction false} RunNames(ds: seq<Dag>, es: seq<Event>, width: nat, alg: Algorithm, k: nat)
    requires IsRun(ds, es, width, alg) && k < |ds|
    ensures AllName(ds[k])
  {
    if k == 0 {
      NewDagCounter(width, alg);
      assert Names(ds[0].counter, GENESIS);
    } else {
      RunNames(ds, es, width, alg, k - 1);
      RunKeepsInv(ds, es, width, alg, k - 1);
      assert ds[k - 1 + 1] == Apply(ds[k - 1], es[k - 1]);
      ApplyNames(ds[k - 1], es[k - 1]);
    }
  }

  // In every reachable state the list of a tip other than genesis is the tip followed by
  // exactly the vertices that approve it; that of genesis names only genesis and vertices
  // that approve it.
  lemma {:induction false} TipListsName(ds: seq<Dag>, es: seq<Event>, width: nat, alg: Algorithm, k: nat, v: Id)
    requires IsRun(ds, es, width, alg) && k < |ds| && v in ds[k].counter.tips
    ensures var c := ds[k].counter;
      && (forall x :: x in c.tips[v] ==> x == v || x in Approving(c, v))
      && (v != GENESIS ==> ItselfFirst(c, v) && |c.tips[v]| == 1 + |Approving(c, v)| <= 2)
  {
    RunNames(ds, es, width, alg, k);
    RunKeepsInv(ds, es, width, alg, k);
    assert Names(ds[k].counter, v);
    if v != GENESIS { VertexLifeCycle(ds, es, width, alg, k, v); }
  }
}

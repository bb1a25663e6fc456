/**
 Vertices that arrive from peers before their targets, and their relinking:
 `InsertTxDag` and `InsertIfNotExist` in `dag/insert.go`, `insertMissing` and
 `ReconcileMissingTargets` in `dag/dag.go`.
 */
module Relink {
  import opened Tips
  import opened Weights
  import opened Wrappers
  import Money = Ledger

  // The ids a vertex is linked to and those it still misses.
  datatype Site = Site(targets: seq<Id>, missing: set<Id>)

  // `declared` and `inDag` are history: the target ids given on arrival, and those of
  // them that were vertices of the DAG.
  datatype State = State(order: seq<Id>, sites: map<Id, Site>, declared: map<Id, set<Id>>, links: seq<(Id, Id)>,
                         sources: map<Id, seq<Id>>, counter: Counter, inDag: map<Id, Vertex>)

  const EMPTY := State([], map[], map[], [], map[], NO_VERTICES, map[])

  function ToSet(s: seq<Id>): set<Id> {
    set v | v in s
  }

  // The ids of a list that are in a set, in order, and those that are not.
  function Found(ids: seq<Id>, known: set<Id>): seq<Id> {
    if ids == [] then []
    else
      var last := ids[|ids| - 1];
      Found(ids[..|ids| - 1], known) + if last in known then [last] else []
  }

  lemma {:induction false} FoundHolds(ids: seq<Id>, known: set<Id>)
    ensures ToSet(Found(ids, known)) == ToSet(ids) * known
  {
    if ids == [] {
    } else {
      var front, last := ids[..|ids| - 1], ids[|ids| - 1];
      FoundHolds(front, known);
      assert ids == front + [last];
      ToSetSnoc(front, last);
      ToSetSnoc(Found(front, known), last);
      assert Found(ids, known) == if last in known then Found(front, known) + [last] else Found(front, known);
    }
  }

  // What is found keeps its order: lists are searched one after the other, a list of known
  // ids is found as it is, and one of unknown ids not at all.
  lemma {:induction false} FoundJoin(a: seq<Id>, b: seq<Id>, known: set<Id>)
    ensures Found(a + b, known) == Found(a, known) + Found(b, known)
  {
    if b == [] {
      assert a + b == a;
    } else {
      FoundJoin(a, b[..|b| - 1], known);
      assert (a + b)[..|a + b| - 1] == a + b[..|b| - 1];
    }
  }

  lemma {:induction false} FoundAsItIs(ids: seq<Id>, known: set<Id>)
    ensures (forall v :: v in ids ==> v in known) ==> Found(ids, known) == ids
    ensures (forall v :: v in ids ==> v !in known) ==> Found(ids, known) == []
  {
    if ids == [] {
    } else {
      FoundAsItIs(ids[..|ids| - 1], known);
      assert ids == ids[..|ids| - 1] + [ids[|ids| - 1]];
    }
  }

  lemma {:induction false} ToSetSnoc(s: seq<Id>, v: Id)
    ensures ToSet(s + [v]) == ToSet(s) + {v}
  {
  }

  lemma {:induction false} FoundNext(ids: seq<Id>, i: nat, known: set<Id>)
    requires i < |ids|
    ensures Found(ids[..i + 1], known) == Found(ids[..i], known) + if ids[i] in known then [ids[i]] else []
    ensures ToSet(ids[..i + 1]) == ToSet(ids[..i]) + {ids[i]}
  {
    assert ids[..i + 1][..i] == ids[..i];
    assert ids[..i + 1] == ids[..i] + [ids[i]];
    ToSetSnoc(ids[..i], ids[i]);
  }

  function Add(s: State, id: Id, site: Site, declared: set<Id>): State {
    s.(order := s.order + [id], sites := s.sites[id := site], declared := s.declared[id := declared])
  }

  // ---------------------------------------------------------------- the operations

  // A vertex arrives with the ids it approves; pins holds the ids found in pins. What
  // is found gains an approval at once. A vertex of the DAG gains an approver as well; a
  // pinned one is decoded anew for every lookup, and the list of that copy is not kept.
  function Arrive(s: State, id: Id, ids: seq<Id>, pins: set<Id>, accepted: bool): State {
    var found := Found(ids, s.sites.Keys + pins);
    if id in s.sites || !accepted then s
    else
      Add(s, id, Site(found, ToSet(ids) - s.sites.Keys - pins), ToSet(ids)).(
        links := if |found| == |ids| then s.links + LinksTo(id, found) else s.links,
        sources := LinkAll(s.sources, id, Found(ids, s.sites.Keys)),
        counter := AddVertex(s.counter, Vertex(id, found)),
        inDag := s.inDag[id := Vertex(id, Found(ids, s.sites.Keys))])
  }

  // A vertex is handed over by a peer, with all of its targets as missing.
  function HandOver(s: State, id: Id, missing: set<Id>): State {
    if id in s.sites then s else Add(s, id, Site([], missing), missing)
  }

  function HandOverAll(s: State, vs: seq<(Id, set<Id>)>): State {
    if vs == [] then s
    else var v := vs[|vs| - 1]; HandOver(HandOverAll(s, vs[..|vs| - 1]), v.0, v.1)
  }

  // What a reconcile pass links for one vertex: missing ids in the DAG, not itself.
  function Linkable(order: seq<Id>, v: Id, missing: set<Id>): seq<Id> {
    Found(order, missing - {v})
  }

  function Relinked(order: seq<Id>, v: Id, site: Site): Site {
    var new_ := Linkable(order, v, site.missing);
    Site(site.targets + new_, site.missing - ToSet(new_))
  }

  // The pass over the first n vertices.
  function Reconcile(s: State, n: nat): State
    requires n <= |s.order|
  {
    if n == 0 then s else RelinkAt(Reconcile(s, n - 1), s.order[n - 1])
  }

  function RelinkAt(s: State, v: Id): State {
    if v !in s.sites then s
    else
      s.(sites := s.sites[v := Relinked(s.order, v, s.sites[v])],
         links := s.links + LinksTo(v, Linkable(s.order, v, s.sites[v].missing)))
  }

  // -------------------------------------------------------------------- invariant

  // The declared ids are the linked and the missing ones, and none is both.
  ghost predicate Settled(declared: set<Id>, site: Site) {
    declared == ToSet(site.targets) + site.missing && ToSet(site.targets) !! site.missing
  }

  ghost predicate Accounted(s: State) {
    && s.declared.Keys == s.sites.Keys == ToSet(s.order)
    && (forall i, j :: 0 <= i < j < |s.order| ==> s.order[i] != s.order[j])
    && forall v {:trigger SettledAt(s, v)} :: v in s.sites ==> SettledAt(s, v)
  }

  ghost predicate SettledAt(s: State, v: Id) {
    v in s.sites && v in s.declared && Settled(s.declared[v], s.sites[v])
  }

  lemma {:induction false} AddAccounted(s: State, id: Id, site: Site, declared: set<Id>)
    requires Accounted(s) && id !in s.sites && Settled(declared, site)
    ensures Accounted(Add(s, id, site, declared))
  {
    var s' := Add(s, id, site, declared);
    assert id !in ToSet(s.order) && ToSet(s'.order) == ToSet(s.order) + {id};
    forall v | v in s'.sites ensures SettledAt(s', v) {
      assert v != id ==> SettledAt(s, v);
    }
  }

  lemma {:induction false} RestIgnored(s: State, s': State)
    requires Accounted(s) && s'.order == s.order && s'.sites == s.sites && s'.declared == s.declared
    ensures Accounted(s')
  {
    forall v | v in s'.sites ensures SettledAt(s', v) {
      assert SettledAt(s, v);
    }
  }

  lemma {:induction false} ArriveAccounted(s: State, id: Id, ids: seq<Id>, pins: set<Id>, accepted: bool)
    requires Accounted(s)
    ensures Accounted(Arrive(s, id, ids, pins, accepted))
  {
    if id !in s.sites && accepted {
      var found := Found(ids, s.sites.Keys + pins);
      var site := Site(found, ToSet(ids) - s.sites.Keys - pins);
      FoundHolds(ids, s.sites.Keys + pins);
      AddAccounted(s, id, site, ToSet(ids));
      RestIgnored(Add(s, id, site, ToSet(ids)), Arrive(s, id, ids, pins, accepted));
    }
  }

  lemma {:induction false} HandOverAccounted(s: State, id: Id, missing: set<Id>)
    requires Accounted(s)
    ensures Accounted(HandOver(s, id, missing))
  {
    if id !in s.sites {
      AddAccounted(s, id, Site([], missing), missing);
    }
  }

  lemma {:induction false} RelinkedSettled(declared: set<Id>, order: seq<Id>, v: Id, site: Site)
    requires Settled(declared, site)
    ensures Settled(declared, Relinked(order, v, site))
  {
    FoundHolds(order, site.missing - {v});
    var new_ := Linkable(order, v, site.missing);
    assert ToSet(site.targets + new_) == ToSet(site.targets) + ToSet(new_);
  }

  lemma {:induction false} RelinkAccounted(s: State, v: Id)
    requires Accounted(s) && v in s.sites
    ensures Accounted(RelinkAt(s, v)) && RelinkAt(s, v).sites.Keys == s.sites.Keys
  {
    var s' := RelinkAt(s, v);
    assert SettledAt(s, v);
    RelinkedSettled(s.declared[v], s.order, v, s.sites[v]);
    forall u | u in s'.sites ensures SettledAt(s', u) {
      assert u != v ==> SettledAt(s, u);
    }
  }

  lemma {:induction false} HandOverAllAccounted(s: State, vs: seq<(Id, set<Id>)>)
    requires Accounted(s)
    ensures Accounted(HandOverAll(s, vs))
  {
    if vs == [] {
    } else {
      HandOverAllAccounted(s, vs[..|vs| - 1]);
      var v := vs[|vs| - 1];
      HandOverAccounted(HandOverAll(s, vs[..|vs| - 1]), v.0, v.1);
    }
  }

  // A pass has relinked the vertices it has come to, and no others.
  ghost predicate PassedAt(s: State, s': State, n: nat, v: Id)
    requires n <= |s.order| && v in s.sites
  {
    v in s'.sites && s'.sites[v] == if v in s.order[..n] then Relinked(s.order, v, s.sites[v]) else s.sites[v]
  }

  ghost predicate Passed(s: State, s': State, n: nat)
    requires n <= |s.order|
  {
    && Accounted(s') && s'.order == s.order && s'.declared == s.declared && s'.sites.Keys == s.sites.Keys
    && s'.sources == s.sources && s'.counter == s.counter && s'.inDag == s.inDag
    && forall v {:trigger PassedAt(s, s', n, v)} :: v in s.sites ==> PassedAt(s, s', n, v)
  }

  lemma {:induction false} PassNext(s: State, s': State, s'': State, n: nat, next: nat)
    requires next == n + 1 <= |s.order| && Accounted(s) && Passed(s, s', n) && s'' == RelinkAt(s', s.order[n])
    ensures Passed(s, s'', next)
  {
    var u := s.order[n];
    assert u in ToSet(s.order);
    RelinkAccounted(s', u);
    assert PassedAt(s, s', n, u) && u !in s.order[..n];
    assert s.order[..next] == s.order[..n] + [u];
    forall v | v in s.sites ensures PassedAt(s, s'', next, v) {
      assert PassedAt(s, s', n, v);
    }
  }

  lemma {:induction false} ReconcileNext(s: State, n: nat, next: nat)
    requires next == n + 1 <= |s.order|
    ensures Reconcile(s, next) == RelinkAt(Reconcile(s, n), s.order[n])
  {
  }

  lemma {:induction false} PassStart(s: State)
    requires Accounted(s)
    ensures Passed(s, s, 0)
  {
    assert s.order[..0] == [];
  }

  lemma {:induction false} ReconcilePasses(s: State, n: nat)
    requires Accounted(s) && n <= |s.order|
    ensures Passed(s, Reconcile(s, n), n)
  {
    if n == 0 {
      PassStart(s);
    } else {
      ReconcilePasses(s, n - 1);
      var before, after := Reconcile(s, n - 1), Reconcile(s, n);
      PassNext(s, before, after, n - 1, n);
    }
  }

  function ReconcileAll(s: State): State {
    Reconcile(s, |s.order|)
  }

  ghost predicate NothingMissing(s: State) {
    forall v :: v in s.sites ==> s.sites[v].missing == {}
  }

  lemma {:induction false} ReconcileAllPasses(s: State)
    requires Accounted(s)
    ensures Passed(s, ReconcileAll(s), |s.order|)
  {
    ReconcilePasses(s, |s.order|);
  }

  lemma {:induction false} RelinkedAfter(s: State, v: Id)
    requires Accounted(s) && v in s.sites
    ensures v in ReconcileAll(s).sites && ReconcileAll(s).sites[v] == Relinked(s.order, v, s.sites[v])
  {
    ReconcileAllPasses(s);
    assert PassedAt(s, ReconcileAll(s), |s.order|, v);
    assert v in ToSet(s.order) && s.order[..|s.order|] == s.order;
  }

  // A pass takes from the missing ids those in the DAG, except the vertex itself.
  lemma {:induction false} MissingAfter(s: State, v: Id)
    requires Accounted(s) && v in s.sites
    ensures v in ReconcileAll(s).sites
    ensures ReconcileAll(s).sites[v].missing == s.sites[v].missing - (s.sites.Keys - {v})
  {
    RelinkedAfter(s, v);
    FoundHolds(s.order, s.sites[v].missing - {v});
  }

  // v misses nothing that a pass could not link.
  ghost predicate CanComplete(s: State, v: Id)
    requires v in s.sites
  {
    forall m :: m in s.sites[v].missing ==> m in s.sites && m != v
  }

  // One pass leaves nothing missing exactly when every missing id is in the DAG and
  // no vertex misses itself.
  lemma {:induction false} ReconcileCompletesIff(s: State)
    requires Accounted(s)
    ensures NothingMissing(ReconcileAll(s)) <==> forall v :: v in s.sites ==> CanComplete(s, v)
  {
    ReconcileAllPasses(s);
    forall v | v in s.sites
      ensures ReconcileAll(s).sites[v].missing == {} <==> CanComplete(s, v)
    {
      MissingAfter(s, v);
      var left := ReconcileAll(s).sites[v].missing;
      if CanComplete(s, v) {
        assert left == {};
      } else {
        var m :| m in s.sites[v].missing && !(m in s.sites && m != v);
        assert m in left;
      }
    }
  }

  // What a peer sends along with a vertex: the ids it has linked, to be found anew.
  function Outgoing(site: Site): set<Id> {
    ToSet(site.targets)
  }

  // A relayed vertex keeps its declared ids exactly when the sender misses none.
  lemma {:induction false} RelayIsFaithfulIff(s: State, v: Id)
    requires Accounted(s) && v in s.sites
    ensures v in s.declared && (Outgoing(s.sites[v]) == s.declared[v] <==> s.sites[v].missing == {})
  {
    assert SettledAt(s, v);
    if s.sites[v].missing != {} {
      var m :| m in s.sites[v].missing;
      assert m in s.declared[v] && m !in Outgoing(s.sites[v]);
    }
  }

  // --------------------------------------------------------------- approver lists

  // The approver lists hold the vertices that found the target in the DAG; what they
  // found there is counted, and what is counted is linked.
  ghost predicate Counted(s: State) {
    && Matches(s.inDag, s.sources) && s.inDag.Keys == s.counter.cache.Keys
    && forall u {:trigger CountedAt(s, u)} :: u in s.counter.cache ==> CountedAt(s, u)
  }

  ghost predicate CountedAt(s: State, u: Id) {
    && u in s.counter.cache && u in s.inDag && u in s.sites
    && ToSet(s.inDag[u].targets) <= s.sites.Keys
    && ToSet(s.inDag[u].targets) <= ToSet(s.counter.cache[u].targets) <= ToSet(s.sites[u].targets)
  }

  lemma {:induction false} ArriveCounted(s: State, id: Id, ids: seq<Id>, pins: set<Id>, accepted: bool)
    requires Counted(s)
    ensures Counted(Arrive(s, id, ids, pins, accepted))
  {
    if id !in s.sites && accepted {
      var v, w := Vertex(id, Found(ids, s.sites.Keys + pins)), Vertex(id, Found(ids, s.sites.Keys));
      assert id in s.counter.cache ==> CountedAt(s, id);
      FoundHolds(ids, s.sites.Keys + pins);
      FoundHolds(ids, s.sites.Keys);
      ApproveAllCache(Enter(s.counter, v), v.targets, id);
      GrowMatches(s.inDag, s.sources, w);
      var s' := Arrive(s, id, ids, pins, accepted);
      forall u | u in s'.counter.cache ensures CountedAt(s', u) {
        assert u != id ==> CountedAt(s, u);
      }
    }
  }

  lemma {:induction false} HandOverCounted(s: State, id: Id, missing: set<Id>)
    requires Counted(s)
    ensures Counted(HandOver(s, id, missing))
  {
    var s' := HandOver(s, id, missing);
    forall u | u in s'.counter.cache ensures CountedAt(s', u) {
      assert CountedAt(s, u);
    }
  }

  lemma {:induction false} HandOverAllCounted(s: State, vs: seq<(Id, set<Id>)>)
    requires Counted(s)
    ensures Counted(HandOverAll(s, vs))
  {
    if vs == [] {
    } else {
      HandOverAllCounted(s, vs[..|vs| - 1]);
      var v := vs[|vs| - 1];
      HandOverCounted(HandOverAll(s, vs[..|vs| - 1]), v.0, v.1);
    }
  }

  lemma {:induction false} PassCounted(s: State)
    requires Accounted(s) && Counted(s)
    ensures Counted(ReconcileAll(s))
  {
    var s' := ReconcileAll(s);
    ReconcileAllPasses(s);
    forall u | u in s'.counter.cache ensures CountedAt(s', u) {
      assert CountedAt(s, u);
      RelinkedAfter(s, u);
    }
  }

  // Every linked target has the vertex among its approvers.
  ghost predicate Approved(s: State, v: Id)
    requires v in s.sites
  {
    forall t :: t in s.sites[v].targets ==> v in SourcesOf(s.sources, t)
  }

  lemma {:induction false} MissedIsNotApproved(s: State, v: Id, t: Id)
    requires Accounted(s) && Counted(s) && v in s.sites && t in s.sites[v].missing
    ensures v !in SourcesOf(s.sources, t)
  {
    assert SettledAt(s, v);
    assert v in s.counter.cache ==> CountedAt(s, v);
    var targets := if v in s.inDag then s.inDag[v].targets else [];
    assert forall u :: u in targets ==> u in ToSet(targets);
  }

  // A pass links without approving: afterwards a vertex is an approver of all it is
  // linked to exactly when it was before and the pass linked nothing for it.
  lemma {:induction false} RelinkedIsNotApproved(s: State, v: Id)
    requires Accounted(s) && Counted(s) && v in s.sites
    ensures v in ReconcileAll(s).sites
    ensures Approved(ReconcileAll(s), v) <==> Approved(s, v) && Linkable(s.order, v, s.sites[v].missing) == []
  {
    var s', new_ := ReconcileAll(s), Linkable(s.order, v, s.sites[v].missing);
    RelinkedAfter(s, v);
    ReconcileAllPasses(s);
    assert s'.sites[v].targets == s.sites[v].targets + new_;
    if new_ != [] {
      var t := new_[0];
      FoundHolds(s.order, s.sites[v].missing - {v});
      assert t in ToSet(new_);
      MissedIsNotApproved(s, v, t);
      assert t in s'.sites[v].targets;
    }
  }

  // ------------------------------------------------------------------------- runs

  datatype Op =
    | Arrival(id: Id, ids: seq<Id>, pins: set<Id>, accepted: bool)
    | Handover(vs: seq<(Id, set<Id>)>)
    | Pass
    | Pop

  function Apply(s: State, op: Op): State {
    match op
    case Arrival(id, ids, pins, accepted) => Arrive(s, id, ids, pins, accepted)
    case Handover(vs) => HandOverAll(s, vs)
    case Pass => ReconcileAll(s)
    case Pop => s.(counter := s.counter.(confirmed := {}))
  }

  function Run(s: State, ops: seq<Op>): State {
    if ops == [] then s else Apply(Run(s, ops[..|ops| - 1]), ops[|ops| - 1])
  }

  // At all times, whatever arrives and in whatever order, declared ids are linked or
  // missing and never both, and approver lists agree with the counter.
  lemma {:induction false} RunAccounted(s: State, ops: seq<Op>)
    requires Accounted(s) && Counted(s)
    ensures Accounted(Run(s, ops)) && Counted(Run(s, ops))
  {
    if ops == [] {
    } else {
      RunAccounted(s, ops[..|ops| - 1]);
      ApplyAccounted(Run(s, ops[..|ops| - 1]), ops[|ops| - 1]);
    }
  }

  lemma {:induction false} ApplyAccounted(s: State, op: Op)
    requires Accounted(s) && Counted(s)
    ensures Accounted(Apply(s, op)) && Counted(Apply(s, op))
  {
    match op {
      case Arrival(id, ids, pins, accepted) =>
        ArriveAccounted(s, id, ids, pins, accepted);
        ArriveCounted(s, id, ids, pins, accepted);
      case Handover(vs) =>
        HandOverAllAccounted(s, vs);
        HandOverAllCounted(s, vs);
      case Pass =>
        ReconcileAllPasses(s);
        PassCounted(s);
      case Pop =>
        RestIgnored(s, Apply(s, op));
        PopCounted(s);
    }
  }

  lemma {:induction false} PopCounted(s: State)
    requires Counted(s)
    ensures Counted(Apply(s, Pop))
  {
    forall u | u in s.counter.cache ensures CountedAt(Apply(s, Pop), u) {
      assert CountedAt(s, u);
    }
  }

  // ------------------------------------------------------------------- all arrived

  // Every missing id of every vertex is in the DAG, and none is the vertex itself.
  ghost predicate AllArrived(s: State) {
    forall v :: v in s.sites ==> CanComplete(s, v)
  }

  ghost predicate AllLinked(s: State) {
    forall v :: v in s.sites ==> v in s.declared && ToSet(s.sites[v].targets) == s.declared[v]
  }

  // What is declared is linked exactly when nothing is missing.
  lemma {:induction false} LinkedIff(s: State)
    requires Accounted(s)
    ensures AllLinked(s) <==> NothingMissing(s)
  {
    forall v | v in s.sites ensures ToSet(s.sites[v].targets) == s.declared[v] <==> s.sites[v].missing == {} {
      RelayIsFaithfulIff(s, v);
    }
  }

  // After any run, one pass links for every vertex exactly what it declared, if and
  // only if all that was still missing has arrived.
  lemma {:induction false} DeclaredIsLinked(ops: seq<Op>)
    ensures AllLinked(ReconcileAll(Run(EMPTY, ops))) <==> AllArrived(Run(EMPTY, ops))
  {
    var s := Run(EMPTY, ops);
    RunAccounted(EMPTY, ops);
    ReconcileCompletesIff(s);
    ReconcileAllPasses(s);
    LinkedIff(ReconcileAll(s));
  }

  // A vertex that declares itself misses itself for good.
  lemma {:induction false} SelfStaysMissing(s: State, v: Id)
    requires Accounted(s) && v in s.sites && v in s.sites[v].missing
    ensures v in ReconcileAll(s).sites && v in ReconcileAll(s).sites[v].missing
  {
    MissingAfter(s, v);
  }

  lemma {:induction false} SelfDeclared()
    ensures var s := Arrive(EMPTY, 1, [1], {}, true);
      Accounted(s) && ToSet(s.order) == {1} && s.declared == map[1 := {1}] && !NothingMissing(ReconcileAll(s))
  {
    var s := Arrive(EMPTY, 1, [1], {}, true);
    ArriveAccounted(EMPTY, 1, [1], {}, true);
    assert Found([1], {}) == [];
    assert ToSet([1]) == {1};
    SelfStaysMissing(s, 1);
  }

  // The counter has counted every vertex it could hand out.
  ghost predicate KnowsConfirmed(s: State) {
    s.counter.confirmed <= s.counter.cache.Keys
  }

  // ------------------------------------------------------------------- in place

  datatype Outcome = Ignored | Refused | Incomplete(notFound: seq<Id>) | Complete

  class Dag {
    var order: seq<Id>
    var sites: map<Id, Site>
    var links: seq<(Id, Id)>
    var sources: map<Id, seq<Id>>
    const counter: ConfirmationCounter
    ghost var declared: map<Id, set<Id>>
    ghost var inDag: map<Id, Vertex>

    ghost function Now(): State
      reads this, counter
    {
      State(order, sites, declared, links, sources, counter.State(), inDag)
    }

    constructor ()
      ensures Now() == EMPTY && fresh(counter)
    {
      order, sites, links, sources, declared, inDag := [], map[], [], map[], map[], map[];
      counter := new ConfirmationCounter();
    }

    // Adds a vertex from a peer, when the ledger accepts its payment; reports an error,
    // and adds it all the same, when some of its targets are not known.
    method InsertTxDag(id: Id, ids: seq<Id>, pins: set<Id>, payment: Money.Payment, ledger: Money.NodeTxPin,
                       cache: Money.WalletCache) returns (r: Outcome)
      modifies this, counter, cache
      ensures var (paid, accepted) := Money.Pay(old(Money.State(cache.cache, ledger.pins)), payment);
        && Now() == Arrive(old(Now()), id, ids, pins, accepted)
        && (r.Ignored? <==> id in old(sites))
        && (r.Refused? <==> id !in old(sites) && !accepted)
        && Money.State(cache.cache, ledger.pins)
           == if r.Ignored? then old(Money.State(cache.cache, ledger.pins)) else paid
      ensures r.Ignored? || r.Refused? ==> Now() == old(Now())
      ensures r.Complete? || r.Incomplete? ==>
        && order == old(order) + [id] && sites.Keys == old(sites).Keys + {id}
        && declared == old(declared)[id := ToSet(ids)]
      ensures r.Complete? ==> id in sites && sites[id].missing == {}
      ensures r.Incomplete? ==> id in sites && r.notFound != [] && ToSet(r.notFound) == sites[id].missing
    {
      if id in sites { return Ignored; }
      var candidates, found, notFound := Search(ids, pins);
      var accepted := cache.UpdateBalanceIfValid(ledger, payment);
      if !accepted { return Refused; }
      sources := LinkTargets(sources, id, found);
      declared, inDag := declared[id := ToSet(ids)], inDag[id := Vertex(id, found)];
      sites := sites[id := Site(candidates, set m | m in notFound)];
      order := order + [id];
      counter.Add(Vertex(id, candidates));
      if |candidates| != |ids| { return Incomplete(notFound); }
      links := links + LinksTo(id, candidates);
      return Complete;
    }

    // The ids found at all, those found in the DAG, and those not found.
    method Search(ids: seq<Id>, pins: set<Id>) returns (candidates: seq<Id>, found: seq<Id>, notFound: seq<Id>)
      ensures candidates == Found(ids, sites.Keys + pins) && found == Found(ids, sites.Keys)
      ensures ToSet(notFound) == ToSet(ids) - sites.Keys - pins
      ensures notFound == [] <==> |candidates| == |ids|
    {
      candidates, found, notFound := [], [], [];
      ghost var known := sites.Keys + pins;
      var i := 0;
      while i < |ids|
        invariant 0 <= i <= |ids|
        invariant candidates == Found(ids[..i], known) && found == Found(ids[..i], sites.Keys)
        invariant ToSet(notFound) == ToSet(ids[..i]) - known
        invariant |candidates| + |notFound| == i
      {
        FoundNext(ids, i, known);
        FoundNext(ids, i, sites.Keys);
        if ids[i] in sites {
          candidates, found := candidates + [ids[i]], found + [ids[i]];
        } else if ids[i] in pins {
          candidates := candidates + [ids[i]];
        } else {
          ToSetSnoc(notFound, ids[i]);
          notFound := notFound + [ids[i]];
        }
        i := i + 1;
      }
      assert ids[..i] == ids;
    }

    // The confirmed vertices, each once, for a new pin; one is nil exactly when the
    // counter has not counted it.
    method GetConfirmedSites() returns (ids: seq<Id>, nodes: seq<Option<Vertex>>)
      modifies counter
      ensures Now() == Apply(old(Now()), Pop)
      ensures multiset(ids) == multiset(old(counter.confirmed)) && |nodes| == |ids|
      ensures forall i :: 0 <= i < |ids| ==>
        nodes[i] == if ids[i] in counter.cache then Some(counter.cache[ids[i]]) else None
      ensures (forall i :: 0 <= i < |nodes| ==> nodes[i].Some?) <==> KnowsConfirmed(old(Now()))
    {
      ids, nodes := counter.Pop();
      assert forall id :: id in multiset(ids) <==> id in old(counter.confirmed);
      assert forall i :: 0 <= i < |ids| ==> ids[i] in multiset(ids);
      forall id | id in old(counter.confirmed) ensures exists i :: 0 <= i < |ids| && ids[i] == id {
        assert id in ids;
      }
    }

    method InsertIfNotExist(vs: seq<(Id, set<Id>)>)
      modifies this
      ensures Now() == HandOverAll(old(Now()), vs)
    {
      var i := 0;
      while i < |vs|
        invariant 0 <= i <= |vs|
        invariant Now() == HandOverAll(old(Now()), vs[..i])
      {
        assert vs[..i + 1][..i] == vs[..i];
        var (id, missing) := vs[i];
        if id !in sites {
          order, sites, declared := order + [id], sites[id := Site([], missing)], declared[id := missing];
        }
        i := i + 1;
      }
      assert vs[..i] == vs;
    }

    // Links what can be linked and lists what is still to be requested.
    method ReconcileMissingTargets() returns (requests: seq<Id>)
      requires Accounted(Now())
      modifies this
      ensures Now() == ReconcileAll(old(Now())) && AsksForMissing(Now(), requests)
    {
      requests := [];
      ghost var start := Now();
      PassStart(start);
      var i := 0;
      while i < |order|
        invariant 0 <= i <= |order| && OnPass(start, Now(), i, requests)
      {
        requests := ReconcileAt(start, i, requests);
        i := i + 1;
      }
      AsksForAll(Now(), requests);
    }

    // One vertex of a pass.
    method ReconcileAt(ghost start: State, i: nat, requests: seq<Id>) returns (requests': seq<Id>)
      requires Accounted(start) && i < |order| && OnPass(start, Now(), i, requests)
      modifies this`sites, this`links
      ensures OnPass(start, Now(), i + 1, requests')
    {
      assert order[i] in ToSet(order);
      RelinkSite(order[i]);
      var missed := Listed(sites[order[i]].missing);
      requests' := requests + missed;
      OnPassNext(start, old(Now()), Now(), i, requests, missed);
    }

    method RelinkSite(v: Id)
      requires v in sites
      modifies this`sites, this`links
      ensures Now() == RelinkAt(old(Now()), v)
    {
      var possible := Possible(v, sites[v].missing);
      var i, site := 0, sites[v];
      while i < |possible|
        invariant 0 <= i <= |possible|
        invariant site == Site(old(sites)[v].targets + possible[..i], old(sites)[v].missing - ToSet(possible[..i]))
        invariant links == old(links) + LinksTo(v, possible)[..i] && sites == old(sites)
      {
        var t := possible[i];
        assert possible[..i + 1] == possible[..i] + [t];
        assert ToSet(possible[..i + 1]) == ToSet(possible[..i]) + {t};
        site := Site(site.targets + [t], site.missing - {t});
        links := links + [(v, t)];
        i := i + 1;
      }
      assert possible[..i] == possible;
      sites := sites[v := site];
    }

    // The vertices of the DAG, other than v, that v misses.
    method Possible(v: Id, missing: set<Id>) returns (possible: seq<Id>)
      ensures possible == Linkable(order, v, missing)
    {
      possible := [];
      var i := 0;
      while i < |order|
        invariant 0 <= i <= |order|
        invariant possible == Found(order[..i], missing - {v})
      {
        FoundNext(order, i, missing - {v});
        if order[i] != v && order[i] in missing { possible := possible + [order[i]]; }
        i := i + 1;
      }
      assert order[..i] == order;
    }
  }

  method Listed(s: set<Id>) returns (r: seq<Id>)
    ensures forall m :: m in r <==> m in s
  {
    r := [];
    var rest := s;
    while rest != {}
      invariant rest <= s && forall m :: m in r <==> m in s - rest
      decreases rest
    {
      var m :| m in rest;
      r, rest := r + [m], rest - {m};
    }
  }

  // One of the first n vertices misses m.
  ghost predicate MissedBefore(s: State, n: nat, m: Id) {
    exists k :: 0 <= k < n && k < |s.order| && MissesAt(s, s.order[k], m)
  }

  // The list holds exactly what the first n vertices miss.
  ghost predicate AsksFor(s: State, n: nat, requests: seq<Id>) {
    forall m {:trigger MissedBefore(s, n, m)} :: m in requests <==> MissedBefore(s, n, m)
  }

  // The pass has come to vertex i, with the requests so far.
  ghost predicate OnPass(start: State, s: State, i: nat, requests: seq<Id>) {
    i <= |start.order| && s == Reconcile(start, i) && Passed(start, s, i) && AsksFor(s, i, requests)
  }

  lemma {:induction false} OnPassNext(start: State, s: State, s': State, i: nat, requests: seq<Id>, missed: seq<Id>)
    requires Accounted(start) && i < |start.order| && OnPass(start, s, i, requests)
    requires s' == RelinkAt(s, s.order[i]) && forall m :: m in missed <==> MissesAt(s', s.order[i], m)
    ensures OnPass(start, s', i + 1, requests + missed)
  {
    ReconcileNext(start, i, i + 1);
    PassNext(start, s, s', i, i + 1);
    AsksForNext(s, s', i, requests, missed);
  }

  lemma {:induction false} AsksForNext(s: State, s': State, i: nat, requests: seq<Id>, missed: seq<Id>)
    requires Accounted(s) && i < |s.order| && AsksFor(s, i, requests)
    requires s' == RelinkAt(s, s.order[i]) && forall m :: m in missed <==> MissesAt(s', s.order[i], m)
    ensures AsksFor(s', i + 1, requests + missed)
  {
    forall m ensures m in requests + missed <==> MissedBefore(s', i + 1, m) {
      assert m in requests <==> MissedBefore(s, i, m);
      MissedNext(s, s', i, m);
    }
  }

  // The list holds exactly what any vertex misses.
  ghost predicate AsksForMissing(s: State, requests: seq<Id>) {
    forall m :: m in requests <==> exists v :: MissesAt(s, v, m)
  }

  lemma {:induction false} AsksForAll(s: State, requests: seq<Id>)
    requires Accounted(s) && AsksFor(s, |s.order|, requests)
    ensures AsksForMissing(s, requests)
  {
    forall m ensures m in requests <==> exists v :: MissesAt(s, v, m) {
      assert m in requests <==> MissedBefore(s, |s.order|, m);
      MissedAtAll(s, m);
    }
  }

  ghost predicate MissesAt(s: State, v: Id, m: Id) {
    v in s.sites && m in s.sites[v].missing
  }

  lemma {:induction false} MissedUpTo(s: State, i: nat, m: Id)
    requires i < |s.order|
    ensures MissedBefore(s, i + 1, m) <==> MissedBefore(s, i, m) || MissesAt(s, s.order[i], m)
  {
  }

  lemma {:induction false} MissedNext(s: State, s': State, i: nat, m: Id)
    requires Accounted(s) && i < |s.order| && s' == RelinkAt(s, s.order[i])
    ensures MissedBefore(s', i + 1, m) <==> MissedBefore(s, i, m) || MissesAt(s', s.order[i], m)
  {
    MissedUpTo(s', i, m);
    forall k: nat | k < i ensures MissesAt(s', s'.order[k], m) <==> MissesAt(s, s.order[k], m) {
      assert s.order[k] != s.order[i];
    }
  }

  lemma {:induction false} MissedAtAll(s: State, m: Id)
    requires Accounted(s)
    ensures MissedBefore(s, |s.order|, m) <==> exists v :: MissesAt(s, v, m)
  {
    forall v | MissesAt(s, v, m) ensures MissedBefore(s, |s.order|, m) {
      assert v in ToSet(s.order);
      var k :| 0 <= k < |s.order| && s.order[k] == v;
    }
  }
}

/**
 Runs of a DAG fed by peers: what late targets and pinned targets do to the approver
 lists and to the confirmation counter (`dag/insert.go`, `dag/confirmation.go`).
 */
module PeerRuns {
  import opened Tips
  import opened Weights
  import opened Relink
  import Marks = TipsProofs

  // ----------------------------------------------------------- approvers stay the same

  lemma {:induction false} HandOverAllKeeps(s: State, vs: seq<(Id, set<Id>)>)
    ensures var s' := HandOverAll(s, vs);
      s'.sources == s.sources && s'.counter == s.counter && s.sites.Keys <= s'.sites.Keys
  {
    if vs == [] {
    } else {
      HandOverAllKeeps(s, vs[..|vs| - 1]);
    }
  }

  lemma {:induction false} ReconcileKeeps(s: State, n: nat)
    requires n <= |s.order|
    ensures var s' := Reconcile(s, n);
      s'.sources == s.sources && s'.counter == s.counter && s.sites.Keys <= s'.sites.Keys
  {
    if n == 0 {
    } else {
      ReconcileKeeps(s, n - 1);
    }
  }

  lemma {:induction false} ApplyKeepsApprovers(s: State, op: Op, v: Id, t: Id)
    requires v in s.sites
    ensures v in Apply(s, op).sites
    ensures v in SourcesOf(Apply(s, op).sources, t) <==> v in SourcesOf(s.sources, t)
  {
    match op {
      case Arrival(id, ids, pins, accepted) => LinkAllSources(s.sources, id, Found(ids, s.sites.Keys), t);
      case Handover(vs) => HandOverAllKeeps(s, vs);
      case Pass => ReconcileKeeps(s, |s.order|);
      case Pop =>
    }
  }

  // Whatever happens later, a vertex of the DAG gains no target to approve.
  lemma {:induction false} ApproversStay(s: State, ops: seq<Op>, v: Id, t: Id)
    requires v in s.sites
    ensures v in Run(s, ops).sites
    ensures v in SourcesOf(Run(s, ops).sources, t) <==> v in SourcesOf(s.sources, t)
  {
    if ops == [] {
    } else {
      ApproversStay(s, ops[..|ops| - 1], v, t);
      ApplyKeepsApprovers(Run(s, ops[..|ops| - 1]), ops[|ops| - 1], v, t);
    }
  }

  // A target that was missing once is never approved, in any run that follows.
  lemma {:induction false} MissedIsNeverApproved(s: State, ops: seq<Op>, v: Id, t: Id)
    requires Accounted(s) && Counted(s) && v in s.sites && t in s.sites[v].missing
    ensures v !in SourcesOf(Run(s, ops).sources, t)
  {
    MissedIsNotApproved(s, v, t);
    ApproversStay(s, ops, v, t);
  }

  // ------------------------------------------------------------------------- links

  // What a vertex was linked to on its arrival.
  function First(s: State, v: Id): seq<Id> {
    if v in s.counter.cache then s.counter.cache[v].targets else []
  }

  // The links from a vertex lead to all its targets, or, if it found some of the declared
  // ids on arrival and missed others, to those that passes have linked.
  ghost predicate LinksAt(s: State, v: Id) {
    && v in s.sites && v in s.declared && First(s, v) <= s.sites[v].targets
    && TargetsIn(s.links, v) == Leads(First(s, v), s.declared[v], s.sites[v].targets)
  }

  ghost function Leads(first: seq<Id>, declared: set<Id>, targets: seq<Id>): seq<Id>
    requires first <= targets
  {
    if ToSet(first) == declared then targets else targets[|first|..]
  }

  lemma {:induction false} LeadsOn(first: seq<Id>, declared: set<Id>, targets: seq<Id>, more: seq<Id>)
    requires first <= targets
    ensures first <= targets + more
    ensures Leads(first, declared, targets + more) == Leads(first, declared, targets) + more
  {
    assert (targets + more)[|first|..] == targets[|first|..] + more;
  }

  ghost predicate LinksHold(s: State) {
    && (forall v {:trigger LinksAt(s, v)} :: v in s.sites ==> LinksAt(s, v))
    && (forall l :: l in s.links ==> l.0 in s.sites)
    && s.counter.cache.Keys <= s.sites.Keys
  }

  lemma {:induction false} NoLinksYet(s: State, v: Id)
    requires LinksHold(s) && v !in s.sites
    ensures TargetsIn(s.links, v) == [] && First(s, v) == []
  {
    NoTargetsIn(s.links, v);
  }

  lemma {:induction false} AllFound(ids: seq<Id>, known: set<Id>)
    ensures |Found(ids, known)| <= |ids|
    ensures |Found(ids, known)| == |ids| <==> ToSet(ids) <= known
  {
    if ids == [] {
    } else {
      var front, last := ids[..|ids| - 1], ids[|ids| - 1];
      AllFound(front, known);
      assert ids == front + [last];
      ToSetSnoc(front, last);
    }
  }

  lemma {:induction false} ArriveFirst(s: State, id: Id, ids: seq<Id>, pins: set<Id>, s': State, found: seq<Id>)
    requires id !in s.sites && s' == Arrive(s, id, ids, pins, true) && found == Found(ids, s.sites.Keys + pins)
    ensures First(s', id) == found && s'.counter.cache.Keys == s.counter.cache.Keys + {id}
    ensures forall v :: v != id ==> First(s', v) == First(s, v)
  {
    var v := Vertex(id, found);
    assert s'.counter == AddVertex(s.counter, v);
    ApproveAllCache(Enter(s.counter, v), v.targets, id);
  }

  // All ids are found exactly when those found are all the ids.
  lemma {:induction false} FoundIsAll(ids: seq<Id>, known: set<Id>)
    ensures |Found(ids, known)| == |ids| <==> ToSet(Found(ids, known)) == ToSet(ids)
  {
    AllFound(ids, known);
    FoundHolds(ids, known);
  }

  lemma {:induction false} ArriveLeads(s: State, id: Id, ids: seq<Id>, pins: set<Id>, s': State, found: seq<Id>, u: Id)
    requires id !in s.sites && s' == Arrive(s, id, ids, pins, true) && found == Found(ids, s.sites.Keys + pins)
    ensures TargetsIn(s'.links, u) == TargetsIn(s.links, u) + if u == id && |found| == |ids| then found else []
  {
    LinkedOn(s.links, id, found, u);
  }

  lemma {:induction false} ArriveSite(s: State, id: Id, ids: seq<Id>, pins: set<Id>, s': State, found: seq<Id>)
    requires id !in s.sites && s' == Arrive(s, id, ids, pins, true) && found == Found(ids, s.sites.Keys + pins)
    ensures id in s'.sites && s'.sites[id].targets == found && id in s'.declared && s'.declared[id] == ToSet(ids)
    ensures forall v :: v in s.sites ==> v in s'.sites && s'.sites[v] == s.sites[v]
    ensures forall v :: v in s.declared && v != id ==> v in s'.declared && s'.declared[v] == s.declared[v]
  {
  }

  lemma {:induction false} ArriveLinksNew(s: State, id: Id, ids: seq<Id>, pins: set<Id>, s': State)
    requires LinksHold(s) && id !in s.sites && s' == Arrive(s, id, ids, pins, true)
    ensures LinksAt(s', id)
  {
    var found := Found(ids, s.sites.Keys + pins);
    ArriveFirst(s, id, ids, pins, s', found);
    ArriveSite(s, id, ids, pins, s', found);
    ArriveLeads(s, id, ids, pins, s', found, id);
    FoundIsAll(ids, s.sites.Keys + pins);
    NoLinksYet(s, id);
    assert found[|found|..] == [];
  }

  lemma {:induction false} ArriveLinksOld(s: State, id: Id, ids: seq<Id>, pins: set<Id>, s': State, v: Id)
    requires LinksHold(s) && id !in s.sites && s' == Arrive(s, id, ids, pins, true) && v in s.sites
    ensures LinksAt(s', v)
  {
    var found := Found(ids, s.sites.Keys + pins);
    assert LinksAt(s, v);
    ArriveFirst(s, id, ids, pins, s', found);
    ArriveSite(s, id, ids, pins, s', found);
    ArriveLeads(s, id, ids, pins, s', found, v);
  }

  lemma {:induction false} ArriveLinks(s: State, id: Id, ids: seq<Id>, pins: set<Id>, accepted: bool)
    requires LinksHold(s)
    ensures LinksHold(Arrive(s, id, ids, pins, accepted))
  {
    var s' := Arrive(s, id, ids, pins, accepted);
    if id !in s.sites && accepted {
      forall v | v in s'.sites ensures LinksAt(s', v) {
        if v == id { ArriveLinksNew(s, id, ids, pins, s'); } else { ArriveLinksOld(s, id, ids, pins, s', v); }
      }
      ArriveFirst(s, id, ids, pins, s', Found(ids, s.sites.Keys + pins));
    }
  }

  lemma {:induction false} HandOverLinks(s: State, id: Id, missing: set<Id>)
    requires LinksHold(s)
    ensures LinksHold(HandOver(s, id, missing))
  {
    var s' := HandOver(s, id, missing);
    if id !in s.sites {
      NoLinksYet(s, id);
      forall v | v in s'.sites ensures LinksAt(s', v) {
        assert v != id ==> LinksAt(s, v) && First(s', v) == First(s, v);
      }
    }
  }

  lemma {:induction false} HandOverAllLinks(s: State, vs: seq<(Id, set<Id>)>)
    requires LinksHold(s)
    ensures LinksHold(HandOverAll(s, vs))
  {
    if vs == [] {
    } else {
      HandOverAllLinks(s, vs[..|vs| - 1]);
      var v := vs[|vs| - 1];
      HandOverLinks(HandOverAll(s, vs[..|vs| - 1]), v.0, v.1);
    }
  }

  lemma {:induction false} RelinkLinksAt(s: State, v: Id, s': State, u: Id)
    requires LinksAt(s, u) && v in s.sites && s' == RelinkAt(s, v)
    ensures LinksAt(s', u)
  {
    var new_ := Linkable(s.order, v, s.sites[v].missing);
    LinkedOn(s.links, v, new_, u);
    assert First(s', u) == First(s, u);
    LeadsOn(First(s, u), s.declared[u], s.sites[u].targets, new_);
  }

  lemma {:induction false} RelinkLinks(s: State, v: Id)
    requires LinksHold(s)
    ensures LinksHold(RelinkAt(s, v))
  {
    var s' := RelinkAt(s, v);
    if v in s.sites {
      forall u | u in s'.sites ensures LinksAt(s', u) {
        assert LinksAt(s, u);
        RelinkLinksAt(s, v, s', u);
      }
    }
  }

  lemma {:induction false} ReconcileLinks(s: State, n: nat)
    requires LinksHold(s) && n <= |s.order|
    ensures LinksHold(Reconcile(s, n))
  {
    if n == 0 {
    } else {
      ReconcileLinks(s, n - 1);
      RelinkLinks(Reconcile(s, n - 1), s.order[n - 1]);
    }
  }

  lemma {:induction false} PopLinks(s: State)
    requires LinksHold(s)
    ensures LinksHold(Apply(s, Pop))
  {
    forall v | v in s.sites ensures LinksAt(Apply(s, Pop), v) {
      assert LinksAt(s, v) && First(Apply(s, Pop), v) == First(s, v);
    }
  }

  lemma {:induction false} ApplyLinks(s: State, op: Op)
    requires LinksHold(s)
    ensures LinksHold(Apply(s, op))
  {
    match op {
      case Arrival(id, ids, pins, accepted) => ArriveLinks(s, id, ids, pins, accepted);
      case Handover(vs) => HandOverAllLinks(s, vs);
      case Pass => ReconcileLinks(s, |s.order|);
      case Pop => PopLinks(s);
    }
  }

  lemma {:induction false} RunLinks(ops: seq<Op>)
    ensures LinksHold(Run(EMPTY, ops))
  {
    if ops == [] {
    } else {
      RunLinks(ops[..|ops| - 1]);
      ApplyLinks(Run(EMPTY, ops[..|ops| - 1]), ops[|ops| - 1]);
    }
  }

  // In every run each link leads from a vertex to one of its targets, and the links from a
  // vertex lead to all of them exactly unless it found some of the declared ids on its
  // arrival and missed others.
  lemma {:induction false} LinksLeadToTargets(ops: seq<Op>, v: Id)
    requires v in Run(EMPTY, ops).sites
    ensures var s := Run(EMPTY, ops);
      && (forall t :: (v, t) in s.links ==> t in s.sites[v].targets)
      && v in s.declared
      && (TargetsIn(s.links, v) == s.sites[v].targets <==> First(s, v) == [] || ToSet(First(s, v)) == s.declared[v])
  {
    var s := Run(EMPTY, ops);
    RunLinks(ops);
    assert LinksAt(s, v);
    forall t | (v, t) in s.links ensures t in s.sites[v].targets {
      TargetsInHolds(s.links, v, t);
    }
  }

  // -------------------------------------------------------------- hand-over by a peer

  lemma {:induction false} HandOverAllKeepsSites(s: State, vs: seq<(Id, set<Id>)>, v: Id)
    requires v in s.sites
    ensures var s' := HandOverAll(s, vs);
      && v in s'.sites && s'.sites[v] == s.sites[v]
      && (v in s.declared ==> v in s'.declared && s'.declared[v] == s.declared[v])
  {
    if vs == [] {
    } else {
      HandOverAllKeepsSites(s, vs[..|vs| - 1], v);
    }
  }

  lemma {:induction false} HandOverAllAdds(s: State, vs: seq<(Id, set<Id>)>, v: Id)
    ensures v in HandOverAll(s, vs).sites <==> v in s.sites || exists i :: 0 <= i < |vs| && vs[i].0 == v
  {
    if vs == [] {
    } else {
      var front, last := vs[..|vs| - 1], vs[|vs| - 1];
      HandOverAllAdds(s, front, v);
      assert forall i :: 0 <= i < |vs| ==> vs[i] == if i < |front| then front[i] else last;
      assert v == last.0 ==> vs[|front|].0 == v;
      if i :| 0 <= i < |front| && front[i].0 == v { assert vs[i].0 == v; }
    }
  }

  // A vertex that is not in the DAG yet is stored as it was first handed over: with no
  // target linked, and all of them missing; the others stay as they are.
  lemma {:induction false} HandedOver(s: State, vs: seq<(Id, set<Id>)>, i: nat)
    requires i < |vs| && vs[i].0 !in s.sites && forall j :: 0 <= j < i ==> vs[j].0 != vs[i].0
    ensures var s', v := HandOverAll(s, vs), vs[i].0;
      && v in s'.sites && s'.sites[v] == Site([], vs[i].1)
      && v in s'.declared && s'.declared[v] == vs[i].1
    decreases |vs|
  {
    var front := vs[..|vs| - 1];
    if i < |front| {
      assert front[i] == vs[i] && forall j :: 0 <= j < i ==> front[j] == vs[j];
      HandedOver(s, front, i);
    } else {
      HandOverAllAdds(s, front, vs[i].0);
      assert forall j :: 0 <= j < |front| ==> front[j] == vs[j];
    }
  }

  // ----------------------------------------------------------------- a late target

  // A vertex that arrives before its target.
  const EARLY := Arrival(1, [2], {}, true)

  lemma {:induction false} RunOne(s: State, op: Op)
    ensures Run(s, [op]) == Apply(s, op)
  {
    assert [op][..0] == [];
  }

  lemma {:induction false} EarlyMisses()
    ensures var s := Apply(EMPTY, EARLY);
      && Accounted(s) && Counted(s) && s.order == [1] && s.sites.Keys == {1}
      && s.sites[1] == Site([], {2}) && 1 in s.declared && s.declared[1] == {2}
  {
    ApplyAccounted(EMPTY, EARLY);
    assert ToSet([2]) == {2};
    FoundAsItIs([2], EMPTY.sites.Keys + {});
  }

  // Sent on before its target has come, it has lost it.
  lemma {:induction false} RelayLosesTarget()
    ensures var s := Run(EMPTY, [EARLY]);
      1 in s.sites && 1 in s.declared && s.declared[1] == {2} && Outgoing(s.sites[1]) == {}
  {
    RunOne(EMPTY, EARLY);
    EarlyMisses();
  }

  const LATE := Arrival(2, [], {}, true)

  lemma {:induction false} LateArrives(s: State)
    requires s.order == [1] && s.sites.Keys == {1} && s.sites[1] == Site([], {2}) && Accounted(s) && Counted(s)
    ensures var s' := Apply(s, LATE);
      && Accounted(s') && Counted(s') && s'.order == [1, 2] && s'.sites.Keys == {1, 2}
      && s'.sites[1] == Site([], {2})
  {
    ApplyAccounted(s, LATE);
  }

  lemma {:induction false} LinksSecond()
    ensures Relinked([1, 2], 1, Site([], {2})) == Site([2], {})
  {
    var wanted := {2} - {1};
    assert [1, 2][..1] == [1] && [1][..0] == [];
    assert Found([1], wanted) == [];
    assert Found([1, 2], wanted) == [2];
    assert ToSet([2]) == {2};
  }

  lemma {:induction false} PassLinksLate(s: State)
    requires Accounted(s) && Counted(s) && s.order == [1, 2] && s.sites.Keys == {1, 2} && s.sites[1] == Site([], {2})
    ensures var s' := Apply(s, Pass);
      1 in s'.sites && s'.sites[1] == Site([2], {}) && 1 !in SourcesOf(s'.sources, 2)
  {
    LinksSecond();
    RelinkedAfter(s, 1);
    MissedIsNotApproved(s, 1, 2);
    ReconcileKeeps(s, |s.order|);
  }

  // The target arrives and a pass links it: the vertex is not among its approvers, and
  // never will be.
  lemma {:induction false} LateTargetIsNotApproved(ops: seq<Op>)
    ensures var s := Run(EMPTY, [EARLY, LATE, Pass]);
      1 in s.sites && s.sites[1] == Site([2], {}) && 1 !in SourcesOf(Run(s, ops).sources, 2)
  {
    var s1 := Apply(EMPTY, EARLY);
    var s2 := Apply(s1, LATE);
    EarlyMisses();
    LateArrives(s1);
    PassLinksLate(s2);
    RunThree(EMPTY, EARLY, LATE, Pass);
    ApproversStay(Apply(s2, Pass), ops, 1, 2);
  }

  lemma {:induction false} RunThree(s: State, a: Op, b: Op, c: Op)
    ensures Run(s, [a, b, c]) == Apply(Apply(Apply(s, a), b), c)
  {
    RunOne(s, a);
    assert [a, b][..1] == [a];
    assert Run(s, [a, b]) == Apply(Apply(s, a), b);
    assert [a, b, c][..2] == [a, b];
  }

  // ------------------------------------------------------------- partly found targets

  lemma {:induction false} PartlyFound(s: State, known: Id, unknown: Id, id: Id)
    requires known in s.sites && unknown !in s.sites && id !in s.sites && LinksHold(s)
    ensures var s' := Arrive(s, id, [known, unknown], {}, true);
      id in s'.sites && s'.sites[id].targets == [known] && (id, known) !in s'.links
  {
    var ids, all := [known, unknown], s.sites.Keys + {};
    FoundJoin([known], [unknown], all);
    FoundAsItIs([known], all);
    FoundAsItIs([unknown], all);
    assert ids == [known] + [unknown];
    NoLinksYet(s, id);
    TargetsInHolds(s.links, id, known);
  }

  // A vertex that finds one of two targets on its arrival is not linked to it.
  lemma {:induction false} PartlyFoundIsNotLinked()
    ensures var s := Run(EMPTY, [LATE, Arrival(1, [2, 3], {}, true)]);
      1 in s.sites && s.sites[1].targets == [2] && (1, 2) !in s.links
  {
    var op := Arrival(1, [2, 3], {}, true);
    var s := Run(EMPTY, [LATE]);
    RunOne(EMPTY, LATE);
    RunLinks([LATE]);
    assert [LATE, op][..1] == [LATE];
    assert s.sites.Keys == {2};
    PartlyFound(s, 2, 3, 1);
  }

  // -------------------------------------------------------- confirmed, but not counted

  // How often an operation enters v as the target of a new vertex.
  function Enters(s: State, op: Op, v: Id): nat {
    match op
    case Arrival(id, ids, pins, accepted) =>
      if id in s.sites || !accepted then 0 else multiset(Found(ids, s.sites.Keys + pins))[v]
    case Handover(_) => 0
    case Pass => 0
    case Pop => 0
  }

  function Entered(ops: seq<Op>, v: Id): nat {
    if ops == [] then 0
    else Entered(ops[..|ops| - 1], v) + Enters(Run(EMPTY, ops[..|ops| - 1]), ops[|ops| - 1], v)
  }

  lemma {:induction false} NextMod(x: nat)
    ensures (x + 1) % 3 == if x % 3 == 2 then 0 else x % 3 + 1
  {
  }

  lemma {:induction false} BumpedMod(m: (nat, bool), n: nat)
    requires m.0 <= 2
    ensures Marks.Bumped(m, n).0 == (m.0 + n) % 3
    ensures Marks.Bumped(m, n).1 <==> m.1 || m.0 + n >= 3
  {
    if n == 0 {
    } else {
      BumpedMod(m, n - 1);
      NextMod(m.0 + n - 1);
    }
  }

  // What an operation does to the list of an id that no counted vertex has.
  lemma {:induction false} ApplyMark(s: State, op: Op, v: Id)
    requires v !in Apply(s, op).counter.cache
    ensures v !in s.counter.cache
    ensures Marks.Mark(Apply(s, op).counter, v)
         == if op.Pop? then (Marks.Mark(s.counter, v).0, false)
            else Marks.Bumped(Marks.Mark(s.counter, v), Enters(s, op, v))
  {
    match op {
      case Arrival(id, ids, pins, accepted) =>
        if id !in s.sites && accepted {
          var w := Vertex(id, Found(ids, s.sites.Keys + pins));
          Marks.ApproveAllMarks(Enter(s.counter, w), w.targets, id, v);
        }
      case Handover(vs) => HandOverAllKeeps(s, vs);
      case Pass => ReconcileKeeps(s, |s.order|);
      case Pop =>
    }
  }

  // After e entries such an id has a list of e modulo 3, and needs three to be confirmed.
  ghost predicate Uncounted(m: (nat, bool), e: nat) {
    m.0 == e % 3 && (m.1 ==> e >= 3)
  }

  lemma {:induction false} ModAdd(e: nat, n: nat)
    ensures (e % 3 + n) % 3 == (e + n) % 3
    ensures e % 3 + n <= e + n && (e < 3 ==> e % 3 == e)
  {
  }

  lemma {:induction false} UncountedBumped(m: (nat, bool), e: nat, n: nat)
    requires Uncounted(m, e)
    ensures Uncounted(Marks.Bumped(m, n), e + n)
    ensures e < 3 <= e + n ==> Marks.Bumped(m, n).1
  {
    BumpedMod(m, n);
    ModAdd(e, n);
  }

  lemma {:induction false} UncountedStep(s: State, op: Op, s': State, v: Id, e: nat, e': nat)
    requires s' == Apply(s, op) && e' == e + Enters(s, op, v)
    requires v !in s'.counter.cache && Uncounted(Marks.Mark(s.counter, v), e)
    ensures Uncounted(Marks.Mark(s'.counter, v), e')
    ensures e < 3 <= e' ==> Marks.Mark(s'.counter, v).1
  {
    ApplyMark(s, op, v);
    UncountedBumped(Marks.Mark(s.counter, v), e, Enters(s, op, v));
  }

  lemma {:induction false} NotYetCounted(s: State, op: Op, v: Id)
    requires v !in Apply(s, op).counter.cache
    ensures v !in s.counter.cache
  {
    ApplyMark(s, op, v);
  }

  lemma {:induction false} OneMore(ops: seq<Op>, op: Op, v: Id)
    ensures Run(EMPTY, ops + [op]) == Apply(Run(EMPTY, ops), op)
    ensures Entered(ops + [op], v) == Entered(ops, v) + Enters(Run(EMPTY, ops), op, v)
  {
    assert (ops + [op])[..|ops|] == ops;
  }

  lemma {:induction false} RunUncounted(ops: seq<Op>, v: Id)
    requires v !in Run(EMPTY, ops).counter.cache
    ensures Uncounted(Marks.Mark(Run(EMPTY, ops).counter, v), Entered(ops, v))
  {
    if ops == [] {
    } else {
      var front, op := ops[..|ops| - 1], ops[|ops| - 1];
      var s, s', e, e' := Run(EMPTY, front), Run(EMPTY, ops), Entered(front, v), Entered(ops, v);
      assert ops == front + [op];
      OneMore(front, op, v);
      NotYetCounted(s, op, v);
      RunUncounted(front, v);
      UncountedStep(s, op, s', v, e, e');
    }
  }

  // Confirmed, and not counted.
  ghost predicate Unknown(s: State, v: Id) {
    v in s.counter.confirmed && v !in s.counter.cache
  }

  // At the third entry it is confirmed.
  lemma {:induction false} ThirdEntryConfirms(ops: seq<Op>, v: Id) returns (n: nat)
    requires v !in Run(EMPTY, ops).counter.cache && Entered(ops, v) >= 3
    ensures n <= |ops| && Unknown(Run(EMPTY, ops[..n]), v)
  {
    var front, op := ops[..|ops| - 1], ops[|ops| - 1];
    NotYetCounted(Run(EMPTY, front), op, v);
    if Entered(front, v) >= 3 {
      n := ThirdEntryConfirms(front, v);
      assert front[..n] == ops[..n];
    } else {
      n := |ops|;
      assert ops[..n] == ops;
      RunUncounted(front, v);
      UncountedStep(Run(EMPTY, front), op, Run(EMPTY, ops), v, Entered(front, v), Entered(ops, v));
    }
  }

  ghost predicate FewEntries(ops: seq<Op>) {
    forall v :: v !in Run(EMPTY, ops).counter.cache ==> Entered(ops, v) <= 2
  }

  lemma {:induction false} ConfirmedIsKnown(ops: seq<Op>)
    requires FewEntries(ops)
    ensures KnowsConfirmed(Run(EMPTY, ops))
  {
    var s := Run(EMPTY, ops);
    forall v | v in s.counter.confirmed ensures v in s.counter.cache {
      if v !in s.counter.cache { RunUncounted(ops, v); }
    }
  }

  // At all times the counter knows every vertex it could hand out, exactly when at no
  // time a target that has not itself been counted has been entered three times.
  lemma {:induction false} KnowsConfirmedIff(ops: seq<Op>)
    ensures (forall n :: 0 <= n <= |ops| ==> KnowsConfirmed(Run(EMPTY, ops[..n])))
       <==> forall n :: 0 <= n <= |ops| ==> FewEntries(ops[..n])
  {
    forall n | 0 <= n <= |ops| && FewEntries(ops[..n]) ensures KnowsConfirmed(Run(EMPTY, ops[..n])) {
      ConfirmedIsKnown(ops[..n]);
    }
    forall n | 0 <= n <= |ops| && !FewEntries(ops[..n])
      ensures exists k :: 0 <= k <= |ops| && !KnowsConfirmed(Run(EMPTY, ops[..k]))
    {
      var v :| v !in Run(EMPTY, ops[..n]).counter.cache && Entered(ops[..n], v) > 2;
      var k := ThirdEntryConfirms(ops[..n], v);
      assert ops[..n][..k] == ops[..k];
      assert Unknown(Run(EMPTY, ops[..k]), v);
    }
  }

  // ------------------------------------------------------- the star, seen by a peer

  // A vertex that approves genesis, which the peer finds in a pin only.
  function PinnedArrival(id: Id): Op {
    Arrival(id, [Marks.GENESIS], {Marks.GENESIS}, true)
  }

  function PinnedStar(n: nat): seq<Op> {
    if n == 0 then [] else PinnedStar(n - 1) + [PinnedArrival(n)]
  }

  ghost predicate StarOf(s: State, n: nat) {
    forall v :: (v in s.sites <==> 1 <= v <= n) && (v in s.counter.cache <==> 1 <= v <= n)
  }

  lemma {:induction false} ArrivalAdds(s: State, id: Id, ids: seq<Id>, pins: set<Id>, s': State)
    requires id !in s.sites && s' == Arrive(s, id, ids, pins, true)
    ensures s'.sites.Keys == s.sites.Keys + {id} && s'.counter.cache.Keys == s.counter.cache.Keys + {id}
  {
    var v := Vertex(id, Found(ids, s.sites.Keys + pins));
    assert s'.counter == AddVertex(s.counter, v);
    ApproveAllCache(Enter(s.counter, v), v.targets, id);
  }

  lemma {:induction false} EntersFound(g: Id, known: set<Id>)
    requires g in known
    ensures multiset(Found([g], known))[g] == 1
  {
    assert [g][..0] == [];
    assert Found([g], known) == [g];
  }

  lemma {:induction false} PinnedEnters(s: State, id: Id, s': State)
    requires id !in s.sites && s' == Apply(s, PinnedArrival(id))
    ensures Enters(s, PinnedArrival(id), Marks.GENESIS) == 1
    ensures s'.sites.Keys == s.sites.Keys + {id} && s'.counter.cache.Keys == s.counter.cache.Keys + {id}
  {
    var op := PinnedArrival(id);
    ArrivalAdds(s, id, op.ids, op.pins, s');
    EntersFound(Marks.GENESIS, s.sites.Keys + op.pins);
  }

  lemma {:induction false} PinnedStarStep(s: State, n: nat, next: nat, s': State)
    requires next == n + 1 && StarOf(s, n) && s' == Apply(s, PinnedArrival(next))
    ensures StarOf(s', next) && Enters(s, PinnedArrival(next), Marks.GENESIS) == 1
  {
    PinnedEnters(s, next, s');
    assert forall v :: v in s'.sites.Keys <==> v in s.sites.Keys || v == next;
    assert forall v :: v in s'.counter.cache.Keys <==> v in s.counter.cache.Keys || v == next;
  }

  ghost predicate Seen(ops: seq<Op>, n: nat) {
    StarOf(Run(EMPTY, ops), n) && Entered(ops, Marks.GENESIS) == n
  }

  lemma {:induction false} SeenNext(ops: seq<Op>, n: nat, next: nat)
    requires next == n + 1 && Seen(ops, n)
    ensures Seen(ops + [PinnedArrival(next)], next)
  {
    OneMore(ops, PinnedArrival(next), Marks.GENESIS);
    PinnedStarStep(Run(EMPTY, ops), n, next, Run(EMPTY, ops + [PinnedArrival(next)]));
  }

  lemma {:induction false} NothingSeen()
    ensures Seen([], 0)
  {
  }

  lemma {:induction false} PinnedStarSeen(n: nat, ops: seq<Op>)
    requires ops == PinnedStar(n)
    ensures Seen(ops, n)
    decreases n
  {
    if n == 0 {
      NothingSeen();
    } else {
      var front := PinnedStar(n - 1);
      assert ops == front + [PinnedArrival(n)];
      PinnedStarSeen(n - 1, front);
      SeenNext(front, n - 1, n);
    }
  }

  // From three vertices on genesis has been confirmed there, and is not known.
  lemma {:induction false} PinnedGenesisIsUnknown(n: nat) returns (k: nat)
    requires n >= 3
    ensures k <= |PinnedStar(n)| && Unknown(Run(EMPTY, PinnedStar(n)[..k]), Marks.GENESIS)
  {
    PinnedStarSeen(n, PinnedStar(n));
    k := ThirdEntryConfirms(PinnedStar(n), Marks.GENESIS);
  }
}

/**
 What every run of local additions keeps: the number of open approval slots, and
 the way of each vertex from tip to confirmed to pinned.
 */
module TipsProofs {
  import opened Sequences
  import opened Tips

  const GENESIS: Id := 0

  // The counter's cache holds every vertex of the DAG; `popped` is history: the
  // vertices handed to pins.
  datatype Dag = Dag(width: nat, alg: Algorithm, counter: Counter, popped: multiset<Id>)

  function NewDag(width: nat, alg: Algorithm): Dag {
    Dag(width, alg, AddVertex(NO_VERTICES, Vertex(GENESIS, [])), multiset{})
  }

  // Vertices added since genesis.
  function Added(d: Dag): int {
    |d.counter.cache| - 1
  }

  // The vertices a new one is given to approve: genesis while the star is being built;
  // afterwards a lone tip, once by the plain random choice and else twice; otherwise two
  // different tips.
  predicate MayApprove(d: Dag, targets: seq<Id>) {
    if Added(d) < d.width then targets == [GENESIS]
    else if |d.counter.tips| == 1 then
      && targets != [] && targets[0] in d.counter.tips
      && targets == if d.alg == Random then [targets[0]] else [targets[0], targets[0]]
    else IsPairOfTips(d.counter, targets)
  }

  predicate IsPairOfTips(c: Counter, targets: seq<Id>) {
    |targets| == 2 && Distinct(targets) && AllTips(c.tips, targets)
  }

  datatype Event = Grow(v: Vertex) | Pop

  predicate Enabled(d: Dag, e: Event) {
    e.Grow? ==> e.v.id !in d.counter.cache && MayApprove(d, e.v.targets)
  }

  function Apply(d: Dag, e: Event): Dag {
    match e
    case Grow(v) => d.(counter := AddVertex(d.counter, v))
    case Pop => d.(counter := d.counter.(confirmed := {}), popped := d.popped + multiset(d.counter.confirmed))
  }

  ghost predicate IsRun(ds: seq<Dag>, es: seq<Event>, width: nat, alg: Algorithm) {
    && |ds| == |es| + 1 && ds[0] == NewDag(width, alg)
    && forall i :: 0 <= i < |es| ==> Enabled(ds[i], es[i]) && ds[i + 1] == Apply(ds[i], es[i])
  }

  // How many vertices approve genesis and nothing else. Without a star the plain random
  // choice makes a star of one; any other choice approves the lone tip twice.
  function Span(width: nat, alg: Algorithm): nat {
    if width == 0 && alg == Random then 1 else width
  }

  // What may be approved, in terms of the span.
  ghost predicate Choice(d: Dag, targets: seq<Id>) {
    var span := Span(d.width, d.alg);
    if Added(d) < span then targets == [GENESIS]
    else if span == 0 then |targets| == 2 && targets[0] == targets[1] && d.counter.tips.Keys == {targets[0]}
    else IsPairOfTips(d.counter, targets)
  }

  ghost predicate Grows(d: Dag, v: Vertex) {
    v.id !in d.counter.cache && Choice(d, v.targets)
  }

  // ------------------------------------------------------- approving, per vertex

  // A vertex's list length, 0 when it is no tip, and whether it is confirmed.
  function Mark(c: Counter, v: Id): (nat, bool) {
    (if v in c.tips then |c.tips[v]| else 0, v in c.confirmed)
  }

  function Bump(m: (nat, bool)): (nat, bool) {
    if m.0 >= 2 then (0, true) else (m.0 + 1, m.1)
  }

  function Bumped(m: (nat, bool), n: nat): (nat, bool) {
    if n == 0 then m else Bump(Bumped(m, n - 1))
  }

  lemma {:induction false} ApproveMark(c: Counter, t: Id, approver: Id, v: Id)
    ensures var c' := Approve(c, t, approver);
      c'.cache == c.cache && Mark(c', v) == if v == t then Bump(Mark(c, v)) else Mark(c, v)
  {
  }

  lemma {:induction false} CountLast(front: seq<Id>, t: Id, v: Id)
    ensures multiset(front + [t])[v] == multiset(front)[v] + if v == t then 1 else 0
  {
  }

  // Every entry among the targets counts.
  lemma {:induction false} ApproveAllMarks(c: Counter, targets: seq<Id>, approver: Id, v: Id)
    ensures var c' := ApproveAll(c, targets, approver);
      c'.cache == c.cache && Mark(c', v) == Bumped(Mark(c, v), multiset(targets)[v])
  {
    if targets == [] {
    } else {
      var front, t := targets[..|targets| - 1], targets[|targets| - 1];
      assert targets == front + [t];
      CountLast(front, t, v);
      ApproveAllMarks(c, front, approver, v);
      ApproveMark(ApproveAll(c, front, approver), t, approver, v);
    }
  }

  // Lists of tips hold one or two entries, before and after.
  predicate GoodLists(tips: map<Id, seq<Id>>) {
    forall t :: t in tips ==> 1 <= |tips[t]| <= 2
  }

  lemma {:induction false} ApproveAllLists(c: Counter, targets: seq<Id>, approver: Id)
    requires GoodLists(c.tips)
    ensures GoodLists(ApproveAll(c, targets, approver).tips)
    ensures ApproveAll(c, targets, approver).tips.Keys <= c.tips.Keys + (set t | t in targets)
  {
    if targets == [] {
    } else {
      var front := targets[..|targets| - 1];
      ApproveAllLists(c, front, approver);
      assert forall t :: t in front ==> t in targets;
    }
  }

  // ------------------------------------------------------------------ open slots

  // The approvals the tips can still take.
  ghost function Open(tips: map<Id, seq<Id>>): int
    decreases |tips|
  {
    if tips.Keys == {} then 0 else var t :| t in tips; 3 - |tips[t]| + Open(tips - {t})
  }

  lemma {:induction false} OpenPick(tips: map<Id, seq<Id>>, t: Id)
    requires t in tips
    ensures Open(tips) == 3 - |tips[t]| + Open(tips - {t})
    decreases |tips|
  {
    var u :| u in tips && Open(tips) == 3 - |tips[u]| + Open(tips - {u});
    if u != t {
      OpenPick(tips - {u}, t);
      OpenPick(tips - {t}, u);
      assert tips - {u} - {t} == tips - {t} - {u};
    }
  }

  lemma {:induction false} OpenSet(tips: map<Id, seq<Id>>, t: Id, list: seq<Id>)
    ensures Open(tips[t := list]) == 3 - |list| + Open(tips - {t})
  {
    OpenPick(tips[t := list], t);
    assert tips[t := list] - {t} == tips - {t};
  }

  // Approving a tip uses one slot, whether it stays a tip or not; approving a
  // vertex that is no tip makes it one again, with two slots.
  lemma {:induction false} ApproveOpen(c: Counter, t: Id, approver: Id)
    requires t in c.tips ==> 1 <= |c.tips[t]| <= 2
    ensures Open(Approve(c, t, approver).tips) == Open(c.tips) + if t in c.tips then -1 else 2
  {
    if t in c.tips {
      OpenPick(c.tips, t);
      OpenSet(c.tips, t, c.tips[t] + [approver]);
    } else {
      OpenSet(c.tips, t, [approver]);
      assert c.tips - {t} == c.tips;
      assert [] + [approver] == [approver];
    }
  }

  lemma {:induction false} ApproveAllOpen(c: Counter, targets: seq<Id>, approver: Id)
    requires Distinct(targets) && GoodLists(c.tips) && forall t :: t in targets ==> t in c.tips
    ensures Open(ApproveAll(c, targets, approver).tips) == Open(c.tips) - |targets|
  {
    if targets == [] {
    } else {
      var front, t := targets[..|targets| - 1], targets[|targets| - 1];
      assert t !in front && t in targets;
      assert forall u :: u in front ==> u in targets;
      ApproveAllOpen(c, front, approver);
      ApproveAllMarks(c, front, approver, t);
      ApproveAllLists(c, front, approver);
      ApproveOpen(ApproveAll(c, front, approver), t, approver);
    }
  }

  lemma {:induction false} EnterOpen(c: Counter, v: Vertex)
    requires v.id !in c.tips
    ensures Open(Enter(c, v).tips) == Open(c.tips) + 2
  {
    OpenSet(c.tips, v.id, [v.id]);
    assert c.tips - {v.id} == c.tips;
  }

  lemma {:induction false} OpenBounds(tips: map<Id, seq<Id>>)
    requires GoodLists(tips)
    ensures |tips| <= Open(tips) <= 2 * |tips|
    decreases |tips|
  {
    if tips.Keys == {} {
    } else {
      var t :| t in tips;
      OpenPick(tips, t);
      OpenBounds(tips - {t});
    }
  }

  // ------------------------------------------------------------------ invariants

  // The vertices that declare v as a target.
  function Approving(c: Counter, v: Id): set<Id> {
    set u | u in c.cache && v in c.cache[u].targets
  }

  predicate Known(c: Counter, u: Id)
    requires u in c.cache
  {
    forall t :: t in c.cache[u].targets ==> t in c.cache
  }

  ghost predicate Shape(c: Counter) {
    && GENESIS in c.cache && GoodLists(c.tips)
    && c.tips.Keys <= c.cache.Keys && c.confirmed <= c.cache.Keys
    && forall u {:trigger Known(c, u)} :: u in c.cache ==> Known(c, u)
  }

  // How often a vertex has been entered by its approvers.
  function Entries(d: Dag, v: Id): nat {
    Per(d) * |Approving(d.counter, v)|
  }

  function Per(d: Dag): nat {
    if Span(d.width, d.alg) == 0 then 2 else 1
  }

  // The list of a vertex follows the number e of its entries: every third one, from
  // the second on, sends it to the confirmed. Only genesis, in a star, takes more than two.
  ghost predicate Fits(e: nat, m: (nat, bool), popped: nat, star: bool) {
    && m.0 == (e + 1) % 3
    && (m.1 || popped > 0 <==> e >= 2)
    && (if m.1 then 1 else 0) + popped <= (e + 1) / 3
    && (!star ==> e <= 2)
  }

  ghost predicate Follows(d: Dag, v: Id) {
    Fits(Entries(d, v), Mark(d.counter, v), d.popped[v], v == GENESIS && Per(d) == 1)
  }

  ghost predicate Lives(d: Dag) {
    forall v {:trigger Follows(d, v)} :: v in d.counter.cache ==> Follows(d, v)
  }

  // While the star grows, all vertices approve genesis.
  ghost predicate Star(d: Dag) {
    Added(d) <= Span(d.width, d.alg) ==> Approving(d.counter, GENESIS) == d.counter.cache.Keys - {GENESIS}
  }

  // The slots of a star of n vertices.
  function StarSlots(n: nat): nat {
    2 * n + 2 - n % 3
  }

  ghost predicate Slots(d: Dag) {
    var span := Span(d.width, d.alg);
    && Added(d) >= 0 && Open(d.counter.tips) == StarSlots(if Added(d) < span then Added(d) else span)
    && (span == 0 ==> |d.counter.tips| == 1)
  }

  ghost predicate Inv(d: Dag) {
    Shape(d.counter) && Lives(d) && Star(d) && Slots(d)
    && forall v :: v in d.popped ==> v in d.counter.cache
  }

  lemma {:induction false} TipBounds(d: Dag)
    requires Inv(d) && Added(d) >= Span(d.width, d.alg)
    ensures var n, span := |d.counter.tips|, Span(d.width, d.alg);
      n <= StarSlots(span) <= 2 * n && n >= span && (n >= 2 <==> span >= 1)
  {
    OpenBounds(d.counter.tips);
  }

  lemma {:induction false} TheOne(s: set<Id>, t: Id)
    requires |s| == 1 && t in s
    ensures s == {t}
  {
    assert |s - {t}| == 0;
  }

  lemma {:induction false} ChoiceOf(d: Dag, targets: seq<Id>)
    requires Inv(d) && MayApprove(d, targets)
    ensures Choice(d, targets)
  {
    var span := Span(d.width, d.alg);
    if Added(d) >= d.width {
      if Added(d) >= span { TipBounds(d); }
      if span == 0 {
        TheOne(d.counter.tips.Keys, targets[0]);
      } else if Added(d) < span {
        TheOne(d.counter.cache.Keys, GENESIS);
        OpenBounds(d.counter.tips);
        assert d.counter.tips.Keys == {GENESIS};
      }
    }
  }

  lemma {:induction false} EnabledGrows(d: Dag, v: Vertex)
    requires Inv(d) && Enabled(d, Grow(v))
    ensures Grows(d, v)
  {
    ChoiceOf(d, v.targets);
  }

  lemma {:induction false} TargetsKnown(d: Dag, v: Vertex)
    requires Shape(d.counter) && Grows(d, v)
    ensures v.id !in v.targets && forall t :: t in v.targets ==> t in d.counter.cache
    ensures forall t :: t in v.targets ==> multiset(v.targets)[t] == Per(d)
  {
    if |v.targets| == 2 { assert v.targets == [v.targets[0], v.targets[1]]; }
  }

  lemma {:induction false} GrowKeepsShape(d: Dag, v: Vertex)
    requires Shape(d.counter) && Grows(d, v)
    ensures Shape(AddVertex(d.counter, v))
    ensures AddVertex(d.counter, v).cache == d.counter.cache[v.id := v]
  {
    TargetsKnown(d, v);
    var c, c' := Enter(d.counter, v), AddVertex(d.counter, v);
    ApproveAllLists(c, v.targets, v.id);
    ApproveAllMarks(c, v.targets, v.id, v.id);
    forall u | u in c'.confirmed ensures u in c'.cache {
      ApproveAllMarks(c, v.targets, v.id, u);
      assert Mark(c', u).1;
    }
    forall u | u in c'.cache ensures Known(c', u) {
      assert u != v.id ==> Known(d.counter, u);
    }
  }

  lemma {:induction false} GrowApproving(c: Counter, c': Counter, v: Vertex, u: Id)
    requires Shape(c) && v.id !in c.cache && v.id !in v.targets && c'.cache == c.cache[v.id := v]
    ensures u in c.cache ==> Approving(c', u) == Approving(c, u) + if u in v.targets then {v.id} else {}
    ensures |Approving(c', v.id)| == 0
  {
    forall w | w in c.cache ensures v.id !in c.cache[w].targets {
      assert Known(c, w);
    }
    assert Approving(c', v.id) == {};
  }

  lemma {:induction false} BumpFits(e: nat, m: (nat, bool), popped: nat, star: bool)
    requires Fits(e, m, popped, star) && (star || m.0 > 0)
    ensures Fits(e + 1, Bump(m), popped, star)
  {
  }

  // A vertex that is not genesis in a star is entered while it is a tip; where a lone
  // tip is entered twice, it was new.
  lemma {:induction false} EntersFit(d: Dag, u: Id)
    requires Follows(d, u) && (u in d.counter.tips || (u == GENESIS && Per(d) == 1)) && GoodLists(d.counter.tips)
    ensures Fits(Entries(d, u) + Per(d), Bumped(Mark(d.counter, u), Per(d)), d.popped[u], u == GENESIS && Per(d) == 1)
  {
    var e, m, popped, star := Entries(d, u), Mark(d.counter, u), d.popped[u], u == GENESIS && Per(d) == 1;
    BumpFits(e, m, popped, star);
    assert Bumped(m, 1) == Bump(m);
    if Per(d) == 2 {
      BumpFits(e + 1, Bump(m), popped, star);
      assert Bumped(m, 2) == Bump(Bump(m));
    }
  }

  // What a new vertex does to the approvals and the list of an old one.
  lemma {:induction false} GrowOld(d: Dag, v: Vertex, u: Id)
    requires Shape(d.counter) && Grows(d, v) && u in d.counter.cache
    ensures var c, c' := d.counter, AddVertex(d.counter, v);
      if u in v.targets then |Approving(c', u)| == |Approving(c, u)| + 1 && Mark(c', u) == Bumped(Mark(c, u), Per(d))
      else Approving(c', u) == Approving(c, u) && Mark(c', u) == Mark(c, u)
  {
    TargetsKnown(d, v);
    GrowKeepsShape(d, v);
    var c := Enter(d.counter, v);
    ApproveAllMarks(c, v.targets, v.id, u);
    assert Mark(c, u) == Mark(d.counter, u);
    GrowApproving(d.counter, AddVertex(d.counter, v), v, u);
    assert v.id !in Approving(d.counter, u);
  }

  lemma {:induction false} GrowFollowsOld(d: Dag, v: Vertex, u: Id)
    requires Shape(d.counter) && Grows(d, v) && u in d.counter.cache && Follows(d, u)
    ensures Follows(Apply(d, Grow(v)), u)
  {
    GrowOld(d, v, u);
    if u in v.targets {
      EntersFit(d, u);
    }
  }

  lemma {:induction false} GrowFollowsNew(d: Dag, v: Vertex)
    requires Shape(d.counter) && Grows(d, v) && v.id !in d.popped
    ensures Follows(Apply(d, Grow(v)), v.id)
  {
    TargetsKnown(d, v);
    GrowKeepsShape(d, v);
    var c, c' := Enter(d.counter, v), AddVertex(d.counter, v);
    ApproveAllMarks(c, v.targets, v.id, v.id);
    GrowApproving(d.counter, c', v, v.id);
    assert Mark(c, v.id) == (1, false);
  }

  lemma {:induction false} GrowKeepsStar(d: Dag, v: Vertex)
    requires Inv(d) && Grows(d, v)
    ensures Star(Apply(d, Grow(v))) && Added(Apply(d, Grow(v))) == Added(d) + 1
  {
    TargetsKnown(d, v);
    GrowKeepsShape(d, v);
    GrowApproving(d.counter, AddVertex(d.counter, v), v, GENESIS);
    assert d.counter.cache[v.id := v].Keys == d.counter.cache.Keys + {v.id};
  }

  // In the star genesis has as many approvals as there are vertices.
  lemma {:induction false} StarGenesis(d: Dag)
    requires Inv(d) && Added(d) <= Span(d.width, d.alg) && Per(d) == 1
    ensures GENESIS in d.counter.tips <==> Added(d) % 3 != 2
  {
    assert Follows(d, GENESIS);
    assert |Approving(d.counter, GENESIS)| == Added(d);
  }

  // One slot is lost to a genesis that is a tip, two are won by one that is not.
  lemma {:induction false} StarOpen(c: Counter, v: Vertex)
    requires v.targets == [GENESIS] && v.id !in c.tips && v.id != GENESIS && GoodLists(c.tips)
    ensures Open(AddVertex(c, v).tips) == Open(c.tips) + if GENESIS in c.tips then 1 else 4
  {
    EnterOpen(c, v);
    assert ApproveAll(Enter(c, v), v.targets[..0], v.id) == Enter(c, v);
    assert AddVertex(c, v) == Approve(Enter(c, v), GENESIS, v.id);
    ApproveOpen(Enter(c, v), GENESIS, v.id);
  }

  // What a vertex brings, its two targets lose.
  lemma {:induction false} PairOpen(c: Counter, v: Vertex)
    requires v.id !in c.tips && GoodLists(c.tips)
    requires IsPairOfTips(c, v.targets)
    ensures Open(AddVertex(c, v).tips) == Open(c.tips)
  {
    EnterOpen(c, v);
    ApproveAllOpen(Enter(c, v), v.targets, v.id);
  }

  // A lone tip that is entered twice loses what the vertex brings, and gives way to it.
  lemma {:induction false} TwiceOpen(c: Counter, v: Vertex, t: Id)
    requires v.id !in c.tips && c.tips.Keys == {t} && Open(c.tips) == 2
    requires |v.targets| == 2 && v.targets[0] == v.targets[1] == t
    ensures Open(AddVertex(c, v).tips) == 2 && |AddVertex(c, v).tips| == 1
  {
    OpenPick(c.tips, t);
    assert (c.tips - {t}).Keys == {};
    EnterTwice(c, v, t);
  }

  lemma {:induction false} EnterTwice(c: Counter, v: Vertex, t: Id)
    requires v.id !in c.tips && c.tips.Keys == {t} && |c.tips[t]| == 1
    requires |v.targets| == 2 && v.targets[0] == v.targets[1] == t
    ensures Open(AddVertex(c, v).tips) == Open(c.tips) && AddVertex(c, v).tips.Keys == {v.id}
  {
    var c1 := Enter(c, v);
    var c2 := Approve(c1, t, v.id);
    EnterOpen(c, v);
    ApproveOpen(c1, t, v.id);
    ApproveOpen(c2, t, v.id);
    assert v.targets[..1] == [t] && [t][..0] == [];
    assert ApproveAll(c1, [t], v.id) == c2;
    assert AddVertex(c, v) == Approve(c2, t, v.id);
  }

  // One more vertex of the star: the slots follow the number of vertices modulo 3.
  lemma {:induction false} NextStarSlots(n: nat)
    ensures StarSlots(n + 1) == StarSlots(n) + if n % 3 != 2 then 1 else 4
  {
  }

  lemma {:induction false} GrowStarOpen(d: Dag, v: Vertex)
    requires Inv(d) && Grows(d, v) && Added(d) < Span(d.width, d.alg)
    ensures Open(AddVertex(d.counter, v).tips) == StarSlots(Added(d) + 1)
  {
    StarGenesis(d);
    StarOpen(d.counter, v);
    NextStarSlots(Added(d));
  }

  lemma {:induction false} GrowKeepsSlots(d: Dag, v: Vertex)
    requires Inv(d) && Grows(d, v)
    ensures Slots(Apply(d, Grow(v)))
  {
    GrowKeepsStar(d, v);
    if Added(d) < Span(d.width, d.alg) {
      GrowStarOpen(d, v);
    } else if Per(d) == 2 {
      TwiceOpen(d.counter, v, v.targets[0]);
    } else {
      PairOpen(d.counter, v);
    }
  }

  lemma {:induction false} PopFollows(d: Dag, v: Id)
    requires Follows(d, v)
    ensures Follows(Apply(d, Pop), v)
  {
    assert Approving(Apply(d, Pop).counter, v) == Approving(d.counter, v);
  }

  lemma {:induction false} PopKeepsLives(d: Dag)
    requires Lives(d)
    ensures Lives(Apply(d, Pop))
  {
    var d' := Apply(d, Pop);
    forall v | v in d'.counter.cache ensures Follows(d', v) {
      assert Follows(d, v);
      PopFollows(d, v);
    }
  }

  lemma {:induction false} PopKeepsShape(d: Dag)
    requires Shape(d.counter) && Star(d) && Slots(d)
    ensures Shape(Apply(d, Pop).counter) && Star(Apply(d, Pop)) && Slots(Apply(d, Pop))
  {
    var d' := Apply(d, Pop);
    forall u | u in d'.counter.cache ensures Known(d'.counter, u) {
      assert Known(d.counter, u);
    }
    assert Approving(d'.counter, GENESIS) == Approving(d.counter, GENESIS);
  }

  lemma {:induction false} PopKeepsInv(d: Dag)
    requires Inv(d)
    ensures Inv(Apply(d, Pop))
  {
    PopKeepsLives(d);
    PopKeepsShape(d);
  }

  lemma {:induction false} GrowKeepsInv(d: Dag, v: Vertex)
    requires Inv(d) && Grows(d, v)
    ensures Inv(Apply(d, Grow(v)))
  {
    var d' := Apply(d, Grow(v));
    GrowKeepsShape(d, v);
    GrowKeepsStar(d, v);
    GrowKeepsSlots(d, v);
    forall u | u in d'.counter.cache ensures Follows(d', u) {
      if u == v.id {
        GrowFollowsNew(d, v);
      } else {
        assert Follows(d, u);
        GrowFollowsOld(d, v, u);
      }
    }
  }

  lemma {:induction false} NewDagCounter(width: nat, alg: Algorithm)
    ensures var c := NewDag(width, alg).counter;
      c.tips == map[GENESIS := [GENESIS]] && c.cache == map[GENESIS := Vertex(GENESIS, [])] && c.confirmed == {}
    ensures Open(NewDag(width, alg).counter.tips) == 2
  {
    var g := Vertex(GENESIS, []);
    assert NewDag(width, alg).counter == Enter(NO_VERTICES, g);
    EnterOpen(NO_VERTICES, g);
  }

  lemma {:induction false} NewDagLives(width: nat, alg: Algorithm)
    ensures Shape(NewDag(width, alg).counter) && Lives(NewDag(width, alg)) && Star(NewDag(width, alg))
  {
    var d := NewDag(width, alg);
    NewDagCounter(width, alg);
    assert Known(d.counter, GENESIS);
    assert Approving(d.counter, GENESIS) == {};
    assert Follows(d, GENESIS);
    assert d.counter.cache.Keys == {GENESIS};
  }

  lemma {:induction false} NewDagInv(width: nat, alg: Algorithm)
    ensures Inv(NewDag(width, alg))
  {
    NewDagLives(width, alg);
    NewDagCounter(width, alg);
    assert |NewDag(width, alg).counter.cache| == 1;
  }

  lemma {:induction false} RunKeepsInv(ds: seq<Dag>, es: seq<Event>, width: nat, alg: Algorithm, k: nat)
    requires IsRun(ds, es, width, alg) && k < |ds|
    ensures Inv(ds[k]) && ds[k].width == width && ds[k].alg == alg
  {
    if k == 0 {
      NewDagInv(width, alg);
    } else {
      RunKeepsInv(ds, es, width, alg, k - 1);
      assert ds[k - 1 + 1] == Apply(ds[k - 1], es[k - 1]);
      match es[k - 1] {
        case Grow(v) =>
          EnabledGrows(ds[k - 1], v);
          GrowKeepsInv(ds[k - 1], v);
        case Pop => PopKeepsInv(ds[k - 1]);
      }
    }
  }

  // -------------------------------------------------------------------- theorems

  // Once the star is built, every run of local additions keeps the number of open
  // slots; the number of tips stays between half of it and all of it and never falls
  // below the width, and every tip can be offered. There are two to choose from exactly
  // when there is a star, or the plain random choice makes one.
  lemma {:induction false} OpenSlotsConserved(ds: seq<Dag>, es: seq<Event>, width: nat, alg: Algorithm, k: nat)
    requires IsRun(ds, es, width, alg) && k < |ds| && Added(ds[k]) >= Span(width, alg)
    ensures var c, slots := ds[k].counter, StarSlots(Span(width, alg));
      && Open(c.tips) == slots && |c.tips| <= slots <= 2 * |c.tips|
      && |c.tips| >= width && (|c.tips| >= 2 <==> width >= 1 || alg == Random)
      && c.tips.Keys <= c.cache.Keys
  {
    RunKeepsInv(ds, es, width, alg, k);
    TipBounds(ds[k]);
  }

  // Without a star any other choice leaves one tip, in every state of every run.
  lemma {:induction false} NoStarOneTip(ds: seq<Dag>, es: seq<Event>, alg: Algorithm, k: nat)
    requires IsRun(ds, es, 0, alg) && alg != Random && k < |ds|
    ensures |ds[k].counter.tips| == 1
  {
    RunKeepsInv(ds, es, 0, alg, k);
  }

  // Fewer approvals than the quota and a tip, or exactly as many and either waiting
  // among the confirmed or handed to exactly one pin.
  ghost predicate LifeCycle(c: Counter, popped: nat, v: Id, quota: nat) {
    var a := |Approving(c, v)|;
    && a <= quota
    && (v in c.tips <==> a < quota)
    && (v in c.tips ==> |c.tips[v]| == 1 + a && v !in c.confirmed && popped == 0)
    && (v in c.confirmed ==> popped == 0)
    && (v in c.confirmed || popped == 1 <==> a == quota)
  }

  // This is the life of every vertex other than genesis, in every reachable state, with a
  // quota of two; where lone tips are approved twice it is one, for genesis as well.
  lemma {:induction false} VertexLifeCycle(ds: seq<Dag>, es: seq<Event>, width: nat, alg: Algorithm, k: nat, v: Id)
    requires IsRun(ds, es, width, alg) && k < |ds| && v in ds[k].counter.cache
    requires v != GENESIS || Span(width, alg) == 0
    ensures LifeCycle(ds[k].counter, ds[k].popped[v], v, if Span(width, alg) == 0 then 1 else 2)
  {
    RunKeepsInv(ds, es, width, alg, k);
    assert Follows(ds[k], v);
  }

  // Genesis alone comes back. Counting what each approver enters, it has been confirmed
  // since its second entry, and yet it is a tip whenever the number of entries is not 2
  // modulo 3; it may be handed out once for every third entry.
  lemma {:induction false} GenesisReturns(ds: seq<Dag>, es: seq<Event>, width: nat, alg: Algorithm, k: nat)
    requires IsRun(ds, es, width, alg) && k < |ds|
    ensures var c, popped := ds[k].counter, ds[k].popped[GENESIS];
      var e := (if Span(width, alg) == 0 then 2 else 1) * |Approving(c, GENESIS)|;
      && (GENESIS in c.tips <==> e % 3 != 2)
      && (GENESIS in c.confirmed || popped > 0 <==> e >= 2)
      && (if GENESIS in c.confirmed then 1 else 0) + popped <= (e + 1) / 3
  {
    RunKeepsInv(ds, es, width, alg, k);
    assert Follows(ds[k], GENESIS);
    TipWhen(ds[k].counter, GENESIS, Entries(ds[k], GENESIS));
  }

  lemma {:induction false} TipWhen(c: Counter, v: Id, e: nat)
    requires GoodLists(c.tips) && Mark(c, v).0 == (e + 1) % 3
    ensures v in c.tips <==> e % 3 != 2
  {
  }

  // ---------------------------------------------------------------- building runs

  lemma {:induction false} Extend(ds: seq<Dag>, es: seq<Event>, width: nat, alg: Algorithm, e: Event)
    returns (ds': seq<Dag>, es': seq<Event>)
    requires IsRun(ds, es, width, alg) && Enabled(ds[|es|], e)
    ensures es' == es + [e] && ds' == ds + [Apply(ds[|es|], e)] && IsRun(ds', es', width, alg)
  {
    ds', es' := ds + [Apply(ds[|es|], e)], es + [e];
    forall i | 0 <= i < |es'| ensures Enabled(ds'[i], es'[i]) && ds'[i + 1] == Apply(ds'[i], es'[i]) {
      assert i < |es| ==> ds'[i] == ds[i] && ds'[i + 1] == ds[i + 1];
    }
  }

  // The vertices are n, with ids below n.
  ghost predicate Numbered(c: Counter, n: nat) {
    |c.cache| == n && forall v :: v in c.cache ==> v < n
  }

  // The star gains more vertices, one after the other.
  lemma {:induction false} GrowStar(ds: seq<Dag>, es: seq<Event>, width: nat, alg: Algorithm, n: nat, more: nat)
    returns (ds': seq<Dag>, es': seq<Event>)
    requires IsRun(ds, es, width, alg) && n + more <= width + 1 && Numbered(ds[|es|].counter, n)
    ensures IsRun(ds', es', width, alg) && Numbered(ds'[|es'|].counter, n + more)
    ensures ds'[|es'|].popped == ds[|es|].popped
    decreases more
  {
    if more == 0 {
      ds', es' := ds, es;
    } else {
      var d, v := ds[|es|], Vertex(n, [GENESIS]);
      RunKeepsInv(ds, es, width, alg, |es|);
      ds', es' := Extend(ds, es, width, alg, Grow(v));
      EnabledGrows(d, v);
      GrowKeepsShape(d, v);
      ds', es' := GrowStar(ds', es', width, alg, n + 1, more - 1);
    }
  }

  // In a star of n vertices genesis has n approvals.
  lemma {:induction false} StarApprovals(ds: seq<Dag>, es: seq<Event>, width: nat, alg: Algorithm, n: nat)
    requires IsRun(ds, es, width, alg) && n <= width && Numbered(ds[|es|].counter, n + 1)
    ensures |Approving(ds[|es|].counter, GENESIS)| == n
  {
    RunKeepsInv(ds, es, width, alg, |es|);
    assert |ds[|es|].counter.cache.Keys - {GENESIS}| == n;
  }

  // A star of three vertices: genesis is confirmed and a tip at the same time.
  lemma {:induction false} StarOfThree(width: nat, alg: Algorithm) returns (ds: seq<Dag>, es: seq<Event>)
    requires width >= 3
    ensures IsRun(ds, es, width, alg) && |Approving(ds[|es|].counter, GENESIS)| == 3
    ensures GENESIS in ds[|es|].counter.tips && GENESIS in ds[|es|].counter.confirmed
  {
    ds, es := [NewDag(width, alg)], [];
    NewDagCounter(width, alg);
    ds, es := GrowStar(ds, es, width, alg, 1, 3);
    StarApprovals(ds, es, width, alg, 3);
    GenesisReturns(ds, es, width, alg, |es|);
  }

  // A star of five vertices, pinned after the second and after the fifth: genesis is
  // handed to two pins.
  lemma {:induction false} StarOfFive(width: nat, alg: Algorithm) returns (ds: seq<Dag>, es: seq<Event>)
    requires width >= 5
    ensures IsRun(ds, es, width, alg) && ds[|es|].popped[GENESIS] == 2
  {
    ds, es := [NewDag(width, alg)], [];
    NewDagCounter(width, alg);
    ds, es := GrowStar(ds, es, width, alg, 1, 2);
    StarApprovals(ds, es, width, alg, 2);
    GenesisReturns(ds, es, width, alg, |es|);
    ds, es := Extend(ds, es, width, alg, Pop);
    ds, es := GrowStar(ds, es, width, alg, 3, 2);
    StarApprovals(ds, es, width, alg, 4);
    RunKeepsInv(ds, es, width, alg, |es|);
    FifthConfirms(ds[|es|], Vertex(5, [GENESIS]));
    ds, es := Extend(ds, es, width, alg, Grow(Vertex(5, [GENESIS])));
    ds, es := Extend(ds, es, width, alg, Pop);
  }

  lemma {:induction false} FifthConfirms(d: Dag, v: Vertex)
    requires Inv(d) && Grows(d, v) && v.targets == [GENESIS] && Per(d) == 1
    requires |Approving(d.counter, GENESIS)| == 4 && d.popped[GENESIS] >= 1
    ensures d.popped[GENESIS] == 1 && GENESIS in AddVertex(d.counter, v).confirmed
  {
    assert Follows(d, GENESIS);
    GrowOld(d, v, GENESIS);
    assert Mark(d.counter, GENESIS).0 == 2;
    assert Bumped(Mark(d.counter, GENESIS), 1).1;
  }

  // Without a star, the lone tip approved twice: the next vertex takes its place.
  lemma {:induction false} GrowChain(ds: seq<Dag>, es: seq<Event>, alg: Algorithm, t: Id, v: Id)
    returns (ds': seq<Dag>, es': seq<Event>)
    requires alg != Random && IsRun(ds, es, 0, alg) && t in ds[|es|].counter.tips && v !in ds[|es|].counter.cache
    ensures IsRun(ds', es', 0, alg) && v in ds'[|es'|].counter.tips && t !in ds'[|es'|].counter.tips
    ensures ds'[|es'|].counter.cache == ds[|es|].counter.cache[v := Vertex(v, [t, t])]
    ensures ds'[|es'|].popped == ds[|es|].popped
    ensures |Approving(ds'[|es'|].counter, t)| == |Approving(ds[|es|].counter, t)| + 1
  {
    var d, w := ds[|es|], Vertex(v, [t, t]);
    RunKeepsInv(ds, es, 0, alg, |es|);
    ds', es' := Extend(ds, es, 0, alg, Grow(w));
    EnabledGrows(d, w);
    GrowKeepsShape(d, w);
    GrowOld(d, w, t);
    var c := Enter(d.counter, w);
    ApproveAllMarks(c, w.targets, v, v);
    RunKeepsInv(ds', es', 0, alg, |es'|);
    TheOne(ds'[|es'|].counter.tips.Keys, v);
  }

  // Two payments without a star: genesis and the first vertex are confirmed, and no
  // longer tips, after one approval each.
  lemma {:induction false} NoStarRun(alg: Algorithm) returns (ds: seq<Dag>, es: seq<Event>)
    requires alg != Random
    ensures IsRun(ds, es, 0, alg) && 1 in ds[|es|].counter.cache
    ensures var c := ds[|es|].counter;
      forall v :: v in {GENESIS, 1} ==> v !in c.tips && v in c.confirmed && |Approving(c, v)| == 1
  {
    ds, es := [NewDag(0, alg)], [];
    NewDagCounter(0, alg);
    assert Approving(ds[|es|].counter, GENESIS) == {};
    ds, es := GrowChain(ds, es, alg, GENESIS, 1);
    assert Approving(ds[|es|].counter, 1) == {};
    ghost var c := ds[|es|].counter;
    ds, es := GrowChain(ds, es, alg, 1, 2);
    assert Approving(ds[|es|].counter, GENESIS) == Approving(c, GENESIS);
    NoStarOneTip(ds, es, alg, |es|);
    TheOne(ds[|es|].counter.tips.Keys, 2);
    VertexLifeCycle(ds, es, 0, alg, |es|, GENESIS);
    VertexLifeCycle(ds, es, 0, alg, |es|, 1);
  }

  // ------------------------------------------------------------- when all is regular

  ghost predicate LivesAt(d: Dag, v: Id) {
    v in d.counter.cache ==> LifeCycle(d.counter, d.popped[v], v, 2)
  }

  ghost predicate VerticesLive(width: nat, alg: Algorithm) {
    forall ds: seq<Dag>, es, k, v ::
      IsRun(ds, es, width, alg) && 0 <= k < |ds| && v != GENESIS ==> LivesAt(ds[k], v)
  }

  // In all runs every vertex other than genesis takes two approvals to be confirmed,
  // exactly when there is a star or the choice is the plain random one.
  lemma {:induction false} VertexLifeCycleIff(width: nat, alg: Algorithm)
    ensures VerticesLive(width, alg) <==> width >= 1 || alg == Random
  {
    if width >= 1 || alg == Random {
      forall ds: seq<Dag>, es, k, v | IsRun(ds, es, width, alg) && 0 <= k < |ds| && v != GENESIS
        ensures LivesAt(ds[k], v)
      {
        if v in ds[k].counter.cache { VertexLifeCycle(ds, es, width, alg, k, v); }
      }
    } else {
      var ds, es := NoStarRun(alg);
      assert !LivesAt(ds[|es|], 1);
    }
  }

  ghost predicate GenesisLives(width: nat, alg: Algorithm) {
    forall ds: seq<Dag>, es, k :: IsRun(ds, es, width, alg) && 0 <= k < |ds| ==> LivesAt(ds[k], GENESIS)
  }

  // A small star leaves genesis with two approvals at most.
  lemma {:induction false} FewApprovals(ds: seq<Dag>, es: seq<Event>, width: nat, alg: Algorithm, k: nat)
    requires IsRun(ds, es, width, alg) && k < |ds| && 1 <= Span(width, alg) <= 2
    ensures |Approving(ds[k].counter, GENESIS)| <= 2
  {
    if k == 0 {
      NewDagCounter(width, alg);
      assert Approving(ds[0].counter, GENESIS) == {};
    } else {
      var d := ds[k - 1];
      FewApprovals(ds, es, width, alg, k - 1);
      RunKeepsInv(ds, es, width, alg, k - 1);
      assert ds[k - 1 + 1] == Apply(d, es[k - 1]);
      FewStay(d, es[k - 1]);
    }
  }

  lemma {:induction false} FewStay(d: Dag, e: Event)
    requires Inv(d) && Enabled(d, e) && 1 <= Span(d.width, d.alg) <= 2 && |Approving(d.counter, GENESIS)| <= 2
    ensures |Approving(Apply(d, e).counter, GENESIS)| <= 2
  {
    match e {
      case Grow(v) =>
        EnabledGrows(d, v);
        FewMore(d, v);
      case Pop =>
        assert Approving(Apply(d, e).counter, GENESIS) == Approving(d.counter, GENESIS);
    }
  }

  lemma {:induction false} FewMore(d: Dag, v: Vertex)
    requires Inv(d) && Grows(d, v) && 1 <= Span(d.width, d.alg) <= 2 && |Approving(d.counter, GENESIS)| <= 2
    ensures |Approving(AddVertex(d.counter, v), GENESIS)| <= 2
  {
    GrowOld(d, v, GENESIS);
    assert Follows(d, GENESIS);
    if Added(d) < Span(d.width, d.alg) {
      assert |d.counter.cache.Keys - {GENESIS}| == Added(d);
    } else {
      TipWhen(d.counter, GENESIS, Entries(d, GENESIS));
    }
  }

  lemma {:induction false} FewLives(d: Dag, v: Id)
    requires Follows(d, v) && GoodLists(d.counter.tips) && Per(d) == 1 && |Approving(d.counter, v)| <= 2
    ensures LivesAt(d, v)
  {
  }

  // Runs in which genesis does not live as the others do.
  lemma {:induction false} GenesisStrays(width: nat, alg: Algorithm) returns (ds: seq<Dag>, es: seq<Event>)
    requires !(1 <= Span(width, alg) <= 2)
    ensures IsRun(ds, es, width, alg) && !LivesAt(ds[|es|], GENESIS)
  {
    if width == 0 {
      ds, es := NoStarRun(alg);
    } else {
      ds, es := StarOfThree(width, alg);
    }
    RunKeepsInv(ds, es, width, alg, |es|);
    assert GENESIS in ds[|es|].counter.cache;
  }

  // Genesis lives as the others do, in all runs, exactly with a star of one or two
  // vertices, or with none and the plain random choice.
  lemma {:induction false} GenesisLifeCycleIff(width: nat, alg: Algorithm)
    ensures GenesisLives(width, alg) <==> 1 <= width <= 2 || (width == 0 && alg == Random)
  {
    if 1 <= Span(width, alg) <= 2 {
      forall ds: seq<Dag>, es, k | IsRun(ds, es, width, alg) && 0 <= k < |ds| ensures LivesAt(ds[k], GENESIS) {
        FewApprovals(ds, es, width, alg, k);
        RunKeepsInv(ds, es, width, alg, k);
        assert Follows(ds[k], GENESIS);
        FewLives(ds[k], GENESIS);
      }
    } else {
      var ds, es := GenesisStrays(width, alg);
    }
  }
}

/**
 The chain of pins and its repair: `insertIfNotFound` in `dag/pin.go` and the gap
 search `SyncPin` in `dag/syncpin.go`.
 */
module PinChain {
  import opened Wrappers

  type Sign = nat

  // A pin names its predecessor by signature; the genesis pin names none.
  datatype Pin = Pin(sign: Sign, prev: Option<Sign>)

  predicate Has(pins: seq<Pin>, s: Sign) {
    exists i :: 0 <= i < |pins| && pins[i].sign == s
  }

  // The place of the first pin that names s as its predecessor, or the length.
  function SuccessorAt(pins: seq<Pin>, s: Sign): (i: nat)
    ensures i <= |pins| && (i < |pins| ==> pins[i].prev == Some(s))
    ensures forall k :: 0 <= k < i ==> pins[k].prev != Some(s)
  {
    if pins == [] || pins[0].prev == Some(s) then 0 else 1 + SuccessorAt(pins[1..], s)
  }

  function Insert(pins: seq<Pin>, p: Pin): seq<Pin> {
    var i := SuccessorAt(pins, p.sign);
    if Has(pins, p.sign) then pins
    else if p.prev == None && pins != [] && pins[0].prev == None then pins[0 := p]
    else if i < |pins| then pins[..i] + [p] + pins[i..]
    else if p.prev == None && pins != [] then pins
    else pins + [p]
  }

  // The predecessor to ask for at a place in the list, if any.
  function RequestAt(pins: seq<Pin>, i: nat): seq<Sign>
    requires i < |pins|
  {
    match pins[i].prev
    case None => []
    case Some(s) => if i > 0 && pins[i - 1].sign == s then [] else [s]
  }

  // All requests of one search, from the newest pin down.
  function Requests(pins: seq<Pin>): seq<Sign> {
    if pins == [] then []
    else RequestAt(pins, |pins| - 1) + Requests(pins[..|pins| - 1])
  }

  lemma {:induction false} RequestsUpTo(pins: seq<Pin>, i: nat, done: seq<Sign>)
    requires i < |pins|
    ensures done + Requests(pins[..i + 1]) == (done + RequestAt(pins, i)) + Requests(pins[..i])
  {
    assert pins[..i + 1][..i] == pins[..i];
    assert RequestAt(pins[..i + 1], i) == RequestAt(pins, i);
  }

  class PinList {
    var pins: seq<Pin>

    constructor ()
      ensures pins == []
    {
      pins := [];
    }

    method Find(s: Sign) returns (found: bool)
      ensures found == Has(pins, s)
    {
      var i := 0;
      while i < |pins|
        invariant 0 <= i <= |pins|
        invariant forall k :: 0 <= k < i ==> pins[k].sign != s
      {
        if pins[i].sign == s { return true; }
        i := i + 1;
      }
      return false;
    }

    method InsertIfNotFound(p: Pin)
      modifies this
      ensures pins == Insert(old(pins), p)
    {
      var found := Find(p.sign);
      if found { return; }
      if p.prev == None {
        if |pins| > 0 {
          if pins[0].prev == None {
            if pins[0].sign != p.sign { pins := pins[0 := p]; }
          } else {
            var inserted := InsertBeforeSuccessor(p);
          }
        } else {
          pins := pins + [p];
        }
      } else {
        var inserted := InsertBeforeSuccessor(p);
        if !inserted { pins := pins + [p]; }
      }
    }

    method InsertBeforeSuccessor(p: Pin) returns (inserted: bool)
      modifies this
      ensures var i := SuccessorAt(old(pins), p.sign);
        && inserted == (i < |old(pins)|)
        && pins == if inserted then old(pins)[..i] + [p] + old(pins)[i..] else old(pins)
    {
      var i := 0;
      while i < |pins|
        invariant 0 <= i <= |pins| && pins == old(pins)
        invariant forall k :: 0 <= k < i ==> pins[k].prev != Some(p.sign)
      {
        if pins[i].prev == Some(p.sign) {
          pins := pins[..i] + [p] + pins[i..];
          return true;
        }
        i := i + 1;
      }
      return false;
    }

    method SyncPin() returns (requests: seq<Sign>)
      ensures requests == Requests(pins)
    {
      requests := [];
      var idx := |pins|;
      assert pins[..idx] == pins;
      while idx > 0
        invariant 0 <= idx <= |pins|
        invariant requests + Requests(pins[..idx]) == Requests(pins)
      {
        idx := idx - 1;
        RequestsUpTo(pins, idx, requests);
        ghost var earlier := requests;
        var prev := pins[idx].prev;
        if prev.Some? && idx == 0 {
          requests := requests + [prev.value];
        } else if idx > 0 {
          if prev.Some? && prev.value != pins[idx - 1].sign { requests := requests + [prev.value]; }
        }
        assert requests == earlier + RequestAt(pins, idx);
      }
    }
  }

  // ------------------------------------------------------------- any pins at all

  ghost predicate DistinctSigns(pins: seq<Pin>) {
    forall i, j :: 0 <= i < j < |pins| ==> pins[i].sign != pins[j].sign
  }

  // What an arrival does: nothing, if the pin is known, or if it is a genesis that nothing
  // in a list names; a genesis in front is replaced and all others stay in place; otherwise
  // the pin is put right before the first that names it, or at the end, and no pin is lost.
  lemma {:induction false} InsertPlaces(pins: seq<Pin>, p: Pin)
    ensures var now := Insert(pins, p);
      var named := exists k :: 0 <= k < |pins| && pins[k].prev == Some(p.sign);
      if Has(pins, p.sign) then now == pins
      else if Replaces(pins, p) then
        |now| == |pins| && now[0] == p && forall k :: 0 < k < |pins| ==> now[k] == pins[k]
      else if p.prev == None && pins != [] && !named then now == pins
      else exists i: nat :: PutAt(pins, p, i, now) && (named <==> i < |pins|)
  {
    var i := SuccessorAt(pins, p.sign);
    if !Has(pins, p.sign) && !Replaces(pins, p) && (i < |pins| || p.prev != None || pins == []) {
      assert PutAt(pins, p, i, Insert(pins, p));
    }
  }

  // The pin stands at place i, before the first pin that names it, and the others as they did.
  ghost predicate PutAt(pins: seq<Pin>, p: Pin, i: nat, now: seq<Pin>) {
    && i <= |pins| && |now| == |pins| + 1 && now[i] == p
    && (i < |pins| ==> pins[i].prev == Some(p.sign))
    && (forall k :: 0 <= k < i ==> now[k] == pins[k] && pins[k].prev != Some(p.sign))
    && forall k :: i <= k < |pins| ==> now[k + 1] == pins[k]
  }

  // Inserts never duplicate a pin.
  lemma {:induction false} InsertKeepsDistinct(pins: seq<Pin>, p: Pin)
    requires DistinctSigns(pins)
    ensures DistinctSigns(Insert(pins, p))
  {
    if !Has(pins, p.sign) {
      assert forall k :: 0 <= k < |pins| ==> pins[k].sign != p.sign;
    }
  }

  ghost predicate NextTo(pins: seq<Pin>, j: nat, a: Pin, b: Pin) {
    j + 1 < |pins| && pins[j] == a && pins[j + 1] == b
  }

  ghost predicate Neighbours(pins: seq<Pin>, a: Pin, b: Pin) {
    exists j: nat :: NextTo(pins, j, a, b)
  }

  // The arrival of a genesis pin other than the one at the front, which it replaces.
  predicate Replaces(pins: seq<Pin>, p: Pin) {
    p.prev == None && pins != [] && pins[0].prev == None && !Has(pins, p.sign)
  }

  // Whatever pins are in the list and whatever arrives, a pin and the successor right
  // behind it stay together, exactly unless the pin is a genesis that gets replaced.
  lemma {:induction false} InsertKeepsNeighboursIff(pins: seq<Pin>, p: Pin, i: nat)
    requires DistinctSigns(pins) && i + 1 < |pins| && pins[i + 1].prev == Some(pins[i].sign)
    ensures Neighbours(Insert(pins, p), pins[i], pins[i + 1]) <==> !(i == 0 && Replaces(pins, p))
  {
    var pins', k := Insert(pins, p), SuccessorAt(pins, p.sign);
    if i == 0 && Replaces(pins, p) {
      forall j: nat | j < |pins'| ensures pins'[j] != pins[0] {
        assert j > 0 ==> pins[j].sign != pins[0].sign;
        assert pins[0].sign != p.sign;
      }
    } else {
      var j := if Has(pins, p.sign) || Replaces(pins, p) || i < k then i else i + 1;
      assert k == i + 1 ==> pins[i].sign == p.sign;
      assert NextTo(pins', j, pins[i], pins[i + 1]);
    }
  }

  // Such an arrival: another genesis, and the pin behind the first one is left alone.
  lemma {:induction false} SecondGenesisSeparates()
    ensures var g, next := Pin(1, None), Pin(2, Some(1));
      DistinctSigns([g, next]) && !Neighbours(Insert([g, next], Pin(9, None)), g, next)
  {
    InsertKeepsNeighboursIff([Pin(1, None), Pin(2, Some(1))], Pin(9, None), 0);
  }

  // --------------------------------------------------------------- pins of one chain

  // Each pin names the one before it, and only the first names none.
  ghost predicate IsChain(chain: seq<Pin>) {
    && DistinctSigns(chain)
    && forall k: nat {:trigger LinkedAt(chain, k)} :: k < |chain| ==> LinkedAt(chain, k)
  }

  ghost predicate LinkedAt(chain: seq<Pin>, k: nat)
    requires k < |chain|
  {
    chain[k].prev == if k == 0 then None else Some(chain[k - 1].sign)
  }

  // Pins of the chain, none twice.
  ghost predicate DrawnFrom(chain: seq<Pin>, pins: seq<Pin>) {
    DistinctSigns(pins) && forall i :: 0 <= i < |pins| ==> pins[i] in chain
  }

  function InsertAll(pins: seq<Pin>, arrivals: seq<Pin>): seq<Pin> {
    if arrivals == [] then pins
    else Insert(InsertAll(pins, arrivals[..|arrivals| - 1]), arrivals[|arrivals| - 1])
  }

  // A chain has one genesis, so nothing is ever replaced.
  lemma {:induction false} ChainNeverReplaces(chain: seq<Pin>, pins: seq<Pin>, p: Pin)
    requires IsChain(chain) && DrawnFrom(chain, pins) && p in chain
    ensures !Replaces(pins, p)
  {
    if p.prev == None && pins != [] && pins[0].prev == None {
      var k: nat :| k < |chain| && chain[k] == p;
      var m: nat :| m < |chain| && chain[m] == pins[0];
      assert LinkedAt(chain, k) && LinkedAt(chain, m);
      assert pins[0].sign == p.sign;
    }
  }

  lemma {:induction false} InsertDrawn(chain: seq<Pin>, pins: seq<Pin>, p: Pin)
    requires DrawnFrom(chain, pins) && p in chain
    ensures DrawnFrom(chain, Insert(pins, p))
  {
    InsertKeepsDistinct(pins, p);
  }

  // In any order of arrival, repeats included, neighbours in the chain that stand
  // together stay together.
  lemma {:induction false} ArrivalsKeepNeighbours(chain: seq<Pin>, pins: seq<Pin>, arrivals: seq<Pin>, a: Pin, b: Pin)
    requires IsChain(chain) && DrawnFrom(chain, pins) && forall p :: p in arrivals ==> p in chain
    requires Neighbours(pins, a, b) && b.prev == Some(a.sign)
    ensures DrawnFrom(chain, InsertAll(pins, arrivals)) && Neighbours(InsertAll(pins, arrivals), a, b)
  {
    if arrivals == [] {
    } else {
      var front, p := arrivals[..|arrivals| - 1], arrivals[|arrivals| - 1];
      assert p in arrivals && forall q :: q in front ==> q in arrivals;
      ArrivalsKeepNeighbours(chain, pins, front, a, b);
      var before := InsertAll(pins, front);
      InsertDrawn(chain, before, p);
      ChainNeverReplaces(chain, before, p);
      var i: nat :| NextTo(before, i, a, b);
      InsertKeepsNeighboursIff(before, p, i);
    }
  }
}

/** Delivery lists of the queues with multiplicity: which consumer got which task, and how often. */
module Deliveries {

  /** A delivered task: the index it was found at and its box. */
  datatype Got = Got(index: nat, box: nat)

  ghost predicate Has(got: seq<Got>, i: nat) {
    exists j :: 0 <= j < |got| && got[j].index == i
  }

  lemma HasAppend(got: seq<Got>, g: Got, i: nat)
    ensures Has(got + [g], i) <==> Has(got, i) || g.index == i
  {
    if Has(got, i) {
      var j :| 0 <= j < |got| && got[j].index == i;
      assert (got + [g])[j].index == i;
    }
    if g.index == i {
      assert (got + [g])[|got|].index == i;
    }
  }

  ghost predicate Increasing(got: seq<Got>) {
    forall j, k :: 0 <= j < k < |got| ==> got[j].index < got[k].index
  }

  ghost predicate AllBelow(got: seq<Got>, n: nat) {
    forall j :: 0 <= j < |got| ==> got[j].index < n
  }

  ghost predicate Distinct(got: seq<Got>) {
    forall j, k :: 0 <= j < k < |got| ==> got[j].index != got[k].index
  }

  /** Every delivered box is the one put at its index. */
  ghost predicate Right(got: seq<Got>, boxes: nat) {
    forall j :: 0 <= j < |got| ==> got[j].box == got[j].index < boxes
  }

  /** How often index `i` occurs in a delivery list. */
  function Times(got: seq<Got>, i: nat): nat {
    if got == [] then 0 else Times(got[..|got| - 1], i) + if got[|got| - 1].index == i then 1 else 0
  }

  /** The same over several consumers. */
  function TimesAll(gots: seq<seq<Got>>, i: nat): nat {
    if gots == [] then 0 else TimesAll(gots[..|gots| - 1], i) + Times(gots[|gots| - 1], i)
  }

  lemma {:induction false} TimesOnce(got: seq<Got>, i: nat)
    requires Distinct(got)
    ensures Times(got, i) == if Has(got, i) then 1 else 0
    decreases |got|
  {
    if got != [] {
      var front := got[..|got| - 1];
      TimesOnce(front, i);
      HasAppend(front, got[|got| - 1], i);
      assert got == front + [got[|got| - 1]];
    }
  }

  lemma {:induction false} TimesHas(got: seq<Got>, i: nat)
    ensures Times(got, i) > 0 <==> Has(got, i)
    decreases |got|
  {
    if got != [] {
      var front := got[..|got| - 1];
      TimesHas(front, i);
      HasAppend(front, got[|got| - 1], i);
      assert got == front + [got[|got| - 1]];
    }
  }

  /** Consumers that never take an index twice take it at most once each. */
  lemma {:induction false} TimesBound(gots: seq<seq<Got>>, i: nat)
    requires forall u :: 0 <= u < |gots| ==> Distinct(gots[u])
    ensures TimesAll(gots, i) <= |gots|
    decreases |gots|
  {
    if gots != [] {
      TimesBound(gots[..|gots| - 1], i);
      TimesOnce(gots[|gots| - 1], i);
    }
  }

  ghost predicate SomeHas(gots: seq<seq<Got>>, i: nat) {
    exists u :: 0 <= u < |gots| && Has(gots[u], i)
  }

  /** If moreover no two of them take the same index, it is taken at most once in all. */
  lemma {:induction false} TimesExclusive(gots: seq<seq<Got>>, i: nat)
    requires forall u :: 0 <= u < |gots| ==> Distinct(gots[u])
    requires forall u, v :: 0 <= u < v < |gots| && Has(gots[u], i) ==> !Has(gots[v], i)
    ensures TimesAll(gots, i) == if SomeHas(gots, i) then 1 else 0
    decreases |gots|
  {
    if gots != [] {
      var last := |gots| - 1;
      var front := gots[..last];
      TimesExclusive(front, i);
      TimesOnce(gots[last], i);
      if SomeHas(front, i) {
        var u :| 0 <= u < last && Has(front[u], i);
        assert Has(gots[u], i);
      }
      if SomeHas(gots, i) {
        var u :| 0 <= u < |gots| && Has(gots[u], i);
        assert u < last ==> Has(front[u], i);
      }
    }
  }
}

/**
 The promise behind src/race.rs: a computation with an empty race report gives the same result under
 every parallel schedule. A schedule interleaves the strands access by access; each strand is an
 arbitrary deterministic program of the values it has read so far.
 */
module Determinacy {
  import opened Numbers
  import opened RaceTree
  import opened RaceReport
  import opened RaceDetect

  /** The `k`-th access of a strand. */
  datatype Act = Act(strand: nat, k: nat)

  predicate IsAct(root: Node, e: Act) {
    e.strand < Count(root) && e.k < |Leaves(root)[e.strand]|
  }

  function AccessOf(root: Node, e: Act): Access
    requires IsAct(root, e)
  {
    Leaves(root)[e.strand][e.k]
  }

  /** `e` happens before `f`: earlier in the same strand, or in an earlier strand in series with it. */
  ghost predicate Before(root: Node, e: Act, f: Act)
    requires IsAct(root, e) && IsAct(root, f)
  {
    if e.strand == f.strand then e.k < f.k
    else e.strand < f.strand && !LcaParallel(root, e.strand, f.strand)
  }

  /** Positions `i < j` hold different accesses, and not in the wrong order. */
  ghost predicate InOrder(root: Node, s: seq<Act>, i: nat, j: nat) {
    i < j < |s| && IsAct(root, s[i]) && IsAct(root, s[j]) ==> s[i] != s[j] && !Before(root, s[j], s[i])
  }

  /** Every access once, none before one it depends on. */
  ghost predicate IsSchedule(root: Node, s: seq<Act>) {
    && (forall e :: e in s <==> IsAct(root, e))
    && (forall i: nat, j: nat :: InOrder(root, s, i, j))
  }

  /** Two accesses to the same location, at least one a write. */
  ghost predicate Clash(root: Node, e: Act, f: Act)
    requires IsAct(root, e) && IsAct(root, f)
  {
    AccessOf(root, e).location == AccessOf(root, f).location
    && (AccessOf(root, e).isWrite || AccessOf(root, f).isWrite)
  }

  ghost predicate Settled(root: Node, e: Act, f: Act) {
    IsAct(root, e) && IsAct(root, f) && e != f && Clash(root, e, f) ==> Before(root, e, f) || Before(root, f, e)
  }

  /** Clashing accesses are always ordered. */
  ghost predicate Ordered(root: Node) {
    forall e, f :: Settled(root, e, f)
  }

  ghost predicate IsRead(root: Node, e: Act) {
    IsAct(root, e) && !AccessOf(root, e).isWrite
  }

  /** What can look at a location: a read of it, or (`None`) whoever finds the memory left at the end. */
  ghost predicate Looks(root: Node, location: nat, o: Option<Act>) {
    o.Some? ==> IsRead(root, o.value) && AccessOf(root, o.value).location == location
  }

  /** A write to the location that happens before the look. */
  ghost predicate WritesBefore(root: Node, e: Act, location: nat, o: Option<Act>) {
    && IsAct(root, e) && AccessOf(root, e) == Access(location, true)
    && (o.Some? && IsAct(root, o.value) ==> Before(root, e, o.value))
  }

  /** One with no other after it. */
  ghost predicate Latest(root: Node, e: Act, location: nat, o: Option<Act>) {
    && WritesBefore(root, e, location, o)
    && forall g :: WritesBefore(root, g, location, o) ==> !Before(root, e, g)
  }

  ghost predicate OneLatest(root: Node, location: nat, o: Option<Act>) {
    forall e, f :: Latest(root, e, location, o) && Latest(root, f, location, o) ==> e == f
  }

  ghost predicate ReadSettled(root: Node, e: Act, r: Act) {
    IsAct(root, e) && AccessOf(root, e).isWrite && IsRead(root, r)
      && AccessOf(root, e).location == AccessOf(root, r).location ==>
      Before(root, e, r) || Before(root, r, e)
  }

  /** Reads are ordered with the writes to their location, and of the writes before a look one is the latest. */
  ghost predicate Certain(root: Node) {
    && (forall e, r :: ReadSettled(root, e, r))
    && (forall location: nat, o :: Looks(root, location, o) ==> OneLatest(root, location, o))
  }

  /** Where all clashes are ordered, certainly so are those that can be seen. */
  lemma OrderedIsCertain(root: Node)
    requires Ordered(root)
    ensures Certain(root)
  {
    forall e, r
      ensures ReadSettled(root, e, r)
    {
      assert Settled(root, e, r);
    }
    forall location: nat, o, e, f | Latest(root, e, location, o) && Latest(root, f, location, o)
      ensures e == f
    {
      assert Settled(root, e, f);
    }
  }

  lemma {:induction false} ActIsEvent(strands: seq<StrandInfo>, e: Act)
    requires e.strand < |strands| && e.k < |strands[e.strand].accesses|
    ensures var a := strands[e.strand].accesses[e.k];
      Event(a.location, Accessor(e.strand, a.isWrite)) in AllEvents(strands)
  {
    var last := |strands| - 1;
    if e.strand < last {
      ActIsEvent(strands[..last], e);
    } else {
      assert EventsOf(last, strands[last].accesses)[e.k] in EventsOf(last, strands[last].accesses);
    }
  }

  /** Without races every clash is ordered. */
  lemma RaceFreeOrders(root: Node)
    requires RaceFree(root)
    ensures Ordered(root)
  {
    forall e, f
      ensures Settled(root, e, f)
    {
      if IsAct(root, e) && IsAct(root, f) && e.strand != f.strand && Clash(root, e, f) {
        ActIsEvent(Labelled(root), e);
        ActIsEvent(Labelled(root), f);
        var a, b := AccessOf(root, e), AccessOf(root, f);
        assert !Racing(root, Event(a.location, Accessor(e.strand, a.isWrite)),
                       Event(b.location, Accessor(f.strand, b.isWrite)));
        LcaSymmetric(root, e.strand, f.strand);
      }
    }
  }

  // ---------------------------------------------------------------- the serial schedule

  function InStrand(strand: nat, count: nat): seq<Act> {
    seq(count, k requires 0 <= k < count => Act(strand, k))
  }

  /** The accesses of the first `n` strands, one strand after the other. */
  function Serial(leaves: seq<seq<Access>>, n: nat): seq<Act>
    requires n <= |leaves|
  {
    if n == 0 then [] else Serial(leaves, n - 1) + InStrand(n - 1, |leaves[n - 1]|)
  }

  ghost predicate Earlier(e: Act, f: Act) {
    e.strand < f.strand || (e.strand == f.strand && e.k < f.k)
  }

  lemma {:induction false} SerialOrder(leaves: seq<seq<Access>>, n: nat)
    requires n <= |leaves|
    ensures forall e :: e in Serial(leaves, n) <==> e.strand < n && e.k < |leaves[e.strand]|
    ensures forall i, j :: 0 <= i < j < |Serial(leaves, n)| ==> Earlier(Serial(leaves, n)[i], Serial(leaves, n)[j])
  {
    if n > 0 {
      SerialOrder(leaves, n - 1);
      var front, last := Serial(leaves, n - 1), InStrand(n - 1, |leaves[n - 1]|);
      forall e
        ensures e in last <==> e.strand == n - 1 && e.k < |leaves[n - 1]|
      {
        if e.strand == n - 1 && e.k < |leaves[n - 1]| {
          assert last[e.k] == e;
        }
      }
      forall i, j | 0 <= i < j < |front + last|
        ensures Earlier((front + last)[i], (front + last)[j])
      {
        if i < |front| && j >= |front| {
          assert front[i] in front;
        }
      }
    }
  }

  /** Running the strands left to right, one after the other, is one of the schedules. */
  lemma SerialIsSchedule(root: Node)
    ensures IsSchedule(root, Serial(Leaves(root), Count(root)))
  {
    SerialOrder(Leaves(root), Count(root));
    var s := Serial(Leaves(root), Count(root));
    forall i: nat, j: nat
      ensures InOrder(root, s, i, j)
    {
      assert i < j < |s| ==> Earlier(s[i], s[j]);
    }
  }

  // ---------------------------------------------------------------- which write a read sees

  /** Position of the last write to `location` among the first `n` accesses. */
  function LastWrite(root: Node, s: seq<Act>, n: nat, location: nat): (r: Option<nat>)
    requires n <= |s| && forall e :: e in s ==> IsAct(root, e)
    ensures r.Some? ==> r.value < n && AccessOf(root, s[r.value]) == Access(location, true)
    ensures forall i :: (if r.Some? then r.value + 1 else 0) <= i < n ==> AccessOf(root, s[i]) != Access(location, true)
  {
    if n == 0 then None
    else if AccessOf(root, s[n - 1]) == Access(location, true) then Some(n - 1)
    else LastWrite(root, s, n - 1, location)
  }

  /** The look `o` sees the memory that the first `n` accesses of the schedule left. */
  ghost predicate LooksAt(s: seq<Act>, n: nat, o: Option<Act>) {
    if o.None? then n == |s| else n < |s| && s[n] == o.value
  }

  lemma ScheduledBefore(root: Node, s: seq<Act>, n: nat, location: nat, o: Option<Act>, g: Act) returns (i: nat)
    requires IsSchedule(root, s) && Looks(root, location, o) && LooksAt(s, n, o) && WritesBefore(root, g, location, o)
    ensures i < n && s[i] == g
  {
    assert g in s;
    i :| 0 <= i < |s| && s[i] == g;
    assert InOrder(root, s, n, i);
  }

  /** The last write of a schedule before a look is a latest one by the order of the computation. */
  lemma LastIsLatest(root: Node, s: seq<Act>, n: nat, location: nat, o: Option<Act>)
    requires IsSchedule(root, s) && Certain(root) && Looks(root, location, o) && LooksAt(s, n, o)
    ensures match LastWrite(root, s, n, location)
      case Some(a) => Latest(root, s[a], location, o)
      case None => forall g :: !WritesBefore(root, g, location, o)
  {
    var last := LastWrite(root, s, n, location);
    if last.Some? && o.Some? {
      assert s[last.value] in s && ReadSettled(root, s[last.value], o.value);
      assert InOrder(root, s, last.value, n);
    }
    forall g | WritesBefore(root, g, location, o)
      ensures last.Some? && !Before(root, s[last.value], g)
    {
      var i := ScheduledBefore(root, s, n, location, o, g);
      assert InOrder(root, s, i, last.value);
    }
  }

  /** Every schedule shows a look the same last write. */
  lemma SameLastWrite(root: Node, s: seq<Act>, t: seq<Act>, n: nat, m: nat, location: nat, o: Option<Act>)
    requires IsSchedule(root, s) && IsSchedule(root, t) && Certain(root)
    requires Looks(root, location, o) && LooksAt(s, n, o) && LooksAt(t, m, o)
    ensures var a, b := LastWrite(root, s, n, location), LastWrite(root, t, m, location);
      a.Some? == b.Some? && (a.Some? ==> s[a.value] == t[b.value])
  {
    LastIsLatest(root, s, n, location, o);
    LastIsLatest(root, t, m, location, o);
    assert OneLatest(root, location, o);
  }

  // ---------------------------------------------------------------- values

  /** A deterministic program per strand and the initial memory: what the `k`-th access of a strand
      writes depends only on the values the strand has read before it. */
  datatype Code<!V> = Code(write: (Act, seq<V>) -> V, init: nat -> V)

  /** The value accessed at position `i` of a schedule. */
  function Value<V>(root: Node, code: Code<V>, s: seq<Act>, i: nat): V
    requires i < |s| && forall e :: e in s ==> IsAct(root, e)
    decreases i, 1
  {
    var a := AccessOf(root, s[i]);
    if a.isWrite then code.write(s[i], Reads(root, code, s, i, s[i].strand))
    else match LastWrite(root, s, i, a.location)
      case None => code.init(a.location)
      case Some(p) => Value(root, code, s, p)
  }

  /** What `strand` has read during the first `n` accesses. */
  function Reads<V>(root: Node, code: Code<V>, s: seq<Act>, n: nat, strand: nat): seq<V>
    requires n <= |s| && forall e :: e in s ==> IsAct(root, e)
    decreases n, 0
  {
    if n == 0 then []
    else if s[n - 1].strand == strand && !AccessOf(root, s[n - 1]).isWrite
    then Reads(root, code, s, n - 1, strand) + [Value(root, code, s, n - 1)]
    else Reads(root, code, s, n - 1, strand)
  }

  /** What a location holds once the schedule has run. */
  function FinalValue<V>(root: Node, code: Code<V>, s: seq<Act>, location: nat): V
    requires forall e :: e in s ==> IsAct(root, e)
  {
    match LastWrite(root, s, |s|, location)
    case None => code.init(location)
    case Some(p) => Value(root, code, s, p)
  }

  ghost function Pos(s: seq<Act>, e: Act): (i: nat)
    requires e in s
    ensures i < |s| && s[i] == e
  {
    var i :| 0 <= i < |s| && s[i] == e;
    i
  }

  lemma PosUnique(root: Node, s: seq<Act>, i: nat)
    requires IsSchedule(root, s) && i < |s|
    ensures Pos(s, s[i]) == i
  {
    var j := Pos(s, s[i]);
    assert s[i] in s && InOrder(root, s, i, j) && InOrder(root, s, j, i);
  }

  /** The reads among the first `k` accesses of a strand, in program order. */
  ghost function ReadsByIndex<V>(root: Node, code: Code<V>, s: seq<Act>, strand: nat, k: nat): seq<V>
    requires IsSchedule(root, s)
    requires strand < Count(root) && k <= |Leaves(root)[strand]|
  {
    if k == 0 then []
    else
      var e := Act(strand, k - 1);
      ReadsByIndex(root, code, s, strand, k - 1)
      + if AccessOf(root, e).isWrite then [] else [Value(root, code, s, Pos(s, e))]
  }

  /** The first `n` positions hold exactly the first `k` accesses of a strand. */
  ghost predicate Holds(s: seq<Act>, n: nat, strand: nat, k: nat) {
    forall i :: 0 <= i < |s| && s[i].strand == strand ==> (i < n <==> s[i].k < k)
  }

  lemma HoldsAt(root: Node, s: seq<Act>, n: nat)
    requires IsSchedule(root, s) && n < |s|
    ensures Holds(s, n, s[n].strand, s[n].k)
  {
    forall i | 0 <= i < |s| && s[i].strand == s[n].strand
      ensures i < n <==> s[i].k < s[n].k
    {
      assert s[i] in s && s[n] in s;
      assert InOrder(root, s, i, n) && InOrder(root, s, n, i);
    }
  }

  lemma HoldsNone(root: Node, s: seq<Act>, strand: nat, k: nat)
    requires IsSchedule(root, s)
    requires strand < Count(root) && k <= |Leaves(root)[strand]| && Holds(s, 0, strand, k)
    ensures k == 0
  {
    var e := Act(strand, 0);
    assert IsAct(root, e) ==> e in s;
  }

  lemma HoldsLast(root: Node, s: seq<Act>, n: nat, strand: nat, k: nat)
    requires IsSchedule(root, s) && 0 < n <= |s| && s[n - 1].strand == strand
    requires strand < Count(root) && k <= |Leaves(root)[strand]| && Holds(s, n, strand, k)
    ensures k > 0 && s[n - 1] == Act(strand, k - 1) && Holds(s, n - 1, strand, k - 1)
  {
    var e := Act(strand, k - 1);
    assert e in s;
    var i := Pos(s, e);
    assert s[n - 1] in s && InOrder(root, s, i, n - 1);
    HoldsAt(root, s, n - 1);
  }

  /** A schedule shows a strand its own reads in program order. */
  lemma {:induction false} ReadsInOrder<V>(root: Node, code: Code<V>, s: seq<Act>, n: nat, strand: nat, k: nat)
    requires IsSchedule(root, s) && n <= |s|
    requires strand < Count(root) && k <= |Leaves(root)[strand]| && Holds(s, n, strand, k)
    ensures Reads(root, code, s, n, strand) == ReadsByIndex(root, code, s, strand, k)
    decreases n
  {
    if n == 0 {
      HoldsNone(root, s, strand, k);
    } else if s[n - 1].strand == strand {
      HoldsLast(root, s, n, strand, k);
      ReadsInOrder(root, code, s, n - 1, strand, k - 1);
      ReadsStep(root, code, s, n, strand, k);
    } else {
      ReadsSkip(root, code, s, n, strand, k);
      ReadsInOrder(root, code, s, n - 1, strand, k);
    }
  }

  lemma ReadsSkip<V>(root: Node, code: Code<V>, s: seq<Act>, n: nat, strand: nat, k: nat)
    requires IsSchedule(root, s) && 0 < n <= |s| && s[n - 1].strand != strand && Holds(s, n, strand, k)
    ensures Reads(root, code, s, n, strand) == Reads(root, code, s, n - 1, strand)
    ensures Holds(s, n - 1, strand, k)
  {
  }

  lemma ReadsStep<V>(root: Node, code: Code<V>, s: seq<Act>, n: nat, strand: nat, k: nat)
    requires IsSchedule(root, s) && 0 < n <= |s| && strand < Count(root) && 0 < k <= |Leaves(root)[strand]|
    requires s[n - 1] == Act(strand, k - 1)
    requires Reads(root, code, s, n - 1, strand) == ReadsByIndex(root, code, s, strand, k - 1)
    ensures Reads(root, code, s, n, strand) == ReadsByIndex(root, code, s, strand, k)
  {
    IndexStep(root, code, s, strand, k);
    PosUnique(root, s, n - 1);
  }

  lemma {:induction false} SameReads<V>(root: Node, code: Code<V>, s: seq<Act>, t: seq<Act>,
                                        n: nat, strand: nat, k: nat, m: nat)
    requires IsSchedule(root, s) && IsSchedule(root, t) && Certain(root)
    requires strand < Count(root) && k <= m <= |Leaves(root)[strand]| && Holds(s, n, strand, m)
    ensures ReadsByIndex(root, code, s, strand, k) == ReadsByIndex(root, code, t, strand, k)
    decreases n, 0, k
  {
    if k > 0 {
      var e := Act(strand, k - 1);
      SameReads(root, code, s, t, n, strand, k - 1, m);
      IndexStep(root, code, s, strand, k);
      IndexStep(root, code, t, strand, k);
      SameValue(root, code, s, t, Pos(s, e), Pos(t, e));
    }
  }

  lemma IndexStep<V>(root: Node, code: Code<V>, s: seq<Act>, strand: nat, k: nat)
    requires IsSchedule(root, s) && strand < Count(root) && 0 < k <= |Leaves(root)[strand]|
    ensures var e := Act(strand, k - 1);
      && e in s
      && ReadsByIndex(root, code, s, strand, k)
      == ReadsByIndex(root, code, s, strand, k - 1)
       + if AccessOf(root, e).isWrite then [] else [Value(root, code, s, Pos(s, e))]
  {
  }

  /** An access reads or writes the same value in every schedule, once it is certain what is seen. */
  lemma {:induction false} SameValue<V>(root: Node, code: Code<V>, s: seq<Act>, t: seq<Act>, i: nat, j: nat)
    requires IsSchedule(root, s) && IsSchedule(root, t) && Certain(root)
    requires i < |s| && j < |t| && s[i] == t[j]
    ensures Value(root, code, s, i) == Value(root, code, t, j)
    decreases i, 1
  {
    var e := s[i];
    if AccessOf(root, e).isWrite {
      HoldsAt(root, s, i);
      HoldsAt(root, t, j);
      ReadsInOrder(root, code, s, i, e.strand, e.k);
      ReadsInOrder(root, code, t, j, e.strand, e.k);
      SameReads(root, code, s, t, i, e.strand, e.k, e.k);
    } else {
      var l := AccessOf(root, e).location;
      SameLastWrite(root, s, t, i, j, l, Some(e));
      var a, b := LastWrite(root, s, i, l), LastWrite(root, t, j, l);
      if a.Some? {
        SameValue(root, code, s, t, a.value, b.value);
      }
    }
  }

  /** Two schedules show every access the same value and leave the same memory. */
  ghost predicate SameOutcome<V>(root: Node, code: Code<V>, s: seq<Act>, t: seq<Act>)
    requires IsSchedule(root, s) && IsSchedule(root, t)
  {
    && (forall i, j :: 0 <= i < |s| && 0 <= j < |t| && s[i] == t[j] ==>
          Value(root, code, s, i) == Value(root, code, t, j))
    && (forall location: nat :: FinalValue(root, code, s, location) == FinalValue(root, code, t, location))
  }

  lemma CertainMeansDeterminate<V>(root: Node, code: Code<V>, s: seq<Act>, t: seq<Act>)
    requires Certain(root) && IsSchedule(root, s) && IsSchedule(root, t)
    ensures SameOutcome(root, code, s, t)
  {
    forall i, j | 0 <= i < |s| && 0 <= j < |t| && s[i] == t[j]
      ensures Value(root, code, s, i) == Value(root, code, t, j)
    {
      SameValue(root, code, s, t, i, j);
    }
    forall location: nat
      ensures FinalValue(root, code, s, location) == FinalValue(root, code, t, location)
    {
      SameLastWrite(root, s, t, |s|, |t|, location, None);
      var a, b := LastWrite(root, s, |s|, location), LastWrite(root, t, |t|, location);
      if a.Some? {
        SameValue(root, code, s, t, a.value, b.value);
      }
    }
  }

  /** The promise of `detect_races`: an empty report means that any two schedules make every access
      see the same value and leave the same memory, whatever the strands compute. */
  lemma EmptyReportMeansDeterminate<V>(root: Node, code: Code<V>, s: seq<Act>, t: seq<Act>)
    requires AllRaces(AllEvents(Labelled(root)), Labelled(root)) == multiset{}
    requires IsSchedule(root, s) && IsSchedule(root, t)
    ensures SameOutcome(root, code, s, t)
  {
    EmptyReport(root);
    RaceFreeOrders(root);
    OrderedIsCertain(root);
    CertainMeansDeterminate(root, code, s, t);
  }
}

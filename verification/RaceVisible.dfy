/** Which races of src/race.rs can be seen: the converse of the promise behind an empty report. */
module RaceVisible {
  import opened Numbers
  import opened RaceTree
  import opened RaceReport
  import opened RaceDetect
  import opened Determinacy

  // ---------------------------------------------------------------- the order of the accesses

  /** By the two numberings: `e` happens before `f` when it does in both. */
  lemma BeforeIff(root: Node, e: Act, f: Act)
    requires IsAct(root, e) && IsAct(root, f) && e.strand != f.strand
    ensures Before(root, e, f) <==>
      e.strand < f.strand && HebrewPos(root, e.strand) < HebrewPos(root, f.strand)
  {
    OrdersDisagree(root, e.strand, f.strand);
  }

  lemma BeforeTransitive(root: Node, e: Act, f: Act, g: Act)
    requires IsAct(root, e) && IsAct(root, f) && IsAct(root, g)
    requires Before(root, e, f) && Before(root, f, g)
    ensures Before(root, e, g)
  {
    if e.strand != f.strand {
      BeforeIff(root, e, f);
    }
    if f.strand != g.strand {
      BeforeIff(root, f, g);
    }
    if e.strand != g.strand {
      BeforeIff(root, e, g);
    }
  }

  /** Two accesses that may come in either order. */
  ghost predicate Free(root: Node, e: Act, f: Act) {
    IsAct(root, e) && IsAct(root, f) && e != f && !Before(root, e, f) && !Before(root, f, e)
  }

  // ---------------------------------------------------------------- a schedule around two accesses

  ghost predicate Fine(root: Node, e: Act, f: Act) {
    IsAct(root, e) && IsAct(root, f) && e != f && !Before(root, f, e)
  }

  /** A part of a schedule. */
  ghost predicate Part(root: Node, s: seq<Act>) {
    && (forall e :: e in s ==> IsAct(root, e))
    && forall i, j :: 0 <= i < j < |s| ==> Fine(root, s[i], s[j])
  }

  lemma PartJoins(root: Node, s: seq<Act>, t: seq<Act>)
    requires Part(root, s) && Part(root, t) && forall e, f :: e in s && f in t ==> Fine(root, e, f)
    ensures Part(root, s + t)
  {
    forall i, j | 0 <= i < j < |s + t|
      ensures Fine(root, (s + t)[i], (s + t)[j])
    {
      if i < |s| && j >= |s| {
        assert s[i] in s && t[j - |s|] in t;
      }
    }
  }

  /** Those of a part that do, or do not, have to wait for `e` or `f`. */
  ghost function Waiting(root: Node, s: seq<Act>, e: Act, f: Act, waits: bool): seq<Act>
    requires IsAct(root, e) && IsAct(root, f) && forall g :: g in s ==> IsAct(root, g)
  {
    if s == [] then []
    else
      var g := s[|s| - 1];
      Waiting(root, s[..|s| - 1], e, f, waits)
      + if g != e && g != f && (Before(root, e, g) || Before(root, f, g)) == waits then [g] else []
  }

  lemma {:induction false} WaitingIs(root: Node, s: seq<Act>, e: Act, f: Act, waits: bool)
    requires IsAct(root, e) && IsAct(root, f) && Part(root, s)
    ensures forall g :: g in Waiting(root, s, e, f, waits) <==>
      g in s && g != e && g != f && (Before(root, e, g) || Before(root, f, g)) == waits
    ensures Part(root, Waiting(root, s, e, f, waits))
  {
    if s != [] {
      var front, g := s[..|s| - 1], s[|s| - 1];
      assert s == front + [g];
      WaitingIs(root, front, e, f, waits);
      forall h | h in front
        ensures Fine(root, h, g)
      {
        var i :| 0 <= i < |front| && front[i] == h;
        assert Fine(root, s[i], s[|s| - 1]);
      }
      if g != e && g != f && (Before(root, e, g) || Before(root, f, g)) == waits {
        PartJoins(root, Waiting(root, front, e, f, waits), [g]);
      }
    }
  }

  lemma SerialIsPart(root: Node)
    ensures Part(root, Serial(Leaves(root), Count(root)))
    ensures forall e :: e in Serial(Leaves(root), Count(root)) <==> IsAct(root, e)
  {
    SerialOrder(Leaves(root), Count(root));
    SerialIsSchedule(root);
    var s := Serial(Leaves(root), Count(root));
    forall i, j | 0 <= i < j < |s|
      ensures Fine(root, s[i], s[j])
    {
      assert s[i] in s && s[j] in s && InOrder(root, s, i, j);
    }
  }

  ghost function First(root: Node, e: Act, f: Act): seq<Act>
    requires IsAct(root, e) && IsAct(root, f)
  {
    SerialIsPart(root);
    Waiting(root, Serial(Leaves(root), Count(root)), e, f, false)
  }

  ghost function Rest(root: Node, e: Act, f: Act): seq<Act>
    requires IsAct(root, e) && IsAct(root, f)
  {
    SerialIsPart(root);
    Waiting(root, Serial(Leaves(root), Count(root)), e, f, true)
  }

  /** All that need not wait for `e` or `f`, then `e` and `f` side by side, then the rest. */
  ghost function Around(root: Node, e: Act, f: Act): seq<Act>
    requires IsAct(root, e) && IsAct(root, f)
  {
    First(root, e, f) + [e, f] + Rest(root, e, f)
  }

  lemma SplitIs(root: Node, e: Act, f: Act)
    requires IsAct(root, e) && IsAct(root, f)
    ensures Part(root, First(root, e, f)) && Part(root, Rest(root, e, f))
    ensures forall g :: g in First(root, e, f) <==>
      IsAct(root, g) && g != e && g != f && !Before(root, e, g) && !Before(root, f, g)
    ensures forall g :: g in Rest(root, e, f) <==>
      IsAct(root, g) && g != e && g != f && (Before(root, e, g) || Before(root, f, g))
  {
    SerialIsPart(root);
    WaitingIs(root, Serial(Leaves(root), Count(root)), e, f, false);
    WaitingIs(root, Serial(Leaves(root), Count(root)), e, f, true);
  }

  lemma RestIsLater(root: Node, e: Act, f: Act, g: Act)
    requires Free(root, e, f) && g in Rest(root, e, f)
    ensures Fine(root, e, g) && Fine(root, f, g)
  {
    SplitIs(root, e, f);
    if Before(root, e, g) && Before(root, g, f) {
      BeforeTransitive(root, e, g, f);
    }
    if Before(root, f, g) && Before(root, g, e) {
      BeforeTransitive(root, f, g, e);
    }
  }

  lemma FirstIsEarlier(root: Node, e: Act, f: Act, g: Act, h: Act)
    requires Free(root, e, f) && g in First(root, e, f) && h in Rest(root, e, f)
    ensures Fine(root, g, h)
  {
    SplitIs(root, e, f);
    if Before(root, h, g) {
      if Before(root, e, h) {
        BeforeTransitive(root, e, h, g);
      } else {
        BeforeTransitive(root, f, h, g);
      }
    }
  }

  lemma AroundIsPart(root: Node, e: Act, f: Act)
    requires Free(root, e, f)
    ensures Part(root, Around(root, e, f))
  {
    SplitIs(root, e, f);
    PartJoins(root, First(root, e, f), [e, f]);
    forall g, h | g in First(root, e, f) + [e, f] && h in Rest(root, e, f)
      ensures Fine(root, g, h)
    {
      RestIsLater(root, e, f, h);
      if g in First(root, e, f) {
        FirstIsEarlier(root, e, f, g, h);
      }
    }
    PartJoins(root, First(root, e, f) + [e, f], Rest(root, e, f));
  }

  /** It is a schedule, whichever of the two comes first. */
  lemma AroundIsSchedule(root: Node, e: Act, f: Act)
    requires Free(root, e, f)
    ensures IsSchedule(root, Around(root, e, f))
  {
    AroundIsPart(root, e, f);
    SplitIs(root, e, f);
    var s := Around(root, e, f);
    forall i: nat, j: nat
      ensures InOrder(root, s, i, j)
    {
      assert i < j < |s| ==> Fine(root, s[i], s[j]);
    }
  }

  // ---------------------------------------------------------------- the last write seen

  /** The program in which every write leaves its own name. */
  function Signed(): Code<Option<Act>> {
    Code((e, seen) => Some(e), location => None)
  }

  function Seen(root: Node, s: seq<Act>, n: nat, location: nat): Option<Act>
    requires n <= |s| && forall e :: e in s ==> IsAct(root, e)
  {
    match LastWrite(root, s, n, location)
    case None => None
    case Some(p) => Some(s[p])
  }

  /** Under it a read sees the name of the last write, and so does whoever looks at the end. */
  lemma SignedShows(root: Node, s: seq<Act>, n: nat, location: nat)
    requires IsSchedule(root, s) && n <= |s|
    ensures n < |s| && AccessOf(root, s[n]) == Access(location, false) ==>
      Value(root, Signed(), s, n) == Seen(root, s, n, location)
    ensures FinalValue(root, Signed(), s, location) == Seen(root, s, |s|, location)
  {
  }

  ghost function PlaceOf(root: Node, e: Act, f: Act): nat
    requires IsAct(root, e) && IsAct(root, f)
  {
    |First(root, e, f)|
  }

  lemma SeenIsEarlier(root: Node, s: seq<Act>, n: nat, location: nat, i: nat)
    requires IsSchedule(root, s) && n <= i < |s|
    ensures Seen(root, s, n, location) != Some(s[i])
  {
    var last := LastWrite(root, s, n, location);
    if last.Some? {
      assert s[i] in s && InOrder(root, s, last.value, i);
    }
  }

  /** A read right after a write it is not ordered with sees that write; right before, it does not. */
  lemma ReadRaceSeen(root: Node, e: Act, r: Act)
    requires Free(root, e, r) && IsRead(root, r) && AccessOf(root, e).isWrite
    requires AccessOf(root, e).location == AccessOf(root, r).location
    ensures IsSchedule(root, Around(root, e, r)) && IsSchedule(root, Around(root, r, e))
    ensures !SameOutcome(root, Signed(), Around(root, e, r), Around(root, r, e))
  {
    AroundIsSchedule(root, e, r);
    AroundIsSchedule(root, r, e);
    var s, t, l := Around(root, e, r), Around(root, r, e), AccessOf(root, r).location;
    var i, j := PlaceOf(root, e, r) + 1, PlaceOf(root, r, e);
    assert s[i] == r == t[j] && s[i - 1] == e && t[j + 1] == e;
    SignedShows(root, s, i, l);
    SignedShows(root, t, j, l);
    assert Seen(root, s, i, l) == Some(e);
    SeenIsEarlier(root, t, j, l, j + 1);
  }

  /** Where the writes `e` and `f` stand last before a look, the second of them is what it sees. */
  lemma LastOfTwo(root: Node, e: Act, f: Act, location: nat, o: Option<Act>) returns (n: nat)
    requires Free(root, e, f) && Looks(root, location, o)
    requires Latest(root, e, location, o) && Latest(root, f, location, o)
    requires forall g, r :: ReadSettled(root, g, r)
    ensures IsSchedule(root, Around(root, e, f)) && LooksAt(Around(root, e, f), n, o)
    ensures n <= |Around(root, e, f)| && Seen(root, Around(root, e, f), n, location) == Some(f)
  {
    AroundIsSchedule(root, e, f);
    var s, at := Around(root, e, f), PlaceOf(root, e, f) + 1;
    assert s[at - 1] == e && s[at] == f;
    n := LookOf(root, s, at, location, o);
    forall i | at < i < n
      ensures AccessOf(root, s[i]) != Access(location, true)
    {
      AfterTheTwo(root, e, f, i);
      NoLaterWrite(root, e, f, location, o, s, n, i);
    }
  }

  lemma AfterTheTwo(root: Node, e: Act, f: Act, i: nat)
    requires IsAct(root, e) && IsAct(root, f) && PlaceOf(root, e, f) + 1 < i < |Around(root, e, f)|
    ensures var g := Around(root, e, f)[i]; IsAct(root, g) && (Before(root, e, g) || Before(root, f, g))
  {
    SplitIs(root, e, f);
    assert Around(root, e, f)[i] == Rest(root, e, f)[i - PlaceOf(root, e, f) - 2];
    assert Around(root, e, f)[i] in Rest(root, e, f);
  }

  /** A look comes after a write that happens before it. */
  lemma LookOf(root: Node, s: seq<Act>, at: nat, location: nat, o: Option<Act>) returns (n: nat)
    requires IsSchedule(root, s) && at < |s| && Looks(root, location, o) && WritesBefore(root, s[at], location, o)
    ensures at < n <= |s| && LooksAt(s, n, o)
  {
    if o.None? {
      n := |s|;
    } else {
      assert o.value in s;
      n :| 0 <= n < |s| && s[n] == o.value;
      assert s[at] in s && InOrder(root, s, n, at);
    }
  }

  lemma NoLaterWrite(root: Node, e: Act, f: Act, location: nat, o: Option<Act>, s: seq<Act>, n: nat, i: nat)
    requires Latest(root, e, location, o) && Latest(root, f, location, o) && Looks(root, location, o)
    requires forall g, r :: ReadSettled(root, g, r)
    requires IsSchedule(root, s) && LooksAt(s, n, o) && i < n && i < |s| && IsAct(root, s[i])
    requires Before(root, e, s[i]) || Before(root, f, s[i])
    ensures AccessOf(root, s[i]) != Access(location, true)
  {
    if AccessOf(root, s[i]) == Access(location, true) {
      WriteIsBefore(root, location, o, s, n, i);
    }
  }

  lemma WriteIsBefore(root: Node, location: nat, o: Option<Act>, s: seq<Act>, n: nat, i: nat)
    requires Looks(root, location, o) && forall g, r :: ReadSettled(root, g, r)
    requires IsSchedule(root, s) && LooksAt(s, n, o) && i < n && i < |s| && IsAct(root, s[i])
    requires AccessOf(root, s[i]) == Access(location, true)
    ensures WritesBefore(root, s[i], location, o)
  {
    if o.Some? {
      assert ReadSettled(root, s[i], o.value) && InOrder(root, s, i, n);
    }
  }

  lemma WriteRaceSeen(root: Node, e: Act, f: Act, location: nat, o: Option<Act>)
    requires Free(root, e, f) && Looks(root, location, o)
    requires Latest(root, e, location, o) && Latest(root, f, location, o)
    requires forall g, r :: ReadSettled(root, g, r)
    ensures IsSchedule(root, Around(root, e, f)) && IsSchedule(root, Around(root, f, e))
    ensures !SameOutcome(root, Signed(), Around(root, e, f), Around(root, f, e))
  {
    var n := LastOfTwo(root, e, f, location, o);
    var m := LastOfTwo(root, f, e, location, o);
    SignedShows(root, Around(root, e, f), n, location);
    SignedShows(root, Around(root, f, e), m, location);
  }

  // ---------------------------------------------------------------- the exact condition

  /** Uncertain computations show it: there are two schedules and a program that tell them apart. */
  lemma UncertainShows(root: Node) returns (s: seq<Act>, t: seq<Act>)
    requires !Certain(root)
    ensures IsSchedule(root, s) && IsSchedule(root, t) && !SameOutcome(root, Signed(), s, t)
  {
    if e, r :| !ReadSettled(root, e, r) {
      ReadRaceSeen(root, e, r);
      s, t := Around(root, e, r), Around(root, r, e);
    } else {
      var location: nat, o :| Looks(root, location, o) && !OneLatest(root, location, o);
      var e, f :| Latest(root, e, location, o) && Latest(root, f, location, o) && e != f;
      WriteRaceSeen(root, e, f, location, o);
      s, t := Around(root, e, f), Around(root, f, e);
    }
  }

  ghost predicate Agree(root: Node, s: seq<Act>, t: seq<Act>) {
    IsSchedule(root, s) && IsSchedule(root, t) ==> SameOutcome(root, Signed(), s, t)
  }

  /** Exactly: the schedules of a computation all have the same outcome when every read is ordered with the
      writes to its location and, before each look, one of the writes is the latest. */
  lemma DeterminateIff(root: Node)
    ensures Certain(root) <==> forall s, t :: Agree(root, s, t)
  {
    if Certain(root) {
      forall s, t
        ensures Agree(root, s, t)
      {
        if IsSchedule(root, s) && IsSchedule(root, t) {
          CertainMeansDeterminate(root, Signed(), s, t);
        }
      }
    } else {
      var s, t := UncertainShows(root);
      assert !Agree(root, s, t);
    }
  }

  /** A reported race in which one side reads can always be seen. */
  lemma ReadRaceShows(root: Node, race: Race) returns (s: seq<Act>, t: seq<Act>)
    requires race in AllRaces(AllEvents(Labelled(root)), Labelled(root)) && !(race.writeA && race.writeB)
    ensures IsSchedule(root, s) && IsSchedule(root, t) && !SameOutcome(root, Signed(), s, t)
  {
    var strands := Labelled(root);
    var i, j := ReportSound(AllEvents(strands), strands, race);
    var a, b := AllEvents(strands)[i], AllEvents(strands)[j];
    var e := EventIsAct(root, a);
    var f := EventIsAct(root, b);
    ConflictIsRacing(root, a, b);
    LcaSymmetric(root, e.strand, f.strand);
    assert !ReadSettled(root, if race.writeA then e else f, if race.writeA then f else e);
    s, t := UncertainShows(root);
  }

  lemma EventIsAct(root: Node, a: Event) returns (e: Act)
    requires a in AllEvents(Labelled(root))
    ensures IsAct(root, e) && e.strand == a.access.strand && AccessOf(root, e) == Access(a.location, a.access.isWrite)
  {
    e := EventIn(Labelled(root), a);
  }

  lemma {:induction false} EventIn(strands: seq<StrandInfo>, a: Event) returns (e: Act)
    requires a in AllEvents(strands)
    ensures e.strand == a.access.strand < |strands| && e.k < |strands[e.strand].accesses|
    ensures strands[e.strand].accesses[e.k] == Access(a.location, a.access.isWrite)
  {
    var last := |strands| - 1;
    if a in AllEvents(strands[..last]) {
      e := EventIn(strands[..last], a);
    } else {
      var k :| 0 <= k < |strands[last].accesses| && EventsOf(last, strands[last].accesses)[k] == a;
      e := Act(last, k);
    }
  }

  // ---------------------------------------------------------------- a report nobody can confirm

  /** Two writes in parallel, and a third after both. */
  function Overwritten(): Node {
    var write := Strand([Access(0, true)]);
    Series([Parallel([write, write]), write])
  }

  /** Two writes that race but are overwritten before anybody looks are reported, although every schedule has
      the same outcome: a report with nothing but such races does not mean that the program is indeterminate. */
  lemma WriteRaceCanHide()
    ensures AllRaces(AllEvents(Labelled(Overwritten())), Labelled(Overwritten())) != multiset{}
    ensures Certain(Overwritten())
  {
    OverwrittenRaces();
    OverwrittenIsCertain();
  }

  lemma OverwrittenRaces()
    ensures AllRaces(AllEvents(Labelled(Overwritten())), Labelled(Overwritten())) != multiset{}
  {
    var root := Overwritten();
    OverwrittenIs();
    EmptyReport(root);
    ActIsEvent(Labelled(root), Act(0, 0));
    ActIsEvent(Labelled(root), Act(1, 0));
    assert Racing(root, Event(0, Accessor(0, true)), Event(0, Accessor(1, true)));
  }

  lemma OverwrittenIsCertain()
    ensures Certain(Overwritten())
  {
    var root := Overwritten();
    OverwrittenIs();
    assert forall a :: IsAct(root, a) <==> a in {Act(0, 0), Act(1, 0), Act(2, 0)};
    forall location: nat, o, a | Looks(root, location, o) && Latest(root, a, location, o)
      ensures a == Act(2, 0)
    {
      assert WritesBefore(root, Act(2, 0), location, o);
    }
  }

  lemma OverwrittenIs()
    ensures var root := Overwritten();
      && Count(root) == 3 && Leaves(root) == [[Access(0, true)], [Access(0, true)], [Access(0, true)]]
      && LcaParallel(root, 0, 1) && !LcaParallel(root, 0, 2) && !LcaParallel(root, 1, 2)
  {
    var write := Strand([Access(0, true)]);
    var pair := [write, write];
    assert pair[1..] == [write] && [write][1..] == [];
    assert CountAll([write]) == 1 && CountAll(pair) == 2 && LeavesAll([write]) == [[Access(0, true)]];
    assert LeavesAll(pair) == [[Access(0, true)], [Access(0, true)]];
    var children := [Parallel(pair), write];
    assert children[1..] == [write];
    assert LcaIn(pair, true, 0, 1);
  }
}

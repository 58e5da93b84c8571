/**
 `Dag::detect_races` of src/race.rs: ranks every strand, groups accesses by location, and reports
 each parallel write conflict once.
 */
module RaceDetect {
  import opened RaceTree
  import opened RaceReport

  // ---------------------------------------------------------------- one location

  lemma RacesInStep(events: seq<Event>, strands: seq<StrandInfo>, where_: set<nat>, i: nat)
    requires i < |events| && events[i].location in where_
    ensures RacesIn(events[i..], strands, where_)
         == RacesIn(events[i + 1..], strands, where_) + RacesWith(events[i], events[i + 1..], strands)
  {
    assert events[i..][1..] == events[i + 1..];
  }

  lemma Pushed(races: seq<Race>, r: Race, rest: multiset<Race>)
    ensures multiset(races + [r]) + rest == multiset(races) + (rest + multiset{r})
  {
  }

  lemma PairStep(e: Event, events: seq<Event>, strands: seq<StrandInfo>, j: nat, races: seq<Race>, all: multiset<Race>)
    requires j < |events| && events[j].location == e.location
    requires multiset(races) + RacesWith(e, events[j..], strands) == all
    ensures if Conflict(e.access, events[j].access, strands)
            then multiset(races + [RaceOf(e.location, e.access, events[j].access, strands)])
                 + RacesWith(e, events[j + 1..], strands) == all
            else multiset(races) + RacesWith(e, events[j + 1..], strands) == all
  {
    RacesWithStep(e, events, strands, j);
    if Conflict(e.access, events[j].access, strands) {
      var r := RaceOf(e.location, e.access, events[j].access, strands);
      Pushed(races, r, RacesWith(e, events[j + 1..], strands));
    }
  }

  /** The inner loop of `races_at_location`: access `i` against every later one. */
  method RacesFrom(location: nat, accessors: seq<Accessor>, i: nat, strands: seq<StrandInfo>) returns (races: seq<Race>)
    requires forall k :: 0 <= k < |accessors| ==> accessors[k].strand < |strands|
    requires i < |accessors|
    ensures multiset(races) == RacesWith(At(location, accessors)[i], At(location, accessors)[i + 1..], strands)
  {
    races := [];
    ghost var events := At(location, accessors);
    ghost var all := RacesWith(events[i], events[i + 1..], strands);
    for j := i + 1 to |accessors|
      invariant multiset(races) + RacesWith(events[i], events[j..], strands) == all
    {
      PairStep(events[i], events, strands, j, races, all);
      var a, b := accessors[i], accessors[j];
      assert events[i] == Event(location, a) && events[j] == Event(location, b);
      if !(a.strand == b.strand || !(a.isWrite || b.isWrite) || !InParallel(strands[a.strand], strands[b.strand])) {
        races := races + [Race(location, strands[a.strand].english, strands[b.strand].english, a.isWrite, b.isWrite)];
      }
    }
    assert events[|accessors|..] == [];
  }

  /** `races_at_location`: the races of the pairs of accesses to one location, one each. */
  method RacesAtLocation(location: nat, accessors: seq<Accessor>, strands: seq<StrandInfo>) returns (races: seq<Race>)
    requires forall k :: 0 <= k < |accessors| ==> accessors[k].strand < |strands|
    ensures multiset(races) == RacesIn(At(location, accessors), strands, {location})
    ensures Matched(At(location, accessors), strands, races)
  {
    races := [];
    ghost var all := At(location, accessors);
    assert all[0..] == all;
    for i := 0 to |accessors|
      invariant multiset(races) + RacesIn(all[i..], strands, {location}) == RacesIn(all, strands, {location})
    {
      RacesInStep(all, strands, {location}, i);
      var more := RacesFrom(location, accessors, i, strands);
      races := races + more;
    }
    assert all[|accessors|..] == [];
    Everywhere(all, strands, {location});
    AllRacesMatch(all, strands, races);
  }

  // ---------------------------------------------------------------- grouping

  /** The accesses of one location, in the order they occur. */
  function Only(events: seq<Event>, location: nat): seq<Accessor> {
    if events == [] then []
    else (if events[0].location == location then [events[0].access] else []) + Only(events[1..], location)
  }

  lemma {:induction false} OnlyAppend(events: seq<Event>, e: Event, location: nat)
    ensures Only(events + [e], location)
         == Only(events, location) + if e.location == location then [e.access] else []
  {
    if events != [] {
      OnlyAppend(events[1..], e, location);
      assert (events + [e])[1..] == events[1..] + [e];
    } else {
      assert (events + [e])[1..] == [];
    }
  }

  lemma {:induction false} OnlyMembers(events: seq<Event>, location: nat, n: nat)
    requires forall e :: e in events ==> e.access.strand < n
    ensures forall a :: a in Only(events, location) ==> a.strand < n
  {
    if events != [] {
      OnlyMembers(events[1..], location, n);
    }
  }

  /** Looking at one location's accesses alone loses no race at that location. */
  lemma {:induction false} GroupRacesWith(e: Event, later: seq<Event>, strands: seq<StrandInfo>)
    ensures RacesWith(e, later, strands) == RacesWith(e, At(e.location, Only(later, e.location)), strands)
  {
    if later != [] {
      GroupRacesWith(e, later[1..], strands);
      var group := At(e.location, Only(later, e.location));
      if later[0].location == e.location {
        assert group[1..] == At(e.location, Only(later[1..], e.location)) && group[0] == later[0];
      } else {
        assert group == At(e.location, Only(later[1..], e.location));
      }
    }
  }

  lemma {:induction false} GroupRaces(events: seq<Event>, strands: seq<StrandInfo>, location: nat)
    ensures RacesIn(events, strands, {location}) == RacesIn(At(location, Only(events, location)), strands, {location})
  {
    if events != [] {
      GroupRaces(events[1..], strands, location);
      var group := At(location, Only(events, location));
      if events[0].location == location {
        assert group[1..] == At(location, Only(events[1..], location)) && group[0] == events[0];
        GroupRacesWith(events[0], events[1..], strands);
      } else {
        assert group == At(location, Only(events[1..], location));
      }
    }
  }

  lemma {:induction false} AddLocation(events: seq<Event>, strands: seq<StrandInfo>, where_: set<nat>, location: nat)
    requires location !in where_
    ensures RacesIn(events, strands, where_ + {location})
         == RacesIn(events, strands, where_) + RacesIn(events, strands, {location})
  {
    if events != [] {
      AddLocation(events[1..], strands, where_, location);
    }
  }

  // ---------------------------------------------------------------- find_races

  ghost predicate Grouped(byLoc: map<nat, seq<Accessor>>, events: seq<Event>) {
    && (forall e :: e in events ==> e.location in byLoc)
    && (forall location :: location in byLoc ==> byLoc[location] == Only(events, location))
  }

  lemma EventsStep(si: nat, accesses: seq<Access>, k: nat)
    requires k < |accesses|
    ensures EventsOf(si, accesses[..k + 1])
         == EventsOf(si, accesses[..k]) + [Event(accesses[k].location, Accessor(si, accesses[k].isWrite))]
  {
  }

  lemma GroupOne(byLoc: map<nat, seq<Accessor>>, events: seq<Event>, e: Event)
    requires Grouped(byLoc, events)
    ensures Grouped(byLoc[e.location := (if e.location in byLoc then byLoc[e.location] else []) + [e.access]],
                    events + [e])
  {
    var now := byLoc[e.location := (if e.location in byLoc then byLoc[e.location] else []) + [e.access]];
    if e.location !in byLoc {
      OnlyNone(events, e.location);
    }
    forall location | location in now
      ensures now[location] == Only(events + [e], location)
    {
      OnlyAppend(events, e, location);
    }
  }

  lemma {:induction false} OnlyNone(events: seq<Event>, location: nat)
    requires forall e :: e in events ==> e.location != location
    ensures Only(events, location) == []
  {
    if events != [] {
      OnlyNone(events[1..], location);
    }
  }

  /** The first loop of `find_races`: accesses grouped by location, in order. */
  method GroupByLocation(strands: seq<StrandInfo>) returns (byLoc: map<nat, seq<Accessor>>)
    ensures Grouped(byLoc, AllEvents(strands))
  {
    byLoc := map[];
    for si := 0 to |strands|
      invariant Grouped(byLoc, AllEvents(strands[..si]))
    {
      byLoc := GroupStrand(byLoc, si, strands[si].accesses, AllEvents(strands[..si]));
      assert strands[..si + 1][..si] == strands[..si];
    }
    assert strands[..|strands|] == strands;
  }

  method GroupStrand(was: map<nat, seq<Accessor>>, si: nat, accesses: seq<Access>, ghost before: seq<Event>)
    returns (byLoc: map<nat, seq<Accessor>>)
    requires Grouped(was, before)
    ensures Grouped(byLoc, before + EventsOf(si, accesses))
  {
    byLoc := was;
    assert before + EventsOf(si, accesses[..0]) == before;
    for k := 0 to |accesses|
      invariant Grouped(byLoc, before + EventsOf(si, accesses[..k]))
    {
      var a := accesses[k];
      ghost var events, e := before + EventsOf(si, accesses[..k]), Event(a.location, Accessor(si, a.isWrite));
      GroupOne(byLoc, events, e);
      EventsStep(si, accesses, k);
      assert before + EventsOf(si, accesses[..k + 1]) == events + [e];
      byLoc := byLoc[a.location := (if a.location in byLoc then byLoc[a.location] else []) + [Accessor(si, a.isWrite)]];
    }
    assert accesses[..|accesses|] == accesses;
  }

  lemma {:induction false} EventStrands(strands: seq<StrandInfo>, e: Event)
    requires e in AllEvents(strands)
    ensures e.access.strand < |strands|
  {
    var front := strands[..|strands| - 1];
    if e in AllEvents(front) {
      EventStrands(front, e);
    }
  }

  lemma {:induction false} RacesNowhere(events: seq<Event>, strands: seq<StrandInfo>)
    ensures RacesIn(events, strands, {}) == multiset{}
  {
    if events != [] {
      RacesNowhere(events[1..], strands);
    }
  }

  lemma OnlyOfStrands(strands: seq<StrandInfo>, location: nat)
    ensures var group := Only(AllEvents(strands), location);
      forall k :: 0 <= k < |group| ==> group[k].strand < |strands|
  {
    forall e | e in AllEvents(strands)
      ensures e.access.strand < |strands|
    {
      EventStrands(strands, e);
    }
    OnlyMembers(AllEvents(strands), location, |strands|);
  }

  lemma {:induction false} Everywhere(events: seq<Event>, strands: seq<StrandInfo>, here: set<nat>)
    requires forall e :: e in events ==> e.location in here
    ensures RacesIn(events, strands, here) == AllRaces(events, strands)
  {
    if events != [] {
      Everywhere(events[1..], strands, here);
    }
  }

  lemma OneLocation(byLoc: map<nat, seq<Accessor>>, strands: seq<StrandInfo>, done: set<nat>, location: nat)
    requires Grouped(byLoc, AllEvents(strands)) && location in byLoc && location !in done
    ensures forall k :: 0 <= k < |byLoc[location]| ==> byLoc[location][k].strand < |strands|
    ensures RacesIn(AllEvents(strands), strands, done + {location})
         == RacesIn(AllEvents(strands), strands, done)
          + RacesIn(At(location, byLoc[location]), strands, {location})
  {
    OnlyOfStrands(strands, location);
    GroupRaces(AllEvents(strands), strands, location);
    AddLocation(AllEvents(strands), strands, done, location);
  }

  /** `find_races`: whatever order the map is walked in, one race per conflicting pair. */
  method FindRaces(strands: seq<StrandInfo>) returns (races: seq<Race>)
    ensures multiset(races) == AllRaces(AllEvents(strands), strands)
    ensures Matched(AllEvents(strands), strands, races)
  {
    var byLoc := GroupByLocation(strands);
    ghost var events := AllEvents(strands);
    races := [];
    var todo := byLoc.Keys;
    ghost var done: set<nat> := {};
    RacesNowhere(events, strands);
    while todo != {}
      invariant done + todo == byLoc.Keys && done !! todo
      invariant multiset(races) == RacesIn(events, strands, done)
      decreases |todo|
    {
      var location :| location in todo;
      OneLocation(byLoc, strands, done, location);
      var more := RacesAtLocation(location, byLoc[location], strands);
      races := races + more;
      todo, done := todo - {location}, done + {location};
    }
    Everywhere(events, strands, done);
    AllRacesMatch(events, strands, races);
  }

  // ---------------------------------------------------------------- detect_races

  /** The record each strand of a tree should end up with. */
  function Labelled(root: Node): (r: seq<StrandInfo>)
    ensures |r| == Count(root)
  {
    seq(Count(root), e requires 0 <= e < Count(root) => StrandInfo(e, HebrewPos(root, e), Leaves(root)[e]))
  }

  /** The Hebrew pass over the root, which composes its children in series. */
  method HebrewPass(children: seq<Node>, out: array<StrandInfo>)
    requires out.Length == CountAll(children)
    modifies out
    ensures Ranked(old(out[..]), out[..], Series(children), 0, 0, 0, CountAll(children))
  {
    ghost var root := Series(children);
    var hebrew, base := 0, 0;
    for i := 0 to |children|
      invariant CountAll(children[..i]) <= Count(root)
      invariant hebrew == base == CountAll(children[..i])
      invariant Ranked(old(out[..]), out[..], root, 0, 0, 0, CountAll(children[..i]))
    {
      CountSplit(children, i);
      ghost var mid := out[..];
      var cursor := base;
      hebrew, cursor := HebrewWalk(children[i], hebrew, out, cursor);
      RankNextChild(old(out[..]), mid, out[..], root, i, 0, 0);
      base := base + Count(children[i]);
    }
    assert children[..|children|] == children;
  }

  /** The two passes of `detect_races`. */
  method LabelStrands(children: seq<Node>) returns (strands: seq<StrandInfo>)
    ensures strands == Labelled(Series(children))
  {
    var english;
    english, strands := AssignChildren(children, 0, []);
    var out := new StrandInfo[|strands|](i requires 0 <= i < |strands| => strands[i]);
    assert out[..] == strands;
    HebrewPass(children, out);
    strands := out[..];
  }

  // ---------------------------------------------------------------- what a report means

  /** Two accesses of the computation race: same location, one of them a write, and the strands'
      lowest common ancestor is a parallel node. */
  ghost predicate Racing(root: Node, e: Event, f: Event) {
    && e.access.strand < Count(root) && f.access.strand < Count(root)
    && e.location == f.location
    && (e.access.isWrite || f.access.isWrite)
    && e.access.strand != f.access.strand
    && LcaParallel(root, e.access.strand, f.access.strand)
  }

  /** Comparing ranks decides logical parallelism. */
  lemma ConflictIsRacing(root: Node, e: Event, f: Event)
    requires e.access.strand < Count(root) && f.access.strand < Count(root)
    ensures e.location == f.location && Conflict(e.access, f.access, Labelled(root)) <==> Racing(root, e, f)
  {
    if e.access.strand != f.access.strand {
      OrdersDisagree(root, e.access.strand, f.access.strand);
    }
  }

  /** The race is that of accesses `i` and `j` of the computation, in program order: it names their location and
      their strands, and says of each whether it writes. */
  ghost predicate IsRaceOf(root: Node, r: Race, i: nat, j: nat) {
    var events := AllEvents(Labelled(root));
    && i < j < |events| && Racing(root, events[i], events[j]) && r.location == events[i].location
    && r.strandA == events[i].access.strand && r.writeA == events[i].access.isWrite
    && r.strandB == events[j].access.strand && r.writeB == events[j].access.isWrite
  }

  ghost predicate RacingPair(root: Node, i: nat, j: nat) {
    var events := AllEvents(Labelled(root));
    i < j < |events| && Racing(root, events[i], events[j])
  }

  ghost predicate ListsRaces(root: Node, races: seq<Race>, pairs: seq<(nat, nat)>) {
    && |pairs| == |races| && NoTwice(pairs)
    && forall k :: 0 <= k < |races| ==> IsRaceOf(root, races[k], pairs[k].0, pairs[k].1)
  }

  /** The races of the report and the racing pairs of the computation match one to one. */
  ghost predicate Reports(root: Node, races: seq<Race>) {
    exists pairs: seq<(nat, nat)> ::
      && ListsRaces(root, races, pairs)
      && forall i: nat, j: nat :: RacingPair(root, i, j) ==> (i, j) in pairs
  }

  lemma RacingMeansConflicting(root: Node, i: nat, j: nat)
    ensures RacingPair(root, i, j) <==> Conflicting(AllEvents(Labelled(root)), Labelled(root), i, j)
  {
    var events := AllEvents(Labelled(root));
    if i < j < |events| {
      EventStrands(Labelled(root), events[i]);
      EventStrands(Labelled(root), events[j]);
      ConflictIsRacing(root, events[i], events[j]);
    }
  }

  lemma NamesItsRace(root: Node, r: Race, i: nat, j: nat)
    requires Names(AllEvents(Labelled(root)), Labelled(root), r, i, j)
    ensures IsRaceOf(root, r, i, j)
  {
    RacingMeansConflicting(root, i, j);
  }

  lemma ListsItsRaces(root: Node, races: seq<Race>, pairs: seq<(nat, nat)>)
    requires Lists(AllEvents(Labelled(root)), Labelled(root), races, pairs)
    ensures ListsRaces(root, races, pairs)
  {
    forall k | 0 <= k < |races|
      ensures IsRaceOf(root, races[k], pairs[k].0, pairs[k].1)
    {
      NamesItsRace(root, races[k], pairs[k].0, pairs[k].1);
    }
  }

  /** Any report with the right multiset of races is such a report. */
  lemma ReportIsRight(root: Node, races: seq<Race>)
    requires Matched(AllEvents(Labelled(root)), Labelled(root), races)
    ensures Reports(root, races)
  {
    var pairs: seq<(nat, nat)> :| Lists(AllEvents(Labelled(root)), Labelled(root), races, pairs)
      && forall i: nat, j: nat :: Conflicting(AllEvents(Labelled(root)), Labelled(root), i, j) ==> (i, j) in pairs;
    ListsItsRaces(root, races, pairs);
    forall i: nat, j: nat | RacingPair(root, i, j)
      ensures (i, j) in pairs
    {
      RacingMeansConflicting(root, i, j);
    }
  }

  /** `Dag::detect_races`. */
  method DetectRaces(children: seq<Node>) returns (races: seq<Race>)
    ensures Reports(Series(children), races)
    ensures var root := Series(children);
      multiset(races) == AllRaces(AllEvents(Labelled(root)), Labelled(root))
  {
    var strands := LabelStrands(children);
    races := FindRaces(strands);
    ReportIsRight(Series(children), races);
  }

  lemma {:induction false} RacesWithSound(e: Event, later: seq<Event>, strands: seq<StrandInfo>, r: Race)
    returns (j: nat)
    requires r in RacesWith(e, later, strands)
    ensures j < |later| && later[j].location == e.location && Conflict(e.access, later[j].access, strands)
    ensures r == RaceOf(e.location, e.access, later[j].access, strands)
  {
    if r in RacesWith(e, later[1..], strands) {
      j := RacesWithSound(e, later[1..], strands, r);
      j := j + 1;
    } else {
      j := 0;
    }
  }

  lemma {:induction false} RacesWithComplete(e: Event, later: seq<Event>, strands: seq<StrandInfo>, j: nat)
    requires j < |later| && later[j].location == e.location && Conflict(e.access, later[j].access, strands)
    ensures RaceOf(e.location, e.access, later[j].access, strands) in RacesWith(e, later, strands)
  {
    if j > 0 {
      RacesWithComplete(e, later[1..], strands, j - 1);
    }
  }

  lemma {:induction false} SoundBy(events: seq<Event>, strands: seq<StrandInfo>, r: Race) returns (i: nat, j: nat)
    requires r in AllRaces(events, strands)
    ensures Conflicting(events, strands, i, j)
    ensures r == RaceOf(events[i].location, events[i].access, events[j].access, strands)
  {
    if r in AllRaces(events[1..], strands) {
      i, j := SoundBy(events[1..], strands, r);
      i, j := i + 1, j + 1;
    } else {
      j := RacesWithSound(events[0], events[1..], strands, r);
      i, j := 0, j + 1;
    }
  }

  /** Sound: every reported race is that of two conflicting accesses, and says of them what there is to say. */
  lemma ReportSound(events: seq<Event>, strands: seq<StrandInfo>, r: Race) returns (i: nat, j: nat)
    requires r in AllRaces(events, strands)
    ensures Names(events, strands, r, i, j)
  {
    i, j := SoundBy(events, strands, r);
  }

  lemma {:induction false} CompleteBy(events: seq<Event>, strands: seq<StrandInfo>, i: nat, j: nat)
    requires Conflicting(events, strands, i, j)
    ensures RaceOf(events[i].location, events[i].access, events[j].access, strands) in AllRaces(events, strands)
  {
    if i > 0 {
      CompleteBy(events[1..], strands, i - 1, j - 1);
    } else {
      RacesWithComplete(events[0], events[1..], strands, j - 1);
    }
  }

  /** Complete: for every two conflicting accesses a race is reported that says of them what there is to say. */
  lemma ReportComplete(events: seq<Event>, strands: seq<StrandInfo>, i: nat, j: nat) returns (r: Race)
    requires Conflicting(events, strands, i, j)
    ensures r in AllRaces(events, strands) && Names(events, strands, r, i, j)
  {
    CompleteBy(events, strands, i, j);
    r := RaceOf(events[i].location, events[i].access, events[j].access, strands);
  }

  ghost predicate RaceFree(root: Node) {
    forall e, f :: e in AllEvents(Labelled(root)) && f in AllEvents(Labelled(root)) ==> !Racing(root, e, f)
  }

  lemma LcaSymmetric(root: Node, u: nat, v: nat)
    requires u < Count(root) && v < Count(root) && u != v
    ensures LcaParallel(root, u, v) == LcaParallel(root, v, u)
  {
    OrdersDisagree(root, u, v);
    OrdersDisagree(root, v, u);
  }

  /** The report is empty exactly when no two accesses of the computation race. */
  lemma EmptyReport(root: Node)
    ensures AllRaces(AllEvents(Labelled(root)), Labelled(root)) == multiset{} <==> RaceFree(root)
  {
    var strands := Labelled(root);
    var events := AllEvents(strands);
    if AllRaces(events, strands) == multiset{} {
      forall e, f | e in events && f in events
        ensures !Racing(root, e, f)
      {
        var i :| 0 <= i < |events| && events[i] == e;
        var j :| 0 <= j < |events| && events[j] == f;
        NoRaceBetween(root, events, i, j);
      }
    } else {
      var r :| r in AllRaces(events, strands);
      var i, j := ReportSound(events, strands, r);
      ConflictIsRacing(root, events[i], events[j]);
    }
  }

  lemma NoRaceBetween(root: Node, events: seq<Event>, i: nat, j: nat)
    requires i < |events| && j < |events|
    requires AllRaces(events, Labelled(root)) == multiset{}
    ensures !Racing(root, events[i], events[j])
  {
    if Racing(root, events[i], events[j]) {
      var lo, hi := if i < j then i else j, if i < j then j else i;
      LcaSymmetric(root, events[i].access.strand, events[j].access.strand);
      ConflictIsRacing(root, events[lo], events[hi]);
      var r := ReportComplete(events, Labelled(root), lo, hi);
      assert false;
    }
  }
}

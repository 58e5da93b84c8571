/**
 What `Dag::detect_races` of src/race.rs should report: one race for each pair of accesses that conflict, naming
 both strands and saying of each whether it writes.
 */
module RaceReport {
  import opened RaceTree

  /** One access as the grouping pass records it: the strand's index and whether it writes. */
  datatype Accessor = Accessor(strand: nat, isWrite: bool)

  /** One access of the whole computation. */
  datatype Event = Event(location: nat, access: Accessor)

  datatype Race = Race(location: nat, strandA: nat, strandB: nat, writeA: bool, writeB: bool)

  predicate InParallel(a: StrandInfo, b: StrandInfo) {
    (a.english < b.english) != (a.hebrew < b.hebrew)
  }

  // ---------------------------------------------------------------- what should be reported

  /** Two accesses to one location race. */
  ghost predicate Conflict(a: Accessor, b: Accessor, strands: seq<StrandInfo>) {
    && a.strand < |strands| && b.strand < |strands|
    && a.strand != b.strand
    && (a.isWrite || b.isWrite)
    && InParallel(strands[a.strand], strands[b.strand])
  }

  function RaceOf(location: nat, a: Accessor, b: Accessor, strands: seq<StrandInfo>): Race
    requires a.strand < |strands| && b.strand < |strands|
  {
    Race(location, strands[a.strand].english, strands[b.strand].english, a.isWrite, b.isWrite)
  }

  /** The races of one access with each later access to the same location. */
  ghost function RacesWith(e: Event, later: seq<Event>, strands: seq<StrandInfo>): multiset<Race> {
    if later == [] then multiset{}
    else
      var f := later[0];
      RacesWith(e, later[1..], strands)
      + if f.location == e.location && Conflict(e.access, f.access, strands)
        then multiset{RaceOf(e.location, e.access, f.access, strands)} else multiset{}
  }

  /** One race for each conflicting pair of accesses, the earlier access first, over the locations
      in `where_`. */
  ghost function RacesIn(events: seq<Event>, strands: seq<StrandInfo>, where_: set<nat>): multiset<Race> {
    if events == [] then multiset{}
    else
      RacesIn(events[1..], strands, where_)
      + if events[0].location in where_ then RacesWith(events[0], events[1..], strands) else multiset{}
  }

  /** The full report: one race for each conflicting pair of accesses anywhere. */
  ghost function AllRaces(events: seq<Event>, strands: seq<StrandInfo>): multiset<Race> {
    if events == [] then multiset{} else AllRaces(events[1..], strands) + RacesWith(events[0], events[1..], strands)
  }

  function EventsOf(si: nat, accesses: seq<Access>): (r: seq<Event>)
    ensures |r| == |accesses|
  {
    seq(|accesses|, k requires 0 <= k < |accesses| => Event(accesses[k].location, Accessor(si, accesses[k].isWrite)))
  }

  /** Every access, strand by strand, each strand's in order. */
  function AllEvents(strands: seq<StrandInfo>): seq<Event> {
    if strands == [] then []
    else AllEvents(strands[..|strands| - 1]) + EventsOf(|strands| - 1, strands[|strands| - 1].accesses)
  }

  function At(location: nat, accessors: seq<Accessor>): (r: seq<Event>)
    ensures |r| == |accessors|
  {
    seq(|accessors|, i requires 0 <= i < |accessors| => Event(location, accessors[i]))
  }

  // ---------------------------------------------------------------- races and pairs of accesses

  /** The race says of the two accesses what there is to say. */
  ghost predicate Names(events: seq<Event>, strands: seq<StrandInfo>, r: Race, i: nat, j: nat) {
    && i < j < |events| && events[i].location == r.location == events[j].location
    && Conflict(events[i].access, events[j].access, strands)
    && r.strandA == strands[events[i].access.strand].english && r.writeA == events[i].access.isWrite
    && r.strandB == strands[events[j].access.strand].english && r.writeB == events[j].access.isWrite
  }

  ghost predicate NoTwice(pairs: seq<(nat, nat)>) {
    forall k, l :: 0 <= k < l < |pairs| ==> pairs[k] != pairs[l]
  }

  ghost predicate Lists(events: seq<Event>, strands: seq<StrandInfo>, races: seq<Race>, pairs: seq<(nat, nat)>) {
    && |pairs| == |races| && NoTwice(pairs)
    && forall k :: 0 <= k < |races| ==> Names(events, strands, races[k], pairs[k].0, pairs[k].1)
  }

  ghost predicate Conflicting(events: seq<Event>, strands: seq<StrandInfo>, i: nat, j: nat) {
    i < j < |events| && events[i].location == events[j].location
      && Conflict(events[i].access, events[j].access, strands)
  }

  /** The races are those of the conflicting pairs, one each. */
  ghost predicate Matched(events: seq<Event>, strands: seq<StrandInfo>, races: seq<Race>) {
    exists pairs: seq<(nat, nat)> ::
      && Lists(events, strands, races, pairs)
      && forall i: nat, j: nat :: Conflicting(events, strands, i, j) ==> (i, j) in pairs
  }

  lemma ListsOneMore(events: seq<Event>, strands: seq<StrandInfo>, races: seq<Race>, pairs: seq<(nat, nat)>,
                     r: Race, p: (nat, nat))
    requires Lists(events, strands, races, pairs) && Names(events, strands, r, p.0, p.1) && p !in pairs
    ensures Lists(events, strands, races + [r], pairs + [p])
  {
    forall k | 0 <= k < |pairs|
      ensures pairs[k] != p
    {
      assert pairs[k] in pairs;
    }
  }

  lemma ListsOneLess(events: seq<Event>, strands: seq<StrandInfo>, races: seq<Race>, pairs: seq<(nat, nat)>, k: nat)
    requires Lists(events, strands, races, pairs) && k < |pairs|
    ensures Lists(events, strands, races[..k] + races[k + 1..], pairs[..k] + pairs[k + 1..])
    ensures pairs[k] !in pairs[..k] + pairs[k + 1..]
    ensures forall p :: p in pairs <==> p in pairs[..k] + pairs[k + 1..] || p == pairs[k]
  {
    assert pairs == pairs[..k] + [pairs[k]] + pairs[k + 1..];
  }

  lemma RacesWithStep(e: Event, events: seq<Event>, strands: seq<StrandInfo>, j: nat)
    requires j < |events|
    ensures RacesWith(e, events[j..], strands)
         == RacesWith(e, events[j + 1..], strands)
          + if events[j].location == e.location && Conflict(e.access, events[j].access, strands)
            then multiset{RaceOf(e.location, e.access, events[j].access, strands)} else multiset{}
  {
    assert events[j..][1..] == events[j + 1..];
  }

  /** The list holds the races of access `i` with those from `j` on. */
  ghost predicate ListsWith(events: seq<Event>, strands: seq<StrandInfo>, i: nat, j: nat,
                            races: seq<Race>, pairs: seq<(nat, nat)>)
    requires i < j <= |events|
  {
    && multiset(races) == RacesWith(events[i], events[j..], strands) && Lists(events, strands, races, pairs)
    && (forall p :: p in pairs ==> p.0 == i && j <= p.1)
    && forall l: nat :: j <= l && Conflicting(events, strands, i, l) ==> (i, l) in pairs
  }

  lemma OneMoreWith(events: seq<Event>, strands: seq<StrandInfo>, i: nat, j: nat,
                    races: seq<Race>, pairs: seq<(nat, nat)>)
    requires i < j < |events| && ListsWith(events, strands, i, j + 1, races, pairs)
    requires Conflicting(events, strands, i, j)
    ensures var r := RaceOf(events[i].location, events[i].access, events[j].access, strands);
      ListsWith(events, strands, i, j, races + [r], pairs + [(i, j)])
  {
    var r := RaceOf(events[i].location, events[i].access, events[j].access, strands);
    RacesWithStep(events[i], events, strands, j);
    ListsOneMore(events, strands, races, pairs, r, (i, j));
  }

  lemma NoneMoreWith(events: seq<Event>, strands: seq<StrandInfo>, i: nat, j: nat,
                     races: seq<Race>, pairs: seq<(nat, nat)>)
    requires i < j < |events| && ListsWith(events, strands, i, j + 1, races, pairs)
    requires !Conflicting(events, strands, i, j)
    ensures ListsWith(events, strands, i, j, races, pairs)
  {
    RacesWithStep(events[i], events, strands, j);
  }

  lemma NothingWith(events: seq<Event>, strands: seq<StrandInfo>, i: nat)
    requires i < |events|
    ensures ListsWith(events, strands, i, |events|, [], [])
  {
    assert events[|events|..] == [];
  }

  lemma {:induction false} ListWith(events: seq<Event>, strands: seq<StrandInfo>, i: nat, j: nat)
    returns (races: seq<Race>, pairs: seq<(nat, nat)>)
    requires i < j <= |events|
    ensures ListsWith(events, strands, i, j, races, pairs)
    decreases |events| - j
  {
    if j == |events| {
      races, pairs := [], [];
      NothingWith(events, strands, i);
    } else {
      races, pairs := ListWith(events, strands, i, j + 1);
      if Conflicting(events, strands, i, j) {
        OneMoreWith(events, strands, i, j, races, pairs);
        races := races + [RaceOf(events[i].location, events[i].access, events[j].access, strands)];
        pairs := pairs + [(i, j)];
      } else {
        NoneMoreWith(events, strands, i, j, races, pairs);
      }
    }
  }

  lemma ListsJoin(events: seq<Event>, strands: seq<StrandInfo>, races: seq<Race>, pairs: seq<(nat, nat)>,
                  races1: seq<Race>, pairs1: seq<(nat, nat)>)
    requires Lists(events, strands, races, pairs) && Lists(events, strands, races1, pairs1)
    requires forall p :: p in pairs ==> p !in pairs1
    ensures Lists(events, strands, races + races1, pairs + pairs1)
  {
    forall k, l | 0 <= k < l < |pairs + pairs1|
      ensures (pairs + pairs1)[k] != (pairs + pairs1)[l]
    {
      if k < |pairs| <= l {
        assert pairs[k] in pairs && pairs1[l - |pairs|] in pairs1;
      }
    }
  }

  /** The races among the accesses from `n` on. */
  lemma {:induction false} ListFrom(events: seq<Event>, strands: seq<StrandInfo>, n: nat)
    returns (races: seq<Race>, pairs: seq<(nat, nat)>)
    requires n <= |events|
    ensures multiset(races) == AllRaces(events[n..], strands) && Lists(events, strands, races, pairs)
    ensures forall p :: p in pairs ==> n <= p.0
    ensures forall i: nat, j: nat :: n <= i && Conflicting(events, strands, i, j) ==> (i, j) in pairs
    decreases |events| - n
  {
    races, pairs := [], [];
    if n < |events| {
      races, pairs := ListFrom(events, strands, n + 1);
      var more, morePairs := ListWith(events, strands, n, n + 1);
      assert events[n..][1..] == events[n + 1..];
      ListsJoin(events, strands, races, pairs, more, morePairs);
      races, pairs := races + more, pairs + morePairs;
    }
  }

  lemma RemoveAt<T>(s: seq<T>, k: nat)
    requires k < |s|
    ensures multiset(s[..k] + s[k + 1..]) == multiset(s) - multiset{s[k]}
  {
    assert s == s[..k] + [s[k]] + s[k + 1..];
  }

  /** In whatever order the races come. */
  lemma {:induction false} Reordered(events: seq<Event>, strands: seq<StrandInfo>,
                                     list: seq<Race>, pairs: seq<(nat, nat)>, races: seq<Race>)
    returns (pairs1: seq<(nat, nat)>)
    requires Lists(events, strands, list, pairs) && multiset(races) == multiset(list)
    ensures Lists(events, strands, races, pairs1) && forall p :: p in pairs1 <==> p in pairs
    decreases |races|
  {
    assert |list| == |multiset(list)| == |races|;
    pairs1 := pairs;
    if races != [] {
      var last := |races| - 1;
      assert races == races[..last] + [races[last]];
      assert races[last] in multiset(races);
      var k :| 0 <= k < |list| && list[k] == races[last];
      var rest, restPairs := list[..k] + list[k + 1..], pairs[..k] + pairs[k + 1..];
      RemoveAt(list, k);
      ListsOneLess(events, strands, list, pairs, k);
      pairs1 := Reordered(events, strands, rest, restPairs, races[..last]);
      ListsOneMore(events, strands, races[..last], pairs1, races[last], pairs[k]);
      pairs1 := pairs1 + [pairs[k]];
    }
  }

  /** A report with the right multiset of races matches the conflicting pairs. */
  lemma AllRacesMatch(events: seq<Event>, strands: seq<StrandInfo>, races: seq<Race>)
    requires multiset(races) == AllRaces(events, strands)
    ensures Matched(events, strands, races)
  {
    assert events[0..] == events;
    var list, pairs := ListFrom(events, strands, 0);
    var pairs1 := Reordered(events, strands, list, pairs, races);
  }
}

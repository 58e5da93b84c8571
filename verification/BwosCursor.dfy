/** What a stealer of the growable queue finds from a cursor it kept from before. */
module BwosCursor {
  import opened Numbers
  import opened Runs
  import opened Bwos
  import opened BwosSafety
  import opened BwosTheorems
  import opened BwosList

  ghost predicate Full(s: State, k: nat) {
    k < |s.blocks| && s.blocks[k].stolen < s.blocks[k].committed
  }

  /** A block with something to steal is met when walking `next` from block `k`. */
  ghost predicate FullAhead(s: State, k: nat) {
    exists j: nat :: OnNext(s.blocks, k, j) && Full(s, j)
  }

  /** Thief `w` is about to look at block `k`. */
  ghost predicate LooksAt(s: State, w: nat, k: nat) {
    && s.kind.Growable? && s.pc.Idle? && k < |s.blocks|
    && w < |s.thieves| && s.thieves[w] == Look(k, s.produced)
  }

  lemma FullIsHere(s: State, k: nat)
    requires Inv(s) && s.pc.Idle? && Full(s, k)
    ensures s.blocks[k].stolen < |s.blocks[k].slots| && Here(s, s.blocks[k].slots[s.blocks[k].stolen])
  {
    assert BlockShape(s, k);
    assert AtHome(s, k, s.blocks[k].stolen);
  }

  /** The state after thief `w` took the front of block `k`. */
  function StoleAt(s: State, w: nat, k: nat): State
    requires w < |s.thieves| && k < |s.blocks| && s.blocks[k].stolen < |s.blocks[k].slots|
  {
    var blk := s.blocks[k];
    SetThief(HandOut(SetBlock(s, k, blk.(stolen := blk.stolen + 1)), blk.slots[blk.stolen]), w, Away(k))
  }

  lemma TakesAt(s: State, w: nat, k: nat)
    requires Reachable(s) && LooksAt(s, w, k) && Full(s, k)
    ensures s.blocks[k].stolen < |s.blocks[k].slots| && Reachable(StoleAt(s, w, k))
  {
    ReachableInv(s);
    FullIsHere(s, k);
    LooksAtBlock(s, w, k);
    var s2 := Compared(s, w, k);
    Extend(s2, ThiefStep(w));
    var s3 := ThiefNext(s2, w);
    Extend(s3, ThiefStep(w));
    assert ThiefNext(s3, w) == StoleAt(s, w, k);
  }

  lemma PassesBy(s: State, w: nat, k: nat)
    requires Reachable(s) && LooksAt(s, w, k) && !Full(s, k)
    ensures Reachable(MoveOn(s, w, k, s.produced))
  {
    LooksAtBlock(s, w, k);
    Extend(Compared(s, w, k), ThiefStep(w));
    assert ThiefNext(Compared(s, w, k), w) == MoveOn(s, w, k, s.produced);
  }

  // ---------------------------------------------------------------- an undisturbed steal from any cursor

  /** Block `j` is the first with something to steal on the `next` chain from block `k`. */
  ghost predicate FirstFull(s: State, k: nat, j: nat) {
    && OnNext(s.blocks, k, j) && Full(s, j)
    && forall i: nat :: OnNext(s.blocks, k, i) && Full(s, i) ==> j <= i
  }

  ghost predicate FrontOf(s: State, j: nat, v: nat) {
    j < |s.blocks| && s.blocks[j].stolen < |s.blocks[j].slots| && v == s.blocks[j].slots[s.blocks[j].stolen]
  }

  /** What an undisturbed steal from block `k` on does: it takes the front of the first block with something to
      steal, or nothing if there is none on the way. */
  ghost predicate Answered(s: State, w: nat, k: nat, s1: State, found: Option<nat>) {
    && w < |s1.thieves| && s1.thieves[w].Away?
    && (found.Some? ==> s1.hist == s.hist.(out := s.hist.out + [found.value]))
    && (found.Some? ==> exists j: nat :: FirstFull(s, k, j) && FrontOf(s, j, found.value))
    && (found.None? ==> s1.hist == s.hist && s1.blocks == s.blocks && !FullAhead(s, k))
  }

  lemma OnNextUp(blocks: seq<Block>, from: nat, k: nat)
    requires OnNext(blocks, from, k)
    ensures from <= k < |blocks|
    decreases |blocks| - from
  {
  }

  lemma FirstHere(s: State, k: nat)
    requires Full(s, k)
    ensures FirstFull(s, k, k)
  {
    forall i: nat | OnNext(s.blocks, k, i)
      ensures k <= i
    {
      OnNextUp(s.blocks, k, i);
    }
  }

  lemma {:induction false} StealFrom(s: State, w: nat, k: nat) returns (s1: State, found: Option<nat>)
    requires Reachable(s) && LooksAt(s, w, k)
    ensures Reachable(s1) && Answered(s, w, k, s1, found)
    decreases |s.blocks| - k
  {
    ReachableInv(s);
    assert BlockShape(s, k);
    if Full(s, k) {
      FullIsHere(s, k);
      TakesAt(s, w, k);
      FirstHere(s, k);
      s1, found := StoleAt(s, w, k), Some(s.blocks[k].slots[s.blocks[k].stolen]);
    } else {
      PassesBy(s, w, k);
      var s2 := MoveOn(s, w, k, s.produced);
      match s.blocks[k].next {
        case None =>
          s1, found := s2, None;
        case Some(n) =>
          s1, found := StealFrom(s2, w, n);
          PassedBlock(s, s2, k, n);
      }
    }
  }

  /** Passing a block with nothing to steal changes nothing of what lies ahead. */
  lemma PassedBlock(s: State, s2: State, k: nat, n: nat)
    requires s2.blocks == s.blocks && k < n < |s.blocks| && s.blocks[k].next == Some(n) && !Full(s, k)
    ensures FullAhead(s, k) <==> FullAhead(s2, n)
    ensures forall j: nat :: FirstFull(s2, n, j) ==> FirstFull(s, k, j)
    ensures forall j: nat, v: nat :: FrontOf(s2, j, v) <==> FrontOf(s, j, v)
  {
    assert forall j: nat :: OnNext(s.blocks, k, j) <==> j == k || OnNext(s.blocks, n, j);
    assert forall j: nat :: Full(s2, j) <==> Full(s, j);
  }

  lemma CursorSteal(s: State, w: nat) returns (s1: State, found: Option<nat>)
    requires Reachable(s) && s.kind.Growable? && s.pc.Idle? && w < |s.thieves| && s.thieves[w].Away?
    ensures Reachable(s1) && Answered(s, w, s.thieves[w].cursor, s1, found)
  {
    ReachableInv(s);
    assert ThiefShape(s, s.thieves[w]);
    var k := s.thieves[w].cursor;
    Extend(s, StartSteal(w));
    var s2 := Apply(s, StartSteal(w));
    s1, found := StealFrom(s2, w, k);
    assert forall j: nat :: Full(s2, j) <==> Full(s, j);
    assert forall j: nat :: FirstFull(s2, k, j) <==> FirstFull(s, k, j);
    assert forall j: nat, v: nat :: FrontOf(s2, j, v) <==> FrontOf(s, j, v);
  }

  // ---------------------------------------------------------------- the front of the queue

  /** Every block with something to steal lies on the `next` chain from `c`. */
  ghost predicate AllAhead(s: State, c: nat) {
    forall k: nat :: Full(s, k) ==> OnNext(s.blocks, c, k)
  }

  lemma {:induction false} ChainThrough(blocks: seq<Block>, from: nat, k: nat, j: nat)
    requires OnChain(blocks, from, k) && OnChain(blocks, from, j) && j <= k
    ensures OnChain(blocks, k, j)
    decreases from
  {
    if from != k {
      ChainUp(blocks, from, k);
      ChainThrough(blocks, blocks[from].prev.value, k, j);
    }
  }

  /** `next` leads from a block the owner can step back to, to every later one. */
  lemma {:induction false} ChainForward(s: State, k: nat, j: nat)
    requires Shape(s) && Linked(s) && OnChain(s.blocks, s.owner, k) && OnChain(s.blocks, k, j)
    ensures OnNext(s.blocks, j, k)
    decreases k
  {
    if j != k {
      assert BlockShape(s, k);
      var p := s.blocks[k].prev.value;
      ChainStep(s.blocks, s.owner, k, p);
      ChainForward(s, p, j);
      OnNextStep(s.blocks, j, p, k);
    }
  }

  lemma {:induction false} OnNextJoins(blocks: seq<Block>, c: nat, j: nat, k: nat)
    requires OnNext(blocks, c, j) && OnNext(blocks, j, k)
    ensures OnNext(blocks, c, k)
    decreases |blocks| - c
  {
    if c != j {
      OnNextJoins(blocks, blocks[c].next.value, j, k);
    }
  }

  lemma FullOnChain(s: State, k: nat)
    requires Drained(s) && Full(s, k)
    ensures OnChain(s.blocks, s.owner, k)
  {
  }

  /** Of two blocks with something to steal, `next` leads from the older to the newer. */
  lemma FullInLine(s: State, j: nat, k: nat)
    requires Shape(s) && Linked(s) && Drained(s) && Full(s, j) && Full(s, k) && j <= k
    ensures OnNext(s.blocks, j, k)
  {
    FullOnChain(s, j);
    FullOnChain(s, k);
    ChainThrough(s.blocks, s.owner, k, j);
    ChainForward(s, k, j);
  }

  lemma HereIsFull(s: State, x: nat)
    requires s.pc.Idle? && Here(s, x)
    ensures Full(s, s.hist.pos[x].k)
  {
  }

  lemma FrontPlace(s: State, k: nat, v: nat)
    requires Inv(s) && s.pc.Idle? && Full(s, k) && FrontOf(s, k, v)
    ensures Here(s, v) && s.hist.pos[v] == Place(k, s.blocks[k].stolen)
  {
    assert AtHome(s, k, s.blocks[k].stolen);
  }

  lemma AheadFindsFront(s: State, c: nat, j: nat, v: nat)
    requires Inv(s) && s.pc.Idle? && AllAhead(s, c) && FirstFull(s, c, j) && FrontOf(s, j, v)
    ensures Oldest(s, v)
  {
    forall i | 0 <= i < |s.blocks| && i < j
      ensures s.blocks[i].committed <= s.blocks[i].stolen
    {
      assert !Full(s, i);
    }
    FrontIsOldest(s, j);
  }

  lemma FrontMeansAhead(s: State, c: nat, j: nat, v: nat, k: nat)
    requires Inv(s) && s.pc.Idle? && FirstFull(s, c, j) && FrontOf(s, j, v) && Oldest(s, v) && Full(s, k)
    ensures OnNext(s.blocks, c, k)
  {
    FullIsHere(s, k);
    var x := s.blocks[k].slots[s.blocks[k].stolen];
    FrontPlace(s, k, x);
    FrontPlace(s, j, v);
    assert v <= x;
    assert v < x ==> Precedes(s.hist.pos[v], s.hist.pos[x]);
    FullInLine(s, j, k);
    OnNextJoins(s.blocks, c, j, k);
  }

  /** Exactly when an undisturbed steal from a cursor meets the front: it hands out the oldest value of the
      queue, or answers `Empty` only when there is nothing, if and only if every block with something to steal
      lies on the `next` chain from the cursor. */
  lemma CursorSeesFrontIff(s: State, w: nat) returns (s1: State, found: Option<nat>)
    requires Reachable(s) && s.kind.Growable? && s.pc.Idle? && w < |s.thieves| && s.thieves[w].Away?
    ensures Reachable(s1) && Answered(s, w, s.thieves[w].cursor, s1, found)
    ensures Stole(s, w, s1, found) <==> AllAhead(s, s.thieves[w].cursor)
  {
    ReachableInv(s);
    s1, found := CursorSteal(s, w);
    var c := s.thieves[w].cursor;
    if found.Some? {
      var j: nat :| FirstFull(s, c, j) && FrontOf(s, j, found.value);
      if AllAhead(s, c) {
        AheadFindsFront(s, c, j, found.value);
      } else if Oldest(s, found.value) {
        var k: nat :| Full(s, k) && !OnNext(s.blocks, c, k);
        FrontMeansAhead(s, c, j, found.value, k);
      }
    } else {
      NothingAheadIff(s, c);
    }
  }

  lemma NothingAheadIff(s: State, c: nat)
    requires Inv(s) && s.pc.Idle? && !FullAhead(s, c)
    ensures AllAhead(s, c) <==> forall x: nat :: !Here(s, x)
  {
    if AllAhead(s, c) {
      forall x: nat
        ensures !Here(s, x)
      {
        if Here(s, x) {
          HereIsFull(s, x);
        }
      }
    } else {
      var k: nat :| Full(s, k) && !OnNext(s.blocks, c, k);
      FullIsHere(s, k);
    }
  }

  // ---------------------------------------------------------------- a cursor left behind

  lemma StealsAt(s: State, w: nat, k: nat)
    requires Reachable(s) && s.kind.Growable? && s.pc.Idle? && w < |s.thieves| && s.thieves[w] == Away(k) && Full(s, k)
    ensures s.blocks[k].stolen < |s.blocks[k].slots| && Reachable(StoleAt(s, w, k))
  {
    ReachableInv(s);
    Extend(s, StartSteal(w));
    var s2 := Apply(s, StartSteal(w));
    TakesAt(s2, w, k);
    assert StoleAt(s2, w, k) == StoleAt(s, w, k);
  }

  lemma StealsNext(s: State, w: nat, k: nat, n: nat)
    requires Reachable(s) && s.kind.Growable? && s.pc.Idle? && w < |s.thieves| && s.thieves[w] == Away(k)
    requires k < |s.blocks| && !Full(s, k) && s.blocks[k].next == Some(n) && Full(s, n)
    ensures s.blocks[n].stolen < |s.blocks[n].slots| && Reachable(StoleAt(s, w, n))
  {
    ReachableInv(s);
    Extend(s, StartSteal(w));
    var s2 := Apply(s, StartSteal(w));
    PassesBy(s2, w, k);
    var s3 := MoveOn(s2, w, k, s2.produced);
    TakesAt(s3, w, n);
    assert StoleAt(s3, w, n) == StoleAt(s, w, n);
  }

  /** A pop that finds both blocks drained leaves the owner at the first. */
  lemma PopsNothing(s: State)
    requires Reachable(s) && s.pc.Idle? && |s.blocks| >= 2 && s.owner == 1 && s.blocks[1].prev == Some(0)
    requires s.blocks[0].prev == None && !Full(s, 0) && !Full(s, 1)
    ensures Reachable(s.(owner := 0))
  {
    ReachableInv(s);
    PopFindsBlock(s, 0);
    Extend(s.(pc := PopLook, owner := 0), OwnerStep);
    assert OwnerNext(s.(pc := PopLook, owner := 0)) == s.(owner := 0);
  }

  lemma OneThief() returns (s: State)
    ensures Reachable(s) && s.pc.Idle? && s.kind.Growable? && s.size == 1 && s.owner == 1 && |s.blocks| == 2
    ensures s.blocks[0].committed == 1 && s.blocks[0].stolen == 0
    ensures s.blocks[0].next == Some(1) && s.blocks[0].prev == None
    ensures s.blocks[1].committed == 1 && s.blocks[1].stolen == 0
    ensures s.blocks[1].next == None && s.blocks[1].prev == Some(0)
    ensures s.thieves == [Away(0)] && |s.hist.pos| == 2
  {
    s := State(Growable, 1, [RowBlock(1, 1, 0)], 0, 1, Idle, [Away(0)], Hist([], [], [], false));
    var r: Run<State, Step> := Run([s], []);
    assert IsRun(r) && r.states[|r.steps|] == s;
    ReachableInv(s);
    PutInPlaceRuns(s);
    s := PutAlone(s);
    ReachableInv(s);
    PutLinkedRuns(s);
    s := PutLinked(s);
  }

  /** A stealer that has emptied two blocks keeps its cursor on the second. The owner's next pop steps back, its
      next put links a fresh block over that one, and the stealer does not see the value in it. */
  lemma CursorCanMiss() returns (s: State)
    ensures Reachable(s) && s.kind.Growable? && s.pc.Idle? && |s.thieves| == 1 && s.thieves[0].Away?
    ensures Here(s, 2) && !FullAhead(s, s.thieves[0].cursor) && FullAhead(s, 0) && !AllAhead(s, s.thieves[0].cursor)
  {
    s := OneThief();
    StealsAt(s, 0, 0);
    s := StoleAt(s, 0, 0);
    StealsNext(s, 0, 0, 1);
    s := StoleAt(s, 0, 1);
    PopsNothing(s);
    s := s.(owner := 0);
    ReachableInv(s);
    PutLinkedRuns(s);
    s := PutLinked(s);
    assert s.blocks[1].next == None && s.blocks[0].next == Some(2) && s.blocks[2].next == None;
    assert forall j: nat :: OnNext(s.blocks, 1, j) <==> j == 1;
    assert OnNext(s.blocks, 2, 2) && OnNext(s.blocks, 0, 2) && Full(s, 2);
  }
}

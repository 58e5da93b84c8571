/** What block-based work stealing promises over whole runs. */
module BwosTheorems {
  import opened Numbers
  import opened Runs
  import opened Bwos
  import opened BwosSafety

  ghost predicate Next(s: State, st: Step, s1: State) {
    Shape(s) && Enabled(s, st) && s1 == Apply(s, st)
  }

  ghost predicate IsRun(r: Run<State, Step>) {
    && |r.states| == |r.steps| + 1
    && Init(r.states[0])
    && forall i :: 0 <= i < |r.steps| ==> Next(r.states[i], r.steps[i], r.states[i + 1])
  }

  lemma NextKeeps(s: State, st: Step, s1: State)
    requires Inv(s) && Next(s, st, s1)
    ensures Inv(s1)
  {
    StepKeeps(s, st);
  }

  lemma RunInv(r: Run<State, Step>, n: nat)
    requires IsRun(r) && n < |r.states|
    ensures Inv(r.states[n])
  {
    forall k | 0 <= k < |r.states| - 1 && Inv(r.states[k])
      ensures Inv(r.states[k + 1])
    {
      NextKeeps(r.states[k], r.steps[k], r.states[k + 1]);
    }
    InitInv(r.states[0]);
    InvAlong(r.states, Inv, n);
  }

  ghost predicate Reachable(s: State) {
    exists r: Run<State, Step> :: IsRun(r) && r.states[|r.steps|] == s
  }

  lemma ReachableInv(s: State)
    requires Reachable(s)
    ensures Inv(s)
  {
    var r: Run<State, Step> :| IsRun(r) && r.states[|r.steps|] == s;
    RunInv(r, |r.steps|);
  }

  // ---------------------------------------------------------------- conservation

  /** Conservation, under any interleaving and for both kinds: a value that was put is in the queue,
      handed out, or lost; in one of these and once; and nothing else was ever handed out. */
  lemma Conserved(s: State, x: nat)
    requires Reachable(s)
    ensures Occ(s.hist.out, x) + Occ(s.hist.lost, x) + (if Here(s, x) then 1 else 0)
         == if x < |s.hist.pos| then 1 else 0
  {
    ReachableInv(s);
    assert FateOk(s, x);
  }

  /** The growable queue loses nothing. */
  lemma UnboundedLosesNothing(s: State, x: nat)
    requires Reachable(s) && s.kind.Growable?
    ensures Occ(s.hist.out, x) + (if Here(s, x) then 1 else 0) == if x < |s.hist.pos| then 1 else 0
  {
    Conserved(s, x);
    ReachableInv(s);
  }

  /** A `put` that moves on to a fixed block from which something was already taken. */
  ghost predicate BadAdvance(s: State, st: Step) {
    && st.StartPut? && s.kind.Fixed? && s.owner + 1 < |s.blocks|
    && s.blocks[s.owner].committed == s.size && s.blocks[s.owner + 1].stolen > 0
  }

  lemma DirtyStep(s: State, st: Step, s1: State)
    requires Next(s, st, s1)
    ensures s1.hist.dirty <==> s.hist.dirty || BadAdvance(s, st)
  {
  }

  lemma DirtyIff(r: Run<State, Step>, n: nat)
    requires IsRun(r) && n < |r.states|
    ensures r.states[n].hist.dirty <==> exists i :: 0 <= i < n && BadAdvance(r.states[i], r.steps[i])
  {
    var clean := (i: nat) => i < |r.states| && !r.states[i].hist.dirty;
    var bad := (i: nat) => i < |r.steps| && BadAdvance(r.states[i], r.steps[i]);
    forall i: nat | i < n
      ensures clean(i + 1) <==> clean(i) && !bad(i)
    {
      DirtyStep(r.states[i], r.steps[i], r.states[i + 1]);
    }
    UpUnlessMarked(clean, bad, n);
    assert forall i :: 0 <= i < n ==> (bad(i) <==> BadAdvance(r.states[i], r.steps[i]));
  }

  /** The bounded queue has lost no value exactly when every advance so far found `stolen == 0`. */
  lemma BoundedLosesNothingIff(r: Run<State, Step>, n: nat)
    requires IsRun(r) && n < |r.states| && r.states[n].kind.Fixed? && r.states[n].pc.Idle?
    ensures r.states[n].hist.lost == [] <==> forall i :: 0 <= i < n ==> !BadAdvance(r.states[i], r.steps[i])
  {
    RunInv(r, n);
    DirtyIff(r, n);
  }

  /** Whatever it was read through, a winning CAS hands out the value put at that very slot, while it
      is still in the queue. */
  lemma WinnerHoldsItsSlot(s: State, w: nat)
    requires Reachable(s) && w < |s.thieves| && s.thieves[w].Cas?
    requires s.thieves[w].k < |s.blocks| && s.blocks[s.thieves[w].k].stolen == s.thieves[w].t
    ensures Here(s, s.thieves[w].v)
    ensures s.hist.pos[s.thieves[w].v] == Place(s.thieves[w].k, s.thieves[w].t)
  {
    ReachableInv(s);
    assert ThiefShape(s, s.thieves[w]) && ThiefOk(s, s.thieves[w]);
    assert AtHome(s, s.thieves[w].k, s.thieves[w].t);
  }

  // ---------------------------------------------------------------- order

  /** `pop` takes the newest value in the queue, with or without the race for the last slot. */
  lemma PopTakesNewest(s: State, x: nat)
    requires Reachable(s) && s.owner < |s.blocks|
    requires s.pc.TakeRead? || (s.pc.LastCas? && s.blocks[s.owner].stolen == s.pc.b)
    ensures s.pc.b < |s.blocks[s.owner].slots|
    ensures var v := s.blocks[s.owner].slots[s.pc.b];
      Here(s, v) && (s.pc.LastCas? ==> s.pc.v == v) && (Here(s, x) ==> x <= v)
  {
    ReachableInv(s);
    assert AtHome(s, s.owner, s.pc.b);
    if Here(s, x) {
      LiveOnChain(s, s.hist.pos[x].k, s.hist.pos[x].i);
    }
  }

  /** `pop` returns `None` only when nothing is in the queue. */
  lemma EmptyPopIsHonest(s: State, x: nat)
    requires Reachable(s) && s.pc.PopLook?
    ensures Shape(s)
    ensures LookAtBlock(s).pc.Idle? ==> !Here(s, x)
  {
    ReachableInv(s);
    assert BlockShape(s, s.owner);
    if LookAtBlock(s).pc.Idle? && Here(s, x) {
      LiveOnChain(s, s.hist.pos[x].k, s.hist.pos[x].i);
    }
  }

  // ---------------------------------------------------------------- the list of blocks

  /** Blocks the owner cannot step back to hold nothing, and `next` retraces its `prev` chain. */
  lemma NextRetracesPrev(s: State, k: nat)
    requires Reachable(s) && k < |s.blocks|
    ensures s.owner < |s.blocks|
    ensures !OnChain(s.blocks, s.owner, k) ==> s.blocks[k].committed <= s.blocks[k].stolen
    ensures OnChain(s.blocks, s.owner, k) ==> k <= s.owner && OnChain(s.blocks, k, 0)
    ensures OnChain(s.blocks, s.owner, k) && k > 0 ==>
      s.blocks[k].prev.Some? && s.blocks[k].prev.value < k && s.blocks[s.blocks[k].prev.value].next == Some(k)
  {
    ReachableInv(s);
    assert BlockShape(s, k);
    ChainToHead(s, k);
    if OnChain(s.blocks, s.owner, k) {
      ChainUp(s.blocks, s.owner, k);
    }
  }

  lemma {:induction false} ChainToHead(s: State, k: nat)
    requires Shape(s) && k < |s.blocks|
    ensures OnChain(s.blocks, k, 0)
    decreases k
  {
    assert BlockShape(s, k);
    if k > 0 {
      ChainToHead(s, s.blocks[k].prev.value);
    }
  }

  /** A chain block below the owner's links to a chain block. */
  lemma {:induction false} NextOnChain(s: State, from: nat, k: nat)
    requires Shape(s) && Linked(s) && OnChain(s.blocks, s.owner, from) && OnChain(s.blocks, from, k) && k != from
    requires k < |s.blocks|
    ensures s.blocks[k].next.Some? && OnChain(s.blocks, s.owner, s.blocks[k].next.value)
    decreases from
  {
    assert BlockShape(s, from);
    var p := s.blocks[from].prev.value;
    if p != k {
      ChainStep(s.blocks, s.owner, from, p);
      NextOnChain(s, p, k);
    }
  }

  lemma {:induction false} ChainStep(blocks: seq<Block>, from: nat, k: nat, p: nat)
    requires k < |blocks| && OnChain(blocks, from, k) && blocks[k].prev == Some(p) && p < k
    ensures OnChain(blocks, from, p)
    decreases from
  {
    if from != k {
      ChainStep(blocks, blocks[from].prev.value, k, p);
    }
  }

  ghost predicate DrainedBelow(s: State, k: nat) {
    forall j :: 0 <= j < |s.blocks| && j < k ==> s.blocks[j].committed <= s.blocks[j].stolen
  }

  lemma NextDrained(s: State, k: nat)
    requires Shape(s) && Linked(s) && Drained(s) && k < |s.blocks|
    requires OnChain(s.blocks, s.owner, k) && k != s.owner
    requires DrainedBelow(s, k) && s.blocks[k].committed <= s.blocks[k].stolen
    ensures s.blocks[k].next.Some? && k < s.blocks[k].next.value <= s.owner
    ensures OnChain(s.blocks, s.owner, s.blocks[k].next.value) && DrainedBelow(s, s.blocks[k].next.value)
  {
    assert BlockShape(s, k);
    assert OnChain(s.blocks, s.owner, s.owner);
    NextOnChain(s, s.owner, k);
    var n := s.blocks[k].next.value;
    ChainUp(s.blocks, s.owner, n);
    forall j | k < j < n
      ensures !OnChain(s.blocks, s.owner, j)
    {
      if OnChain(s.blocks, s.owner, j) {
        NoneBetween(s, s.owner, j, k);
      }
    }
  }

  /** No chain block lies between a chain block and the one it links to. */
  lemma {:induction false} NoneBetween(s: State, from: nat, j: nat, k: nat)
    requires Shape(s) && Linked(s)
    requires OnChain(s.blocks, s.owner, from) && OnChain(s.blocks, from, j)
    requires OnChain(s.blocks, from, k) && k < j < |s.blocks|
    ensures s.blocks[k].next.Some? && s.blocks[k].next.value <= j
    decreases from
  {
    assert BlockShape(s, from) && BlockShape(s, j);
    var p := s.blocks[from].prev.value;
    ChainUp(s.blocks, from, j);
    if p != k {
      ChainStep(s.blocks, s.owner, from, p);
      if from == j {
        ChainUp(s.blocks, p, k);
        NoneBetween(s, p, p, k);
      } else {
        NoneBetween(s, p, j, k);
      }
    } else if from != j {
      ChainUp(s.blocks, p, j);
    }
  }

  ghost predicate Oldest(s: State, v: nat) {
    Here(s, v) && forall x: nat :: Here(s, x) ==> v <= x
  }

  lemma FrontIsOldest(s: State, k: nat)
    requires Inv(s) && s.pc.Idle? && k < |s.blocks| && DrainedBelow(s, k) && s.blocks[k].stolen < s.blocks[k].committed
    ensures s.blocks[k].stolen < |s.blocks[k].slots| && Oldest(s, s.blocks[k].slots[s.blocks[k].stolen])
  {
    assert BlockShape(s, k);
    assert AtHome(s, k, s.blocks[k].stolen);
  }

  /** A steal through a fresh handle with nobody else at work, as the code's own loop: from the head,
      past drained blocks, to the first with work. It finds the oldest value, or nothing only when
      there is nothing. */
  method SoloSteal(s: State) returns (found: Option<nat>)
    requires Reachable(s) && s.pc.Idle?
    ensures found.Some? ==> Oldest(s, found.value)
    ensures found.None? ==> forall x: nat :: !Here(s, x)
  {
    ReachableInv(s);
    var blk := 0;
    ChainToHead(s, s.owner);
    while true
      invariant blk < |s.blocks| && DrainedBelow(s, blk)
      invariant blk <= s.owner ==> OnChain(s.blocks, s.owner, blk)
      decreases |s.blocks| - blk
    {
      var t, b := s.blocks[blk].stolen, s.blocks[blk].committed;
      assert BlockShape(s, blk);
      if t < b {
        FrontIsOldest(s, blk);
        return Some(s.blocks[blk].slots[t]);
      }
      var next := if s.kind.Growable? then s.blocks[blk].next else if blk + 1 < s.produced then Some(blk + 1) else None;
      if blk < s.owner {
        NextDrained(s, blk);
      } else {
        NothingBeyond(s, blk);
      }
      if next.None? {
        return None;
      }
      blk := next.value;
    }
  }

  lemma NothingBeyond(s: State, k: nat)
    requires Inv(s) && s.pc.Idle? && s.owner <= k < |s.blocks| && DrainedBelow(s, k)
    requires s.blocks[k].committed <= s.blocks[k].stolen
    ensures forall j :: 0 <= j < |s.blocks| ==> s.blocks[j].committed <= s.blocks[j].stolen
    ensures forall x: nat :: !Here(s, x)
  {
    forall j | 0 <= j < |s.blocks|
      ensures s.blocks[j].committed <= s.blocks[j].stolen
    {
      if j > k && OnChain(s.blocks, s.owner, j) {
        ChainUp(s.blocks, s.owner, j);
      }
    }
  }

  // ---------------------------------------------------------------- a bounded run that loses a value

  lemma Extend(s: State, st: Step)
    requires Reachable(s) && Shape(s) && Enabled(s, st)
    ensures Reachable(Apply(s, st)) && Shape(Apply(s, st))
  {
    var r: Run<State, Step> :| IsRun(r) && r.states[|r.steps|] == s;
    var r1 := Run(r.states + [Apply(s, st)], r.steps + [st]);
    forall i | 0 <= i < |r1.steps|
      ensures Next(r1.states[i], r1.steps[i], r1.states[i + 1])
    {
      if i < |r.steps| {
        assert Next(r.states[i], r.steps[i], r.states[i + 1]);
      }
    }
    assert IsRun(r1) && r1.states[|r1.steps|] == Apply(s, st);
    ReachableInv(Apply(s, st));
  }

  /** The queue after a whole `put` with nobody else at work, on a bounded queue that is not full. */
  function PutAlone(s: State): State
    requires s.owner < |s.blocks|
  {
    var advance := s.blocks[s.owner].committed == s.size && s.owner + 1 < |s.blocks|;
    var k := if advance then s.owner + 1 else s.owner;
    var bottom := if advance then 0 else s.blocks[k].committed;
    var blk, id := s.blocks[k], |s.hist.pos|;
    s.(blocks := s.blocks[k := blk.(slots := if bottom < |blk.slots| then blk.slots[bottom := id] else blk.slots,
                                    committed := bottom + 1)],
       owner := k,
       produced := if advance then k + 1 else s.produced,
       hist := s.hist.(pos := s.hist.pos + [Place(k, bottom)],
                       lost := if bottom < blk.stolen then s.hist.lost + [id] else s.hist.lost,
                       dirty := s.hist.dirty || (advance && blk.stolen > 0)))
  }

  ghost predicate Usable(s: State) {
    Reachable(s) && s.pc.Idle? && s.kind.Fixed? && s.size == 1 && |s.blocks| == 3 && s.owner < 3
  }

  lemma PutFinishes(s: State, bottom: nat)
    requires Reachable(s) && Shape(s) && s.pc == PutWrite(bottom)
    ensures Reachable(Publish(WriteSlot(s, bottom), bottom))
  {
    Extend(s, OwnerStep);
    Extend(WriteSlot(s, bottom), OwnerStep);
  }

  lemma PutInPlaceRuns(s: State)
    requires Reachable(s) && Shape(s) && s.pc.Idle? && s.blocks[s.owner].committed < s.size
    ensures Reachable(PutAlone(s))
  {
    Extend(s, StartPut);
    var s1 := BeginPut(s);
    PutFinishes(s1, s1.pc.bottom);
    assert Publish(WriteSlot(s1, s1.pc.bottom), s1.pc.bottom) == PutAlone(s);
  }

  lemma PutAdvanceRuns(s: State)
    requires Reachable(s) && Shape(s) && s.pc.Idle? && s.kind.Fixed?
    requires s.blocks[s.owner].committed == s.size && s.owner + 1 < |s.blocks|
    ensures Reachable(PutAlone(s))
  {
    Extend(s, StartPut);
    var s1 := BeginPut(s);
    Extend(s1, OwnerStep);
    var s2 := OwnerNext(s1);
    PutFinishes(s2, 0);
    assert Publish(WriteSlot(s2, 0), 0) == PutAlone(s);
  }

  lemma PutAloneRuns(s: State)
    requires Usable(s) && (s.blocks[s.owner].committed < 1 || s.owner < 2)
    ensures Usable(PutAlone(s))
  {
    ReachableInv(s);
    assert BlockShape(s, s.owner);
    if s.blocks[s.owner].committed == s.size {
      PutAdvanceRuns(s);
    } else {
      PutInPlaceRuns(s);
    }
  }

  /** The queue after a whole `pop` that finds one value left in the owner's block, or else in the
      one before it. */
  function PopAlone(s: State, k: nat): State
    requires k < |s.blocks| && s.blocks[k].stolen < |s.blocks[k].slots|
  {
    var blk := s.blocks[k];
    s.(blocks := s.blocks[k := blk.(stolen := blk.stolen + 1)], owner := k,
       hist := s.hist.(out := s.hist.out + [blk.slots[blk.stolen]]))
  }

  /** The owner starts a pop and finds the block to pop from. */
  lemma PopFindsBlock(s: State, k: nat)
    requires Reachable(s) && Shape(s) && s.pc.Idle? && k < |s.blocks|
    requires k == s.owner || s.blocks[s.owner].prev == Some(k)
    requires k != s.owner ==> s.blocks[s.owner].committed <= s.blocks[s.owner].stolen
    ensures Reachable(s.(pc := PopLook, owner := k)) && Shape(s.(pc := PopLook, owner := k))
  {
    Extend(s, StartPop);
    if k != s.owner {
      Extend(s.(pc := PopLook), OwnerStep);
    }
  }

  lemma PopAloneRuns(s: State, k: nat)
    requires Usable(s)
    requires k < |s.blocks| && s.blocks[k].committed == s.blocks[k].stolen + 1
    requires k == s.owner || (s.owner == k + 1 && s.blocks[s.owner].committed <= s.blocks[s.owner].stolen)
    ensures s.blocks[k].stolen < |s.blocks[k].slots| && Usable(PopAlone(s, k))
  {
    ReachableInv(s);
    assert BlockShape(s, s.owner);
    var s1 := s.(pc := PopLook, owner := k);
    PopFindsBlock(s, k);
    PopAloneFinishes(s1, k);
    assert PopAlone(s1, k).(pc := Idle) == PopAlone(s, k);
  }

  lemma PopAloneFinishes(s: State, k: nat)
    requires Reachable(s) && Shape(s) && s.pc.PopLook? && s.owner == k
    requires s.blocks[k].committed == s.blocks[k].stolen + 1
    ensures BlockShape(s, k) && Reachable(PopAlone(s, k).(pc := Idle))
  {
    assert BlockShape(s, k);
    Extend(s, OwnerStep);
    var s1 := Apply(s, OwnerStep);
    Extend(s1, OwnerStep);
    var s2 := Apply(s1, OwnerStep);
    Extend(s2, OwnerStep);
    var s3 := Apply(s2, OwnerStep);
    Extend(s3, OwnerStep);
    var s4 := Apply(s3, OwnerStep);
    Extend(s4, OwnerStep);
    var s5 := Apply(s4, OwnerStep);
    Extend(s5, OwnerStep);
    assert Apply(s5, OwnerStep) == PopAlone(s, k).(pc := Idle);
  }

  /** A bounded queue of three one-slot blocks, used by its owner alone: three puts and three pops,
      then a put. */
  ghost function ThreeBlocks(): State {
    State(Fixed, 1, seq(3, k requires 0 <= k => RowBlock(3, 1, k)), 0, 1, Idle, [], Hist([], [], [], false))
  }

  lemma FilledUp() returns (s: State)
    ensures Usable(s) && s.owner == 2 && s.produced == 3 && s.hist.lost == [] && |s.hist.pos| == 3
    ensures forall k :: 0 <= k < 3 ==> s.blocks[k].committed == 1 && s.blocks[k].stolen == 0
  {
    s := ThreeBlocks();
    var r: Run<State, Step> := Run([s], []);
    assert IsRun(r) && r.states[|r.steps|] == s;
    PutAloneRuns(s);
    s := PutAlone(s);
    PutAloneRuns(s);
    s := PutAlone(s);
    PutAloneRuns(s);
    s := PutAlone(s);
  }

  lemma EmptiedAgain(s: State) returns (s1: State)
    requires Usable(s) && s.owner == 2
    requires forall k :: 0 <= k < 3 ==> s.blocks[k].committed == 1 && s.blocks[k].stolen == 0
    ensures Usable(s1) && s1.owner == 0 && s1.produced == s.produced
    ensures s1.hist.lost == s.hist.lost && s1.hist.pos == s.hist.pos
    ensures forall k :: 0 <= k < 3 ==> s1.blocks[k].committed == 1 && s1.blocks[k].stolen == 1
  {
    PopAloneRuns(s, 2);
    s1 := PopAlone(s, 2);
    PopAloneRuns(s1, 1);
    s1 := PopAlone(s1, 1);
    PopAloneRuns(s1, 0);
    s1 := PopAlone(s1, 0);
  }

  /** The bounded queue can lose a value with no thief in sight, and `produced_blocks` can go down. */
  lemma BoundedCanLose() returns (before: State, after: State)
    ensures Reachable(before) && Reachable(after) && after.kind.Fixed? && after.pc.Idle?
    ensures after.thieves == before.thieves
    ensures before.pc.Idle? && before.owner < |before.blocks| && after == PutAlone(before)
    ensures before.hist.lost == [] && after.hist.lost == [|before.hist.pos|]
    ensures after.produced < before.produced
  {
    var s := FilledUp();
    before := EmptiedAgain(s);
    PutAloneRuns(before);
    after := PutAlone(before);
  }
}

/** Walks over the list of blocks: a steal that nobody disturbs, and `Drop`. */
module BwosList {
  import opened Numbers
  import opened Runs
  import opened Bwos
  import opened BwosSafety
  import opened BwosTheorems

  // ---------------------------------------------------------------- an undisturbed steal

  /** Thief `w` is about to look at block `k`, all blocks before which are drained. */
  ghost predicate AtFront(s: State, w: nat, k: nat) {
    && s.pc.Idle? && w < |s.thieves| && s.thieves[w] == Look(k, s.produced)
    && k < |s.blocks| && DrainedBelow(s, k)
    && (k <= s.owner ==> OnChain(s.blocks, s.owner, k))
  }

  /** What an undisturbed steal leaves behind: the oldest value handed out, or everything as it was. */
  ghost predicate Stole(s: State, w: nat, s1: State, found: Option<nat>) {
    && w < |s1.thieves| && s1.thieves[w].Away?
    && (found.Some? ==> Oldest(s, found.value) && s1.hist == s.hist.(out := s.hist.out + [found.value]))
    && (found.None? ==> s1.hist == s.hist && s1.blocks == s.blocks && forall x: nat :: !Here(s, x))
  }

  /** The thief once it has compared `stolen` of block `k` with `committed`. */
  function Compared(s: State, w: nat, k: nat): State
    requires w < |s.thieves| && k < |s.blocks|
  {
    var t := s.blocks[k].stolen;
    SetThief(s, w, if t < s.blocks[k].committed then Read(k, s.produced, t) else Onward(k, s.produced))
  }

  /** Looking at a block takes two steps, `stolen` first. */
  lemma LooksAtBlock(s: State, w: nat, k: nat)
    requires Reachable(s) && k < |s.blocks| && w < |s.thieves| && s.thieves[w] == Look(k, s.produced)
    ensures Reachable(Compared(s, w, k)) && Shape(Compared(s, w, k))
  {
    ReachableInv(s);
    Extend(s, ThiefStep(w));
    Extend(ThiefNext(s, w), ThiefStep(w));
    assert ThiefNext(ThiefNext(s, w), w) == Compared(s, w, k);
  }

  lemma ReadsAndWins(s: State, w: nat, k: nat) returns (s1: State)
    requires Reachable(s) && Shape(s) && w < |s.thieves| && k < |s.blocks| && s.blocks[k].stolen < |s.blocks[k].slots|
    requires s.thieves[w] == Read(k, s.produced, s.blocks[k].stolen)
    ensures Reachable(s1) && w < |s1.thieves| && s1.thieves[w].Away?
    ensures s1.hist == s.hist.(out := s.hist.out + [s.blocks[k].slots[s.blocks[k].stolen]])
  {
    Extend(s, ThiefStep(w));
    var s1' := ThiefNext(s, w);
    Extend(s1', ThiefStep(w));
    s1 := ThiefNext(s1', w);
  }

  lemma TakesFront(s: State, w: nat, k: nat) returns (s1: State)
    requires Reachable(s) && AtFront(s, w, k) && s.blocks[k].stolen < s.blocks[k].committed
    ensures s.blocks[k].stolen < |s.blocks[k].slots|
    ensures Reachable(s1) && Stole(s, w, s1, Some(s.blocks[k].slots[s.blocks[k].stolen]))
  {
    ReachableInv(s);
    FrontIsOldest(s, k);
    LooksAtBlock(s, w, k);
    s1 := ReadsAndWins(Compared(s, w, k), w, k);
  }

  /** Whether there is a block after `k` to look at, and that it is a good one. */
  lemma NextFront(s: State, k: nat)
    requires Inv(s) && s.pc.Idle? && k < |s.blocks| && DrainedBelow(s, k)
    requires k <= s.owner ==> OnChain(s.blocks, s.owner, k)
    requires s.blocks[k].stolen >= s.blocks[k].committed
    ensures var n := if s.kind.Growable? then s.blocks[k].next else if k + 1 < s.produced then Some(k + 1) else None;
      && (n.None? ==> forall x: nat :: !Here(s, x))
      && (n.Some? ==> k < n.value < |s.blocks| && DrainedBelow(s, n.value))
      && (n.Some? ==> n.value <= s.owner ==> OnChain(s.blocks, s.owner, n.value))
  {
    assert BlockShape(s, k);
    if k < s.owner {
      NextDrained(s, k);
    } else {
      NothingBeyond(s, k);
    }
  }

  lemma LooksFurther(s: State, w: nat, k: nat)
    requires Reachable(s) && AtFront(s, w, k) && s.blocks[k].stolen >= s.blocks[k].committed
    ensures Reachable(MoveOn(Compared(s, w, k), w, k, s.produced))
  {
    LooksAtBlock(s, w, k);
    Extend(Compared(s, w, k), ThiefStep(w));
  }

  lemma MovesOn(s: State, w: nat, k: nat) returns (s1: State)
    requires Reachable(s) && AtFront(s, w, k) && s.blocks[k].stolen >= s.blocks[k].committed
    ensures Reachable(s1) && s1 == s.(thieves := s1.thieves) && w < |s1.thieves|
    ensures s1.thieves[w].Away? ==> forall x: nat :: !Here(s, x)
    ensures !s1.thieves[w].Away? ==> exists n :: k < n < |s.blocks| && AtFront(s1, w, n)
  {
    ReachableInv(s);
    NextFront(s, k);
    LooksFurther(s, w, k);
    s1 := MoveOn(Compared(s, w, k), w, k, s.produced);
    if !s1.thieves[w].Away? {
      assert AtFront(s1, w, s1.thieves[w].k);
    }
  }

  lemma {:induction false} SoloFrom(s: State, w: nat, k: nat) returns (s1: State, found: Option<nat>)
    requires Reachable(s) && AtFront(s, w, k)
    ensures Reachable(s1) && Stole(s, w, s1, found)
    decreases |s.blocks| - k
  {
    if s.blocks[k].stolen < s.blocks[k].committed {
      s1 := TakesFront(s, w, k);
      found := Some(s.blocks[k].slots[s.blocks[k].stolen]);
    } else {
      var s2 := MovesOn(s, w, k);
      if s2.thieves[w].Away? {
        s1, found := s2, None;
      } else {
        var n :| k < n < |s.blocks| && AtFront(s2, w, n);
        s1, found := SoloFrom(s2, w, n);
        assert forall x: nat :: Here(s2, x) <==> Here(s, x);
      }
    }
  }

  /** A fresh thief's steal, step by step, while nobody else moves: it hands out the oldest value of the queue,
      or answers `Empty` only when there is nothing. */
  lemma UndisturbedSteal(s: State, w: nat) returns (s1: State, found: Option<nat>)
    requires Reachable(s) && s.pc.Idle? && w < |s.thieves| && s.thieves[w] == Away(0)
    ensures Reachable(s1) && Stole(s, w, s1, found)
  {
    ReachableInv(s);
    Extend(s, StartSteal(w));
    var s2 := Apply(s, StartSteal(w));
    ChainToHead(s, s.owner);
    s1, found := SoloFrom(s2, w, 0);
    assert forall x: nat :: Here(s2, x) <==> Here(s, x);
  }

  // ---------------------------------------------------------------- drop

  /** Block `k` is met when walking `next` from block `from`. */
  ghost predicate OnNext(blocks: seq<Block>, from: nat, k: nat)
    decreases |blocks| - from
  {
    && from < |blocks|
    && (from == k
        || (blocks[from].next.Some? && from < blocks[from].next.value && OnNext(blocks, blocks[from].next.value, k)))
  }

  /** `Drop for Inner` of the growable list frees exactly the blocks on the `next` chain from the head, each
      once. */
  method Drop(s: State) returns (freed: seq<nat>)
    requires Reachable(s)
    ensures forall k: nat :: k in freed <==> OnNext(s.blocks, 0, k)
    ensures forall i, j :: 0 <= i < j < |freed| ==> freed[i] < freed[j]
  {
    ReachableInv(s);
    freed := [];
    var blk: Option<nat> := Some(0);
    while blk.Some?
      invariant blk.Some? ==> blk.value < |s.blocks| && forall i :: 0 <= i < |freed| ==> freed[i] < blk.value
      invariant forall k: nat :: OnNext(s.blocks, 0, k) <==> k in freed || (blk.Some? && OnNext(s.blocks, blk.value, k))
      invariant forall i, j :: 0 <= i < j < |freed| ==> freed[i] < freed[j]
      decreases if blk.Some? then |s.blocks| - blk.value else -1
    {
      assert BlockShape(s, blk.value);
      freed := freed + [blk.value];
      blk := s.blocks[blk.value].next;
    }
  }

  /** Links point back: a block's `next` has that block as its `prev`. */
  ghost predicate LinksBack(blocks: seq<Block>) {
    forall p, k :: 0 <= p < |blocks| && 0 <= k < |blocks| && blocks[p].next == Some(k) ==> blocks[k].prev == Some(p)
  }

  /** No block was cut off from the chain. */
  ghost predicate Intact(blocks: seq<Block>) {
    forall k :: 0 < k < |blocks| ==> !CutOff(blocks, k)
  }

  ghost predicate CutOff(blocks: seq<Block>, k: nat) {
    && k < |blocks|
    && !(blocks[k].prev.Some? && blocks[k].prev.value < |blocks| && blocks[blocks[k].prev.value].next == Some(k))
  }

  ghost predicate ListInv(s: State) {
    Inv(s) && LinksBack(s.blocks)
  }

  /** A `put` that links a fresh block over a `next` already there. */
  ghost predicate ReAdvance(s: State, st: Step) {
    && st.StartPut? && s.kind.Growable? && s.owner < |s.blocks|
    && s.blocks[s.owner].committed == s.size && s.blocks[s.owner].next.Some?
  }

  ghost predicate SameLinks(a: seq<Block>, b: seq<Block>) {
    |a| == |b| && forall k :: 0 <= k < |a| ==> a[k].next == b[k].next && a[k].prev == b[k].prev
  }

  lemma OwnerKeepsLinks(s: State)
    requires Shape(s)
    ensures SameLinks(s.blocks, OwnerNext(s).blocks) && OwnerNext(s).kind == s.kind
  {
  }

  lemma ThiefKeepsLinks(s: State, w: nat)
    requires Shape(s) && w < |s.thieves|
    ensures SameLinks(s.blocks, ThiefNext(s, w).blocks) && ThiefNext(s, w).kind == s.kind
  {
  }

  lemma SameLinksSame(a: seq<Block>, b: seq<Block>)
    requires SameLinks(a, b) && LinksBack(a)
    ensures LinksBack(b) && (Intact(a) <==> Intact(b))
  {
    forall k | 0 < k < |a|
      ensures CutOff(a, k) <==> CutOff(b, k)
    {
    }
  }

  lemma LinkFreshBack(s: State)
    requires Shape(s) && LinksBack(s.blocks)
    ensures LinksBack(LinkFresh(s).blocks)
  {
    var a, b := s.blocks, LinkFresh(s).blocks;
    forall p, k | 0 <= p < |b| && 0 <= k < |b| && b[p].next == Some(k)
      ensures b[k].prev == Some(p)
    {
      if p != s.owner && p < |a| {
        assert BlockShape(s, p);
      }
    }
  }

  lemma LinkFreshCuts(s: State, k: nat)
    requires Shape(s) && k < |s.blocks|
    ensures CutOff(LinkFresh(s).blocks, k) <==> CutOff(s.blocks, k) || s.blocks[k].prev == Some(s.owner)
  {
    assert BlockShape(s, k);
  }

  lemma LinkFreshLinks(s: State)
    requires Shape(s) && LinksBack(s.blocks)
    ensures Intact(LinkFresh(s).blocks) <==> Intact(s.blocks) && s.blocks[s.owner].next.None?
  {
    var a, b := s.blocks, LinkFresh(s).blocks;
    forall k: nat | k < |a|
      ensures CutOff(b, k) <==> CutOff(a, k) || a[k].prev == Some(s.owner)
    {
      LinkFreshCuts(s, k);
    }
    assert !CutOff(b, |a|);
    if a[s.owner].next.Some? {
      assert BlockShape(s, s.owner);
      assert CutOff(b, a[s.owner].next.value);
    } else {
      forall k: nat | 0 < k < |b|
        ensures CutOff(b, k) <==> k < |a| && CutOff(a, k)
      {
        assert k < |a| && a[k].prev == Some(s.owner) ==> CutOff(a, k);
      }
    }
  }

  lemma StepLinks(s: State, st: Step, s1: State)
    requires ListInv(s) && Next(s, st, s1)
    ensures LinksBack(s1.blocks) && s1.kind == s.kind
    ensures s.kind.Growable? ==> (Intact(s1.blocks) <==> Intact(s.blocks) && !ReAdvance(s, st))
  {
    if st.StartPut? && s.blocks[s.owner].committed == s.size && s.kind.Growable? {
      LinkFreshBack(s);
      LinkFreshLinks(s);
    } else {
      match st {
        case OwnerStep => OwnerKeepsLinks(s);
        case ThiefStep(w) => ThiefKeepsLinks(s, w);
        case _ =>
      }
      SameLinksSame(s.blocks, s1.blocks);
    }
  }

  ghost predicate InRow(blocks: seq<Block>, k: nat)
    requires k < |blocks|
  {
    && blocks[k].next == (if k + 1 < |blocks| then Some(k + 1) else None)
    && blocks[k].prev == (if k == 0 then None else Some(k - 1))
  }

  lemma RowLinks(blocks: seq<Block>)
    requires forall k :: 0 <= k < |blocks| ==> InRow(blocks, k)
    ensures LinksBack(blocks) && Intact(blocks)
  {
    forall p, k | 0 <= p < |blocks| && 0 <= k < |blocks| && blocks[p].next == Some(k)
      ensures blocks[k].prev == Some(p)
    {
      assert InRow(blocks, p) && InRow(blocks, k);
    }
    forall k | 0 < k < |blocks|
      ensures !CutOff(blocks, k)
    {
      assert InRow(blocks, k) && InRow(blocks, k - 1);
    }
  }

  lemma InitLinks(s: State)
    requires Init(s)
    ensures LinksBack(s.blocks) && Intact(s.blocks)
  {
    forall k | 0 <= k < |s.blocks|
      ensures InRow(s.blocks, k)
    {
      assert s.blocks[k] == RowBlock(|s.blocks|, s.size, k);
    }
    RowLinks(s.blocks);
  }

  lemma RunLinks(r: Run<State, Step>, n: nat)
    requires IsRun(r) && n < |r.states|
    ensures ListInv(r.states[n])
  {
    forall k | 0 <= k < |r.states| - 1 && ListInv(r.states[k])
      ensures ListInv(r.states[k + 1])
    {
      NextKeeps(r.states[k], r.steps[k], r.states[k + 1]);
      StepLinks(r.states[k], r.steps[k], r.states[k + 1]);
    }
    InitInv(r.states[0]);
    InitLinks(r.states[0]);
    InvAlong(r.states, ListInv, n);
  }

  lemma IntactStep(r: Run<State, Step>, i: nat)
    requires IsRun(r) && i < |r.steps|
    ensures r.states[i + 1].kind == r.states[i].kind
    ensures r.states[i].kind.Growable? ==>
      (Intact(r.states[i + 1].blocks) <==> Intact(r.states[i].blocks) && !ReAdvance(r.states[i], r.steps[i]))
  {
    RunLinks(r, i);
    StepLinks(r.states[i], r.steps[i], r.states[i + 1]);
  }

  lemma {:induction false} KindsStay(r: Run<State, Step>, n: nat)
    requires IsRun(r) && n < |r.states|
    ensures forall i :: 0 <= i <= n ==> r.states[i].kind == r.states[n].kind
  {
    if n > 0 {
      KindsStay(r, n - 1);
      IntactStep(r, n - 1);
    }
  }

  lemma IntactIff(r: Run<State, Step>, n: nat)
    requires IsRun(r) && n < |r.states| && r.states[n].kind.Growable?
    ensures Intact(r.states[n].blocks) <==> forall i :: 0 <= i < n ==> !ReAdvance(r.states[i], r.steps[i])
  {
    var up := (i: nat) => i < |r.states| && Intact(r.states[i].blocks);
    var marked := (i: nat) => i < |r.steps| && ReAdvance(r.states[i], r.steps[i]);
    KindsStay(r, n);
    forall i: nat | i < n
      ensures up(i + 1) <==> up(i) && !marked(i)
    {
      IntactStep(r, i);
    }
    InitLinks(r.states[0]);
    UpUnlessMarked(up, marked, n);
    assert forall i :: 0 <= i < n ==> (marked(i) <==> ReAdvance(r.states[i], r.steps[i]));
  }

  /** Whoever is on the chain is linked to by its `prev`. */
  lemma {:induction false} OnNextLinked(blocks: seq<Block>, from: nat, k: nat)
    requires LinksBack(blocks) && OnNext(blocks, from, k) && from != k
    ensures k < |blocks| && !CutOff(blocks, k)
    decreases |blocks| - from
  {
    var n := blocks[from].next.value;
    if n != k {
      OnNextLinked(blocks, n, k);
    }
  }

  lemma {:induction false} OnNextStep(blocks: seq<Block>, from: nat, p: nat, k: nat)
    requires OnNext(blocks, from, p) && p < k < |blocks| && blocks[p].next == Some(k)
    ensures OnNext(blocks, from, k)
    decreases |blocks| - from
  {
    if from != p {
      OnNextStep(blocks, blocks[from].next.value, p, k);
    }
  }

  lemma {:induction false} IntactReaches(s: State, k: nat)
    requires Shape(s) && Intact(s.blocks) && k < |s.blocks|
    ensures OnNext(s.blocks, 0, k)
    decreases k
  {
    assert BlockShape(s, k);
    if k > 0 {
      assert !CutOff(s.blocks, k);
      IntactReaches(s, s.blocks[k].prev.value);
      OnNextStep(s.blocks, 0, s.blocks[k].prev.value, k);
    }
  }

  lemma AllReachedIff(s: State)
    requires ListInv(s)
    ensures (forall k: nat :: k < |s.blocks| ==> OnNext(s.blocks, 0, k)) <==> Intact(s.blocks)
  {
    if Intact(s.blocks) {
      forall k: nat | k < |s.blocks|
        ensures OnNext(s.blocks, 0, k)
      {
        IntactReaches(s, k);
      }
    } else {
      var k: nat :| 0 < k < |s.blocks| && CutOff(s.blocks, k);
      if OnNext(s.blocks, 0, k) {
        OnNextLinked(s.blocks, 0, k);
      }
      assert !OnNext(s.blocks, 0, k);
    }
  }

  /** So `Drop` frees every block exactly when no `put` of the run linked a fresh block over an old one. */
  lemma DropFreesAllIff(r: Run<State, Step>, n: nat)
    requires IsRun(r) && n < |r.states| && r.states[n].kind.Growable?
    ensures (forall k: nat :: k < |r.states[n].blocks| ==> OnNext(r.states[n].blocks, 0, k))
       <==> forall i :: 0 <= i < n ==> !ReAdvance(r.states[i], r.steps[i])
  {
    RunLinks(r, n);
    IntactIff(r, n);
    AllReachedIff(r.states[n]);
  }

  // ---------------------------------------------------------------- a run that cuts a block off

  /** The queue after a whole `put` that links a fresh block. */
  function PutLinked(s: State): State
    requires s.owner < |s.blocks| && s.size > 0
  {
    Publish(WriteSlot(LinkFresh(s), 0), 0)
  }

  lemma PutLinkedRuns(s: State)
    requires Reachable(s) && Shape(s) && s.pc.Idle? && s.kind.Growable? && s.blocks[s.owner].committed == s.size
    ensures Reachable(PutLinked(s))
  {
    Extend(s, StartPut);
    PutFinishes(LinkFresh(s), 0);
  }

  lemma PopRuns(s: State, k: nat)
    requires Reachable(s) && s.pc.Idle? && s.owner < |s.blocks| && k < |s.blocks|
    requires s.blocks[k].committed == s.blocks[k].stolen + 1
    requires k == s.owner || s.blocks[s.owner].prev == Some(k)
    requires k != s.owner ==> s.blocks[s.owner].committed <= s.blocks[s.owner].stolen
    ensures s.blocks[k].stolen < |s.blocks[k].slots| && Reachable(PopAlone(s, k))
  {
    ReachableInv(s);
    PopFindsBlock(s, k);
    PopAloneFinishes(s.(pc := PopLook, owner := k), k);
    assert PopAlone(s.(pc := PopLook, owner := k), k).(pc := Idle) == PopAlone(s, k);
  }

  lemma TwoBlocks() returns (s: State)
    ensures Reachable(s) && s.pc.Idle? && s.kind.Growable? && s.size == 1 && s.owner == 1 && |s.blocks| == 2
    ensures s.blocks[0].committed == 1 && s.blocks[0].stolen == 0 && s.blocks[0].next == Some(1)
    ensures s.blocks[1].committed == 1 && s.blocks[1].stolen == 0 && s.blocks[1].prev == Some(0)
  {
    s := State(Growable, 1, [RowBlock(1, 1, 0)], 0, 1, Idle, [], Hist([], [], [], false));
    var r: Run<State, Step> := Run([s], []);
    assert IsRun(r) && r.states[|r.steps|] == s;
    ReachableInv(s);
    PutInPlaceRuns(s);
    s := PutAlone(s);
    ReachableInv(s);
    PutLinkedRuns(s);
    s := PutLinked(s);
  }

  /** One-slot blocks, the owner alone: two puts, two pops and a put leave a block that `Drop` does not free. */
  lemma DropCanLeak() returns (s: State)
    ensures Reachable(s) && s.kind.Growable? && s.pc.Idle? && |s.blocks| == 3
    ensures OnNext(s.blocks, 0, 0) && !OnNext(s.blocks, 0, 1) && OnNext(s.blocks, 0, 2)
  {
    s := TwoBlocks();
    PopRuns(s, 1);
    s := PopAlone(s, 1);
    PopRuns(s, 0);
    s := PopAlone(s, 0);
    ReachableInv(s);
    PutLinkedRuns(s);
    s := PutLinked(s);
    assert s.blocks[0].next == Some(2) && s.blocks[2].next == None;
    assert OnNext(s.blocks, 2, 2) && !OnNext(s.blocks, 2, 1);
  }
}

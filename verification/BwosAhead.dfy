/** How a stealer's cursor gets ahead of the front of the growable queue. */
module BwosAhead {
  import opened Numbers
  import opened Runs
  import opened Bwos
  import opened BwosSafety
  import opened BwosTheorems
  import opened BwosList
  import opened BwosCursor
  import opened BwosFrontier

  /** The block a handle stands at; between calls, its cursor. */
  function CursorOf(th: Thief): nat {
    match th
    case Away(cursor) => cursor
    case Look(k, _) => k
    case Bottom(k, _, _) => k
    case Read(k, _, _) => k
    case Cas(k, _, _, _) => k
    case Onward(k, _) => k
  }

  /** Block `c` is on the chain from the head, and no block with something to steal comes before it. */
  ghost predicate AtOrBehind(s: State, c: nat) {
    OnNext(s.blocks, 0, c) && AllAhead(s, c)
  }

  /** The thief walks on from a block into which something was put since it found the block drained. */
  ghost predicate WalksPast(s: State, st: Step, w: nat) {
    && st == ThiefStep(w) && w < |s.thieves| && s.thieves[w].Onward?
    && Full(s, s.thieves[w].k) && s.blocks[s.thieves[w].k].next.Some?
  }

  /** A put publishes into a block that the chain from block `c` does not reach. */
  ghost predicate PublishesBehind(s: State, st: Step, c: nat) {
    st.OwnerStep? && s.pc.PutPublish? && !OnNext(s.blocks, c, s.owner)
  }

  /** A put links a fresh block over a `next` on the way to block `c`. */
  ghost predicate CutsOff(s: State, st: Step, c: nat) {
    && st.StartPut? && s.owner < |s.blocks| && s.blocks[s.owner].committed == s.size
    && s.owner != c && OnNext(s.blocks, s.owner, c)
  }

  ghost predicate GetsAhead(s: State, st: Step, w: nat)
    requires w < |s.thieves|
  {
    var c := CursorOf(s.thieves[w]);
    WalksPast(s, st, w) || PublishesBehind(s, st, c) || CutsOff(s, st, c)
  }

  // ---------------------------------------------------------------- chains over a fresh block

  lemma {:induction false} SameNext(a: seq<Block>, b: seq<Block>, from: nat, k: nat)
    requires |a| == |b| && forall j :: 0 <= j < |a| ==> b[j].next == a[j].next
    ensures OnNext(b, from, k) <==> OnNext(a, from, k)
    decreases |a| - from
  {
    if from < |a| && from != k && a[from].next.Some? && from < a[from].next.value {
      SameNext(a, b, a[from].next.value, k);
    }
  }

  /** Up to the owner's block a fresh block changes nothing. */
  lemma {:induction false} FreshBelow(s: State, from: nat, k: nat)
    requires Shape(s) && from < |s.blocks| && k <= s.owner
    ensures OnNext(LinkFresh(s).blocks, from, k) <==> OnNext(s.blocks, from, k)
    decreases |s.blocks| - from
  {
    var a, b := s.blocks, LinkFresh(s).blocks;
    assert BlockShape(s, from);
    if from < k && a[from].next.Some? {
      FreshBelow(s, a[from].next.value, k);
    } else if k < from {
      NotBack(a, from, k);
      NotBack(b, from, k);
    }
  }

  lemma NotBack(blocks: seq<Block>, from: nat, k: nat)
    requires k < from
    ensures !OnNext(blocks, from, k)
  {
    if OnNext(blocks, from, k) {
      OnNextUp(blocks, from, k);
    }
  }

  /** Beyond the owner's block the way through it is lost. */
  lemma {:induction false} FreshBeyond(s: State, from: nat, k: nat)
    requires Shape(s) && from <= s.owner < k < |s.blocks| && OnNext(s.blocks, from, s.owner)
    ensures !OnNext(LinkFresh(s).blocks, from, k)
    decreases |s.blocks| - from
  {
    var b := LinkFresh(s).blocks;
    assert BlockShape(s, from);
    if from == s.owner {
      NotBack(b, |s.blocks|, k);
    } else {
      OnNextUp(s.blocks, s.blocks[from].next.value, s.owner);
      FreshBeyond(s, s.blocks[from].next.value, k);
    }
  }

  /** Of two blocks on the way from the head, the nearer leads to the farther. */
  lemma {:induction false} OnNextBetween(blocks: seq<Block>, from: nat, j: nat, k: nat)
    requires OnNext(blocks, from, j) && OnNext(blocks, from, k) && j <= k
    ensures OnNext(blocks, j, k)
    decreases |blocks| - from
  {
    if from != j {
      OnNextUp(blocks, from, j);
      OnNextBetween(blocks, blocks[from].next.value, j, k);
    }
  }

  lemma OwnerFromHead(s: State)
    requires Shape(s) && Linked(s)
    ensures OnNext(s.blocks, 0, s.owner)
  {
    ChainToHead(s, s.owner);
    ChainForward(s, s.owner, 0);
  }

  // ---------------------------------------------------------------- step by step

  lemma LinkFreshAhead(s: State, c: nat)
    requires Inv(s) && s.pc.Idle? && s.kind.Growable? && s.blocks[s.owner].committed == s.size && AtOrBehind(s, c)
    ensures !AtOrBehind(LinkFresh(s), c) <==> s.owner != c && OnNext(s.blocks, s.owner, c)
  {
    var s1 := LinkFresh(s);
    OwnerFromHead(s);
    OnNextUp(s.blocks, 0, c);
    if c <= s.owner {
      FreshBelow(s, 0, c);
      forall k: nat | Full(s1, k)
        ensures OnNext(s1.blocks, c, k)
      {
        assert Full(s, k);
        FullOnChain(s, k);
        ChainUp(s.blocks, s.owner, k);
        FreshBelow(s, c, k);
      }
      if c != s.owner {
        NotBack(s.blocks, s.owner, c);
      }
    } else {
      FreshBeyond(s, 0, c);
      OnNextBetween(s.blocks, 0, s.owner, c);
    }
  }

  lemma PublishAhead(s: State, bottom: nat, c: nat)
    requires Inv(s) && s.kind.Growable? && s.pc == PutPublish(bottom) && AtOrBehind(s, c)
    ensures !AtOrBehind(Publish(s, bottom), c) <==> !OnNext(s.blocks, c, s.owner)
  {
    var s1 := Publish(s, bottom);
    forall from: nat, k: nat
      ensures OnNext(s1.blocks, from, k) <==> OnNext(s.blocks, from, k)
    {
      SameNext(s.blocks, s1.blocks, from, k);
    }
    assert Full(s1, s.owner);
    assert forall k: nat :: k != s.owner ==> (Full(s1, k) <==> Full(s, k));
  }

  /** Nothing new to steal, and the same chain. */
  ghost predicate NoMore(s: State, s1: State) {
    && |s1.blocks| == |s.blocks|
    && (forall j :: 0 <= j < |s.blocks| ==> s1.blocks[j].next == s.blocks[j].next)
    && (forall k: nat :: Full(s1, k) ==> Full(s, k))
  }

  lemma NoMoreKeeps(s: State, s1: State, c: nat)
    requires NoMore(s, s1) && AtOrBehind(s, c)
    ensures AtOrBehind(s1, c)
  {
    SameNext(s.blocks, s1.blocks, 0, c);
    forall k: nat | Full(s1, k)
      ensures OnNext(s1.blocks, c, k)
    {
      SameNext(s.blocks, s1.blocks, c, k);
    }
  }

  lemma OwnerNoMore(s: State)
    requires Shape(s) && OwnerOk(s) && !s.pc.PutPublish?
    ensures NoMore(s, OwnerNext(s))
  {
  }

  lemma ThiefNoMore(s: State, w: nat)
    requires Shape(s) && w < |s.thieves|
    ensures NoMore(s, ThiefNext(s, w))
    ensures |ThiefNext(s, w).thieves| == |s.thieves|
  {
    assert ThiefShape(s, s.thieves[w]);
    if !s.thieves[w].Cas? {
      assert ThiefNext(s, w).blocks == s.blocks;
    }
  }

  lemma OnwardAhead(s: State, c: nat, n: nat)
    requires Shape(s) && AtOrBehind(s, c) && c < |s.blocks| && s.blocks[c].next == Some(n)
    ensures !AtOrBehind(s, n) <==> Full(s, c)
  {
    assert BlockShape(s, c);
    OnNextStep(s.blocks, 0, c, n);
    NotBack(s.blocks, n, c);
    assert forall k: nat :: OnNext(s.blocks, c, k) <==> k == c || OnNext(s.blocks, n, k);
  }

  lemma CursorSteps(s: State, w: nat)
    requires Shape(s) && s.kind.Growable? && w < |s.thieves|
    ensures var th, th1 := s.thieves[w], ThiefNext(s, w).thieves[w];
      if th.Onward? && s.blocks[th.k].next.Some? then CursorOf(th1) == s.blocks[th.k].next.value
      else CursorOf(th1) == CursorOf(th)
  {
  }

  lemma ThiefStepAhead(s: State, v: nat, w: nat)
    requires Inv(s) && s.kind.Growable? && v < |s.thieves| && w < |s.thieves| && AtOrBehind(s, CursorOf(s.thieves[w]))
    ensures |ThiefNext(s, v).thieves| == |s.thieves|
    ensures var s1 := ThiefNext(s, v);
      !AtOrBehind(s1, CursorOf(s1.thieves[w])) <==> WalksPast(s, ThiefStep(v), w)
  {
    var s1 := ThiefNext(s, v);
    ThiefNoMore(s, v);
    var c := CursorOf(s.thieves[w]);
    NoMoreKeeps(s, s1, c);
    if v == w {
      CursorSteps(s, w);
      assert ThiefShape(s, s.thieves[w]);
      if s.thieves[w].Onward? && s.blocks[c].next.Some? {
        OnwardAhead(s, c, s.blocks[c].next.value);
        assert s1.blocks == s.blocks;
        assert forall k: nat :: Full(s1, k) <==> Full(s, k);
      }
    }
  }

  lemma HandleAhead(s: State)
    requires Inv(s)
    ensures AtOrBehind(s, 0)
  {
    forall k: nat | Full(s, k)
      ensures OnNext(s.blocks, 0, k)
    {
      FullOnChain(s, k);
      ChainToHead(s, k);
      ChainForward(s, k, 0);
    }
  }

  lemma OwnerStepAhead(s: State, c: nat)
    requires Inv(s) && s.kind.Growable? && AtOrBehind(s, c)
    ensures !AtOrBehind(OwnerNext(s), c) <==> PublishesBehind(s, OwnerStep, c)
  {
    if s.pc.PutPublish? {
      PublishAhead(s, s.pc.bottom, c);
    } else {
      OwnerNoMore(s);
      NoMoreKeeps(s, OwnerNext(s), c);
    }
  }

  lemma StartPutAhead(s: State, c: nat)
    requires Inv(s) && s.pc.Idle? && s.kind.Growable? && AtOrBehind(s, c)
    ensures !AtOrBehind(BeginPut(s), c) <==> CutsOff(s, StartPut, c)
  {
    if s.blocks[s.owner].committed == s.size {
      LinkFreshAhead(s, c);
    } else {
      NoMoreKeeps(s, BeginPut(s), c);
    }
  }

  /** In every reachable state, a handle at or behind the front gets ahead of it at exactly three kinds of step:
      its own walk past a block that has been put into since it looked; a publish into a block not on the chain
      from its cursor; and a fresh block linked over a `next` on the way to its cursor. */
  lemma GetsAheadIff(s: State, st: Step, w: nat)
    requires Reachable(s) && s.kind.Growable? && Enabled(s, st) && w < |s.thieves|
    requires AtOrBehind(s, CursorOf(s.thieves[w]))
    ensures Shape(s) && w < |Apply(s, st).thieves|
    ensures !AtOrBehind(Apply(s, st), CursorOf(Apply(s, st).thieves[w])) <==> GetsAhead(s, st, w)
  {
    ReachableInv(s);
    InvGetsAheadIff(s, st, w);
  }

  lemma InvGetsAheadIff(s: State, st: Step, w: nat)
    requires Inv(s) && s.kind.Growable? && Enabled(s, st) && w < |s.thieves|
    requires AtOrBehind(s, CursorOf(s.thieves[w]))
    ensures w < |Apply(s, st).thieves|
    ensures !AtOrBehind(Apply(s, st), CursorOf(Apply(s, st).thieves[w])) <==> GetsAhead(s, st, w)
  {
    var c := CursorOf(s.thieves[w]);
    match st
    case StartPut => StartPutAhead(s, c);
    case StartPop => NoMoreKeeps(s, Apply(s, st), c);
    case OwnerStep => OwnerStepAhead(s, c);
    case StartSteal(v) => NoMoreKeeps(s, Apply(s, st), c);
    case ThiefStep(v) => ThiefStepAhead(s, v, w);
    case NewHandle(v) =>
      NoMoreKeeps(s, Apply(s, st), c);
      HandleAhead(s);
      NoMoreKeeps(s, Apply(s, st), 0);
  }

  /** A handle of a run that no such step has touched. */
  ghost predicate Behind(s: State, w: nat) {
    s.kind.Growable? && w < |s.thieves| && AtOrBehind(s, CursorOf(s.thieves[w]))
  }

  lemma StepBehind(r: Run<State, Step>, w: nat, i: nat)
    requires IsRun(r) && i < |r.steps| && Behind(r.states[i], w) && !GetsAhead(r.states[i], r.steps[i], w)
    ensures Behind(r.states[i + 1], w)
  {
    RunInv(r, i);
    var s, st := r.states[i], r.steps[i];
    assert Next(s, st, r.states[i + 1]);
    StepStaysBehind(s, st, w);
  }

  lemma StepStaysBehind(s: State, st: Step, w: nat)
    requires Inv(s) && Enabled(s, st) && Behind(s, w) && !GetsAhead(s, st, w)
    ensures Behind(Apply(s, st), w)
  {
    KindStays(s, st);
    InvGetsAheadIff(s, st, w);
  }

  /** So a handle that no such step has touched since the start of a run is at or behind the front. */
  lemma BehindUntilOvertaken(r: Run<State, Step>, w: nat, n: nat)
    requires IsRun(r) && n < |r.states| && r.states[0].kind.Growable? && w < |r.states[0].thieves|
    requires forall i :: 0 <= i < n && w < |r.states[i].thieves| ==> !GetsAhead(r.states[i], r.steps[i], w)
    ensures Behind(r.states[n], w)
  {
    var behind := (s: State) => Behind(s, w);
    var states := r.states[..n + 1];
    HandleStarts(r.states[0], w);
    forall k | 0 <= k < |states| - 1 && behind(states[k])
      ensures behind(states[k + 1])
    {
      StepBehind(r, w, k);
    }
    InvAlong(states, behind, n);
  }

  lemma HandleStarts(s: State, w: nat)
    requires Init(s) && s.kind.Growable? && w < |s.thieves|
    ensures Behind(s, w)
  {
    InitInv(s);
    HandleAhead(s);
  }

  /** A fresh handle is at or behind the front, wherever its predecessor had got to. */
  lemma FreshHandleIsBehind(s: State, w: nat)
    requires Reachable(s) && s.kind.Growable? && w < |s.thieves| && s.thieves[w].Away?
    ensures Shape(s) && Enabled(s, NewHandle(w))
    ensures Behind(Apply(s, NewHandle(w)), w)
  {
    ReachableInv(s);
    StepKeeps(s, NewHandle(w));
    HandleAhead(Apply(s, NewHandle(w)));
  }

  // ---------------------------------------------------------------- a run in which a stealer walks past a value

  lemma AboutToWalk() returns (s: State)
    ensures Reachable(s) && s.kind.Growable? && s.pc.Idle? && s.size == 1 && s.owner == 0 && s.produced == 1
    ensures s.blocks == [RowBlock(1, 1, 0)] && s.thieves == [Onward(0, 1)] && s.hist == Hist([], [], [], false)
  {
    s := State(Growable, 1, [RowBlock(1, 1, 0)], 0, 1, Idle, [Away(0)], Hist([], [], [], false));
    var r: Run<State, Step> := Run([s], []);
    assert IsRun(r) && r.states[|r.steps|] == s;
    ReachableInv(s);
    Extend(s, StartSteal(0));
    s := Apply(s, StartSteal(0));
    LooksAtBlock(s, 0, 0);
    s := Compared(s, 0, 0);
  }

  lemma WalkedPast() returns (before: State, after: State)
    ensures Reachable(before) && Reachable(after) && Shape(before)
    ensures Enabled(before, ThiefStep(0)) && after == Apply(before, ThiefStep(0))
    ensures before.thieves == [Onward(0, 1)] && AtOrBehind(before, 0) && WalksPast(before, ThiefStep(0), 0)
    ensures after.thieves == [Look(1, 1)] && !AtOrBehind(after, 1)
    ensures after.kind.Growable? && after.pc.Idle? && after.size == 1 && after.owner == 1 && after.produced == 1
    ensures |after.blocks| == 2 && |after.hist.pos| == 2 && after.hist.out == []
    ensures after.blocks[0] == Block([0], 1, 0, Some(1), None) && after.blocks[1] == Block([1], 1, 0, None, Some(0))
    ensures after.hist.pos == [Place(0, 0), Place(1, 0)]
  {
    before := AboutToWalk();
    ReachableInv(before);
    PutInPlaceRuns(before);
    before := PutAlone(before);
    ReachableInv(before);
    PutLinkedRuns(before);
    before := PutLinked(before);
    ReachableInv(before);
    HandleAhead(before);
    Extend(before, ThiefStep(0));
    after := Apply(before, ThiefStep(0));
    GetsAheadIff(before, ThiefStep(0), 0);
  }

  /** A stealer finds the first block empty; the owner fills it and links a second; the stealer walks on and takes
      the newer value, with its cursor past the older one for good, though no block was ever cut off. */
  lemma CursorCanOvertake() returns (s: State)
    ensures Reachable(s) && s.kind.Growable? && s.pc.Idle? && s.thieves == [Away(1)] && s.hist.out == [1]
    ensures Here(s, 0) && Full(s, 0) && FullAhead(s, 1) && Intact(s.blocks) && !OnNext(s.blocks, 1, 0)
  {
    var before, after := WalkedPast();
    TakesAt(after, 0, 1);
    s := StoleAt(after, 0, 1);
    ReachableInv(s);
    PutLinkedRuns(s);
    s := PutLinked(s);
    ReachableInv(s);
    NotBack(s.blocks, 1, 0);
    assert OnNext(s.blocks, 2, 2) && OnNext(s.blocks, 1, 2) && Full(s, 2);
    assert !CutOff(s.blocks, 1) && !CutOff(s.blocks, 2);
  }
}

/** What the Chase-Lev deque promises over whole runs. */
module ChaseLevTheorems {
  import opened Numbers
  import opened Runs
  import opened ChaseLev
  import opened ChaseLevSafety

  ghost predicate Next(s: State, st: Step, s1: State) {
    Shape(s) && Enabled(s, st) && s1 == Apply(s, st)
  }

  ghost predicate IsRun(r: Run<State, Step>, kind: Kind, cap: nat, thieves: nat) {
    && cap > 0
    && |r.states| == |r.steps| + 1
    && r.states[0] == Init(kind, cap, thieves)
    && forall i :: 0 <= i < |r.steps| ==> Next(r.states[i], r.steps[i], r.states[i + 1])
  }

  lemma NextKeeps(s: State, st: Step, s1: State)
    requires Inv(s) && Next(s, st, s1)
    ensures Inv(s1)
  {
    StepKeeps(s, st);
  }

  lemma RunInv(r: Run<State, Step>, kind: Kind, cap: nat, thieves: nat, n: nat)
    requires IsRun(r, kind, cap, thieves) && n < |r.states|
    ensures Inv(r.states[n])
  {
    forall k | 0 <= k < |r.states| - 1 && Inv(r.states[k])
      ensures Inv(r.states[k + 1])
    {
      NextKeeps(r.states[k], r.steps[k], r.states[k + 1]);
    }
    InitInv(kind, cap, thieves);
    InvAlong(r.states, Inv, n);
  }

  /** A state some run reaches from a new deque of the given capacity and number of thieves. */
  ghost predicate Reachable(s: State) {
    exists r: Run<State, Step>, kind: Kind, cap: nat, thieves: nat ::
      IsRun(r, kind, cap, thieves) && r.states[|r.steps|] == s
  }

  lemma ReachableInv(s: State)
    requires Reachable(s)
    ensures Inv(s)
  {
    var r: Run<State, Step>, kind: Kind, cap: nat, thieves: nat :|
      IsRun(r, kind, cap, thieves) && r.states[|r.steps|] == s;
    RunInv(r, kind, cap, thieves, |r.steps|);
  }

  /** Exactly-once: each pushed element is in the deque, held by the owner's pop, or was handed out,
      in one place only and once only; nothing that was not pushed is anywhere. */
  lemma ExactlyOnce(s: State, id: nat)
    requires Reachable(s)
    ensures 0 <= s.top <= |s.hist.arr|
    ensures multiset(Contents(s))[id] + multiset(s.hist.secured)[id] + multiset(Ids(s.hist.out))[id]
         == if id < s.hist.pushed then 1 else 0
  {
    ReachableInv(s);
    UptoOnce(s.hist.pushed, id);
    assert (multiset(Contents(s)) + multiset(s.hist.secured) + multiset(Ids(s.hist.out)))[id]
        == multiset(Upto(s.hist.pushed))[id];
  }

  /** A thief's CAS that is about to win holds the element last pushed at that logical index,
      whichever buffer it was read through and however often the cells were reused since. */
  lemma WinningClaimIsFresh(s: State, who: nat)
    requires Reachable(s)
    requires who < |s.thieves| && s.thieves[who].Claiming? && s.thieves[who].t == s.top
    ensures 0 <= s.top < |s.hist.arr| && s.thieves[who].p == Box(s.hist.arr[s.top])
  {
    ReachableInv(s);
    assert ThiefOk(s, s.thieves[who]);
  }

  /** An owner's pop never returns through an empty cell. */
  lemma PopHoldsElement(s: State)
    requires Reachable(s)
    ensures match s.owner
      case PopFix(_, won, p) => won ==> p.Box?
      case Swap(ToPop(p), _) => p.Box?
      case Retire(ToPop(p), _) => p.Box?
      case Reclaim(ToPop(p)) => p.Box?
      case Free(ToPop(p)) => p.Box?
      case PopRead(b, t) => b >= t && Shape(s) && Cell(ActiveBuf(s), b).Box?
      case _ => true
  {
    ReachableInv(s);
  }

  /** Buffers are freed at most once, never while active, and never while a thief may read them. */
  lemma MemorySafe(s: State)
    requires Reachable(s)
    ensures forall k: nat :: k < |s.bufs| ==>
      (if k == s.active then 1 else 0) + multiset(InHand(s))[k] + multiset(s.retired)[k] + multiset(s.freed)[k] == 1
    ensures forall i :: 0 <= i < |s.thieves| && s.thieves[i].Holding? ==>
      s.thieves[i].buf < |s.bufs| && s.thieves[i].buf !in s.freed
  {
    ReachableInv(s);
    forall k: nat | k < |s.bufs|
      ensures (if k == s.active then 1 else 0) + multiset(InHand(s))[k]
            + multiset(s.retired)[k] + multiset(s.freed)[k] == 1
    {
      BufferPlaces(s, k);
    }
    forall i | 0 <= i < |s.thieves| && s.thieves[i].Holding?
      ensures s.thieves[i].buf < |s.bufs| && s.thieves[i].buf !in s.freed
    {
      assert ThiefOk(s, s.thieves[i]);
    }
  }

  /** Why reclaiming is safe: `in_flight` counts the thieves inside their section exactly, so when it reads 0
      no thief holds any buffer; and from that read until the retired list is freed no thief comes to hold one
      of its buffers. An inline deque never frees. */
  lemma ReclaimHarmsNobody(s: State, who: nat)
    requires Reachable(s)
    ensures s.kind.Boxed? ==> s.inFlight == CountIn(s.thieves)
    ensures s.kind.Boxed? && s.inFlight == 0 && who < |s.thieves| ==> !InSection(s.thieves[who])
    ensures s.owner.Free? && who < |s.thieves| && s.thieves[who].Holding? ==> s.thieves[who].buf !in s.retired
    ensures s.kind.Inline? ==> s.freed == []
  {
    ReachableInv(s);
    if who < |s.thieves| {
      CountInZero(s.thieves, who);
      assert ThiefOk(s, s.thieves[who]);
    }
  }

  /** `resized` is only ever asked for a buffer that leaves one cell spare. */
  lemma ResizeAssertionHolds(s: State)
    requires Reachable(s)
    ensures Shape(s)
    ensures s.owner.PushTop? && s.owner.b - s.top >= Cap(s) - 1 ==> 0 <= s.owner.b - s.top <= Cap(s) * 2 - 1
    ensures s.owner.PopRead? && s.owner.t < s.owner.b && Shrinks(Cap(s), s.owner.b, s.owner.t) ==>
      0 <= s.owner.b - s.owner.t <= Max(Cap(s) / 2, MIN_CAPACITY) - 1
  {
    ReachableInv(s);
  }

  // ---------------------------------------------------------------- linearisation

  /** An operation on the sequential deque, youngest element last. */
  datatype Op = Nothing | PushBack(id: nat) | PopBack(id: nat) | PopFront(who: nat, id: nat)

  predicate Legal(q: seq<nat>, op: Op) {
    match op
    case Nothing => true
    case PushBack(_) => true
    case PopBack(id) => q != [] && q[|q| - 1] == id
    case PopFront(_, id) => q != [] && q[0] == id
  }

  function Perform(q: seq<nat>, op: Op): seq<nat>
    requires Legal(q, op)
  {
    match op
    case Nothing => q
    case PushBack(id) => q + [id]
    case PopBack(_) => q[..|q| - 1]
    case PopFront(_, _) => q[1..]
  }

  /** The one step at which each operation takes effect. */
  function LinearPoint(s: State, st: Step): Op
  {
    match st
    case OwnerStep => (
      match s.owner
      case PushPublish(_) => PushBack(s.hist.pushed)
      case PopTop(b) => if s.top < b && |s.hist.arr| > 0 then PopBack(s.hist.arr[|s.hist.arr| - 1]) else Nothing
      case PopCas(b, p) => if s.top == b && p.Box? then PopBack(p.id) else Nothing
      case _ => Nothing)
    case ThiefStep(who, _) =>
      if who < |s.thieves| && s.thieves[who].Claiming? && s.thieves[who].t == s.top && s.thieves[who].p.Box?
      then PopFront(who, s.thieves[who].p.id) else Nothing
    case _ => Nothing
  }

  lemma SameContents(s: State, s1: State)
    requires Indices(s) && Indices(s1) && s1.top == s.top && s1.hist.arr == s.hist.arr
    ensures Contents(s1) == Contents(s)
  {
  }

  lemma PublishLinearises(s: State, b: int)
    requires Indices(s) && s.owner == PushPublish(b)
    ensures Contents(OwnerNext(s)) == Contents(s) + [s.hist.pushed]
  {
    assert OwnerNext(s).hist.arr == s.hist.arr + [s.hist.pushed];
  }

  lemma PopLinearises(s: State, b: int)
    requires Indices(s) && OwnerOk(s) && s.owner == PopTop(b)
    ensures Indices(OwnerNext(s))
    ensures s.top < b ==> Contents(s) == Contents(OwnerNext(s)) + [s.hist.arr[|s.hist.arr| - 1]]
    ensures s.top >= b ==> Contents(s) == Contents(OwnerNext(s))
  {
    if s.top < b {
      var s1 := OwnerNext(s);
      assert s1.hist.arr == s.hist.arr[..|s.hist.arr| - 1];
      ServesStill(ActiveBuf(s), s.top, s.hist.arr, s.top, s1.hist.arr);
    }
  }

  lemma OwnerStepSilent(s: State)
    requires Shape(s) && !s.owner.PushPublish? && !s.owner.PopTop? && !s.owner.PopCas?
    ensures OwnerNext(s).top == s.top && OwnerNext(s).hist.arr == s.hist.arr
  {
  }

  lemma OwnerStepLinearises(s: State)
    requires Indices(s) && OwnerOk(s) && Indices(OwnerNext(s))
    ensures Legal(Contents(s), LinearPoint(s, OwnerStep))
    ensures Contents(OwnerNext(s)) == Perform(Contents(s), LinearPoint(s, OwnerStep))
  {
    if s.owner.PushPublish? {
      PublishLinearises(s, s.owner.b);
    } else if s.owner.PopTop? {
      PopLinearises(s, s.owner.b);
    } else if s.owner.PopCas? {
      CasForPopTakesLast(s, s.owner.b, s.owner.p);
    } else {
      OwnerStepSilent(s);
      SameContents(s, OwnerNext(s));
    }
  }

  lemma ThiefStepSilent(s: State, who: nat, wild: Ptr)
    requires Shape(s) && who < |s.thieves|
    requires !s.thieves[who].Claiming? || s.thieves[who].t != s.top
    ensures ThiefNext(s, who, wild).top == s.top && ThiefNext(s, who, wild).hist.arr == s.hist.arr
  {
  }

  lemma WinLinearises(s: State, who: nat, wild: Ptr)
    requires Indices(s) && ThievesOk(s)
    requires who < |s.thieves| && s.thieves[who].Claiming? && s.thieves[who].t == s.top
    requires Indices(ThiefNext(s, who, wild))
    ensures Legal(Contents(s), LinearPoint(s, ThiefStep(who, wild)))
    ensures Contents(ThiefNext(s, who, wild)) == Perform(Contents(s), LinearPoint(s, ThiefStep(who, wild)))
  {
    ClaimTakesOldest(s, who, wild);
  }

  lemma ThiefStepLinearises(s: State, who: nat, wild: Ptr)
    requires Indices(s) && ThievesOk(s) && who < |s.thieves|
    requires Indices(ThiefNext(s, who, wild))
    ensures Legal(Contents(s), LinearPoint(s, ThiefStep(who, wild)))
    ensures Contents(ThiefNext(s, who, wild)) == Perform(Contents(s), LinearPoint(s, ThiefStep(who, wild)))
  {
    if s.thieves[who].Claiming? && s.thieves[who].t == s.top {
      WinLinearises(s, who, wild);
    } else {
      ThiefStepSilent(s, who, wild);
      SameContents(s, ThiefNext(s, who, wild));
    }
  }

  lemma StepLinearises(s: State, st: Step, s1: State)
    requires Inv(s) && Next(s, st, s1) && Indices(s1)
    ensures Legal(Contents(s), LinearPoint(s, st))
    ensures Contents(s1) == Perform(Contents(s), LinearPoint(s, st))
  {
    match st
    case OwnerStep => OwnerStepLinearises(s);
    case ThiefStep(who, wild) => ThiefStepLinearises(s, who, wild);
    case StartPush => SameContents(s, s1);
    case StartPop => SameContents(s, s1);
  }

  /** Linearisability: at each step of a run the machine performs at most one operation of the
      sequential deque, and a legal one. */
  lemma RunLinearises(r: Run<State, Step>, kind: Kind, cap: nat, thieves: nat, i: nat)
    requires IsRun(r, kind, cap, thieves) && i < |r.steps|
    ensures Indices(r.states[i]) && Indices(r.states[i + 1])
    ensures var op := LinearPoint(r.states[i], r.steps[i]);
      && Legal(Contents(r.states[i]), op)
      && Contents(r.states[i + 1]) == Perform(Contents(r.states[i]), op)
  {
    RunInv(r, kind, cap, thieves, i);
    RunInv(r, kind, cap, thieves, i + 1);
    StepLinearises(r.states[i], r.steps[i], r.states[i + 1]);
  }

  /** A steal that reports `Empty` saw no element but one the owner's pop had already claimed. */
  lemma EmptyStealIsHonest(s: State, who: nat)
    requires Reachable(s)
    requires who < |s.thieves| && s.thieves[who].GotTop? && s.bottom - s.thieves[who].t <= 0
    ensures 0 <= s.top <= |s.hist.arr| && |Contents(s)| <= 1
    ensures Contents(s) != [] ==> s.owner.PopTop? || s.owner.PopRead? || s.owner.PopCas?
  {
    ReachableInv(s);
    assert ThiefOk(s, s.thieves[who]);
  }

  /** A pop that returns `None` did so because the deque was empty when it read `top`,
      or when a thief beat it to the last element. */
  lemma EmptyPopIsHonest(s: State)
    requires Reachable(s)
    ensures 0 <= s.top <= |s.hist.arr|
    ensures s.owner.PopTop? && s.owner.b < s.top ==> Contents(s) == []
    ensures s.owner.PopCas? && s.top != s.owner.b ==> Contents(s) == []
  {
    ReachableInv(s);
  }

  // ---------------------------------------------------------------- drop

  ghost predicate Quiet(s: State) {
    s.owner.Idle? && forall i :: 0 <= i < |s.thieves| ==> s.thieves[i].Away?
  }

  lemma QuietState(s: State)
    requires Reachable(s) && s.owner.Idle?
    ensures Shape(s) && 0 <= s.top <= |s.hist.arr| == s.bottom
    ensures forall i :: s.top <= i < s.bottom ==> Cell(ActiveBuf(s), i) == Box(s.hist.arr[i])
    ensures multiset{s.active} + multiset(s.retired) + multiset(s.freed) == multiset(Upto(|s.bufs|))
    ensures s.kind.Inline? ==> s.freed == []
  {
    ReachableInv(s);
  }

  /** The first loop of `Drop for Inner`: free the box behind every live cell, skipping null ones. */
  method DropElements(buf: Buffer, bottom: int, top: int) returns (boxes: seq<Ptr>)
    requires |buf.cells| > 0
    requires forall i :: top <= i < bottom ==> Cell(buf, i).Box?
    ensures |boxes| == Max(bottom - top, 0)
    ensures forall k :: 0 <= k < |boxes| ==> boxes[k] == Cell(buf, top + k)
  {
    boxes := [];
    var count := Max(bottom - top, 0);
    for k := 0 to count
      invariant |boxes| == k
      invariant forall j :: 0 <= j < k ==> boxes[j] == Cell(buf, top + j)
    {
      var p := Cell(buf, top + k);
      if p.Box? {
        boxes := boxes + [p];
      }
    }
  }

  /** The second loop: the active buffer goes first, then the retired list node by node. */
  method DropBuffers(active: nat, retired: seq<nat>) returns (buffers: seq<nat>)
    ensures multiset(buffers) == multiset{active} + multiset(retired)
  {
    buffers := [active];
    var node := retired;
    while node != []
      invariant multiset(buffers) + multiset(node) == multiset{active} + multiset(retired)
      decreases |node|
    {
      assert node == [node[0]] + node[1..];
      buffers := buffers + [node[0]];
      node := node[1..];
    }
  }

  /** Dropping the last handle frees each element still in a boxed deque once and nothing else, and then
      every buffer ever allocated has been freed exactly once; inline elements need no freeing. */
  method Drop(s: State) returns (boxes: seq<Ptr>, buffers: seq<nat>)
    requires Reachable(s) && Quiet(s)
    ensures 0 <= s.top <= |s.hist.arr|
    ensures s.kind.Boxed? ==> |boxes| == |Contents(s)|
    ensures s.kind.Boxed? ==> forall k :: 0 <= k < |boxes| ==> boxes[k] == Box(Contents(s)[k])
    ensures s.kind.Inline? ==> boxes == [] && s.freed == []
    ensures multiset(buffers) + multiset(s.freed) == multiset(Upto(|s.bufs|))
  {
    QuietState(s);
    boxes := [];
    if s.kind.Boxed? {
      boxes := DropElements(ActiveBuf(s), s.bottom, s.top);
    }
    buffers := DropBuffers(s.active, s.retired);
  }
}

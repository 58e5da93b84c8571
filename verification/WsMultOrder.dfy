/** When exactly a consumer of src/idempotent.rs goes back, or is given a task again. */
module WsMultOrder {
  import opened Numbers
  import opened Runs
  import opened Deliveries
  import opened WsMult
  import opened WsMultSafety
  import opened WsMultTheorems

  datatype Consumer = Owner | Handle(u: nat)

  /** All that the consumer was given so far. */
  function Had(s: State, c: Consumer): seq<Got> {
    match c
    case Owner => s.took
    case Handle(u) => if u < |s.thieves| then s.thieves[u].got else []
  }

  /** The index the consumer's running call works on. */
  function Working(s: State, c: Consumer): Option<nat> {
    match c
    case Owner => if s.owner.TakeMax? then Some(s.owner.h) else None
    case Handle(u) => if u < |s.thieves| then Index(s.thieves[u].pc) else None
  }

  function Index(pc: ThiefPc): (i: Option<nat>)
    ensures forall h: nat :: i == Some(h) <==> At(pc, h)
  {
    match pc
    case Resting => None
    case LoadArray(h) => Some(h)
    case LoadCell(h, _, _) => Some(h)
    case ClaimFlag(h, _, _) => Some(h)
    case Nudge(h) => Some(h)
    case Advance(h, _) => Some(h)
    case WeakRead(h, _) => Some(h)
    case WeakStore(h, _) => Some(h)
  }

  /** The owner, or a handle not made weak. */
  ghost predicate Plain(s: State, c: Consumer) {
    c.Handle? ==> c.u < |s.thieves| && !s.thieves[c.u].kind.Weak?
  }

  /** The first index past the consumer's latest one. */
  function Past(got: seq<Got>): nat {
    if got == [] then 0 else got[|got| - 1].index + 1
  }

  // ---------------------------------------------------------------- one step

  /** What a step may do to a consumer: begin a call with the `head` of the moment, go on with it, give it up,
      or end it by delivering. */
  ghost predicate Moves(s: State, s1: State, c: Consumer) {
    || (Had(s1, c) == Had(s, c) && Working(s1, c).None?)
    || (Had(s1, c) == Had(s, c) && Working(s, c).None? && Working(s1, c) == Some(s.head))
    || (Had(s1, c) == Had(s, c) && Working(s1, c) == Working(s, c))
    || (Working(s, c).Some? && Working(s1, c).None? && Working(s, c).value < s1.maxHead
        && Had(s1, c) == Had(s, c) + [Got(Working(s, c).value, Working(s, c).value)])
  }

  lemma OwnerMoves(s: State, c: Consumer)
    requires Inv(s) && Shape(s) && Plain(s, c)
    ensures Moves(s, OwnerNext(s), c) && Plain(OwnerNext(s), c)
  {
  }

  lemma ThiefMoves(s: State, u: nat)
    requires u < |s.thieves| && ThiefOk(s, s.thieves[u]) && Plain(s, Handle(u))
    ensures Moves(s, ThiefNext(s, u), Handle(u)) && Plain(ThiefNext(s, u), Handle(u))
  {
  }

  lemma ThiefLeaves(s: State, u: nat)
    requires u < |s.thieves| && ThiefShape(s, s.thieves[u])
    ensures Others(s, ThiefNext(s, u), u)
    ensures ThiefNext(s, u).took == s.took && ThiefNext(s, u).owner == s.owner
  {
  }

  lemma StartMoves(s: State, c: Consumer)
    requires Inv(s) && Shape(s) && Plain(s, c) && s.owner.Idle?
    ensures Moves(s, BeginPut(s), c) && Plain(BeginPut(s), c)
    ensures Moves(s, BeginTake(s), c) && Plain(BeginTake(s), c)
  {
  }

  lemma StealMoves(s: State, u: nat, kind: Kind, c: Consumer)
    requires Enabled(s, StartSteal(u, kind)) && Plain(s, c)
    ensures Moves(s, BeginSteal(s, u, kind), c) && Plain(BeginSteal(s, u, kind), c)
  {
  }

  lemma AnyThiefMoves(s: State, u: nat, c: Consumer)
    requires Inv(s) && u < |s.thieves| && ThiefShape(s, s.thieves[u]) && Plain(s, c)
    ensures Moves(s, ThiefNext(s, u), c) && Plain(ThiefNext(s, u), c)
  {
    if c == Handle(u) {
      assert ThiefOk(s, s.thieves[u]);
      ThiefMoves(s, u);
    } else {
      ThiefLeaves(s, u);
    }
  }

  lemma StepMoves(s: State, st: Step, s1: State, c: Consumer)
    requires Inv(s) && Next(s, st, s1) && Plain(s, c)
    ensures Moves(s, s1, c) && Plain(s1, c)
  {
    match st
    case StartPut => StartMoves(s, c);
    case StartTake => StartMoves(s, c);
    case OwnerStep => OwnerMoves(s, c);
    case StartSteal(u, kind) => StealMoves(s, u, kind, c);
    case ThiefStep(u) => AnyThiefMoves(s, u, c);
  }

  lemma MovesAt(r: Run<State, Step>, c: Consumer, k: nat)
    requires IsRun(r) && k < |r.steps| && Plain(r.states[0], c)
    ensures Plain(r.states[k], c) && Moves(r.states[k], r.states[k + 1], c)
  {
    forall m | 0 <= m < |r.states| - 1 && Plain(r.states[m], c)
      ensures Plain(r.states[m + 1], c)
    {
      RunInv(r, m);
      StepMoves(r.states[m], r.steps[m], r.states[m + 1], c);
    }
    InvAlong(r.states, (s: State) => Plain(s, c), k);
    RunInv(r, k);
    StepMoves(r.states[k], r.steps[k], r.states[k + 1], c);
  }

  // ---------------------------------------------------------------- calls

  /** The call under way in state `k` loaded `head` at step `i`. */
  ghost predicate LoadedAt(r: Run<State, Step>, c: Consumer, i: nat, k: nat) {
    && i < k < |r.states| && Working(r.states[i], c).None?
    && forall m :: i < m <= k ==> Working(r.states[m], c) == Some(r.states[i].head)
  }

  /** Step `e` gives the consumer a task. */
  ghost predicate Delivers(r: Run<State, Step>, c: Consumer, e: nat) {
    e + 1 < |r.states| && Had(r.states[e + 1], c) != Had(r.states[e], c)
  }

  /** A `take` or steal that loads `head` at step `i` and delivers at step `e`. */
  ghost predicate Call(r: Run<State, Step>, c: Consumer, i: nat, e: nat) {
    LoadedAt(r, c, i, e) && Delivers(r, c, e)
  }

  ghost predicate MovesInto(r: Run<State, Step>, c: Consumer, k: nat) {
    0 < k < |r.states| ==> Moves(r.states[k - 1], r.states[k], c)
  }

  /** A call under way loaded the `head` of its first step, and nothing was delivered since. */
  lemma {:induction false} LoadOf(r: Run<State, Step>, c: Consumer, k: nat) returns (i: nat)
    requires k < |r.states| && Working(r.states[k], c).Some?
    requires Working(r.states[0], c).None? && forall m: nat :: MovesInto(r, c, m)
    ensures LoadedAt(r, c, i, k) && Had(r.states[k], c) == Had(r.states[i], c)
  {
    assert MovesInto(r, c, k);
    if Working(r.states[k - 1], c).None? {
      i := k - 1;
    } else {
      i := LoadOf(r, c, k - 1);
    }
  }

  lemma IdleIsBefore(r: Run<State, Step>, c: Consumer, i: nat, i1: nat, k: nat)
    requires LoadedAt(r, c, i, k) && i1 < k && Working(r.states[i1], c).None?
    ensures i1 <= i
  {
  }

  lemma LoadUnique(r: Run<State, Step>, c: Consumer, i: nat, i1: nat, k: nat)
    requires LoadedAt(r, c, i, k) && LoadedAt(r, c, i1, k)
    ensures i == i1
  {
    IdleIsBefore(r, c, i, i1, k);
    IdleIsBefore(r, c, i1, i, k);
  }

  /** Every delivery belongs to one call, and is of the index that call loaded. */
  lemma CallOf(r: Run<State, Step>, c: Consumer, e: nat) returns (i: nat)
    requires IsRun(r) && Plain(r.states[0], c) && Delivers(r, c, e)
    ensures Call(r, c, i, e) && forall i1: nat :: Call(r, c, i1, e) ==> i1 == i
    ensures Had(r.states[e], c) == Had(r.states[i], c)
    ensures Had(r.states[e + 1], c) == Had(r.states[i], c) + [Got(r.states[i].head, r.states[i].head)]
  {
    forall m: nat
      ensures MovesInto(r, c, m)
    {
      if 0 < m < |r.states| {
        MovesAt(r, c, m - 1);
      }
    }
    assert MovesInto(r, c, e + 1);
    i := LoadOf(r, c, e);
    forall i1: nat | Call(r, c, i1, e)
      ensures i1 == i
    {
      LoadUnique(r, c, i, i1, e);
    }
  }

  // ---------------------------------------------------------------- order

  lemma IncreasingAppend(got: seq<Got>, h: nat)
    ensures Increasing(got + [Got(h, h)]) <==> Increasing(got) && Past(got) <= h
  {
    var longer := got + [Got(h, h)];
    if Increasing(longer) {
      assert forall j :: 0 <= j < |got| ==> longer[j] == got[j];
      assert got != [] ==> longer[|got| - 1].index < longer[|got|].index;
    }
  }

  /** A `take`, or a steal by a handle that is not weak, keeps an increasing consumer increasing exactly when the
      `head` it loads is past the consumer's latest index. */
  lemma CallKeepsOrderIff(r: Run<State, Step>, c: Consumer, i: nat, e: nat)
    requires IsRun(r) && Plain(r.states[0], c) && Call(r, c, i, e) && Increasing(Had(r.states[i], c))
    ensures Increasing(Had(r.states[e + 1], c)) <==> Past(Had(r.states[i], c)) <= r.states[i].head
  {
    var i1 := CallOf(r, c, e);
    assert i1 == i;
    IncreasingAppend(Had(r.states[i], c), r.states[i].head);
  }

  /** Before step `i` the shared `head` fell from `x` or more to less, and has not been back up since. */
  ghost predicate FellBelow(r: Run<State, Step>, i: nat, x: nat) {
    exists j: nat :: j < i && HeadFalls(r, j) && x <= r.states[j].head && StaysBelow(r, j, i, x)
  }

  ghost predicate StaysBelow(r: Run<State, Step>, j: nat, i: nat, x: nat) {
    i < |r.states| && forall k :: j < k <= i ==> r.states[k].head < x
  }

  ghost predicate MaxSoFar(r: Run<State, Step>, k: nat) {
    k < |r.states| ==> r.states[k].maxHead == if k == 0 then 0 else Max(r.states[k - 1].maxHead, r.states[k].head)
  }

  lemma RunMaxSoFar(r: Run<State, Step>, k: nat)
    requires IsRun(r)
    ensures MaxSoFar(r, k)
  {
    if 0 < k < |r.states| {
      RunInv(r, k - 1);
      MaxHeadOrigin(r.states[k - 1], r.steps[k - 1], r.states[k]);
    }
  }

  lemma {:induction false} BelowMeansFell(r: Run<State, Step>, i: nat, x: nat)
    requires forall k: nat :: MaxSoFar(r, k)
    requires i < |r.states| == |r.steps| + 1 && r.states[i].head < x <= r.states[i].maxHead
    ensures FellBelow(r, i, x)
  {
    assert MaxSoFar(r, i);
    if i > 0 {
      if r.states[i - 1].head < x {
        BelowMeansFell(r, i - 1, x);
        var j: nat :| j < i - 1 && HeadFalls(r, j) && x <= r.states[j].head && StaysBelow(r, j, i - 1, x);
        assert StaysBelow(r, j, i, x);
      } else {
        assert HeadFalls(r, i - 1) && StaysBelow(r, i - 1, i, x);
      }
    }
  }

  /** The largest `head` so far follows `head` up. */
  lemma MaxHeadOrigin(s: State, st: Step, s1: State)
    requires HeadOk(s) && Next(s, st, s1)
    ensures s1.maxHead == Max(s.maxHead, s1.head)
  {
    if st.ThiefStep? {
      ThiefMaxHead(s, st.u);
    }
  }

  lemma ThiefMaxHead(s: State, u: nat)
    requires HeadOk(s) && u < |s.thieves| && ThiefShape(s, s.thieves[u])
    ensures ThiefNext(s, u).maxHead == Max(s.maxHead, ThiefNext(s, u).head)
  {
  }

  lemma {:induction false} HadBelowMax(r: Run<State, Step>, c: Consumer, n: nat)
    requires IsRun(r) && n < |r.states| && Plain(r.states[0], c)
    ensures AllBelow(Had(r.states[n], c), r.states[n].maxHead)
  {
    if n > 0 {
      HadBelowMax(r, c, n - 1);
      MovesAt(r, c, n - 1);
      MaxHeadStep(r.states[n - 1], r.steps[n - 1]);
    }
  }

  /** `head` is not past an index the consumer has had exactly when it fell back from past it. */
  lemma FellIff(r: Run<State, Step>, c: Consumer, i: nat, x: nat)
    requires IsRun(r) && i < |r.states| && Plain(r.states[0], c)
    requires x == Past(Had(r.states[i], c)) || (x > 0 && Has(Had(r.states[i], c), x - 1))
    ensures FellBelow(r, i, x) <==> r.states[i].head < x
  {
    HadBelowMax(r, c, i);
    if r.states[i].head < x {
      forall k: nat
        ensures MaxSoFar(r, k)
      {
        RunMaxSoFar(r, k);
      }
      BelowMeansFell(r, i, x);
    }
  }

  /** Step `e` ends a call that loaded `head` after it had fallen to the consumer's latest index or below. */
  ghost predicate GoesBack(r: Run<State, Step>, c: Consumer, e: nat) {
    exists i: nat :: Call(r, c, i, e) && FellBelow(r, i, Past(Had(r.states[i], c)))
  }

  lemma OrderStep(r: Run<State, Step>, c: Consumer, k: nat)
    requires IsRun(r) && k < |r.steps| && Plain(r.states[0], c)
    ensures Increasing(Had(r.states[k + 1], c)) <==> Increasing(Had(r.states[k], c)) && !GoesBack(r, c, k)
  {
    if Delivers(r, c, k) {
      var i := CallOf(r, c, k);
      FellIff(r, c, i, Past(Had(r.states[i], c)));
      IncreasingAppend(Had(r.states[i], c), r.states[i].head);
    }
  }

  /** Over whole runs: the indices of a consumer, the owner or a handle that is not weak, fail to increase exactly
      when one of its own calls loaded `head` after it had fallen to the latest index or below. */
  lemma OrderBreaksIff(r: Run<State, Step>, c: Consumer, n: nat)
    requires IsRun(r) && n < |r.states| && Plain(r.states[0], c)
    ensures !Increasing(Had(r.states[n], c)) <==> exists e: nat :: e < n && GoesBack(r, c, e)
  {
    var up := (k: nat) => k < |r.states| && Increasing(Had(r.states[k], c));
    var marked := (e: nat) => GoesBack(r, c, e);
    forall k: nat | k < n
      ensures up(k + 1) <==> up(k) && !marked(k)
    {
      OrderStep(r, c, k);
    }
    assert Had(r.states[0], c) == [];
    UpUnlessMarked(up, marked, n);
    assert forall e: nat :: marked(e) <==> GoesBack(r, c, e);
  }

  // ---------------------------------------------------------------- repetition

  /** Step `e` ends a call that loaded index `x` although the consumer already had it, `head` having fallen
      back. */
  ghost predicate Repeats(r: Run<State, Step>, c: Consumer, x: nat, e: nat) {
    exists i: nat :: Call(r, c, i, e) && r.states[i].head == x && Has(Had(r.states[i], c), x) && FellBelow(r, i, x + 1)
  }

  lemma TimesAppend(got: seq<Got>, h: nat, x: nat)
    ensures Times(got + [Got(h, h)], x) == Times(got, x) + if h == x then 1 else 0
  {
    assert (got + [Got(h, h)])[..|got|] == got;
  }

  lemma RepeatStep(r: Run<State, Step>, c: Consumer, x: nat, k: nat)
    requires IsRun(r) && k < |r.steps| && Plain(r.states[0], c)
    ensures Times(Had(r.states[k + 1], c), x) <= 1 <==> Times(Had(r.states[k], c), x) <= 1 && !Repeats(r, c, x, k)
  {
    if Delivers(r, c, k) {
      var i := CallOf(r, c, k);
      TimesAppend(Had(r.states[i], c), r.states[i].head, x);
      TimesHas(Had(r.states[i], c), x);
      if Has(Had(r.states[i], c), x) {
        FellIff(r, c, i, x + 1);
      }
    }
  }

  /** Over whole runs: a consumer is given task `x` more than once exactly when one of its own calls loaded
      `head == x` after it had had `x`, which takes a `head` that fell back to `x`. */
  lemma RepeatsIff(r: Run<State, Step>, c: Consumer, x: nat, n: nat)
    requires IsRun(r) && n < |r.states| && Plain(r.states[0], c)
    ensures Times(Had(r.states[n], c), x) >= 2 <==> exists e: nat :: e < n && Repeats(r, c, x, e)
  {
    var up := (k: nat) => k < |r.states| && Times(Had(r.states[k], c), x) <= 1;
    var marked := (e: nat) => Repeats(r, c, x, e);
    forall k: nat | k < n
      ensures up(k + 1) <==> up(k) && !marked(k)
    {
      RepeatStep(r, c, x, k);
    }
    assert Had(r.states[0], c) == [];
    UpUnlessMarked(up, marked, n);
    assert forall e: nat :: marked(e) <==> Repeats(r, c, x, e);
  }

  // ---------------------------------------------------------------- empty answers

  /** The other `Empty` answer, of an exclusive steal that lost the claim: another thief took that task, and has
      delivered it or is about to. */
  lemma LostClaimMeans(s: State, u: nat)
    requires Reachable(s) && u < |s.thieves| && s.thieves[u].pc.Nudge?
    ensures s.thieves[u].kind.Exclusive?
    ensures Delivered(s, s.thieves[u].pc.h) || InHand(s, s.thieves[u].pc.h)
  {
    ReachableInv(s);
    assert ThiefOk(s, s.thieves[u]);
    TakenMeans(s, s.thieves[u].pc.h);
  }
}

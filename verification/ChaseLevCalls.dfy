/** Linearisability over calls: a completed call of the Chase-Lev deque performs exactly the operation it
    answers with, at one step inside its interval. */
module ChaseLevCalls {
  import opened Numbers
  import opened Runs
  import opened ChaseLev
  import opened ChaseLevSafety
  import opened ChaseLevTheorems

  // ---------------------------------------------------------------- calls

  /** The operation that a step performs on the sequential deque, if any. */
  function Ops(op: Op): seq<Op> {
    if op.Nothing? then [] else [op]
  }

  function OwnersOp(s: State, st: Step): seq<Op> {
    if st.ThiefStep? then [] else Ops(LinearPoint(s, st))
  }

  function ThiefsOp(s: State, st: Step, who: nat): seq<Op> {
    if st.ThiefStep? && st.who == who then Ops(LinearPoint(s, st)) else []
  }

  /** What the owner performs in steps `i..j` of a run. */
  function OwnerOps(r: Run<State, Step>, i: nat, j: nat): seq<Op>
    requires i <= j <= |r.steps| < |r.states|
  {
    if i == j then [] else OwnerOps(r, i, j - 1) + OwnersOp(r.states[j - 1], r.steps[j - 1])
  }

  /** What thief `who` performs in steps `i..j` of a run. */
  function ThiefOps(r: Run<State, Step>, who: nat, i: nat, j: nat): seq<Op>
    requires i <= j <= |r.steps| < |r.states|
  {
    if i == j then [] else ThiefOps(r, who, i, j - 1) + ThiefsOp(r.states[j - 1], r.steps[j - 1], who)
  }

  /** The owner is inside a call that started at step `i`, from there up to state `j`. */
  ghost predicate OwnerInside(r: Run<State, Step>, i: nat, j: nat) {
    && i < j <= |r.steps| < |r.states|
    && r.states[i].owner.Idle? && (r.steps[i].StartPush? || r.steps[i].StartPop?)
    && forall k :: i < k <= j ==> !r.states[k].owner.Idle?
  }

  /** A completed call of the owner: started at step `i`, returned at step `j`. */
  ghost predicate OwnerCall(r: Run<State, Step>, i: nat, j: nat) {
    && i <= j < |r.steps| < |r.states|
    && r.states[i].owner.Idle? && (r.steps[i].StartPush? || r.steps[i].StartPop?)
    && (forall k :: i < k <= j ==> !r.states[k].owner.Idle?) && r.states[j + 1].owner.Idle?
  }

  ghost predicate ThiefInside(r: Run<State, Step>, who: nat, i: nat, j: nat) {
    && i < j <= |r.steps| < |r.states|
    && (forall k :: i <= k <= j ==> who < |r.states[k].thieves|)
    && r.states[i].thieves[who].Away? && r.steps[i].ThiefStep? && r.steps[i].who == who
    && forall k :: i < k <= j ==> !r.states[k].thieves[who].Away?
  }

  /** A completed steal of thief `who`. */
  ghost predicate ThiefCall(r: Run<State, Step>, who: nat, i: nat, j: nat) {
    && i <= j < |r.steps| < |r.states|
    && (forall k :: i <= k <= j + 1 ==> who < |r.states[k].thieves|)
    && r.states[i].thieves[who].Away? && r.steps[i].ThiefStep? && r.steps[i].who == who
    && (forall k :: i < k <= j ==> !r.states[k].thieves[who].Away?) && r.states[j + 1].thieves[who].Away?
  }

  // ---------------------------------------------------------------- the owner

  ghost predicate InPush(o: Owner) {
    match o
    case PushTop(_) => true
    case PushWrite(_) => true
    case PushPublish(_) => true
    case Swap(k, _) => k.ToPush?
    case Retire(k, _) => k.ToPush?
    case Reclaim(k) => k.ToPush?
    case Free(k) => k.ToPush?
    case _ => false
  }

  function ResumeOps(k: Resume): seq<Op> {
    if k.ToPop? && k.p.Box? then [PopBack(k.p.id)] else []
  }

  /** What a call in progress has performed so far. */
  function Done(s: State): seq<Op> {
    match s.owner
    case PopRead(b, t) => if t < b && s.hist.secured != [] then [PopBack(s.hist.secured[0])] else []
    case PopFix(_, won, p) => if won && p.Box? then [PopBack(p.id)] else []
    case Swap(k, _) => ResumeOps(k)
    case Retire(k, _) => ResumeOps(k)
    case Reclaim(k) => ResumeOps(k)
    case Free(k) => ResumeOps(k)
    case _ => []
  }

  lemma ThiefLeavesOwner(s: State, who: nat, wild: Ptr)
    requires Shape(s) && who < |s.thieves|
    ensures var s1 := ThiefNext(s, who, wild);
      && s1.owner == s.owner && s1.hist.pushed == s.hist.pushed && Done(s1) == Done(s)
      && InPush(s1.owner) == InPush(s.owner)
  {
  }

  lemma ResizeGoesOn(s: State)
    requires Indices(s) && OwnerOk(s) && !OwnerNext(s).owner.Idle?
    requires s.owner.Swap? || s.owner.Retire? || s.owner.Reclaim? || s.owner.Free?
    ensures Done(OwnerNext(s)) == Done(s) && LinearPoint(s, OwnerStep).Nothing?
    ensures InPush(OwnerNext(s).owner) == InPush(s.owner) && OwnerNext(s).hist.pushed == s.hist.pushed
  {
  }

  lemma PushGoesOn(s: State)
    requires Indices(s) && OwnerOk(s) && !OwnerNext(s).owner.Idle?
    requires s.owner.PushTop? || s.owner.PushWrite? || s.owner.PushPublish?
    ensures Done(OwnerNext(s)) == Done(s) + Ops(LinearPoint(s, OwnerStep))
    ensures InPush(OwnerNext(s).owner) == InPush(s.owner) && OwnerNext(s).hist.pushed == s.hist.pushed
  {
  }

  lemma PopGoesOn(s: State)
    requires Indices(s) && OwnerOk(s) && !OwnerNext(s).owner.Idle?
    requires s.owner.PopTop? || s.owner.PopRestore? || s.owner.PopRead? || s.owner.PopCas? || s.owner.PopFix?
    ensures Done(OwnerNext(s)) == Done(s) + Ops(LinearPoint(s, OwnerStep))
    ensures InPush(OwnerNext(s).owner) == InPush(s.owner) && OwnerNext(s).hist.pushed == s.hist.pushed
  {
  }

  lemma OwnerGoesOn(s: State)
    requires Indices(s) && OwnerOk(s) && !s.owner.Idle? && !OwnerNext(s).owner.Idle?
    ensures Done(OwnerNext(s)) == Done(s) + Ops(LinearPoint(s, OwnerStep))
    ensures InPush(OwnerNext(s).owner) == InPush(s.owner) && OwnerNext(s).hist.pushed == s.hist.pushed
  {
    if s.owner.Swap? || s.owner.Retire? || s.owner.Reclaim? || s.owner.Free? {
      ResizeGoesOn(s);
    } else if s.owner.PushTop? || s.owner.PushWrite? || s.owner.PushPublish? {
      PushGoesOn(s);
    } else {
      PopGoesOn(s);
    }
  }

  lemma PushReturns(s: State)
    requires Indices(s) && OwnerOk(s) && InPush(s.owner) && OwnerNext(s).owner.Idle?
    ensures Done(s) + Ops(LinearPoint(s, OwnerStep)) == [PushBack(s.hist.pushed)]
    ensures OwnerNext(s).hist.pushed == s.hist.pushed + 1 && OwnerNext(s).hist.out == s.hist.out
  {
  }

  /** The answer of a pop that returns from state `s`. */
  ghost predicate PopAnswers(s: State, s1: State, ops: seq<Op>)
    requires Indices(s)
  {
    if ops == [] then s1.hist.out == s.hist.out && Contents(s) == []
    else |ops| == 1 && ops[0].PopBack? && s1.hist.out == s.hist.out + [ByOwner(ops[0].id)]
  }

  lemma PopReturns(s: State)
    requires Indices(s) && OwnerOk(s) && !s.owner.Idle? && !InPush(s.owner) && OwnerNext(s).owner.Idle?
    ensures LinearPoint(s, OwnerStep).Nothing? && PopAnswers(s, OwnerNext(s), Done(s))
    ensures OwnerNext(s).hist.pushed == s.hist.pushed
  {
  }

  lemma CallStarts(s: State, st: Step)
    requires Shape(s) && s.owner.Idle? && (st.StartPush? || st.StartPop?)
    ensures Done(Apply(s, st)) == [] && InPush(Apply(s, st).owner) == st.StartPush? && !Apply(s, st).owner.Idle?
    ensures Apply(s, st).hist == s.hist && LinearPoint(s, st).Nothing?
  {
  }

  lemma StepAt(r: Run<State, Step>, kind: Kind, cap: nat, thieves: nat, k: nat)
    requires IsRun(r, kind, cap, thieves) && k < |r.steps|
    ensures Inv(r.states[k]) && Next(r.states[k], r.steps[k], r.states[k + 1])
  {
    RunInv(r, kind, cap, thieves, k);
  }

  /** What a step does to the call the owner is in. */
  ghost predicate CallGoesOn(s: State, st: Step, s1: State) {
    && (!s.owner.Idle? && !s1.owner.Idle? ==>
          && Done(s1) == Done(s) + OwnersOp(s, st) && InPush(s1.owner) == InPush(s.owner)
          && s1.hist.pushed == s.hist.pushed)
    && (s.owner.Idle? && (st.StartPush? || st.StartPop?) ==>
          && Done(s1) == [] && OwnersOp(s, st) == [] && InPush(s1.owner) == st.StartPush?
          && s1.hist.pushed == s.hist.pushed)
  }

  lemma StepGoesOn(s: State, st: Step, s1: State)
    requires Inv(s) && Next(s, st, s1)
    ensures CallGoesOn(s, st, s1)
  {
    if st.ThiefStep? {
      ThiefLeavesOwner(s, st.who, st.wild);
    } else if st.OwnerStep? {
      if !s1.owner.Idle? {
        OwnerGoesOn(s);
      }
    } else {
      CallStarts(s, st);
    }
  }

  ghost predicate GoesOnAt(r: Run<State, Step>, k: nat) {
    k < |r.steps| && k + 1 < |r.states| ==> CallGoesOn(r.states[k], r.steps[k], r.states[k + 1])
  }

  lemma RunGoesOn(r: Run<State, Step>, kind: Kind, cap: nat, thieves: nat)
    requires IsRun(r, kind, cap, thieves)
    ensures forall k: nat :: GoesOnAt(r, k)
  {
    forall k: nat
      ensures GoesOnAt(r, k)
    {
      if k < |r.steps| {
        StepAt(r, kind, cap, thieves, k);
        StepGoesOn(r.states[k], r.steps[k], r.states[k + 1]);
      }
    }
  }

  /** Up to any point inside a call, the owner has performed what its program counter says. */
  lemma {:induction false} OwnerSoFar(r: Run<State, Step>, i: nat, j: nat)
    requires OwnerInside(r, i, j) && forall k: nat :: GoesOnAt(r, k)
    ensures OwnerOps(r, i, j) == Done(r.states[j])
    ensures InPush(r.states[j].owner) == r.steps[i].StartPush?
    ensures r.states[j].hist.pushed == r.states[i].hist.pushed
    decreases j
  {
    assert GoesOnAt(r, j - 1);
    if i == j - 1 {
      assert OwnerOps(r, i, i) == [];
    } else {
      OwnerSoFar(r, i, j - 1);
    }
  }

  /** The step at which a call returns is the owner's own. */
  lemma ReturnIsOwn(s: State, st: Step, s1: State)
    requires Next(s, st, s1) && !s.owner.Idle? && s1.owner.Idle?
    ensures st.OwnerStep?
  {
    if st.ThiefStep? {
      ThiefLeavesOwner(s, st.who, st.wild);
    }
  }

  /** A completed push performs exactly one operation inside its interval: it adds the element it was called
      with at the young end. */
  lemma PushCall(r: Run<State, Step>, kind: Kind, cap: nat, thieves: nat, i: nat, j: nat)
    requires IsRun(r, kind, cap, thieves) && OwnerCall(r, i, j) && r.steps[i].StartPush?
    ensures OwnerOps(r, i, j + 1) == [PushBack(r.states[i].hist.pushed)]
    ensures r.states[j + 1].hist.pushed == r.states[i].hist.pushed + 1
  {
    StepAt(r, kind, cap, thieves, i);
    CallStarts(r.states[i], r.steps[i]);
    RunGoesOn(r, kind, cap, thieves);
    OwnerSoFar(r, i, j);
    StepAt(r, kind, cap, thieves, j);
    ReturnIsOwn(r.states[j], r.steps[j], r.states[j + 1]);
    PushReturns(r.states[j]);
  }

  /** A completed pop that returns an element performs exactly one operation inside its interval: it removes
      that element from the young end. One that returns `None` performs none, and the deque was empty inside
      its interval. */
  lemma PopCall(r: Run<State, Step>, kind: Kind, cap: nat, thieves: nat, i: nat, j: nat)
    requires IsRun(r, kind, cap, thieves) && OwnerCall(r, i, j) && r.steps[i].StartPop?
    ensures Indices(r.states[j]) && PopAnswers(r.states[j], r.states[j + 1], OwnerOps(r, i, j + 1))
    ensures r.states[j + 1].hist.pushed == r.states[i].hist.pushed
  {
    StepAt(r, kind, cap, thieves, i);
    CallStarts(r.states[i], r.steps[i]);
    RunGoesOn(r, kind, cap, thieves);
    OwnerSoFar(r, i, j);
    StepAt(r, kind, cap, thieves, j);
    ReturnIsOwn(r.states[j], r.steps[j], r.states[j + 1]);
    PopReturns(r.states[j]);
  }

  // ---------------------------------------------------------------- thieves

  /** A steal that goes on has performed nothing in this step. */
  ghost predicate SilentAt(r: Run<State, Step>, who: nat, k: nat) {
    k < |r.steps| && k + 1 < |r.states| && who < |r.states[k + 1].thieves| && !r.states[k + 1].thieves[who].Away? ==>
      ThiefsOp(r.states[k], r.steps[k], who) == []
  }

  lemma StealGoesOn(s: State, st: Step, s1: State, who: nat)
    requires Next(s, st, s1) && who < |s1.thieves| && !s1.thieves[who].Away?
    ensures ThiefsOp(s, st, who) == []
  {
  }

  lemma RunSilent(r: Run<State, Step>, kind: Kind, cap: nat, thieves: nat, who: nat)
    requires IsRun(r, kind, cap, thieves)
    ensures forall k: nat :: SilentAt(r, who, k)
  {
    forall k: nat
      ensures SilentAt(r, who, k)
    {
      if k < |r.steps| && who < |r.states[k + 1].thieves| && !r.states[k + 1].thieves[who].Away? {
        StepAt(r, kind, cap, thieves, k);
        StealGoesOn(r.states[k], r.steps[k], r.states[k + 1], who);
      }
    }
  }

  lemma {:induction false} StealSoFar(r: Run<State, Step>, who: nat, i: nat, j: nat)
    requires ThiefInside(r, who, i, j) && forall k: nat :: SilentAt(r, who, k)
    ensures ThiefOps(r, who, i, j) == []
    decreases j
  {
    assert SilentAt(r, who, j - 1);
    if i < j - 1 {
      StealSoFar(r, who, i, j - 1);
    } else {
      assert ThiefOps(r, who, i, i) == [];
    }
  }

  lemma OthersKeepThief(s: State, st: Step, s1: State, who: nat)
    requires Next(s, st, s1) && who < |s.thieves| && who < |s1.thieves|
    requires !(st.ThiefStep? && st.who == who)
    ensures s1.thieves[who] == s.thieves[who]
  {
  }

  /** The answer of a steal that returns from state `s`: the element it removed from the old end; or `Retry`,
      when another call has moved `top` since; or `Empty`, when at most one element was left, and only one that
      a running pop had already lowered `bottom` past. */
  ghost predicate StealAnswers(s: State, s1: State, who: nat, ops: seq<Op>)
    requires Indices(s) && who < |s.thieves|
  {
    if ops != [] then
      && |ops| == 1 && ops[0].PopFront? && ops[0].who == who
      && s1.hist.out == s.hist.out + [ByThief(who, ops[0].id)]
    else
      && s1.hist.out == s.hist.out
      && (s.thieves[who].Claiming? || s.thieves[who].GotTop?)
      && (s.thieves[who].Claiming? ==> s.thieves[who].t < s.top)
      && (s.thieves[who].GotTop? ==> |Contents(s)| <= 1)
      && (s.thieves[who].GotTop? && Contents(s) != [] ==> s.owner.PopTop? || s.owner.PopRead? || s.owner.PopCas?)
  }

  lemma StealReturns(s: State, who: nat, wild: Ptr)
    requires Indices(s) && OwnerOk(s) && ThievesOk(s) && who < |s.thieves| && !s.thieves[who].Away?
    requires ThiefNext(s, who, wild).thieves[who].Away?
    ensures StealAnswers(s, ThiefNext(s, who, wild), who, Ops(LinearPoint(s, ThiefStep(who, wild))))
  {
    assert ThiefOk(s, s.thieves[who]);
  }

  /** A completed steal performs at most one operation inside its interval, at its last step: the one it
      answers with. */
  lemma StealCall(r: Run<State, Step>, kind: Kind, cap: nat, thieves: nat, who: nat, i: nat, j: nat)
    requires IsRun(r, kind, cap, thieves) && ThiefCall(r, who, i, j)
    ensures Indices(r.states[j]) && StealAnswers(r.states[j], r.states[j + 1], who, ThiefOps(r, who, i, j + 1))
  {
    StepAt(r, kind, cap, thieves, i);
    RunSilent(r, kind, cap, thieves, who);
    StealSoFar(r, who, i, j);
    StepAt(r, kind, cap, thieves, j);
    var s, st, s1 := r.states[j], r.steps[j], r.states[j + 1];
    if !(st.ThiefStep? && st.who == who) {
      OthersKeepThief(s, st, s1, who);
      assert false;
    }
    StealReturns(s, who, st.wild);
  }

  /** After an `Empty` answer that passed over an element, no further thief gets to it: while the owner's pop
      has `bottom` lowered past the last element, no thief that still has to look at `bottom` goes on. */
  lemma NoneArmsWhileLowered(s: State, who: nat, wild: Ptr)
    requires Reachable(s) && who < |s.thieves| && s.thieves[who].GotTop?
    requires s.owner.PopTop? || s.owner.PopRead? || s.owner.PopCas?
    requires s.thieves[who].t == s.top && s.owner.b == s.top
    ensures Shape(s) && ThiefNext(s, who, wild).thieves[who].Away?
  {
    ReachableInv(s);
  }

  /** The owner's pop has lowered `bottom` past the last element `x`, and nobody has removed it yet. */
  ghost predicate Racing(s: State, x: nat) {
    && Indices(s) && Contents(s) == [x]
    && (s.owner.PopTop? || s.owner.PopCas? || (s.owner.PopRead? && s.owner.t == s.owner.b))
    && s.owner.b == s.bottom == s.top
  }

  /** The thief read `top` as it is now, and saw an element below `bottom`. */
  ghost predicate Armed(s: State, u: nat) {
    u < |s.thieves| && !s.thieves[u].Away? && !s.thieves[u].GotTop? && s.thieves[u].t == s.top
  }

  /** An `Empty` answer with an element left comes while a pop races for it. */
  lemma EmptyWhileRacing(s: State, who: nat, wild: Ptr)
    requires Inv(s) && who < |s.thieves| && s.thieves[who].GotTop? && Contents(s) != []
    requires ThiefNext(s, who, wild).thieves[who].Away?
    ensures Racing(s, Contents(s)[0]) && LinearPoint(s, ThiefStep(who, wild)).Nothing?
  {
    assert ThiefOk(s, s.thieves[who]);
    assert Contents(s) == [Contents(s)[0]];
  }

  /** The operation that settles the race: the pop's own, or that of a thief already armed. */
  ghost predicate Settles(s: State, op: Op, x: nat) {
    op == PopBack(x) || (op.PopFront? && op.id == x && Armed(s, op.who))
  }

  lemma OwnerRaces(s: State, x: nat)
    requires Inv(s) && Racing(s, x)
    ensures var op := LinearPoint(s, OwnerStep);
      if op.Nothing? then Racing(OwnerNext(s), x) || !Indices(OwnerNext(s)) else Settles(s, op, x)
  {
    assert s.hist.arr[s.top] == Contents(s)[0];
    if s.owner.PopRead? {
      assert OwnerNext(s).hist.arr == s.hist.arr;
    }
  }

  lemma ThiefRaces(s: State, u: nat, wild: Ptr, x: nat)
    requires Inv(s) && Racing(s, x) && u < |s.thieves|
    ensures var op := LinearPoint(s, ThiefStep(u, wild));
      if op.Nothing? then Racing(ThiefNext(s, u, wild), x) || !Indices(ThiefNext(s, u, wild)) else Settles(s, op, x)
  {
    assert s.hist.arr[s.top] == Contents(s)[0];
    assert ThiefOk(s, s.thieves[u]);
  }

  lemma RaceGoesOn(s: State, st: Step, s1: State, x: nat)
    requires Inv(s) && Next(s, st, s1) && Inv(s1) && Racing(s, x)
    ensures if LinearPoint(s, st).Nothing? then Racing(s1, x) else Settles(s, LinearPoint(s, st), x)
  {
    match st
    case OwnerStep => OwnerRaces(s, x);
    case ThiefStep(u, wild) => ThiefRaces(s, u, wild, x);
    case _ =>
  }

  lemma UnarmedStays(s: State, st: Step, s1: State, x: nat, u: nat)
    requires Next(s, st, s1) && Racing(s, x) && Racing(s1, x) && !Armed(s, u)
    ensures !Armed(s1, u)
  {
    match st
    case OwnerStep => assert s1.thieves == s.thieves;
    case _ =>
  }

  /** Steps `j..e` of the run perform nothing. */
  ghost predicate NothingFrom(r: Run<State, Step>, j: nat, e: nat) {
    && j <= e <= |r.steps| < |r.states|
    && forall k :: j <= k < e ==> LinearPoint(r.states[k], r.steps[k]).Nothing?
  }

  /** Step `k` of the run carries the race on, and arms nobody. */
  ghost predicate CarriesRace(r: Run<State, Step>, k: nat, x: nat) {
    k < |r.steps| && k + 1 < |r.states| && Racing(r.states[k], x) && LinearPoint(r.states[k], r.steps[k]).Nothing? ==>
      Racing(r.states[k + 1], x) && forall u: nat :: Armed(r.states[k + 1], u) ==> Armed(r.states[k], u)
  }

  lemma RunCarriesRace(r: Run<State, Step>, kind: Kind, cap: nat, thieves: nat, x: nat)
    requires IsRun(r, kind, cap, thieves)
    ensures forall k: nat :: CarriesRace(r, k, x)
  {
    forall k: nat
      ensures CarriesRace(r, k, x)
    {
      if k < |r.steps| && Racing(r.states[k], x) {
        StepAt(r, kind, cap, thieves, k);
        RunInv(r, kind, cap, thieves, k + 1);
        RaceStep(r.states[k], r.steps[k], r.states[k + 1], x);
      }
    }
  }

  lemma RaceStep(s: State, st: Step, s1: State, x: nat)
    requires Inv(s) && Next(s, st, s1) && Inv(s1) && Racing(s, x)
    ensures LinearPoint(s, st).Nothing? ==>
      Racing(s1, x) && forall u: nat :: Armed(s1, u) ==> Armed(s, u)
  {
    RaceGoesOn(s, st, s1, x);
    if LinearPoint(s, st).Nothing? {
      forall u: nat | !Armed(s, u)
        ensures !Armed(s1, u)
      {
        UnarmedStays(s, st, s1, x, u);
      }
    }
  }

  lemma {:induction false} RacingUntil(r: Run<State, Step>, j: nat, e: nat, x: nat)
    requires NothingFrom(r, j, e) && Racing(r.states[j], x) && forall k: nat :: CarriesRace(r, k, x)
    ensures Racing(r.states[e], x)
    ensures forall u: nat :: Armed(r.states[e], u) ==> Armed(r.states[j], u)
    decreases e
  {
    if j < e {
      RacingUntil(r, j, e - 1, x);
      assert CarriesRace(r, e - 1, x);
    }
  }

  /** Between the `Empty` answer of step `j` and the next operation, at step `e`, the element `x` that was passed
      over is all there is; that operation removes it, and the call it belongs to was under way before step `j`
      and is so until step `e`. */
  ghost predicate RemovedByAnother(r: Run<State, Step>, j: nat, e: nat, x: nat)
    requires j <= e < |r.steps| < |r.states|
  {
    var op := LinearPoint(r.states[e], r.steps[e]);
    && (forall k :: j <= k <= e ==> Racing(r.states[k], x))
    && Indices(r.states[e + 1]) && Contents(r.states[e + 1]) == []
    && (op == PopBack(x)
        || (op.PopFront? && op.id == x && forall k :: j <= k <= e ==> Armed(r.states[k], op.who)))
  }

  /** Where an `Empty` answer belongs that passes over the last element `x`: right after the removal of `x`,
      which comes next in the order of operations and belongs to a call that is under way all the while. Placed
      just before step `j`, the removal is inside its own call and hands the deque empty to the answer. */
  lemma EmptyFitsIn(r: Run<State, Step>, kind: Kind, cap: nat, thieves: nat, who: nat, i: nat, j: nat, e: nat)
    requires IsRun(r, kind, cap, thieves) && ThiefCall(r, who, i, j) && r.states[j].thieves[who].GotTop?
    requires 0 <= r.states[j].top < |r.states[j].hist.arr|
    requires e < |r.steps| && NothingFrom(r, j, e) && !LinearPoint(r.states[e], r.steps[e]).Nothing?
    ensures j < e && RemovedByAnother(r, j, e, Contents(r.states[j])[0])
  {
    StealCall(r, kind, cap, thieves, who, i, j);
    StepAt(r, kind, cap, thieves, j);
    AnswerStep(r.states[j], r.steps[j], r.states[j + 1], who);
    var x := Contents(r.states[j])[0];
    RunCarriesRace(r, kind, cap, thieves, x);
    forall k | j <= k <= e
      ensures Racing(r.states[k], x)
      ensures forall u: nat :: Armed(r.states[e], u) ==> Armed(r.states[k], u)
    {
      RacingUntil(r, j, k, x);
      RacingUntil(r, k, e, x);
    }
    StepAt(r, kind, cap, thieves, e);
    RunInv(r, kind, cap, thieves, e + 1);
    RaceGoesOn(r.states[e], r.steps[e], r.states[e + 1], x);
    RunLinearises(r, kind, cap, thieves, e);
  }

  lemma AnswerStep(s: State, st: Step, s1: State, who: nat)
    requires Inv(s) && Next(s, st, s1) && Contents(s) != []
    requires who < |s.thieves| && who < |s1.thieves| && s.thieves[who].GotTop? && s1.thieves[who].Away?
    ensures Racing(s, Contents(s)[0]) && LinearPoint(s, st).Nothing?
  {
    if st.ThiefStep? && st.who == who {
      EmptyWhileRacing(s, who, st.wild);
    } else {
      OthersKeepThief(s, st, s1, who);
    }
  }

  // ---------------------------------------------------------------- calls end

  function AfterLeft(k: Resume): nat {
    if k.ToPush? then 2 else 0
  }

  /** Bounds the steps that the owner's call still needs. */
  function OwnerLeft(o: Owner): nat {
    match o
    case Idle => 0
    case PushTop(_) => 7
    case PushWrite(_) => 2
    case PushPublish(_) => 1
    case PopTop(_) => 6
    case PopRestore(_) => 1
    case PopRead(_, _) => 5
    case PopCas(_, _) => 2
    case PopFix(_, _, _) => 1
    case Swap(k, _) => AfterLeft(k) + 4
    case Retire(k, _) => AfterLeft(k) + 3
    case Reclaim(k) => AfterLeft(k) + 2
    case Free(k) => AfterLeft(k) + 1
  }

  function ThiefLeft(th: Thief): nat {
    match th
    case Away => 0
    case GotTop(_) => 6
    case Entering(_) => 5
    case Entered(_) => 4
    case Holding(_, _) => 3
    case Leaving(_, _) => 2
    case Claiming(_, _) => 1
  }

  lemma OwnerShortens(s: State)
    requires Shape(s) && !s.owner.Idle?
    ensures OwnerLeft(OwnerNext(s).owner) < OwnerLeft(s.owner) && OwnerNext(s).thieves == s.thieves
  {
  }

  lemma ThiefShortens(s: State, who: nat, wild: Ptr)
    requires Shape(s) && who < |s.thieves| && !s.thieves[who].Away?
    ensures who < |ThiefNext(s, who, wild).thieves|
    ensures ThiefLeft(ThiefNext(s, who, wild).thieves[who]) < ThiefLeft(s.thieves[who])
  {
  }

  /** Every call is wait-free: each step of its own brings it closer to its end, within seven steps but for the first,
      and no step of anybody else sets it back. */
  lemma CallsEnd(s: State, st: Step, who: nat)
    requires Reachable(s) && Enabled(s, st) && who < |s.thieves|
    ensures Shape(s) && who < |Apply(s, st).thieves|
    ensures !s.owner.Idle? ==>
      if st.OwnerStep? then OwnerLeft(Apply(s, st).owner) < OwnerLeft(s.owner) else Apply(s, st).owner == s.owner
    ensures !s.thieves[who].Away? ==>
      if st.ThiefStep? && st.who == who then ThiefLeft(Apply(s, st).thieves[who]) < ThiefLeft(s.thieves[who])
      else Apply(s, st).thieves[who] == s.thieves[who]
  {
    ReachableInv(s);
    match st
    case OwnerStep => OwnerShortens(s);
    case ThiefStep(u, wild) =>
      ThiefLeavesOwner(s, u, wild);
      if u == who && !s.thieves[who].Away? {
        ThiefShortens(s, u, wild);
      } else if u != who {
        OthersKeepThief(s, st, Apply(s, st), who);
      }
    case _ =>
  }

  /** Nobody ever waits: an idle owner may push or pop, a call under way may go on, and so may every thief. */
  lemma NobodyWaits(s: State, who: nat, wild: Ptr)
    requires Reachable(s)
    ensures if s.owner.Idle? then Enabled(s, StartPush) && Enabled(s, StartPop) else Enabled(s, OwnerStep)
    ensures who < |s.thieves| ==> Enabled(s, ThiefStep(who, wild))
  {
  }

  // ---------------------------------------------------------------- capacity

  /** A push that looks at `top` grows the buffer exactly when the deque is full, to twice its capacity; one that
      does not look has room. */
  lemma GrowsWhenFull(s: State)
    requires Reachable(s)
    ensures Indices(s)
    ensures s.owner.PushTop? ==>
      if |Contents(s)| == Cap(s) - 1 then OwnerNext(s).owner.Swap?
           && |OwnerNext(s).owner.spare.cells| == (if s.kind.Boxed? then 2 * Cap(s) else Max(2 * Cap(s), 16))
      else OwnerNext(s).owner.PushWrite?
    ensures s.owner.Idle? && BeginPush(s).owner.PushWrite? ==> |Contents(s)| < Cap(s) - 1
  {
    ReachableInv(s);
  }

  /** A pop shrinks the buffer exactly when what it saw left fills less than a third of it, to half but no less
      than the smallest capacity. */
  lemma ShrinksWhenSparse(s: State)
    requires Reachable(s) && s.owner.PopRead? && s.owner.t < s.owner.b
    ensures Shape(s)
    ensures if Cap(s) > 16 && s.owner.b - s.owner.t < Cap(s) / 3
            then OwnerNext(s).owner.Swap? && |OwnerNext(s).owner.spare.cells| == Max(Cap(s) / 2, 16)
            else OwnerNext(s).owner.Idle?
  {
    ReachableInv(s);
  }
}

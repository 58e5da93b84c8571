/** When the bounded queue's `produced_blocks` goes down, and when it cannot. */
module BwosFrontier {
  import opened Numbers
  import opened Runs
  import opened Bwos
  import opened BwosSafety
  import opened BwosTheorems

  // ---------------------------------------------------------------- one step

  lemma ThiefKeepsProduced(s: State, w: nat)
    requires Shape(s) && w < |s.thieves|
    ensures ThiefNext(s, w).produced == s.produced
  {
  }

  lemma OwnerMovesProduced(s: State)
    requires Shape(s)
    ensures OwnerNext(s).produced == if s.pc.PutProduced? then s.owner + 1 else s.produced
  {
  }

  /** `produced_blocks` goes down at exactly one kind of step: the store of a `put` that has moved on to a
      block which is not the last one produced. */
  lemma ProducedFallsIff(s: State, st: Step)
    requires Reachable(s) && Enabled(s, st)
    ensures Shape(s)
    ensures Apply(s, st).produced < s.produced <==>
      st.OwnerStep? && s.pc.PutProduced? && s.owner + 1 < s.produced
  {
    ReachableInv(s);
    match st
    case OwnerStep => OwnerMovesProduced(s);
    case ThiefStep(w) => ThiefKeepsProduced(s, w);
    case _ =>
  }

  // ---------------------------------------------------------------- whole runs

  /** A value was once put into block `k`. */
  ghost predicate Touched(s: State, k: nat)
    requires k < |s.blocks|
  {
    LiveEnd(s, k) > 0 || s.blocks[k].stolen > 0
  }

  ghost predicate Putting(pc: Owner) {
    pc.PutProduced? || pc.PutWrite? || pc.PutPublish?
  }

  /** The blocks up to the owner's are in use, except the one a `put` is just entering. */
  ghost predicate InUse(s: State) {
    && (forall k :: 0 <= k < |s.blocks| && k < s.owner ==> Touched(s, k))
    && (0 < s.owner < |s.blocks| && !Putting(s.pc) ==> Touched(s, s.owner))
    && (s.pc.TakeRead? ==> s.pc.b > 0)
  }

  /** As long as no advance was bad, the blocks the owner stepped back from all have `stolen > 0`, so an
      advance to one with `stolen == 0` goes past the last block produced. */
  ghost predicate Frontier(s: State) {
    s.kind.Fixed? && !s.hist.dirty ==>
      (forall k :: s.owner < k < s.produced && k < |s.blocks| ==> s.blocks[k].stolen > 0)
      && (s.pc.PutProduced? ==> s.produced <= s.owner)
  }

  ghost predicate FrontierInv(s: State) {
    Inv(s) && (s.kind.Fixed? ==> InUse(s)) && Frontier(s)
  }

  lemma BeginPutInUse(s: State)
    requires Shape(s) && s.pc.Idle? && s.kind.Fixed? && InUse(s)
    ensures InUse(BeginPut(s))
  {
    var s1 := BeginPut(s);
    forall k | 0 <= k < |s1.blocks| && k < s1.owner
      ensures Touched(s1, k)
    {
      assert k < s.owner ==> Touched(s, k);
    }
  }

  lemma OwnerInUse(s: State)
    requires Shape(s) && OwnerOk(s) && s.kind.Fixed? && InUse(s)
    ensures InUse(OwnerNext(s))
  {
    var s1 := OwnerNext(s);
    assert BlockShape(s, s.owner);
    forall k | 0 <= k < |s1.blocks| && k < s1.owner
      ensures Touched(s1, k)
    {
      assert Touched(s, k);
    }
    if s.pc.PopLook? && s1.owner != s.owner && s1.owner > 0 {
      assert Touched(s, s1.owner);
    }
  }

  lemma ThiefInUse(s: State, w: nat)
    requires Shape(s) && w < |s.thieves| && InUse(s)
    ensures InUse(ThiefNext(s, w))
  {
    var s1 := ThiefNext(s, w);
    forall k | 0 <= k < |s1.blocks|
      ensures Touched(s, k) ==> Touched(s1, k)
    {
    }
  }

  lemma StepInUse(s: State, st: Step)
    requires Shape(s) && OwnerOk(s) && s.kind.Fixed? && InUse(s) && Enabled(s, st)
    ensures InUse(Apply(s, st))
  {
    match st
    case StartPut => BeginPutInUse(s);
    case OwnerStep => OwnerInUse(s);
    case ThiefStep(w) => ThiefInUse(s, w);
    case _ =>
      forall k | 0 <= k < |s.blocks|
        ensures Touched(Apply(s, st), k) <==> Touched(s, k)
      {
      }
  }

  lemma OwnerFrontier(s: State)
    requires Shape(s) && s.kind.Fixed? && InUse(s) && Frontier(s)
    ensures Frontier(OwnerNext(s))
  {
    assert BlockShape(s, s.owner);
  }

  lemma StepFrontier(s: State, st: Step)
    requires Shape(s) && s.kind.Fixed? && InUse(s) && Frontier(s) && Enabled(s, st)
    ensures Frontier(Apply(s, st))
  {
    if st.OwnerStep? {
      OwnerFrontier(s);
    }
  }

  lemma KindStays(s: State, st: Step)
    requires Shape(s) && Enabled(s, st)
    ensures Apply(s, st).kind == s.kind
  {
  }

  lemma FrontierKept(s: State, st: Step, s1: State)
    requires FrontierInv(s) && Next(s, st, s1)
    ensures FrontierInv(s1)
  {
    NextKeeps(s, st, s1);
    KindStays(s, st);
    if s.kind.Fixed? {
      StepInUse(s, st);
      StepFrontier(s, st);
    }
  }

  lemma RunFrontier(r: Run<State, Step>, n: nat)
    requires IsRun(r) && n < |r.states|
    ensures FrontierInv(r.states[n])
  {
    forall k | 0 <= k < |r.states| - 1 && FrontierInv(r.states[k])
      ensures FrontierInv(r.states[k + 1])
    {
      FrontierKept(r.states[k], r.steps[k], r.states[k + 1]);
    }
    InitInv(r.states[0]);
    InvAlong(r.states, FrontierInv, n);
  }

  /** A run in which every advance found `stolen == 0` never lowers `produced_blocks`. */
  lemma CleanRunsOnlyProduce(r: Run<State, Step>, n: nat)
    requires IsRun(r) && n < |r.steps|
    requires forall i :: 0 <= i < n ==> !BadAdvance(r.states[i], r.steps[i])
    ensures r.states[n].produced <= r.states[n + 1].produced
  {
    var s, st := r.states[n], r.steps[n];
    RunFrontier(r, n);
    DirtyIff(r, n);
    assert Next(s, st, r.states[n + 1]);
    StepProduces(s, st);
  }

  lemma StepProduces(s: State, st: Step)
    requires FrontierInv(s) && !s.hist.dirty && Enabled(s, st)
    ensures s.produced <= Apply(s, st).produced
  {
    match st
    case OwnerStep => OwnerMovesProduced(s);
    case ThiefStep(w) => ThiefKeepsProduced(s, w);
    case _ =>
  }
}

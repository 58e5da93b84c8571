/** The bounds under which the 64-bit deque simulates the unbounded one, said of its own runs. */
module WrappedBounds {
  import opened Numbers
  import opened Runs
  import opened Isize
  import opened ChaseLev
  import opened ChaseLevSafety
  import opened ChaseLevTheorems
  import opened Wrapped
  import opened WrappedSafety
  import opened WrappedTheorems

  /** How often `top` changed from state `m` of a run to state `n`. */
  function TopMoves(states: seq<WState>, m: nat, n: nat): nat
    requires m <= n < |states|
  {
    if m == n then 0 else TopMoves(states, m, n - 1) + if states[n].top != states[n - 1].top then 1 else 0
  }

  /** In state `n` thief `who` is in a steal that read `top` in state `m`. */
  ghost predicate Stealing(w: Run<WState, Step>, who: nat, m: nat, n: nat) {
    && m < n < |w.states| && m < |w.steps|
    && w.steps[m].ThiefStep? && w.steps[m].who == who
    && (forall i :: m <= i <= n ==> who < |w.states[i].thieves|)
    && w.states[m].thieves[who].WAway?
    && (forall i :: m < i <= n ==> !w.states[i].thieves[who].WAway?)
  }

  /** No buffer outgrows 2^61 cells; no thief lets `top` advance 2^62 times before it looks at `bottom`, or
      2^64 times before its CAS. */
  ghost predicate Brief(w: Run<WState, Step>) {
    && (forall n :: 0 <= n < |w.states| && WShape(w.states[n]) ==> WCap(w.states[n]) <= HALF / 4)
    && (forall who: nat, m: nat, n: nat :: Stealing(w, who, m, n) ==>
          && (w.states[n].thieves[who].WGotTop? ==> TopMoves(w.states, m, n) < HALF / 2)
          && (w.states[n].thieves[who].WClaiming? ==> TopMoves(w.states, m, n) < WORD))
  }

  // ---------------------------------------------------------------- what a step does to top and thieves

  lemma OwnerTop(s: State)
    requires Shape(s)
    ensures OwnerNext(s).top == s.top || OwnerNext(s).top == s.top + 1
  {
  }

  lemma TopStep(s: State, st: Step, s1: State)
    requires Next(s, st, s1)
    ensures s1.top == s.top || s1.top == s.top + 1
    ensures |s1.thieves| == |s.thieves|
  {
    if st.OwnerStep? {
      OwnerTop(s);
    }
  }

  /** A steal keeps the `top` it read to its end. */
  lemma ThiefStep1(s: State, st: Step, s1: State, who: nat)
    requires Next(s, st, s1) && who < |s.thieves| && |s1.thieves| == |s.thieves|
    ensures s.thieves[who].Away? && !s1.thieves[who].Away? ==>
      st.ThiefStep? && st.who == who && s1.thieves[who] == GotTop(s.top)
    ensures !s.thieves[who].Away? && !s1.thieves[who].Away? ==> s1.thieves[who].t == s.thieves[who].t
  {
    if st.OwnerStep? {
      OwnerTop(s);
    }
  }

  lemma RunStep(r: Run<State, Step>, kind: Kind, cap: nat, thieves: nat, i: nat)
    requires IsRun(r, kind, cap, thieves) && i < |r.steps|
    ensures Next(r.states[i], r.steps[i], r.states[i + 1])
  {
  }

  lemma {:induction false} ThievesStay(r: Run<State, Step>, kind: Kind, cap: nat, thieves: nat, n: nat)
    requires IsRun(r, kind, cap, thieves) && n < |r.states|
    ensures |r.states[n].thieves| == thieves
  {
    if n > 0 {
      ThievesStay(r, kind, cap, thieves, n - 1);
      RunStep(r, kind, cap, thieves, n - 1);
      TopStep(r.states[n - 1], r.steps[n - 1], r.states[n]);
    }
  }

  // ---------------------------------------------------------------- where a steal began

  ghost predicate Began(r: Run<State, Step>, who: nat, m: nat, n: nat) {
    && m < n < |r.states| && m < |r.steps|
    && r.steps[m].ThiefStep? && r.steps[m].who == who
    && (forall i :: m <= i <= n ==> who < |r.states[i].thieves|)
    && r.states[m].thieves[who].Away?
    && (forall i :: m < i <= n ==> !r.states[i].thieves[who].Away?)
    && r.states[n].thieves[who].t == r.states[m].top
  }

  lemma {:induction false} StealBegan(r: Run<State, Step>, kind: Kind, cap: nat, thieves: nat, who: nat, n: nat)
    returns (m: nat)
    requires IsRun(r, kind, cap, thieves) && n < |r.states|
    requires who < |r.states[n].thieves| && !r.states[n].thieves[who].Away?
    ensures Began(r, who, m, n)
  {
    ThievesStay(r, kind, cap, thieves, n);
    if n > 0 {
      ThievesStay(r, kind, cap, thieves, n - 1);
      RunStep(r, kind, cap, thieves, n - 1);
      ThiefStep1(r.states[n - 1], r.steps[n - 1], r.states[n], who);
      if r.states[n - 1].thieves[who].Away? {
        m := n - 1;
      } else {
        m := StealBegan(r, kind, cap, thieves, who, n - 1);
      }
    }
  }

  lemma {:induction false} TopMoved(w: Run<WState, Step>, r: Run<State, Step>, kind: Kind, cap: nat, thieves: nat,
                                    m: nat, n: nat)
    requires IsRun(r, kind, cap, thieves) && Mirrors(w, r) && m <= n < |r.states|
    ensures TopMoves(w.states, m, n) == r.states[n].top - r.states[m].top
    decreases n
  {
    if m < n {
      TopMoved(w, r, kind, cap, thieves, m, n - 1);
      RunStep(r, kind, cap, thieves, n - 1);
      TopStep(r.states[n - 1], r.steps[n - 1], r.states[n]);
      WrapInjective(r.states[n].top, r.states[n - 1].top);
      assert w.states[n] == Truncated(r.states[n]) && w.states[n - 1] == Truncated(r.states[n - 1]);
    }
  }

  lemma MirroredSteal(w: Run<WState, Step>, r: Run<State, Step>, who: nat, m: nat, n: nat)
    requires Mirrors(w, r) && Began(r, who, m, n)
    ensures Stealing(w, who, m, n)
  {
    forall i | m <= i <= n
      ensures who < |w.states[i].thieves| && w.states[i].thieves[who] == Th(r.states[i].thieves[who])
    {
      assert w.states[i] == Truncated(r.states[i]);
    }
  }

  lemma BottomNear(s: State)
    requires Indices(s) && OwnerOk(s)
    ensures s.bottom - s.top <= Cap(s) - 1
  {
  }

  lemma PatientThief(w: Run<WState, Step>, r: Run<State, Step>, kind: Kind, cap: nat, thieves: nat, who: nat)
    requires IsRun(r, kind, cap, thieves) && Mirrors(w, r) && Brief(w)
    requires who < |r.states[|r.steps|].thieves| && Inv(r.states[|r.steps|]) && Cap(r.states[|r.steps|]) <= HALF / 4
    ensures Patient(r.states[|r.steps|], r.states[|r.steps|].thieves[who])
  {
    var n := |r.steps|;
    var s := r.states[n];
    if !s.thieves[who].Away? {
      var m := StealBegan(r, kind, cap, thieves, who, n);
      MirroredSteal(w, r, who, m, n);
      TopMoved(w, r, kind, cap, thieves, m, n);
      assert w.states[n] == Truncated(s);
      BottomNear(s);
    }
  }

  /** The bounds said of the wrapping run itself are enough: a run that keeps its buffers below 2^61 cells
      and its steals below the wrap-around stays within the bounds of the simulation. */
  lemma BriefIsWithinBounds(w: Run<WState, Step>, kind: Kind, cap: nat, thieves: nat)
    requires IsWRun(w, kind, cap, thieves) && Brief(w)
    ensures WithinBounds(w, kind, cap, thieves)
  {
    forall r: Run<State, Step> | IsRun(r, kind, cap, thieves) && Mirrors(w, r)
      ensures Fits(r.states[|r.steps|])
    {
      var s := r.states[|r.steps|];
      RunInv(r, kind, cap, thieves, |r.steps|);
      assert w.states[|r.steps|] == Truncated(s);
      assert WShape(w.states[|r.steps|]);
      forall i | 0 <= i < |s.thieves|
        ensures Patient(s, s.thieves[i])
      {
        PatientThief(w, r, kind, cap, thieves, i);
      }
    }
  }
}

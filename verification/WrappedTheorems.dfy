/** Whole runs of the wrapping deque are runs of the unbounded one. */
module WrappedTheorems {
  import opened Numbers
  import opened Runs
  import opened Isize
  import opened ChaseLev
  import opened ChaseLevSafety
  import opened ChaseLevTheorems
  import opened Wrapped
  import opened WrappedSafety

  function WInit(kind: Kind, cap: nat, thieves: nat): WState {
    WState(kind, 0, 0, 0, WIdle, seq(thieves, i => WAway), [Alloc(cap)], 0, [], [], 0, History([], [], [], 0))
  }

  lemma InitAgrees(kind: Kind, cap: nat, thieves: nat)
    requires IsCap(cap) && cap > 0
    ensures WInit(kind, cap, thieves) == Truncated(Init(kind, cap, thieves)) && Good(Init(kind, cap, thieves))
  {
    InitInv(kind, cap, thieves);
    assert Ths(Init(kind, cap, thieves).thieves) == WInit(kind, cap, thieves).thieves;
  }

  ghost predicate WNext(w: WState, st: Step, w1: WState) {
    WShape(w) && WEnabled(w, st) && w1 == WApply(w, st)
  }

  ghost predicate IsWRun(w: Run<WState, Step>, kind: Kind, cap: nat, thieves: nat) {
    && IsCap(cap) && cap > 0
    && |w.states| == |w.steps| + 1
    && w.states[0] == WInit(kind, cap, thieves)
    && forall i :: 0 <= i < |w.steps| ==> WNext(w.states[i], w.steps[i], w.states[i + 1])
  }

  lemma EnabledAgrees(s: State, st: Step)
    ensures WEnabled(Truncated(s), st) <==> Enabled(s, st)
  {
  }

  /** One more step of both. */
  lemma NextAgrees(s: State, st: Step, w1: WState)
    requires Good(s) && Fits(s) && WNext(Truncated(s), st, w1)
    ensures Next(s, st, Apply(s, st)) && w1 == Truncated(Apply(s, st)) && Good(Apply(s, st))
  {
    EnabledAgrees(s, st);
    StepAgrees(s, st);
    StepGood(s, st);
  }

  ghost predicate Mirrors(w: Run<WState, Step>, r: Run<State, Step>) {
    && |r.steps| <= |w.steps| && r.steps == w.steps[..|r.steps|]
    && |r.states| == |r.steps| + 1 && |w.states| == |w.steps| + 1
    && forall k :: 0 <= k < |r.states| ==> w.states[k] == Truncated(r.states[k])
  }

  ghost function Longer(r: Run<State, Step>, st: Step): Run<State, Step>
    requires |r.states| > 0 && Shape(r.states[|r.states| - 1]) && Enabled(r.states[|r.states| - 1], st)
  {
    Run(r.states + [Apply(r.states[|r.states| - 1], st)], r.steps + [st])
  }

  lemma LongerIsRun(r: Run<State, Step>, kind: Kind, cap: nat, thieves: nat, st: Step)
    requires IsRun(r, kind, cap, thieves) && Shape(r.states[|r.steps|]) && Enabled(r.states[|r.steps|], st)
    ensures IsRun(Longer(r, st), kind, cap, thieves)
  {
    var r1 := Longer(r, st);
    forall i | 0 <= i < |r1.steps|
      ensures Next(r1.states[i], r1.steps[i], r1.states[i + 1])
    {
      if i < |r.steps| {
        assert Next(r.states[i], r.steps[i], r.states[i + 1]);
      }
    }
  }

  lemma WStep(w: Run<WState, Step>, kind: Kind, cap: nat, thieves: nat, i: nat)
    requires IsWRun(w, kind, cap, thieves) && i < |w.steps|
    ensures WNext(w.states[i], w.steps[i], w.states[i + 1])
  {
  }

  lemma MirrorsOneMore(w: Run<WState, Step>, r: Run<State, Step>, s1: State)
    requires Mirrors(w, r) && |r.steps| < |w.steps| && w.states[|r.steps| + 1] == Truncated(s1)
    ensures Mirrors(w, Run(r.states + [s1], r.steps + [w.steps[|r.steps|]]))
  {
    var m := |r.steps|;
    assert w.steps[..m + 1] == w.steps[..m] + [w.steps[m]];
  }

  lemma LongerMirrors(w: Run<WState, Step>, r: Run<State, Step>)
    requires Mirrors(w, r) && |r.steps| < |w.steps|
    requires Good(r.states[|r.steps|]) && Fits(r.states[|r.steps|])
    requires WNext(w.states[|r.steps|], w.steps[|r.steps|], w.states[|r.steps| + 1])
    ensures Shape(r.states[|r.steps|]) && Enabled(r.states[|r.steps|], w.steps[|r.steps|])
    ensures Mirrors(w, Longer(r, w.steps[|r.steps|]))
    ensures Good(Apply(r.states[|r.steps|], w.steps[|r.steps|]))
  {
    var m := |r.steps|;
    var s := r.states[m];
    assert w.states[m] == Truncated(s);
    NextAgrees(s, w.steps[m], w.states[m + 1]);
    MirrorsOneMore(w, r, Apply(s, w.steps[m]));
  }

  /** Simulation: a run of the wrapping deque takes the very steps of a run of the unbounded one, every
      index agreeing up to truncation, for as long as the bounds in `Fits` hold. */
  lemma {:induction false} Simulates(w: Run<WState, Step>, kind: Kind, cap: nat, thieves: nat, n: nat)
    returns (r: Run<State, Step>)
    requires IsWRun(w, kind, cap, thieves) && n <= |w.steps|
    ensures IsRun(r, kind, cap, thieves) && Mirrors(w, r) && |r.steps| <= n
    ensures |r.steps| == n || !Fits(r.states[|r.steps|])
    ensures Good(r.states[|r.steps|])
    decreases n
  {
    if n == 0 {
      InitAgrees(kind, cap, thieves);
      r := Run([Init(kind, cap, thieves)], []);
    } else {
      r := Simulates(w, kind, cap, thieves, n - 1);
      var s := r.states[|r.steps|];
      if Fits(s) {
        WStep(w, kind, cap, thieves, n - 1);
        LongerMirrors(w, r);
        LongerIsRun(r, kind, cap, thieves, w.steps[n - 1]);
        r := Longer(r, w.steps[n - 1]);
      }
    }
  }

  /** The run stays within the bounds: so does each unbounded run that mirrors a part of it. */
  ghost predicate WithinBounds(w: Run<WState, Step>, kind: Kind, cap: nat, thieves: nat) {
    forall r: Run<State, Step> :: IsRun(r, kind, cap, thieves) && Mirrors(w, r) ==> Fits(r.states[|r.steps|])
  }

  /** Within the bounds every state of a wrapping run is the truncation of a reachable unbounded state. */
  lemma StandsFor(w: Run<WState, Step>, kind: Kind, cap: nat, thieves: nat, n: nat) returns (s: State)
    requires IsWRun(w, kind, cap, thieves) && WithinBounds(w, kind, cap, thieves) && n < |w.states|
    ensures Reachable(s) && Good(s) && Fits(s) && w.states[n] == Truncated(s)
  {
    var r := Simulates(w, kind, cap, thieves, n);
    s := r.states[|r.steps|];
    assert w.states[|r.steps|] == Truncated(s);
  }

  /** How many elements the wrapped indices leave in the deque, counting one that the owner is popping. */
  function WLength(w: WState): int {
    WrappingSub(Wrap(|w.hist.arr|), w.top) as int
  }

  /** The elements thieves may still take, oldest first. */
  function WContents(w: WState): seq<nat>
    requires 0 <= WLength(w) <= |w.hist.arr|
  {
    w.hist.arr[|w.hist.arr| - WLength(w)..]
  }

  lemma SameLength(s: State)
    requires Good(s) && Fits(s)
    ensures WLength(Truncated(s)) == |s.hist.arr| - s.top && WContents(Truncated(s)) == Contents(s)
  {
    WrapDistance(|s.hist.arr|, s.top);
  }

  /** Exactly-once on the 64-bit deque, boxed or inline: in every state each pushed element is in the deque,
      secured by the owner's pop, or handed out, in one of these places, once; nothing else is anywhere. */
  lemma WrappedExactlyOnce(w: Run<WState, Step>, kind: Kind, cap: nat, thieves: nat, n: nat, id: nat)
    requires IsWRun(w, kind, cap, thieves) && WithinBounds(w, kind, cap, thieves) && n < |w.states|
    ensures var v := w.states[n];
      && 0 <= WLength(v) <= |v.hist.arr|
      && multiset(WContents(v))[id] + multiset(v.hist.secured)[id] + multiset(Ids(v.hist.out))[id]
         == if id < v.hist.pushed then 1 else 0
  {
    var s := StandsFor(w, kind, cap, thieves, n);
    SameLength(s);
    ExactlyOnce(s, id);
  }

  lemma WrappedCell(s: State, k: nat)
    requires Good(s) && Fits(s) && k < |Contents(s)|
    ensures k < HALF && IsBuffer(ActiveBuf(s))
    ensures CellAt(ActiveBuf(s), WrappingAdd(Wrap(s.top), k as ISize)) == Box(Contents(s)[k])
  {
    WrapStep(s.top, k as ISize);
    SameCell(ActiveBuf(s), s.top + k, Null);
  }

  /** Each element in the deque is found at its wrapped and masked cell of the active buffer. */
  lemma WrappedContentsReadable(w: Run<WState, Step>, kind: Kind, cap: nat, thieves: nat, n: nat, k: nat)
    requires IsWRun(w, kind, cap, thieves) && WithinBounds(w, kind, cap, thieves) && n < |w.states|
    requires k < WLength(w.states[n])
    ensures var v := w.states[n];
      && k < HALF && WLength(v) <= |v.hist.arr| && WShape(v)
      && CellAt(v.bufs[v.active], WrappingAdd(v.top, k as ISize)) == Box(WContents(v)[k])
  {
    var s := StandsFor(w, kind, cap, thieves, n);
    SameLength(s);
    WrappedCell(s, k);
  }

  function WInHand(w: WState): seq<nat> {
    if w.owner.WRetire? then [w.owner.gone] else []
  }

  /** Memory safety of the 64-bit deque: each buffer is active, in hand, retired or freed, in one of these
      places, once, and no thief about to read a buffer holds a freed one. */
  lemma WrappedMemorySafe(w: Run<WState, Step>, kind: Kind, cap: nat, thieves: nat, n: nat, k: nat, who: nat)
    requires IsWRun(w, kind, cap, thieves) && WithinBounds(w, kind, cap, thieves) && n < |w.states|
    ensures var v := w.states[n];
      && (k < |v.bufs| ==> (if k == v.active then 1 else 0) + multiset(WInHand(v))[k]
                           + multiset(v.retired)[k] + multiset(v.freed)[k] == 1)
      && (who < |v.thieves| && v.thieves[who].WHolding? ==>
            v.thieves[who].buf < |v.bufs| && v.thieves[who].buf !in v.freed)
  {
    var s := StandsFor(w, kind, cap, thieves, n);
    MemorySafe(s);
    assert WInHand(Truncated(s)) == InHand(s);
  }

  /** The owner is between lowering `bottom` and settling it. */
  ghost predicate Lowered(o: WOwner) {
    o.WPopTop? || o.WPopRestore? || o.WPopRead? || o.WPopCas? || o.WPopFix?
  }

  /** `0 <= size <= cap - 1` in wrapping arithmetic in every state of a run, also inside a push, a grow or a
      shrink; while a pop has `bottom` lowered the size can be -1, and no less. */
  lemma SizeStaysBelowCapacity(w: Run<WState, Step>, kind: Kind, cap: nat, thieves: nat, n: nat)
    requires IsWRun(w, kind, cap, thieves) && WithinBounds(w, kind, cap, thieves) && n < |w.states|
    ensures var v := w.states[n];
      && WShape(v)
      && -1 <= WrappingSub(v.bottom, v.top) as int <= WCap(v) - 1
      && (!Lowered(v.owner) ==> 0 <= WrappingSub(v.bottom, v.top) as int)
  {
    var s := StandsFor(w, kind, cap, thieves, n);
    SizeAgrees(s);
  }

  lemma SizeAgrees(s: State)
    requires Indices(s) && OwnerOk(s) && Cap(s) <= HALF / 4
    ensures WrappingSub(Wrap(s.bottom), Wrap(s.top)) as int == s.bottom - s.top
    ensures -1 <= s.bottom - s.top <= Cap(s) - 1
    ensures !Lowered(Own(s.owner)) ==> s.bottom >= s.top
  {
    WrapDistance(s.bottom, s.top);
  }
}

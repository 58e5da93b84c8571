/** What work stealing with multiplicity promises over whole runs. */
module WsMultTheorems {
  import opened Numbers
  import opened Runs
  import opened Deliveries
  import opened WsMult
  import opened WsMultSafety

  ghost predicate Next(s: State, st: Step, s1: State) {
    Shape(s) && Enabled(s, st) && s1 == Apply(s, st)
  }

  ghost predicate IsRun(r: Run<State, Step>) {
    && |r.states| == |r.steps| + 1
    && Init(r.states[0])
    && forall i :: 0 <= i < |r.steps| ==> Next(r.states[i], r.steps[i], r.states[i + 1])
  }

  lemma MaxHeadThief(s: State, u: nat)
    requires u < |s.thieves| && ThiefShape(s, s.thieves[u])
    ensures s.maxHead <= ThiefNext(s, u).maxHead
  {
  }

  lemma MaxHeadStep(s: State, st: Step)
    requires Shape(s) && Enabled(s, st)
    ensures s.maxHead <= Apply(s, st).maxHead
  {
    if st.ThiefStep? {
      MaxHeadThief(s, st.u);
    }
  }

  lemma NextKeeps(s: State, st: Step, s1: State)
    requires Inv(s) && Next(s, st, s1)
    ensures Inv(s1) && s.maxHead <= s1.maxHead
  {
    StepKeeps(s, st);
    MaxHeadStep(s, st);
  }

  lemma RunInv(r: Run<State, Step>, n: nat)
    requires IsRun(r) && n < |r.states|
    ensures Inv(r.states[n])
  {
    forall k | 0 <= k < |r.states| - 1 && Inv(r.states[k])
      ensures Inv(r.states[k + 1])
    {
      NextKeeps(r.states[k], r.steps[k], r.states[k + 1]);
    }
    InitInv(r.states[0]);
    InvAlong(r.states, Inv, n);
  }

  /** The largest value of `head` so far never goes back. */
  lemma MaxHeadGrows(r: Run<State, Step>, m: nat, n: nat)
    requires IsRun(r) && m <= n < |r.states|
    ensures r.states[m].maxHead <= r.states[n].maxHead
  {
    var later := r.states[m..];
    var high := (s: State) => Inv(s) && r.states[m].maxHead <= s.maxHead;
    forall k | 0 <= k < |later| - 1 && high(later[k])
      ensures high(later[k + 1])
    {
      NextKeeps(r.states[m + k], r.steps[m + k], r.states[m + k + 1]);
    }
    RunInv(r, m);
    InvAlong(later, high, n - m);
  }

  ghost predicate Reachable(s: State) {
    exists r: Run<State, Step> :: IsRun(r) && r.states[|r.steps|] == s
  }

  lemma ReachableInv(s: State)
    requires Reachable(s)
    ensures Inv(s)
  {
    var r: Run<State, Step> :| IsRun(r) && r.states[|r.steps|] == s;
    RunInv(r, |r.steps|);
  }

  // ---------------------------------------------------------------- delivery

  ghost predicate InHand(s: State, i: nat) {
    exists u ::
      0 <= u < |s.thieves| && s.thieves[u].kind.Exclusive? && s.thieves[u].pc.Advance? && s.thieves[u].pc.h == i
  }

  lemma TakenMeans(s: State, i: nat)
    requires Inv(s) && TakenBySome(s, i)
    ensures Delivered(s, i) || InHand(s, i)
  {
    var u :| 0 <= u < |s.thieves| && Takes(s.thieves[u], i);
    assert OnceOnly(s.thieves[u]);
    assert Has(s.thieves[u].won, i) ==> Has(s.thieves[u].got, i);
  }

  /** At least once: whatever value `head` had at any earlier time of a run, each index below it has
      since been delivered, or an exclusive thief has claimed it and is about to return it. */
  lemma DeliveredAtLeastOnce(r: Run<State, Step>, m: nat, n: nat, i: nat)
    requires IsRun(r) && m <= n < |r.states| && i < r.states[m].head
    ensures Delivered(r.states[n], i) || InHand(r.states[n], i)
  {
    RunInv(r, m);
    RunInv(r, n);
    MaxHeadGrows(r, m, n);
    var s := r.states[n];
    assert Delivered(s, i) || TakenBySome(s, i);
    if TakenBySome(s, i) {
      TakenMeans(s, i);
    }
  }

  /** What is delivered at an index is the box put there, however stale the array it was read from. */
  lemma DeliversWhatWasPut(s: State, u: nat, j: nat)
    requires Reachable(s)
    ensures u < |s.thieves| && j < |s.thieves[u].got| ==> s.thieves[u].got[j].box == s.thieves[u].got[j].index < s.boxes
    ensures j < |s.took| ==> s.took[j].box == s.took[j].index < s.boxes
  {
    ReachableInv(s);
    if u < |s.thieves| && j < |s.thieves[u].got| {
      assert ThiefOk(s, s.thieves[u]);
    }
  }

  /** A weak thief delivers strictly increasing indices, whatever `head` does. */
  lemma WeakThievesMoveOn(s: State, u: nat)
    requires Reachable(s) && u < |s.thieves| && s.thieves[u].kind.Weak?
    ensures Increasing(s.thieves[u].got)
  {
    ReachableInv(s);
    assert WeakOk(s.thieves[u]);
  }

  /** As long as `head` never went down, it is its own maximum and the indices of every consumer, the owner
      included, strictly increase. */
  lemma ConsumersMoveOn(s: State, u: nat)
    requires Reachable(s) && !s.back
    ensures s.head == s.maxHead && Increasing(s.took)
    ensures u < |s.thieves| ==> Increasing(s.thieves[u].got)
  {
    ReachableInv(s);
    if u < |s.thieves| {
      assert StrongOk(s, s.thieves[u]) && WeakOk(s.thieves[u]);
    }
  }

  // ---------------------------------------------------------------- when `head` goes down

  lemma ThiefHead(s: State, u: nat)
    requires u < |s.thieves| && ThiefShape(s, s.thieves[u])
    ensures var s1, pc := ThiefNext(s, u), s.thieves[u].pc;
      && (s1.head < s.head <==> pc.WeakStore? && pc.h + 1 < s.head)
      && (s1.back <==> s.back || s1.head < s.head)
  {
  }

  lemma OwnerHead(s: State)
    requires Shape(s)
    ensures s.head <= OwnerNext(s).head && OwnerNext(s).back == s.back
  {
  }

  /** `head` goes down at exactly one kind of step: a weak thief's plain store of an index that others have
      passed since the thief last looked. */
  lemma HeadFallsIff(s: State, st: Step)
    requires Reachable(s) && Enabled(s, st)
    ensures Shape(s)
    ensures Apply(s, st).head < s.head <==>
      st.ThiefStep? && s.thieves[st.u].pc.WeakStore? && s.thieves[st.u].pc.h + 1 < s.head
    ensures Apply(s, st).head < s.head ==> s.thieves[st.u].kind.Weak?
  {
    ReachableInv(s);
    InvShape(s);
    match st
    case OwnerStep => OwnerHead(s);
    case ThiefStep(u) =>
      ThiefHead(s, u);
      assert ThiefOk(s, s.thieves[u]);
    case _ =>
  }

  lemma BackStep(s: State, st: Step, s1: State)
    requires Next(s, st, s1)
    ensures s1.back <==> s.back || s1.head < s.head
  {
    match st
    case OwnerStep => OwnerHead(s);
    case ThiefStep(u) => ThiefHead(s, u);
    case _ =>
  }

  /** Step `i` of a run lowers `head`. */
  ghost predicate HeadFalls(r: Run<State, Step>, i: nat) {
    i < |r.steps| && i + 1 < |r.states| && r.states[i + 1].head < r.states[i].head
  }

  lemma BackIff(r: Run<State, Step>, n: nat)
    requires IsRun(r) && n < |r.states|
    ensures r.states[n].back <==> exists i: nat :: i < n && HeadFalls(r, i)
  {
    var forth := (i: nat) => i < |r.states| && !r.states[i].back;
    var falls := (i: nat) => HeadFalls(r, i);
    forall i: nat | i < n
      ensures forth(i + 1) <==> forth(i) && !falls(i)
    {
      BackStep(r.states[i], r.steps[i], r.states[i + 1]);
    }
    UpUnlessMarked(forth, falls, n);
    assert forall i: nat :: falls(i) <==> HeadFalls(r, i);
  }

  /** In a run in which `head` never went down, whoever took part, every consumer's indices strictly
      increase; without weak thieves no run lets it go down. */
  lemma MonotoneHeadMeansMonotoneConsumers(r: Run<State, Step>, n: nat, u: nat)
    requires IsRun(r) && n < |r.states|
    requires NoWeak(r.states[n]) || forall i: nat :: i < n ==> !HeadFalls(r, i)
    ensures forall i: nat :: i < n ==> !HeadFalls(r, i)
    ensures Increasing(r.states[n].took)
    ensures u < |r.states[n].thieves| ==> Increasing(r.states[n].thieves[u].got)
  {
    RunInv(r, n);
    BackIff(r, n);
    assert !r.states[n].back;
    var s := r.states[n];
    if u < |s.thieves| {
      assert StrongOk(s, s.thieves[u]) && WeakOk(s.thieves[u]);
    }
  }

  // ---------------------------------------------------------------- multiplicity

  function Gots(s: State): seq<seq<Got>> {
    seq(|s.thieves|, u requires 0 <= u < |s.thieves| => s.thieves[u].got)
  }

  /** What each thief took by `steal_exclusive`. */
  function Wons(s: State): seq<seq<Got>> {
    seq(|s.thieves|, u requires 0 <= u < |s.thieves| => s.thieves[u].won)
  }

  /** Multiplicity: a task is delivered at most once to each weak thief, and, as long as `head` never went
      down, at most once to every consumer, hence at most as often as there are consumers. */
  lemma AtMostOncePerConsumer(s: State, u: nat, i: nat)
    requires Reachable(s)
    ensures u < |s.thieves| && (s.thieves[u].kind.Weak? || !s.back) ==> Times(s.thieves[u].got, i) <= 1
    ensures !s.back ==> Times(s.took, i) <= 1
    ensures !s.back ==> Times(s.took, i) + TimesAll(Gots(s), i) <= 1 + |s.thieves|
    ensures NoWeak(s) ==> !s.back
  {
    ReachableInv(s);
    if u < |s.thieves| && (s.thieves[u].kind.Weak? || !s.back) {
      assert WeakOk(s.thieves[u]) && (!s.back ==> StrongOk(s, s.thieves[u]));
      TimesOnce(s.thieves[u].got, i);
    }
    if !s.back {
      TimesOnce(s.took, i);
      forall v | 0 <= v < |s.thieves|
        ensures Distinct(s.thieves[v].got)
      {
        ConsumersMoveOn(s, v);
      }
      TimesBound(Gots(s), i);
    }
  }

  /** `steal_exclusive` takes no slot twice, neither through two thieves nor through one, whatever else the
      owner, weak thieves and plain `steal` calls of the same handles do; and what it takes it delivers. */
  lemma ExclusiveAtMostOnce(s: State, u: nat, i: nat)
    requires Reachable(s)
    ensures TimesAll(Wons(s), i) <= 1
    ensures u < |s.thieves| && Has(s.thieves[u].won, i) ==> Has(s.thieves[u].got, i)
  {
    ReachableInv(s);
    forall v | 0 <= v < |s.thieves|
      ensures OnceOnly(s.thieves[v])
    {
    }
    forall v, w | 0 <= v < w < |s.thieves| && Has(s.thieves[v].won, i)
      ensures !Has(s.thieves[w].won, i)
    {
      assert Takes(s.thieves[v], i);
      assert !Takes(s.thieves[w], i);
    }
    TimesExclusive(Wons(s), i);
  }

  // ---------------------------------------------------------------- memory

  /** Every array ever used agrees with the active one on its non-null cells. */
  lemma RetiredArraysAgree(s: State, a: nat, i: nat)
    requires Reachable(s) && a < |s.arrays| && i < |s.arrays[a].cells|
    ensures s.active < |s.arrays| && s.retired == Upto(s.active)
    ensures s.arrays[a].cells[i].Some? ==>
      i < |s.arrays[s.active].cells| && s.arrays[s.active].cells[i] == s.arrays[a].cells[i]
  {
    ReachableInv(s);
    assert CellsOk(s.arrays[a], s.boxes);
  }

  /** A steal that finds no box saw none at its index when it loaded the array: every box put by then
      was below the `head` it had read. */
  lemma EmptyStealIsHonest(s: State, u: nat)
    requires Reachable(s) && u < |s.thieves| && s.thieves[u].pc.LoadCell?
    ensures ThiefShape(s, s.thieves[u])
    ensures ThiefNext(s, u).thieves[u].pc.Resting? ==> s.thieves[u].pc.puts <= s.thieves[u].pc.h
  {
    ReachableInv(s);
    assert ThiefOk(s, s.thieves[u]);
  }

  /** `take` returns a task whenever `head` is below the tail; its null branch is never taken. */
  lemma TakeFindsItsTask(s: State)
    requires Reachable(s) && s.owner.Idle?
    ensures s.active < |s.arrays|
    ensures s.head < s.tail ==> BeginTake(s).owner == TakeMax(s.head, s.head)
  {
    ReachableInv(s);
  }

  /** The copy loop of `grow`. */
  method CopyForward(prior: Tasks) returns (bigger: Tasks)
    requires |prior.claimed| == |prior.cells|
    ensures bigger == Bigger(prior)
  {
    bigger := WithLen(|prior.cells| * 2);
    for i := 0 to |prior.cells|
      invariant |bigger.cells| == 2 * |prior.cells|
      invariant bigger.claimed == WithLen(2 * |prior.cells|).claimed
      invariant forall j :: 0 <= j < |bigger.cells| ==> bigger.cells[j] == if j < i then prior.cells[j] else None
    {
      bigger := bigger.(cells := bigger.cells[i := prior.cells[i]]);
    }
  }

  ghost predicate Quiet(s: State) {
    s.owner.Idle? && forall u :: 0 <= u < |s.thieves| ==> s.thieves[u].pc.Resting?
  }

  /** The active array goes first, then the retired list node by node. */
  method DropArrays(active: nat, retired: seq<nat>) returns (arrays: seq<nat>)
    ensures multiset(arrays) == multiset(retired) + multiset{active}
  {
    arrays := [active];
    for i := 0 to |retired|
      invariant multiset(arrays) == multiset(retired[..i]) + multiset{active}
    {
      assert retired[..i + 1] == retired[..i] + [retired[i]];
      arrays := arrays + [retired[i]];
    }
    assert retired[..|retired|] == retired;
  }

  /** `Drop for Inner` frees every box ever put exactly once, taken or not, and every array once. */
  method Drop(s: State) returns (boxes: seq<nat>, arrays: seq<nat>)
    requires Reachable(s) && Quiet(s)
    ensures boxes == Upto(s.boxes) && s.boxes == s.tail
    ensures multiset(arrays) == multiset(Upto(|s.arrays|))
  {
    ReachableInv(s);
    var cells := s.arrays[s.active].cells;
    boxes := [];
    for i := 0 to |cells|
      invariant boxes == Upto(if i < s.boxes then i else s.boxes)
    {
      if cells[i].Some? {
        boxes := boxes + [cells[i].value];
      }
    }
    arrays := DropArrays(s.active, s.retired);
    UptoExtend(s.active);
  }

  // ---------------------------------------------------------------- a run in which `head` goes back

  lemma Extend(s: State, st: Step)
    requires Reachable(s) && Shape(s) && Enabled(s, st)
    ensures Reachable(Apply(s, st)) && Shape(Apply(s, st))
  {
    var r: Run<State, Step> :| IsRun(r) && r.states[|r.steps|] == s;
    var r1 := Run(r.states + [Apply(s, st)], r.steps + [st]);
    forall i | 0 <= i < |r1.steps|
      ensures Next(r1.states[i], r1.steps[i], r1.states[i + 1])
    {
      if i < |r.steps| {
        assert Next(r.states[i], r.steps[i], r.states[i + 1]);
      }
    }
    assert IsRun(r1) && r1.states[|r1.steps|] == Apply(s, st);
    ReachableInv(Apply(s, st));
    InvShape(Apply(s, st));
  }

  lemma PutAlone(s: State) returns (s1: State)
    requires Reachable(s) && Shape(s) && s.owner.Idle? && !s.bounded && s.tail + 1 < |s.arrays[s.active].cells|
    ensures Reachable(s1) && Shape(s1)
    ensures s1 == s.(arrays := s1.arrays, boxes := s.boxes + 1, tail := s.tail + 1)
    ensures |s1.arrays| == |s.arrays| && |s1.arrays[s1.active].cells| == |s.arrays[s.active].cells|
  {
    Extend(s, StartPut);
    s1 := Apply(s, StartPut);
    Extend(s1, OwnerStep);
    s1 := Apply(s1, OwnerStep);
    Extend(s1, OwnerStep);
    s1 := Apply(s1, OwnerStep);
  }

  /** A weak thief about to store `head`, having seen what it found there. */
  function AboutToStore(s: State, u: nat): State
    requires u < |s.thieves|
  {
    var th := s.thieves[u];
    var h := Max(th.r, s.head);
    SetThief(s, u, th.(r := h, pc := WeakStore(h, h)))
  }

  /** The same thief two steps earlier, with the active array loaded. */
  function ArrayLoaded(s: State, u: nat): State
    requires u < |s.thieves|
  {
    var th := s.thieves[u];
    var h := Max(th.r, s.head);
    SetThief(s, u, th.(r := h, pc := LoadCell(h, s.active, s.boxes)))
  }

  lemma WeakLoads(s: State, u: nat)
    requires Reachable(s) && Shape(s) && u < |s.thieves| && s.thieves[u].kind.Weak? && s.thieves[u].pc.Resting?
    ensures Reachable(ArrayLoaded(s, u)) && Shape(ArrayLoaded(s, u))
  {
    Extend(s, StartSteal(u, Weak));
    var s1 := BeginSteal(s, u, Weak);
    Extend(s1, ThiefStep(u));
    assert ThiefNext(s1, u) == ArrayLoaded(s, u);
  }

  lemma WeakFinds(s: State, u: nat)
    requires ActiveOk(s) && u < |s.thieves| && s.thieves[u].kind.Weak? && Max(s.thieves[u].r, s.head) < s.boxes
    requires s.owner.Idle?
    ensures var s2 := ArrayLoaded(s, u);
      ThiefNext(s2, u) == SetThief(s2, u, s2.thieves[u].(pc := WeakRead(s2.thieves[u].r, s2.thieves[u].r)))
  {
  }

  lemma WeakStealAlone(s: State, u: nat)
    requires Reachable(s) && Shape(s) && u < |s.thieves| && s.thieves[u].kind.Weak? && s.thieves[u].pc.Resting?
    requires s.owner.Idle? && Max(s.thieves[u].r, s.head) < s.boxes
    ensures Reachable(AboutToStore(s, u)) && Shape(AboutToStore(s, u))
  {
    ReachableInv(s);
    WeakLoads(s, u);
    WeakFinds(s, u);
    var s2 := ArrayLoaded(s, u);
    Extend(s2, ThiefStep(u));
    var s3 := ThiefNext(s2, u);
    Extend(s3, ThiefStep(u));
    assert ThiefNext(s3, u) == AboutToStore(s, u);
  }

  /** The queue after a whole undisturbed `take`. */
  function TookAlone(s: State): State {
    FetchMax(s, s.head + 1).(took := s.took + [Got(s.head, s.head)])
  }

  lemma TakeAlone(s: State)
    requires Reachable(s) && s.owner.Idle? && s.head < s.tail
    ensures Reachable(TookAlone(s))
  {
    ReachableInv(s);
    InvShape(s);
    TakeFindsItsTask(s);
    Extend(s, StartTake);
    Extend(BeginTake(s), OwnerStep);
    assert OwnerNext(BeginTake(s)) == TookAlone(s);
  }

  lemma TwoPuts() returns (s: State)
    ensures Reachable(s) && s.owner.Idle? && s.head == 0 && s.boxes == 2 && s.tail == 2 && s.took == []
    ensures s.thieves == [Thief(Weak, Resting, 0, [], [])]
  {
    var idle := Thief(Weak, Resting, 0, [], []);
    s := State(false, 0, 0, [WithLen(16)], 0, [], 0, 0, Idle, [], [idle], 0, false);
    var r: Run<State, Step> := Run([s], []);
    assert IsRun(r) && r.states[|r.steps|] == s;
    ReachableInv(s);
    InvShape(s);
    s := PutAlone(s);
    s := PutAlone(s);
  }

  /** Two tasks, one weak thief: the thief is about to store 1 when the owner has taken both, and then the
      shared `head` falls from 2 back to 1. */
  lemma HeadCanGoBack() returns (before: State, after: State)
    ensures Reachable(before) && Reachable(after)
    ensures Shape(before) && Enabled(before, ThiefStep(0)) && after == Apply(before, ThiefStep(0))
    ensures before.head == 2 && after.head == 1 && before.thieves[0].kind.Weak?
    ensures after.owner.Idle? && after.tail == 2 && after.took == [Got(0, 0), Got(1, 1)]
  {
    var s := TwoPuts();
    ReachableInv(s);
    InvShape(s);
    WeakStealAlone(s, 0);
    s := AboutToStore(s, 0);
    TakeAlone(s);
    s := TookAlone(s);
    TakeAlone(s);
    before := TookAlone(s);
    ReachableInv(before);
    InvShape(before);
    Extend(before, ThiefStep(0));
    after := Apply(before, ThiefStep(0));
  }

  /** Then the owner takes a task again that it has had: without the condition that `head` never went down,
      the bound of one delivery to each consumer fails. */
  lemma TakeCanRepeat() returns (s: State)
    ensures Reachable(s) && s.back && Times(s.took, 1) == 2
  {
    var before, after := HeadCanGoBack();
    TakeAlone(after);
    s := TookAlone(after);
    ReachableInv(s);
    assert s.took == [Got(0, 0), Got(1, 1), Got(1, 1)];
    assert s.took[1].index == s.took[2].index;
    assert s.took[..2] == [Got(0, 0), Got(1, 1)] && s.took[..2][..1] == [Got(0, 0)];
    assert Times([Got(0, 0)], 1) == 0 && Times(s.took[..2], 1) == 1;
  }
}

/** What every call of src/idempotent.rs answers over whole runs, and that it ends. */
module WsMultCalls {
  import opened Numbers
  import opened Runs
  import opened Deliveries
  import opened WsMult
  import opened WsMultSafety
  import opened WsMultTheorems
  import opened WsMultOrder

  lemma StepAt(r: Run<State, Step>, k: nat)
    requires IsRun(r) && k < |r.steps|
    ensures Inv(r.states[k]) && Inv(r.states[k + 1]) && Next(r.states[k], r.steps[k], r.states[k + 1])
  {
    RunInv(r, k);
    RunInv(r, k + 1);
  }

  // ---------------------------------------------------------------- the owner

  /** The owner is inside a call that step `i` began, up to state `j`. */
  ghost predicate Inside(r: Run<State, Step>, i: nat, j: nat) {
    && i <= j <= |r.steps| < |r.states| && r.states[i].owner.Idle?
    && forall k :: i < k <= j ==> !r.states[k].owner.Idle?
  }

  /** A completed call: begun by step `i`, returned at step `j`. */
  ghost predicate OwnerCall(r: Run<State, Step>, i: nat, j: nat) {
    Inside(r, i, j) && j < |r.steps| && r.states[j + 1].owner.Idle?
  }

  /** What a step of a thief leaves as it is. */
  ghost predicate OwnerKept(s: State, s1: State) {
    && s1.owner == s.owner && s1.tail == s.tail && s1.boxes == s.boxes && s1.took == s.took && s1.bounded == s.bounded
    && s1.active == s.active < |s.arrays| == |s1.arrays| && s1.arrays[s.active].cells == s.arrays[s.active].cells
  }

  lemma ThiefKeepsOwner(s: State, st: Step)
    requires Shape(s) && Enabled(s, st) && (st.StartSteal? || st.ThiefStep?)
    ensures OwnerKept(s, Apply(s, st))
  {
    if st.ThiefStep? {
      CellsKept(s, st.u);
    }
  }

  lemma CellsKept(s: State, u: nat)
    requires Shape(s) && u < |s.thieves|
    ensures OwnerKept(s, ThiefNext(s, u))
  {
    assert ThiefShape(s, s.thieves[u]);
  }

  /** The bounded queue refuses a put once it has taken as many as it was made for. */
  ghost predicate Refused(s: State) {
    s.bounded && s.tail >= s.cap
  }

  /** How many cells there are once a put is done: the array doubles exactly when it is full. */
  ghost function CellsAfterPut(s: State): nat
    requires s.active < |s.arrays|
  {
    var n := |s.arrays[s.active].cells|;
    if s.tail + 1 >= n then 2 * n else n
  }

  ghost predicate Cells(s: State, n: nat) {
    s.active < |s.arrays| && |s.arrays[s.active].cells| == n
  }

  ghost predicate HoldsBox(s: State, i: nat, b: nat) {
    s.active < |s.arrays| && i < |s.arrays[s.active].cells| && s.arrays[s.active].cells[i] == Some(b)
  }

  /** The put has still to store its box, or to mark the cell behind it. */
  ghost predicate Putting(s0: State, s: State)
    requires s0.active < |s0.arrays|
  {
    && s.tail == s0.tail && s.took == s0.took && Cells(s, CellsAfterPut(s0))
    && (s.owner.PutStore? || s.owner.PutMark?)
    && (s.owner.PutStore? ==> s.boxes == s0.boxes)
    && (s.owner.PutMark? ==> s.boxes == s0.boxes + 1 && HoldsBox(s, s0.tail, s0.boxes))
  }

  /** Exactly one box more, in the cell at the old tail. */
  ghost predicate PutDone(s0: State, s1: State)
    requires s0.active < |s0.arrays|
  {
    && s1.tail == s0.tail + 1 && s1.boxes == s0.boxes + 1 && s1.took == s0.took
    && Cells(s1, CellsAfterPut(s0)) && HoldsBox(s1, s0.tail, s0.boxes)
  }

  lemma PutBegins(s: State)
    requires Inv(s) && s.owner.Idle?
    ensures if Refused(s) then BeginPut(s) == s else Putting(s, BeginPut(s))
  {
  }

  lemma PutStep(s0: State, s: State, st: Step, s1: State)
    requires s0.active < |s0.arrays| && Inv(s) && Next(s, st, s1) && Putting(s0, s)
    ensures if s1.owner.Idle? then PutDone(s0, s1) else Putting(s0, s1)
  {
    if !st.OwnerStep? {
      ThiefKeepsOwner(s, st);
    }
  }

  ghost predicate PutsAt(r: Run<State, Step>, i: nat, k: nat) {
    i < |r.states| && k < |r.states| && r.states[i].active < |r.states[i].arrays| && Putting(r.states[i], r.states[k])
  }

  lemma PutsOn(r: Run<State, Step>, i: nat, k: nat)
    requires IsRun(r) && k < |r.steps| && PutsAt(r, i, k) && !r.states[k + 1].owner.Idle?
    ensures PutsAt(r, i, k + 1)
  {
    StepAt(r, k);
    PutStep(r.states[i], r.states[k], r.steps[k], r.states[k + 1]);
  }

  lemma PutGoesOn(r: Run<State, Step>, i: nat, j: nat)
    requires IsRun(r) && Inside(r, i, j) && i < j && PutsAt(r, i, i + 1)
    ensures PutsAt(r, i, j)
  {
    forall k: nat | i + 1 <= k < j && PutsAt(r, i, k)
      ensures PutsAt(r, i, k + 1)
    {
      PutsOn(r, i, k);
    }
    HandedOn((k: nat) => PutsAt(r, i, k), i + 1, j);
  }

  /** A completed put: it is refused, at once and with nothing changed, exactly when the queue is bounded and has
      taken its capacity; otherwise it stores exactly one box, in the cell at the old tail. */
  lemma PutCall(r: Run<State, Step>, i: nat, j: nat)
    requires IsRun(r) && OwnerCall(r, i, j) && r.steps[i] == StartPut
    ensures r.states[i].active < |r.states[i].arrays|
    ensures if Refused(r.states[i]) then j == i && r.states[j + 1] == r.states[i]
            else PutDone(r.states[i], r.states[j + 1])
  {
    StepAt(r, i);
    PutBegins(r.states[i]);
    if !Refused(r.states[i]) {
      PutGoesOn(r, i, j);
      StepAt(r, j);
      PutStep(r.states[i], r.states[j], r.steps[j], r.states[j + 1]);
    }
  }

  // ---------------------------------------------------------------- take

  /** Every box put is delivered, or in the hands of an exclusive thief. */
  ghost predicate AllGiven(s: State) {
    forall x: nat :: x < s.boxes ==> Delivered(s, x) || InHand(s, x)
  }

  ghost predicate Taking(s0: State, s: State) {
    s.owner == TakeMax(s0.head, s0.head) && s.took == s0.took && s.tail == s0.tail && s.boxes == s0.boxes
  }

  lemma TakeBegins(s: State)
    requires Inv(s) && s.owner.Idle?
    ensures if s.head >= s.tail then BeginTake(s) == s && AllGiven(s) else Taking(s, BeginTake(s))
  {
    if s.head >= s.tail {
      forall x: nat | x < s.boxes
        ensures Delivered(s, x) || InHand(s, x)
      {
        PassedMeans(s, x);
      }
    }
  }

  lemma PassedMeans(s: State, x: nat)
    requires Inv(s) && x < s.maxHead
    ensures Delivered(s, x) || InHand(s, x)
  {
    assert Delivered(s, x) || TakenBySome(s, x);
    if TakenBySome(s, x) {
      TakenMeans(s, x);
    }
  }

  /** The consumer has been given the task at `h`, and `head` is past it. */
  ghost predicate TakeDone(s0: State, s1: State) {
    && s1.took == s0.took + [Got(s0.head, s0.head)] && s1.head > s0.head
    && s1.tail == s0.tail && s1.boxes == s0.boxes
  }

  lemma TakeStep(s0: State, s: State, st: Step, s1: State)
    requires Inv(s) && Next(s, st, s1) && Taking(s0, s)
    ensures if s1.owner.Idle? then TakeDone(s0, s1) else Taking(s0, s1)
  {
    if !st.OwnerStep? {
      ThiefKeepsOwner(s, st);
    }
  }

  ghost predicate TakesAt(r: Run<State, Step>, i: nat, k: nat) {
    i < |r.states| && k < |r.states| && Taking(r.states[i], r.states[k])
  }

  lemma TakesOn(r: Run<State, Step>, i: nat, k: nat)
    requires IsRun(r) && k < |r.steps| && TakesAt(r, i, k) && !r.states[k + 1].owner.Idle?
    ensures TakesAt(r, i, k + 1)
  {
    StepAt(r, k);
    TakeStep(r.states[i], r.states[k], r.steps[k], r.states[k + 1]);
  }

  lemma TakeGoesOn(r: Run<State, Step>, i: nat, j: nat)
    requires IsRun(r) && Inside(r, i, j) && i < j && TakesAt(r, i, i + 1)
    ensures TakesAt(r, i, j)
  {
    forall k: nat | i + 1 <= k < j && TakesAt(r, i, k)
      ensures TakesAt(r, i, k + 1)
    {
      TakesOn(r, i, k);
    }
    HandedOn((k: nat) => TakesAt(r, i, k), i + 1, j);
  }

  /** A completed take: it finds the queue empty, at once and with nothing changed, exactly when `head` has reached
      the tail, and then everything put has been given out; otherwise it is given the task at the `head` it
      found. */
  lemma TakeCall(r: Run<State, Step>, i: nat, j: nat)
    requires IsRun(r) && OwnerCall(r, i, j) && r.steps[i] == StartTake
    ensures var s, s1 := r.states[i], r.states[j + 1];
      if s.head >= s.tail then j == i && s1 == s && AllGiven(s) else TakeDone(s, s1)
  {
    StepAt(r, i);
    TakeBegins(r.states[i]);
    if r.states[i].head < r.states[i].tail {
      TakeGoesOn(r, i, j);
      StepAt(r, j);
      TakeStep(r.states[i], r.states[j], r.steps[j], r.states[j + 1]);
    }
  }

  // ---------------------------------------------------------------- steals

  /** Thief `u` is inside a steal that step `i` began, up to state `j`. */
  ghost predicate Stealing(r: Run<State, Step>, u: nat, i: nat, j: nat) {
    && i < j <= |r.steps| < |r.states| && r.steps[i].StartSteal? && r.steps[i].u == u
    && (forall k :: i <= k <= j ==> u < |r.states[k].thieves|)
    && forall k :: i < k <= j ==> !r.states[k].thieves[u].pc.Resting?
  }

  ghost predicate StealCall(r: Run<State, Step>, u: nat, i: nat, j: nat) {
    && i <= j < |r.steps| < |r.states| && r.steps[i].StartSteal? && r.steps[i].u == u
    && (forall k :: i <= k <= j + 1 ==> u < |r.states[k].thieves|)
    && (forall k :: i < k <= j ==> !r.states[k].thieves[u].pc.Resting?) && r.states[j + 1].thieves[u].pc.Resting?
  }

  /** The index a steal of this kind goes for: `head`, or for a weak thief its private maximum if that is more. */
  ghost function Goal(s: State, u: nat, kind: Kind): nat
    requires u < |s.thieves|
  {
    if kind.Weak? then Max(s.thieves[u].r, s.head) else s.head
  }

  /** At some moment of the steal the queue held `puts` boxes, and `h` had been reached by `head`. */
  ghost predicate Loaded(r: Run<State, Step>, i: nat, j: nat, puts: nat, h: nat) {
    exists m: nat :: i < m < j && m < |r.states| && r.states[m].boxes == puts && h <= r.states[m].maxHead
  }

  /** The steal under way has delivered nothing yet. */
  ghost predicate StealSoFar(r: Run<State, Step>, u: nat, i: nat, j: nat)
    requires i < |r.states| && i < |r.steps| && r.steps[i].StartSteal?
  {
    && j < |r.states| && u < |r.states[i].thieves| && u < |r.states[j].thieves|
    && var th0, th := r.states[i].thieves[u], r.states[j].thieves[u];
       && th.kind == r.steps[i].kind && th.got == th0.got && th.won == th0.won
       && At(th.pc, Goal(r.states[i], u, r.steps[i].kind))
       && (th.pc.LoadCell? ==> Loaded(r, i, j, th.pc.puts, th.pc.h))
  }

  lemma StealBegins(r: Run<State, Step>, u: nat, i: nat)
    requires IsRun(r) && Stealing(r, u, i, i + 1)
    ensures StealSoFar(r, u, i, i + 1)
  {
    StepAt(r, i);
  }

  lemma LoadedLater(r: Run<State, Step>, i: nat, j: nat, puts: nat, h: nat)
    requires Loaded(r, i, j, puts, h)
    ensures Loaded(r, i, j + 1, puts, h)
  {
  }

  /** What a steal's own step does when the steal goes on. */
  lemma OwnStealStep(s: State, u: nat, h: nat)
    requires u < |s.thieves| && ThiefOk(s, s.thieves[u]) && At(s.thieves[u].pc, h)
    requires !ThiefNext(s, u).thieves[u].pc.Resting?
    ensures var th, th1 := s.thieves[u], ThiefNext(s, u).thieves[u];
      && th1.kind == th.kind && th1.got == th.got && th1.won == th.won && At(th1.pc, h) && h <= s.maxHead
      && (th1.pc.LoadCell? ==> th.pc.LoadArray? && th1.pc.puts == s.boxes && th1.pc.h == h)
  {
  }

  lemma OthersLeave(s: State, st: Step, s1: State, u: nat)
    requires Next(s, st, s1) && u < |s.thieves| && u < |s1.thieves| && st != ThiefStep(u)
    requires !s.thieves[u].pc.Resting?
    ensures s1.thieves[u] == s.thieves[u]
  {
    if st.ThiefStep? {
      ThiefLeaves(s, st.u);
    }
  }

  lemma StealGoesOn(r: Run<State, Step>, u: nat, i: nat, j: nat)
    requires IsRun(r) && Stealing(r, u, i, j)
    ensures StealSoFar(r, u, i, j)
  {
    StealBegins(r, u, i);
    forall k: nat | i + 1 <= k < j && StealSoFar(r, u, i, k)
      ensures StealSoFar(r, u, i, k + 1)
    {
      StepAt(r, k);
      StealOneMore(r, u, i, k);
    }
    HandedOn((k: nat) => StealSoFar(r, u, i, k), i + 1, j);
  }

  lemma StealOneMore(r: Run<State, Step>, u: nat, i: nat, j: nat)
    requires i < j && j + 1 < |r.states| && j < |r.steps| && r.steps[i].StartSteal? && StealSoFar(r, u, i, j)
    requires Inv(r.states[j]) && Next(r.states[j], r.steps[j], r.states[j + 1])
    requires u < |r.states[j + 1].thieves| && !r.states[j + 1].thieves[u].pc.Resting?
    ensures StealSoFar(r, u, i, j + 1)
  {
    var s, th := r.states[j], r.states[j].thieves[u];
    if r.steps[j] == ThiefStep(u) {
      assert ThiefOk(s, th);
      OwnStealStep(s, u, Goal(r.states[i], u, r.steps[i].kind));
    } else {
      OthersLeave(s, r.steps[j], r.states[j + 1], u);
      if th.pc.LoadCell? {
        LoadedLater(r, i, j, th.pc.puts, th.pc.h);
      }
    }
  }

  /** The steal is given the task at `h`; if it is exclusive it has the claim; unless it is weak `head` is past
      `h`. */
  ghost predicate StealDelivers(s0: State, s1: State, u: nat, kind: Kind)
    requires u < |s0.thieves| && u < |s1.thieves|
  {
    var th0, th1, h := s0.thieves[u], s1.thieves[u], Goal(s0, u, kind);
    && th1.got == th0.got + [Got(h, h)]
    && th1.won == (if kind.Exclusive? then th0.won + [Got(h, h)] else th0.won)
    && (if kind.Weak? then th1.r > h else s1.head > h)
  }

  /** At some moment of the steal everything put had been given out. */
  ghost predicate SeenAllGiven(r: Run<State, Step>, i: nat, j: nat) {
    exists m: nat :: i < m < j && m < |r.states| && AllGiven(r.states[m])
  }

  /** The step at which a steal returns. */
  lemma OwnReturn(s: State, u: nat, h: nat)
    requires u < |s.thieves| && ThiefOk(s, s.thieves[u]) && At(s.thieves[u].pc, h)
    requires ThiefNext(s, u).thieves[u].pc.Resting?
    ensures var th, s1 := s.thieves[u], ThiefNext(s, u);
      var th1 := s1.thieves[u];
      || (th1.got == th.got + [Got(h, h)] && th1.won == (if th.kind.Exclusive? then th.won + [Got(h, h)] else th.won)
          && (if th.kind.Weak? then th1.r > h else s1.head > h))
      || (th1.got == th.got && th1.won == th.won
          && ((th.pc.LoadCell? && th.pc.puts <= h) || (th.pc.Nudge? && th.kind.Exclusive? && s1.head > h)))
  {
    assert ThiefOk(s, s.thieves[u]);
  }

  lemma LoadedMeans(r: Run<State, Step>, i: nat, j: nat, puts: nat, h: nat)
    requires IsRun(r) && Loaded(r, i, j, puts, h) && puts <= h
    ensures SeenAllGiven(r, i, j)
  {
    var m: nat :| i < m < j && m < |r.states| && r.states[m].boxes == puts && h <= r.states[m].maxHead;
    RunInv(r, m);
    forall x: nat | x < r.states[m].boxes
      ensures Delivered(r.states[m], x) || InHand(r.states[m], x)
    {
      PassedMeans(r.states[m], x);
    }
    assert AllGiven(r.states[m]);
  }

  /** The return of a steal: a delivery, or an `Empty` for one of the two reasons there are. */
  lemma StealReturns(r: Run<State, Step>, u: nat, i: nat, j: nat)
    requires i < j < |r.steps| && j + 1 < |r.states| && r.steps[i].StartSteal? && StealSoFar(r, u, i, j)
    requires Inv(r.states[j]) && Next(r.states[j], r.steps[j], r.states[j + 1])
    requires u < |r.states[j + 1].thieves| && r.states[j + 1].thieves[u].pc.Resting?
    ensures var s0, s, s1, kind := r.states[i], r.states[j], r.states[j + 1], r.steps[i].kind;
      || StealDelivers(s0, s1, u, kind)
      || (s1.thieves[u].got == s0.thieves[u].got && s1.thieves[u].won == s0.thieves[u].won
          && (SeenPast(r, i, j) || LostTo(s, s1, Goal(s0, u, kind), kind)))
  {
    var s, h := r.states[j], Goal(r.states[i], u, r.steps[i].kind);
    if r.steps[j] != ThiefStep(u) {
      OthersLeave(s, r.steps[j], r.states[j + 1], u);
      assert false;
    }
    assert ThiefOk(s, s.thieves[u]);
    OwnReturn(s, u, h);
    if s.thieves[u].pc.Nudge? {
      TakenMeans(s, h);
    }
  }

  ghost predicate SeenPast(r: Run<State, Step>, i: nat, j: nat) {
    exists puts: nat, h: nat :: puts <= h && Loaded(r, i, j, puts, h)
  }

  /** An exclusive steal lost its claim: the task was delivered or is in the hands of another exclusive thief, and
      `head` is past it. */
  ghost predicate LostTo(s: State, s1: State, h: nat, kind: Kind) {
    kind.Exclusive? && s1.head > h && (Delivered(s, h) || InHand(s, h))
  }

  /** A completed steal of any kind, whatever the owner and the other thieves do meanwhile: it is given the task at
      the index it set out for; or it answers `Empty`, and at some moment of the call everything put had been given
      out, or, if it is exclusive, it lost its claim. */
  lemma StealAnswers(r: Run<State, Step>, u: nat, i: nat, j: nat)
    requires IsRun(r) && StealCall(r, u, i, j)
    ensures var s0, s, s1, kind := r.states[i], r.states[j], r.states[j + 1], r.steps[i].kind;
      || StealDelivers(s0, s1, u, kind)
      || (s1.thieves[u].got == s0.thieves[u].got && s1.thieves[u].won == s0.thieves[u].won
          && (SeenAllGiven(r, i, j) || LostTo(s, s1, Goal(s0, u, kind), kind)))
  {
    StealStarts(r, u, i, j);
    StealGoesOn(r, u, i, j);
    StepAt(r, j);
    StealReturns(r, u, i, j);
    if SeenPast(r, i, j) {
      var puts: nat, h: nat :| puts <= h && Loaded(r, i, j, puts, h);
      LoadedMeans(r, i, j, puts, h);
    }
  }

  lemma StealStarts(r: Run<State, Step>, u: nat, i: nat, j: nat)
    requires IsRun(r) && StealCall(r, u, i, j)
    ensures Stealing(r, u, i, j) && j < |r.steps|
  {
    StepAt(r, i);
  }

  // ---------------------------------------------------------------- calls end

  function OwnerLeft(o: OwnerPc): nat {
    match o
    case Idle => 0
    case PutStore => 2
    case PutMark => 1
    case TakeMax(_, _) => 1
  }

  function ThiefLeft(pc: ThiefPc): nat {
    match pc
    case Resting => 0
    case LoadArray(_) => 5
    case LoadCell(_, _, _) => 4
    case ClaimFlag(_, _, _) => 3
    case Nudge(_) => 1
    case Advance(_, _) => 1
    case WeakRead(_, _) => 2
    case WeakStore(_, _) => 1
  }

  /** No call ever retries: each step of its own brings it closer to its end, within a fixed number of them, and the
      steps of others do not set it back. */
  lemma CallsEnd(s: State, st: Step, u: nat)
    requires Reachable(s) && Enabled(s, st) && u < |s.thieves|
    ensures Shape(s) && u < |Apply(s, st).thieves|
    ensures !s.owner.Idle? ==>
      if st.OwnerStep? then OwnerLeft(Apply(s, st).owner) < OwnerLeft(s.owner) else Apply(s, st).owner == s.owner
    ensures var pc, pc1 := s.thieves[u].pc, Apply(s, st).thieves[u].pc;
      !pc.Resting? ==> if st == ThiefStep(u) then ThiefLeft(pc1) < ThiefLeft(pc) else pc1 == pc
  {
    ReachableInv(s);
    InvShape(s);
    if st.StartSteal? || st.ThiefStep? {
      ThiefKeepsOwner(s, st);
    }
    if st.ThiefStep? {
      ThiefShortens(s, st.u);
      ThiefLeaves(s, st.u);
    }
  }

  lemma ThiefShortens(s: State, u: nat)
    requires u < |s.thieves| && ThiefShape(s, s.thieves[u]) && !s.thieves[u].pc.Resting?
    ensures ThiefLeft(ThiefNext(s, u).thieves[u].pc) < ThiefLeft(s.thieves[u].pc)
  {
  }

  /** Nobody ever waits: an idle owner may put or take, an idle thief steal in every way its handle allows, and a call
      under way may go on. */
  lemma NobodyWaits(s: State, u: nat, kind: Kind)
    requires Reachable(s)
    ensures if s.owner.Idle? then Enabled(s, StartPut) && Enabled(s, StartTake) else Enabled(s, OwnerStep)
    ensures u < |s.thieves| && !s.thieves[u].pc.Resting? ==> Enabled(s, ThiefStep(u))
    ensures u < |s.thieves| && s.thieves[u].pc.Resting? && (kind.Weak? <==> s.thieves[u].kind.Weak?) ==>
      (kind.Exclusive? && !s.bounded) || Enabled(s, StartSteal(u, kind))
  {
  }
}

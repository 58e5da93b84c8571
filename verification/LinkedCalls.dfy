/** What every call of src/linked.rs answers over whole runs, and that it ends. */
module LinkedCalls {
  import opened Numbers
  import opened Runs
  import opened Deliveries
  import opened Linked
  import opened LinkedTheorems

  lemma StepAt(r: Run<State, Step>, thieves: nat, k: nat)
    requires IsRun(r, thieves) && k < |r.steps|
    ensures Inv(r.states[k]) && Inv(r.states[k + 1]) && Next(r.states[k], r.steps[k], r.states[k + 1])
  {
    RunInv(r, thieves, k);
    RunInv(r, thieves, k + 1);
  }

  // ---------------------------------------------------------------- the owner

  /** The owner is inside a call that step `i` began, up to state `j`. */
  ghost predicate Inside(r: Run<State, Step>, i: nat, j: nat) {
    && i <= j <= |r.steps| < |r.states| && r.states[i].owner.Idle?
    && forall k :: i < k <= j ==> !r.states[k].owner.Idle?
  }

  /** A completed call: begun by step `i`, returned at step `j`. */
  ghost predicate OwnerCall(r: Run<State, Step>, i: nat, j: nat) {
    Inside(r, i, j) && j < |r.steps| && r.states[j + 1].owner.Idle?
  }

  ghost predicate OwnerKept(s: State, s1: State) {
    && s1.owner == s.owner && s1.tail == s.tail && s1.shared == s.shared && s1.took == s.took && s1.nodes == s.nodes
    && s1.tailNode == s.tailNode && s.head <= s1.head
  }

  lemma ThiefKeepsOwner(s: State, st: Step)
    requires Shape(s) && Enabled(s, st) && (st.StartSteal? || st.ThiefStep?)
    ensures OwnerKept(s, Apply(s, st))
  {
    if st.ThiefStep? {
      assert ThiefShape(s, s.thieves[st.u]);
    }
  }

  /** Box `i` is in its cell, `i % NODE_SIZE` of node `i / NODE_SIZE`. */
  ghost predicate HoldsBox(s: State, i: nat) {
    i / NODE_SIZE < |s.nodes| && i % NODE_SIZE < |s.nodes[i / NODE_SIZE].cells|
      && s.nodes[i / NODE_SIZE].cells[i % NODE_SIZE] == Some(i)
  }

  lemma PutIsHeld(s: State, i: nat)
    requires ListOk(s) && i < s.tail
    ensures HoldsBox(s, i)
  {
    assert i / NODE_SIZE <= s.tailNode;
    assert NodeOk(s, i / NODE_SIZE);
  }

  ghost predicate Putting(s0: State, s: State) {
    s.tail == s0.tail + 1 && s.took == s0.took && (s.owner.PutTail? || s.owner.PutLink?)
  }

  /** Exactly one box more, in its cell and below the shared tail. */
  ghost predicate PutDone(s0: State, s1: State) {
    s1.tail == s0.tail + 1 == s1.shared && s1.took == s0.took && HoldsBox(s1, s0.tail)
  }

  lemma PutStep(s0: State, s: State, st: Step, s1: State)
    requires Inv(s) && Inv(s1) && Next(s, st, s1) && Putting(s0, s)
    ensures if s1.owner.Idle? then PutDone(s0, s1) else Putting(s0, s1)
  {
    if !st.OwnerStep? {
      ThiefKeepsOwner(s, st);
    }
    if s1.owner.Idle? {
      PutIsHeld(s1, s0.tail);
    }
  }

  ghost predicate PutsAt(r: Run<State, Step>, i: nat, k: nat) {
    i < |r.states| && k < |r.states| && Putting(r.states[i], r.states[k])
  }

  lemma PutsOn(r: Run<State, Step>, thieves: nat, i: nat, k: nat)
    requires IsRun(r, thieves) && k < |r.steps| && PutsAt(r, i, k) && !r.states[k + 1].owner.Idle?
    ensures PutsAt(r, i, k + 1)
  {
    StepAt(r, thieves, k);
    PutStep(r.states[i], r.states[k], r.steps[k], r.states[k + 1]);
  }

  lemma PutGoesOn(r: Run<State, Step>, thieves: nat, i: nat, j: nat)
    requires IsRun(r, thieves) && Inside(r, i, j) && i < j && PutsAt(r, i, i + 1)
    ensures PutsAt(r, i, j)
  {
    forall k: nat | i + 1 <= k < j && PutsAt(r, i, k)
      ensures PutsAt(r, i, k + 1)
    {
      PutsOn(r, thieves, i, k);
    }
    HandedOn((k: nat) => PutsAt(r, i, k), i + 1, j);
  }

  lemma PutBegins(s: State)
    requires Inv(s) && s.owner.Idle?
    ensures Putting(s, StoreBox(s))
  {
    assert NodeOk(s, s.tailNode);
  }

  /** A completed put adds exactly one box, and is never refused. */
  lemma PutCall(r: Run<State, Step>, thieves: nat, i: nat, j: nat)
    requires IsRun(r, thieves) && OwnerCall(r, i, j) && r.steps[i] == StartPut
    ensures PutDone(r.states[i], r.states[j + 1])
  {
    StepAt(r, thieves, i);
    PutBegins(r.states[i]);
    PutGoesOn(r, thieves, i, j);
    StepAt(r, thieves, j);
    PutStep(r.states[i], r.states[j], r.steps[j], r.states[j + 1]);
  }

  /** Every box below the shared tail has been delivered. */
  ghost predicate AllDelivered(s: State) {
    forall x: nat :: x < s.shared ==> Delivered(s, x)
  }

  ghost predicate Taking(s0: State, s: State) {
    && s.took == s0.took && s.tail == s0.tail && s.shared == s0.shared && s0.head <= s.head
    && (s.owner.TakeWalk? || s.owner.TakeMax?) && s.owner.h == s0.head
  }

  ghost predicate TakeDone(s0: State, s1: State) {
    && s1.took == s0.took + [Got(s0.head, s0.head)] && s1.head > s0.head
    && s1.tail == s0.tail && s1.shared == s0.shared
  }

  lemma TakeBegins(s: State)
    requires Inv(s) && s.owner.Idle?
    ensures if s.head >= s.shared then BeginTake(s) == s && AllDelivered(s) else Taking(s, BeginTake(s))
  {
  }

  lemma TakeStep(s0: State, s: State, st: Step, s1: State)
    requires Inv(s) && Next(s, st, s1) && Taking(s0, s)
    ensures if s1.owner.Idle? then TakeDone(s0, s1) else Taking(s0, s1)
  {
    if st.OwnerStep? {
      if s.owner.TakeWalk? {
        TakeWalkKeeps(s, s.owner.h, s.owner.node);
      }
    } else {
      ThiefKeepsOwner(s, st);
    }
  }

  ghost predicate TakesAt(r: Run<State, Step>, i: nat, k: nat) {
    i < |r.states| && k < |r.states| && Taking(r.states[i], r.states[k])
  }

  lemma TakesOn(r: Run<State, Step>, thieves: nat, i: nat, k: nat)
    requires IsRun(r, thieves) && k < |r.steps| && TakesAt(r, i, k) && !r.states[k + 1].owner.Idle?
    ensures TakesAt(r, i, k + 1)
  {
    StepAt(r, thieves, k);
    TakeStep(r.states[i], r.states[k], r.steps[k], r.states[k + 1]);
  }

  lemma TakeGoesOn(r: Run<State, Step>, thieves: nat, i: nat, j: nat)
    requires IsRun(r, thieves) && Inside(r, i, j) && i < j && TakesAt(r, i, i + 1)
    ensures TakesAt(r, i, j)
  {
    forall k: nat | i + 1 <= k < j && TakesAt(r, i, k)
      ensures TakesAt(r, i, k + 1)
    {
      TakesOn(r, thieves, i, k);
    }
    HandedOn((k: nat) => TakesAt(r, i, k), i + 1, j);
  }

  /** A completed take: it finds the queue empty, at once and with nothing changed, exactly when `head` has reached
      the tail, and then every box put was delivered; otherwise it is given the box at the `head` it found. */
  lemma TakeCall(r: Run<State, Step>, thieves: nat, i: nat, j: nat)
    requires IsRun(r, thieves) && OwnerCall(r, i, j) && r.steps[i] == StartTake
    ensures var s, s1 := r.states[i], r.states[j + 1];
      if s.head >= s.tail then j == i && s1 == s && AllDelivered(s) else TakeDone(s, s1)
  {
    StepAt(r, thieves, i);
    TakeBegins(r.states[i]);
    if r.states[i].head < r.states[i].tail {
      TakeGoesOn(r, thieves, i, j);
      StepAt(r, thieves, j);
      TakeStep(r.states[i], r.states[j], r.steps[j], r.states[j + 1]);
    }
  }

  // ---------------------------------------------------------------- steals

  /** Thief `u` is inside a steal that step `i` began, up to state `j`. */
  ghost predicate Stealing(r: Run<State, Step>, u: nat, i: nat, j: nat) {
    && i < j <= |r.steps| < |r.states| && r.steps[i] == StartSteal(u)
    && (forall k :: i <= k <= j ==> u < |r.states[k].thieves|)
    && forall k :: i < k <= j ==> !r.states[k].thieves[u].pc.Resting?
  }

  ghost predicate StealCall(r: Run<State, Step>, u: nat, i: nat, j: nat) {
    && i <= j < |r.steps| < |r.states| && r.steps[i] == StartSteal(u)
    && (forall k :: i <= k <= j + 1 ==> u < |r.states[k].thieves|)
    && (forall k :: i < k <= j ==> !r.states[k].thieves[u].pc.Resting?) && r.states[j + 1].thieves[u].pc.Resting?
  }

  /** The steal is still under way to box `h`, and has been given nothing. */
  ghost predicate Heading(th0: Thief, h: nat, th: Thief) {
    && th.got == th0.got
    && (th.pc.LoadTail? || th.pc.Walk? || th.pc.LoadCell? || th.pc.Advance?) && th.pc.h == h
    && (th.pc.Advance? ==> th.node == h / NODE_SIZE)
  }

  lemma OwnStealStep(s: State, u: nat, th0: Thief, h: nat)
    requires Inv(s) && u < |s.thieves| && ThiefShape(s, s.thieves[u]) && Heading(th0, h, s.thieves[u])
    ensures var s1 := ThiefNext(s, u);
      var th1 := s1.thieves[u];
      if !th1.pc.Resting? then Heading(th0, h, th1)
      else if th1.got == th0.got then AllDelivered(s)
      else th1.got == th0.got + [Got(h, h)] && s1.head > h && th1.node == h / NODE_SIZE
  {
    var th := s.thieves[u];
    assert ThiefOk(s, th) && NodeOk(s, th.node);
  }

  lemma OthersLeave(s: State, st: Step, s1: State, u: nat)
    requires Next(s, st, s1) && u < |s.thieves| && u < |s1.thieves| && st != ThiefStep(u)
    requires !s.thieves[u].pc.Resting?
    ensures s1.thieves[u] == s.thieves[u]
  {
  }

  ghost predicate HeadsAt(r: Run<State, Step>, u: nat, i: nat, k: nat) {
    && i < |r.states| && k < |r.states| && u < |r.states[i].thieves| && u < |r.states[k].thieves|
    && Heading(r.states[i].thieves[u], r.states[i].head, r.states[k].thieves[u])
  }

  lemma HeadsOn(r: Run<State, Step>, thieves: nat, u: nat, i: nat, k: nat)
    requires IsRun(r, thieves) && k < |r.steps| && HeadsAt(r, u, i, k)
    requires u < |r.states[k + 1].thieves| && !r.states[k + 1].thieves[u].pc.Resting?
    ensures HeadsAt(r, u, i, k + 1)
  {
    StepAt(r, thieves, k);
    if r.steps[k] == ThiefStep(u) {
      OwnStealStep(r.states[k], u, r.states[i].thieves[u], r.states[i].head);
    } else {
      OthersLeave(r.states[k], r.steps[k], r.states[k + 1], u);
    }
  }

  lemma StealBegins(r: Run<State, Step>, thieves: nat, u: nat, i: nat)
    requires IsRun(r, thieves) && Stealing(r, u, i, i + 1)
    ensures HeadsAt(r, u, i, i + 1)
  {
    StepAt(r, thieves, i);
  }

  lemma StealGoesOn(r: Run<State, Step>, thieves: nat, u: nat, i: nat, j: nat)
    requires IsRun(r, thieves) && Stealing(r, u, i, j)
    ensures HeadsAt(r, u, i, j)
  {
    StealBegins(r, thieves, u, i);
    forall k: nat | i + 1 <= k < j && HeadsAt(r, u, i, k)
      ensures HeadsAt(r, u, i, k + 1)
    {
      HeadsOn(r, thieves, u, i, k);
    }
    HandedOn((k: nat) => HeadsAt(r, u, i, k), i + 1, j);
  }

  /** A completed steal, whatever the others do meanwhile: it is given the box at the `head` it found, `head` is past
      it, and the handle stays at the node the box was in; or it answers `Empty`, and at that moment every box put
      had been delivered. */
  lemma StealAnswers(r: Run<State, Step>, thieves: nat, u: nat, i: nat, j: nat)
    requires IsRun(r, thieves) && StealCall(r, u, i, j)
    ensures var s, s1, h := r.states[j], r.states[j + 1], r.states[i].head;
      var th, th1 := r.states[i].thieves[u], s1.thieves[u];
      if th1.got == th.got then AllDelivered(s)
      else th1.got == th.got + [Got(h, h)] && s1.head > h && th1.node == h / NODE_SIZE
  {
    StepAt(r, thieves, i);
    StealGoesOn(r, thieves, u, i, j);
    StepAt(r, thieves, j);
    if r.steps[j] == ThiefStep(u) {
      OwnStealStep(r.states[j], u, r.states[i].thieves[u], r.states[i].head);
    } else {
      OthersLeave(r.states[j], r.steps[j], r.states[j + 1], u);
      assert false;
    }
  }

  // ---------------------------------------------------------------- calls end

  function OwnerLeft(o: OwnerPc): int {
    match o
    case PutTail(_) => 2
    case PutLink => 1
    case TakeWalk(h, node) => h - node + 2
    case TakeMax(_, _) => 1
    case _ => 0
  }

  function ThiefLeft(th: Thief): int {
    match th.pc
    case LoadTail(h) => h - th.node + 4
    case Walk(h) => h - th.node + 3
    case LoadCell(_) => 2
    case Advance(_, _) => 1
    case _ => 0
  }

  lemma OwnerShortens(s: State)
    requires Inv(s) && !s.owner.Idle?
    ensures s.owner.PutLink? ==> s.tailNode < |s.nodes|
    ensures 0 <= OwnerLeft(OwnerNext(s).owner) < OwnerLeft(s.owner)
  {
    if s.owner.TakeWalk? {
      assert NodeOk(s, s.owner.node);
    }
  }

  lemma ThiefShortens(s: State, u: nat)
    requires Inv(s) && u < |s.thieves| && ThiefShape(s, s.thieves[u]) && !s.thieves[u].pc.Resting?
    ensures 0 <= ThiefLeft(ThiefNext(s, u).thieves[u]) < ThiefLeft(s.thieves[u])
  {
    var th := s.thieves[u];
    assert ThiefOk(s, th) && NodeOk(s, th.node);
  }

  /** Every call is wait-free: each step of its own lowers a bound on those it still needs, and no step of anybody
      else changes it. */
  lemma CallsEnd(s: State, st: Step, u: nat)
    requires Reachable(s) && Enabled(s, st) && u < |s.thieves|
    ensures Shape(s) && u < |Apply(s, st).thieves|
    ensures !s.owner.Idle? ==>
      if st.OwnerStep? then 0 <= OwnerLeft(Apply(s, st).owner) < OwnerLeft(s.owner) else Apply(s, st).owner == s.owner
    ensures var th, th1 := s.thieves[u], Apply(s, st).thieves[u];
      !th.pc.Resting? ==> if st == ThiefStep(u) then 0 <= ThiefLeft(th1) < ThiefLeft(th) else th1 == th
  {
    ReachableInv(s);
    InvShape(s);
    if st.OwnerStep? {
      OwnerShortens(s);
    } else if st.ThiefStep? {
      ThiefKeepsOwner(s, st);
      ThiefShortens(s, st.u);
    }
    if st != ThiefStep(u) && !s.thieves[u].pc.Resting? {
      OthersLeave(s, st, Apply(s, st), u);
    }
  }

  /** Nobody ever waits: an idle owner may put or take and an idle thief steal, and a call under way may go on. */
  lemma NobodyWaits(s: State, u: nat)
    requires Reachable(s)
    ensures if s.owner.Idle? then Enabled(s, StartPut) && Enabled(s, StartTake) else Enabled(s, OwnerStep)
    ensures u < |s.thieves| ==> Enabled(s, if s.thieves[u].pc.Resting? then StartSteal(u) else ThiefStep(u))
  {
    ReachableInv(s);
    if u < |s.thieves| {
      assert ThiefOk(s, s.thieves[u]);
    }
  }
}

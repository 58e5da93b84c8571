/** What the owner's calls of src/bwos.rs answer over whole runs, and that they end. */
module BwosOwner {
  import opened Numbers
  import opened Runs
  import opened Bwos
  import opened BwosSafety
  import opened BwosTheorems
  import opened BwosFrontier
  import opened BwosAhead
  import opened BwosCalls

  /** The owner is inside a call that step `i` began, up to state `j`. */
  ghost predicate Inside(r: Run<State, Step>, i: nat, j: nat) {
    && i <= j <= |r.steps| < |r.states|
    && r.states[i].pc.Idle? && (i < |r.steps| ==> r.steps[i].StartPut? || r.steps[i].StartPop?)
    && forall k :: i < k <= j ==> !r.states[k].pc.Idle?
  }

  /** A completed call: begun by step `i`, returned at step `j`. */
  ghost predicate OwnerCall(r: Run<State, Step>, i: nat, j: nat) {
    Inside(r, i, j) && j < |r.steps| && r.states[j + 1].pc.Idle?
  }

  /** What a step of the owner hands out. */
  function Given(s: State, st: Step, s1: State): seq<nat> {
    if st.OwnerStep? && |s.hist.out| <= |s1.hist.out| then s1.hist.out[|s.hist.out|..] else []
  }

  /** What the owner hands out in steps `i..j`. */
  function OwnerGiven(r: Run<State, Step>, i: nat, j: nat): seq<nat>
    requires i <= j <= |r.steps| < |r.states|
  {
    if i == j then [] else OwnerGiven(r, i, j - 1) + Given(r.states[j - 1], r.steps[j - 1], r.states[j])
  }

  // ---------------------------------------------------------------- thieves leave the owner alone

  ghost predicate OwnerKept(s: State, s1: State) {
    && s1.owner == s.owner && s1.produced == s.produced && s1.pc == s.pc && s1.kind == s.kind && s1.size == s.size
    && s1.hist.pos == s.hist.pos && |s1.blocks| == |s.blocks|
    && forall k :: 0 <= k < |s.blocks| ==> StolenRises(s.blocks[k], s1.blocks[k])
  }

  ghost predicate StolenRises(blk: Block, blk1: Block) {
    blk1 == blk.(stolen := blk1.stolen) && blk.stolen <= blk1.stolen
  }

  lemma ThiefKeepsOwner(s: State, st: Step)
    requires Inv(s) && Enabled(s, st) && (st.StartSteal? || st.ThiefStep? || st.NewHandle?)
    ensures OwnerKept(s, Apply(s, st))
  {
    if st.ThiefStep? {
      assert ThiefShape(s, s.thieves[st.w]) && ThiefOk(s, s.thieves[st.w]);
    }
  }

  // ---------------------------------------------------------------- pop

  ghost predicate InPop(pc: Owner) {
    pc.PopLook? || pc.PopLower? || pc.PopTop? || pc.TakeRead? || pc.LastRead? || pc.LastCas? || pc.PopFix?
    || pc.PopRestore?
  }

  /** How many values the pop has won and not yet returned. */
  function Won(pc: Owner): nat {
    if pc.PopFix? && pc.won then 1 else 0
  }

  /** Nothing is in the queue. */
  ghost predicate NothingHere(s: State) {
    forall x: nat :: !Here(s, x)
  }

  /** The step takes the newest value of the queue. */
  ghost predicate TakesNewest(s: State, s1: State, v: nat) {
    Here(s, v) && !Here(s1, v) && forall x: nat :: Here(s, x) ==> x <= v
  }

  /** A step inside a pop hands out nothing or the newest value; one that returns without having won a value and
      without handing one out does so because nothing is there. */
  ghost predicate PopStep(s: State, s1: State, given: seq<nat>) {
    && s1.hist.pos == s.hist.pos
    && (given != [] ==> |given| == 1 && TakesNewest(s, s1, given[0]))
    && (if s1.pc.Idle? then if Won(s.pc) == 1 then given == [] else given == [] ==> NothingHere(s)
        else InPop(s1.pc) && Won(s1.pc) == Won(s.pc) + |given|)
  }

  lemma LookStep(s: State)
    requires Inv(s) && s.pc.PopLook?
    ensures PopStep(s, OwnerNext(s), Given(s, OwnerStep, OwnerNext(s)))
  {
    assert BlockShape(s, s.owner);
    forall x: nat | LookAtBlock(s).pc.Idle?
      ensures !Here(s, x)
    {
      if Here(s, x) {
        LiveOnChain(s, s.hist.pos[x].k, s.hist.pos[x].i);
      }
    }
  }

  lemma TakingIsNewest(s: State, b: nat)
    requires Inv(s) && (s.pc == TakeRead(b) || (s.pc.LastCas? && s.pc.b == b && s.blocks[s.owner].stolen == b))
    ensures var v := s.blocks[s.owner].slots[b];
      && Given(s, OwnerStep, OwnerNext(s)) == [v] && TakesNewest(s, OwnerNext(s), v)
  {
    assert AtHome(s, s.owner, b);
    var v := s.blocks[s.owner].slots[b];
    forall x: nat | Here(s, x)
      ensures x <= v
    {
      LiveOnChain(s, s.hist.pos[x].k, s.hist.pos[x].i);
    }
  }

  lemma OwnPopStep(s: State)
    requires Inv(s) && InPop(s.pc)
    ensures PopStep(s, OwnerNext(s), Given(s, OwnerStep, OwnerNext(s)))
  {
    if s.pc.PopLook? {
      LookStep(s);
    } else if s.pc.TakeRead? || (s.pc.LastCas? && s.blocks[s.owner].stolen == s.pc.b) {
      TakingIsNewest(s, s.pc.b);
    }
  }

  /** Step `k` of the run, if it is inside a pop, whoever takes it. */
  ghost predicate PopsOn(r: Run<State, Step>, k: nat) {
    k < |r.steps| && k + 1 < |r.states| && InPop(r.states[k].pc) ==>
      PopStep(r.states[k], r.states[k + 1], Given(r.states[k], r.steps[k], r.states[k + 1]))
  }

  lemma RunPopsOn(r: Run<State, Step>)
    requires IsRun(r)
    ensures forall k: nat :: PopsOn(r, k)
  {
    forall k: nat
      ensures PopsOn(r, k)
    {
      if k < |r.steps| && InPop(r.states[k].pc) {
        StepAt(r, k);
        if r.steps[k].OwnerStep? {
          OwnPopStep(r.states[k]);
        } else {
          ThiefKeepsOwner(r.states[k], r.steps[k]);
        }
      }
    }
  }

  /** Some step of `i..j` took `v`, then the newest value of the queue. */
  ghost predicate TakenAt(r: Run<State, Step>, i: nat, j: nat, v: nat) {
    exists m: nat :: i <= m < j && m + 1 < |r.states| && TakesNewest(r.states[m], r.states[m + 1], v)
  }

  ghost predicate AllTaken(r: Run<State, Step>, i: nat, j: nat, given: seq<nat>) {
    forall v :: v in given ==> TakenAt(r, i, j, v)
  }

  ghost predicate PopStarts(r: Run<State, Step>, i: nat) {
    && i + 1 < |r.states| && i < |r.steps| && r.states[i + 1].pc == PopLook
    && r.states[i + 1].hist.pos == r.states[i].hist.pos && !r.steps[i].OwnerStep?
  }

  /** Up to state `j` the pop has handed out nothing, or the one value it won. */
  lemma {:induction false} PopGoesOn(r: Run<State, Step>, i: nat, j: nat)
    requires Inside(r, i, j) && i < j && PopStarts(r, i) && forall k: nat :: PopsOn(r, k)
    ensures InPop(r.states[j].pc) && |OwnerGiven(r, i, j)| == Won(r.states[j].pc)
    ensures AllTaken(r, i, j, OwnerGiven(r, i, j))
    ensures r.states[j].hist.pos == r.states[i].hist.pos
    decreases j
  {
    if j == i + 1 {
      assert OwnerGiven(r, i, i) == [];
    } else {
      PopGoesOn(r, i, j - 1);
      OneMoreGiven(r, i, j);
    }
  }

  lemma OneMoreGiven(r: Run<State, Step>, i: nat, j: nat)
    requires i < j <= |r.steps| < |r.states| && InPop(r.states[j - 1].pc) && PopsOn(r, j - 1)
    requires AllTaken(r, i, j - 1, OwnerGiven(r, i, j - 1))
    ensures var now := Given(r.states[j - 1], r.steps[j - 1], r.states[j]);
      PopStep(r.states[j - 1], r.states[j], now) && OwnerGiven(r, i, j) == OwnerGiven(r, i, j - 1) + now
    ensures AllTaken(r, i, j, OwnerGiven(r, i, j))
  {
    var now := Given(r.states[j - 1], r.steps[j - 1], r.states[j]);
    forall v | v in OwnerGiven(r, i, j)
      ensures TakenAt(r, i, j, v)
    {
      if v in now {
        assert TakesNewest(r.states[j - 1], r.states[j - 1 + 1], v);
      } else {
        assert TakenAt(r, i, j - 1, v);
      }
    }
  }

  lemma StartsPop(r: Run<State, Step>, i: nat)
    requires IsRun(r) && i < |r.steps| && r.steps[i].StartPop?
    ensures PopStarts(r, i)
  {
    StepAt(r, i);
  }

  /** A completed pop, whatever the stealers do meanwhile: either it hands out one value, which at that moment was
      the newest of the whole queue, and takes it out of the queue; or it hands out nothing, and at the moment of
      its answer nothing was in the queue. */
  lemma PopCall(r: Run<State, Step>, i: nat, j: nat)
    requires IsRun(r) && OwnerCall(r, i, j) && r.steps[i].StartPop?
    ensures var given := OwnerGiven(r, i, j + 1);
      if given == [] then NothingHere(r.states[j]) else |given| == 1 && TakenAt(r, i, j + 1, given[0])
    ensures r.states[j + 1].hist.pos == r.states[i].hist.pos
  {
    StartsPop(r, i);
    RunPopsOn(r);
    PopAnswers(r, i, j);
  }

  lemma PopAnswers(r: Run<State, Step>, i: nat, j: nat)
    requires OwnerCall(r, i, j) && i < j && PopStarts(r, i) && forall k: nat :: PopsOn(r, k)
    ensures var given := OwnerGiven(r, i, j + 1);
      if given == [] then NothingHere(r.states[j]) else |given| == 1 && TakenAt(r, i, j + 1, given[0])
    ensures r.states[j + 1].hist.pos == r.states[i].hist.pos
  {
    PopGoesOn(r, i, j);
    OneMoreGiven(r, i, j + 1);
    var given := OwnerGiven(r, i, j + 1);
    assert given != [] ==> given[0] in given;
  }

  // ---------------------------------------------------------------- put

  /** A put is refused by the bounded queue on its last block, once that is full. */
  ghost predicate Refused(s: State) {
    s.owner < |s.blocks| && s.kind.Fixed? && s.blocks[s.owner].committed == s.size && s.owner + 1 == |s.blocks|
  }

  /** Where a put that is not refused goes: the next slot of the owner's block, or the first of the next block, a
      fresh one in the growable queue. */
  ghost function Target(s: State): Place
    requires s.owner < |s.blocks|
  {
    var b := s.blocks[s.owner].committed;
    if b != s.size then Place(s.owner, b)
    else if s.kind.Growable? then Place(|s.blocks|, 0)
    else Place(s.owner + 1, 0)
  }

  /** `produced_blocks` once the put is done: advancing along the row sets it. */
  ghost function Produced(s: State): nat
    requires s.owner < |s.blocks|
  {
    if s.kind.Fixed? && s.blocks[s.owner].committed == s.size then s.owner + 2 else s.produced
  }

  /** The put is on its way to its place. */
  ghost predicate Putting(s0: State, s: State)
    requires s0.owner < |s0.blocks|
  {
    && s.hist.pos == s0.hist.pos && s.owner == Target(s0).k < |s.blocks|
    && (s.pc.PutProduced? ==> Produced(s0) == s.owner + 1)
    && (!s.pc.PutProduced? ==> s.produced == Produced(s0))
    && match s.pc
       case PutProduced => Target(s0).i == 0
       case PutWrite(bottom) => bottom == Target(s0).i
       case PutPublish(bottom) => bottom == Target(s0).i
       case _ => false
  }

  /** The value is in its place, and in the queue unless `stolen` was already past that slot. */
  ghost predicate PutDone(s0: State, s1: State)
    requires s0.owner < |s0.blocks|
  {
    var at, id := Target(s0), |s0.hist.pos|;
    && s1.hist.pos == s0.hist.pos + [at] && s1.owner == at.k < |s1.blocks|
    && at.i < |s1.blocks[at.k].slots| && s1.blocks[at.k].slots[at.i] == id
    && s1.blocks[at.k].committed == at.i + 1 && s1.produced == Produced(s0)
    && (if at.i < s1.blocks[at.k].stolen then id in s1.hist.lost else Here(s1, id))
  }

  lemma PutBegins(s: State)
    requires Inv(s) && s.pc.Idle?
    ensures if Refused(s) then BeginPut(s) == s else Putting(s, BeginPut(s))
  {
    assert BlockShape(s, s.owner);
  }

  lemma PutOwnStep(s0: State, s: State)
    requires s0.owner < |s0.blocks| && Inv(s) && Putting(s0, s)
    ensures if OwnerNext(s).pc.Idle? then PutDone(s0, OwnerNext(s)) else Putting(s0, OwnerNext(s))
    ensures Given(s, OwnerStep, OwnerNext(s)) == []
  {
  }

  lemma PutStep(s0: State, s: State, st: Step, s1: State)
    requires s0.owner < |s0.blocks| && Inv(s) && Next(s, st, s1) && Putting(s0, s)
    ensures if s1.pc.Idle? then PutDone(s0, s1) else Putting(s0, s1)
    ensures Given(s, st, s1) == []
  {
    if st.OwnerStep? {
      PutOwnStep(s0, s);
    } else {
      ThiefKeepsOwner(s, st);
    }
  }

  ghost predicate PutsOn(r: Run<State, Step>, s0: State, k: nat)
    requires s0.owner < |s0.blocks|
  {
    k < |r.steps| && k + 1 < |r.states| && Putting(s0, r.states[k]) ==>
      && (if r.states[k + 1].pc.Idle? then PutDone(s0, r.states[k + 1]) else Putting(s0, r.states[k + 1]))
      && Given(r.states[k], r.steps[k], r.states[k + 1]) == []
  }

  lemma RunPutsOn(r: Run<State, Step>, s0: State)
    requires IsRun(r) && s0.owner < |s0.blocks|
    ensures forall k: nat :: PutsOn(r, s0, k)
  {
    forall k: nat
      ensures PutsOn(r, s0, k)
    {
      if k < |r.steps| && Putting(s0, r.states[k]) {
        StepAt(r, k);
        PutStep(s0, r.states[k], r.steps[k], r.states[k + 1]);
      }
    }
  }

  lemma {:induction false} PutGoesOn(r: Run<State, Step>, i: nat, j: nat)
    requires Inside(r, i, j) && i < j && r.steps[i].StartPut? && r.states[i].owner < |r.states[i].blocks|
    requires Putting(r.states[i], r.states[i + 1]) && forall k: nat :: PutsOn(r, r.states[i], k)
    ensures Putting(r.states[i], r.states[j]) && OwnerGiven(r, i, j) == []
    decreases j
  {
    if j == i + 1 {
      assert OwnerGiven(r, i, i) == [];
    } else {
      PutGoesOn(r, i, j - 1);
      assert PutsOn(r, r.states[i], j - 1);
    }
  }

  /** A completed put: it is refused, at once and with nothing changed, exactly when the bounded queue has no block
      left; otherwise it adds exactly one value, in the next place, and hands out nothing. */
  lemma PutCall(r: Run<State, Step>, i: nat, j: nat)
    requires IsRun(r) && OwnerCall(r, i, j) && r.steps[i].StartPut?
    ensures r.states[i].owner < |r.states[i].blocks|
    ensures if Refused(r.states[i]) then j == i && r.states[j + 1] == r.states[i]
            else PutDone(r.states[i], r.states[j + 1]) && OwnerGiven(r, i, j + 1) == []
  {
    StepAt(r, i);
    PutBegins(r.states[i]);
    if !Refused(r.states[i]) {
      RunPutsOn(r, r.states[i]);
      PutGoesOn(r, i, j);
      assert PutsOn(r, r.states[i], j);
    }
  }

  // ---------------------------------------------------------------- calls end

  /** Bounds the steps that the owner's call still needs. */
  function OwnerLeft(s: State): int {
    match s.pc
    case Idle => 0
    case PutProduced => 3
    case PutWrite(_) => 2
    case PutPublish(_) => 1
    case PopLook =>
      10 * s.owner + if s.owner < |s.blocks| && s.blocks[s.owner].committed <= s.blocks[s.owner].stolen then 1 else 9
    case PopLower(_) => 10 * s.owner + 8
    case PopTop(_) => 10 * s.owner + 7
    case TakeRead(_) => 10 * s.owner + 1
    case LastRead(_) => 10 * s.owner + 6
    case LastCas(_, _) => 10 * s.owner + 5
    case PopFix(_, _) => 10 * s.owner + 4
    case PopRestore(_) => 10 * s.owner + 4
  }

  lemma OwnerShortens(s: State)
    requires Inv(s) && !s.pc.Idle?
    ensures 0 <= OwnerLeft(OwnerNext(s)) < OwnerLeft(s)
  {
    assert BlockShape(s, s.owner);
  }

  /** Puts and pops are wait-free: each step of the owner inside a call lowers a bound on the steps that are left,
      and no step of a stealer raises it. */
  lemma OwnerIsWaitFree(s: State, st: Step)
    requires Reachable(s) && Enabled(s, st) && !s.pc.Idle?
    ensures Shape(s) && OwnerLeft(Apply(s, st)) >= 0
    ensures if st.OwnerStep? then OwnerLeft(Apply(s, st)) < OwnerLeft(s) else OwnerLeft(Apply(s, st)) <= OwnerLeft(s)
  {
    ReachableInv(s);
    if st.OwnerStep? {
      OwnerShortens(s);
    } else {
      ThiefKeepsOwner(s, st);
    }
  }

  /** Bounds the steps that a steal still needs on the blocks there are. */
  function ThiefLeft(s: State, th: Thief): int {
    match th
    case Away(_) => 0
    case Look(k, _) => 6 * (|s.blocks| - k)
    case Bottom(k, _, _) => 6 * (|s.blocks| - k) - 1
    case Read(k, _, _) => 6 * (|s.blocks| - k) - 2
    case Cas(k, _, _, _) => 6 * (|s.blocks| - k) - 3
    case Onward(k, _) => 6 * (|s.blocks| - k) - 3
  }

  /** A steal ends unless blocks are added for ever: each step of its own lowers the bound, and no other step raises
      it but a put that links a fresh block. */
  lemma StealEnds(s: State, st: Step, w: nat)
    requires Reachable(s) && Enabled(s, st) && w < |s.thieves| && !s.thieves[w].Away?
    ensures Shape(s) && w < |Apply(s, st).thieves|
    ensures var left, left1 := ThiefLeft(s, s.thieves[w]), ThiefLeft(Apply(s, st), Apply(s, st).thieves[w]);
      && left1 >= 0
      && (st == ThiefStep(w) ==> left1 < left)
      && (st != ThiefStep(w) && left1 > left ==> st.StartPut? && |Apply(s, st).blocks| == |s.blocks| + 1)
  {
    ReachableInv(s);
    var th := s.thieves[w];
    assert ThiefShape(s, th) && ThiefOk(s, th) && BlockShape(s, th.k);
    if st == ThiefStep(w) {
      OwnStepEnds(s, w);
    } else {
      OthersLeave(s, st, Apply(s, st), w);
      BlocksCount(s, st);
    }
  }

  lemma OwnStepEnds(s: State, w: nat)
    requires Shape(s) && w < |s.thieves| && !s.thieves[w].Away? && ThiefShape(s, s.thieves[w])
    requires BlockShape(s, s.thieves[w].k)
    ensures w < |ThiefNext(s, w).thieves|
    ensures 0 <= ThiefLeft(ThiefNext(s, w), ThiefNext(s, w).thieves[w]) < ThiefLeft(s, s.thieves[w])
  {
  }

  lemma BlocksCount(s: State, st: Step)
    requires Inv(s) && Enabled(s, st)
    ensures |Apply(s, st).blocks| == |s.blocks| || (st.StartPut? && |Apply(s, st).blocks| == |s.blocks| + 1)
  {
    if st.ThiefStep? {
      ThiefKeepsOwner(s, st);
    }
  }

  /** Nobody ever waits: an idle owner may put or pop and an idle stealer steal, and a call under way may go on. */
  lemma NobodyWaits(s: State, w: nat)
    requires Reachable(s)
    ensures if s.pc.Idle? then Enabled(s, StartPut) && Enabled(s, StartPop) else Enabled(s, OwnerStep)
    ensures w < |s.thieves| ==> Enabled(s, if s.thieves[w].Away? then StartSteal(w) else ThiefStep(w))
  {
  }
}

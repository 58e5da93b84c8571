/** Every step of the linked queue keeps its invariant, and what follows over whole runs. */
module LinkedTheorems {
  import opened Numbers
  import opened Runs
  import opened Deliveries
  import opened Linked

  // ---------------------------------------------------------------- steps

  /** What other parties rely on: the list, `head` and `shared` only grow. */
  ghost predicate Grows(s: State, s1: State) {
    |s.nodes| <= |s1.nodes| && s.head <= s1.head && s.shared <= s1.shared
  }

  lemma ThievesStill(s: State, s1: State, u: nat)
    requires forall v :: 0 <= v < |s.thieves| ==> ThiefOk(s, s.thieves[v])
    requires Grows(s, s1) && |s1.thieves| == |s.thieves|
    requires forall v :: 0 <= v < |s.thieves| && v != u ==> s1.thieves[v] == s.thieves[v]
    requires u < |s.thieves| ==> ThiefOk(s1, s1.thieves[u])
    ensures forall v :: 0 <= v < |s1.thieves| ==> ThiefOk(s1, s1.thieves[v])
  {
    forall v | 0 <= v < |s1.thieves|
      ensures ThiefOk(s1, s1.thieves[v])
    {
      assert ThiefOk(s, s.thieves[v]);
    }
  }

  lemma DeliveredStill(s: State, s1: State, u: nat)
    requires forall i: nat :: i < s.head ==> Delivered(s, i)
    requires |s1.thieves| == |s.thieves| && s1.took == s.took
    requires forall v :: 0 <= v < |s.thieves| && v != u ==> s1.thieves[v] == s.thieves[v]
    requires u < |s.thieves| ==> forall i: nat :: Has(s.thieves[u].got, i) ==> Has(s1.thieves[u].got, i)
    ensures forall i: nat :: i < s.head ==> Delivered(s1, i)
  {
    forall i: nat | i < s.head
      ensures Delivered(s1, i)
    {
      assert Delivered(s, i);
      if !Has(s.took, i) {
        var v :| 0 <= v < |s.thieves| && Has(s.thieves[v].got, i);
        assert Has(s1.thieves[v].got, i);
      }
    }
  }

  lemma StoreBoxKeeps(s: State)
    requires Inv(s) && s.owner.Idle?
    ensures Inv(StoreBox(s))
  {
    var s1 := StoreBox(s);
    assert NodeOk(s, s.tailNode);
    forall k | 0 <= k < |s1.nodes|
      ensures NodeOk(s1, k)
    {
      assert NodeOk(s, k);
    }
    ThievesStill(s, s1, |s.thieves|);
    DeliveredStill(s, s1, |s.thieves|);
  }

  lemma PutTailKeeps(s: State)
    requires Inv(s) && s.owner.PutTail?
    ensures Inv(OwnerNext(s))
  {
    var s1 := OwnerNext(s);
    forall k | 0 <= k < |s1.nodes|
      ensures NodeOk(s1, k)
    {
      assert NodeOk(s, k);
    }
    ThievesStill(s, s1, |s.thieves|);
    DeliveredStill(s, s1, |s.thieves|);
  }

  lemma LinkNodeKeeps(s: State)
    requires Inv(s) && s.owner.PutLink?
    ensures Inv(LinkNode(s))
  {
    var s1 := LinkNode(s);
    forall k | 0 <= k < |s1.nodes|
      ensures NodeOk(s1, k)
    {
      if k < |s.nodes| {
        assert NodeOk(s, k);
      }
    }
    ThievesStill(s, s1, |s.thieves|);
    DeliveredStill(s, s1, |s.thieves|);
  }

  /** A step that changes only the owner's `pc`. */
  lemma OwnerMoves(s: State, owner: OwnerPc)
    requires Inv(s) && (s.owner.Idle? || s.owner.TakeWalk?) && (owner.Idle? || owner.TakeWalk? || owner.TakeMax?)
    requires OwnerOk(s.(owner := owner))
    ensures Inv(s.(owner := owner))
  {
    var s1 := s.(owner := owner);
    forall k | 0 <= k < |s1.nodes|
      ensures NodeOk(s1, k)
    {
      assert NodeOk(s, k);
    }
    ThievesStill(s, s1, |s.thieves|);
    DeliveredStill(s, s1, |s.thieves|);
  }

  lemma TakeWalkKeeps(s: State, h: nat, node: nat)
    requires Inv(s) && s.owner == TakeWalk(h, node)
    ensures Inv(TakeOn(s, h, node)) && !TakeOn(s, h, node).owner.Idle?
  {
    assert NodeOk(s, node);
    OwnerMoves(s, TakeOn(s, h, node).owner);
  }

  lemma TakeMaxKeeps(s: State, h: nat, p: nat)
    requires Inv(s) && s.owner == TakeMax(h, p)
    ensures Inv(OwnerNext(s))
  {
    var s1 := OwnerNext(s);
    forall k | 0 <= k < |s1.nodes|
      ensures NodeOk(s1, k)
    {
      assert NodeOk(s, k);
    }
    ThievesStill(s, s1, |s.thieves|);
    DeliveredStill(s, s1.(took := s.took), |s.thieves|);
    forall i: nat | i < s1.head
      ensures Delivered(s1, i)
    {
      HasAppend(s.took, Got(h, p), i);
      assert i < s.head ==> Delivered(s, i);
    }
  }

  lemma ThiefMoves(s: State, u: nat, th: Thief)
    requires Inv(s) && u < |s.thieves| && th.got == s.thieves[u].got && ThiefOk(s, th)
    ensures Inv(SetThief(s, u, th))
  {
    var s1 := SetThief(s, u, th);
    forall k | 0 <= k < |s1.nodes|
      ensures NodeOk(s1, k)
    {
      assert NodeOk(s, k);
    }
    ThievesStill(s, s1, u);
    DeliveredStill(s, s1, u);
  }

  lemma ThiefWalks(s: State, u: nat)
    requires Inv(s) && u < |s.thieves|
    requires s.thieves[u].pc.LoadTail? || s.thieves[u].pc.Walk? || s.thieves[u].pc.LoadCell?
    ensures ThiefShape(s, s.thieves[u]) && Inv(ThiefNext(s, u))
    ensures ThiefNext(s, u).thieves[u].pc.Resting? ==> s.thieves[u].pc.LoadTail?
  {
    var th := s.thieves[u];
    assert ThiefOk(s, th) && NodeOk(s, th.node);
    ThiefMoves(s, u, ThiefNext(s, u).thieves[u]);
  }

  lemma DeliverKeeps(s: State, u: nat)
    requires Inv(s) && u < |s.thieves| && s.thieves[u].pc.Advance?
    ensures ThiefShape(s, s.thieves[u]) && Inv(ThiefNext(s, u))
  {
    var th := s.thieves[u];
    assert ThiefOk(s, th);
    var s1 := ThiefNext(s, u);
    forall i: nat
      ensures Has(s1.thieves[u].got, i) <==> Has(th.got, i) || i == th.pc.h
    {
      HasAppend(th.got, Got(th.pc.h, th.pc.p), i);
    }
    forall k | 0 <= k < |s1.nodes|
      ensures NodeOk(s1, k)
    {
      assert NodeOk(s, k);
    }
    ThievesStill(s, s1, u);
    DeliveredStill(s, s1, u);
    assert Has(s1.thieves[u].got, th.pc.h);
  }

  lemma InitInv(thieves: nat)
    ensures Inv(Init(thieves))
  {
  }

  lemma InvShape(s: State)
    requires Inv(s)
    ensures Shape(s)
  {
    forall u | 0 <= u < |s.thieves|
      ensures ThiefShape(s, s.thieves[u])
    {
      assert ThiefOk(s, s.thieves[u]);
      assert NodeOk(s, s.thieves[u].node);
    }
  }

  lemma StepKeeps(s: State, st: Step)
    requires Inv(s) && Enabled(s, st)
    ensures Shape(s) && Inv(Apply(s, st))
  {
    InvShape(s);
    match st
    case StartPut => StoreBoxKeeps(s);
    case StartTake => OwnerMoves(s, BeginTake(s).owner);
    case OwnerStep =>
      match s.owner {
        case PutTail(_) => PutTailKeeps(s);
        case PutLink => LinkNodeKeeps(s);
        case TakeWalk(h, node) => TakeWalkKeeps(s, h, node);
        case TakeMax(h, p) => TakeMaxKeeps(s, h, p);
      }
    case StartSteal(u) =>
      assert ThiefOk(s, s.thieves[u]);
      ThiefMoves(s, u, s.thieves[u].(pc := LoadTail(s.head)));
    case ThiefStep(u) =>
      assert ThiefOk(s, s.thieves[u]);
      if s.thieves[u].pc.Advance? { DeliverKeeps(s, u); } else { ThiefWalks(s, u); }
  }

  // ---------------------------------------------------------------- runs

  ghost predicate Next(s: State, st: Step, s1: State) {
    Shape(s) && Enabled(s, st) && s1 == Apply(s, st)
  }

  ghost predicate IsRun(r: Run<State, Step>, thieves: nat) {
    && |r.states| == |r.steps| + 1
    && r.states[0] == Init(thieves)
    && forall i :: 0 <= i < |r.steps| ==> Next(r.states[i], r.steps[i], r.states[i + 1])
  }

  lemma NextKeeps(s: State, st: Step, s1: State)
    requires Inv(s) && Next(s, st, s1)
    ensures Inv(s1)
  {
    StepKeeps(s, st);
  }

  lemma RunInv(r: Run<State, Step>, thieves: nat, n: nat)
    requires IsRun(r, thieves) && n < |r.states|
    ensures Inv(r.states[n])
  {
    forall k | 0 <= k < |r.states| - 1 && Inv(r.states[k])
      ensures Inv(r.states[k + 1])
    {
      NextKeeps(r.states[k], r.steps[k], r.states[k + 1]);
    }
    InitInv(thieves);
    InvAlong(r.states, Inv, n);
  }

  ghost predicate Reachable(s: State) {
    exists r: Run<State, Step>, thieves: nat :: IsRun(r, thieves) && r.states[|r.steps|] == s
  }

  lemma ReachableInv(s: State)
    requires Reachable(s)
    ensures Inv(s)
  {
    var r: Run<State, Step>, thieves: nat :| IsRun(r, thieves) && r.states[|r.steps|] == s;
    RunInv(r, thieves, |r.steps|);
  }

  /** At least once, and the right thing: every index below `head` was delivered, every delivery is of
      the box put at its index, and each consumer's indices strictly increase. */
  lemma DeliveryContract(s: State, i: nat, u: nat)
    requires Reachable(s)
    ensures i < s.head ==> Delivered(s, i)
    ensures Right(s.took, s.shared) && Increasing(s.took)
    ensures u < |s.thieves| ==> Right(s.thieves[u].got, s.shared) && Increasing(s.thieves[u].got)
  {
    ReachableInv(s);
    if u < |s.thieves| {
      assert ThiefOk(s, s.thieves[u]);
    }
  }

  function Gots(s: State): seq<seq<Got>> {
    seq(|s.thieves|, u requires 0 <= u < |s.thieves| => s.thieves[u].got)
  }

  /** Multiplicity: a task is delivered at most once to each consumer. */
  lemma AtMostOncePerConsumer(s: State, i: nat)
    requires Reachable(s)
    ensures Times(s.took, i) + TimesAll(Gots(s), i) <= 1 + |s.thieves|
  {
    DeliveryContract(s, i, 0);
    TimesOnce(s.took, i);
    forall u | 0 <= u < |s.thieves|
      ensures Distinct(Gots(s)[u])
    {
      DeliveryContract(s, i, u);
    }
    TimesBound(Gots(s), i);
  }

  /** The null-`next` branch of `steal` is unreachable, nothing is out of bounds, no null `next` is
      followed, and a non-empty queue is never taken for empty: after the check against the tail, both
      consumers go on to find a box. */
  lemma NullBranchesUnreachable(s: State, u: nat)
    requires Reachable(s) && u < |s.thieves|
    ensures !s.owner.Crashed? && !s.thieves[u].pc.Unlinked? && !s.thieves[u].pc.Underflow?
    ensures s.owner.TakeWalk? ==> !OwnerNext(s).owner.Idle?
    ensures ThiefShape(s, s.thieves[u])
    ensures s.thieves[u].pc.Walk? || s.thieves[u].pc.LoadCell? ==> !ThiefNext(s, u).thieves[u].pc.Resting?
  {
    ReachableInv(s);
    InvShape(s);
    assert ThiefOk(s, s.thieves[u]);
    if s.owner.TakeWalk? {
      TakeWalkKeeps(s, s.owner.h, s.owner.node);
    }
    if s.thieves[u].pc.Walk? || s.thieves[u].pc.LoadCell? {
      ThiefWalks(s, u);
    }
  }

  /** `Drop for Inner` walks the list from the first node, frees every box ever put exactly once, and
      every node. */
  method Drop(s: State) returns (boxes: seq<nat>, freed: seq<nat>)
    requires Reachable(s) && s.owner.Idle?
    ensures boxes == Upto(s.tail) && freed == Upto(|s.nodes|)
  {
    ReachableInv(s);
    boxes, freed := [], [];
    var node: Option<nat> := Some(0);
    while node.Some?
      invariant node == if |freed| < |s.nodes| then Some(|freed|) else None
      invariant |freed| <= |s.nodes| && freed == Upto(|freed|)
      invariant boxes == Upto(if |freed| * NODE_SIZE < s.tail then |freed| * NODE_SIZE else s.tail)
      decreases |s.nodes| - |freed|
    {
      var k := node.value;
      assert NodeOk(s, k);
      for i := 0 to NODE_SIZE
        invariant boxes == Upto(if k * NODE_SIZE + i < s.tail then k * NODE_SIZE + i else s.tail)
      {
        if s.nodes[k].cells[i].Some? {
          boxes := boxes + [s.nodes[k].cells[i].value];
        }
      }
      freed := freed + [k];
      node := s.nodes[k].next;
    }
  }
}

/** What the message-passing runtime promises over whole runs. */
module DistributedTheorems {
  import opened Numbers
  import opened Runs
  import opened Distributed
  import opened DistributedSafety

  ghost predicate Next(s: State, st: Step, s1: State) {
    Enabled(s, st) && s1 == Apply(s, st)
  }

  ghost predicate IsRun(r: Run<State, Step>) {
    && |r.states| == |r.steps| + 1
    && Init(r.states[0])
    && forall i :: 0 <= i < |r.steps| ==> Next(r.states[i], r.steps[i], r.states[i + 1])
  }

  lemma NextKeeps(s: State, st: Step, s1: State)
    requires Inv(s) && Next(s, st, s1)
    ensures Inv(s1)
  {
    StepKeeps(s, st);
  }

  ghost predicate Reachable(s: State) {
    exists r: Run<State, Step> :: IsRun(r) && r.states[|r.steps|] == s
  }

  lemma ReachableInv(s: State)
    requires Reachable(s)
    ensures Inv(s)
  {
    var r: Run<State, Step> :| IsRun(r) && r.states[|r.steps|] == s;
    forall k | 0 <= k < |r.states| - 1 && Inv(r.states[k])
      ensures Inv(r.states[k + 1])
    {
      NextKeeps(r.states[k], r.steps[k], r.states[k + 1]);
    }
    InitInv(r.states[0]);
    InvAlong(r.states, Inv, |r.steps|);
  }

  lemma RanDistinct(s: State)
    requires Ledger(s)
    ensures forall x: nat :: Occ(s.ran, x) <= if x < s.created then 1 else 0
    ensures |s.ran| <= s.created
  {
    forall x: nat
      ensures Occ(s.ran, x) <= if x < s.created then 1 else 0
    {
      assert LedgerAt(s, x);
    }
    AtMost(s.ran, s.created);
  }

  /** Conservation: `outstanding` is the number of tasks created and not yet run; each of those is at one
      node, waiting or running, or inside one message, once; no failed send ever destroyed one. */
  lemma TaskAccounting(s: State, x: nat)
    requires Reachable(s)
    ensures s.outstanding == s.created - |s.ran| >= 0 && s.dropped == []
    ensures Pending(s.nodes, x) + Occ(s.ran, x) == if x < s.created then 1 else 0
  {
    ReachableInv(s);
    RanDistinct(s);
    assert LedgerAt(s, x);
  }

  /** Once zero, `outstanding` stays zero and nothing more is created, run or dropped. */
  lemma ZeroIsStable(s: State, st: Step)
    requires Reachable(s) && s.outstanding == 0 && Enabled(s, st)
    ensures Apply(s, st).outstanding == 0
    ensures Apply(s, st).created == s.created && Apply(s, st).ran == s.ran && Apply(s, st).dropped == s.dropped
  {
    ReachableInv(s);
    StepKeeps(s, st);
    if s.nodes[st.i].pc.Running? {
      NodeHolds(s, st.i, s.nodes[st.i].pc.t);
    }
  }

  /** No node leaves early: once any has, every task seeded or spawned has run exactly once and none is
      left at a node or in a mailbox. */
  lemma ExitMeansAllRan(s: State, i: nat)
    requires Reachable(s) && i < |s.nodes| && s.nodes[i].pc.Exited?
    ensures forall x: nat :: Occ(s.ran, x) == (if x < s.created then 1 else 0) && Pending(s.nodes, x) == 0
  {
    ReachableInv(s);
    assert NodeOk(s, i);
    RanDistinct(s);
    Pigeonhole(s.ran, s.created);
    forall x: nat
      ensures Pending(s.nodes, x) == 0
    {
      assert LedgerAt(s, x);
    }
  }

  /** A batch sent to a node that has left is empty. */
  lemma NoTaskIsSentIntoTheVoid(s: State, i: nat)
    requires Reachable(s) && i < |s.nodes| && s.nodes[i].pc.Replying?
    ensures s.nodes[i].pc.from < |s.nodes|
    ensures s.nodes[s.nodes[i].pc.from].pc.Exited? ==> s.nodes[i].pc.batch == []
  {
    ReachableInv(s);
    if s.nodes[s.nodes[i].pc.from].pc.Exited? {
      FailedSendIsEmpty(s, i, s.nodes[i].pc.from, s.nodes[i].pc.batch);
    }
  }

  /** A node has at most one unanswered request, and knows: while it runs, its flag is set exactly when
      one request of its is waiting, being answered, or answered but not yet received. */
  lemma OneRequestAtATime(s: State, i: nat)
    requires Reachable(s) && i < |s.nodes|
    ensures Unanswered(s.nodes, i) <= 1
    ensures !s.nodes[i].pc.Exited? ==> (Unanswered(s.nodes, i) == 1 <==> s.nodes[i].pending)
  {
    ReachableInv(s);
    assert NodeOk(s, i);
  }

  /** Answering a request splits the victim's tasks: it keeps the older ones, more than half of them, and
      nothing is duplicated or lost. */
  lemma VictimKeepsMoreThanHalf(s: State, i: nat, from: nat)
    requires i < |s.nodes| && s.nodes[i].pc.Draining? && s.nodes[i].mailbox != []
    requires s.nodes[i].mailbox[0] == StealRequest(from)
    ensures var n, n1 := s.nodes[i], Receive(s, i).nodes[i];
      && n1.pc.Replying? && n1.pc.from == from && n.local == n1.local + n1.pc.batch
      && (n.local != [] ==> 2 * |n1.local| > |n.local|)
      && (|n.local| >= 3 ==> n1.pc.batch != [])
  {
    var local := s.nodes[i].local;
    var keep := |local| - Give(|local|);
    assert local == local[..keep] + local[keep..];
  }

  // ---------------------------------------------------------------- seeding

  function Seeded(pools: seq<seq<nat>>): (r: seq<Node>)
    ensures |r| == |pools|
  {
    seq(|pools|, i requires 0 <= i < |pools| => Node(Draining, pools[i], false, []))
  }

  lemma SeedNone(nodes: nat, x: nat)
    ensures Pending(Seeded(seq(nodes, i => [])), x) == 0
  {
    if nodes > 0 {
      SeedNone(nodes - 1, x);
      var now := Seeded(seq(nodes, i => []));
      assert now[..nodes - 1] == Seeded(seq(nodes - 1, i => []));
    }
  }

  lemma SeedOne(pools: seq<seq<nat>>, i: nat, t: nat, x: nat)
    requires i < |pools|
    ensures Pending(Seeded(pools[i := pools[i] + [t]]), x) == Pending(Seeded(pools), x) + Is(t, x)
  {
    var n := Node(Draining, pools[i] + [t], false, []);
    assert Seeded(pools[i := pools[i] + [t]]) == Seeded(pools)[i := n];
    OccAppend(pools[i], t, x);
    SumSet(Seeded(pools), i, n, OfTask(x));
  }

  /** The seeding loop of `run`: round-robin over at least one node, into a state the machine starts from;
      with no seeds `run` returns at once. */
  method Seed(nodes: nat, tasks: nat) returns (s: State)
    ensures |s.nodes| == if nodes == 0 then 1 else nodes
    ensures s.created == tasks == s.outstanding
    ensures tasks > 0 ==> Init(s)
    ensures tasks == 0 ==> forall x: nat :: Pending(s.nodes, x) == 0
  {
    var n: nat := if nodes == 0 then 1 else nodes;
    var pools: seq<seq<nat>> := seq(n, i => []);
    forall x: nat
      ensures Pending(Seeded(pools), x) == 0
    {
      SeedNone(n, x);
    }
    for t := 0 to tasks
      invariant |pools| == n
      invariant forall x: nat :: Pending(Seeded(pools), x) == if x < t then 1 else 0
    {
      ghost var was := pools;
      pools := pools[t % n := pools[t % n] + [t]];
      forall x: nat
        ensures Pending(Seeded(pools), x) == if x < t + 1 then 1 else 0
      {
        SeedOne(was, t % n, t, x);
      }
    }
    s := State(Seeded(pools), tasks, tasks, [], []);
  }
}

/** From wherever the message-passing runtime has got to, all its work can still be done and all nodes leave. */
module DistributedProgress {
  import opened Numbers
  import opened Runs
  import opened Distributed
  import opened DistributedSafety
  import opened DistributedTheorems

  /** As many tasks created, and `n` fewer outstanding. */
  ghost predicate Fewer(s: State, s1: State, n: int) {
    |s1.nodes| == |s.nodes| && s1.created == s.created && s1.outstanding == s.outstanding - n
  }

  /** What is in a mailbox, counted so that answering a request lowers it even if the answer comes back here. */
  function Load(mailbox: seq<Message>): nat {
    if mailbox == [] then 0 else Load(mailbox[..|mailbox| - 1]) + if mailbox[|mailbox| - 1].Work? then 1 else 3
  }

  lemma LoadAppend(mailbox: seq<Message>, m: Message)
    ensures Load(mailbox + [m]) == Load(mailbox) + if m.Work? then 1 else 3
  {
    assert (mailbox + [m])[..|mailbox|] == mailbox;
  }

  lemma {:induction false} LoadFirst(mailbox: seq<Message>)
    requires mailbox != []
    ensures Load(mailbox) == (if mailbox[0].Work? then 1 else 3) + Load(mailbox[1..])
    decreases |mailbox|
  {
    if |mailbox| > 1 {
      var front := mailbox[..|mailbox| - 1];
      LoadFirst(front);
      assert mailbox[1..] == front[1..] + [mailbox[|mailbox| - 1]];
      LoadAppend(front[1..], mailbox[|mailbox| - 1]);
    }
  }

  ghost predicate BringsWork(m: Message) {
    m.Work? && m.batch != []
  }

  /** The node has a task waiting, or will find one in its mailbox. */
  ghost predicate HasWork(n: Node) {
    n.local != [] || exists m :: m in n.mailbox && BringsWork(m)
  }

  function Rank(n: Node): nat {
    var load := 5 * Load(n.mailbox);
    match n.pc
    case Draining => load + 2
    case Replying(_, _) => load + 8
    case Checking => load + 4
    case Asking => load + 3
    case _ => 1
  }

  function Pick(s: State, i: nat): Step
    requires i < |s.nodes|
  {
    var pc := s.nodes[i].pc;
    if pc.Running? then Finish(i) else if pc.Asking? then Ask(i, i) else Go(i)
  }

  lemma ReceiveNearer(s: State, i: nat)
    requires i < |s.nodes| && s.nodes[i].pc.Draining? && s.nodes[i].mailbox != []
    ensures Rank(Receive(s, i).nodes[i]) < Rank(s.nodes[i])
    ensures HasWork(s.nodes[i]) ==> HasWork(Receive(s, i).nodes[i])
  {
    var me, me1 := s.nodes[i], Receive(s, i).nodes[i];
    LoadFirst(me.mailbox);
    assert me.mailbox == [me.mailbox[0]] + me.mailbox[1..];
  }

  lemma ReplyNearer(s: State, i: nat, from: nat, batch: seq<nat>)
    requires i < |s.nodes| && s.nodes[i].pc == Replying(from, batch)
    ensures |Reply(s, i, from, batch).nodes| == |s.nodes|
    ensures Rank(Reply(s, i, from, batch).nodes[i]) < Rank(s.nodes[i])
    ensures forall j :: 0 <= j < |s.nodes| && HasWork(s.nodes[j]) ==> HasWork(Reply(s, i, from, batch).nodes[j])
    ensures forall j :: 0 <= j < |s.nodes| && j != i ==> Reply(s, i, from, batch).nodes[j].pc == s.nodes[j].pc
    ensures from < |s.nodes| && !s.nodes[from].pc.Exited? && batch != [] ==>
      HasWork(Reply(s, i, from, batch).nodes[from])
  {
    var s1 := Reply(s, i, from, batch);
    LoadAppend(s.nodes[i].mailbox, Work(batch));
    assert BringsWork(Work(batch)) <==> batch != [];
    forall j | 0 <= j < |s.nodes| && HasWork(s.nodes[j])
      ensures HasWork(s1.nodes[j])
    {
      if s.nodes[j].local == [] {
        var m :| m in s.nodes[j].mailbox && BringsWork(m);
        assert m in s1.nodes[j].mailbox;
      }
    }
    if from < |s.nodes| && !s.nodes[from].pc.Exited? {
      assert Work(batch) in s1.nodes[from].mailbox;
    }
  }

  // ---------------------------------------------------------------- finishing one task

  lemma WorkMoves(s: State, i: nat)
    requires Inv(s) && i < |s.nodes| && s.outstanding > 0 && (s.nodes[i].pc.Running? || HasWork(s.nodes[i]))
    ensures Enabled(s, Pick(s, i))
    ensures var s1 := Apply(s, Pick(s, i));
      if s.nodes[i].pc.Running? then Fewer(s, s1, 1)
      else Fewer(s, s1, 0) && (s1.nodes[i].pc.Running? || HasWork(s1.nodes[i]))
           && Rank(s1.nodes[i]) < Rank(s.nodes[i])
  {
    assert NodeOk(s, i);
    var me := s.nodes[i];
    match me.pc
    case Draining => if me.mailbox != [] { ReceiveNearer(s, i); }
    case Replying(from, batch) => ReplyNearer(s, i, from, batch);
    case _ =>
  }

  /** A node with work can come to run a task and finish it. */
  lemma {:induction false} FinishHere(s: State, i: nat) returns (steps: seq<Step>, s1: State)
    requires Inv(s) && i < |s.nodes| && s.outstanding > 0 && (s.nodes[i].pc.Running? || HasWork(s.nodes[i]))
    ensures Leads(Next, s, steps, s1) && Inv(s1) && Fewer(s, s1, 1)
    decreases Rank(s.nodes[i])
  {
    var st := Pick(s, i);
    WorkMoves(s, i);
    StepKeeps(s, st);
    if s.nodes[i].pc.Running? {
      steps, s1 := [], Apply(s, st);
    } else {
      steps, s1 := FinishHere(Apply(s, st), i);
    }
    LeadsFirst(Next, s, st, Apply(s, st), steps, s1);
    steps := [st] + steps;
  }

  lemma {:induction false} NothingMailed(mailbox: seq<Message>, x: nat)
    requires forall m :: m in mailbox ==> !BringsWork(m)
    ensures Mailed(mailbox, x) == 0
  {
    if mailbox != [] {
      NothingMailed(mailbox[..|mailbox| - 1], x);
      assert !BringsWork(mailbox[|mailbox| - 1]);
    }
  }

  ghost predicate Parting(n: Node) {
    n.pc.Replying? && n.pc.batch != []
  }

  lemma {:induction false} NothingPending(ns: seq<Node>, x: nat)
    requires forall i :: 0 <= i < |ns| ==> !ns[i].pc.Running? && !Parting(ns[i]) && !HasWork(ns[i])
    ensures Pending(ns, x) == 0
  {
    if ns != [] {
      NothingPending(ns[..|ns| - 1], x);
      NothingMailed(ns[|ns| - 1].mailbox, x);
    }
  }

  /** If no task is left anywhere, nothing is outstanding. */
  lemma NonePending(s: State)
    requires Ledger(s) && forall x: nat :: Pending(s.nodes, x) == 0
    ensures s.outstanding == 0
  {
    forall x: nat
      ensures multiset(s.ran)[x] == multiset(Upto(s.created))[x]
    {
      assert LedgerAt(s, x);
      OccMultiset(s.ran, x);
      UptoOnce(s.created, x);
    }
    assert multiset(s.ran) == multiset(Upto(s.created));
    assert |s.ran| == |multiset(s.ran)| && |Upto(s.created)| == |multiset(Upto(s.created))|;
  }

  /** As long as something is outstanding, some node runs a task, is about to give some away, or has some. */
  lemma SomebodyHasIt(s: State)
    requires Ledger(s) && s.outstanding > 0
    ensures exists i: nat :: i < |s.nodes| && (s.nodes[i].pc.Running? || Parting(s.nodes[i]) || HasWork(s.nodes[i]))
  {
    if forall i :: 0 <= i < |s.nodes| ==> !s.nodes[i].pc.Running? && !Parting(s.nodes[i]) && !HasWork(s.nodes[i]) {
      forall x: nat
        ensures Pending(s.nodes, x) == 0
      {
        NothingPending(s.nodes, x);
      }
      NonePending(s);
    }
  }

  /** A batch given away arrives at a node that has not left. */
  lemma BatchArrives(s: State, i: nat) returns (s1: State, to: nat)
    requires Inv(s) && i < |s.nodes| && s.outstanding > 0 && Parting(s.nodes[i])
    ensures Next(s, Go(i), s1) && Inv(s1) && Fewer(s, s1, 0) && to < |s1.nodes| && HasWork(s1.nodes[to])
  {
    to := s.nodes[i].pc.from;
    assert NodeOk(s, to);
    ReplyNearer(s, i, to, s.nodes[i].pc.batch);
    StepKeeps(s, Go(i));
    s1 := Apply(s, Go(i));
  }

  /** One task fewer. */
  lemma FinishOne(s: State) returns (steps: seq<Step>, s1: State)
    requires Inv(s) && s.outstanding > 0
    ensures Leads(Next, s, steps, s1) && Inv(s1) && Fewer(s, s1, 1)
  {
    SomebodyHasIt(s);
    var i: nat :| i < |s.nodes| && (s.nodes[i].pc.Running? || Parting(s.nodes[i]) || HasWork(s.nodes[i]));
    if s.nodes[i].pc.Running? || HasWork(s.nodes[i]) {
      steps, s1 := FinishHere(s, i);
    } else {
      var s0, to := BatchArrives(s, i);
      steps, s1 := FinishHere(s0, to);
      LeadsFirst(Next, s, Go(i), s0, steps, s1);
      steps := [Go(i)] + steps;
    }
  }

  lemma {:induction false} FinishAll(s: State) returns (steps: seq<Step>, s1: State)
    requires Inv(s)
    ensures Leads(Next, s, steps, s1) && Inv(s1) && s1.created == s.created && s1.outstanding == 0
    ensures |s1.nodes| == |s.nodes|
    decreases s.outstanding
  {
    RanDistinct(s);
    if s.outstanding == 0 {
      steps, s1 := [], s;
    } else {
      var first, s0 := FinishOne(s);
      RanDistinct(s0);
      steps, s1 := FinishAll(s0);
      LeadsOn(Next, s, first, s0, steps, s1);
      steps := first + steps;
    }
  }

  // ---------------------------------------------------------------- leaving

  lemma NobodyHasAny(s: State, i: nat)
    requires Inv(s) && s.outstanding == 0 && i < |s.nodes|
    ensures !s.nodes[i].pc.Running? && s.nodes[i].local == []
  {
    var n := s.nodes[i];
    if n.pc.Running? {
      NodeHolds(s, i, n.pc.t);
    } else if n.local != [] {
      OccFirst(n.local, n.local[0]);
      NodeHolds(s, i, n.local[0]);
    }
  }

  function ExitRank(n: Node): nat {
    if n.pc.Exited? then 0 else if n.pc.Checking? then 1 else Rank(n)
  }

  ghost predicate StayGone(s: State, s1: State) {
    |s1.nodes| == |s.nodes|
      && forall j :: 0 <= j < |s.nodes| && s.nodes[j].pc.Exited? ==> s1.nodes[j].pc.Exited?
  }

  lemma StepStaysGone(s: State, st: Step)
    requires Enabled(s, st)
    ensures StayGone(s, Apply(s, st))
  {
  }

  lemma ExitMoves(s: State, i: nat)
    requires Inv(s) && s.outstanding == 0 && i < |s.nodes| && !s.nodes[i].pc.Exited?
    ensures Enabled(s, Pick(s, i))
    ensures var s1 := Apply(s, Pick(s, i));
      Fewer(s, s1, 0) && ExitRank(s1.nodes[i]) < ExitRank(s.nodes[i])
  {
    NobodyHasAny(s, i);
    var me := s.nodes[i];
    match me.pc
    case Draining => if me.mailbox != [] { ReceiveNearer(s, i); }
    case Replying(from, batch) => ReplyNearer(s, i, from, batch);
    case _ =>
  }

  /** A node can leave. */
  lemma {:induction false} Leave(s: State, i: nat) returns (steps: seq<Step>, s1: State)
    requires Inv(s) && s.outstanding == 0 && i < |s.nodes|
    ensures Leads(Next, s, steps, s1) && Inv(s1) && Fewer(s, s1, 0)
    ensures StayGone(s, s1) && s1.nodes[i].pc.Exited?
    decreases ExitRank(s.nodes[i])
  {
    if s.nodes[i].pc.Exited? {
      steps, s1 := [], s;
    } else {
      var st := Pick(s, i);
      ExitMoves(s, i);
      StepStaysGone(s, st);
      StepKeeps(s, st);
      steps, s1 := Leave(Apply(s, st), i);
      LeadsFirst(Next, s, st, Apply(s, st), steps, s1);
      steps := [st] + steps;
    }
  }

  lemma {:induction false} LeaveUpTo(s: State, n: nat) returns (steps: seq<Step>, s1: State)
    requires Inv(s) && s.outstanding == 0 && n <= |s.nodes|
    ensures Leads(Next, s, steps, s1) && Inv(s1) && Fewer(s, s1, 0)
    ensures forall i :: 0 <= i < n ==> s1.nodes[i].pc.Exited?
  {
    if n == 0 {
      steps, s1 := [], s;
    } else {
      var first, s0 := LeaveUpTo(s, n - 1);
      steps, s1 := Leave(s0, n - 1);
      LeadsOn(Next, s, first, s0, steps, s1);
      steps := first + steps;
    }
  }

  ghost predicate AllExited(s: State) {
    forall i :: 0 <= i < |s.nodes| ==> s.nodes[i].pc.Exited?
  }

  lemma OneStepOn(s: State, st: Step)
    requires Reachable(s) && Enabled(s, st)
    ensures Reachable(Apply(s, st))
  {
    var r: Run<State, Step> :| IsRun(r) && r.states[|r.steps|] == s;
    var r1 := Run(r.states + [Apply(s, st)], r.steps + [st]);
    forall i | 0 <= i < |r1.steps|
      ensures Next(r1.states[i], r1.steps[i], r1.states[i + 1])
    {
      if i < |r.steps| {
        assert Next(r.states[i], r.steps[i], r.states[i + 1]);
      }
    }
    assert IsRun(r1) && r1.states[|r1.steps|] == Apply(s, st);
  }

  lemma LeadsReachable(s: State, steps: seq<Step>, s1: State)
    requires Reachable(s) && Leads(Next, s, steps, s1)
    ensures Reachable(s1)
  {
    forall a, st, b | Reachable(a) && Next(a, st, b)
      ensures Reachable(b)
    {
      OneStepOn(a, st);
    }
    LeadsKeep(Next, Reachable, s, steps, s1);
  }

  /** Nothing the nodes have done so far keeps them from finishing: from every reachable state there are further
      steps, with nothing more spawned, after which all nodes have left and every task has run exactly once. */
  lemma CanFinish(s: State) returns (steps: seq<Step>, s1: State)
    requires Reachable(s)
    ensures Leads(Next, s, steps, s1) && Reachable(s1) && AllExited(s1) && s1.created == s.created
    ensures forall x: nat :: Occ(s1.ran, x) == if x < s.created then 1 else 0
  {
    ReachableInv(s);
    var a, s2 := FinishAll(s);
    var b, s3 := LeaveUpTo(s2, |s2.nodes|);
    LeadsOn(Next, s, a, s2, b, s3);
    steps, s1 := a + b, s3;
    LeadsReachable(s, steps, s1);
    RanDistinct(s1);
    Pigeonhole(s1.ran, s1.created);
  }

  // ---------------------------------------------------------------- asking for work

  /** A node that has found no task of its own while something is outstanding, and is owed no answer, asks: its
      request is the last thing in the mailbox of the victim it picks, unless that is itself or has left. */
  lemma StarvingAsks(s: State, i: nat, victim: nat)
    requires i < |s.nodes| && victim < |s.nodes| && s.nodes[i].pc.Checking? && s.outstanding != 0
    requires !s.nodes[i].pending && |s.nodes| > 1
    ensures Enabled(s, Go(i)) && Enabled(Apply(s, Go(i)), Ask(i, victim))
    ensures var s1 := Apply(Apply(s, Go(i)), Ask(i, victim));
      && |s1.nodes| == |s.nodes|
      && if victim == i || s.nodes[victim].pc.Exited? then !s1.nodes[i].pending
         else s1.nodes[i].pending && s1.nodes[victim].mailbox == s.nodes[victim].mailbox + [StealRequest(i)]
  {
  }

  /** Nobody ever waits, and what is left open: a task may spawn or return, and any node may be asked. */
  lemma NobodyWaits(s: State, i: nat, victim: nat)
    requires i < |s.nodes| && victim < |s.nodes| && !s.nodes[i].pc.Exited?
    ensures var pc := s.nodes[i].pc;
      if pc.Running? then Enabled(s, Spawn(i)) && Enabled(s, Finish(i))
      else if pc.Asking? then Enabled(s, Ask(i, victim)) else Enabled(s, Go(i))
  {
  }

  // ---------------------------------------------------------------- tasks stay in order

  /** A node runs the youngest of its tasks, once its mailbox is empty, and goes idle only when it has none; a batch
      that arrives goes on top in its order. */
  lemma RunsYoungest(s: State, i: nat)
    requires i < |s.nodes| && s.nodes[i].pc.Draining?
    ensures var me, me1 := s.nodes[i], Receive(s, i).nodes[i];
      && (me1.pc.Running? ==> me.mailbox == [] && me.local == me1.local + [me1.pc.t])
      && (me.mailbox == [] && !me1.pc.Running? ==> me.local == [])
      && (me.mailbox != [] && me.mailbox[0].Work? ==> me1.local == me.local + me.mailbox[0].batch && me1.pc.Draining?)
  {
  }
}

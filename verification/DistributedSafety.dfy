/** Every step of the message-passing runtime keeps its invariant. */
module DistributedSafety {
  import opened Numbers
  import opened Distributed

  // ---------------------------------------------------------------- counting

  lemma SumSet(ns: seq<Node>, i: nat, n: Node, f: Node -> nat)
    requires i < |ns|
    ensures Sum(ns[i := n], f) == Sum(ns, f) - f(ns[i]) + f(n)
    decreases |ns|
  {
    var front := ns[..|ns| - 1];
    if i == |ns| - 1 {
      assert ns[i := n][..|ns| - 1] == front;
    } else {
      SumSet(front, i, n, f);
      assert ns[i := n][..|ns| - 1] == front[i := n];
    }
  }

  lemma SumHas(ns: seq<Node>, i: nat, f: Node -> nat)
    requires i < |ns|
    ensures f(ns[i]) <= Sum(ns, f)
    decreases |ns|
  {
    if i < |ns| - 1 {
      SumHas(ns[..|ns| - 1], i, f);
    }
  }

  lemma OccConcat(a: seq<nat>, b: seq<nat>, x: nat)
    ensures Occ(a + b, x) == Occ(a, x) + Occ(b, x)
    decreases |b|
  {
    if b == [] {
      assert a + b == a;
    } else {
      assert (a + b)[..|a + b| - 1] == a + b[..|b| - 1];
      OccConcat(a, b[..|b| - 1], x);
    }
  }

  /** Taking the first message out of a mailbox. */
  lemma MailFirst(mailbox: seq<Message>, x: nat)
    requires mailbox != []
    ensures Mailed(mailbox, x) == Carries(mailbox[0], x) + Mailed(mailbox[1..], x)
    ensures Requests(mailbox, x) == (if mailbox[0] == StealRequest(x) then 1 else 0) + Requests(mailbox[1..], x)
    ensures Answers(mailbox) == (if mailbox[0].Work? then 1 else 0) + Answers(mailbox[1..])
    decreases |mailbox|
  {
    if |mailbox| > 1 {
      var front := mailbox[..|mailbox| - 1];
      MailFirst(front, x);
      assert mailbox[1..][..|mailbox| - 2] == front[1..];
    }
  }

  /** Putting a message into a mailbox. */
  lemma MailAppend(mailbox: seq<Message>, m: Message, x: nat)
    ensures Mailed(mailbox + [m], x) == Mailed(mailbox, x) + Carries(m, x)
    ensures Requests(mailbox + [m], x) == Requests(mailbox, x) + (if m == StealRequest(x) then 1 else 0)
    ensures Answers(mailbox + [m]) == Answers(mailbox) + (if m.Work? then 1 else 0)
  {
    assert (mailbox + [m])[..|mailbox|] == mailbox;
  }

  // ---------------------------------------------------------------- what `outstanding` says

  /** As `outstanding` counts what is not done, a task in anyone's hands keeps it above zero. */
  lemma HeldMeansOutstanding(s: State, x: nat)
    requires Ledger(s) && Pending(s.nodes, x) > 0
    ensures s.outstanding > 0
  {
    forall y: nat
      ensures Occ(s.ran, y) <= if y < s.created then 1 else 0
    {
      assert LedgerAt(s, y);
    }
    AtMost(s.ran, s.created);
    assert LedgerAt(s, x);
    if |s.ran| == s.created {
      Pigeonhole(s.ran, s.created);
    }
  }

  lemma NodeHolds(s: State, i: nat, x: nat)
    requires Ledger(s) && i < |s.nodes| && Holdings(s.nodes[i], x) > 0
    ensures s.outstanding > 0
  {
    SumHas(s.nodes, i, OfTask(x));
    HeldMeansOutstanding(s, x);
  }

  // ---------------------------------------------------------------- one node changes

  ghost predicate SameTasks(n: Node, n1: Node) {
    forall x: nat :: Holdings(n1, x) == Holdings(n, x)
  }

  /** A step that moves no task in or out of node `i`. */
  lemma LedgerStill(s: State, i: nat, n1: Node)
    requires i < |s.nodes| && Ledger(s) && SameTasks(s.nodes[i], n1)
    ensures Ledger(Put(s, i, n1))
  {
    var s1 := Put(s, i, n1);
    forall x: nat
      ensures LedgerAt(s1, x)
    {
      assert LedgerAt(s, x);
      SumSet(s.nodes, i, n1, OfTask(x));
    }
  }

  /** No request or answer moves. */
  lemma RequestsStill(s: State, s1: State, i: nat, n1: Node)
    requires i < |s.nodes| && s1.nodes == s.nodes[i := n1]
    requires forall j: nat :: Asked(n1, j) == Asked(s.nodes[i], j)
    requires Answers(n1.mailbox) == Answers(s.nodes[i].mailbox)
    ensures forall j :: 0 <= j < |s.nodes| ==> Unanswered(s1.nodes, j) == Unanswered(s.nodes, j)
  {
    forall j | 0 <= j < |s.nodes|
      ensures Unanswered(s1.nodes, j) == Unanswered(s.nodes, j)
    {
      SumSet(s.nodes, i, n1, OfNode(j));
    }
  }

  lemma MoveKeeps(s: State, i: nat, n1: Node)
    requires Inv(s) && i < |s.nodes|
    requires SameTasks(s.nodes[i], n1) && n1.mailbox == s.nodes[i].mailbox && n1.pending == s.nodes[i].pending
    requires !n1.pc.Replying? && !s.nodes[i].pc.Replying? && !s.nodes[i].pc.Exited?
    requires n1.pc.Exited? ==> s.outstanding == 0
    requires n1.pc.Asking? ==> !n1.pending
    requires n1.pc.Checking? || n1.pc.Asking? || n1.pc.Exited? ==> n1.local == []
    ensures Inv(Put(s, i, n1))
  {
    var s1 := Put(s, i, n1);
    LedgerStill(s, i, n1);
    RequestsStill(s, s1, i, n1);
    forall j | 0 <= j < |s1.nodes|
      ensures NodeOk(s1, j)
    {
      assert NodeOk(s, j);
    }
  }

  // ---------------------------------------------------------------- receiving

  lemma TakeLocalKeeps(s: State, i: nat)
    requires Inv(s) && i < |s.nodes| && s.nodes[i].pc.Draining? && s.nodes[i].mailbox == []
    ensures Inv(Receive(s, i))
  {
    MoveKeeps(s, i, Receive(s, i).nodes[i]);
  }

  lemma ReceiveSendersOk(s: State, i: nat)
    requires SendersOk(s) && i < |s.nodes| && s.nodes[i].pc.Draining? && s.nodes[i].mailbox != []
    ensures SendersOk(Receive(s, i))
  {
    var n, n1 := s.nodes[i], Receive(s, i).nodes[i];
    assert forall k :: 0 <= k < |n1.mailbox| ==> n1.mailbox[k] == n.mailbox[k + 1];
    assert n.mailbox[0].StealRequest? ==> n.mailbox[0].from < |s.nodes|;
  }

  lemma ReceiveTasks(s: State, i: nat)
    requires i < |s.nodes| && s.nodes[i].pc.Draining? && s.nodes[i].mailbox != []
    ensures SameTasks(s.nodes[i], Receive(s, i).nodes[i])
  {
    var n, n1 := s.nodes[i], Receive(s, i).nodes[i];
    forall x: nat
      ensures Holdings(n1, x) == Holdings(n, x)
    {
      MailFirst(n.mailbox, x);
      if n.mailbox[0].Work? {
        OccConcat(n.local, n.mailbox[0].batch, x);
      } else {
        var keep := |n.local| - Give(|n.local|);
        assert n.local == n.local[..keep] + n.local[keep..];
        OccConcat(n.local[..keep], n.local[keep..], x);
      }
    }
  }

  lemma ReceiveRequests(s: State, i: nat, j: nat)
    requires i < |s.nodes| && j < |s.nodes| && s.nodes[i].pc.Draining? && s.nodes[i].mailbox != []
    ensures Unanswered(Receive(s, i).nodes, j)
         == Unanswered(s.nodes, j) - if j == i && s.nodes[i].mailbox[0].Work? then 1 else 0
  {
    var n1 := Receive(s, i).nodes[i];
    SumSet(s.nodes, i, n1, OfNode(j));
    MailFirst(s.nodes[i].mailbox, j);
  }

  lemma ReceiveKeeps(s: State, i: nat)
    requires Inv(s) && i < |s.nodes| && s.nodes[i].pc.Draining? && s.nodes[i].mailbox != []
    ensures Inv(Receive(s, i))
  {
    var s1 := Receive(s, i);
    ReceiveTasks(s, i);
    LedgerStill(s, i, s1.nodes[i]);
    ReceiveSendersOk(s, i);
    forall j | 0 <= j < |s1.nodes|
      ensures NodeOk(s1, j)
    {
      assert NodeOk(s, j);
      ReceiveRequests(s, i, j);
    }
  }

  // ---------------------------------------------------------------- replying

  lemma HoldsMail(n: Node, msg: Message, x: nat)
    ensures Holdings(n.(mailbox := n.mailbox + [msg]), x) == Holdings(n, x) + Carries(msg, x)
  {
    var mailbox := n.mailbox + [msg];
    MailAppend(n.mailbox, msg, x);
    assert Mailed(mailbox, x) == Mailed(n.mailbox, x) + Carries(msg, x);
  }

  lemma AskedMail(n: Node, msg: Message, i: nat)
    ensures Asked(n.(mailbox := n.mailbox + [msg]), i) == Asked(n, i) + if msg == StealRequest(i) then 1 else 0
  {
    MailAppend(n.mailbox, msg, i);
  }

  lemma SentTasks(s: State, to: nat, msg: Message, x: nat)
    requires to < |s.nodes|
    ensures Pending(Sent(s, to, msg).nodes, x) == Pending(s.nodes, x) + Carries(msg, x)
  {
    var n := s.nodes[to];
    HoldsMail(n, msg, x);
    SumSet(s.nodes, to, n.(mailbox := n.mailbox + [msg]), OfTask(x));
  }

  lemma SentRequests(s: State, to: nat, msg: Message, j: nat)
    requires to < |s.nodes| && j < |s.nodes|
    ensures Unanswered(Sent(s, to, msg).nodes, j) == Unanswered(s.nodes, j)
      + (if msg == StealRequest(j) then 1 else 0) + (if j == to && msg.Work? then 1 else 0)
  {
    var n := s.nodes[to];
    AskedMail(n, msg, j);
    MailAppend(n.mailbox, msg, j);
    SumSet(s.nodes, to, n.(mailbox := n.mailbox + [msg]), OfNode(j));
  }

  /** A send that fails carries nothing: whoever has left saw no work outstanding. */
  lemma FailedSendIsEmpty(s: State, i: nat, from: nat, batch: seq<nat>)
    requires Inv(s) && i < |s.nodes| && s.nodes[i].pc == Replying(from, batch)
    requires from < |s.nodes| && s.nodes[from].pc.Exited?
    ensures batch == []
  {
    assert NodeOk(s, from);
    if batch != [] {
      OccFirst(batch, batch[0]);
      NodeHolds(s, i, batch[0]);
    }
  }

  lemma ReplyLedger(s: State, i: nat, from: nat, batch: seq<nat>, x: nat)
    requires LedgerAt(s, x) && i < |s.nodes| && from < |s.nodes| && s.nodes[i].pc == Replying(from, batch)
    ensures LedgerAt(Reply(s, i, from, batch), x)
  {
    var s1 := Put(s, i, s.nodes[i].(pc := Draining));
    SumSet(s.nodes, i, s1.nodes[i], OfTask(x));
    SentTasks(s1, from, Work(batch), x);
    OccConcat(s.dropped, batch, x);
  }

  lemma ReplyRequests(s: State, i: nat, from: nat, batch: seq<nat>, j: nat)
    requires i < |s.nodes| && from < |s.nodes| && j < |s.nodes| && s.nodes[i].pc == Replying(from, batch)
    ensures Unanswered(Reply(s, i, from, batch).nodes, j)
         == Unanswered(s.nodes, j) - if j == from && s.nodes[from].pc.Exited? then 1 else 0
  {
    var s1 := Put(s, i, s.nodes[i].(pc := Draining));
    SumSet(s.nodes, i, s1.nodes[i], OfNode(j));
    assert Unanswered(s1.nodes, j) == Unanswered(s.nodes, j) - if j == from then 1 else 0;
    SentRequests(s1, from, Work(batch), j);
  }

  lemma ReplyKeeps(s: State, i: nat, from: nat, batch: seq<nat>)
    requires Inv(s) && i < |s.nodes| && s.nodes[i].pc == Replying(from, batch)
    ensures Inv(Reply(s, i, from, batch))
  {
    var s1 := Reply(s, i, from, batch);
    if s.nodes[from].pc.Exited? {
      FailedSendIsEmpty(s, i, from, batch);
    }
    forall x: nat
      ensures LedgerAt(s1, x)
    {
      assert LedgerAt(s, x);
      ReplyLedger(s, i, from, batch, x);
    }
    forall j | 0 <= j < |s1.nodes|
      ensures NodeOk(s1, j)
    {
      assert NodeOk(s, j);
      ReplyRequests(s, i, from, batch, j);
    }
  }

  // ---------------------------------------------------------------- asking

  lemma AskTasks(s: State, i: nat, victim: nat, x: nat)
    requires i < |s.nodes| && victim < |s.nodes| && s.nodes[i].pc.Asking? && LedgerAt(s, x)
    requires victim != i && !s.nodes[victim].pc.Exited?
    ensures LedgerAt(AskVictim(s, i, victim), x)
  {
    var s1 := Put(s, i, s.nodes[i].(pc := Draining, pending := true));
    SumSet(s.nodes, i, s1.nodes[i], OfTask(x));
    SentTasks(s1, victim, StealRequest(i), x);
  }

  lemma AskRequests(s: State, i: nat, victim: nat, j: nat)
    requires i < |s.nodes| && victim < |s.nodes| && j < |s.nodes| && s.nodes[i].pc.Asking?
    requires victim != i && !s.nodes[victim].pc.Exited?
    ensures Unanswered(AskVictim(s, i, victim).nodes, j) == Unanswered(s.nodes, j) + if j == i then 1 else 0
  {
    var s1 := Put(s, i, s.nodes[i].(pc := Draining, pending := true));
    SumSet(s.nodes, i, s1.nodes[i], OfNode(j));
    SentRequests(s1, victim, StealRequest(i), j);
  }

  lemma AskKeeps(s: State, i: nat, victim: nat)
    requires Inv(s) && i < |s.nodes| && victim < |s.nodes| && s.nodes[i].pc.Asking?
    ensures Inv(AskVictim(s, i, victim))
  {
    var s1 := AskVictim(s, i, victim);
    if victim == i || s.nodes[victim].pc.Exited? {
      MoveKeeps(s, i, s.nodes[i].(pc := Draining));
    } else {
      forall x: nat
        ensures LedgerAt(s1, x)
      {
        assert LedgerAt(s, x);
        AskTasks(s, i, victim, x);
      }
      forall j | 0 <= j < |s1.nodes|
        ensures NodeOk(s1, j)
      {
        assert NodeOk(s, j);
        AskRequests(s, i, victim, j);
      }
    }
  }

  // ---------------------------------------------------------------- tasks

  lemma SpawnKeeps(s: State, i: nat)
    requires Inv(s) && i < |s.nodes| && s.nodes[i].pc.Running?
    ensures Inv(SpawnChild(s, i))
  {
    var s1 := SpawnChild(s, i);
    forall x: nat
      ensures LedgerAt(s1, x)
    {
      assert LedgerAt(s, x);
      SumSet(s.nodes, i, s1.nodes[i], OfTask(x));
      OccAppend(s.nodes[i].local, s.created, x);
    }
    NodeHolds(s, i, s.nodes[i].pc.t);
    RequestsStill(s, s1, i, s1.nodes[i]);
    forall j | 0 <= j < |s1.nodes|
      ensures NodeOk(s1, j)
    {
      assert NodeOk(s, j);
    }
  }

  lemma FinishKeeps(s: State, i: nat, t: nat)
    requires Inv(s) && i < |s.nodes| && s.nodes[i].pc == Running(t)
    ensures Inv(FinishTask(s, i, t))
  {
    var s1 := FinishTask(s, i, t);
    forall x: nat
      ensures LedgerAt(s1, x)
    {
      assert LedgerAt(s, x);
      SumSet(s.nodes, i, s1.nodes[i], OfTask(x));
      OccAppend(s.ran, t, x);
    }
    NodeHolds(s, i, t);
    RequestsStill(s, s1, i, s1.nodes[i]);
    forall j | 0 <= j < |s1.nodes|
      ensures NodeOk(s1, j)
    {
      assert NodeOk(s, j);
    }
  }

  lemma CheckKeeps(s: State, i: nat)
    requires Inv(s) && i < |s.nodes| && s.nodes[i].pc.Checking?
    ensures Inv(Check(s, i))
  {
    assert NodeOk(s, i);
    MoveKeeps(s, i, Check(s, i).nodes[i]);
  }

  lemma InitInv(s: State)
    requires Init(s)
    ensures Inv(s)
  {
    forall x: nat
      ensures LedgerAt(s, x)
    {
    }
    forall i | 0 <= i < |s.nodes|
      ensures NodeOk(s, i)
    {
      NobodyAsked(s.nodes, i);
    }
  }

  lemma NobodyAsked(ns: seq<Node>, i: nat)
    requires forall k :: 0 <= k < |ns| ==> ns[k].mailbox == [] && ns[k].pc.Draining?
    ensures Sum(ns, OfNode(i)) == 0
  {
    if ns != [] {
      NobodyAsked(ns[..|ns| - 1], i);
    }
  }

  lemma StepKeeps(s: State, st: Step)
    requires Inv(s) && Enabled(s, st)
    ensures Inv(Apply(s, st))
  {
    match st
    case Go(i) =>
      match s.nodes[i].pc {
        case Draining => if s.nodes[i].mailbox == [] { TakeLocalKeeps(s, i); } else { ReceiveKeeps(s, i); }
        case Replying(from, batch) => ReplyKeeps(s, i, from, batch);
        case _ => CheckKeeps(s, i);
      }
    case Spawn(i) => SpawnKeeps(s, i);
    case Finish(i) => FinishKeeps(s, i, s.nodes[i].pc.t);
    case Ask(i, victim) => AskKeeps(s, i, victim);
  }
}

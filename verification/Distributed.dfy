/**
 The message-passing runtime of src/distributed.rs as a step machine: nodes that share nothing but a
 counter, and one mailbox each. One step is one message sent or received, or one access to the
 counter; a node's own vector is private. Which victim is asked and what a task spawns are free.
 */
module Distributed {
  import opened Numbers

  datatype Message =
    | StealRequest(from: nat)
    | Work(batch: seq<nat>)

  datatype Pc =
    | Draining                                // rx.try_recv
    | Replying(from: nat, batch: seq<nat>)    // send the batch
    | Running(t: nat)                         // inside the task closure
    | Checking                                // load outstanding
    | Asking                                  // pick a victim and send it a request
    | Exited                                  // returned; the receiver is gone

  datatype Node = Node(pc: Pc, local: seq<nat>, pending: bool, mailbox: seq<Message>)

  /** `created` and `ran` record which tasks exist and which have finished, `dropped` what a failed send
      destroyed; no step depends on them. */
  datatype State = State(nodes: seq<Node>, outstanding: int, created: nat, ran: seq<nat>, dropped: seq<nat>)

  datatype Step =
    | Go(i: nat)                  // the next step, where there is only one
    | Spawn(i: nat)               // the task emits a child
    | Finish(i: nat)              // the task returns
    | Ask(i: nat, victim: nat)

  ghost predicate Enabled(s: State, st: Step) {
    && st.i < |s.nodes|
    && var pc := s.nodes[st.i].pc;
       match st
       case Go(_) => pc.Draining? || pc.Replying? || pc.Checking?
       case Spawn(_) => pc.Running?
       case Finish(_) => pc.Running?
       case Ask(_, victim) => pc.Asking? && victim < |s.nodes|
  }

  function Put(s: State, i: nat, node: Node): State
    requires i < |s.nodes|
  {
    s.(nodes := s.nodes[i := node])
  }

  /** How many tasks a victim gives away: half of what it has beyond one. */
  function Give(n: nat): (give: nat)
    ensures n > 0 ==> 2 * (n - give) > n
    ensures give <= n
  {
    (if n == 0 then 0 else n - 1) / 2
  }

  function Receive(s: State, i: nat): State
    requires i < |s.nodes|
  {
    var me := s.nodes[i];
    if me.mailbox == [] then
      if me.local == [] then Put(s, i, me.(pc := Checking))
      else Put(s, i, me.(pc := Running(me.local[|me.local| - 1]), local := me.local[..|me.local| - 1]))
    else
      var rest := me.(mailbox := me.mailbox[1..]);
      match me.mailbox[0]
      case StealRequest(from) =>
        var keep := |me.local| - Give(|me.local|);
        Put(s, i, rest.(pc := Replying(from, me.local[keep..]), local := me.local[..keep]))
      case Work(batch) => Put(s, i, rest.(local := me.local + batch, pending := false))
  }

  /** A send; `Err` only when the receiver has exited. */
  function Sent(s: State, to: nat, msg: Message): State
    requires to < |s.nodes|
  {
    Put(s, to, s.nodes[to].(mailbox := s.nodes[to].mailbox + [msg]))
  }

  function Reply(s: State, i: nat, from: nat, batch: seq<nat>): State
    requires i < |s.nodes|
  {
    var s1 := Put(s, i, s.nodes[i].(pc := Draining));
    if from < |s1.nodes| && !s1.nodes[from].pc.Exited? then Sent(s1, from, Work(batch))
    else s1.(dropped := s.dropped + batch)
  }

  function AskVictim(s: State, i: nat, victim: nat): State
    requires i < |s.nodes| && victim < |s.nodes|
  {
    var me := s.nodes[i];
    if victim == i || s.nodes[victim].pc.Exited? then Put(s, i, me.(pc := Draining))
    else Sent(Put(s, i, me.(pc := Draining, pending := true)), victim, StealRequest(i))
  }

  function Check(s: State, i: nat): State
    requires i < |s.nodes|
  {
    var me := s.nodes[i];
    Put(s, i, me.(pc := if s.outstanding == 0 then Exited
                        else if !me.pending && |s.nodes| > 1 then Asking
                        else Draining))
  }

  /** `NodeSpawner::spawn`: count the child, then keep it. */
  function SpawnChild(s: State, i: nat): State
    requires i < |s.nodes|
  {
    var me := s.nodes[i];
    Put(s.(outstanding := s.outstanding + 1, created := s.created + 1), i, me.(local := me.local + [s.created]))
  }

  function FinishTask(s: State, i: nat, t: nat): State
    requires i < |s.nodes|
  {
    Put(s.(outstanding := s.outstanding - 1, ran := s.ran + [t]), i, s.nodes[i].(pc := Draining))
  }

  function Apply(s: State, st: Step): State
    requires Enabled(s, st)
  {
    var pc := s.nodes[st.i].pc;
    match st
    case Go(i) => (match pc
      case Draining => Receive(s, i)
      case Replying(from, batch) => Reply(s, i, from, batch)
      case _ => Check(s, i))
    case Spawn(i) => SpawnChild(s, i)
    case Finish(i) => FinishTask(s, i, pc.t)
    case Ask(i, victim) => AskVictim(s, i, victim)
  }

  // ---------------------------------------------------------------- counting

  /** Copies of task `x` inside a message. */
  function Carries(m: Message, x: nat): nat {
    if m.Work? then Occ(m.batch, x) else 0
  }

  function Mailed(mailbox: seq<Message>, x: nat): nat {
    if mailbox == [] then 0 else Mailed(mailbox[..|mailbox| - 1], x) + Carries(mailbox[|mailbox| - 1], x)
  }

  /** Copies of task `x` running or about to be sent. */
  function InHand(pc: Pc, x: nat): nat {
    match pc
    case Running(t) => Is(t, x)
    case Replying(_, batch) => Occ(batch, x)
    case _ => 0
  }

  /** Copies of task `x` at a node: waiting, in its mailbox, or in hand. */
  function Holdings(n: Node, x: nat): nat {
    Occ(n.local, x) + Mailed(n.mailbox, x) + InHand(n.pc, x)
  }

  /** Requests of node `i` in a mailbox. */
  function Requests(mailbox: seq<Message>, i: nat): nat {
    if mailbox == [] then 0
    else Requests(mailbox[..|mailbox| - 1], i) + if mailbox[|mailbox| - 1] == StealRequest(i) then 1 else 0
  }

  /** Requests of node `i` waiting or being answered at a node. */
  function Asked(n: Node, i: nat): nat {
    Requests(n.mailbox, i) + if n.pc.Replying? && n.pc.from == i then 1 else 0
  }

  /** Answers waiting in a mailbox. */
  function Answers(mailbox: seq<Message>): nat {
    if mailbox == [] then 0
    else Answers(mailbox[..|mailbox| - 1]) + if mailbox[|mailbox| - 1].Work? then 1 else 0
  }

  function Sum(ns: seq<Node>, f: Node -> nat): nat {
    if ns == [] then 0 else Sum(ns[..|ns| - 1], f) + f(ns[|ns| - 1])
  }

  function OfTask(x: nat): Node -> nat { n => Holdings(n, x) }

  function OfNode(i: nat): Node -> nat { n => Asked(n, i) }

  /** Copies of task `x` still to be run, wherever they are. */
  function Pending(ns: seq<Node>, x: nat): nat { Sum(ns, OfTask(x)) }

  /** Requests of node `i` whose answer it has not received. */
  function Unanswered(ns: seq<Node>, i: nat): nat
    requires i < |ns|
  {
    Sum(ns, OfNode(i)) + Answers(ns[i].mailbox)
  }

  // ---------------------------------------------------------------- the invariant

  /** Once created, a task is in one place, or has run, or was destroyed by a failed send; once. */
  ghost predicate LedgerAt(s: State, x: nat) {
    Pending(s.nodes, x) + Occ(s.ran, x) + Occ(s.dropped, x) == if x < s.created then 1 else 0
  }

  ghost predicate Ledger(s: State) {
    && s.outstanding == s.created - |s.ran|
    && s.dropped == []
    && forall x: nat :: LedgerAt(s, x)
  }

  /** A node that has not left waits for exactly one answer if its flag is set, and for none if not. */
  ghost predicate RequestsOk(s: State, i: nat)
    requires i < |s.nodes|
  {
    var n := Unanswered(s.nodes, i);
    n <= 1 && (!s.nodes[i].pc.Exited? ==> n == if s.nodes[i].pending then 1 else 0)
  }

  ghost predicate NodeOk(s: State, i: nat)
    requires i < |s.nodes|
  {
    && RequestsOk(s, i)
    && (s.nodes[i].pc.Exited? ==> s.outstanding == 0)
    && (s.nodes[i].pc.Asking? ==> !s.nodes[i].pending)
    && (s.nodes[i].pc.Checking? || s.nodes[i].pc.Asking? || s.nodes[i].pc.Exited? ==> s.nodes[i].local == [])
  }

  ghost predicate SendersOk(s: State) {
    && (forall i, k :: 0 <= i < |s.nodes| && 0 <= k < |s.nodes[i].mailbox| && s.nodes[i].mailbox[k].StealRequest? ==>
          s.nodes[i].mailbox[k].from < |s.nodes|)
    && (forall i :: 0 <= i < |s.nodes| && s.nodes[i].pc.Replying? ==> s.nodes[i].pc.from < |s.nodes|)
  }

  ghost predicate Inv(s: State) {
    && Ledger(s)
    && SendersOk(s)
    && forall i :: 0 <= i < |s.nodes| ==> NodeOk(s, i)
  }

  /** Seeds sit in the nodes' vectors, everything else is fresh. With no seeds `run` returns at once. */
  ghost predicate Init(s: State) {
    && s.nodes != [] && s.created > 0 && s.ran == [] && s.dropped == []
    && (forall i :: 0 <= i < |s.nodes| ==> s.nodes[i] == Node(Draining, s.nodes[i].local, false, []))
    && (forall x: nat :: Pending(s.nodes, x) == if x < s.created then 1 else 0)
    && s.outstanding == s.created
  }
}

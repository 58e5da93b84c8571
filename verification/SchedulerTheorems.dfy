/** What the lifeline scheduler promises over whole runs. */
module SchedulerTheorems {
  import opened Numbers
  import opened Runs
  import opened Scheduler
  import opened SchedulerSafety

  ghost predicate Next(s: State, st: Step, s1: State) {
    Enabled(s, st) && s1 == Apply(s, st)
  }

  ghost predicate IsRun(r: Run<State, Step>) {
    && |r.states| == |r.steps| + 1
    && Init(r.states[0])
    && forall i :: 0 <= i < |r.steps| ==> Next(r.states[i], r.steps[i], r.states[i + 1])
  }

  lemma NextKeeps(s: State, st: Step, s1: State)
    requires Inv(s) && Next(s, st, s1)
    ensures Inv(s1)
  {
    StepKeeps(s, st);
  }

  lemma RunInv(r: Run<State, Step>, n: nat)
    requires IsRun(r) && n < |r.states|
    ensures Inv(r.states[n])
  {
    forall k | 0 <= k < |r.states| - 1 && Inv(r.states[k])
      ensures Inv(r.states[k + 1])
    {
      NextKeeps(r.states[k], r.steps[k], r.states[k + 1]);
    }
    InitInv(r.states[0]);
    InvAlong(r.states, Inv, n);
  }

  ghost predicate Reachable(s: State) {
    exists r: Run<State, Step> :: IsRun(r) && r.states[|r.steps|] == s
  }

  lemma ReachableInv(s: State)
    requires Reachable(s)
    ensures Inv(s)
  {
    var r: Run<State, Step> :| IsRun(r) && r.states[|r.steps|] == s;
    RunInv(r, |r.steps|);
  }

  /** A worker can take a step that is not a spurious wakeup. */
  ghost predicate CanMove(s: State, i: nat)
    requires i < |s.workers|
  {
    var pc := s.workers[i].pc;
    && !pc.Exited?
    && (WantsLock(pc) ==> s.lock.None?)
    && (pc.Asleep? ==> pc.notified && s.lock.None?)
  }

  /** `CanMove` is not an empty promise: such a worker has an enabled step. */
  lemma CanMoveMeansStep(s: State, i: nat)
    requires i < |s.workers| && CanMove(s, i)
    ensures exists st: Step :: st.w == i && Enabled(s, st)
  {
    var pc := s.workers[i].pc;
    var st := if pc.Running? then Finish(i) else if pc.Probing? then GiveUp(i)
              else if pc.Batching? then StopBatch(i) else if pc.Asleep? then Wake(i) else Go(i);
    assert Enabled(s, st);
  }

  /** No lost wakeup and no deadlock: in every reachable state, either all workers have exited or
      one of them can move without a spurious wakeup. */
  lemma NeverStuck(s: State)
    requires Reachable(s)
    ensures (forall i :: 0 <= i < |s.workers| ==> s.workers[i].pc.Exited?)
         || exists i :: 0 <= i < |s.workers| && CanMove(s, i)
  {
    ReachableInv(s);
    if s.lock.Some? {
      assert WorkerOk(s, s.lock.value);
      assert CanMove(s, s.lock.value);
    } else if forall i :: 0 <= i < |s.workers| ==> !CanMove(s, i) {
      AllQuiet(s);
    }
  }

  ghost predicate Dormant(s: State) {
    && s.lock.None?
    && forall i :: 0 <= i < |s.workers| ==>
      s.workers[i].pc.Exited? || (s.workers[i].pc.Asleep? && !s.workers[i].pc.notified)
  }

  lemma AllQuiet(s: State)
    requires Inv(s) && s.lock.None?
    requires forall i :: 0 <= i < |s.workers| ==> !CanMove(s, i)
    ensures forall i :: 0 <= i < |s.workers| ==> s.workers[i].pc.Exited?
  {
    forall i | 0 <= i < |s.workers|
      ensures s.workers[i].pc.Exited? || (s.workers[i].pc.Asleep? && !s.workers[i].pc.notified)
    {
      assert !CanMove(s, i);
    }
    forall i | 0 <= i < |s.workers|
      ensures s.workers[i].pc.Exited?
    {
      DormantMeansDone(s, i);
    }
  }

  lemma DormantMeansDone(s: State, i: nat)
    requires Inv(s) && Dormant(s) && i < |s.workers|
    ensures s.workers[i].pc.Exited?
  {
    assert WakeOk(s, i);
    if s.workers[i].pc.Asleep? {
      assert !s.terminated;
      forall j | 0 <= j < |s.workers|
        ensures s.workers[j].deque == [] && s.workers[j].inbox == [] && s.workers[j].pc.Asleep?
      {
        assert WakeOk(s, j) && WorkerOk(s, j);
      }
      NothingLeft(s);
      assert false;
    }
  }

  lemma NothingHeld(ws: seq<Worker>, x: nat)
    requires forall j :: 0 <= j < |ws| ==> ws[j].deque == [] && ws[j].inbox == [] && ws[j].pc.Asleep?
    ensures Pending(ws, x) == 0
  {
    if ws != [] {
      NothingHeld(ws[..|ws| - 1], x);
      assert Tasks(ws[|ws| - 1].inbox) == [];
    }
  }

  lemma NothingLeft(s: State)
    requires Ledger(s)
    requires forall j :: 0 <= j < |s.workers| ==>
      s.workers[j].deque == [] && s.workers[j].inbox == [] && s.workers[j].pc.Asleep?
    ensures s.outstanding == 0
  {
    forall x: nat
      ensures Pending(s.workers, x) == 0
    {
      NothingHeld(s.workers, x);
    }
    NonePending(s);
  }

  /** Why nobody sleeps through work: a sleeper has an empty deque; if nothing has changed since it fell asleep
      and a task is in its inbox, the sender's signal is still to come; and if something has changed, it has
      been notified or the notification is on its way. Those who owe a signal are awake. */
  lemma SleepersAreOwedASignal(s: State, i: nat)
    requires Reachable(s) && i < |s.workers| && s.workers[i].pc.Asleep?
    ensures var me := s.workers[i];
      && me.deque == [] && me.pc.seen <= s.generation
      && (me.pc.seen == s.generation && !s.terminated && me.inbox != [] ==>
            exists u :: 0 <= u < |s.workers| && Signalling(s.workers[u].pc) && !s.workers[u].pc.Asleep?)
      && (!me.pc.notified && (me.pc.seen != s.generation || s.terminated) ==>
            exists u :: 0 <= u < |s.workers| && Notifying(s.workers[u].pc) && !s.workers[u].pc.Asleep?)
  {
    ReachableInv(s);
    assert WorkerOk(s, i) && WakeOk(s, i);
    assert forall pc: Pc :: Signalling(pc) || Notifying(pc) ==> !pc.Asleep?;
  }

  /** Accounting: `outstanding` is the number of tasks created and not yet run, and each of those is in
      one deque, one inbox or one worker's hands, once. */
  lemma TaskAccounting(s: State, x: nat)
    requires Reachable(s)
    ensures s.outstanding == s.created - |s.ran| >= 0
    ensures Pending(s.workers, x) + Occ(s.ran, x) == if x < s.created then 1 else 0
  {
    ReachableInv(s);
    RanAll(s);
    assert LedgerAt(s, x);
  }

  /** Once zero, `outstanding` stays zero, and no further task is created or run. */
  lemma ZeroIsStable(s: State, st: Step)
    requires Reachable(s) && s.outstanding == 0 && Enabled(s, st)
    ensures Apply(s, st).outstanding == 0
    ensures Apply(s, st).created == s.created && Apply(s, st).ran == s.ran
  {
    ReachableInv(s);
    if s.workers[st.w].pc.Running? {
      RunningOutstanding(s, st.w);
    }
  }

  /** No worker leaves while work remains: once any has exited, every task created, seeded or spawned,
      has run exactly once and none is left anywhere. */
  lemma ExitMeansAllRan(s: State, i: nat)
    requires Reachable(s) && i < |s.workers| && s.workers[i].pc.Exited?
    ensures forall x: nat :: Occ(s.ran, x) == (if x < s.created then 1 else 0) && Pending(s.workers, x) == 0
  {
    ReachableInv(s);
    assert WorkerOk(s, i);
    RanAll(s);
  }

  // ---------------------------------------------------------------- seeding

  function Seeded(deques: seq<seq<nat>>): (r: seq<Worker>)
    ensures |r| == |deques|
  {
    seq(|deques|, i requires 0 <= i < |deques| => Worker(Draining, deques[i], []))
  }

  lemma SeedOne(deques: seq<seq<nat>>, i: nat, t: nat, x: nat)
    requires i < |deques|
    ensures Pending(Seeded(deques[i := deques[i] + [t]]), x) == Pending(Seeded(deques), x) + Is(t, x)
  {
    var w := Worker(Draining, deques[i] + [t], []);
    assert Seeded(deques[i := deques[i] + [t]]) == Seeded(deques)[i := w];
    OccAppend(deques[i], t, x);
    PendingSet(Seeded(deques), i, w, x);
  }

  lemma SeedNone(workers: nat, x: nat)
    ensures Pending(Seeded(seq(workers, i => [])), x) == 0
  {
    if workers > 0 {
      SeedNone(workers - 1, x);
      var now := Seeded(seq(workers, i => []));
      assert now[..workers - 1] == Seeded(seq(workers - 1, i => []));
      assert Tasks(now[workers - 1].inbox) == [];
    }
  }

  /** The seeding loop of `run_with_config`: round-robin over the deques. */
  method SeedRoundRobin(workers: nat, tasks: nat) returns (deques: seq<seq<nat>>)
    requires workers > 0
    ensures |deques| == workers
    ensures forall x: nat :: Pending(Seeded(deques), x) == if x < tasks then 1 else 0
  {
    deques := seq(workers, i => []);
    forall x: nat
      ensures Pending(Seeded(deques), x) == 0
    {
      SeedNone(workers, x);
    }
    for t := 0 to tasks
      invariant |deques| == workers
      invariant forall x: nat :: Pending(Seeded(deques), x) == if x < t then 1 else 0
    {
      ghost var was := deques;
      deques := deques[t % workers := deques[t % workers] + [t]];
      forall x: nat
        ensures Pending(Seeded(deques), x) == if x < t + 1 then 1 else 0
      {
        SeedOne(was, t % workers, t, x);
      }
    }
  }

  /** Seeding at least one task starts the machine in an initial state. */
  lemma SeedsStart(deques: seq<seq<nat>>, tasks: nat)
    requires deques != [] && tasks > 0
    requires forall x: nat :: Pending(Seeded(deques), x) == if x < tasks then 1 else 0
    ensures Init(State(Seeded(deques), tasks, 0, false, None, tasks, []))
  {
  }
}

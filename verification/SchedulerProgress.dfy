/** From wherever the lifeline scheduler has got to, all its work can still be done and all workers leave. */
module SchedulerProgress {
  import opened Numbers
  import opened Runs
  import opened Scheduler
  import opened SchedulerSafety
  import opened SchedulerTheorems
  import opened SchedulerCalls

  /** What every reachable state satisfies. */
  ghost predicate Fine(s: State) {
    Inv(s) && ReadyOk(s)
  }

  lemma FineStep(s: State, st: Step)
    requires Fine(s) && Enabled(s, st)
    ensures Fine(Apply(s, st))
  {
    StepKeeps(s, st);
    StepReady(s, st);
  }

  /** As many tasks created, and `n` fewer outstanding. */
  ghost predicate Fewer(s: State, s1: State, n: int) {
    |s1.workers| == |s.workers| && s1.created == s.created && s1.outstanding == s.outstanding - n
  }

  // ---------------------------------------------------------------- releasing the lock

  function LockRank(pc: Pc): nat {
    match pc
    case ParkTerminated => 4
    case ParkCount => 3
    case ParkInbox => 2
    case _ => 1
  }

  lemma HolderMoves(s: State, u: nat)
    requires Inv(s) && s.lock == Some(u)
    ensures u < |s.workers| && Enabled(s, Go(u))
    ensures var s1 := Apply(s, Go(u));
      && Fewer(s, s1, 0) && (s.terminated ==> s1.terminated)
      && (s1.lock.None? || (s1.lock == s.lock && LockRank(s1.workers[u].pc) < LockRank(s.workers[u].pc)))
  {
    assert WorkerOk(s, u);
  }

  lemma {:induction false} FreeLock(s: State) returns (steps: seq<Step>, s1: State)
    requires Fine(s)
    ensures Leads(Next, s, steps, s1) && Fine(s1) && Fewer(s, s1, 0) && s1.lock.None?
    ensures s.terminated ==> s1.terminated
    decreases if s.lock.Some? && s.lock.value < |s.workers| then LockRank(s.workers[s.lock.value].pc) else 0
  {
    if s.lock.None? {
      steps, s1 := [], s;
    } else {
      var u := s.lock.value;
      HolderMoves(s, u);
      FineStep(s, Go(u));
      steps, s1 := FreeLock(Apply(s, Go(u)));
      LeadsFirst(Next, s, Go(u), Apply(s, Go(u)), steps, s1);
      steps := [Go(u)] + steps;
    }
  }

  // ---------------------------------------------------------------- finishing one task

  /** The lock is free, or the worker has it. */
  ghost predicate MayGo(s: State, i: nat) {
    i < |s.workers| && (s.lock.None? || s.lock == Some(i))
  }

  /** Running a task, or on the way to it without looking at deque and inbox. */
  ghost predicate Busy(pc: Pc) {
    pc.Running? || pc.Pushing? || pc.Sending? || pc.Filling? || pc.SignalLock? || pc.SignalHeld? || pc.SignalNotify?
    || pc.Batching? || pc.Keeping?
  }

  function BusyRank(pc: Pc): nat {
    match pc
    case Sending(_, _, _, _) => 6
    case Filling(_, _, _, _) => 5
    case Pushing(_, _, _) => 5
    case SignalLock(_, _) => 4
    case SignalHeld(_, _) => 3
    case SignalNotify(_, _) => 2
    case Keeping(_, _, _) => 3
    case Batching(_, _) => 2
    case _ => 1
  }

  function Pick(s: State, i: nat): Step
    requires i < |s.workers|
  {
    var pc := s.workers[i].pc;
    if pc.Running? then Finish(i) else if pc.Probing? then GiveUp(i) else if pc.Batching? then StopBatch(i)
    else if pc.Asleep? then Wake(i) else Go(i)
  }

  lemma BusyMoves(s: State, i: nat)
    requires Inv(s) && MayGo(s, i) && Busy(s.workers[i].pc)
    ensures Enabled(s, Pick(s, i))
    ensures var s1 := Apply(s, Pick(s, i));
      if s.workers[i].pc.Running? then Fewer(s, s1, 1)
      else Fewer(s, s1, 0) && MayGo(s1, i) && Busy(s1.workers[i].pc)
           && BusyRank(s1.workers[i].pc) < BusyRank(s.workers[i].pc)
  {
    assert WorkerOk(s, i);
  }

  /** A busy worker can finish the task in its hands. */
  lemma {:induction false} FinishBusy(s: State, i: nat) returns (steps: seq<Step>, s1: State)
    requires Fine(s) && MayGo(s, i) && Busy(s.workers[i].pc)
    ensures Leads(Next, s, steps, s1) && Fine(s1) && Fewer(s, s1, 1)
    decreases BusyRank(s.workers[i].pc)
  {
    var st := Pick(s, i);
    BusyMoves(s, i);
    FineStep(s, st);
    if s.workers[i].pc.Running? {
      steps, s1 := [], Apply(s, st);
    } else {
      steps, s1 := FinishBusy(Apply(s, st), i);
    }
    LeadsFirst(Next, s, st, Apply(s, st), steps, s1);
    steps := [st] + steps;
  }

  /** The worker has a task, in hand, in its deque or in its inbox. */
  ghost predicate Useful(w: Worker) {
    w.pc.Moving? || w.deque != [] || w.inbox != []
  }

  ghost predicate NoneBusy(s: State) {
    forall u :: 0 <= u < |s.workers| ==> !Busy(s.workers[u].pc)
  }

  /** With nobody busy, every slot is filled and no signal is owed. */
  lemma NoneBusyMeans(s: State, i: nat)
    requires Fine(s) && NoneBusy(s) && i < |s.workers| && s.outstanding > 0
    ensures forall e :: e in s.workers[i].inbox ==> e.ready
    ensures s.workers[i].pc.ParkSleep? ==> s.workers[i].inbox == []
    ensures s.workers[i].pc.Asleep? && s.workers[i].inbox != [] ==> s.workers[i].pc.seen != s.generation
    ensures !s.terminated
  {
    forall e | e in s.workers[i].inbox
      ensures e.ready
    {
      assert !e.ready ==> Filler(s, i, e.task);
    }
    assert WakeOk(s, i);
  }

  function OwnRank(w: Worker): nat {
    var n := 20 * |w.inbox|;
    match w.pc
    case Moving(_) => n + 10
    case Draining => n + 9
    case Popping(did) => if w.deque != [] then 2 else if did then n + 12 else n + 19
    case Probing => n + 18
    case Checking => n + 17
    case ParkLock => n + 16
    case ParkTerminated => n + 15
    case ParkCount => n + 14
    case ParkInbox => n + 13
    case Asleep(_, _) => n + 10
    case _ => 1
  }

  /** A step that gets a worker nearer to running a task of its own. */
  ghost predicate Nearer(s: State, s1: State, i: nat) {
    && Fewer(s, s1, 0) && MayGo(s1, i) && i < |s.workers|
    && (forall u :: 0 <= u < |s.workers| && u != i ==> s1.workers[u].pc == s.workers[u].pc)
    && var me, me1 := s.workers[i], s1.workers[i];
       me1.pc.Running? || (!Busy(me1.pc) && Useful(me1) && OwnRank(me1) < OwnRank(me))
  }

  lemma DequeMoves(s: State, i: nat)
    requires Inv(s) && MayGo(s, i) && Useful(s.workers[i])
    requires s.workers[i].pc.Moving? || s.workers[i].pc.Draining? || s.workers[i].pc.Popping?
    requires forall e :: e in s.workers[i].inbox ==> e.ready
    ensures Enabled(s, Pick(s, i)) && Nearer(s, Apply(s, Pick(s, i)), i)
  {
    var me := s.workers[i];
    assert WorkerOk(s, i);
    assert me.inbox != [] ==> me.inbox[0] in me.inbox;
  }

  lemma ParkMoves(s: State, i: nat)
    requires Inv(s) && MayGo(s, i) && Parking(s.workers[i].pc) && !s.workers[i].pc.ParkSleep?
    requires s.workers[i].inbox != [] && s.outstanding > 0 && !s.terminated
    ensures Enabled(s, Pick(s, i)) && Nearer(s, Apply(s, Pick(s, i)), i)
  {
    assert WorkerOk(s, i);
  }

  lemma WaitMoves(s: State, i: nat)
    requires Inv(s) && MayGo(s, i) && Idling(s.workers[i].pc) && !Parking(s.workers[i].pc)
    requires s.workers[i].inbox != [] && s.outstanding > 0 && !s.terminated
    requires s.workers[i].pc.Asleep? ==> s.workers[i].pc.seen != s.generation
    ensures Enabled(s, Pick(s, i)) && Nearer(s, Apply(s, Pick(s, i)), i)
  {
    assert WorkerOk(s, i);
  }

  lemma OwnMoves(s: State, i: nat)
    requires Fine(s) && MayGo(s, i) && NoneBusy(s) && s.outstanding > 0 && Useful(s.workers[i])
    ensures Enabled(s, Pick(s, i)) && Nearer(s, Apply(s, Pick(s, i)), i)
  {
    NoneBusyMeans(s, i);
    assert WorkerOk(s, i);
    var pc := s.workers[i].pc;
    if pc.Moving? || pc.Draining? || pc.Popping? {
      DequeMoves(s, i);
    } else if Parking(pc) {
      ParkMoves(s, i);
    } else {
      WaitMoves(s, i);
    }
  }

  /** With nobody busy, a worker that has a task somewhere can come to run one and finish it. */
  lemma {:induction false} FinishOwn(s: State, i: nat) returns (steps: seq<Step>, s1: State)
    requires Fine(s) && MayGo(s, i) && NoneBusy(s) && s.outstanding > 0 && Useful(s.workers[i])
    ensures Leads(Next, s, steps, s1) && Fine(s1) && Fewer(s, s1, 1)
    decreases OwnRank(s.workers[i])
  {
    var st := Pick(s, i);
    OwnMoves(s, i);
    FineStep(s, st);
    var now := Apply(s, st);
    if now.workers[i].pc.Running? {
      steps, s1 := FinishBusy(now, i);
    } else {
      steps, s1 := FinishOwn(now, i);
    }
    LeadsFirst(Next, s, st, Apply(s, st), steps, s1);
    steps := [st] + steps;
  }

  lemma NothingHeldBy(w: Worker, x: nat)
    requires !Busy(w.pc) && !Useful(w)
    ensures Holdings(w, x) == 0
  {
    assert Tasks(w.inbox) == [];
  }

  lemma {:induction false} NothingPending(ws: seq<Worker>, x: nat)
    requires forall u :: 0 <= u < |ws| ==> !Busy(ws[u].pc) && !Useful(ws[u])
    ensures Pending(ws, x) == 0
  {
    if ws != [] {
      NothingPending(ws[..|ws| - 1], x);
      NothingHeldBy(ws[|ws| - 1], x);
    }
  }

  /** As long as something is outstanding, somebody is busy or has a task. */
  lemma SomebodyHasIt(s: State)
    requires Ledger(s) && s.outstanding > 0 && NoneBusy(s)
    ensures exists i :: 0 <= i < |s.workers| && Useful(s.workers[i])
  {
    if forall i :: 0 <= i < |s.workers| ==> !Useful(s.workers[i]) {
      forall x: nat
        ensures Pending(s.workers, x) == 0
      {
        NothingPending(s.workers, x);
      }
      NonePending(s);
    }
  }

  /** One task fewer. */
  lemma FinishOne(s: State) returns (steps: seq<Step>, s1: State)
    requires Fine(s) && s.outstanding > 0
    ensures Leads(Next, s, steps, s1) && Fine(s1) && Fewer(s, s1, 1)
  {
    var free, s0 := FreeLock(s);
    if !NoneBusy(s0) {
      var u: nat :| u < |s0.workers| && Busy(s0.workers[u].pc);
      steps, s1 := FinishBusy(s0, u);
    } else {
      SomebodyHasIt(s0);
      var i: nat :| i < |s0.workers| && Useful(s0.workers[i]);
      steps, s1 := FinishOwn(s0, i);
    }
    LeadsOn(Next, s, free, s0, steps, s1);
    steps := free + steps;
  }

  lemma {:induction false} FinishAll(s: State) returns (steps: seq<Step>, s1: State)
    requires Fine(s)
    ensures Leads(Next, s, steps, s1) && Fine(s1) && s1.created == s.created && s1.outstanding == 0
    ensures |s1.workers| == |s.workers|
    decreases s.outstanding
  {
    RanAll(s);
    if s.outstanding == 0 {
      steps, s1 := [], s;
    } else {
      var first, s0 := FinishOne(s);
      RanAll(s0);
      steps, s1 := FinishAll(s0);
      LeadsOn(Next, s, first, s0, steps, s1);
      steps := first + steps;
    }
  }

  // ---------------------------------------------------------------- leaving

  /** Nothing is left to do, and it has been said so. */
  ghost predicate Over(s: State) {
    Fine(s) && s.outstanding == 0 && s.terminated
  }

  /** With nothing outstanding no worker has a task. */
  lemma NobodyHasAny(s: State, i: nat)
    requires Fine(s) && s.outstanding == 0 && i < |s.workers|
    ensures !Busy(s.workers[i].pc) && !Useful(s.workers[i])
  {
    var w := s.workers[i];
    if Busy(w.pc) || Useful(w) {
      var x := TaskOf(w);
      TaskOutstanding(s, i, x);
      assert false;
    }
  }

  /** A task that a busy or useful worker holds. */
  lemma TaskOf(w: Worker) returns (x: nat)
    requires Busy(w.pc) || Useful(w)
    ensures Holdings(w, x) > 0
  {
    if Busy(w.pc) {
      x := if w.pc.Batching? || w.pc.Keeping? then w.pc.first else w.pc.t;
    } else if w.pc.Moving? {
      x := w.pc.t;
    } else if w.deque != [] {
      x := w.deque[0];
      OccFirst(w.deque, x);
    } else {
      x := w.inbox[0].task;
      OccFirst(Tasks(w.inbox), x);
    }
  }

  /** Somebody declares that it is over. */
  lemma Declare(s: State) returns (steps: seq<Step>, s1: State)
    requires Fine(s) && s.outstanding == 0
    ensures Leads(Next, s, steps, s1) && Over(s1) && s1.lock.None? && Fewer(s, s1, 0)
  {
    var s0;
    steps, s0 := FreeLock(s);
    s1 := s0;
    if !s0.terminated {
      var u: nat :| u < |s0.workers| && Declaring(s0.workers[u].pc);
      var last;
      last, s1 := DeclareBy(s0, u);
      LeadsOn(Next, s, steps, s0, last, s1);
      steps := steps + last;
    }
  }

  lemma DeclareBy(s: State, u: nat) returns (steps: seq<Step>, s1: State)
    requires Fine(s) && s.outstanding == 0 && s.lock.None? && u < |s.workers| && Declaring(s.workers[u].pc)
    ensures Leads(Next, s, steps, s1) && Over(s1) && s1.lock.None? && Fewer(s, s1, 0)
  {
    assert WorkerOk(s, u);
    var held := Apply(s, Go(u));
    FineStep(s, Go(u));
    DeclareHolds(held, u);
    FineStep(held, Go(u));
    s1 := Apply(held, Go(u));
    assert Leads(Next, s1, [], s1);
    LeadsFirst(Next, held, Go(u), Apply(held, Go(u)), [], s1);
    LeadsFirst(Next, s, Go(u), Apply(s, Go(u)), [Go(u)] + [], s1);
    steps := [Go(u)] + ([Go(u)] + []);
  }

  lemma DeclareHolds(s: State, u: nat)
    requires u < |s.workers| && s.workers[u].pc.DeclareHeld?
    ensures Enabled(s, Go(u))
    ensures var s1 := Apply(s, Go(u)); s1.terminated && s1.lock.None? && Fewer(s, s1, 0)
  {
  }

  function ExitRank(pc: Pc): nat {
    match pc
    case Exited => 0
    case DeclareNotify(next) => if next.Leave? then 1 else 9
    case DeclareHeld(next) => if next.Leave? then 2 else 10
    case DeclareLock(next) => if next.Leave? then 3 else 11
    case Checking => 4
    case Probing => 5
    case Popping(did) => if did then 8 else 6
    case Draining => 7
    case ParkLock => 4
    case ParkTerminated => 3
    case ParkCount => 3
    case ParkInbox => 2
    case _ => 1
  }

  /** Nobody who has left comes back. */
  ghost predicate StayGone(s: State, s1: State) {
    |s1.workers| == |s.workers|
      && forall j :: 0 <= j < |s.workers| && s.workers[j].pc.Exited? ==> s1.workers[j].pc.Exited?
  }

  lemma ExitMoves(s: State, i: nat)
    requires Over(s) && MayGo(s, i) && !s.workers[i].pc.Exited?
    requires !Busy(s.workers[i].pc) && !Useful(s.workers[i])
    ensures Enabled(s, Pick(s, i))
    ensures var s1 := Apply(s, Pick(s, i));
      && Fewer(s, s1, 0) && s1.terminated && MayGo(s1, i)
      && ExitRank(s1.workers[i].pc) < ExitRank(s.workers[i].pc)
  {
    assert WorkerOk(s, i);
  }

  lemma StepStaysGone(s: State, st: Step)
    requires Inv(s) && Enabled(s, st)
    ensures StayGone(s, Apply(s, st))
  {
    if st.Go? {
      AdvanceDisturbsNobody(s, st.w);
    } else if st.Wake? {
      WakeUpOk(s, st.w);
    } else {
      ChoiceOk(s, st);
    }
  }

  lemma LockReleased(s: State, i: nat)
    requires Inv(s) && MayGo(s, i) && s.workers[i].pc.Exited?
    ensures s.lock.None?
  {
    assert WorkerOk(s, i);
  }

  /** A worker can leave. */
  lemma {:induction false} Leave(s: State, i: nat) returns (steps: seq<Step>, s1: State)
    requires Over(s) && MayGo(s, i)
    ensures Leads(Next, s, steps, s1) && Over(s1) && Fewer(s, s1, 0) && s1.lock.None?
    ensures StayGone(s, s1) && s1.workers[i].pc.Exited?
    decreases ExitRank(s.workers[i].pc)
  {
    if s.workers[i].pc.Exited? {
      LockReleased(s, i);
      steps, s1 := [], s;
    } else {
      var st := Pick(s, i);
      NobodyHasAny(s, i);
      ExitMoves(s, i);
      FineStep(s, st);
      StepStaysGone(s, st);
      steps, s1 := Leave(Apply(s, st), i);
      LeadsFirst(Next, s, st, Apply(s, st), steps, s1);
      steps := [st] + steps;
    }
  }

  /** The first `n` workers leave, one after the other. */
  lemma {:induction false} LeaveUpTo(s: State, n: nat) returns (steps: seq<Step>, s1: State)
    requires Over(s) && s.lock.None? && n <= |s.workers|
    ensures Leads(Next, s, steps, s1) && Over(s1) && Fewer(s, s1, 0) && s1.lock.None?
    ensures forall i :: 0 <= i < n ==> s1.workers[i].pc.Exited?
  {
    if n == 0 {
      steps, s1 := [], s;
    } else {
      var first, s0 := LeaveUpTo(s, n - 1);
      steps, s1 := Leave(s0, n - 1);
      LeadsOn(Next, s, first, s0, steps, s1);
      steps := first + steps;
    }
  }

  ghost predicate AllExited(s: State) {
    forall i :: 0 <= i < |s.workers| ==> s.workers[i].pc.Exited?
  }

  lemma LeadsReachable(s: State, steps: seq<Step>, s1: State)
    requires Reachable(s) && Leads(Next, s, steps, s1)
    ensures Reachable(s1)
  {
    forall a, st, b | Reachable(a) && Next(a, st, b)
      ensures Reachable(b)
    {
      OneStepOn(a, st);
    }
    LeadsKeep(Next, Reachable, s, steps, s1);
  }

  lemma OneStepOn(s: State, st: Step)
    requires Reachable(s) && Enabled(s, st)
    ensures Reachable(Apply(s, st))
  {
    var r: Run<State, Step> :| IsRun(r) && r.states[|r.steps|] == s;
    var r1 := Run(r.states + [Apply(s, st)], r.steps + [st]);
    forall i | 0 <= i < |r1.steps|
      ensures Next(r1.states[i], r1.steps[i], r1.states[i + 1])
    {
      if i < |r.steps| {
        assert Next(r.states[i], r.steps[i], r.states[i + 1]);
      }
    }
    assert IsRun(r1) && r1.states[|r1.steps|] == Apply(s, st);
  }

  /** Nothing the scheduler has done so far, under any interleaving and whatever the bodies spawned, keeps it from
      finishing: from every reachable state there are further steps, with nothing more spawned, after which all
      workers have left and every task has run exactly once. */
  lemma CanFinish(s: State) returns (steps: seq<Step>, s1: State)
    requires Reachable(s)
    ensures Leads(Next, s, steps, s1) && Reachable(s1) && AllExited(s1) && s1.created == s.created
    ensures forall x: nat :: Occ(s1.ran, x) == if x < s.created then 1 else 0
  {
    ReachableReady(s);
    var a, s2 := FinishAll(s);
    var b, s3 := Declare(s2);
    var c, s4 := LeaveUpTo(s3, |s3.workers|);
    LeadsOn(Next, s, a, s2, b, s3);
    LeadsOn(Next, s, a + b, s3, c, s4);
    steps, s1 := a + b + c, s4;
    LeadsReachable(s, steps, s1);
    RanAll(s1);
  }
}

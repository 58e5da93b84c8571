/** Every step of the scheduler keeps its invariant. */
module SchedulerSafety {
  import opened Numbers
  import opened Scheduler

  // ---------------------------------------------------------------- accounting

  lemma PendingSet(ws: seq<Worker>, i: nat, w: Worker, x: nat)
    requires i < |ws|
    ensures Pending(ws[i := w], x) == Pending(ws, x) - Holdings(ws[i], x) + Holdings(w, x)
    decreases |ws|
  {
    var front := ws[..|ws| - 1];
    if i == |ws| - 1 {
      assert ws[i := w][..|ws| - 1] == front;
    } else {
      PendingSet(front, i, w, x);
      assert ws[i := w][..|ws| - 1] == front[i := w];
    }
  }

  lemma PendingHolds(ws: seq<Worker>, i: nat, x: nat)
    requires i < |ws|
    ensures Holdings(ws[i], x) <= Pending(ws, x)
    decreases |ws|
  {
    if i < |ws| - 1 {
      PendingHolds(ws[..|ws| - 1], i, x);
    }
  }

  lemma HoldingsNotified(ws: seq<Worker>, i: nat, x: nat)
    requires i < |ws|
    ensures Holdings(NotifyAll(ws)[i], x) == Holdings(ws[i], x)
  {
  }

  lemma PendingNotify(ws: seq<Worker>, x: nat)
    ensures Pending(NotifyAll(ws), x) == Pending(ws, x)
    decreases |ws|
  {
    if ws != [] {
      var last := |ws| - 1;
      PendingNotify(ws[..last], x);
      assert NotifyAll(ws)[..last] == NotifyAll(ws[..last]);
      HoldingsNotified(ws, last, x);
    }
  }

  lemma DrainLedger(s: State, w: nat, x: nat)
    requires w < |s.workers| && LedgerAt(s, x) && s.workers[w].pc.Draining?
    ensures LedgerAt(Drain(s, w), x)
  {
    var me := s.workers[w];
    if me.inbox != [] && me.inbox[0].ready {
      OccFirst(Tasks(me.inbox), x);
      assert Tasks(me.inbox)[1..] == Tasks(me.inbox[1..]);
    }
    PendingSet(s.workers, w, Drain(s, w).workers[w], x);
  }

  lemma PushOwnLedger(s: State, w: nat, t: nat, pc: Pc, x: nat)
    requires w < |s.workers| && LedgerAt(s, x) && Held(s.workers[w].pc, x) == Held(pc, x) + Is(t, x)
    ensures LedgerAt(PushOwn(s, w, t, pc), x)
  {
    OccAppend(s.workers[w].deque, t, x);
    PendingSet(s.workers, w, PushOwn(s, w, t, pc).workers[w], x);
  }

  lemma PopOwnLedger(s: State, w: nat, did: bool, x: nat)
    requires w < |s.workers| && LedgerAt(s, x) && s.workers[w].pc == Popping(did)
    ensures LedgerAt(PopOwn(s, w, did), x)
  {
    PendingSet(s.workers, w, PopOwn(s, w, did).workers[w], x);
  }

  lemma ClaimLedger(s: State, w: nat, t: nat, own: bool, child: nat, target: nat, x: nat)
    requires w < |s.workers| && target < |s.workers| && LedgerAt(s, x)
    requires s.workers[w].pc == Sending(t, own, child, target)
    ensures LedgerAt(Claim(s, w, t, own, child, target), x)
  {
    var s1 := Put(s, w, Filling(t, own, child, target));
    PendingSet(s.workers, w, s1.workers[w], x);
    var peer := s1.workers[target];
    var peer1 := peer.(inbox := peer.inbox + [Entry(child, false)]);
    assert Tasks(peer1.inbox) == Tasks(peer.inbox) + [child];
    OccAppend(Tasks(peer.inbox), child, x);
    PendingSet(s1.workers, target, peer1, x);
  }

  lemma FillLedger(s: State, w: nat, t: nat, own: bool, child: nat, target: nat, x: nat)
    requires w < |s.workers| && target < |s.workers| && LedgerAt(s, x)
    requires s.workers[w].pc == Filling(t, own, child, target)
    ensures LedgerAt(FillSlot(s, w, t, own, child, target), x)
  {
    var s1 := Put(s, w, SignalLock(t, own));
    PendingSet(s.workers, w, s1.workers[w], x);
    var peer := s1.workers[target];
    PendingSet(s1.workers, target, peer.(inbox := Fill(peer.inbox, child)), x);
  }

  /** A step that changes one worker's program counter and no task's place. */
  lemma PutLedger(s: State, w: nat, pc: Pc, s1: State, x: nat)
    requires w < |s.workers| && LedgerAt(s, x) && Held(pc, x) == Held(s.workers[w].pc, x)
    requires s1.workers == s.workers[w := s.workers[w].(pc := pc)] && s1.created == s.created && s1.ran == s.ran
    ensures LedgerAt(s1, x)
  {
    PendingSet(s.workers, w, s.workers[w].(pc := pc), x);
  }

  lemma NotifyLedger(s: State, w: nat, pc: Pc, x: nat)
    requires w < |s.workers| && LedgerAt(s, x) && !s.workers[w].pc.Asleep? && Held(pc, x) == Held(s.workers[w].pc, x)
    ensures LedgerAt(Put(s.(workers := NotifyAll(s.workers)), w, pc), x)
  {
    PendingNotify(s.workers, x);
    PendingSet(NotifyAll(s.workers), w, s.workers[w].(pc := pc), x);
  }

  lemma CountLedger(s: State, w: nat, pc: Pc, x: nat)
    requires w < |s.workers| && LedgerAt(s, x) && Held(pc, x) == Held(s.workers[w].pc, x) + Is(s.created, x)
    ensures LedgerAt(CountTask(s, w, pc), x)
  {
    PendingSet(s.workers, w, s.workers[w].(pc := pc), x);
  }

  lemma FinishHoldings(me: Worker, t: nat, own: bool, pc: Pc, x: nat)
    requires me.pc == Running(t, own) && Held(pc, x) == 0
    ensures Holdings(me, x) == Occ(me.deque, x) + Occ(Tasks(me.inbox), x) + Is(t, x)
    ensures Holdings(me.(pc := pc), x) == Occ(me.deque, x) + Occ(Tasks(me.inbox), x)
  {
  }

  lemma FinishLedger(s: State, w: nat, t: nat, own: bool, x: nat)
    requires w < |s.workers| && LedgerAt(s, x) && s.workers[w].pc == Running(t, own)
    ensures LedgerAt(FinishTask(s, w, t, own), x)
  {
    var pc := if s.outstanding == 1 then DeclareLock(Loop(own)) else Dest(Loop(own));
    FinishHoldings(s.workers[w], t, own, pc, x);
    OccAppend(s.ran, t, x);
    PendingSet(s.workers, w, s.workers[w].(pc := pc), x);
  }

  lemma StealLedger(s: State, w: nat, victim: nat, pc: nat -> Pc, x: nat)
    requires w < |s.workers| && victim < |s.workers| && w != victim && s.workers[victim].deque != [] && LedgerAt(s, x)
    requires var y := s.workers[victim].deque[0]; Held(pc(y), x) == Held(s.workers[w].pc, x) + Is(y, x)
    ensures LedgerAt(Steal(s, w, victim, pc), x)
  {
    var from := s.workers[victim];
    var s1 := s.(workers := s.workers[victim := from.(deque := from.deque[1..])]);
    OccFirst(from.deque, x);
    PendingSet(s.workers, victim, s1.workers[victim], x);
    PendingSet(s1.workers, w, s1.workers[w].(pc := pc(from.deque[0])), x);
  }

  lemma LockStepLedger(s: State, w: nat, x: nat)
    requires w < |s.workers| && LedgerAt(s, x)
    requires AtLock(s.workers[w].pc)
    ensures LedgerAt(Advance(s, w), x)
  {
    PutLedger(s, w, Advance(s, w).workers[w].pc, Advance(s, w), x);
  }

  lemma AdvanceLedger(s: State, w: nat, x: nat)
    requires Enabled(s, Go(w)) && LedgerAt(s, x) && InRange(s, s.workers[w].pc)
    ensures LedgerAt(Advance(s, w), x)
  {
    var pc := s.workers[w].pc;
    match pc
    case Draining => DrainLedger(s, w, x);
    case Moving(t) => PushOwnLedger(s, w, t, Draining, x);
    case Popping(did) => PopOwnLedger(s, w, did, x);
    case Pushing(t, own, child) => PushOwnLedger(s, w, child, SignalLock(t, own), x);
    case Keeping(first, victim, extra) => PushOwnLedger(s, w, extra, Batching(first, victim), x);
    case Sending(t, own, child, target) => ClaimLedger(s, w, t, own, child, target, x);
    case Filling(t, own, child, target) => FillLedger(s, w, t, own, child, target, x);
    case SignalNotify(t, own) => NotifyLedger(s, w, Running(t, own), x);
    case DeclareNotify(next) => NotifyLedger(s, w, Dest(next), x);
    case _ => LockStepLedger(s, w, x);
  }

  lemma StepLedger(s: State, st: Step, x: nat)
    requires Enabled(s, st) && LedgerAt(s, x) && InRange(s, s.workers[st.w].pc)
    ensures LedgerAt(Apply(s, st), x)
  {
    var pc := s.workers[st.w].pc;
    match st
    case Go(w) => AdvanceLedger(s, w, x);
    case Spawn(w) => CountLedger(s, w, Pushing(pc.t, pc.own, s.created), x);
    case SpawnAt(w, hint) =>
      var target := Min(hint, |s.workers| - 1);
      var pc1 := if target == w then Pushing(pc.t, pc.own, s.created) else Sending(pc.t, pc.own, s.created, target);
      CountLedger(s, w, pc1, x);
    case Finish(w) => FinishLedger(s, w, pc.t, pc.own, x);
    case Probe(w, victim) => StealLedger(s, w, victim, (x: nat) => Batching(x, victim), x);
    case GiveUp(w) => PutLedger(s, w, Checking, Apply(s, st), x);
    case TakeMore(w) => StealLedger(s, w, pc.victim, (x: nat) => Keeping(pc.first, pc.victim, x), x);
    case StopBatch(w) => PutLedger(s, w, Running(pc.first, false), Apply(s, st), x);
    case Wake(w) => PutLedger(s, w, Apply(s, st).workers[w].pc, Apply(s, st), x);
  }

  /** A worker with a task in hand proves that something is outstanding. */
  lemma TaskOutstanding(s: State, w: nat, x: nat)
    requires Ledger(s) && w < |s.workers| && Holdings(s.workers[w], x) > 0
    ensures s.outstanding > 0
  {
    PendingHolds(s.workers, w, x);
    assert LedgerAt(s, x);
    if s.outstanding <= 0 {
      RanAll(s);
    }
  }

  /** Nothing outstanding means that every task created has run. */
  lemma RanAll(s: State)
    requires Ledger(s)
    ensures s.outstanding >= 0
    ensures s.outstanding == 0 ==>
      forall x: nat :: Occ(s.ran, x) == (if x < s.created then 1 else 0) && Pending(s.workers, x) == 0
  {
    forall x: nat
      ensures Occ(s.ran, x) <= if x < s.created then 1 else 0
    {
      assert LedgerAt(s, x);
    }
    AtMost(s.ran, s.created);
    if s.outstanding == 0 {
      Pigeonhole(s.ran, s.created);
      forall x: nat
        ensures Pending(s.workers, x) == 0
      {
        assert LedgerAt(s, x);
      }
    }
  }

  /** If no task is left anywhere, nothing is outstanding. */
  lemma NonePending(s: State)
    requires Ledger(s) && forall x: nat :: Pending(s.workers, x) == 0
    ensures s.outstanding == 0
  {
    forall x: nat
      ensures multiset(s.ran)[x] == multiset(Upto(s.created))[x]
    {
      assert LedgerAt(s, x);
      OccMultiset(s.ran, x);
      UptoOnce(s.created, x);
    }
    assert multiset(s.ran) == multiset(Upto(s.created));
    assert |s.ran| == |multiset(s.ran)| && |Upto(s.created)| == |multiset(Upto(s.created))|;
  }

  // ---------------------------------------------------------------- local facts

  /** Workers other than `w` lose nothing: their own fields are untouched, or only their inbox, a
      shorter deque or a set `notified` flag. */
  ghost predicate Undisturbed(s: State, s1: State, w: nat) {
    && |s1.workers| == |s.workers|
    && s.generation <= s1.generation
    && (s.terminated ==> s1.terminated)
    && (s.outstanding == 0 ==> s1.outstanding == 0)
    && forall j :: 0 <= j < |s.workers| && j != w ==>
      && (s1.lock == Some(j) <==> s.lock == Some(j))
      && (s1.workers[j].pc == s.workers[j].pc
          || (s.workers[j].pc.Asleep? && s1.workers[j].pc == Asleep(s.workers[j].pc.seen, true)))
      && (s.workers[j].deque == [] ==> s1.workers[j].deque == [])
  }

  lemma OthersOk(s: State, s1: State, w: nat)
    requires WorkersOk(s)
    requires w < |s.workers| && Undisturbed(s, s1, w) && WorkerOk(s1, w)
    ensures WorkersOk(s1)
  {
    forall i | 0 <= i < |s1.workers|
      ensures WorkerOk(s1, i)
    {
      if i != w {
        assert WorkerOk(s, i);
      }
    }
  }

  /** The steps around the lock, the generation and the wait. */
  ghost predicate AtLock(pc: Pc) {
    pc.SignalLock? || pc.SignalHeld? || pc.Checking? || pc.DeclareLock? || pc.DeclareHeld? || pc.ParkLock?
    || pc.ParkTerminated? || pc.ParkCount? || pc.ParkInbox? || pc.ParkSleep?
  }

  /** The checks of park, made with the lock held. */
  ghost predicate Parking(pc: Pc) {
    pc.ParkTerminated? || pc.ParkCount? || pc.ParkInbox? || pc.ParkSleep?
  }

  /** The steps that touch other workers. */
  ghost predicate Reaching(pc: Pc) {
    pc.Sending? || pc.Filling? || pc.SignalNotify? || pc.DeclareNotify?
  }

  lemma ParkDisturbsNobody(s: State, w: nat)
    requires w < |s.workers| && Parking(s.workers[w].pc) && WorkerOk(s, w)
    ensures Undisturbed(s, Advance(s, w), w)
  {
  }

  lemma SignalDisturbsNobody(s: State, w: nat)
    requires w < |s.workers| && AtLock(s.workers[w].pc) && !Parking(s.workers[w].pc) && WorkerOk(s, w)
    requires WantsLock(s.workers[w].pc) ==> s.lock.None?
    ensures Undisturbed(s, Advance(s, w), w)
  {
  }

  lemma ReachDisturbsNobody(s: State, w: nat)
    requires w < |s.workers| && Reaching(s.workers[w].pc)
    ensures Undisturbed(s, Advance(s, w), w)
  {
  }

  lemma TaskDisturbsNobody(s: State, w: nat)
    requires w < |s.workers| && Forced(s.workers[w].pc)
    requires !AtLock(s.workers[w].pc) && !Reaching(s.workers[w].pc)
    ensures Undisturbed(s, Advance(s, w), w)
  {
  }

  lemma AdvanceDisturbsNobody(s: State, w: nat)
    requires WorkersOk(s) && Enabled(s, Go(w))
    ensures Undisturbed(s, Advance(s, w), w)
  {
    assert WorkerOk(s, w);
    var pc := s.workers[w].pc;
    if Parking(pc) {
      ParkDisturbsNobody(s, w);
    } else if AtLock(pc) {
      SignalDisturbsNobody(s, w);
    } else if Reaching(pc) {
      ReachDisturbsNobody(s, w);
    } else {
      TaskDisturbsNobody(s, w);
    }
  }

  lemma ParkStepOwn(s: State, w: nat)
    requires w < |s.workers| && WorkerOk(s, w) && Concluded(s) && Parking(s.workers[w].pc)
    ensures WorkerOk(Advance(s, w), w)
  {
  }

  lemma SignalStepOwn(s: State, w: nat)
    requires w < |s.workers| && WorkerOk(s, w) && AtLock(s.workers[w].pc) && !Parking(s.workers[w].pc)
    requires WantsLock(s.workers[w].pc) ==> s.lock.None?
    ensures WorkerOk(Advance(s, w), w)
  {
  }

  lemma LockStepOwn(s: State, w: nat)
    requires WorkersOk(s) && Concluded(s) && Enabled(s, Go(w)) && AtLock(s.workers[w].pc)
    ensures WorkerOk(Advance(s, w), w)
  {
    assert WorkerOk(s, w);
    if Parking(s.workers[w].pc) {
      ParkStepOwn(s, w);
    } else {
      SignalStepOwn(s, w);
    }
  }

  lemma ReachStepOwn(s: State, w: nat)
    requires w < |s.workers| && WorkerOk(s, w) && Concluded(s) && Reaching(s.workers[w].pc)
    ensures WorkerOk(Advance(s, w), w)
  {
  }

  lemma DequeStepOwn(s: State, w: nat)
    requires w < |s.workers| && WorkerOk(s, w) && Forced(s.workers[w].pc)
    requires !AtLock(s.workers[w].pc) && !Reaching(s.workers[w].pc)
    ensures WorkerOk(Advance(s, w), w)
  {
  }

  lemma TaskStepOwn(s: State, w: nat)
    requires WorkersOk(s) && Concluded(s) && Enabled(s, Go(w)) && !AtLock(s.workers[w].pc)
    ensures WorkerOk(Advance(s, w), w)
  {
    assert WorkerOk(s, w);
    if Reaching(s.workers[w].pc) {
      ReachStepOwn(s, w);
    } else {
      DequeStepOwn(s, w);
    }
  }

  /** A worker running a task proves that the computation is not over. */
  lemma RunningOutstanding(s: State, w: nat)
    requires Inv(s) && w < |s.workers| && s.workers[w].pc.Running?
    ensures s.outstanding > 0 && !s.terminated
  {
    TaskOutstanding(s, w, s.workers[w].pc.t);
  }

  lemma BodyOk(s: State, st: Step)
    requires Enabled(s, st) && WorkerOk(s, st.w) && s.workers[st.w].pc.Running? && s.outstanding > 0
    ensures WorkerOk(Apply(s, st), st.w) && Undisturbed(s, Apply(s, st), st.w)
  {
  }

  lemma ProbeOk(s: State, st: Step)
    requires Enabled(s, st) && WorkerOk(s, st.w) && (s.workers[st.w].pc.Probing? || s.workers[st.w].pc.Batching?)
    ensures WorkerOk(Apply(s, st), st.w) && Undisturbed(s, Apply(s, st), st.w)
  {
  }

  lemma ChoiceOk(s: State, st: Step)
    requires Inv(s) && Enabled(s, st) && !st.Go? && !st.Wake?
    ensures WorkerOk(Apply(s, st), st.w) && Undisturbed(s, Apply(s, st), st.w)
  {
    assert WorkerOk(s, st.w);
    if s.workers[st.w].pc.Running? {
      RunningOutstanding(s, st.w);
      BodyOk(s, st);
    } else {
      ProbeOk(s, st);
    }
  }

  lemma WakeUpOk(s: State, w: nat)
    requires Inv(s) && Enabled(s, Wake(w))
    ensures WorkerOk(Apply(s, Wake(w)), w) && Undisturbed(s, Apply(s, Wake(w)), w)
  {
    assert WorkerOk(s, w);
  }

  lemma StepWorkers(s: State, st: Step)
    requires Inv(s) && Enabled(s, st)
    ensures WorkersOk(Apply(s, st))
  {
    if st.Go? {
      if AtLock(s.workers[st.w].pc) {
        LockStepOwn(s, st.w);
      } else {
        TaskStepOwn(s, st.w);
      }
      AdvanceDisturbsNobody(s, st.w);
    } else if st.Wake? {
      WakeUpOk(s, st.w);
    } else {
      ChoiceOk(s, st);
    }
    OthersOk(s, Apply(s, st), st.w);
  }

  // ---------------------------------------------------------------- wakeups

  /** `w` moved, and every other worker kept its place and its inbox. */
  ghost predicate OnlyMoved(s: State, s1: State, w: nat) {
    && w < |s.workers| == |s1.workers|
    && forall j :: 0 <= j < |s.workers| && j != w ==>
      s1.workers[j].pc == s.workers[j].pc && s1.workers[j].inbox == s.workers[j].inbox
  }

  lemma WakeFrame(s: State, s1: State, w: nat)
    requires WakesOk(s) && OnlyMoved(s, s1, w)
    requires s1.generation == s.generation && s1.terminated == s.terminated
    requires Signalling(s.workers[w].pc) ==> Signalling(s1.workers[w].pc)
    requires Notifying(s.workers[w].pc) ==> Notifying(s1.workers[w].pc)
    requires s1.workers[w].pc.ParkSleep? ==> s1.workers[w].inbox == []
    requires s1.workers[w].pc.Asleep? ==>
      && s1.workers[w] == s.workers[w].(pc := Asleep(s.generation, false)) && !s.terminated
      && (s.workers[w].pc.ParkSleep? || (s.workers[w].pc.Asleep? && s.workers[w].pc.seen == s.generation))
    ensures WakesOk(s1)
  {
    forall i | 0 <= i < |s1.workers|
      ensures WakeOk(s1, i)
    {
      assert WakeOk(s, i);
      if exists u :: 0 <= u < |s.workers| && Signalling(s.workers[u].pc) {
        var u :| 0 <= u < |s.workers| && Signalling(s.workers[u].pc);
        assert Signalling(s1.workers[u].pc);
      }
      if exists u :: 0 <= u < |s.workers| && Notifying(s.workers[u].pc) {
        var u :| 0 <= u < |s.workers| && Notifying(s.workers[u].pc);
        assert Notifying(s1.workers[u].pc);
      }
    }
  }

  /** A deposit comes with its own pending signal. */
  lemma WakeDeposit(s: State, s1: State, w: nat)
    requires WakesOk(s) && w < |s.workers| == |s1.workers|
    requires forall j :: 0 <= j < |s.workers| && j != w ==> s1.workers[j].pc == s.workers[j].pc
    requires s1.generation == s.generation && s1.terminated == s.terminated
    requires Signalling(s1.workers[w].pc) && !Notifying(s.workers[w].pc)
    ensures WakesOk(s1)
  {
    forall i | 0 <= i < |s1.workers|
      ensures WakeOk(s1, i)
    {
      assert WakeOk(s, i);
      if exists u :: 0 <= u < |s.workers| && Notifying(s.workers[u].pc) {
        var u :| 0 <= u < |s.workers| && Notifying(s.workers[u].pc);
        assert Notifying(s1.workers[u].pc);
      }
    }
  }

  /** Changing the generation or declaring termination leaves the notification owed. */
  lemma WakeChange(s: State, w: nat)
    requires Inv(s) && w < |s.workers| && (s.workers[w].pc.SignalHeld? || s.workers[w].pc.DeclareHeld?)
    ensures WakesOk(Advance(s, w))
  {
    var s1 := Advance(s, w);
    assert Notifying(s1.workers[w].pc);
    assert WorkerOk(s, w);
    forall i | 0 <= i < |s1.workers|
      ensures WakeOk(s1, i)
    {
      assert WorkerOk(s, i);
    }
  }

  lemma WakeNotify(s: State, w: nat, pc: Pc)
    requires WakesOk(s) && w < |s.workers| && Notifying(s.workers[w].pc) && !pc.ParkSleep? && !pc.Asleep?
    ensures WakesOk(Put(s.(workers := NotifyAll(s.workers)), w, pc))
  {
    var s1 := Put(s.(workers := NotifyAll(s.workers)), w, pc);
    forall i | 0 <= i < |s1.workers|
      ensures WakeOk(s1, i)
    {
      assert WakeOk(s, i);
      if exists u :: 0 <= u < |s.workers| && Signalling(s.workers[u].pc) {
        var u :| 0 <= u < |s.workers| && Signalling(s.workers[u].pc);
        assert Signalling(s1.workers[u].pc);
      }
    }
  }

  lemma GoWakes(s: State, w: nat)
    requires Inv(s) && Enabled(s, Go(w))
    ensures WakesOk(Advance(s, w))
  {
    assert WorkerOk(s, w);
    var pc := s.workers[w].pc;
    if pc.SignalHeld? || pc.DeclareHeld? {
      WakeChange(s, w);
    } else if pc.SignalNotify? {
      WakeNotify(s, w, Running(pc.t, pc.own));
    } else if pc.DeclareNotify? {
      WakeNotify(s, w, Dest(pc.next));
    } else if pc.Sending? || pc.Filling? {
      WakeDeposit(s, Advance(s, w), w);
    } else if AtLock(pc) {
      LockStepWakes(s, w);
    } else {
      TaskStepWakes(s, w);
    }
  }

  lemma LockStepWakes(s: State, w: nat)
    requires Inv(s) && Enabled(s, Go(w)) && AtLock(s.workers[w].pc)
    requires !s.workers[w].pc.SignalHeld? && !s.workers[w].pc.DeclareHeld?
    ensures WakesOk(Advance(s, w))
  {
    assert WorkerOk(s, w);
    WakeFrame(s, Advance(s, w), w);
  }

  lemma TaskStepWakes(s: State, w: nat)
    requires Inv(s) && Enabled(s, Go(w)) && !AtLock(s.workers[w].pc)
    requires !Notifying(s.workers[w].pc) && !s.workers[w].pc.Sending? && !s.workers[w].pc.Filling?
    ensures WakesOk(Advance(s, w))
  {
    WakeFrame(s, Advance(s, w), w);
  }

  lemma StepWakes(s: State, st: Step)
    requires Inv(s) && Enabled(s, st)
    ensures WakesOk(Apply(s, st))
  {
    if st.Go? {
      GoWakes(s, st.w);
    } else {
      ChoiceMoves(s, st);
      WakeFrame(s, Apply(s, st), st.w);
    }
  }

  lemma ChoiceMoves(s: State, st: Step)
    requires Enabled(s, st) && !st.Go?
    ensures var s1 := Apply(s, st);
      && OnlyMoved(s, s1, st.w)
      && s1.generation == s.generation && s1.terminated == s.terminated
      && !Signalling(s.workers[st.w].pc) && !Notifying(s.workers[st.w].pc)
      && !s1.workers[st.w].pc.ParkSleep?
      && (s1.workers[st.w].pc.Asleep? ==>
            && s1.workers[st.w] == s.workers[st.w].(pc := Asleep(s.generation, false)) && !s.terminated
            && s.workers[st.w].pc.Asleep? && s.workers[st.w].pc.seen == s.generation)
  {
  }

  // ---------------------------------------------------------------- termination

  lemma GoConcludes(s: State, w: nat)
    requires Inv(s) && Enabled(s, Go(w))
    ensures Concluded(Advance(s, w))
  {
    var s1 := Advance(s, w);
    assert WorkerOk(s, w);
    if s.outstanding == 0 && !s.terminated {
      var u :| 0 <= u < |s.workers| && Declaring(s.workers[u].pc);
      assert u == w || s1.workers[u].pc == s.workers[u].pc;
      assert s1.terminated || Declaring(s1.workers[u].pc);
    }
  }

  lemma ChoiceConcludes(s: State, st: Step)
    requires Inv(s) && Enabled(s, st) && !st.Go?
    ensures Concluded(Apply(s, st))
  {
    var s1 := Apply(s, st);
    ChoiceMoves(s, st);
    if s.workers[st.w].pc.Running? {
      RunningOutstanding(s, st.w);
      assert s1.outstanding == 0 ==> Declaring(s1.workers[st.w].pc);
    } else if s.outstanding == 0 && !s.terminated {
      var u :| 0 <= u < |s.workers| && Declaring(s.workers[u].pc);
      assert Declaring(s1.workers[u].pc);
    }
  }

  lemma StepKeeps(s: State, st: Step)
    requires Inv(s) && Enabled(s, st)
    ensures Inv(Apply(s, st))
  {
    StepAccounts(s, st);
    StepWorkers(s, st);
    StepWakes(s, st);
    if st.Go? {
      GoConcludes(s, st.w);
    } else {
      ChoiceConcludes(s, st);
    }
  }

  lemma StepAccounts(s: State, st: Step)
    requires Inv(s) && Enabled(s, st)
    ensures Ledger(Apply(s, st))
  {
    assert WorkerOk(s, st.w);
    forall x: nat
      ensures LedgerAt(Apply(s, st), x)
    {
      assert LedgerAt(s, x);
      StepLedger(s, st, x);
    }
  }

  lemma InitInv(s: State)
    requires Init(s)
    ensures Inv(s)
  {
  }
}

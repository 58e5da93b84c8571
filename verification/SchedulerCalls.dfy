/** Where tasks go in the lifeline scheduler: into deques, through inboxes, and who is woken for them. */
module SchedulerCalls {
  import opened Numbers
  import opened Runs
  import opened Scheduler
  import opened SchedulerSafety
  import opened SchedulerTheorems

  // ---------------------------------------------------------------- slots not filled yet

  /** Some worker has claimed the slot of task `t` in the inbox of worker `i` and is about to fill it. */
  ghost predicate Filler(s: State, i: nat, t: nat) {
    exists u :: 0 <= u < |s.workers|
      && s.workers[u].pc.Filling? && s.workers[u].pc.child == t && s.workers[u].pc.target == i
  }

  ghost predicate ReadyOk(s: State) {
    forall i: nat, e :: i < |s.workers| && e in s.workers[i].inbox && !e.ready ==> Filler(s, i, e.task)
  }

  lemma ReadyStill(s: State, s1: State, w: nat)
    requires ReadyOk(s) && w < |s.workers| == |s1.workers| && !s.workers[w].pc.Filling?
    requires forall j :: 0 <= j < |s.workers| && j != w && s.workers[j].pc.Filling? ==>
      s1.workers[j].pc == s.workers[j].pc
    requires forall i, e :: 0 <= i < |s.workers| && e in s1.workers[i].inbox && !e.ready ==> e in s.workers[i].inbox
    ensures ReadyOk(s1)
  {
    forall i: nat, e | i < |s1.workers| && e in s1.workers[i].inbox && !e.ready
      ensures Filler(s1, i, e.task)
    {
      assert Filler(s, i, e.task);
      var u :| 0 <= u < |s.workers|
        && s.workers[u].pc.Filling? && s.workers[u].pc.child == e.task && s.workers[u].pc.target == i;
      assert s1.workers[u].pc == s.workers[u].pc;
    }
  }

  lemma ClaimReady(s: State, w: nat, t: nat, own: bool, child: nat, target: nat)
    requires ReadyOk(s) && w < |s.workers| && s.workers[w].pc == Sending(t, own, child, target)
    ensures ReadyOk(Claim(s, w, t, own, child, target))
  {
    var s1 := Claim(s, w, t, own, child, target);
    assert s1.workers[w].pc == Filling(t, own, child, target);
    forall i: nat, e | i < |s1.workers| && e in s1.workers[i].inbox && !e.ready
      ensures Filler(s1, i, e.task)
    {
      if e in s.workers[i].inbox {
        assert Filler(s, i, e.task);
        var u :| 0 <= u < |s.workers|
          && s.workers[u].pc.Filling? && s.workers[u].pc.child == e.task && s.workers[u].pc.target == i;
        assert s1.workers[u].pc == s.workers[u].pc;
      }
    }
  }

  lemma FillReady(s: State, w: nat, t: nat, own: bool, child: nat, target: nat)
    requires ReadyOk(s) && w < |s.workers| && s.workers[w].pc == Filling(t, own, child, target)
    ensures ReadyOk(FillSlot(s, w, t, own, child, target))
  {
    var s1 := FillSlot(s, w, t, own, child, target);
    forall i: nat, e | i < |s1.workers| && e in s1.workers[i].inbox && !e.ready
      ensures Filler(s1, i, e.task)
    {
      assert e in s.workers[i].inbox && (i == target ==> e.task != child);
      assert Filler(s, i, e.task);
      var u :| 0 <= u < |s.workers|
        && s.workers[u].pc.Filling? && s.workers[u].pc.child == e.task && s.workers[u].pc.target == i;
      assert u != w && s1.workers[u].pc == s.workers[u].pc;
    }
  }

  /** Other steps leave every inbox alone, or take its first entry off. */
  lemma AdvanceReady(s: State, w: nat)
    requires Inv(s) && ReadyOk(s) && Enabled(s, Go(w))
    ensures ReadyOk(Advance(s, w))
  {
    var pc := s.workers[w].pc;
    if pc.Sending? {
      ClaimReady(s, w, pc.t, pc.own, pc.child, pc.target);
    } else if pc.Filling? {
      FillReady(s, w, pc.t, pc.own, pc.child, pc.target);
    } else {
      InboxesShrink(s, w);
      AdvanceDisturbsNobody(s, w);
      ReadyStill(s, Advance(s, w), w);
    }
  }

  lemma InboxesShrink(s: State, w: nat)
    requires Enabled(s, Go(w)) && !s.workers[w].pc.Sending? && !s.workers[w].pc.Filling?
    ensures |Advance(s, w).workers| == |s.workers|
    ensures forall i, e :: 0 <= i < |s.workers| && e in Advance(s, w).workers[i].inbox ==> e in s.workers[i].inbox
  {
    var pc := s.workers[w].pc;
    if AtLock(pc) {
      LockKeepsInboxes(s, w);
    }
  }

  lemma LockKeepsInboxes(s: State, w: nat)
    requires Enabled(s, Go(w)) && AtLock(s.workers[w].pc)
    ensures |Advance(s, w).workers| == |s.workers|
    ensures forall i :: 0 <= i < |s.workers| ==> Advance(s, w).workers[i].inbox == s.workers[i].inbox
  {
  }

  lemma StepReady(s: State, st: Step)
    requires Inv(s) && ReadyOk(s) && Enabled(s, st)
    ensures ReadyOk(Apply(s, st))
  {
    if st.Go? {
      AdvanceReady(s, st.w);
    } else {
      if st.Wake? { WakeUpOk(s, st.w); } else { ChoiceOk(s, st); }
      ReadyStill(s, Apply(s, st), st.w);
    }
  }

  lemma RunReady(r: Run<State, Step>, n: nat)
    requires IsRun(r) && n < |r.states|
    ensures ReadyOk(r.states[n])
  {
    forall k | 0 <= k < |r.states| - 1 && ReadyOk(r.states[k])
      ensures ReadyOk(r.states[k + 1])
    {
      RunInv(r, k);
      assert Next(r.states[k], r.steps[k], r.states[k + 1]);
      StepReady(r.states[k], r.steps[k]);
    }
    InvAlong(r.states, ReadyOk, n);
  }

  lemma ReachableReady(s: State)
    requires Reachable(s)
    ensures Inv(s) && ReadyOk(s)
  {
    var r: Run<State, Step> :| IsRun(r) && r.states[|r.steps|] == s;
    RunReady(r, |r.steps|);
    RunInv(r, |r.steps|);
  }

  /** A worker looking at its inbox leaves it for its deque only when the inbox is empty or a sender is still about
      to fill the oldest slot; otherwise it takes the oldest task, and pushes it on its deque next. */
  lemma InboxIsDrained(s: State, w: nat)
    requires Reachable(s) && w < |s.workers| && s.workers[w].pc.Draining?
    ensures Enabled(s, Go(w))
    ensures var me, me1 := s.workers[w], Apply(s, Go(w)).workers[w];
      if me1.pc.Moving? then me.inbox == [Entry(me1.pc.t, true)] + me1.inbox && me1.deque == me.deque
      else me1.inbox == me.inbox && (me.inbox == [] || Filler(s, w, me.inbox[0].task))
  {
    ReachableReady(s);
    var me := s.workers[w];
    assert me.inbox != [] ==> me.inbox[0] in me.inbox;
  }

  /** A drained task goes on the young end of the worker's own deque, and the worker looks at its inbox again. */
  lemma DrainedIsPushed(s: State, w: nat)
    requires w < |s.workers| && s.workers[w].pc.Moving?
    ensures Enabled(s, Go(w))
    ensures var me, me1 := s.workers[w], Apply(s, Go(w)).workers[w];
      me1.deque == me.deque + [me.pc.t] && me1.pc.Draining? && me1.inbox == me.inbox
  {
  }

  /** A worker runs the youngest task of its own deque, and a thief steals the oldest of another's. */
  lemma OwnYoungestOthersOldest(s: State, st: Step)
    requires Enabled(s, st) && (st.Probe? || (st.Go? && s.workers[st.w].pc.Popping?))
    ensures |Apply(s, st).workers| == |s.workers|
    ensures var me, me1 := s.workers[st.w], Apply(s, st).workers[st.w];
      if st.Probe? then me1.pc.Batching? && me1.deque == me.deque
        && s.workers[st.victim].deque == [me1.pc.first] + Apply(s, st).workers[st.victim].deque
      else if me.deque == [] then me1.deque == [] && !me1.pc.Running?
      else me1.pc.Running? && me.deque == me1.deque + [me1.pc.t]
  {
  }

  /** After a task of its own deque a worker goes on with the next one there; only when the deque is empty does it
      look at its inbox again. A stolen task takes it to its inbox at once. */
  lemma KeepsToItsDeque(s: State, w: nat)
    requires w < |s.workers| && s.workers[w].pc.Running? && s.outstanding != 1
    ensures Enabled(s, Finish(w)) && Enabled(Apply(s, Finish(w)), Go(w))
    ensures var me, done := s.workers[w], Apply(s, Finish(w));
      var me1 := Apply(done, Go(w)).workers[w];
      if !me.pc.own then done.workers[w] == me.(pc := Draining)
      else if me.deque == [] then me1 == me.(pc := Draining)
      else me1.pc.Running? && me1.pc.own && me.deque == me1.deque + [me1.pc.t]
  {
  }

  /** A worker leaves exactly when it has declared the end itself after finding nothing outstanding, finds the end
      declared, with the lock held or on waking, or, about to park, finds nothing outstanding. */
  lemma LeavesIff(s: State, st: Step)
    requires Reachable(s) && Enabled(s, st)
    ensures st.w < |Apply(s, st).workers|
    ensures Apply(s, st).workers[st.w].pc.Exited? <==>
      var pc := s.workers[st.w].pc;
      || (pc.DeclareNotify? && pc.next.Leave?)
      || ((pc.ParkTerminated? || pc.ParkSleep? || pc.Asleep?) && s.terminated)
      || (pc.ParkCount? && s.outstanding == 0)
    ensures s.workers[st.w].pc.DeclareNotify? ==> s.terminated
  {
    ReachableInv(s);
    assert WorkerOk(s, st.w);
  }

  /** What is left open: a body may spawn, anywhere, or return; a worker that looks for work may take some from any
      other that has some in its deque, and more as long as there is more, or give up; and nobody waits but for the
      lock, or asleep. */
  lemma ChoicesAreOpen(s: State, w: nat, other: nat)
    requires w < |s.workers|
    ensures var pc := s.workers[w].pc;
      && (pc.Running? ==> Enabled(s, Spawn(w)) && Enabled(s, SpawnAt(w, other)) && Enabled(s, Finish(w)))
      && (pc.Probing? ==> Enabled(s, GiveUp(w)))
      && (pc.Batching? ==> Enabled(s, StopBatch(w)))
      && (other < |s.workers| && other != w && s.workers[other].deque != [] ==>
            && (pc.Probing? ==> Enabled(s, Probe(w, other)))
            && (pc.Batching? && pc.victim == other ==> Enabled(s, TakeMore(w))))
      && (!pc.Running? && !pc.Probing? && !pc.Batching? && !pc.Asleep? && !pc.Exited? ==>
            Enabled(s, Go(w)) || (s.lock.Some? && WantsLock(pc)))
      && (pc.Asleep? ==> Enabled(s, Wake(w)) || s.lock.Some?)
  {
  }

  // ---------------------------------------------------------------- spawning

  /** Where `spawn_at` sends a task: to the worker of the hint, or the last one if there is none such. */
  ghost function Wanted(s: State, hint: nat): nat
    requires s.workers != []
  {
    if hint < |s.workers| then hint else |s.workers| - 1
  }

  /** The body that worker `w` runs spawns a task at step `i`; `w` takes its next step at `e`. */
  ghost predicate Spawns(r: Run<State, Step>, w: nat, i: nat, e: nat) {
    && i < e < |r.steps| < |r.states| && r.steps[i].w == w == r.steps[e].w
    && (r.steps[i].Spawn? || r.steps[i].SpawnAt?)
    && forall k :: i < k < e ==> r.steps[k].w != w
  }

  lemma OthersKeepPc(s: State, st: Step, s1: State, w: nat)
    requires Inv(s) && Next(s, st, s1) && w < |s.workers| && st.w != w && !s.workers[w].pc.Asleep?
    ensures |s1.workers| == |s.workers| && s1.workers[w].pc == s.workers[w].pc
  {
    if st.Go? {
      AdvanceDisturbsNobody(s, st.w);
    } else if st.Wake? {
      WakeUpOk(s, st.w);
    } else {
      ChoiceOk(s, st);
    }
  }

  ghost predicate SamePc(r: Run<State, Step>, w: nat, n: nat, pc: Pc, k: nat) {
    k < |r.states| && |r.states[k].workers| == n && w < n && r.states[k].workers[w].pc == pc
  }

  lemma PcKept(r: Run<State, Step>, w: nat, n: nat, pc: Pc, i: nat, e: nat)
    requires IsRun(r) && i < e < |r.states| && SamePc(r, w, n, pc, i + 1) && !pc.Asleep?
    requires forall k :: i < k < e ==> r.steps[k].w != w
    ensures SamePc(r, w, n, pc, e)
  {
    forall k: nat | i + 1 <= k < e && SamePc(r, w, n, pc, k)
      ensures SamePc(r, w, n, pc, k + 1)
    {
      RunInv(r, k);
      OthersKeepPc(r.states[k], r.steps[k], r.states[k + 1], w);
    }
    HandedOn((k: nat) => SamePc(r, w, n, pc, k), i + 1, e);
  }

  /** Where the deposit of a spawned task belongs: for `spawn`, and for `spawn_at` with the spawner itself as its
      target, the spawner's own deque; otherwise the inbox of the target. */
  ghost predicate Deposits(s: State, s1: State, w: nat, target: nat, t: nat) {
    && w < |s.workers| == |s1.workers| && target < |s.workers|
    && if target == w then s1.workers[w].deque == s.workers[w].deque + [t]
       else s1.workers[target].inbox == s.workers[target].inbox + [Entry(t, false)]
  }

  lemma SpawnBegins(s: State, st: Step)
    requires Enabled(s, st) && (st.Spawn? || st.SpawnAt?)
    ensures var target := if st.Spawn? then st.w else Wanted(s, st.hint);
      var s1 := Apply(s, st);
      var pc, pc1 := s.workers[st.w].pc, s1.workers[st.w].pc;
      && |s1.workers| == |s.workers| && s1.outstanding == s.outstanding + 1 && s1.created == s.created + 1
      && pc1 == if target == st.w then Pushing(pc.t, pc.own, s.created) else Sending(pc.t, pc.own, s.created, target)
  {
  }

  /** A spawned task is counted first, and by the worker's next step it is in the deque or the inbox it is meant
      for: the inbox of worker `hint` whenever that is another worker. */
  lemma SpawnIsDeposited(r: Run<State, Step>, w: nat, i: nat, e: nat)
    requires IsRun(r) && Spawns(r, w, i, e)
    ensures r.states[i].workers != [] && r.states[i + 1].outstanding == r.states[i].outstanding + 1
    ensures var target := if r.steps[i].Spawn? then w else Wanted(r.states[i], r.steps[i].hint);
      Deposits(r.states[e], r.states[e + 1], w, target, r.states[i].created)
  {
    assert Next(r.states[i], r.steps[i], r.states[i + 1]);
    SpawnBegins(r.states[i], r.steps[i]);
    PcKept(r, w, |r.states[i].workers|, r.states[i + 1].workers[w].pc, i, e);
    assert Next(r.states[e], r.steps[e], r.states[e + 1]);
  }

  /** Then everybody is told: before the body goes on, the generation has been raised, and every worker asleep has
      been notified. */
  ghost predicate Telling(s: State, w: nat, since: nat) {
    w < |s.workers| && since <= s.generation
    && (s.workers[w].pc.SignalNotify? ==> since < s.generation)
    && (s.workers[w].pc.Pushing? || s.workers[w].pc.Sending? || s.workers[w].pc.Filling?
        || s.workers[w].pc.SignalLock? || s.workers[w].pc.SignalHeld? || s.workers[w].pc.SignalNotify?)
  }

  ghost predicate Told(s: State, w: nat, since: nat) {
    && w < |s.workers| && s.workers[w].pc.Running? && since < s.generation
    && forall j :: 0 <= j < |s.workers| && s.workers[j].pc.Asleep? ==> s.workers[j].pc.notified
  }

  lemma TellingStep(s: State, st: Step, s1: State, w: nat, since: nat)
    requires Inv(s) && Next(s, st, s1) && Telling(s, w, since)
    ensures if st.w == w && s1.workers[w].pc.Running? then Told(s1, w, since) else Telling(s1, w, since)
  {
    if st.w == w {
      AdvanceDisturbsNobody(s, w);
    } else {
      OthersKeepPc(s, st, s1, w);
      GenerationRises(s, st);
    }
  }

  lemma GenerationRises(s: State, st: Step)
    requires Inv(s) && Enabled(s, st)
    ensures s.generation <= Apply(s, st).generation
  {
    if st.Go? {
      AdvanceDisturbsNobody(s, st.w);
    } else if st.Wake? {
      WakeUpOk(s, st.w);
    } else {
      ChoiceOk(s, st);
    }
  }

  /** A whole spawn of worker `w`: begun by step `i` of its body, back in the body after step `j`. */
  ghost predicate SpawnCall(r: Run<State, Step>, w: nat, i: nat, j: nat) {
    && i < j < |r.steps| < |r.states| && r.steps[i].w == w && (r.steps[i].Spawn? || r.steps[i].SpawnAt?)
    && (forall k :: i < k <= j ==> w < |r.states[k].workers| && !r.states[k].workers[w].pc.Running?)
    && w < |r.states[j + 1].workers| && r.states[j + 1].workers[w].pc.Running?
  }

  ghost predicate TellsAt(r: Run<State, Step>, w: nat, since: nat, k: nat) {
    k < |r.states| && Telling(r.states[k], w, since)
  }

  lemma TellsOn(r: Run<State, Step>, w: nat, since: nat, k: nat)
    requires IsRun(r) && k < |r.steps| && TellsAt(r, w, since, k)
    requires w < |r.states[k + 1].workers| && !r.states[k + 1].workers[w].pc.Running?
    ensures TellsAt(r, w, since, k + 1)
  {
    RunInv(r, k);
    assert Next(r.states[k], r.steps[k], r.states[k + 1]);
    TellingStep(r.states[k], r.steps[k], r.states[k + 1], w, since);
  }

  /** A spawn does not return before it has raised the generation and notified every sleeper. */
  lemma SpawnTells(r: Run<State, Step>, w: nat, i: nat, j: nat)
    requires IsRun(r) && SpawnCall(r, w, i, j)
    ensures Told(r.states[j + 1], w, r.states[i].generation)
  {
    assert Next(r.states[i], r.steps[i], r.states[i + 1]);
    SpawnBegins(r.states[i], r.steps[i]);
    RunInv(r, i);
    GenerationRises(r.states[i], r.steps[i]);
    var since := r.states[i].generation;
    forall k: nat | i + 1 <= k < j && TellsAt(r, w, since, k)
      ensures TellsAt(r, w, since, k + 1)
    {
      TellsOn(r, w, since, k);
    }
    HandedOn((k: nat) => TellsAt(r, w, since, k), i + 1, j);
    RunInv(r, j);
    assert Next(r.states[j], r.steps[j], r.states[j + 1]);
    TellingStep(r.states[j], r.steps[j], r.states[j + 1], w, since);
  }
}

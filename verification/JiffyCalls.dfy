/** What every call of src/jiffy.rs answers over whole runs, and that a dequeue ends. */
module JiffyCalls {
  import opened Numbers
  import opened Runs
  import opened Jiffy
  import opened JiffySafety
  import opened JiffyTheorems

  lemma StepAt(r: Run<State, Step>, producers: nat, k: nat)
    requires IsRun(r, producers) && k < |r.steps|
    ensures Inv(r.states[k]) && Inv(r.states[k + 1]) && Next(r.states[k], r.steps[k], r.states[k + 1])
  {
    RunInv(r, producers, k);
    RunInv(r, producers, k + 1);
  }

  // ---------------------------------------------------------------- enqueue

  /** Producer `p` is inside an enqueue that step `i` began, up to state `j`. */
  ghost predicate Enqueuing(r: Run<State, Step>, p: nat, i: nat, j: nat) {
    && i < j <= |r.steps| < |r.states| && r.steps[i].Enqueue? && r.steps[i].p == p
    && (forall k :: i <= k <= j ==> p < |r.states[k].producers|)
    && forall k :: i < k <= j ==> !r.states[k].producers[p].Idle?
  }

  ghost predicate EnqueueCall(r: Run<State, Step>, p: nat, i: nat, j: nat) {
    && i <= j < |r.steps| < |r.states| && r.steps[i].Enqueue? && r.steps[i].p == p
    && (forall k :: i <= k <= j + 1 ==> p < |r.states[k].producers|)
    && (forall k :: i < k <= j ==> !r.states[k].producers[p].Idle?) && r.states[j + 1].producers[p].Idle?
  }

  /** The slot has been given its value, which may by now be dequeued. */
  ghost predicate Filled(s: State, i: nat, v: nat) {
    && i < s.tail == |s.claims| && s.claims[i] == v
    && (if i < HandledEnd(s) then SlotAt(s, i).state == HANDLED else SlotAt(s, i) == Slot(SET, Some(v)))
  }

  /** The claim of slot `i` for `v` is still in the producer's hands, or its value is there. */
  ghost predicate OnItsWay(s: State, p: nat, i: nat, v: nat) {
    && p < |s.producers| && i < s.tail == |s.claims| && s.claims[i] == v
    && (Holds(s.producers[p], i) || Filled(s, i, v))
  }

  lemma ProducerHolds(s: State, p: nat, i: nat)
    requires Addressable(s) && p < |s.producers| && Safe(s, s.producers[p])
    ensures |ProducerNext(s, p).producers| == |s.producers|
    ensures forall q :: 0 <= q < |s.producers| && q != p ==> ProducerNext(s, p).producers[q] == s.producers[q]
    ensures Holds(ProducerNext(s, p).producers[p], i) ==> Holds(s.producers[p], i)
  {
  }

  /** Nobody comes to hold a slot claimed before. */
  lemma NoNewHolder(s: State, st: Step, s1: State, i: nat)
    requires Next(s, st, s1) && i < s.tail
    ensures |s1.producers| == |s.producers|
    ensures forall q :: 0 <= q < |s.producers| && Holds(s1.producers[q], i) ==> Holds(s.producers[q], i)
  {
    if st.Produce? {
      ProducerHolds(s, st.p, i);
    }
  }

  lemma FilledIsFree(s: State, q: nat, i: nat, v: nat)
    requires Inv(s) && q < |s.producers| && Filled(s, i, v)
    ensures !Holds(s.producers[q], i)
  {
    assert ProducerOk(s, q);
    assert Holds(s.producers[q], i) ==> HeldOk(s, q, i);
  }

  lemma FilledStays(s: State, st: Step, s1: State, i: nat, v: nat)
    requires Inv(s) && Inv(s1) && Next(s, st, s1) && Filled(s, i, v)
    ensures Filled(s1, i, v)
  {
    StepExtends(s, st, s1);
    NoNewHolder(s, st, s1, i);
    forall q | 0 <= q < |s1.producers|
      ensures !Holds(s1.producers[q], i)
    {
      FilledIsFree(s, q, i, v);
    }
    assert SlotOk(s1, i);
  }

  /** A producer lets go of its claim only by filling the slot. */
  lemma LetsGoFilled(s: State, s1: State, p: nat, i: nat, v: nat)
    requires Inv(s) && Inv(s1) && Next(s, Produce(p), s1) && OnItsWay(s, p, i, v) && Holds(s.producers[p], i)
    ensures OnItsWay(s1, p, i, v)
  {
    StepExtends(s, Produce(p), s1);
    ProducerHolds(s, p, i);
    if !Holds(s1.producers[p], i) {
      forall q | 0 <= q < |s1.producers| && q != p
        ensures !Holds(s1.producers[q], i)
      {
        assert ProducerOk(s, p) && HeldOk(s, p, i);
      }
      assert SlotOk(s1, i);
    }
  }

  lemma WayStep(s: State, st: Step, s1: State, p: nat, i: nat, v: nat)
    requires Inv(s) && Inv(s1) && Next(s, st, s1) && OnItsWay(s, p, i, v)
    ensures OnItsWay(s1, p, i, v)
  {
    StepExtends(s, st, s1);
    if Filled(s, i, v) {
      FilledStays(s, st, s1, i, v);
      NoNewHolder(s, st, s1, i);
    } else if st == Produce(p) {
      LetsGoFilled(s, s1, p, i, v);
    } else {
      OthersLeave(s, st, s1, p);
    }
  }

  lemma OthersLeave(s: State, st: Step, s1: State, p: nat)
    requires Next(s, st, s1) && p < |s.producers| && st != Produce(p) && !s.producers[p].Idle?
    ensures p < |s1.producers| && s1.producers[p] == s.producers[p]
  {
    if st.Produce? {
      ProducerHolds(s, st.p, 0);
    }
  }

  ghost predicate WayAt(r: Run<State, Step>, p: nat, i: nat, v: nat, k: nat) {
    k < |r.states| && OnItsWay(r.states[k], p, i, v)
  }

  lemma WayOn(r: Run<State, Step>, producers: nat, p: nat, i: nat, v: nat, k: nat)
    requires IsRun(r, producers) && k < |r.steps| && WayAt(r, p, i, v, k)
    ensures WayAt(r, p, i, v, k + 1)
  {
    StepAt(r, producers, k);
    WayStep(r.states[k], r.steps[k], r.states[k + 1], p, i, v);
  }

  lemma EnqueueBegins(r: Run<State, Step>, producers: nat, p: nat, i: nat)
    requires IsRun(r, producers) && Enqueuing(r, p, i, i + 1)
    ensures WayAt(r, p, r.states[i].tail, r.steps[i].v, i + 1)
  {
    StepAt(r, producers, i);
  }

  /** A completed enqueue has claimed one slot, the next in order, and its value is in that slot or has been
      dequeued from it. */
  lemma EnqueueAnswers(r: Run<State, Step>, producers: nat, p: nat, i: nat, j: nat)
    requires IsRun(r, producers) && EnqueueCall(r, p, i, j)
    ensures r.states[i + 1].tail == r.states[i].tail + 1
    ensures Filled(r.states[j + 1], r.states[i].tail, r.steps[i].v)
  {
    var n, v := r.states[i].tail, r.steps[i].v;
    StepAt(r, producers, i);
    EnqueueBegins(r, producers, p, i);
    forall k: nat | i + 1 <= k < j + 1 && WayAt(r, p, n, v, k)
      ensures WayAt(r, p, n, v, k + 1)
    {
      WayOn(r, producers, p, n, v, k);
    }
    HandedOn((k: nat) => WayAt(r, p, n, v, k), i + 1, j + 1);
  }

  // ---------------------------------------------------------------- dequeue

  ghost predicate DequeueCall(r: Run<State, Step>, i: nat, j: nat) {
    && i <= j < |r.steps| < |r.states| && r.steps[i] == Dequeue
    && (forall k :: i < k <= j ==> !r.states[k].consumer.Resting?) && r.states[j + 1].consumer.Resting?
  }

  ghost predicate NothingTaken(s0: State, s: State) {
    s.head == s0.head && s.taken == s0.taken && !s.consumer.Resting?
  }

  /** Nothing is claimed, or the oldest slot claimed is still in its producer's hands. */
  ghost predicate NothingReady(s: State) {
    s.head == s.tail || exists p :: 0 <= p < |s.producers| && Holds(s.producers[p], s.head)
  }

  lemma ProducerKeepsConsumer(s: State, st: Step, s1: State)
    requires Next(s, st, s1) && (st.Enqueue? || st.Produce?)
    ensures s1.head == s.head && s1.taken == s.taken && s1.consumer == s.consumer && s1.headBuf == s.headBuf
  {
  }

  lemma ConsumerTakes(s: State, s1: State)
    requires Inv(s) && Next(s, Consume, s1)
    ensures if s.consumer.StoreHead?
            then s1.consumer.Resting? && s1.head == s.head + 1 && s.head < |s.claims|
                 && s1.taken == s.taken + [Some(s.claims[s.head])]
            else s1.head == s.head && s1.taken == s.taken
    ensures s1.consumer.Resting? && !s.consumer.StoreHead? ==> NothingReady(s)
  {
    ConsumeKeeps(s);
    assert SlotOk(s, s.head);
  }

  /** Taken: the oldest value claimed. */
  ghost predicate TookOldest(s0: State, s1: State) {
    && s1.head == s0.head + 1 && s0.head < |s1.claims|
    && s1.taken == s0.taken + [Some(s1.claims[s0.head])]
  }

  lemma DequeueStep(s0: State, s: State, st: Step, s1: State)
    requires Inv(s) && Next(s, st, s1) && NothingTaken(s0, s)
    ensures if !s1.consumer.Resting? then NothingTaken(s0, s1)
            else TookOldest(s0, s1) || (s1.head == s0.head && s1.taken == s0.taken && NothingReady(s))
  {
    if st == Consume {
      ConsumerTakes(s, s1);
      StepExtends(s, st, s1);
    } else {
      ProducerKeepsConsumer(s, st, s1);
    }
  }

  ghost predicate WaitsAt(r: Run<State, Step>, i: nat, k: nat) {
    i < |r.states| && k < |r.states| && NothingTaken(r.states[i], r.states[k])
  }

  lemma WaitsOn(r: Run<State, Step>, producers: nat, i: nat, k: nat)
    requires IsRun(r, producers) && k < |r.steps| && WaitsAt(r, i, k) && !r.states[k + 1].consumer.Resting?
    ensures WaitsAt(r, i, k + 1)
  {
    StepAt(r, producers, k);
    DequeueStep(r.states[i], r.states[k], r.steps[k], r.states[k + 1]);
  }

  /** A completed dequeue, whatever the producers do meanwhile: it takes the oldest value claimed; or it answers
      `None`, and at that moment nothing was claimed, or the oldest claimed slot not yet filled. */
  lemma DequeueAnswers(r: Run<State, Step>, producers: nat, i: nat, j: nat)
    requires IsRun(r, producers) && DequeueCall(r, i, j)
    ensures var s, s1 := r.states[i], r.states[j + 1];
      TookOldest(s, s1) || (s1.head == s.head && s1.taken == s.taken && NothingReady(r.states[j]))
  {
    StepAt(r, producers, i);
    forall k: nat | i + 1 <= k < j && WaitsAt(r, i, k)
      ensures WaitsAt(r, i, k + 1)
    {
      WaitsOn(r, producers, i, k);
    }
    HandedOn((k: nat) => WaitsAt(r, i, k), i + 1, j);
    StepAt(r, producers, j);
    DequeueStep(r.states[i], r.states[j], r.steps[j], r.states[j + 1]);
  }

  /** Bounds the own steps a dequeue still needs: it moves on to the next buffer at most once. */
  function DequeueLeft(s: State): nat {
    var turn := if s.head >= (s.headBuf + 1) * BUFFER_SIZE then 10 else 0;
    match s.consumer
    case Resting => 0
    case LoadTail => turn + 9
    case LoadHeadBuf(_) => turn + 8
    case LoadLink(_) => 11
    case StoreHeadBuf(_) => 10
    case LoadState(_, _) => 7
    case ReadValue(_, _) => 6
    case MarkHandled(_, _, _) => 5
    case StoreHead(_, _) => 4
    case _ => 0
  }

  lemma ConsumerShortens(s: State)
    requires Inv(s) && ConsumerSafe(s) && !s.consumer.Resting?
    ensures DequeueLeft(ConsumerNext(s)) < DequeueLeft(s)
  {
  }

  /** Dequeueing is wait-free: each step of the consumer inside a call brings it closer to its end, from a start of
      at most nineteen, and no step of a producer sets it back. */
  lemma DequeueIsWaitFree(s: State, st: Step)
    requires Reachable(s) && Enabled(s, st)
    ensures StepSafe(s, st) && DequeueLeft(s) <= 19
    ensures !s.consumer.Resting? ==>
      if st == Consume then DequeueLeft(Apply(s, st)) < DequeueLeft(s) else DequeueLeft(Apply(s, st)) == DequeueLeft(s)
  {
    ReachableInv(s);
    NothingStray(s, st);
    if st == Consume {
      ConsumerShortens(s);
    } else if !s.consumer.Resting? {
      ProducerKeepsConsumer(s, st, Apply(s, st));
    }
  }

  /** Nobody ever waits: an idle producer may enqueue any value and an idle consumer dequeue, and a call under way may
      go on. */
  lemma NobodyWaits(s: State, p: nat, v: nat)
    requires Reachable(s)
    ensures Enabled(s, if s.consumer.Resting? then Dequeue else Consume)
    ensures p < |s.producers| ==> Enabled(s, if s.producers[p].Idle? then Enqueue(p, v) else Produce(p))
  {
    NothingStray(s, Dequeue);
  }
}

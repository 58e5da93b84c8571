/** What the MPSC queue promises over whole runs. */
module JiffyTheorems {
  import opened Numbers
  import opened Runs
  import opened Jiffy
  import opened JiffySafety

  ghost predicate Next(s: State, st: Step, s1: State) {
    Enabled(s, st) && StepSafe(s, st) && s1 == Apply(s, st)
  }

  ghost predicate IsRun(r: Run<State, Step>, producers: nat) {
    && |r.states| == |r.steps| + 1
    && r.states[0] == Init(producers)
    && forall i :: 0 <= i < |r.steps| ==> Next(r.states[i], r.steps[i], r.states[i + 1])
  }

  lemma NextKeeps(s: State, st: Step, s1: State)
    requires Inv(s) && Next(s, st, s1)
    ensures Inv(s1)
  {
    StepKeeps(s, st);
  }

  lemma RunInv(r: Run<State, Step>, producers: nat, n: nat)
    requires IsRun(r, producers) && n < |r.states|
    ensures Inv(r.states[n])
  {
    forall k | 0 <= k < |r.states| - 1 && Inv(r.states[k])
      ensures Inv(r.states[k + 1])
    {
      NextKeeps(r.states[k], r.steps[k], r.states[k + 1]);
    }
    InitInv(producers);
    InvAlong(r.states, Inv, n);
  }

  ghost predicate Reachable(s: State) {
    exists r: Run<State, Step>, producers: nat :: IsRun(r, producers) && r.states[|r.steps|] == s
  }

  lemma ReachableInv(s: State)
    requires Reachable(s)
    ensures Inv(s)
  {
    var r: Run<State, Step>, producers: nat :| IsRun(r, producers) && r.states[|r.steps|] == s;
    RunInv(r, producers, |r.steps|);
  }

  // ---------------------------------------------------------------- order

  /** What was dequeued is what was claimed at indices `0..head`, in fetch-add order, each once. */
  lemma DequeuesInClaimOrder(s: State)
    requires Reachable(s)
    ensures |s.taken| == s.head <= s.tail == |s.claims|
    ensures forall i :: 0 <= i < s.head ==> s.taken[i] == Some(s.claims[i])
  {
    ReachableInv(s);
  }

  ghost predicate Extends(s: State, s1: State) {
    s.claims <= s1.claims && s.taken <= s1.taken
  }

  lemma ExtendsTransitive(s: State, s1: State, s2: State)
    requires Extends(s, s1) && Extends(s1, s2)
    ensures Extends(s, s2)
  {
  }

  lemma StepExtends(s: State, st: Step, s1: State)
    requires Inv(s) && Next(s, st, s1)
    ensures Extends(s, s1)
    ensures st.Enqueue? ==> s1.claims == s.claims + [st.v]
  {
    if st.Produce? {
      assert ProducerOk(s, st.p);
    }
  }

  lemma {:induction false} ChainExtends(states: seq<State>, i: nat, j: nat)
    requires i <= j < |states|
    requires forall k :: 0 <= k < |states| - 1 ==> Extends(states[k], states[k + 1])
    ensures Extends(states[i], states[j])
    decreases j
  {
    if i < j {
      ChainExtends(states, i, j - 1);
      ExtendsTransitive(states[i], states[j - 1], states[j]);
    }
  }

  lemma RunExtends(r: Run<State, Step>, producers: nat, i: nat, j: nat)
    requires IsRun(r, producers) && i <= j < |r.states|
    ensures Extends(r.states[i], r.states[j])
  {
    forall k | 0 <= k < |r.states| - 1
      ensures Extends(r.states[k], r.states[k + 1])
    {
      RunInv(r, producers, k);
      assert Next(r.states[k], r.steps[k], r.states[k + 1]);
      StepExtends(r.states[k], r.steps[k], r.states[k + 1]);
    }
    ChainExtends(r.states, i, j);
  }

  /** An enqueue that claims its slot first comes out first: at any later time the second value has
      been dequeued only if the first has, at the earlier position. */
  lemma ClaimedFirstOutFirst(r: Run<State, Step>, producers: nat, i: nat, j: nat, n: nat)
    requires IsRun(r, producers) && i < j < n < |r.states|
    requires r.steps[i].Enqueue? && r.steps[j].Enqueue?
    ensures var (a, b) := (r.states[i].tail, r.states[j].tail);
      && a < b < |r.states[n].claims|
      && r.states[n].claims[a] == r.steps[i].v && r.states[n].claims[b] == r.steps[j].v
      && (b < |r.states[n].taken| ==> r.states[n].taken[a] == Some(r.steps[i].v))
      && (b < |r.states[n].taken| ==> r.states[n].taken[b] == Some(r.steps[j].v))
  {
    RunInv(r, producers, i);
    RunInv(r, producers, j);
    RunInv(r, producers, n);
    StepExtends(r.states[i], r.steps[i], r.states[i + 1]);
    StepExtends(r.states[j], r.steps[j], r.states[j + 1]);
    RunExtends(r, producers, i + 1, j);
    RunExtends(r, producers, i + 1, n);
    RunExtends(r, producers, j + 1, n);
  }

  /** Nothing is lost: a claimed slot is consumed, filled with its own value, or still in the hands of
      exactly one producer. */
  lemma NothingLost(s: State, i: nat)
    requires Reachable(s) && i < s.tail
    ensures |s.claims| == s.tail
    ensures var slot := SlotAt(s, i);
      || (slot.state == HANDLED && i < HandledEnd(s))
      || (slot == Slot(SET, Some(s.claims[i])) && HandledEnd(s) <= i)
      || (slot.state == EMPTY && HandledEnd(s) <= i && exists p :: 0 <= p < |s.producers| && Holds(s.producers[p], i))
    ensures forall p, q :: 0 <= p < q < |s.producers| ==> !(Holds(s.producers[p], i) && Holds(s.producers[q], i))
  {
    ReachableInv(s);
    assert SlotOk(s, i);
    forall p, q | 0 <= p < q < |s.producers|
      ensures !(Holds(s.producers[p], i) && Holds(s.producers[q], i))
    {
      assert ProducerOk(s, p);
      assert Holds(s.producers[p], i) ==> HeldOk(s, p, i);
    }
  }

  /** `dequeue` gives up on a claimed slot only while its producer is still on the way to it. */
  lemma NoneIsHonest(s: State)
    requires Reachable(s) && Enabled(s, Consume)
    requires !s.consumer.StoreHead?
    ensures ConsumerSafe(s) && Addressable(s)
    ensures ConsumerNext(s).consumer.Resting? ==>
      s.head == s.tail || exists p :: 0 <= p < |s.producers| && Holds(s.producers[p], s.head)
  {
    ReachableInv(s);
    ConsumeKeeps(s);
    assert SlotOk(s, s.head);
    if s.consumer.LoadState? {
      WriteSlotAt(s, s.head, SlotAt(s, s.head), s.head);
    }
  }

  // ---------------------------------------------------------------- the chain

  /** Every reference followed is a real buffer and slot: no null `next`, no negative offset, no slot
      already handled, and what the steps dereference exists. */
  lemma NothingStray(s: State, st: Step)
    requires Reachable(s)
    ensures forall p :: 0 <= p < |s.producers| ==> !s.producers[p].Crashed?
    ensures !s.consumer.Underflow? && !s.consumer.SkipHandled?
    ensures Enabled(s, st) ==> StepSafe(s, st)
  {
    ReachableInv(s);
    forall p | 0 <= p < |s.producers|
      ensures !s.producers[p].Crashed?
    {
      assert ProducerOk(s, p);
    }
    if Enabled(s, st) {
      StepKeeps(s, st);
    }
  }

  /** The chain covers the indices in consecutive blocks, and the search ends in the one buffer that
      contains the claimed index. */
  lemma LocatesItsBuffer(s: State, p: nat, k: nat)
    requires Reachable(s) && p < |s.producers| && s.producers[p].Found? && k < |s.bufs|
    ensures s.bufs[k].base == k * BUFFER_SIZE
    ensures s.bufs[k].next == if k + 1 < |s.bufs| then Some(k + 1) else None
    ensures s.producers[p].buf == k <==> Inside(s, s.producers[p].idx, k)
  {
    ReachableInv(s);
    assert ProducerOk(s, p);
  }

  /** Bounds the own steps a producer still needs. Each round of `locate_tail_buffer` sees a later
      `tail_buf` than the one before, and none past the claimed index. */
  function StepsLeft(pc: Producer): int {
    match pc
    case AtTail(idx, _, seen) => 10 * (idx - seen) + idx + 20
    case Linking(buf, k) => (match k case Done => 6 case Retry(idx, _) => 10 * (idx - buf * BUFFER_SIZE) + idx + 29)
    case LinkCas(buf, k) => (match k case Done => 5 case Retry(idx, _) => 10 * (idx - buf * BUFFER_SIZE) + idx + 28)
    case LoadNext(idx, _, buf) => 10 * (idx - buf * BUFFER_SIZE) + idx + 27
    case Advancing(idx, _, buf, _) => 10 * (idx - buf * BUFFER_SIZE) + idx + 26
    case FromHead(idx, _) => idx + 10
    case Walking(idx, _, buf) => idx - buf + 9
    case Found(_, _, _) => 8
    case Stored(_, _, _) => 7
    case _ => 0
  }

  lemma LeftOver(s: State, p: nat)
    requires Inv(s) && p < |s.producers|
    ensures StepsLeft(s.producers[p]) >= 0
  {
    assert ProducerOk(s, p);
  }

  lemma StepShortens(s: State, p: nat)
    requires Chained(s) && p < |s.producers| && Safe(s, s.producers[p])
    requires Located(s, s.producers[p])
    requires s.producers[p].FromHead? ==> s.headBuf * BUFFER_SIZE <= s.producers[p].idx
    requires !s.producers[p].Idle?
    ensures StepsLeft(ProducerNext(s, p).producers[p]) < StepsLeft(s.producers[p])
  {
  }

  /** Enqueueing is wait-free: whatever the others do in between, every step of a producer brings it
      closer to the end, from a start that its index alone determines. */
  lemma EnqueueIsWaitFree(s: State, p: nat)
    requires Reachable(s) && Enabled(s, Produce(p))
    ensures StepSafe(s, Produce(p))
    ensures 0 <= StepsLeft(ProducerNext(s, p).producers[p]) < StepsLeft(s.producers[p])
  {
    ReachableInv(s);
    ProduceKeeps(s, p);
    LeftOver(s, p);
    LeftOver(ProducerNext(s, p), p);
    assert ProducerOk(s, p);
    if s.producers[p].FromHead? {
      assert HeldOk(s, p, s.producers[p].idx);
    }
    StepShortens(s, p);
  }

  /** A retry of `locate_tail_buffer` finds `tail_buf` at a strictly later base, still short of the index. */
  lemma RetryRises(s: State, p: nat, idx: nat, v: nat, seen: int)
    requires Reachable(s) && p < |s.producers| && s.producers[p] == AtTail(idx, v, seen)
    ensures Addressable(s)
    ensures seen < s.bufs[s.tailBuf].base
    ensures seen == -1 || seen + BUFFER_SIZE <= idx
  {
    ReachableInv(s);
    assert ProducerOk(s, p);
  }

  // ---------------------------------------------------------------- drop

  ghost predicate Quiet(s: State) {
    s.consumer.Resting? && forall p :: 0 <= p < |s.producers| ==> s.producers[p].Idle?
  }

  /** Values enqueued and not dequeued, at indices below `n`. */
  function Undequeued(s: State, n: nat): seq<nat>
    requires s.head <= s.tail == |s.claims|
  {
    if n <= s.head then [] else if n >= s.tail then s.claims[s.head..] else s.claims[s.head..n]
  }

  lemma QuietSlot(s: State, i: nat)
    requires Reachable(s) && Quiet(s)
    ensures Chained(s) && s.head <= s.tail == |s.claims|
    ensures SlotAt(s, i).state == SET <==> s.head <= i < s.tail
    ensures s.head <= i < s.tail ==> SlotAt(s, i).value == Some(s.claims[i]) && i < |s.bufs| * BUFFER_SIZE
  {
    ReachableInv(s);
    assert SlotOk(s, i);
  }

  /** A slot as the walk meets it: `SET` exactly when its value is the next one to be dropped. */
  lemma SlotMet(s: State, k: nat, offset: nat)
    requires Reachable(s) && Quiet(s) && k < |s.bufs| && offset < BUFFER_SIZE
    ensures |s.bufs[k].slots| == BUFFER_SIZE && s.head <= s.tail == |s.claims|
    ensures var slot, n := s.bufs[k].slots[offset], k * BUFFER_SIZE + offset;
      && (slot.state == SET ==> slot.value.Some?)
      && Undequeued(s, n + 1) == Undequeued(s, n) + if slot.state == SET then [slot.value.value] else []
  {
    var n := k * BUFFER_SIZE + offset;
    QuietSlot(s, n);
    assert n / BUFFER_SIZE == k && n % BUFFER_SIZE == offset;
  }

  /** `Drop for Inner`: walk the chain from the first buffer, drop the value of every slot that is still
      `SET`, and free each buffer. Exactly the values not dequeued are dropped, each once. */
  method Drop(s: State) returns (dropped: seq<nat>, freed: seq<nat>)
    requires Reachable(s) && Quiet(s)
    ensures s.head <= s.tail == |s.claims|
    ensures dropped == s.claims[s.head..]
    ensures freed == Upto(|s.bufs|)
  {
    QuietSlot(s, 0);
    dropped, freed := [], [];
    var buf: Option<nat> := Some(0);
    while buf.Some?
      invariant buf == if |freed| < |s.bufs| then Some(|freed|) else None
      invariant |freed| <= |s.bufs| && freed == Upto(|freed|)
      invariant dropped == Undequeued(s, |freed| * BUFFER_SIZE)
      decreases |s.bufs| - |freed|
    {
      var k := buf.value;
      for offset := 0 to BUFFER_SIZE
        invariant dropped == Undequeued(s, k * BUFFER_SIZE + offset)
      {
        SlotMet(s, k, offset);
        var slot := s.bufs[k].slots[offset];
        if slot.state == SET {
          dropped := dropped + [slot.value.value];
        }
      }
      freed := freed + [k];
      buf := s.bufs[k].next;
    }
    if s.head < s.tail {
      QuietSlot(s, s.tail - 1);
    }
  }
}

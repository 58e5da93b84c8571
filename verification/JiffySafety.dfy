/** Every step of the MPSC queue keeps its invariant. */
module JiffySafety {
  import opened Numbers
  import opened Jiffy

  lemma WriteSlotAt(s: State, idx: nat, slot: Slot, i: nat)
    requires Chained(s) && idx / BUFFER_SIZE < |s.bufs|
    ensures Inside(s, idx, idx / BUFFER_SIZE) && idx - s.bufs[idx / BUFFER_SIZE].base == idx % BUFFER_SIZE
    ensures SlotIn(s, idx, idx / BUFFER_SIZE) == SlotAt(s, idx)
    ensures Chained(WriteSlot(s, idx / BUFFER_SIZE, idx % BUFFER_SIZE, slot))
    ensures SlotAt(WriteSlot(s, idx / BUFFER_SIZE, idx % BUFFER_SIZE, slot), i)
         == if i == idx then slot else SlotAt(s, i)
  {
  }

  /** Linking a buffer of untouched slots changes no slot. */
  lemma LinkSlotAt(s: State, p: nat, buf: nat, k: AfterLink, i: nat)
    requires Chained(s) && p < |s.producers| && buf < |s.bufs|
    ensures Chained(TryLink(s, p, buf, k))
    ensures |s.bufs| <= |TryLink(s, p, buf, k).bufs| && buf + 1 < |TryLink(s, p, buf, k).bufs|
    ensures SlotAt(TryLink(s, p, buf, k), i) == SlotAt(s, i)
  {
  }

  /** Memory as the other parties see it: only the chain may have grown and `tail_buf` moved on. */
  ghost predicate SameSlots(s: State, s1: State) {
    && s1.head == s.head && s1.tail == s.tail && s1.claims == s.claims && s1.taken == s.taken
    && s1.headBuf == s.headBuf && s1.consumer == s.consumer
    && |s.bufs| <= |s1.bufs| && s.tailBuf <= s1.tailBuf
    && forall i: nat :: SlotAt(s1, i) == SlotAt(s, i)
  }

  lemma LocatedStill(s: State, s1: State, pc: Producer)
    requires SameSlots(s, s1) && Located(s, pc)
    ensures Located(s1, pc)
  {
  }

  ghost predicate SameClaim(pc: Producer, pc1: Producer) {
    && (forall i: nat :: Holds(pc1, i) <==> Holds(pc, i))
    && (forall v: nat :: ValueIs(pc, v) ==> ValueIs(pc1, v))
  }

  lemma OthersStill(s: State, s1: State, p: nat)
    requires p < |s.producers| && |s1.producers| == |s.producers|
    requires forall q :: 0 <= q < |s.producers| ==> ProducerOk(s, q)
    requires forall q :: 0 <= q < |s.producers| && q != p ==> s1.producers[q] == s.producers[q]
    requires SameSlots(s, s1) && SameClaim(s.producers[p], s1.producers[p]) && Located(s1, s1.producers[p])
    ensures forall q :: 0 <= q < |s1.producers| ==> ProducerOk(s1, q)
  {
    forall q | 0 <= q < |s1.producers|
      ensures ProducerOk(s1, q)
    {
      assert ProducerOk(s, q);
      if q != p {
        LocatedStill(s, s1, s.producers[q]);
      }
    }
  }

  lemma SlotsStill(s: State, s1: State, p: nat)
    requires p < |s.producers| && |s1.producers| == |s.producers| && |s.claims| == s.tail
    requires forall i: nat :: SlotOk(s, i)
    requires forall q :: 0 <= q < |s.producers| && q != p ==> s1.producers[q] == s.producers[q]
    requires SameSlots(s, s1) && SameClaim(s.producers[p], s1.producers[p])
    ensures forall i: nat :: SlotOk(s1, i)
  {
    forall i: nat
      ensures SlotOk(s1, i)
    {
      assert SlotOk(s, i);
      if exists q :: 0 <= q < |s.producers| && Holds(s.producers[q], i) {
        var q :| 0 <= q < |s.producers| && Holds(s.producers[q], i);
        assert Holds(s1.producers[q], i);
      }
    }
  }

  /** A producer step that keeps its claim and every slot. */
  lemma ProducerMoves(s: State, s1: State, p: nat, pc: Producer)
    requires Inv(s) && p < |s.producers| && s1.producers == s.producers[p := pc]
    requires Chained(s1) && SameSlots(s, s1) && SameClaim(s.producers[p], pc) && Located(s1, pc)
    ensures Inv(s1)
  {
    OthersStill(s, s1, p);
    SlotsStill(s, s1, p);
  }

  lemma ClaimIsNew(s: State, p: nat)
    requires forall q :: 0 <= q < |s.producers| ==> ProducerOk(s, q)
    ensures forall q :: 0 <= q < |s.producers| && q != p ==> !Holds(s.producers[q], s.tail)
  {
    forall q | 0 <= q < |s.producers| && q != p
      ensures !Holds(s.producers[q], s.tail)
    {
      assert ProducerOk(s, q);
    }
  }

  lemma ClaimKeeps(s: State, p: nat, v: nat)
    requires Inv(s) && p < |s.producers| && s.producers[p].Idle?
    ensures Inv(Claim(s, p, v))
  {
    var s1 := Claim(s, p, v);
    assert SlotOk(s, s.tail);
    forall i: nat
      ensures SlotAt(s1, i) == SlotAt(s, i)
    {
    }
    forall q, i: nat | 0 <= q < |s1.producers| && Holds(s1.producers[q], i)
      ensures HeldOk(s1, q, i)
    {
      if q != p {
        assert ProducerOk(s, q) && HeldOk(s, q, i);
      } else {
        ClaimIsNew(s, p);
      }
    }
    forall q | 0 <= q < |s1.producers|
      ensures ProducerOk(s1, q)
    {
      assert ProducerOk(s, q);
    }
    forall i: nat
      ensures SlotOk(s1, i)
    {
      assert SlotOk(s, i);
      if i == s.tail {
        assert Holds(s1.producers[p], i);
      } else if exists q :: 0 <= q < |s.producers| && Holds(s.producers[q], i) {
        var q :| 0 <= q < |s.producers| && Holds(s.producers[q], i);
        assert Holds(s1.producers[q], i);
      }
    }
  }

  lemma LoadTailBufKeeps(s: State, p: nat, idx: nat, v: nat, seen: int)
    requires Inv(s) && p < |s.producers| && s.producers[p] == AtTail(idx, v, seen)
    ensures Inv(LoadTailBuf(s, p, idx, v))
  {
    var s1 := LoadTailBuf(s, p, idx, v);
    assert ProducerOk(s, p);
    ProducerMoves(s, s1, p, s1.producers[p]);
  }

  lemma WalkKeeps(s: State, p: nat)
    requires Inv(s) && p < |s.producers| && (s.producers[p].FromHead? || s.producers[p].Walking?)
    ensures Inv(ProducerNext(s, p))
  {
    var s1 := ProducerNext(s, p);
    assert ProducerOk(s, p);
    assert Holds(s.producers[p], s.producers[p].idx);
    ProducerMoves(s, s1, p, s1.producers[p]);
  }

  lemma LinkKeeps(s: State, p: nat)
    requires Inv(s) && p < |s.producers|
    requires s.producers[p].Linking? || s.producers[p].LoadNext? || s.producers[p].Advancing?
    ensures Safe(s, s.producers[p]) && Inv(ProducerNext(s, p))
  {
    assert ProducerOk(s, p);
    var s1 := ProducerNext(s, p);
    ProducerMoves(s, s1, p, s1.producers[p]);
  }

  lemma LinkCasKeeps(s: State, p: nat, buf: nat, k: AfterLink)
    requires Inv(s) && p < |s.producers| && s.producers[p] == LinkCas(buf, k)
    ensures buf < |s.bufs| && Inv(TryLink(s, p, buf, k))
  {
    assert ProducerOk(s, p);
    var s1 := TryLink(s, p, buf, k);
    forall i: nat
      ensures SlotAt(s1, i) == SlotAt(s, i)
    {
      LinkSlotAt(s, p, buf, k, i);
    }
    LinkSlotAt(s, p, buf, k, 0);
    ProducerMoves(s, s1, p, s1.producers[p]);
  }

  // ---------------------------------------------------------------- steps that write a slot

  /** Memory after a write to the slot of `idx` alone. */
  ghost predicate OnlySlot(s: State, s1: State, idx: nat) {
    && s1.tail == s.tail && s1.claims == s.claims && s1.tailBuf == s.tailBuf && |s1.bufs| == |s.bufs|
    && s1.head == s.head
    && forall i: nat :: i != idx ==> SlotAt(s1, i) == SlotAt(s, i)
  }

  lemma WriteIsOnlySlot(s: State, idx: nat, slot: Slot)
    requires Chained(s) && idx / BUFFER_SIZE < |s.bufs|
    ensures OnlySlot(s, WriteSlot(s, idx / BUFFER_SIZE, idx % BUFFER_SIZE, slot), idx)
  {
    forall i: nat | i != idx
      ensures SlotAt(WriteSlot(s, idx / BUFFER_SIZE, idx % BUFFER_SIZE, slot), i) == SlotAt(s, i)
    {
      WriteSlotAt(s, idx, slot, i);
    }
  }

  /** Producers that do not hold `idx` are untouched by a write there. */
  lemma BystandersStill(s: State, s1: State, q: nat, idx: nat)
    requires q < |s.producers| == |s1.producers| && ProducerOk(s, q) && OnlySlot(s, s1, idx)
    requires !Holds(s.producers[q], idx) && s1.producers[q] == s.producers[q]
    requires forall r, i: nat :: 0 <= r < |s.producers| && Holds(s1.producers[r], i) ==> Holds(s.producers[r], i)
    ensures ProducerOk(s1, q)
  {
    forall i: nat | Holds(s1.producers[q], i)
      ensures HeldOk(s1, q, i)
    {
      assert HeldOk(s, q, i);
    }
  }

  /** A write to the one slot that producer `p` holds. */
  lemma WriteOwnSlot(s: State, s1: State, p: nat, idx: nat)
    requires p < |s.producers| == |s1.producers| && OnlySlot(s, s1, idx) && |s.claims| == s.tail
    requires forall q :: 0 <= q < |s.producers| ==> ProducerOk(s, q)
    requires forall q :: 0 <= q < |s.producers| && q != p ==> s1.producers[q] == s.producers[q]
    requires Holds(s.producers[p], idx)
    requires forall i: nat :: Holds(s1.producers[p], i) ==> i == idx
    requires ProducerOk(s1, p)
    ensures forall q :: 0 <= q < |s1.producers| ==> ProducerOk(s1, q)
  {
    assert ProducerOk(s, p) && HeldOk(s, p, idx);
    forall q | 0 <= q < |s1.producers|
      ensures ProducerOk(s1, q)
    {
      if q != p {
        BystandersStill(s, s1, q, idx);
      }
    }
  }

  lemma OtherSlotsStill(s: State, s1: State, p: nat, idx: nat)
    requires p < |s.producers| == |s1.producers| && OnlySlot(s, s1, idx) && |s.claims| == s.tail
    requires HandledEnd(s1) == HandledEnd(s)
    requires forall q :: 0 <= q < |s.producers| && q != p ==> s1.producers[q] == s.producers[q]
    requires forall i: nat :: Holds(s.producers[p], i) ==> i == idx
    requires forall i: nat :: SlotOk(s, i)
    requires SlotOk(s1, idx)
    ensures forall i: nat :: SlotOk(s1, i)
  {
    forall i: nat
      ensures SlotOk(s1, i)
    {
      assert SlotOk(s, i);
      if i != idx && exists q :: 0 <= q < |s.producers| && Holds(s.producers[q], i) {
        var q :| 0 <= q < |s.producers| && Holds(s.producers[q], i);
        assert Holds(s1.producers[q], i);
      }
    }
  }

  /** A held slot is past the consumer's, so the consumer does not look at it as filled. */
  lemma ConsumerStill(s: State, s1: State, p: nat, idx: nat)
    requires Inv(s) && p < |s.producers| && Holds(s.producers[p], idx) && OnlySlot(s, s1, idx)
    requires s1.headBuf == s.headBuf && s1.consumer == s.consumer
    ensures ConsumerOk(s1)
  {
    assert ProducerOk(s, p) && HeldOk(s, p, idx);
  }

  lemma StoreValueKeeps(s: State, p: nat, idx: nat, v: nat, buf: nat)
    requires Inv(s) && p < |s.producers| && s.producers[p] == Found(idx, v, buf)
    ensures Inside(s, idx, buf) && Inv(StoreValue(s, p, idx, v, buf))
  {
    assert ProducerOk(s, p);
    assert Holds(s.producers[p], idx);
    assert HeldOk(s, p, idx);
    var slot := SlotAt(s, idx).(value := Some(v));
    WriteSlotAt(s, idx, slot, idx);
    WriteIsOnlySlot(s, idx, slot);
    var s1 := StoreValue(s, p, idx, v, buf);
    assert OnlySlot(s, s1, idx) && SlotAt(s1, idx) == slot && Chained(s1);
    assert Holds(s1.producers[p], idx);
    assert HeldOk(s1, p, idx);
    WriteOwnSlot(s, s1, p, idx);
    assert SlotOk(s, idx);
    OtherSlotsStill(s, s1, p, idx);
    ConsumerStill(s, s1, p, idx);
  }

  lemma PublishKeeps(s: State, p: nat, idx: nat, v: nat, buf: nat)
    requires Inv(s) && p < |s.producers| && s.producers[p] == Stored(idx, v, buf)
    ensures Inside(s, idx, buf) && Inv(PublishSlot(s, p, idx, buf))
  {
    assert ProducerOk(s, p);
    assert Holds(s.producers[p], idx);
    assert HeldOk(s, p, idx);
    var slot := SlotAt(s, idx).(state := SET);
    WriteSlotAt(s, idx, slot, idx);
    WriteIsOnlySlot(s, idx, slot);
    var s1 := PublishSlot(s, p, idx, buf);
    assert OnlySlot(s, s1, idx) && SlotAt(s1, idx) == slot && Chained(s1);
    assert ProducerOk(s1, p);
    WriteOwnSlot(s, s1, p, idx);
    assert SlotOk(s, idx);
    OtherSlotsStill(s, s1, p, idx);
    ConsumerStill(s, s1, p, idx);
  }

  // ---------------------------------------------------------------- the consumer

  /** The consumer's private moves: nothing but `head_buf` changes. */
  lemma ConsumerMoves(s: State, s1: State)
    requires Inv(s) && s1 == s.(consumer := s1.consumer, headBuf := s1.headBuf)
    requires !s.consumer.StoreHead? && !s1.consumer.StoreHead? && ConsumerOk(s1) && s1.headBuf < |s.bufs|
    ensures Inv(s1)
  {
    forall i: nat
      ensures SlotAt(s1, i) == SlotAt(s, i) && SlotOk(s1, i)
    {
      assert SlotOk(s, i);
    }
    forall q | 0 <= q < |s1.producers|
      ensures ProducerOk(s1, q)
    {
      assert ProducerOk(s, q);
      forall i: nat | Holds(s1.producers[q], i)
        ensures HeldOk(s1, q, i)
      {
        assert HeldOk(s, q, i);
      }
    }
  }

  lemma AdvanceKeeps(s: State)
    requires Inv(s)
    requires s.consumer.LoadTail? || s.consumer.LoadHeadBuf? || s.consumer.LoadLink? || s.consumer.StoreHeadBuf?
    ensures ConsumerSafe(s) && Inv(ConsumerNext(s))
  {
    ConsumerMoves(s, ConsumerNext(s));
  }

  lemma LookKeeps(s: State)
    requires Inv(s) && (s.consumer.LoadState? || s.consumer.ReadValue?)
    ensures ConsumerSafe(s) && Inv(ConsumerNext(s))
  {
    assert SlotOk(s, s.head);
    WriteSlotAt(s, s.head, SlotAt(s, s.head), s.head);
    ConsumerMoves(s, ConsumerNext(s));
  }

  lemma MarkHandledKeeps(s: State, h: nat, buf: nat, v: Option<nat>)
    requires Inv(s) && s.consumer == MarkHandled(h, buf, v)
    ensures ConsumerSafe(s) && Inv(ConsumerNext(s))
  {
    var slot := SlotAt(s, h).(state := HANDLED);
    WriteSlotAt(s, h, slot, h);
    WriteIsOnlySlot(s, h, slot);
    var s1 := ConsumerNext(s);
    assert OnlySlot(s, s1, h) && SlotAt(s1, h) == slot && Chained(s1);
    forall q | 0 <= q < |s1.producers|
      ensures ProducerOk(s1, q)
    {
      assert ProducerOk(s, q);
      assert Holds(s.producers[q], h) ==> HeldOk(s, q, h);
      BystandersStill(s, s1, q, h);
    }
    forall i: nat
      ensures SlotOk(s1, i)
    {
      assert SlotOk(s, i);
    }
  }

  lemma StoreHeadKeeps(s: State)
    requires Inv(s) && s.consumer.StoreHead?
    ensures Inv(ConsumerNext(s))
  {
    var s1 := ConsumerNext(s);
    assert SlotOk(s, s.head);
    forall i: nat
      ensures SlotAt(s1, i) == SlotAt(s, i) && SlotOk(s1, i)
    {
      assert SlotOk(s, i);
    }
    forall q | 0 <= q < |s1.producers|
      ensures ProducerOk(s1, q)
    {
      assert ProducerOk(s, q);
      forall i: nat | Holds(s1.producers[q], i)
        ensures HeldOk(s1, q, i)
      {
        assert HeldOk(s, q, i);
      }
    }
  }

  // ---------------------------------------------------------------- all steps

  lemma InitInv(producers: nat)
    ensures Inv(Init(producers))
  {
  }

  lemma ProduceKeeps(s: State, p: nat)
    requires Inv(s) && Enabled(s, Produce(p))
    ensures StepSafe(s, Produce(p)) && Inv(ProducerNext(s, p))
  {
    assert ProducerOk(s, p);
    match s.producers[p]
    case AtTail(idx, v, seen) => LoadTailBufKeeps(s, p, idx, v, seen);
    case FromHead(_, _) => WalkKeeps(s, p);
    case Walking(_, _, _) => WalkKeeps(s, p);
    case Found(idx, v, buf) => StoreValueKeeps(s, p, idx, v, buf);
    case Stored(idx, v, buf) => PublishKeeps(s, p, idx, v, buf);
    case LinkCas(buf, k) => LinkCasKeeps(s, p, buf, k);
    case _ => LinkKeeps(s, p);
  }

  lemma ConsumeKeeps(s: State)
    requires Inv(s) && Enabled(s, Consume)
    ensures StepSafe(s, Consume) && Inv(ConsumerNext(s))
  {
    match s.consumer
    case LoadState(_, _) => LookKeeps(s);
    case ReadValue(_, _) => LookKeeps(s);
    case MarkHandled(h, buf, v) => MarkHandledKeeps(s, h, buf, v);
    case StoreHead(_, _) => StoreHeadKeeps(s);
    case _ => AdvanceKeeps(s);
  }

  lemma StepKeeps(s: State, st: Step)
    requires Inv(s) && Enabled(s, st)
    ensures StepSafe(s, st) && Inv(Apply(s, st))
  {
    match st
    case Enqueue(p, v) => ClaimKeeps(s, p, v);
    case Produce(p) => ProduceKeeps(s, p);
    case Dequeue => ConsumerMoves(s, s.(consumer := LoadTail));
    case Consume => ConsumeKeeps(s);
  }
}

/** Every step of the Chase-Lev machine keeps its invariant. */
module ChaseLevSafety {
  import opened Numbers
  import opened ChaseLev

  // ---------------------------------------------------------------- framing

  /** `s1` shows a thief nothing new at index `top`. */
  ghost predicate SameView(s: State, s1: State)
    requires Indices(s) && Indices(s1)
  {
    && s1.top == s.top
    && s1.thieves == s.thieves
    && (s.top < |s.hist.arr| ==> s.top < |s1.hist.arr| && s1.hist.arr[s.top] == s.hist.arr[s.top])
    && |s.bufs| <= |s1.bufs| && s1.bufs[..|s.bufs|] == s.bufs
    && s1.freed == s.freed
  }

  lemma ThievesFrame(s: State, s1: State)
    requires Indices(s) && ThievesOk(s) && Indices(s1) && SameView(s, s1)
    requires !s1.owner.Free? || (s.owner.Free? && s1.retired == s.retired)
    ensures ThievesOk(s1)
  {
    forall i | 0 <= i < |s1.thieves|
      ensures ThiefOk(s1, s1.thieves[i])
    {
      var th := s.thieves[i];
      assert ThiefOk(s, th);
      if th.Holding? {
        assert s1.bufs[th.buf] == s1.bufs[..|s.bufs|][th.buf];
      }
    }
  }

  /** When `top` moves up, every thief that read an older `top` is bound to fail its CAS. */
  lemma ThievesAdvance(s: State, s1: State)
    requires Indices(s) && ThievesOk(s) && Indices(s1)
    requires s1.thieves == s.thieves && s1.bufs == s.bufs && s1.freed == s.freed && s1.retired == s.retired
    requires s.top <= s1.top && (s1.top == s.top ==> s1.hist.arr == s.hist.arr)
    requires s1.owner.Free? ==> s.owner.Free?
    ensures ThievesOk(s1)
  {
    forall i | 0 <= i < |s1.thieves|
      ensures ThiefOk(s1, s1.thieves[i])
    {
      assert ThiefOk(s, s.thieves[i]);
    }
  }

  lemma ServesStill(buf: Buffer, top: int, arr: seq<nat>, top1: int, arr1: seq<nat>)
    requires Serves(buf, top, arr)
    requires 0 <= top <= top1 <= |arr1| <= |arr|
    requires arr1 == arr[..|arr1|]
    ensures Serves(buf, top1, arr1)
  {
  }

  // ---------------------------------------------------------------- push

  lemma BeginPushKeeps(s: State)
    requires Inv(s) && s.owner.Idle?
    ensures Inv(BeginPush(s))
  {
    ThievesFrame(s, BeginPush(s));
  }

  lemma LoadTopForPushShape(s: State, b: int)
    requires Indices(s) && OwnerOk(s) && s.owner == PushTop(b)
    ensures Indices(LoadTopForPush(s, b)) && OwnerOk(LoadTopForPush(s, b))
  {
    ResizedKeeps(ActiveBuf(s), GrownCap(s.kind, Cap(s)), b, s.top);
  }

  lemma LoadTopForPushKeeps(s: State, b: int)
    requires Inv(s) && s.owner == PushTop(b)
    ensures Inv(LoadTopForPush(s, b))
  {
    LoadTopForPushShape(s, b);
    ThievesFrame(s, LoadTopForPush(s, b));
  }

  lemma StoreElementKeeps(s: State, b: int)
    requires Inv(s) && s.owner == PushWrite(b)
    ensures Inv(StoreElement(s, b))
  {
    var s1 := StoreElement(s, b);
    var buf, n := ActiveBuf(s), |s.hist.arr|;
    forall i | s.top <= i <= n
      ensures Cell(ActiveBuf(s1), i) == if i == n then Box(s.hist.pushed) else Cell(buf, i)
    {
      WriteHits(buf, n, Box(s.hist.pushed), i);
    }
    forall i | 0 <= i < |s1.thieves|
      ensures ThiefOk(s1, s1.thieves[i])
    {
      assert ThiefOk(s, s.thieves[i]);
    }
  }

  /** Publishing `bottom` is the moment the element enters the deque, at the young end. */
  lemma PublishAppends(s: State, b: int)
    requires Indices(s) && Ledger(s)
    ensures Contents(Publish(s, b)) == Contents(s) + [s.hist.pushed]
    ensures multiset(Contents(Publish(s, b))) + multiset(s.hist.secured) + multiset(Ids(s.hist.out))
         == multiset(Upto(s.hist.pushed + 1))
  {
    assert Contents(Publish(s, b)) == Contents(s) + [s.hist.pushed];
    UptoExtend(s.hist.pushed);
  }

  lemma PublishShape(s: State, b: int)
    requires Indices(s) && OwnerOk(s) && s.owner == PushPublish(b)
    ensures Indices(Publish(s, b)) && OwnerOk(Publish(s, b))
  {
  }

  lemma PublishKeeps(s: State, b: int)
    requires Inv(s) && s.owner == PushPublish(b)
    ensures Inv(Publish(s, b))
  {
    PublishShape(s, b);
    PublishAppends(s, b);
    ThievesFrame(s, Publish(s, b));
  }

  // ---------------------------------------------------------------- pop

  lemma LowerBottomKeeps(s: State)
    requires Inv(s) && s.owner.Idle?
    ensures Inv(LowerBottom(s))
  {
    ThievesFrame(s, LowerBottom(s));
  }

  lemma LoadTopShape(s: State, b: int)
    requires Indices(s) && OwnerOk(s) && s.owner == PopTop(b)
    ensures Indices(LoadTopForPop(s, b)) && OwnerOk(LoadTopForPop(s, b))
  {
  }

  /** Taking the youngest element away from the thieves moves it from the contents to the owner. */
  lemma LoadTopContents(s: State, b: int)
    requires Indices(s) && OwnerOk(s) && s.owner == PopTop(b) && Indices(LoadTopForPop(s, b))
    ensures Contents(s) == Contents(LoadTopForPop(s, b)) + LoadTopForPop(s, b).hist.secured
    ensures s.top > b ==> Contents(s) == []
  {
    var s1 := LoadTopForPop(s, b);
    assert s.top < b ==> Contents(s) == Contents(s1) + [s.hist.arr[|s.hist.arr| - 1]];
  }

  lemma SplitBag(whole: seq<nat>, a: seq<nat>, b: seq<nat>)
    requires whole == a + b
    ensures multiset(whole) == multiset(a) + multiset(b)
  {
  }

  lemma LoadTopLedger(s: State, b: int)
    requires Indices(s) && OwnerOk(s) && s.owner == PopTop(b) && Indices(LoadTopForPop(s, b)) && Ledger(s)
    ensures Ledger(LoadTopForPop(s, b))
  {
    var s1 := LoadTopForPop(s, b);
    LoadTopContents(s, b);
    SplitBag(Contents(s), Contents(s1), s1.hist.secured);
    assert s1.hist.out == s.hist.out && s1.hist.pushed == s.hist.pushed && s.hist.secured == [];
  }

  lemma LoadTopBuffers(s: State, b: int)
    requires s.owner == PopTop(b) && BuffersOk(s)
    ensures BuffersOk(LoadTopForPop(s, b))
  {
    assert InHand(LoadTopForPop(s, b)) == InHand(s);
  }

  lemma LoadTopThieves(s: State, b: int)
    requires Indices(s) && OwnerOk(s) && ThievesOk(s) && ReclaimOk(s)
    requires s.owner == PopTop(b) && Indices(LoadTopForPop(s, b))
    ensures ThievesOk(LoadTopForPop(s, b)) && ReclaimOk(LoadTopForPop(s, b))
  {
    ThievesFrame(s, LoadTopForPop(s, b));
  }

  lemma LoadTopForPopKeeps(s: State, b: int)
    requires Inv(s) && s.owner == PopTop(b)
    ensures Inv(LoadTopForPop(s, b))
  {
    LoadTopShape(s, b);
    LoadTopLedger(s, b);
    LoadTopBuffers(s, b);
    LoadTopThieves(s, b);
  }

  lemma RestoreKeeps(s: State, t: int)
    requires Inv(s) && s.owner == PopRestore(t)
    ensures Inv(Restore(s, t))
  {
    ThievesFrame(s, Restore(s, t));
  }

  lemma PopDoneKeeps(s: State, p: Ptr, s1: State)
    requires Indices(s) && ThievesOk(s) && FlightOk(s) && Ledger(s) && BuffersOk(s)
    requires p.Box? && s.hist.secured == [p.id] && s.bottom == |s.hist.arr| && InHand(s) == []
    requires s1 == PopDone(s, p)
    ensures Inv(s1)
  {
    assert Ids(s1.hist.out) == Ids(s.hist.out) + [p.id];
    ThievesFrame(s, s1);
  }

  lemma LoadElementKeeps(s: State, b: int, t: int)
    requires Inv(s) && s.owner == PopRead(b, t)
    ensures Inv(LoadElement(s, b, t))
  {
    var s1 := LoadElement(s, b, t);
    var p := Cell(ActiveBuf(s), b);
    if t < b && !Shrinks(Cap(s), b, t) {
      PopDoneKeeps(s, p, s1);
    } else {
      if t < b {
        ResizedKeeps(ActiveBuf(s), Max(Cap(s) / 2, MIN_CAPACITY), b, t);
      }
      ThievesFrame(s, s1);
    }
  }

  /** The CAS for the last element leaves the deque empty, whoever wins it. */
  lemma CasForPopTakesLast(s: State, b: int, p: Ptr)
    requires Indices(s) && OwnerOk(s) && s.owner == PopCas(b, p)
    ensures var s1 := CasForPop(s, b, p);
      && 0 <= s1.top == |s1.hist.arr| == b + 1
      && Contents(s1) == [] && Contents(s) == s1.hist.secured
      && (s.top == b ==> s1.hist.secured == [s.hist.arr[b]])
  {
    if s.top == b {
      assert Contents(s) == [s.hist.arr[b]];
    }
  }

  lemma CasForPopKeeps(s: State, b: int, p: Ptr)
    requires Inv(s) && s.owner == PopCas(b, p)
    ensures Inv(CasForPop(s, b, p))
  {
    var s1 := CasForPop(s, b, p);
    CasForPopTakesLast(s, b, p);
    ServesStill(ActiveBuf(s), s.top, s.hist.arr, s1.top, s1.hist.arr);
    ThievesAdvance(s, s1);
  }

  lemma FixBottomKeeps(s: State, b: int, won: bool, p: Ptr)
    requires Inv(s) && s.owner == PopFix(b, won, p)
    ensures Inv(FixBottom(s, b, won, p))
  {
    var s1 := s.(bottom := b + 1, owner := Idle);
    ThievesFrame(s, s1);
    if won {
      PopDoneKeeps(s1, p, FixBottom(s, b, won, p));
    }
  }

  // ---------------------------------------------------------------- resize and reclaim

  lemma SwapBufferKeeps(s: State, k: Resume, spare: Buffer)
    requires Inv(s) && s.owner == Swap(k, spare)
    ensures Inv(SwapBuffer(s, k, spare))
  {
    UptoExtend(|s.bufs|);
    ThievesFrame(s, SwapBuffer(s, k, spare));
  }

  lemma ReadyToReclaim(s: State, k: Resume, gone: nat, s1: State)
    requires Inv(s) && s.owner == Retire(k, gone)
    requires s1 == s.(retired := [gone] + s.retired, owner := Reclaim(k))
    ensures Indices(s1) && ThievesOk(s1) && FlightOk(s1) && Ledger(s1) && BuffersOk(s1)
    ensures OwnerOk(s1)
  {
    ThievesFrame(s, s1);
    RetiredAccounts(s, k, gone, s1);
  }

  lemma RetiredAccounts(s: State, k: Resume, gone: nat, s1: State)
    requires Inv(s) && s.owner == Retire(k, gone)
    requires s1 == s.(retired := [gone] + s.retired, owner := Reclaim(k))
    ensures Indices(s1) && Ledger(s1) && BuffersOk(s1)
  {
  }

  lemma RetireOldKeeps(s: State, k: Resume, gone: nat)
    requires Inv(s) && s.owner == Retire(k, gone)
    ensures Inv(RetireOld(s, k, gone))
  {
    var s1 := s.(retired := [gone] + s.retired, owner := Reclaim(k));
    ReadyToReclaim(s, k, gone, s1);
    if s.kind.Inline? {
      ContinueKeeps(s1, k);
    }
  }

  lemma ContinueKeeps(s: State, k: Resume)
    requires Indices(s) && ThievesOk(s) && FlightOk(s) && Ledger(s) && BuffersOk(s)
    requires ResumeOk(s, k, true) && InHand(s) == []
    ensures Inv(Continue(s, k))
  {
    match k
    case ToPush(b) => ThievesFrame(s, Continue(s, k));
    case ToPop(p) => PopDoneKeeps(s, p, Continue(s, k));
  }

  lemma CountInZero(ths: seq<Thief>, i: int)
    requires 0 <= i < |ths|
    ensures InSection(ths[i]) ==> CountIn(ths) > 0
    decreases |ths|
  {
    if i < |ths| - 1 {
      CountInZero(ths[..|ths| - 1], i);
    }
  }

  /** Reading `in_flight == 0` proves that no thief holds any buffer. */
  lemma LoadInFlightKeeps(s: State, k: Resume)
    requires Inv(s) && s.owner == Reclaim(k)
    ensures Inv(LoadInFlight(s, k))
  {
    var s1 := LoadInFlight(s, k);
    if s.inFlight != 0 {
      ContinueKeeps(s, k);
    } else {
      forall i | 0 <= i < |s1.thieves|
        ensures ThiefOk(s1, s1.thieves[i])
      {
        assert ThiefOk(s, s.thieves[i]);
        CountInZero(s.thieves, i);
      }
    }
  }

  lemma FreeRetiredKeeps(s: State, k: Resume)
    requires Inv(s) && s.owner == Free(k)
    ensures Inv(FreeRetired(s, k))
  {
    var s1 := s.(freed := s.freed + s.retired, retired := []);
    forall i | 0 <= i < |s1.thieves|
      ensures ThiefOk(s1, s1.thieves[i])
    {
      assert ThiefOk(s, s.thieves[i]);
    }
    ContinueKeeps(s1, k);
  }

  lemma ResizingIs(s: State)
    requires Shape(s)
    ensures match s.owner
      case Swap(k, spare) => OwnerNext(s) == SwapBuffer(s, k, spare)
      case Retire(k, gone) => OwnerNext(s) == RetireOld(s, k, gone)
      case Reclaim(k) => OwnerNext(s) == LoadInFlight(s, k)
      case Free(k) => OwnerNext(s) == FreeRetired(s, k)
      case _ => true
  {
  }

  lemma ResizingKeeps(s: State, s1: State)
    requires Inv(s)
    requires match s.owner
      case Swap(k, spare) => s1 == SwapBuffer(s, k, spare)
      case Retire(k, gone) => s1 == RetireOld(s, k, gone)
      case Reclaim(k) => s1 == LoadInFlight(s, k)
      case Free(k) => s1 == FreeRetired(s, k)
      case _ => false
    ensures Inv(s1)
  {
    match s.owner
    case Swap(k, spare) => SwapBufferKeeps(s, k, spare);
    case Retire(k, gone) => RetireOldKeeps(s, k, gone);
    case Reclaim(k) => LoadInFlightKeeps(s, k);
    case Free(k) => FreeRetiredKeeps(s, k);
  }

  lemma PushingKeeps(s: State)
    requires Inv(s) && (s.owner.PushTop? || s.owner.PushWrite? || s.owner.PushPublish?)
    ensures Inv(OwnerNext(s))
  {
    var o := s.owner;
    if o.PushTop? {
      LoadTopForPushKeeps(s, o.b);
    } else if o.PushWrite? {
      StoreElementKeeps(s, o.b);
    } else {
      PublishKeeps(s, o.b);
    }
  }

  lemma PoppingKeeps(s: State)
    requires Inv(s) && (s.owner.PopTop? || s.owner.PopRestore? || s.owner.PopRead?)
    ensures Inv(OwnerNext(s))
  {
    var o := s.owner;
    if o.PopTop? {
      LoadTopForPopKeeps(s, o.b);
    } else if o.PopRestore? {
      RestoreKeeps(s, o.t);
    } else {
      LoadElementKeeps(s, o.b, o.t);
    }
  }

  lemma RacingKeeps(s: State)
    requires Inv(s) && (s.owner.PopCas? || s.owner.PopFix?)
    ensures Inv(OwnerNext(s))
  {
    var o := s.owner;
    if o.PopCas? {
      CasForPopKeeps(s, o.b, o.p);
    } else {
      FixBottomKeeps(s, o.b, o.won, o.p);
    }
  }

  lemma OwnerNextKeeps(s: State)
    requires Inv(s)
    ensures Inv(OwnerNext(s))
  {
    if s.owner.PushTop? || s.owner.PushWrite? || s.owner.PushPublish? {
      PushingKeeps(s);
    } else if s.owner.Swap? || s.owner.Retire? || s.owner.Reclaim? || s.owner.Free? {
      ResizingIs(s);
      ResizingKeeps(s, OwnerNext(s));
    } else if s.owner.PopCas? || s.owner.PopFix? {
      RacingKeeps(s);
    } else if !s.owner.Idle? {
      PoppingKeeps(s);
    }
  }

  // ---------------------------------------------------------------- thieves

  lemma CountInUpdate(ths: seq<Thief>, who: nat, th: Thief)
    requires who < |ths|
    ensures CountIn(ths[who := th])
         == CountIn(ths) - (if InSection(ths[who]) then 1 else 0) + (if InSection(th) then 1 else 0)
    decreases |ths|
  {
    var front := ths[..|ths| - 1];
    if who == |ths| - 1 {
      assert ths[who := th][..|ths| - 1] == front;
    } else {
      CountInUpdate(front, who, th);
      assert ths[who := th][..|ths| - 1] == front[who := th];
    }
  }

  lemma OthersStill(s: State, who: nat, th: Thief, s1: State)
    requires Indices(s) && ThievesOk(s) && who < |s.thieves| && ThiefOk(s, th)
    requires s1 == Moved(s.(inFlight := s1.inFlight), who, th)
    ensures Indices(s1) && ThievesOk(s1)
  {
    forall i | 0 <= i < |s1.thieves|
      ensures ThiefOk(s1, s1.thieves[i])
    {
      if i != who {
        assert ThiefOk(s, s.thieves[i]);
      }
    }
  }

  /** A thief step that leaves the indices alone. */
  lemma ThiefMoves(s: State, who: nat, th: Thief, s1: State)
    requires Inv(s) && who < |s.thieves|
    requires ThiefOk(s, th)
    requires s1 == Moved(s.(inFlight := s1.inFlight), who, th)
    requires s.kind.Boxed? ==>
      s1.inFlight - s.inFlight == (if InSection(th) then 1 else 0) - (if InSection(s.thieves[who]) then 1 else 0)
    ensures Inv(s1)
  {
    MovesReclaim(s, who, th, s1);
    OthersStill(s, who, th, s1);
    MovesBooks(s, who, th, s1);
  }

  lemma MovesReclaim(s: State, who: nat, th: Thief, s1: State)
    requires who < |s.thieves| && ReclaimOk(s) && s1 == Moved(s.(inFlight := s1.inFlight), who, th)
    requires s.kind.Boxed? ==>
      s1.inFlight - s.inFlight == (if InSection(th) then 1 else 0) - (if InSection(s.thieves[who]) then 1 else 0)
    ensures ReclaimOk(s1)
  {
    CountInUpdate(s.thieves, who, th);
  }

  lemma MovesBooks(s: State, who: nat, th: Thief, s1: State)
    requires who < |s.thieves| && Indices(s) && OwnerOk(s) && Ledger(s) && BuffersOk(s)
    requires s1 == Moved(s.(inFlight := s1.inFlight), who, th)
    ensures Indices(s1) && OwnerOk(s1) && Ledger(s1) && BuffersOk(s1)
  {
  }

  lemma BufferPlaces(s: State, k: nat)
    requires BuffersOk(s) && k < |s.bufs|
    ensures (if k == s.active then 1 else 0) + multiset(InHand(s))[k]
          + multiset(s.retired)[k] + multiset(s.freed)[k] == 1
  {
    UptoOnce(|s.bufs|, k);
    assert (multiset{s.active} + multiset(InHand(s)) + multiset(s.retired) + multiset(s.freed))[k] == 1;
  }

  lemma ClaimTakesOldest(s: State, who: nat, wild: Ptr)
    requires Indices(s) && ThievesOk(s)
    requires who < |s.thieves| && s.thieves[who].Claiming? && s.thieves[who].t == s.top
    ensures var s1 := ThiefNext(s, who, wild);
      && s.top < |s.hist.arr| && s1.top == s.top + 1 && s1.hist.arr == s.hist.arr
      && s.thieves[who].p == Box(s.hist.arr[s.top])
      && Contents(s) == [s.hist.arr[s.top]] + Contents(s1)
      && Ids(s1.hist.out) == Ids(s.hist.out) + [s.hist.arr[s.top]]
  {
    assert ThiefOk(s, s.thieves[who]);
  }

  lemma ClaimOwner(s: State, who: nat, wild: Ptr)
    requires Indices(s) && OwnerOk(s) && ThievesOk(s)
    requires who < |s.thieves| && s.thieves[who].Claiming? && s.thieves[who].t == s.top
    ensures Indices(ThiefNext(s, who, wild)) && OwnerOk(ThiefNext(s, who, wild))
  {
    var s1 := ThiefNext(s, who, wild);
    ClaimTakesOldest(s, who, wild);
    ServesStill(ActiveBuf(s), s.top, s.hist.arr, s1.top, s1.hist.arr);
    if s.owner.Swap? {
      ServesStill(s.owner.spare, s.top, s.hist.arr, s1.top, s1.hist.arr);
    }
  }

  lemma ClaimThieves(s: State, who: nat, wild: Ptr)
    requires Indices(s) && ThievesOk(s)
    requires who < |s.thieves| && s.thieves[who].Claiming? && s.thieves[who].t == s.top
    requires Indices(ThiefNext(s, who, wild))
    ensures ThievesOk(ThiefNext(s, who, wild))
  {
    var s1 := ThiefNext(s, who, wild);
    forall i | 0 <= i < |s1.thieves|
      ensures ThiefOk(s1, s1.thieves[i])
    {
      assert ThiefOk(s, s.thieves[i]);
    }
  }

  lemma ClaimLedger(s: State, who: nat, wild: Ptr)
    requires Indices(s) && ThievesOk(s) && Ledger(s)
    requires who < |s.thieves| && s.thieves[who].Claiming? && s.thieves[who].t == s.top
    requires Indices(ThiefNext(s, who, wild))
    ensures Ledger(ThiefNext(s, who, wild))
  {
    ClaimTakesOldest(s, who, wild);
  }

  /** The CAS that wins hands out exactly the element at index `top`. */
  lemma ClaimKeeps(s: State, who: nat, wild: Ptr)
    requires Inv(s) && who < |s.thieves| && s.thieves[who].Claiming? && s.thieves[who].t == s.top
    ensures Inv(ThiefNext(s, who, wild))
  {
    CountInUpdate(s.thieves, who, Away);
    ClaimOwner(s, who, wild);
    ClaimThieves(s, who, wild);
    ClaimLedger(s, who, wild);
  }

  lemma ThiefEntersKeeps(s: State, who: nat, wild: Ptr)
    requires Inv(s) && who < |s.thieves|
    requires s.thieves[who].Away? || s.thieves[who].GotTop? || s.thieves[who].Entering?
    ensures Inv(ThiefNext(s, who, wild))
  {
    assert ThiefOk(s, s.thieves[who]);
    var s1 := ThiefNext(s, who, wild);
    ThiefMoves(s, who, s1.thieves[who], s1);
  }

  lemma ThiefReadsKeeps(s: State, who: nat, wild: Ptr)
    requires Inv(s) && who < |s.thieves|
    requires s.thieves[who].Entered? || s.thieves[who].Holding? || s.thieves[who].Leaving?
    ensures Inv(ThiefNext(s, who, wild))
  {
    assert ThiefOk(s, s.thieves[who]);
    BufferPlaces(s, s.active);
    var s1 := ThiefNext(s, who, wild);
    ThiefMoves(s, who, s1.thieves[who], s1);
  }

  lemma ThiefNextKeeps(s: State, who: nat, wild: Ptr)
    requires Inv(s) && who < |s.thieves|
    ensures Inv(ThiefNext(s, who, wild))
  {
    match s.thieves[who]
    case Claiming(t, p) =>
      if s.top == t {
        ClaimKeeps(s, who, wild);
      } else {
        ThiefMoves(s, who, Away, ThiefNext(s, who, wild));
      }
    case Away => ThiefEntersKeeps(s, who, wild);
    case GotTop(_) => ThiefEntersKeeps(s, who, wild);
    case Entering(_) => ThiefEntersKeeps(s, who, wild);
    case Entered(_) => ThiefReadsKeeps(s, who, wild);
    case Holding(_, _) => ThiefReadsKeeps(s, who, wild);
    case Leaving(_, _) => ThiefReadsKeeps(s, who, wild);
  }

  // ---------------------------------------------------------------- runs

  lemma InitInv(kind: Kind, cap: nat, thieves: nat)
    requires cap > 0
    ensures Inv(Init(kind, cap, thieves))
  {
    var s := Init(kind, cap, thieves);
    AwayCount(s.thieves);
    assert Upto(1) == [0];
  }

  lemma AwayCount(ths: seq<Thief>)
    requires forall i :: 0 <= i < |ths| ==> ths[i].Away?
    ensures CountIn(ths) == 0
  {
  }

  lemma StepKeeps(s: State, st: Step)
    requires Inv(s) && Enabled(s, st)
    ensures Inv(Apply(s, st))
  {
    match st
    case StartPush => BeginPushKeeps(s);
    case StartPop => LowerBottomKeeps(s);
    case OwnerStep => OwnerNextKeeps(s);
    case ThiefStep(who, wild) => ThiefNextKeeps(s, who, wild);
  }
}

/** The wrapping deque simulates the one with unbounded indices. */
module WrappedSafety {
  import opened Numbers
  import opened Isize
  import opened ChaseLev
  import opened ChaseLevSafety
  import opened Wrapped

  // ---------------------------------------------------------------- cells

  lemma SameCell(buf: Buffer, i: int, p: Ptr)
    requires IsBuffer(buf) && IsCap(|buf.cells|)
    ensures CellAt(buf, Wrap(i)) == Cell(buf, i)
    ensures WriteAt(buf, Wrap(i), p) == Write(buf, i, p)
  {
    SlotOfWrap(i, |buf.cells|);
  }

  lemma {:induction false} SameCopy(buf: Buffer, cap: nat, top: int, k: nat)
    requires IsBuffer(buf) && IsCap(|buf.cells|) && IsCap(cap) && cap > 0 && k <= HALF
    ensures CopyCount(buf, cap, Wrap(top), k) == CopiedFrom(buf, cap, top, k)
  {
    if k > 0 {
      SameCopy(buf, cap, top, k - 1);
      WrapStep(top, (k - 1) as ISize);
      SameCell(buf, top + k - 1, Null);
      SameCell(CopiedFrom(buf, cap, top, k - 1), top + k - 1, Cell(buf, top + k - 1));
    }
  }

  lemma SameResize(buf: Buffer, cap: nat, b: int, t: int)
    requires IsBuffer(buf) && IsCap(|buf.cells|) && IsCap(cap) && cap > 0 && -HALF <= b - t < HALF
    ensures ResizedTo(buf, cap, Wrap(b), Wrap(t)) == Resized(buf, cap, b, t)
  {
    WrapDistance(b, t);
    SameCopy(buf, cap, t, if b > t then b - t else 0);
  }

  // ---------------------------------------------------------------- the owner's steps agree

  lemma ActivePower(s: State)
    requires Shape(s) && Powers(s)
    ensures IsCap(Cap(s))
  {
  }

  lemma GrownPower(s: State)
    requires Shape(s) && Powers(s) && Cap(s) <= HALF / 4
    ensures IsCap(GrownCap(s.kind, Cap(s)))
  {
    ActivePower(s);
    CapDoubles(Cap(s));
    assert Pow2(4) == 16;
  }

  /** The distances the owner's tests measure fit in 64 bits, and so do doubled capacities. */
  ghost predicate OwnerNear(s: State) {
    && Shape(s) && Powers(s) && Cap(s) <= HALF / 4
    && match s.owner
       case Idle => -HALF <= s.bottom - s.cachedTop < HALF
       case PushTop(b) => -HALF <= b - s.top < HALF
       case PopTop(b) => -HALF <= b - s.top < HALF
       case PopRead(b, t) => -HALF <= b - t < HALF
       case PopCas(b, _) => b <= s.top <= b + 1 && b == |s.hist.arr| - 1
       case _ => true
  }

  lemma OwnerIsNear(s: State)
    requires Good(s) && Fits(s)
    ensures OwnerNear(s)
  {
  }

  lemma BeginPushAgrees(s: State)
    requires OwnerNear(s) && s.owner.Idle?
    ensures WBeginPush(Truncated(s)) == Truncated(BeginPush(s))
  {
    WrapDistance(s.bottom, s.cachedTop);
  }

  lemma LoadTopForPushAgrees(s: State, b: int)
    requires OwnerNear(s) && s.owner == PushTop(b)
    ensures WLoadTopForPush(Truncated(s), Wrap(b)) == Truncated(LoadTopForPush(s, b))
  {
    ActivePower(s);
    WrapDistance(b, s.top);
    GrownPower(s);
    SameResize(ActiveBuf(s), GrownCap(s.kind, Cap(s)), b, s.top);
  }

  lemma StoreElementAgrees(s: State, b: int)
    requires OwnerNear(s) && s.owner == PushWrite(b)
    ensures WOwnerNext(Truncated(s)) == Truncated(StoreElement(s, b))
  {
    ActivePower(s);
    SameCell(ActiveBuf(s), b, Box(s.hist.pushed));
  }

  lemma DecidePopAgrees(s: State, b: int)
    ensures WDecidePop(Truncated(s), Wrap(b), b - s.top) == Truncated(LoadTopForPop(s, b))
  {
  }

  lemma PopAgrees(s: State, b: int)
    requires -HALF <= b - s.top < HALF
    ensures WLoadTopForPop(Truncated(s), Wrap(b)) == Truncated(LoadTopForPop(s, b))
  {
    WrapDistance(b, s.top);
    DecidePopAgrees(s, b);
  }

  lemma LoadElementAgrees(s: State, b: int, t: int)
    requires OwnerNear(s) && s.owner == PopRead(b, t)
    ensures WLoadElement(Truncated(s), Wrap(b), Wrap(t)) == Truncated(LoadElement(s, b, t))
  {
    ActivePower(s);
    WrapDistance(b, t);
    SameCell(ActiveBuf(s), b, Null);
    if Shrinks(Cap(s), b, t) {
      CapHalves(Cap(s));
      SameResize(ActiveBuf(s), Max(Cap(s) / 2, MIN_CAPACITY), b, t);
    }
  }

  lemma CasForPopAgrees(s: State, b: int, p: Ptr)
    requires b <= s.top <= b + 1 && b == |s.hist.arr| - 1
    ensures WCasForPop(Truncated(s), Wrap(b), p) == Truncated(CasForPop(s, b, p))
  {
    WrapInjective(s.top, b);
    WrapStep(b, 1);
    assert WrappingAdd(Wrap(b), 1) == Wrap(b + 1);
    if s.top == b {
      WonAgrees(s, b, p);
    }
  }

  lemma WonAgrees(s: State, b: int, p: Ptr)
    requires b == s.top == |s.hist.arr| - 1 && WrappingAdd(Wrap(b), 1) == Wrap(b + 1)
    ensures WCasForPop(Truncated(s), Wrap(b), p) == Truncated(CasForPop(s, b, p))
  {
  }

  lemma PopOwnerAgrees(s: State)
    requires OwnerNear(s)
    requires s.owner.PopTop? || s.owner.PopRead? || s.owner.PopCas? || s.owner.PopFix? || s.owner.PopRestore?
    ensures WOwnerNext(Truncated(s)) == Truncated(OwnerNext(s))
  {
    match s.owner
    case PopTop(b) => PopAgrees(s, b);
    case PopRead(b, t) => LoadElementAgrees(s, b, t);
    case PopCas(b, p) => CasForPopAgrees(s, b, p);
    case PopFix(b, _, _) => WrapStep(b, 1);
    case PopRestore(_) =>
  }

  lemma ResizeOwnerAgrees(s: State)
    requires s.owner.Swap? || s.owner.Retire? || s.owner.Reclaim? || s.owner.Free?
    requires Shape(s)
    ensures WOwnerNext(Truncated(s)) == Truncated(OwnerNext(s))
  {
  }

  lemma OwnerAgrees(s: State)
    requires OwnerNear(s) && !s.owner.Idle?
    ensures WOwnerNext(Truncated(s)) == Truncated(OwnerNext(s))
  {
    match s.owner
    case PushTop(b) => LoadTopForPushAgrees(s, b);
    case PushWrite(b) => StoreElementAgrees(s, b);
    case PushPublish(b) => WrapStep(b, 1);
    case Swap(_, _) => ResizeOwnerAgrees(s);
    case Retire(_, _) => ResizeOwnerAgrees(s);
    case Reclaim(_) => ResizeOwnerAgrees(s);
    case Free(_) => ResizeOwnerAgrees(s);
    case _ => PopOwnerAgrees(s);
  }

  // ---------------------------------------------------------------- the thieves' steps agree

  lemma MovedAgrees(s: State, who: nat, th: Thief)
    requires who < |s.thieves|
    ensures WMoved(Truncated(s), who, Th(th)) == Truncated(Moved(s, who, th))
  {
    assert Ths(s.thieves)[who := Th(th)] == Ths(s.thieves[who := th]);
  }

  lemma LoadCellAgrees(s: State, buf: nat, t: int, wild: Ptr)
    requires Shape(s) && Powers(s)
    ensures WLoadCell(Truncated(s), buf, Wrap(t), wild) == LoadCell(s, buf, t, wild)
  {
    if buf < |s.bufs| {
      SameCell(s.bufs[buf], t, Null);
    }
  }

  ghost predicate ThiefNear(s: State, th: Thief) {
    && (th.GotTop? ==> -HALF <= s.bottom - th.t < HALF)
    && (th.Claiming? ==> -WORD < s.top - th.t < WORD)
  }

  lemma ThiefIsNear(s: State, who: nat)
    requires Good(s) && Fits(s) && who < |s.thieves|
    ensures ThiefNear(s, s.thieves[who])
  {
    assert ThiefOk(s, s.thieves[who]) && Patient(s, s.thieves[who]);
  }

  /** The steps before and inside the section. */
  lemma ReaderAgrees(s: State, who: nat, wild: Ptr)
    requires Shape(s) && Powers(s) && who < |s.thieves|
    requires s.thieves[who].Entering? || InSection(s.thieves[who])
    ensures WThiefNext(Truncated(s), who, wild) == Truncated(ThiefNext(s, who, wild))
  {
    var th1 := ThiefNext(s, who, wild).thieves[who];
    match s.thieves[who]
    case Entering(t) => MovedAgrees(s.(inFlight := s.inFlight + 1), who, th1);
    case Entered(t) => MovedAgrees(s, who, th1);
    case Holding(t, buf) =>
      LoadCellAgrees(s, buf, t, wild);
      MovedAgrees(s, who, th1);
    case Leaving(t, p) => MovedAgrees(s.(inFlight := s.inFlight - 1), who, th1);
  }

  lemma ClaimAgrees(s: State, who: nat, wild: Ptr, t: int, p: Ptr)
    requires Shape(s) && who < |s.thieves| && s.thieves[who] == Claiming(t, p) && -WORD < s.top - t < WORD
    ensures WThiefNext(Truncated(s), who, wild) == Truncated(ThiefNext(s, who, wild))
  {
    WrapInjective(s.top, t);
    WrapStep(t, 1);
    var s1 := s.(top := t + 1, hist := s.hist.(out := s.hist.out + (if p.Box? then [ByThief(who, p.id)] else [])));
    MovedAgrees(if s.top == t then s1 else s, who, Away);
  }

  lemma ThiefAgrees(s: State, who: nat, wild: Ptr)
    requires Shape(s) && Powers(s) && who < |s.thieves| && ThiefNear(s, s.thieves[who])
    ensures WThiefNext(Truncated(s), who, wild) == Truncated(ThiefNext(s, who, wild))
  {
    match s.thieves[who]
    case Away => MovedAgrees(s, who, GotTop(s.top));
    case GotTop(t) =>
      WrapDistance(s.bottom, t);
      MovedAgrees(s, who, ThiefNext(s, who, wild).thieves[who]);
    case Claiming(t, p) => ClaimAgrees(s, who, wild, t, p);
    case _ => ReaderAgrees(s, who, wild);
  }

  /** Every test and every cell agrees: a step of the wrapping machine is the step of the unbounded one. */
  lemma StepAgrees(s: State, st: Step)
    requires Good(s) && Fits(s) && Enabled(s, st)
    ensures WEnabled(Truncated(s), st) && WApply(Truncated(s), st) == Truncated(Apply(s, st))
  {
    match st
    case StartPush =>
      OwnerIsNear(s);
      BeginPushAgrees(s);
    case StartPop => WrapStep(s.bottom, 1);
    case OwnerStep =>
      OwnerIsNear(s);
      OwnerAgrees(s);
    case ThiefStep(who, wild) =>
      ThiefIsNear(s, who);
      ThiefAgrees(s, who, wild);
  }

  // ---------------------------------------------------------------- the side conditions are kept

  lemma PowersKept(s: State, st: Step)
    requires Shape(s) && Powers(s) && Enabled(s, st)
    requires s.owner.Swap? ==> IsCap(|s.owner.spare.cells|)
    ensures Powers(Apply(s, st))
  {
  }

  /** What keeps the cached top near: it is refreshed whenever the distance could reach the capacity. */
  lemma CacheKept(s: State, st: Step)
    requires Indices(s) && OwnerOk(s) && Powers(s) && CacheOk(s) && Cap(s) <= HALF / 4 && Enabled(s, st)
    ensures CacheOk(Apply(s, st))
  {
    if st.OwnerStep? && (s.owner.PushTop? || s.owner.PopRead?) {
      SpareKept(s);
    }
  }

  lemma SpareKept(s: State)
    requires Indices(s) && OwnerOk(s) && Powers(s) && CacheOk(s) && Cap(s) <= HALF / 4
    requires s.owner.PushTop? || s.owner.PopRead?
    ensures CacheOk(OwnerNext(s))
  {
    ActivePower(s);
    GrownPower(s);
    if Cap(s) > MIN_CAPACITY {
      CapHalves(Cap(s));
    }
  }

  lemma StepGood(s: State, st: Step)
    requires Good(s) && Fits(s) && Enabled(s, st)
    ensures Good(Apply(s, st))
  {
    StepKeeps(s, st);
    PowersKept(s, st);
    CacheKept(s, st);
  }
}

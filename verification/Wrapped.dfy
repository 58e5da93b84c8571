/**
 The Chase-Lev machine with the 64-bit wrapping indices of the code: `bottom`, `top`, the cached top
 and every index a thread holds are `isize`, compared by wrapping difference and masked into cells.
 */
module Wrapped {
  import opened Numbers
  import opened Isize
  import opened ChaseLev

  // ---------------------------------------------------------------- buffers

  function CellAt(buf: Buffer, i: ISize): Ptr
    requires IsBuffer(buf)
  {
    buf.cells[Slot(i, |buf.cells|)]
  }

  function WriteAt(buf: Buffer, i: ISize, p: Ptr): (r: Buffer)
    requires IsBuffer(buf)
    ensures |r.cells| == |buf.cells|
  {
    Buffer(buf.cells[Slot(i, |buf.cells|) := p])
  }

  /** The copy loop of `resized`, by count. */
  function CopyCount(buf: Buffer, cap: nat, top: ISize, k: nat): (r: Buffer)
    requires IsBuffer(buf) && cap > 0 && k <= HALF
    ensures |r.cells| == cap
  {
    if k == 0 then Alloc(cap)
    else
      var i := WrappingAdd(top, (k - 1) as ISize);
      WriteAt(CopyCount(buf, cap, top, k - 1), i, CellAt(buf, i))
  }

  function ResizedTo(buf: Buffer, cap: nat, bottom: ISize, top: ISize): Buffer
    requires IsBuffer(buf) && cap > 0
  {
    var count := WrappingSub(bottom, top) as int;
    CopyCount(buf, cap, top, if count > 0 then count else 0)
  }

  // ---------------------------------------------------------------- state

  datatype WResume = WToPush(b: ISize) | WToPop(p: Ptr)

  datatype WOwner =
    | WIdle
    | WPushTop(b: ISize)
    | WPushWrite(b: ISize)
    | WPushPublish(b: ISize)
    | WPopTop(b: ISize)
    | WPopRestore(t: ISize)
    | WPopRead(b: ISize, t: ISize)
    | WPopCas(b: ISize, p: Ptr)
    | WPopFix(b: ISize, won: bool, p: Ptr)
    | WSwap(k: WResume, spare: Buffer)
    | WRetire(k: WResume, gone: nat)
    | WReclaim(k: WResume)
    | WFree(k: WResume)

  datatype WThief =
    | WAway
    | WGotTop(t: ISize)
    | WEntering(t: ISize)
    | WEntered(t: ISize)
    | WHolding(t: ISize, buf: nat)
    | WLeaving(t: ISize, p: Ptr)
    | WClaiming(t: ISize, p: Ptr)

  datatype WState = WState(
    kind: Kind,
    bottom: ISize,
    top: ISize,
    cachedTop: ISize,
    owner: WOwner,
    thieves: seq<WThief>,
    bufs: seq<Buffer>,
    active: nat,
    retired: seq<nat>,
    freed: seq<nat>,
    inFlight: int,
    hist: History)

  ghost predicate WShape(w: WState) {
    && w.active < |w.bufs|
    && forall k :: 0 <= k < |w.bufs| ==> IsBuffer(w.bufs[k])
  }

  function WCap(w: WState): (c: nat)
    requires WShape(w)
    ensures c > 0
  {
    |w.bufs[w.active].cells|
  }

  // ---------------------------------------------------------------- steps

  function WDone(w: WState, p: Ptr): WState {
    w.(owner := WIdle, hist := w.hist.(secured := [], out := w.hist.out + (if p.Box? then [ByOwner(p.id)] else [])))
  }

  function WContinue(w: WState, k: WResume): WState {
    match k
    case WToPush(b) => w.(owner := WPushWrite(b))
    case WToPop(p) => WDone(w, p)
  }

  function WBeginPush(w: WState): WState
    requires WShape(w)
  {
    if WrappingSub(w.bottom, w.cachedTop) as int >= WCap(w) - 1
    then w.(owner := WPushTop(w.bottom)) else w.(owner := WPushWrite(w.bottom))
  }

  function WLoadTopForPush(w: WState, b: ISize): WState
    requires WShape(w)
  {
    var w1 := w.(cachedTop := w.top);
    if WrappingSub(b, w.top) as int >= WCap(w) - 1
    then w1.(owner := WSwap(WToPush(b), ResizedTo(w.bufs[w.active], GrownCap(w.kind, WCap(w)), b, w.top)))
    else w1.(owner := WPushWrite(b))
  }

  function WLoadTopForPop(w: WState, b: ISize): WState {
    WDecidePop(w, b, WrappingSub(b, w.top) as int)
  }

  function WDecidePop(w: WState, b: ISize, size: int): WState {
    if size < 0 then w.(owner := WPopRestore(w.top))
    else if size > 0 then w.(owner := WPopRead(b, w.top), hist := SecureLast(w.hist))
    else w.(owner := WPopRead(b, w.top))
  }

  function WLoadElement(w: WState, b: ISize, t: ISize): WState
    requires WShape(w)
  {
    var p := CellAt(w.bufs[w.active], b);
    var size := WrappingSub(b, t) as int;
    if size > 0 then
      if WCap(w) > MIN_CAPACITY && Max(size, 0) < WCap(w) / SHRINK_FACTOR
      then w.(owner := WSwap(WToPop(p), ResizedTo(w.bufs[w.active], Max(WCap(w) / 2, MIN_CAPACITY), b, t)))
      else WDone(w, p)
    else w.(owner := WPopCas(b, p))
  }

  /** The history calls the element raced for by its place, the last one. */
  function WCasForPop(w: WState, b: ISize, p: Ptr): WState {
    if w.top == b
    then w.(top := WrappingAdd(b, 1), owner := WPopFix(b, true, p), hist := SecureAt(w.hist, |w.hist.arr| - 1))
    else w.(owner := WPopFix(b, false, p))
  }

  function WFixBottom(w: WState, b: ISize, won: bool, p: Ptr): WState {
    var w1 := w.(bottom := WrappingAdd(b, 1), owner := WIdle);
    if won then WDone(w1, p) else w1
  }

  function WOwnerNext(w: WState): WState
    requires WShape(w)
  {
    match w.owner
    case WIdle => w
    case WPushTop(b) => WLoadTopForPush(w, b)
    case WPushWrite(b) =>
      w.(bufs := w.bufs[w.active := WriteAt(w.bufs[w.active], b, Box(w.hist.pushed))], owner := WPushPublish(b))
    case WPushPublish(b) =>
      w.(bottom := WrappingAdd(b, 1), owner := WIdle,
         hist := w.hist.(arr := w.hist.arr + [w.hist.pushed], pushed := w.hist.pushed + 1))
    case WPopTop(b) => WLoadTopForPop(w, b)
    case WPopRestore(t) => w.(bottom := t, owner := WIdle)
    case WPopRead(b, t) => WLoadElement(w, b, t)
    case WPopCas(b, p) => WCasForPop(w, b, p)
    case WPopFix(b, won, p) => WFixBottom(w, b, won, p)
    case WSwap(k, spare) => w.(bufs := w.bufs + [spare], active := |w.bufs|, owner := WRetire(k, w.active))
    case WRetire(k, gone) =>
      var w1 := w.(retired := [gone] + w.retired);
      if w.kind.Inline? then WContinue(w1, k) else w1.(owner := WReclaim(k))
    case WReclaim(k) => if w.inFlight != 0 then WContinue(w, k) else w.(owner := WFree(k))
    case WFree(k) => WContinue(w.(freed := w.freed + w.retired, retired := []), k)
  }

  function WMoved(w: WState, who: nat, th: WThief): WState
    requires who < |w.thieves|
  {
    w.(thieves := w.thieves[who := th])
  }

  function WLoadCell(w: WState, buf: nat, t: ISize, wild: Ptr): Ptr
    requires WShape(w)
  {
    if buf in w.freed || buf >= |w.bufs| then wild else CellAt(w.bufs[buf], t)
  }

  function WThiefNext(w: WState, who: nat, wild: Ptr): WState
    requires WShape(w) && who < |w.thieves|
  {
    match w.thieves[who]
    case WAway => WMoved(w, who, WGotTop(w.top))
    case WGotTop(t) =>
      var empty := WrappingSub(w.bottom, t) as int <= 0;
      WMoved(w, who, if empty then WAway else if w.kind.Inline? then WEntered(t) else WEntering(t))
    case WEntering(t) => WMoved(w.(inFlight := w.inFlight + 1), who, WEntered(t))
    case WEntered(t) => WMoved(w, who, WHolding(t, w.active))
    case WHolding(t, buf) =>
      var p := WLoadCell(w, buf, t, wild);
      WMoved(w, who, if w.kind.Inline? then WClaiming(t, p) else WLeaving(t, p))
    case WLeaving(t, p) => WMoved(w.(inFlight := w.inFlight - 1), who, WClaiming(t, p))
    case WClaiming(t, p) =>
      if w.top == t
      then WMoved(w.(top := WrappingAdd(t, 1),
                     hist := w.hist.(out := w.hist.out + (if p.Box? then [ByThief(who, p.id)] else []))), who, WAway)
      else WMoved(w, who, WAway)
  }

  ghost predicate WEnabled(w: WState, st: Step) {
    match st
    case StartPush => w.owner.WIdle?
    case StartPop => w.owner.WIdle?
    case OwnerStep => !w.owner.WIdle?
    case ThiefStep(who, _) => who < |w.thieves|
  }

  function WApply(w: WState, st: Step): WState
    requires WShape(w) && WEnabled(w, st)
  {
    match st
    case StartPush => WBeginPush(w)
    case StartPop => w.(bottom := WrappingSub(w.bottom, 1), owner := WPopTop(WrappingSub(w.bottom, 1)))
    case OwnerStep => WOwnerNext(w)
    case ThiefStep(who, wild) => WThiefNext(w, who, wild)
  }

  // ---------------------------------------------------------------- what a wrapped state stands for

  function Res(k: Resume): WResume {
    match k
    case ToPush(b) => WToPush(Wrap(b))
    case ToPop(p) => WToPop(p)
  }

  function Own(o: Owner): WOwner {
    match o
    case Idle => WIdle
    case PushTop(b) => WPushTop(Wrap(b))
    case PushWrite(b) => WPushWrite(Wrap(b))
    case PushPublish(b) => WPushPublish(Wrap(b))
    case PopTop(b) => WPopTop(Wrap(b))
    case PopRestore(t) => WPopRestore(Wrap(t))
    case PopRead(b, t) => WPopRead(Wrap(b), Wrap(t))
    case PopCas(b, p) => WPopCas(Wrap(b), p)
    case PopFix(b, won, p) => WPopFix(Wrap(b), won, p)
    case Swap(k, spare) => WSwap(Res(k), spare)
    case Retire(k, gone) => WRetire(Res(k), gone)
    case Reclaim(k) => WReclaim(Res(k))
    case Free(k) => WFree(Res(k))
  }

  function Th(th: Thief): WThief {
    match th
    case Away => WAway
    case GotTop(t) => WGotTop(Wrap(t))
    case Entering(t) => WEntering(Wrap(t))
    case Entered(t) => WEntered(Wrap(t))
    case Holding(t, buf) => WHolding(Wrap(t), buf)
    case Leaving(t, p) => WLeaving(Wrap(t), p)
    case Claiming(t, p) => WClaiming(Wrap(t), p)
  }

  function Ths(ths: seq<Thief>): (r: seq<WThief>)
    ensures |r| == |ths|
    ensures forall i :: 0 <= i < |ths| ==> r[i] == Th(ths[i])
  {
    seq(|ths|, i requires 0 <= i < |ths| => Th(ths[i]))
  }

  /** The unbounded state with every index truncated to 64 bits. */
  function Truncated(s: State): WState {
    WState(s.kind, Wrap(s.bottom), Wrap(s.top), Wrap(s.cachedTop), Own(s.owner), Ths(s.thieves),
           s.bufs, s.active, s.retired, s.freed, s.inFlight, s.hist)
  }

  // ---------------------------------------------------------------- the bounds

  /** Assumed of a run: no buffer outgrows 2^61 cells, no thief lets `bottom` get 2^63 past the `top` it
      read before looking at it, and none lets `top` advance 2^64 before its CAS. */
  ghost predicate Fits(s: State) {
    && Shape(s)
    && Cap(s) <= HALF / 4
    && forall i :: 0 <= i < |s.thieves| ==> Patient(s, s.thieves[i])
  }

  ghost predicate Patient(s: State, th: Thief) {
    && (th.GotTop? ==> s.bottom - th.t < HALF)
    && (th.Claiming? ==> s.top - th.t < WORD)
  }

  ghost predicate Powers(s: State) {
    forall k :: 0 <= k < |s.bufs| ==> IsCap(|s.bufs[k].cells|)
  }

  ghost predicate Pushing(o: Owner) {
    match o
    case PushWrite(_) => true
    case PushPublish(_) => true
    case Swap(k, _) => k.ToPush?
    case Retire(k, _) => k.ToPush?
    case Reclaim(k) => k.ToPush?
    case Free(k) => k.ToPush?
    case _ => false
  }

  /** The stale cached top never falls far behind, and spare buffers are powers of two as well. */
  ghost predicate CacheOk(s: State) {
    && |s.hist.arr| - s.cachedTop <= HALF / 2
    && (Pushing(s.owner) ==> |s.hist.arr| - s.cachedTop < HALF / 2)
    && (s.owner.Swap? ==> IsCap(|s.owner.spare.cells|))
  }

  ghost predicate Good(s: State) {
    Inv(s) && Powers(s) && CacheOk(s)
  }
}

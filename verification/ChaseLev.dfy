/**
 The Chase-Lev deques of src/lib.rs and src/inline.rs as one step machine.

 One step is one atomic access to shared memory. The owner runs `push` and `pop_lifo`; any
 number of thieves run `steal_from` at the same time. The inline deque follows the same index
 protocol, but keeps its retired buffers until it is dropped, so its thieves announce nothing. Accesses
 to memory that only the owner
 writes and nobody else can see (the copy loop into a spare buffer, the loads of `bottom` and
 `buffer` by the owner, the walk over the retired list) are part of the owner step they belong
 to. A boxed element is named by the number of elements pushed before it.
 */
module ChaseLev {
  import opened Numbers

  const MIN_CAPACITY := 16
  const SHRINK_FACTOR := 3

  /** A cell is empty or points to a boxed element. */
  datatype Ptr = Null | Box(id: nat)

  datatype Buffer = Buffer(cells: seq<Ptr>)

  ghost predicate IsBuffer(buf: Buffer) {
    |buf.cells| > 0
  }

  /** The cell that a logical index falls on. */
  function Cell(buf: Buffer, i: int): Ptr
    requires IsBuffer(buf)
  {
    buf.cells[i % |buf.cells|]
  }

  function Write(buf: Buffer, i: int, p: Ptr): (r: Buffer)
    requires IsBuffer(buf)
    ensures IsBuffer(r) && |r.cells| == |buf.cells|
  {
    Buffer(buf.cells[i % |buf.cells| := p])
  }

  lemma WriteHits(buf: Buffer, i: int, p: Ptr, j: int)
    requires IsBuffer(buf)
    requires -|buf.cells| < j - i < |buf.cells|
    ensures Cell(Write(buf, i, p), j) == if j == i then p else Cell(buf, j)
  {
    if j < i {
      ModDistinct(j, i, |buf.cells|);
    } else if i < j {
      ModDistinct(i, j, |buf.cells|);
    }
  }

  function Alloc(cap: nat): (r: Buffer)
    ensures |r.cells| == cap
  {
    Buffer(seq(cap, i => Null))
  }

  /** The buffer after copying the first `k` live cells from index `t` into a fresh one. */
  function CopiedFrom(buf: Buffer, cap: nat, t: int, k: nat): (r: Buffer)
    requires IsBuffer(buf) && cap > 0
    ensures |r.cells| == cap
  {
    if k == 0 then Alloc(cap)
    else Write(CopiedFrom(buf, cap, t, k - 1), t + k - 1, Cell(buf, t + k - 1))
  }

  /** What `resized` returns for the live indices `t..b`. */
  function Resized(buf: Buffer, cap: nat, b: int, t: int): (r: Buffer)
    requires IsBuffer(buf) && cap > 0
    ensures |r.cells| == cap
  {
    CopiedFrom(buf, cap, t, if b > t then b - t else 0)
  }

  lemma {:induction false} CopiedCells(buf: Buffer, cap: nat, t: int, k: nat, i: int)
    requires IsBuffer(buf) && 0 < cap && k <= cap
    requires t <= i < t + k
    ensures Cell(CopiedFrom(buf, cap, t, k), i) == Cell(buf, i)
  {
    WriteHits(CopiedFrom(buf, cap, t, k - 1), t + k - 1, Cell(buf, t + k - 1), i);
    if i < t + k - 1 {
      CopiedCells(buf, cap, t, k - 1, i);
    }
  }

  /** Resizing keeps every live logical index readable at that index. */
  lemma ResizedKeeps(buf: Buffer, cap: nat, b: int, t: int)
    requires IsBuffer(buf) && 0 < cap && b - t <= cap
    ensures forall i :: t <= i < b ==> Cell(Resized(buf, cap, b, t), i) == Cell(buf, i)
  {
    forall i | t <= i < b
      ensures Cell(Resized(buf, cap, b, t), i) == Cell(buf, i)
    {
      CopiedCells(buf, cap, t, b - t, i);
    }
  }

  /** What the owner goes back to after a resize. */
  datatype Resume = ToPush(b: int) | ToPop(p: Ptr)

  datatype Owner =
    | Idle
    | PushTop(b: int)                     // cached top says full: load the real top
    | PushWrite(b: int)                   // store the boxed element into cell b
    | PushPublish(b: int)                 // store bottom := b + 1
    | PopTop(b: int)                      // bottom already lowered to b: load top
    | PopRestore(t: int)                  // saw it empty: store bottom := t
    | PopRead(b: int, t: int)             // load cell b
    | PopCas(b: int, p: Ptr)              // last element: CAS top from b
    | PopFix(b: int, won: bool, p: Ptr)   // store bottom := b + 1 and return
    | Swap(k: Resume, spare: Buffer)      // store buffer := spare
    | Retire(k: Resume, gone: nat)        // push the old buffer on the retired list
    | Reclaim(k: Resume)                  // load in_flight
    | Free(k: Resume)                     // it was 0: free the retired list

  datatype Thief =
    | Away
    | GotTop(t: int)                 // load bottom next
    | Entering(t: int)               // saw it non-empty: in_flight += 1 next
    | Entered(t: int)                // load buffer next
    | Holding(t: int, buf: nat)      // load cell t next
    | Leaving(t: int, p: Ptr)        // in_flight -= 1 next
    | Claiming(t: int, p: Ptr)       // CAS top next

  datatype Handout = ByOwner(id: nat) | ByThief(who: nat, id: nat)

  /** Observations that no step depends on: the pushed-element indices still stealable at each
      logical index, the element an owner's pop has secured, and what has been handed out. */
  datatype History = History(arr: seq<nat>, secured: seq<nat>, out: seq<Handout>, pushed: nat)

  /** `Boxed` is the deque of src/lib.rs, `Inline` the one of src/inline.rs. */
  datatype Kind = Boxed | Inline

  datatype State = State(
    kind: Kind,
    bottom: int,
    top: int,
    bufs: seq<Buffer>,
    active: nat,
    retired: seq<nat>,
    freed: seq<nat>,
    inFlight: int,
    cachedTop: int,
    owner: Owner,
    thieves: seq<Thief>,
    hist: History)

  datatype Step =
    | StartPush
    | StartPop
    | OwnerStep
    | ThiefStep(who: nat, wild: Ptr)   // wild: what a load from freed memory would give

  function Init(kind: Kind, cap: nat, thieves: nat): State
  {
    State(kind, 0, 0, [Alloc(cap)], 0, [], [], 0, 0, Idle, seq(thieves, i => Away), History([], [], [], 0))
  }

  // ---------------------------------------------------------------- the steps

  ghost predicate Shape(s: State) {
    && s.active < |s.bufs|
    && forall k :: 0 <= k < |s.bufs| ==> IsBuffer(s.bufs[k])
  }

  function ActiveBuf(s: State): Buffer
    requires Shape(s)
  {
    s.bufs[s.active]
  }

  function Cap(s: State): (c: nat)
    requires Shape(s)
    ensures c > 0
  {
    |s.bufs[s.active].cells|
  }

  ghost predicate Enabled(s: State, st: Step) {
    match st
    case StartPush => s.owner.Idle?
    case StartPop => s.owner.Idle?
    case OwnerStep => !s.owner.Idle?
    case ThiefStep(who, _) => who < |s.thieves|
  }

  function BeginPush(s: State): State
    requires Shape(s)
  {
    var b := s.bottom;
    if b - s.cachedTop >= Cap(s) - 1 then s.(owner := PushTop(b)) else s.(owner := PushWrite(b))
  }

  /** The capacity a full buffer grows to. */
  function GrownCap(kind: Kind, cap: nat): (r: nat)
    requires cap > 0
    ensures r >= cap * 2
  {
    if kind.Inline? then Max(cap * 2, MIN_CAPACITY) else cap * 2
  }

  function LoadTopForPush(s: State, b: int): State
    requires Shape(s)
  {
    var t := s.top;
    var s1 := s.(cachedTop := t);
    if b - t >= Cap(s) - 1
    then s1.(owner := Swap(ToPush(b), Resized(ActiveBuf(s), GrownCap(s.kind, Cap(s)), b, t)))
    else s1.(owner := PushWrite(b))
  }

  function StoreElement(s: State, b: int): State
    requires Shape(s)
  {
    s.(bufs := s.bufs[s.active := Write(ActiveBuf(s), b, Box(s.hist.pushed))], owner := PushPublish(b))
  }

  function Publish(s: State, b: int): State
  {
    s.(bottom := b + 1, owner := Idle,
       hist := s.hist.(arr := s.hist.arr + [s.hist.pushed], pushed := s.hist.pushed + 1))
  }

  function LowerBottom(s: State): State
  {
    s.(bottom := s.bottom - 1, owner := PopTop(s.bottom - 1))
  }

  function SecureLast(h: History): History {
    if h.arr == [] then h
    else h.(arr := h.arr[..|h.arr| - 1], secured := [h.arr[|h.arr| - 1]])
  }

  function SecureAt(h: History, b: int): History {
    if 0 <= b < |h.arr| then h.(secured := [h.arr[b]]) else h
  }

  /** From here the owner owns index `b` outright when top is still below it. */
  function LoadTopForPop(s: State, b: int): State
  {
    var t := s.top;
    if b - t < 0 then s.(owner := PopRestore(t))
    else if b - t > 0 then s.(owner := PopRead(b, t), hist := SecureLast(s.hist))
    else s.(owner := PopRead(b, t))
  }

  function Restore(s: State, t: int): State
  {
    s.(bottom := t, owner := Idle)
  }

  predicate Shrinks(cap: nat, b: int, t: int) {
    cap > MIN_CAPACITY && Max(b - t, 0) < cap / SHRINK_FACTOR
  }

  function LoadElement(s: State, b: int, t: int): State
    requires Shape(s)
  {
    var p := Cell(ActiveBuf(s), b);
    if b - t > 0 then
      if Shrinks(Cap(s), b, t)
      then s.(owner := Swap(ToPop(p), Resized(ActiveBuf(s), Max(Cap(s) / 2, MIN_CAPACITY), b, t)))
      else PopDone(s, p)
    else s.(owner := PopCas(b, p))
  }

  /** `pop` returns the element behind `p`. */
  function PopDone(s: State, p: Ptr): State
  {
    s.(owner := Idle,
       hist := s.hist.(secured := [], out := s.hist.out + (if p.Box? then [ByOwner(p.id)] else [])))
  }

  function CasForPop(s: State, b: int, p: Ptr): State
  {
    if s.top == b
    then s.(top := b + 1, owner := PopFix(b, true, p), hist := SecureAt(s.hist, b))
    else s.(owner := PopFix(b, false, p))
  }

  function FixBottom(s: State, b: int, won: bool, p: Ptr): State
  {
    var s1 := s.(bottom := b + 1, owner := Idle);
    if won then PopDone(s1, p) else s1
  }

  function SwapBuffer(s: State, k: Resume, spare: Buffer): State
  {
    s.(bufs := s.bufs + [spare], active := |s.bufs|, owner := Retire(k, s.active))
  }

  function RetireOld(s: State, k: Resume, gone: nat): State
  {
    var s1 := s.(retired := [gone] + s.retired);
    if s.kind.Inline? then Continue(s1, k) else s1.(owner := Reclaim(k))
  }

  function Continue(s: State, k: Resume): State
  {
    match k
    case ToPush(b) => s.(owner := PushWrite(b))
    case ToPop(p) => PopDone(s, p)
  }

  function LoadInFlight(s: State, k: Resume): State
  {
    if s.inFlight != 0 then Continue(s, k) else s.(owner := Free(k))
  }

  function FreeRetired(s: State, k: Resume): State
  {
    Continue(s.(freed := s.freed + s.retired, retired := []), k)
  }

  function OwnerNext(s: State): State
    requires Shape(s)
  {
    match s.owner
    case Idle => s
    case PushTop(b) => LoadTopForPush(s, b)
    case PushWrite(b) => StoreElement(s, b)
    case PushPublish(b) => Publish(s, b)
    case PopTop(b) => LoadTopForPop(s, b)
    case PopRestore(t) => Restore(s, t)
    case PopRead(b, t) => LoadElement(s, b, t)
    case PopCas(b, p) => CasForPop(s, b, p)
    case PopFix(b, won, p) => FixBottom(s, b, won, p)
    case Swap(k, spare) => SwapBuffer(s, k, spare)
    case Retire(k, gone) => RetireOld(s, k, gone)
    case Reclaim(k) => LoadInFlight(s, k)
    case Free(k) => FreeRetired(s, k)
  }

  function Moved(s: State, who: nat, th: Thief): State
    requires who < |s.thieves|
  {
    s.(thieves := s.thieves[who := th])
  }

  /** A load of cell `t` from a buffer; memory already freed yields anything. */
  function LoadCell(s: State, buf: nat, t: int, wild: Ptr): Ptr
    requires Shape(s)
  {
    if buf in s.freed || buf >= |s.bufs| then wild else Cell(s.bufs[buf], t)
  }

  function ThiefNext(s: State, who: nat, wild: Ptr): State
    requires Shape(s) && who < |s.thieves|
  {
    match s.thieves[who]
    case Away => Moved(s, who, GotTop(s.top))
    case GotTop(t) =>
      Moved(s, who, if s.bottom - t <= 0 then Away else if s.kind.Inline? then Entered(t) else Entering(t))
    case Entering(t) => Moved(s.(inFlight := s.inFlight + 1), who, Entered(t))
    case Entered(t) => Moved(s, who, Holding(t, s.active))
    case Holding(t, buf) =>
      var p := LoadCell(s, buf, t, wild);
      Moved(s, who, if s.kind.Inline? then Claiming(t, p) else Leaving(t, p))
    case Leaving(t, p) => Moved(s.(inFlight := s.inFlight - 1), who, Claiming(t, p))
    case Claiming(t, p) =>
      if s.top == t
      then Moved(s.(top := t + 1, hist := s.hist.(out := s.hist.out + (if p.Box? then [ByThief(who, p.id)] else []))),
                 who, Away)
      else Moved(s, who, Away)
  }

  function Apply(s: State, st: Step): State
    requires Shape(s) && Enabled(s, st)
  {
    match st
    case StartPush => BeginPush(s)
    case StartPop => LowerBottom(s)
    case OwnerStep => OwnerNext(s)
    case ThiefStep(who, wild) => ThiefNext(s, who, wild)
  }

  // ---------------------------------------------------------------- the invariant

  /** The elements a thief could still take, oldest first: the deque's abstract contents. */
  function Contents(s: State): seq<nat>
    requires 0 <= s.top <= |s.hist.arr|
  {
    s.hist.arr[s.top..]
  }

  /** `buf` answers every stealable index correctly. */
  ghost predicate Serves(buf: Buffer, top: int, arr: seq<nat>) {
    IsBuffer(buf) && forall i :: top <= i < |arr| && 0 <= i ==> Cell(buf, i) == Box(arr[i])
  }

  ghost predicate Indices(s: State) {
    && Shape(s)
    && 0 <= s.top <= |s.hist.arr|
    && |s.hist.arr| - s.top <= Cap(s) - 1
    && s.cachedTop <= s.top
    && Serves(ActiveBuf(s), s.top, s.hist.arr)
  }

  /** There is a spare cell for the push at index `|arr|`. */
  ghost predicate Room(s: State)
    requires Indices(s)
  {
    |s.hist.arr| - s.top < Cap(s) - 1
  }

  ghost predicate ResumeOk(s: State, k: Resume, swapped: bool)
    requires Indices(s)
  {
    match k
    case ToPush(b) => s.bottom == b == |s.hist.arr| && s.hist.secured == [] && (swapped ==> Room(s))
    case ToPop(p) => s.bottom == |s.hist.arr| && p.Box? && s.hist.secured == [p.id]
  }

  ghost predicate OwnerOk(s: State)
    requires Indices(s)
  {
    var n := |s.hist.arr|;
    match s.owner
    case Idle => s.bottom == n && s.hist.secured == []
    case PushTop(b) => s.bottom == b == n && s.hist.secured == []
    case PushWrite(b) => s.bottom == b == n && s.hist.secured == [] && Room(s)
    case PushPublish(b) =>
      s.bottom == b == n && s.hist.secured == [] && Room(s) && Cell(ActiveBuf(s), b) == Box(s.hist.pushed)
    case PopTop(b) => s.bottom == b == n - 1 && s.hist.secured == []
    case PopRestore(t) => s.bottom == n - 1 && t == s.top == n && s.hist.secured == []
    case PopRead(b, t) =>
      && 0 <= t <= s.top && t <= b == s.bottom
      && (if t < b
          then b == n && |s.hist.secured| == 1 && Cell(ActiveBuf(s), b) == Box(s.hist.secured[0])
               && b - t < Cap(s)
          else b == n - 1 && s.hist.secured == [] && Cell(ActiveBuf(s), b) == Box(s.hist.arr[b]))
    case PopCas(b, p) => 0 <= b == s.bottom == n - 1 && b <= s.top && s.hist.secured == [] && p == Box(s.hist.arr[b])
    case PopFix(b, won, p) =>
      && b == s.bottom && s.top == n == b + 1
      && (if won then p.Box? && s.hist.secured == [p.id] else s.hist.secured == [])
    case Swap(k, spare) =>
      && ResumeOk(s, k, false)
      && Serves(spare, s.top, s.hist.arr)
      && n - s.top <= |spare.cells| - 1
      && (k.ToPush? ==> n - s.top < |spare.cells| - 1)
    case Retire(k, gone) => ResumeOk(s, k, true)
    case Reclaim(k) => ResumeOk(s, k, true)
    case Free(k) => ResumeOk(s, k, true)
  }

  ghost predicate InSection(th: Thief) {
    th.Entered? || th.Holding? || th.Leaving?
  }

  /** What a thief knows if `top` has not moved since it read `t`. */
  ghost predicate ThiefOk(s: State, th: Thief)
    requires Indices(s)
  {
    var live := |s.hist.arr|;
    match th
    case Away => true
    case GotTop(t) => 0 <= t <= s.top
    case Entering(t) => 0 <= t <= s.top && (t == s.top ==> t < live)
    case Entered(t) => 0 <= t <= s.top && (t == s.top ==> t < live)
    case Holding(t, buf) =>
      && 0 <= t <= s.top
      && (t == s.top ==> t < live)
      && buf < |s.bufs| && buf !in s.freed
      && (s.owner.Free? ==> buf !in s.retired)
      && (t == s.top ==> Cell(s.bufs[buf], t) == Box(s.hist.arr[t]))
    case Leaving(t, p) => 0 <= t <= s.top && (t == s.top ==> t < live && p == Box(s.hist.arr[t]))
    case Claiming(t, p) => 0 <= t <= s.top && (t == s.top ==> t < live && p == Box(s.hist.arr[t]))
  }

  ghost predicate ThievesOk(s: State)
    requires Indices(s)
  {
    forall i :: 0 <= i < |s.thieves| ==> ThiefOk(s, s.thieves[i])
  }

  ghost function CountIn(ths: seq<Thief>): nat {
    if ths == [] then 0 else CountIn(ths[..|ths| - 1]) + if InSection(ths[|ths| - 1]) then 1 else 0
  }

  function Ids(out: seq<Handout>): (r: seq<nat>)
    ensures |r| == |out|
  {
    seq(|out|, i requires 0 <= i < |out| => out[i].id)
  }

  /** Elements: everything pushed is in the deque, secured by the owner's pop, or handed out. */
  ghost predicate Ledger(s: State)
    requires Indices(s)
  {
    multiset(Contents(s)) + multiset(s.hist.secured) + multiset(Ids(s.hist.out)) == multiset(Upto(s.hist.pushed))
  }

  /** The buffer the owner has swapped out but not yet put on the retired list. */
  function InHand(s: State): seq<nat> {
    match s.owner
    case Retire(_, gone) => [gone]
    case _ => []
  }

  /** Buffers: each one ever allocated is active, in hand, retired or freed, and only one of them. */
  ghost predicate BuffersOk(s: State) {
    multiset{s.active} + multiset(InHand(s)) + multiset(s.retired) + multiset(s.freed) == multiset(Upto(|s.bufs|))
  }

  /** A boxed deque counts the thieves that may hold a buffer; an inline one frees nothing. */
  ghost predicate FlightOk(s: State) {
    && (s.kind.Boxed? ==> s.inFlight == CountIn(s.thieves))
    && (s.kind.Inline? ==> s.freed == [])
  }

  ghost predicate ReclaimOk(s: State) {
    FlightOk(s) && (s.kind.Inline? ==> !s.owner.Reclaim? && !s.owner.Free?)
  }

  ghost predicate Inv(s: State) {
    && Indices(s)
    && OwnerOk(s)
    && ThievesOk(s)
    && ReclaimOk(s)
    && Ledger(s)
    && BuffersOk(s)
  }
}

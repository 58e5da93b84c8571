/**
 Work stealing with multiplicity over a growable array (src/idempotent.rs) as a step machine. Tasks
 may be delivered more than once but never lost. The owner puts and takes; thieves come in the three
 kinds the code has. One step is one access to memory another thread may also write.
 */
module WsMult {
  import opened Numbers
  import opened Deliveries

  /** `None` is a null cell; `Some(b)` points to box `b`. */
  datatype Tasks = Tasks(cells: seq<Option<nat>>, claimed: seq<bool>)

  function WithLen(len: nat): (t: Tasks)
    ensures |t.cells| == len == |t.claimed|
  {
    Tasks(seq(len, i => None), seq(len, i => false))
  }

  /** The copy in `grow`: twice the cells, the old ones first. */
  function Bigger(prior: Tasks): (t: Tasks)
    ensures |t.cells| == 2 * |prior.cells| == |t.claimed|
  {
    Tasks(prior.cells + seq(|prior.cells|, i => None), seq(2 * |prior.cells|, i => false))
  }

  datatype Kind = Strong | Exclusive | Weak

  datatype ThiefPc =
    | Resting
    | LoadArray(h: nat)                        // load tasks
    | LoadCell(h: nat, a: nat, puts: nat)      // load a cell; `puts`: boxes stored when the array was loaded
    | ClaimFlag(h: nat, a: nat, p: nat)        // CAS the claim flag
    | Nudge(h: nat)                            // fetch_max after losing the claim
    | Advance(h: nat, p: nat)                  // fetch_max, then return a clone
    | WeakRead(h: nat, p: nat)                 // load head in rmax_write
    | WeakStore(h: nat, p: nat)                // plain store of head

  /** `kind` is the kind of the running call, or of the last one: a strong handle may mix `steal` and
      `steal_exclusive`. `r` is the private maximum of a weak thief. `got` lists all its deliveries, `won`
      those of `steal_exclusive`. */
  datatype Thief = Thief(kind: Kind, pc: ThiefPc, r: nat, got: seq<Got>, won: seq<Got>)

  datatype OwnerPc =
    | Idle
    | PutStore               // store the box
    | PutMark                // store null behind it
    | TakeMax(h: nat, p: nat)

  /** `boxes` counts boxes stored so far, `maxHead` is the largest value `head` ever had, and `back` tells
      whether `head` ever went down. No branch depends on these or on a `got`, a `won` or a `puts`; the
      count of boxes names the next one. */
  datatype State = State(
    bounded: bool,
    cap: nat,
    head: nat,
    arrays: seq<Tasks>,
    active: nat,
    retired: seq<nat>,
    tail: nat,
    boxes: nat,
    owner: OwnerPc,
    took: seq<Got>,
    thieves: seq<Thief>,
    maxHead: nat,
    back: bool)

  datatype Step =
    | StartPut
    | StartTake
    | OwnerStep
    | StartSteal(u: nat, kind: Kind)
    | ThiefStep(u: nat)

  /** `new()` starts with 16 cells, `bounded(cap)` with two more than its capacity. */
  ghost predicate Init(s: State) {
    && s.arrays == [WithLen(if s.bounded then s.cap + 2 else 16)] && s.active == 0 && s.retired == []
    && s.head == 0 && s.tail == 0 && s.boxes == 0 && s.owner.Idle? && s.took == []
    && s.maxHead == 0 && !s.back
    && (forall u :: 0 <= u < |s.thieves| ==> s.thieves[u] == Thief(s.thieves[u].kind, Resting, 0, [], []))
    && (forall u :: 0 <= u < |s.thieves| ==> !s.thieves[u].kind.Exclusive?)
  }

  // ---------------------------------------------------------------- owner steps

  ghost predicate ActiveShape(s: State) {
    && s.active < |s.arrays|
    && s.tail + 1 < |s.arrays[s.active].cells| + (if s.owner.Idle? || s.owner.TakeMax? then 1 else 0)
  }

  /** `put` up to its first store: rejected, or grown first if the two cells do not fit. */
  function BeginPut(s: State): State
    requires s.active < |s.arrays|
  {
    if s.bounded && s.tail >= s.cap then s
    else if s.tail + 1 >= |s.arrays[s.active].cells| then Grow(s).(owner := PutStore)
    else s.(owner := PutStore)
  }

  function Grow(s: State): State
    requires s.active < |s.arrays|
  {
    s.(arrays := s.arrays + [Bigger(s.arrays[s.active])], active := |s.arrays|, retired := s.retired + [s.active])
  }

  function StoreCell(s: State, i: nat, cell: Option<nat>): State
    requires s.active < |s.arrays| && i < |s.arrays[s.active].cells|
  {
    s.(arrays := s.arrays[s.active := s.arrays[s.active].(cells := s.arrays[s.active].cells[i := cell])])
  }

  function BeginTake(s: State): State
    requires s.active < |s.arrays|
  {
    var cells := s.arrays[s.active].cells;
    if s.head >= s.tail || s.head >= |cells| then s
    else match cells[s.head]
      case None => s
      case Some(p) => s.(owner := TakeMax(s.head, p))
  }

  function FetchMax(s: State, x: nat): State {
    s.(head := Max(s.head, x), maxHead := Max(s.maxHead, Max(s.head, x)))
  }

  function OwnerNext(s: State): State
    requires ActiveShape(s)
  {
    match s.owner
    case Idle => s
    case PutStore => StoreCell(s, s.tail, Some(s.boxes)).(boxes := s.boxes + 1, owner := PutMark)
    case PutMark => StoreCell(s, s.tail + 1, None).(tail := s.tail + 1, owner := Idle)
    case TakeMax(h, p) => FetchMax(s, h + 1).(owner := Idle, took := s.took + [Got(h, p)])
  }

  // ---------------------------------------------------------------- thief steps

  function SetThief(s: State, u: nat, th: Thief): State
    requires u < |s.thieves|
  {
    s.(thieves := s.thieves[u := th])
  }

  /** Load `head`; a weak thief combines it with its private maximum (`rmax_read`). */
  function BeginSteal(s: State, u: nat, kind: Kind): State
    requires u < |s.thieves|
  {
    var th := s.thieves[u].(kind := kind);
    if kind.Weak?
    then SetThief(s, u, th.(r := Max(th.r, s.head), pc := LoadArray(Max(th.r, s.head))))
    else SetThief(s, u, th.(pc := LoadArray(s.head)))
  }

  function AfterCell(kind: Kind, h: nat, a: nat, p: nat): ThiefPc {
    match kind
    case Strong => Advance(h, p)
    case Exclusive => ClaimFlag(h, a, p)
    case Weak => WeakRead(h, p)
  }

  function ReadCell(s: State, u: nat, h: nat, a: nat): State
    requires u < |s.thieves| && a < |s.arrays|
  {
    var th := s.thieves[u];
    var cells := s.arrays[a].cells;
    var pc := if h >= |cells| || cells[h].None? then Resting else AfterCell(th.kind, h, a, cells[h].value);
    SetThief(s, u, th.(pc := pc))
  }

  function TryClaim(s: State, u: nat, h: nat, a: nat, p: nat): State
    requires u < |s.thieves| && a < |s.arrays| && h < |s.arrays[a].claimed|
  {
    var th := s.thieves[u];
    if s.arrays[a].claimed[h]
    then SetThief(s, u, th.(pc := Nudge(h)))
    else SetThief(s, u, th.(pc := Advance(h, p))).(
           arrays := s.arrays[a := s.arrays[a].(claimed := s.arrays[a].claimed[h := true])])
  }

  function Deliver(s: State, u: nat, r: nat, h: nat, p: nat): State
    requires u < |s.thieves|
  {
    var th := s.thieves[u];
    SetThief(s, u, th.(pc := Resting, r := r, got := th.got + [Got(h, p)],
                       won := if th.kind.Exclusive? then th.won + [Got(h, p)] else th.won))
  }

  /** `rmax_write`: nothing to store if the head seen is already past `h + 1`. */
  function WeakLook(s: State, u: nat, h: nat, p: nat): State
    requires u < |s.thieves|
  {
    var th := s.thieves[u];
    var r := Max(th.r, s.head);
    if h + 1 > r then SetThief(s, u, th.(r := r, pc := WeakStore(h, p))) else Deliver(s, u, r, h, p)
  }

  /** Every array and flag a step refers to exists. */
  ghost predicate ThiefShape(s: State, th: Thief) {
    match th.pc
    case LoadCell(_, a, _) => a < |s.arrays|
    case ClaimFlag(h, a, _) => a < |s.arrays| && h < |s.arrays[a].claimed|
    case _ => true
  }

  function ThiefNext(s: State, u: nat): State
    requires u < |s.thieves| && ThiefShape(s, s.thieves[u])
  {
    var th := s.thieves[u];
    match th.pc
    case Resting => s
    case LoadArray(h) => SetThief(s, u, th.(pc := LoadCell(h, s.active, s.boxes)))
    case LoadCell(h, a, _) => ReadCell(s, u, h, a)
    case ClaimFlag(h, a, p) => TryClaim(s, u, h, a, p)
    case Nudge(h) => SetThief(FetchMax(s, h + 1), u, th.(pc := Resting))
    case Advance(h, p) => Deliver(FetchMax(s, h + 1), u, th.r, h, p)
    case WeakRead(h, p) => WeakLook(s, u, h, p)
    case WeakStore(h, p) =>
      Deliver(s.(head := h + 1, maxHead := Max(s.maxHead, h + 1), back := s.back || h + 1 < s.head), u, h + 1, h, p)
  }

  ghost predicate Enabled(s: State, st: Step) {
    match st
    case StartPut => s.owner.Idle?
    case StartTake => s.owner.Idle?
    case OwnerStep => !s.owner.Idle?
    case StartSteal(u, kind) =>
      && u < |s.thieves| && s.thieves[u].pc.Resting?
      && (kind.Weak? <==> s.thieves[u].kind.Weak?)
      && (kind.Exclusive? ==> s.bounded)
    case ThiefStep(u) => u < |s.thieves| && !s.thieves[u].pc.Resting?
  }

  ghost predicate Shape(s: State) {
    ActiveShape(s) && forall u :: 0 <= u < |s.thieves| ==> ThiefShape(s, s.thieves[u])
  }

  function Apply(s: State, st: Step): State
    requires Shape(s) && Enabled(s, st)
  {
    match st
    case StartPut => BeginPut(s)
    case StartTake => BeginTake(s)
    case OwnerStep => OwnerNext(s)
    case StartSteal(u, kind) => BeginSteal(s, u, kind)
    case ThiefStep(u) => ThiefNext(s, u)
  }

  // ---------------------------------------------------------------- the invariant

  /** Cell `i` is null or points to the `i`-th of the boxes put. */
  ghost predicate CellsOk(t: Tasks, boxes: nat) {
    && |t.claimed| == |t.cells|
    && forall i :: 0 <= i < |t.cells| ==> t.cells[i] == None || (t.cells[i] == Some(i) && i < boxes)
  }

  /** The first `n` boxes are all in their cells. */
  ghost predicate Filled(t: Tasks, n: nat) {
    n <= |t.cells| && forall i :: 0 <= i < n ==> t.cells[i] == Some(i)
  }

  /** The active array holds exactly the boxes put. */
  ghost predicate ActiveOk(s: State) {
    && ActiveShape(s)
    && s.boxes == s.tail + (if s.owner.PutMark? then 1 else 0)
    && forall i :: 0 <= i < |s.arrays[s.active].cells| ==>
         s.arrays[s.active].cells[i] == if i < s.boxes then Some(i) else None
  }

  ghost predicate ArraysOk(s: State) {
    && |s.arrays| == s.active + 1
    && s.retired == Upto(s.active)
    && (forall a :: 0 <= a < |s.arrays| ==> CellsOk(s.arrays[a], s.boxes))
    && ActiveOk(s)
    && (s.bounded ==> s.active == 0 && |s.arrays[0].cells| == s.cap + 2 && s.tail <= s.cap)
    && (s.bounded && (s.owner.PutStore? || s.owner.PutMark?) ==> s.tail < s.cap)
  }

  /** The index a thief is working on. */
  ghost predicate At(pc: ThiefPc, i: nat) {
    match pc
    case Resting => false
    case LoadArray(h) => h == i
    case LoadCell(h, _, _) => h == i
    case ClaimFlag(h, _, _) => h == i
    case Nudge(h) => h == i
    case Advance(h, _) => h == i
    case WeakRead(h, _) => h == i
    case WeakStore(h, _) => h == i
  }

  ghost predicate Holding(pc: ThiefPc) {
    pc.ClaimFlag? || pc.Advance? || pc.WeakRead? || pc.WeakStore?
  }

  ghost predicate ThiefOk(s: State, th: Thief) {
    && ThiefShape(s, th)
    && th.r <= s.maxHead
    && (forall i: nat :: At(th.pc, i) ==> i <= s.maxHead)
    && (Holding(th.pc) ==> th.pc.p == th.pc.h < s.boxes)
    && (th.pc.LoadCell? ==> Filled(s.arrays[th.pc.a], th.pc.puts))
    && (th.pc.ClaimFlag? ==> th.kind.Exclusive? && th.pc.a == 0)
    && (th.pc.Nudge? ==> th.kind.Exclusive?)
    && (th.pc.WeakRead? || th.pc.WeakStore? ==> th.kind.Weak?)
    && (th.pc.Advance? ==> !th.kind.Weak?)
    && (th.kind.Exclusive? ==> s.bounded)
    && Right(th.got, s.boxes)
  }

  ghost predicate OwnerOk(s: State) {
    && (s.owner.TakeMax? ==> s.owner.p == s.owner.h < s.boxes && s.owner.h <= s.maxHead)
    && Right(s.took, s.boxes)
  }

  ghost predicate ThievesOk(s: State) {
    forall u :: 0 <= u < |s.thieves| ==> ThiefOk(s, s.thieves[u])
  }

  ghost predicate HeadOk(s: State) {
    s.head <= s.maxHead <= s.boxes
  }

  /** The thief took `i` exclusively, or holds the claim to it. */
  ghost predicate Takes(th: Thief, i: nat) {
    Has(th.won, i) || (th.kind.Exclusive? && th.pc.Advance? && th.pc.h == i)
  }

  ghost predicate TakenBySome(s: State, i: nat) {
    exists u :: 0 <= u < |s.thieves| && Takes(s.thieves[u], i)
  }

  ghost predicate Delivered(s: State, i: nat) {
    Has(s.took, i) || exists u :: 0 <= u < |s.thieves| && Has(s.thieves[u].got, i)
  }

  /** Every index `head` ever passed is delivered, or claimed by a thief about to return it. */
  ghost predicate Covered(s: State) {
    forall i: nat :: i < s.maxHead ==> Delivered(s, i) || TakenBySome(s, i)
  }

  ghost predicate Claimed(s: State, i: nat) {
    |s.arrays| > 0 && i < |s.arrays[0].claimed| && s.arrays[0].claimed[i]
  }

  /** No thief takes a slot exclusively twice, and what it takes so it delivers. */
  ghost predicate OnceOnly(th: Thief) {
    && Distinct(th.won)
    && (th.kind.Exclusive? && th.pc.Advance? ==> !Has(th.won, th.pc.h))
    && (forall i: nat :: Has(th.won, i) ==> Has(th.got, i))
  }

  /** Claim flags are set exactly for the indices exclusive thieves take, one thief each. */
  ghost predicate ClaimsOk(s: State) {
    && (forall u, i: nat :: 0 <= u < |s.thieves| && Takes(s.thieves[u], i) ==> Claimed(s, i))
    && (forall i: nat :: Claimed(s, i) ==> TakenBySome(s, i))
    && (forall u, v, i: nat :: 0 <= u < v < |s.thieves| && Takes(s.thieves[u], i) ==> !Takes(s.thieves[v], i))
    && (forall u :: 0 <= u < |s.thieves| && s.thieves[u].pc.Nudge? ==> Claimed(s, s.thieves[u].pc.h))
    && (forall u :: 0 <= u < |s.thieves| ==> OnceOnly(s.thieves[u]))
  }

  /** A weak thief's private maximum is past everything it took. */
  ghost predicate WeakOk(th: Thief) {
    th.kind.Weak? ==>
      (th.pc.WeakStore? ==> th.r <= th.pc.h)
      && Increasing(th.got) && AllBelow(th.got, th.r)
      && forall i: nat :: At(th.pc, i) ==> th.r >= i && AllBelow(th.got, i)
  }

  ghost predicate NoWeak(s: State) {
    forall u :: 0 <= u < |s.thieves| ==> !s.thieves[u].kind.Weak?
  }

  ghost predicate StrongOk(s: State, th: Thief) {
    !th.kind.Weak? ==>
      && Increasing(th.got) && AllBelow(th.got, s.head)
      && forall i: nat :: At(th.pc, i) ==> i <= s.head && AllBelow(th.got, i)
  }

  ghost predicate OrderOk(s: State) {
    && (forall u :: 0 <= u < |s.thieves| ==> WeakOk(s.thieves[u]))
    && (NoWeak(s) ==> !s.back)
    && (!s.back ==> s.head == s.maxHead)
    && (!s.back ==> Increasing(s.took) && AllBelow(s.took, s.head))
    && (!s.back && s.owner.TakeMax? ==> s.owner.h <= s.head && AllBelow(s.took, s.owner.h))
    && (!s.back ==> forall u :: 0 <= u < |s.thieves| ==> StrongOk(s, s.thieves[u]))
  }

  ghost predicate Inv(s: State) {
    && ArraysOk(s) && OwnerOk(s) && ThievesOk(s) && HeadOk(s)
    && Covered(s) && ClaimsOk(s) && OrderOk(s)
  }
}

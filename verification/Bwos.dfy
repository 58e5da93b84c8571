/**
 Block-based work stealing (src/bwos.rs) as a step machine, in both forms: a growable list of blocks
 and a fixed row of them. Each block is a small deque of its own: the owner works at `committed`,
 thieves at `stolen`. One step is one access to memory that another thread may also write.
 */
module Bwos {
  import opened Numbers

  /** `Growable` is `unbounded`; `Fixed` is the bounded queue, whose links are its block numbers. */
  datatype Kind = Growable | Fixed

  datatype Block = Block(slots: seq<nat>, committed: nat, stolen: nat, next: Option<nat>, prev: Option<nat>)

  datatype Owner =
    | Idle
    | PutProduced                     // store produced_blocks
    | PutWrite(bottom: nat)           // write the slot
    | PutPublish(bottom: nat)         // store committed
    | PopLook                         // load stolen of the current block
    | PopLower(b: nat)                // store committed, lowered
    | PopTop(b: nat)                  // load stolen again; `b` is the lowered bottom
    | TakeRead(b: nat)                // read an uncontested slot
    | LastRead(b: nat)                // read the last slot
    | LastCas(b: nat, v: nat)         // race for it
    | PopFix(bottom: nat, won: bool)  // store committed after the race
    | PopRestore(bottom: nat)         // store committed after losing ground

  datatype Thief =
    | Away(cursor: nat)
    | Look(k: nat, end: nat)               // load stolen
    | Bottom(k: nat, end: nat, t: nat)     // load committed
    | Read(k: nat, end: nat, t: nat)       // read the slot
    | Cas(k: nat, end: nat, t: nat, v: nat)
    | Onward(k: nat, end: nat)             // next block, if there is one

  /** A slot: block number and index in it. */
  datatype Place = Place(k: nat, i: nat)

  /** Values are numbered in `put` order. `pos` says where each was put, `out` lists the values handed
      out, `lost` those published behind `stolen`, and `dirty` whether an advance ever landed on a
      block thieves or the owner had already taken from. No step depends on any of these. */
  datatype Hist = Hist(pos: seq<Place>, out: seq<nat>, lost: seq<nat>, dirty: bool)

  datatype State = State(
    kind: Kind,
    size: nat,
    blocks: seq<Block>,
    owner: nat,
    produced: nat,
    pc: Owner,
    thieves: seq<Thief>,
    hist: Hist)

  datatype Step =
    | StartPut
    | StartPop
    | OwnerStep
    | StartSteal(w: nat)
    | ThiefStep(w: nat)
    | NewHandle(w: nat)     // a fresh stealer starts at the head again

  function NewBlock(size: nat, next: Option<nat>, prev: Option<nat>): Block {
    Block(seq(size, i => 0), 0, 0, next, prev)
  }

  function RowBlock(blocks: nat, size: nat, k: nat): Block {
    NewBlock(size, if k + 1 < blocks then Some(k + 1) else None, if k == 0 then None else Some(k - 1))
  }

  /** A new queue; the growable one starts with a single block. */
  ghost predicate Init(s: State) {
    && s.size >= 1 && |s.blocks| >= 1
    && (s.kind.Growable? ==> |s.blocks| == 1)
    && (s.kind.Fixed? ==> |s.blocks| >= 2)
    && (forall k :: 0 <= k < |s.blocks| ==> s.blocks[k] == RowBlock(|s.blocks|, s.size, k))
    && s.owner == 0 && s.produced == 1 && s.pc.Idle?
    && (forall w :: 0 <= w < |s.thieves| ==> s.thieves[w] == Away(0))
    && s.hist == Hist([], [], [], false)
  }

  // ---------------------------------------------------------------- shape

  ghost predicate BlockShape(s: State, k: nat)
    requires k < |s.blocks|
  {
    var blk := s.blocks[k];
    && |blk.slots| == s.size && blk.committed <= s.size && blk.stolen <= s.size
    && (blk.prev.Some? ==> blk.prev.value < k)
    && (blk.next.Some? ==> k < blk.next.value < |s.blocks|)
    && (blk.prev.None? <==> k == 0)
    && (s.kind.Fixed? ==> blk.next == RowBlock(|s.blocks|, s.size, k).next)
    && (s.kind.Fixed? ==> blk.prev == RowBlock(|s.blocks|, s.size, k).prev)
  }

  ghost predicate BottomShape(s: State) {
    match s.pc
    case PutWrite(bottom) => bottom < s.size
    case PutPublish(bottom) => bottom < s.size
    case PopLower(b) => 1 <= b <= s.size
    case PopTop(b) => b < s.size
    case TakeRead(b) => b < s.size
    case LastRead(b) => b < s.size
    case LastCas(b, _) => b < s.size
    case PopFix(bottom, _) => bottom <= s.size
    case PopRestore(bottom) => bottom <= s.size
    case _ => true
  }

  ghost predicate ThiefShape(s: State, th: Thief) {
    match th
    case Away(cursor) => cursor < |s.blocks|
    case Look(k, end) => k < |s.blocks| && end <= |s.blocks|
    case Bottom(k, end, t) => k < |s.blocks| && end <= |s.blocks|
    case Read(k, end, t) => k < |s.blocks| && t < |s.blocks[k].slots| && end <= |s.blocks|
    case Cas(k, end, t, _) => k < |s.blocks| && t < |s.blocks[k].slots| && end <= |s.blocks|
    case Onward(k, end) => k < |s.blocks| && end <= |s.blocks|
  }

  /** Every block and slot a step refers to exists. */
  ghost predicate Shape(s: State) {
    && s.size >= 1 && s.owner < |s.blocks| && 1 <= s.produced <= |s.blocks|
    && BlockShape(s, s.owner)
    && (forall k :: 0 <= k < |s.blocks| ==> BlockShape(s, k))
    && BottomShape(s)
    && (forall w :: 0 <= w < |s.thieves| ==> ThiefShape(s, s.thieves[w]))
  }

  // ---------------------------------------------------------------- owner steps

  function SetBlock(s: State, k: nat, blk: Block): State
    requires k < |s.blocks|
  {
    s.(blocks := s.blocks[k := blk])
  }

  /** `put` up to its first shared access: in place, on a fresh block, on the next fixed block, or full. */
  function BeginPut(s: State): State
    requires Shape(s)
  {
    var blk := s.blocks[s.owner];
    if blk.committed != s.size then s.(pc := PutWrite(blk.committed))
    else if s.kind.Growable? then LinkFresh(s)
    else if s.owner + 1 == |s.blocks| then s
    else s.(owner := s.owner + 1, pc := PutProduced,
            hist := s.hist.(dirty := s.hist.dirty || s.blocks[s.owner + 1].stolen > 0))
  }

  function LinkFresh(s: State): State
    requires s.owner < |s.blocks|
  {
    s.(blocks := s.blocks[s.owner := s.blocks[s.owner].(next := Some(|s.blocks|))]
                 + [NewBlock(s.size, None, Some(s.owner))],
       owner := |s.blocks|, pc := PutWrite(0))
  }

  function WriteSlot(s: State, bottom: nat): State
    requires s.owner < |s.blocks| && bottom < |s.blocks[s.owner].slots|
  {
    var blk := s.blocks[s.owner];
    SetBlock(s, s.owner, blk.(slots := blk.slots[bottom := |s.hist.pos|])).(pc := PutPublish(bottom))
  }

  function Publish(s: State, bottom: nat): State
    requires s.owner < |s.blocks|
  {
    var blk := s.blocks[s.owner];
    var id := |s.hist.pos|;
    SetBlock(s, s.owner, blk.(committed := bottom + 1)).(
      pc := Idle,
      hist := s.hist.(pos := s.hist.pos + [Place(s.owner, bottom)],
                      lost := if bottom < blk.stolen then s.hist.lost + [id] else s.hist.lost))
  }

  function LookAtBlock(s: State): State
    requires Shape(s)
  {
    var blk := s.blocks[s.owner];
    if blk.committed > blk.stolen then s.(pc := PopLower(blk.committed))
    else if blk.prev.None? then s.(pc := Idle)
    else s.(owner := blk.prev.value)
  }

  function SetCommitted(s: State, committed: nat, pc: Owner): State
    requires s.owner < |s.blocks|
  {
    SetBlock(s, s.owner, s.blocks[s.owner].(committed := committed)).(pc := pc)
  }

  function DecidePop(s: State, b: nat): State
    requires s.owner < |s.blocks|
  {
    var top := s.blocks[s.owner].stolen;
    s.(pc := if b > top then TakeRead(b) else if b == top then LastRead(b) else PopRestore(b + 1))
  }

  function HandOut(s: State, v: nat): State {
    s.(hist := s.hist.(out := s.hist.out + [v]))
  }

  function RaceForLast(s: State, b: nat, v: nat): State
    requires s.owner < |s.blocks|
  {
    var blk := s.blocks[s.owner];
    if blk.stolen == b
    then HandOut(SetBlock(s, s.owner, blk.(stolen := b + 1)).(pc := PopFix(b + 1, true)), v)
    else s.(pc := PopFix(b + 1, false))
  }

  function OwnerNext(s: State): State
    requires Shape(s)
  {
    match s.pc
    case Idle => s
    case PutProduced => s.(produced := s.owner + 1, pc := PutWrite(0))
    case PutWrite(bottom) => WriteSlot(s, bottom)
    case PutPublish(bottom) => Publish(s, bottom)
    case PopLook => LookAtBlock(s)
    case PopLower(b) => SetCommitted(s, b - 1, PopTop(b - 1))
    case PopTop(b) => DecidePop(s, b)
    case TakeRead(b) => HandOut(s, s.blocks[s.owner].slots[b]).(pc := Idle)
    case LastRead(b) => s.(pc := LastCas(b, s.blocks[s.owner].slots[b]))
    case LastCas(b, v) => RaceForLast(s, b, v)
    case PopFix(bottom, won) => SetCommitted(s, bottom, if won then Idle else PopLook)
    case PopRestore(bottom) => SetCommitted(s, bottom, PopLook)
  }

  // ---------------------------------------------------------------- thief steps

  function SetThief(s: State, w: nat, th: Thief): State
    requires w < |s.thieves|
  {
    s.(thieves := s.thieves[w := th])
  }

  function RaceForTop(s: State, w: nat, k: nat, t: nat, v: nat): State
    requires w < |s.thieves| && k < |s.blocks|
  {
    var blk := s.blocks[k];
    var cursor := if s.kind.Growable? then k else 0;
    if blk.stolen == t
    then SetThief(HandOut(SetBlock(s, k, blk.(stolen := t + 1)), v), w, Away(cursor))
    else SetThief(s, w, Away(cursor))
  }

  function MoveOn(s: State, w: nat, k: nat, end: nat): State
    requires w < |s.thieves| && k < |s.blocks|
  {
    if s.kind.Growable?
    then SetThief(s, w, match s.blocks[k].next case None => Away(k) case Some(n) => Look(n, end))
    else SetThief(s, w, if k + 1 < end then Look(k + 1, end) else Away(0))
  }

  function ThiefNext(s: State, w: nat): State
    requires Shape(s) && w < |s.thieves|
  {
    match s.thieves[w]
    case Away(_) => s
    case Look(k, end) => SetThief(s, w, Bottom(k, end, s.blocks[k].stolen))
    case Bottom(k, end, t) => SetThief(s, w, if t < s.blocks[k].committed then Read(k, end, t) else Onward(k, end))
    case Read(k, end, t) => SetThief(s, w, Cas(k, end, t, s.blocks[k].slots[t]))
    case Cas(k, end, t, v) => RaceForTop(s, w, k, t, v)
    case Onward(k, end) => MoveOn(s, w, k, end)
  }

  ghost predicate Enabled(s: State, st: Step) {
    match st
    case StartPut => s.pc.Idle?
    case StartPop => s.pc.Idle?
    case OwnerStep => !s.pc.Idle?
    case StartSteal(w) => w < |s.thieves| && s.thieves[w].Away?
    case ThiefStep(w) => w < |s.thieves| && !s.thieves[w].Away?
    case NewHandle(w) => w < |s.thieves| && s.thieves[w].Away?
  }

  function Apply(s: State, st: Step): State
    requires Shape(s) && Enabled(s, st)
  {
    match st
    case StartPut => BeginPut(s)
    case StartPop => s.(pc := PopLook)
    case OwnerStep => OwnerNext(s)
    case StartSteal(w) => SetThief(s, w, Look(s.thieves[w].cursor, s.produced))
    case ThiefStep(w) => ThiefNext(s, w)
    case NewHandle(w) => SetThief(s, w, Away(0))
  }

  // ---------------------------------------------------------------- the invariant

  /** The owner lowered `committed` past an element it has not taken yet. */
  ghost predicate Popping(pc: Owner) {
    pc.PopTop? || pc.TakeRead? || pc.LastRead? || pc.LastCas?
  }

  /** End of a block's live range, counting the element of a pop in progress. */
  ghost function LiveEnd(s: State, k: nat): nat
    requires k < |s.blocks|
  {
    s.blocks[k].committed + if k == s.owner && Popping(s.pc) then 1 else 0
  }

  /** End of what a thief may still win. */
  ghost function Avail(s: State, k: nat): nat
    requires k < |s.blocks|
  {
    s.blocks[k].committed + if k == s.owner && Popping(s.pc) && !s.pc.TakeRead? then 1 else 0
  }

  ghost predicate Live(s: State, k: nat, i: nat) {
    k < |s.blocks| && s.blocks[k].stolen <= i < LiveEnd(s, k) && i < |s.blocks[k].slots|
  }

  /** A live slot holds a value that was put there. */
  ghost predicate AtHome(s: State, k: nat, i: nat)
    requires Live(s, k, i)
  {
    var x := s.blocks[k].slots[i];
    x < |s.hist.pos| && s.hist.pos[x] == Place(k, i)
  }

  ghost predicate Homes(s: State) {
    forall k: nat, i: nat :: Live(s, k, i) ==> AtHome(s, k, i)
  }

  /** Value `x` is in the queue. */
  ghost predicate Here(s: State, x: nat) {
    && x < |s.hist.pos|
    && Live(s, s.hist.pos[x].k, s.hist.pos[x].i)
    && s.blocks[s.hist.pos[x].k].slots[s.hist.pos[x].i] == x
  }

  /** Every value put is in the queue, handed out, or lost; once. */
  ghost predicate FateOk(s: State, x: nat) {
    Occ(s.hist.out, x) + Occ(s.hist.lost, x) + (if Here(s, x) then 1 else 0) == if x < |s.hist.pos| then 1 else 0
  }

  ghost predicate Fates(s: State) {
    forall x: nat :: FateOk(s, x)
  }

  ghost predicate Precedes(a: Place, b: Place) {
    a.k < b.k || (a.k == b.k && a.i < b.i)
  }

  /** Values lie in the blocks in the order they were put. */
  ghost predicate Sorted(s: State) {
    forall x: nat, y: nat :: x < y && Here(s, x) && Here(s, y) ==> Precedes(s.hist.pos[x], s.hist.pos[y])
  }

  /** Block `k` is met when walking `prev` from block `from`. */
  ghost predicate OnChain(blocks: seq<Block>, from: nat, k: nat)
    decreases from
  {
    && from < |blocks|
    && (from == k
        || (blocks[from].prev.Some? && blocks[from].prev.value < from && OnChain(blocks, blocks[from].prev.value, k)))
  }

  /** Blocks the owner cannot step back to hold nothing. */
  ghost predicate Drained(s: State) {
    forall k :: 0 <= k < |s.blocks| && !OnChain(s.blocks, s.owner, k) ==> s.blocks[k].committed <= s.blocks[k].stolen
  }

  /** `next` retraces the owner's `prev` chain. */
  ghost predicate Linked(s: State) {
    forall k :: 0 < k < |s.blocks| && OnChain(s.blocks, s.owner, k) ==>
      s.blocks[k].prev.Some? && s.blocks[k].prev.value < |s.blocks| && s.blocks[s.blocks[k].prev.value].next == Some(k)
  }

  ghost predicate PutBottomOk(s: State, bottom: nat)
    requires s.owner < |s.blocks|
  {
    var blk := s.blocks[s.owner];
    bottom == blk.committed || (bottom == 0 && blk.committed <= blk.stolen && s.hist.dirty)
  }

  ghost predicate OwnerOk(s: State)
    requires Shape(s)
  {
    var blk := s.blocks[s.owner];
    match s.pc
    case Idle => true
    case PutProduced => blk.committed <= blk.stolen && s.kind.Fixed? && (blk.stolen > 0 ==> s.hist.dirty)
    case PutWrite(bottom) => PutBottomOk(s, bottom)
    case PutPublish(bottom) => PutBottomOk(s, bottom) && blk.slots[bottom] == |s.hist.pos|
    case PopLook => true
    case PopLower(b) => b == blk.committed && blk.stolen <= b
    case PopTop(b) => b == blk.committed && blk.stolen <= b + 1
    case TakeRead(b) => b == blk.committed && blk.stolen <= b
    case LastRead(b) => b == blk.committed && b <= blk.stolen <= b + 1
    case LastCas(b, v) => b == blk.committed && b <= blk.stolen <= b + 1 && v == blk.slots[b]
    case PopFix(bottom, won) => bottom == blk.committed + 1 == blk.stolen
    case PopRestore(bottom) => bottom == blk.committed + 1 == blk.stolen
  }

  ghost predicate ProducedOk(s: State) {
    s.kind.Fixed? && !s.pc.PutProduced? ==> s.owner < s.produced
  }

  /** If `stolen` is still where a thief saw it, the slot it saw below `committed` is still there. */
  ghost predicate ThiefOk(s: State, th: Thief)
    requires ThiefShape(s, th)
  {
    match th
    case Bottom(k, _, t) => t <= s.blocks[k].stolen
    case Read(k, _, t) => t <= s.blocks[k].stolen && (t == s.blocks[k].stolen ==> t < Avail(s, k))
    case Cas(k, _, t, v) =>
      && t <= s.blocks[k].stolen
      && (t == s.blocks[k].stolen ==> t < Avail(s, k) && s.blocks[k].slots[t] == v)
    case _ => true
  }

  ghost predicate ThievesOk(s: State)
    requires Shape(s)
  {
    forall w :: 0 <= w < |s.thieves| ==> ThiefOk(s, s.thieves[w])
  }

  /** How far `stolen` may have got in a block used properly. */
  ghost function Reach(s: State, k: nat): nat
    requires k < |s.blocks|
  {
    s.blocks[k].committed + if k == s.owner && (Popping(s.pc) || s.pc.PopFix? || s.pc.PopRestore?) then 1 else 0
  }

  /** With no bad advance nothing is lost, and no block's `committed` is behind its `stolen`. */
  ghost predicate CleanOk(s: State) {
    !s.hist.dirty ==> s.hist.lost == [] && forall k :: 0 <= k < |s.blocks| ==> s.blocks[k].stolen <= Reach(s, k)
  }

  /** After a bad advance something is lost, as soon as the put that advanced is done. */
  ghost predicate DirtyOk(s: State)
    requires s.owner < |s.blocks|
  {
    s.hist.dirty ==>
      s.kind.Fixed? &&
      (s.hist.lost != [] ||
       (s.blocks[s.owner].stolen > 0 && (s.pc.PutProduced? || s.pc == PutWrite(0) || s.pc == PutPublish(0))))
  }

  ghost predicate Accounted(s: State) {
    Homes(s) && Fates(s) && Sorted(s)
  }

  ghost predicate Structure(s: State) {
    && Shape(s)
    && OwnerOk(s) && ProducedOk(s)
    && ThievesOk(s)
    && Drained(s) && Linked(s)
    && CleanOk(s) && DirtyOk(s)
  }

  ghost predicate Inv(s: State) {
    Structure(s) && Accounted(s)
  }
}

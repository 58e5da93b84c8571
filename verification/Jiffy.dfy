/**
 The multi-producer single-consumer queue of src/jiffy.rs as a step machine. One step is one access
 to shared memory; any number of producers enqueue while the consumer dequeues.
 */
module Jiffy {
  import opened Numbers

  const BUFFER_SIZE: nat := 1024

  datatype SlotState = EMPTY | SET | HANDLED

  /** `value` is `None` while the cell is uninitialised. */
  datatype Slot = Slot(state: SlotState, value: Option<nat>)

  datatype Buffer = Buffer(base: nat, next: Option<nat>, slots: seq<Slot>)

  function NewBuffer(base: nat): (r: Buffer)
    ensures |r.slots| == BUFFER_SIZE
  {
    Buffer(base, None, seq(BUFFER_SIZE, i => Slot(EMPTY, None)))
  }

  /** What a producer does once `link_next_buffer` returns. */
  datatype AfterLink = Done | Retry(idx: nat, v: nat)

  datatype Producer =
    | Idle
    | AtTail(idx: nat, v: nat, seen: int)          // load tail_buf; `seen`: base it had last time round
    | FromHead(idx: nat, v: nat)                   // load head_buf
    | Walking(idx: nat, v: nat, buf: nat)          // is it here? if not, load next
    | Found(idx: nat, v: nat, buf: nat)            // write the value
    | Stored(idx: nat, v: nat, buf: nat)           // store state SET
    | Linking(buf: nat, k: AfterLink)              // load buf.next
    | LinkCas(buf: nat, k: AfterLink)              // CAS buf.next from null
    | LoadNext(idx: nat, v: nat, buf: nat)         // load buf.next again
    | Advancing(idx: nat, v: nat, buf: nat, next: nat)  // CAS tail_buf from buf to next
    | Crashed                                      // dereferenced null

  datatype Consumer =
    | Resting
    | LoadTail                        // load head and tail
    | LoadHeadBuf(h: nat)             // load head_buf and split off the offset
    | LoadLink(buf: nat)              // load next of the finished buffer
    | StoreHeadBuf(next: nat)
    | LoadState(h: nat, buf: nat)
    | SkipHandled(h: nat)
    | ReadValue(h: nat, buf: nat)
    | MarkHandled(h: nat, buf: nat, v: Option<nat>)
    | StoreHead(h: nat, v: Option<nat>)
    | Underflow                       // head - base would be negative

  /** `claims` lists the values in fetch-add order and `taken` what dequeue returned; no step
      depends on either. */
  datatype State = State(
    tail: nat,
    tailBuf: nat,
    headBuf: nat,
    head: nat,
    bufs: seq<Buffer>,
    producers: seq<Producer>,
    consumer: Consumer,
    claims: seq<nat>,
    taken: seq<Option<nat>>)

  datatype Step =
    | Enqueue(p: nat, v: nat)     // start: fetch_add on tail
    | Produce(p: nat)             // continue
    | Dequeue                     // start
    | Consume                     // continue

  function Init(producers: nat): State {
    State(0, 0, 0, 0, [NewBuffer(0)], seq(producers, i => Idle), Resting, [], [])
  }

  ghost predicate Enabled(s: State, st: Step) {
    match st
    case Enqueue(p, _) => p < |s.producers| && s.producers[p].Idle?
    case Produce(p) => p < |s.producers| && !s.producers[p].Idle? && !s.producers[p].Crashed?
    case Dequeue => s.consumer.Resting?
    case Consume => !s.consumer.Resting? && !s.consumer.Underflow?
  }

  /** Buffer and offset references stay inside memory; a violation would be a crash. */
  ghost predicate Addressable(s: State) {
    && s.tailBuf < |s.bufs| && s.headBuf < |s.bufs|
    && forall k :: 0 <= k < |s.bufs| ==> |s.bufs[k].slots| == BUFFER_SIZE
  }

  function Set(s: State, p: nat, pc: Producer): State
    requires p < |s.producers|
  {
    s.(producers := s.producers[p := pc])
  }

  function Claim(s: State, p: nat, v: nat): State
    requires p < |s.producers|
  {
    Set(s.(tail := s.tail + 1, claims := s.claims + [v]), p, AtTail(s.tail, v, -1))
  }

  function LoadTailBuf(s: State, p: nat, idx: nat, v: nat): State
    requires Addressable(s) && p < |s.producers|
  {
    var base := s.bufs[s.tailBuf].base;
    Set(s, p,
        if idx < base then FromHead(idx, v)
        else if idx < base + BUFFER_SIZE then Found(idx, v, s.tailBuf)
        else Linking(s.tailBuf, Retry(idx, v)))
  }

  function WalkOn(s: State, p: nat, idx: nat, v: nat, buf: nat): State
    requires p < |s.producers|
  {
    if buf >= |s.bufs| then Set(s, p, Crashed)
    else if idx < s.bufs[buf].base + BUFFER_SIZE then Set(s, p, Found(idx, v, buf))
    else match s.bufs[buf].next
      case None => Set(s, p, Crashed)
      case Some(next) => Set(s, p, Walking(idx, v, next))
  }

  function WriteSlot(s: State, buf: nat, offset: nat, slot: Slot): State
    requires buf < |s.bufs| && offset < |s.bufs[buf].slots|
  {
    s.(bufs := s.bufs[buf := s.bufs[buf].(slots := s.bufs[buf].slots[offset := slot])])
  }

  ghost predicate Inside(s: State, idx: nat, buf: nat) {
    buf < |s.bufs| && s.bufs[buf].base <= idx < s.bufs[buf].base + |s.bufs[buf].slots|
  }

  function StoreValue(s: State, p: nat, idx: nat, v: nat, buf: nat): State
    requires p < |s.producers| && Inside(s, idx, buf)
  {
    var offset := idx - s.bufs[buf].base;
    Set(WriteSlot(s, buf, offset, s.bufs[buf].slots[offset].(value := Some(v))), p, Stored(idx, v, buf))
  }

  function PublishSlot(s: State, p: nat, idx: nat, buf: nat): State
    requires p < |s.producers| && Inside(s, idx, buf)
  {
    var offset := idx - s.bufs[buf].base;
    Set(WriteSlot(s, buf, offset, s.bufs[buf].slots[offset].(state := SET)), p,
        if offset + 2 == BUFFER_SIZE then Linking(buf, Done) else Idle)
  }

  function Linked(s: State, p: nat, buf: nat, k: AfterLink): State
    requires p < |s.producers|
  {
    Set(s, p, match k case Done => Idle case Retry(idx, v) => LoadNext(idx, v, buf))
  }

  /** The winner's buffer joins the chain; a loser frees its own, which nobody else ever saw. */
  function TryLink(s: State, p: nat, buf: nat, k: AfterLink): State
    requires p < |s.producers| && buf < |s.bufs|
  {
    if s.bufs[buf].next.None?
    then Linked(s.(bufs := s.bufs[buf := s.bufs[buf].(next := Some(|s.bufs|))]
                           + [NewBuffer(s.bufs[buf].base + BUFFER_SIZE)]),
                p, buf, k)
    else Linked(s, p, buf, k)
  }

  function TryAdvance(s: State, p: nat, idx: nat, v: nat, buf: nat, next: nat): State
    requires p < |s.producers| && buf < |s.bufs|
  {
    Set(if s.tailBuf == buf then s.(tailBuf := next) else s, p, AtTail(idx, v, s.bufs[buf].base))
  }

  /** The buffer a producer's next step dereferences is there, and so is the slot it writes. */
  ghost predicate Safe(s: State, pc: Producer) {
    match pc
    case Found(idx, _, buf) => Inside(s, idx, buf)
    case Stored(idx, _, buf) => Inside(s, idx, buf)
    case Linking(buf, _) => buf < |s.bufs|
    case LinkCas(buf, _) => buf < |s.bufs|
    case LoadNext(_, _, buf) => buf < |s.bufs|
    case Advancing(_, _, buf, _) => buf < |s.bufs|
    case _ => true
  }

  function ProducerNext(s: State, p: nat): State
    requires Addressable(s) && p < |s.producers| && Safe(s, s.producers[p])
  {
    match s.producers[p]
    case AtTail(idx, v, _) => LoadTailBuf(s, p, idx, v)
    case FromHead(idx, v) => Set(s, p, Walking(idx, v, s.headBuf))
    case Walking(idx, v, buf) => WalkOn(s, p, idx, v, buf)
    case Found(idx, v, buf) => StoreValue(s, p, idx, v, buf)
    case Stored(idx, v, buf) => PublishSlot(s, p, idx, buf)
    case Linking(buf, k) => if s.bufs[buf].next.Some? then Linked(s, p, buf, k) else Set(s, p, LinkCas(buf, k))
    case LinkCas(buf, k) => TryLink(s, p, buf, k)
    case LoadNext(idx, v, buf) =>
      if s.bufs[buf].next.Some? then Set(s, p, Advancing(idx, v, buf, s.bufs[buf].next.value))
      else Set(s, p, AtTail(idx, v, s.bufs[buf].base))
    case Advancing(idx, v, buf, next) => TryAdvance(s, p, idx, v, buf, next)
    case _ => s
  }

  ghost predicate ConsumerSafe(s: State) {
    match s.consumer
    case LoadLink(buf) => buf < |s.bufs|
    case LoadState(h, buf) => Inside(s, h, buf)
    case ReadValue(h, buf) => Inside(s, h, buf)
    case MarkHandled(h, buf, _) => Inside(s, h, buf)
    case _ => true
  }

  function SlotIn(s: State, h: nat, buf: nat): Slot
    requires Inside(s, h, buf)
  {
    s.bufs[buf].slots[h - s.bufs[buf].base]
  }

  function ConsumerNext(s: State): State
    requires Addressable(s) && ConsumerSafe(s)
  {
    match s.consumer
    case LoadTail => s.(consumer := if s.head >= s.tail then Resting else LoadHeadBuf(s.head))
    case LoadHeadBuf(h) =>
      var base := s.bufs[s.headBuf].base;
      s.(consumer := if h < base then Underflow
                     else if h - base >= BUFFER_SIZE then LoadLink(s.headBuf) else LoadState(h, s.headBuf))
    case LoadLink(buf) =>
      s.(consumer := match s.bufs[buf].next case None => Resting case Some(next) => StoreHeadBuf(next))
    case StoreHeadBuf(next) => s.(headBuf := next, consumer := LoadTail)
    case LoadState(h, buf) =>
      s.(consumer := match SlotIn(s, h, buf).state
         case EMPTY => Resting
         case HANDLED => SkipHandled(h)
         case SET => ReadValue(h, buf))
    case SkipHandled(h) => s.(head := h + 1, consumer := LoadTail)
    case ReadValue(h, buf) => s.(consumer := MarkHandled(h, buf, SlotIn(s, h, buf).value))
    case MarkHandled(h, buf, v) =>
      WriteSlot(s, buf, h - s.bufs[buf].base, SlotIn(s, h, buf).(state := HANDLED)).(consumer := StoreHead(h, v))
    case StoreHead(h, v) => s.(head := h + 1, consumer := Resting, taken := s.taken + [v])
    case _ => s
  }

  ghost predicate StepSafe(s: State, st: Step) {
    && Addressable(s)
    && match st
       case Produce(p) => p < |s.producers| && Safe(s, s.producers[p])
       case Consume => ConsumerSafe(s)
       case _ => true
  }

  function Apply(s: State, st: Step): State
    requires Enabled(s, st) && StepSafe(s, st)
  {
    match st
    case Enqueue(p, v) => Claim(s, p, v)
    case Produce(p) => ProducerNext(s, p)
    case Dequeue => s.(consumer := LoadTail)
    case Consume => ConsumerNext(s)
  }

  // ---------------------------------------------------------------- the invariant

  /** Buffer `k` starts at `k * BUFFER_SIZE` and links to buffer `k + 1`. */
  ghost predicate Chained(s: State) {
    && Addressable(s)
    && forall k :: 0 <= k < |s.bufs| ==>
      && s.bufs[k].base == k * BUFFER_SIZE
      && s.bufs[k].next == if k + 1 < |s.bufs| then Some(k + 1) else None
  }

  /** The slot of a global index; one in a buffer not linked yet counts as untouched. */
  function SlotAt(s: State, i: nat): Slot
  {
    var k := i / BUFFER_SIZE;
    if k < |s.bufs| && i % BUFFER_SIZE < |s.bufs[k].slots| then s.bufs[k].slots[i % BUFFER_SIZE] else Slot(EMPTY, None)
  }

  ghost predicate Holds(pc: Producer, i: nat) {
    match pc
    case AtTail(idx, _, _) => idx == i
    case FromHead(idx, _) => idx == i
    case Walking(idx, _, _) => idx == i
    case Found(idx, _, _) => idx == i
    case Stored(idx, _, _) => idx == i
    case Linking(_, k) => k.Retry? && k.idx == i
    case LinkCas(_, k) => k.Retry? && k.idx == i
    case LoadNext(idx, _, _) => idx == i
    case Advancing(idx, _, _, _) => idx == i
    case _ => false
  }

  ghost predicate ValueIs(pc: Producer, v: nat) {
    match pc
    case AtTail(_, w, _) => w == v
    case FromHead(_, w) => w == v
    case Walking(_, w, _) => w == v
    case Found(_, w, _) => w == v
    case Stored(_, w, _) => w == v
    case Linking(_, k) => k.Retry? ==> k.v == v
    case LinkCas(_, k) => k.Retry? ==> k.v == v
    case LoadNext(_, w, _) => w == v
    case Advancing(_, w, _, _) => w == v
    case _ => true
  }

  /** What a producer on its way to slot `idx` knows about the chain. */
  ghost predicate Located(s: State, pc: Producer) {
    match pc
    case AtTail(idx, _, seen) => seen == -1 || (0 <= seen < s.tailBuf * BUFFER_SIZE && seen + BUFFER_SIZE <= idx)
    case FromHead(idx, _) => idx < |s.bufs| * BUFFER_SIZE
    case Walking(idx, _, buf) => buf * BUFFER_SIZE <= idx < |s.bufs| * BUFFER_SIZE
    case Found(idx, _, buf) => buf < |s.bufs| && buf == idx / BUFFER_SIZE
    case Stored(idx, v, buf) =>
      buf < |s.bufs| && buf == idx / BUFFER_SIZE && SlotAt(s, idx).value == Some(v)
    case Linking(buf, k) => buf < |s.bufs| && (k.Retry? ==> buf <= s.tailBuf && (buf + 1) * BUFFER_SIZE <= k.idx)
    case LinkCas(buf, k) => buf < |s.bufs| && (k.Retry? ==> buf <= s.tailBuf && (buf + 1) * BUFFER_SIZE <= k.idx)
    case LoadNext(idx, _, buf) => buf + 1 < |s.bufs| && buf <= s.tailBuf && (buf + 1) * BUFFER_SIZE <= idx
    case Advancing(idx, _, buf, next) =>
      next == buf + 1 < |s.bufs| && buf <= s.tailBuf && (buf + 1) * BUFFER_SIZE <= idx
    case Crashed => false
    case Idle => true
  }

  /** A claim is its holder's alone, still unfilled, and for the value it was claimed with. */
  ghost predicate HeldOk(s: State, p: nat, i: nat)
    requires p < |s.producers|
  {
    && s.head <= i < s.tail && |s.claims| == s.tail && ValueIs(s.producers[p], s.claims[i])
    && SlotAt(s, i).state == EMPTY
    && forall q :: 0 <= q < |s.producers| && q != p ==> !Holds(s.producers[q], i)
  }

  ghost predicate ProducerOk(s: State, p: nat)
    requires p < |s.producers|
  {
    && Located(s, s.producers[p])
    && forall i: nat :: Holds(s.producers[p], i) ==> HeldOk(s, p, i)
  }

  /** How far slots have been marked handled. */
  function HandledEnd(s: State): nat {
    if s.consumer.StoreHead? then s.head + 1 else s.head
  }

  ghost predicate SlotOk(s: State, i: nat)
    requires |s.claims| == s.tail
  {
    var slot := SlotAt(s, i);
    if i < HandledEnd(s) then slot.state == HANDLED
    else if i < s.tail then
      (slot.state == SET && slot.value == Some(s.claims[i]))
      || (slot.state == EMPTY && exists p :: 0 <= p < |s.producers| && Holds(s.producers[p], i))
    else slot.state == EMPTY
  }

  ghost predicate ConsumerOk(s: State) {
    && s.headBuf * BUFFER_SIZE <= s.head <= HandledEnd(s) <= s.tail
    && HandledEnd(s) <= (s.headBuf + 1) * BUFFER_SIZE
    && match s.consumer
       case LoadHeadBuf(h) => h == s.head < s.tail
       case LoadLink(buf) => buf == s.headBuf && s.head == (buf + 1) * BUFFER_SIZE < s.tail
       case StoreHeadBuf(next) => next == s.headBuf + 1 < |s.bufs| && s.head == next * BUFFER_SIZE
       case LoadState(h, buf) => h == s.head < s.tail && buf == s.headBuf == h / BUFFER_SIZE
       case ReadValue(h, buf) =>
         h == s.head < s.tail && buf == s.headBuf == h / BUFFER_SIZE && SlotAt(s, h).state == SET
       case MarkHandled(h, buf, v) =>
         && h == s.head < s.tail && buf == s.headBuf == h / BUFFER_SIZE && SlotAt(s, h).state == SET
         && |s.claims| == s.tail && v == Some(s.claims[h])
       case StoreHead(h, v) => h == s.head < s.tail && |s.claims| == s.tail && v == Some(s.claims[h])
       case SkipHandled(_) => false
       case Underflow => false
       case _ => true
  }

  /** Dequeued so far: the claimed values at `0..head`, in claim order. */
  ghost predicate Fifo(s: State) {
    && |s.claims| == s.tail
    && |s.taken| == s.head <= s.tail
    && forall i :: 0 <= i < s.head ==> s.taken[i] == Some(s.claims[i])
  }

  ghost predicate Inv(s: State) {
    && Chained(s)
    && Fifo(s)
    && ConsumerOk(s)
    && (forall p :: 0 <= p < |s.producers| ==> ProducerOk(s, p))
    && (forall i: nat :: SlotOk(s, i))
  }
}

/**
 Work stealing with multiplicity over a linked list of fixed-size nodes (src/linked.rs) as a step
 machine: the delivery contract of WsMult without copying or retiring anything.
 */
module Linked {
  import opened Numbers
  import opened Deliveries

  const NODE_SIZE: nat := 64

  datatype Node = Node(cells: seq<Option<nat>>, next: Option<nat>, base: nat)

  function NewNode(base: nat): (n: Node)
    ensures |n.cells| == NODE_SIZE
  {
    Node(seq(NODE_SIZE, i => None), None, base)
  }

  datatype OwnerPc =
    | Idle
    | PutTail(offset: nat)              // store tail
    | PutLink                           // store next of the full node
    | TakeWalk(h: nat, node: nat)       // in load_slot
    | TakeMax(h: nat, p: nat)           // fetch_max
    | Crashed                           // dereferenced null or went out of bounds

  datatype ThiefPc =
    | Resting
    | LoadTail(h: nat)
    | Walk(h: nat)                      // compare with the cached node, load next
    | LoadCell(h: nat)
    | Advance(h: nat, p: nat)           // fetch_max, then return a clone
    | Unlinked                          // the null-`next` branch
    | Underflow                         // head - cur_base would be negative

  /** `node` and `base` are the cached position of the handle. */
  datatype Thief = Thief(pc: ThiefPc, node: nat, base: nat, got: seq<Got>)

  /** `tail` is the owner's private count, `shared` the published one. */
  datatype State = State(
    head: nat,
    shared: nat,
    nodes: seq<Node>,
    tailNode: nat,
    tail: nat,
    owner: OwnerPc,
    took: seq<Got>,
    thieves: seq<Thief>)

  datatype Step =
    | StartPut
    | StartTake
    | OwnerStep
    | StartSteal(u: nat)
    | ThiefStep(u: nat)

  function Init(thieves: nat): State {
    State(0, 0, [NewNode(0)], 0, 0, Idle, [], seq(thieves, i => Thief(Resting, 0, 0, [])))
  }

  // ---------------------------------------------------------------- owner steps

  /** Store the box; the private tail moves on at once. */
  function StoreBox(s: State): State {
    if s.tailNode >= |s.nodes| || s.tail < s.nodes[s.tailNode].base then s.(owner := Crashed)
    else
      var node := s.nodes[s.tailNode];
      var offset := s.tail - node.base;
      if offset >= |node.cells| then s.(owner := Crashed)
      else s.(nodes := s.nodes[s.tailNode := node.(cells := node.cells[offset := Some(s.tail)])],
              tail := s.tail + 1, owner := PutTail(offset))
  }

  function LinkNode(s: State): State
    requires s.tailNode < |s.nodes|
  {
    s.(nodes := s.nodes[s.tailNode := s.nodes[s.tailNode].(next := Some(|s.nodes|))] + [NewNode(s.tail)],
       tailNode := |s.nodes|, owner := Idle)
  }

  function BeginTake(s: State): State {
    if s.head >= s.shared then s else s.(owner := TakeWalk(s.head, 0))
  }

  function TakeOn(s: State, h: nat, node: nat): State {
    if node >= |s.nodes| then s.(owner := Crashed)
    else if h >= s.nodes[node].base + NODE_SIZE then
      s.(owner := match s.nodes[node].next case None => Crashed case Some(n) => TakeWalk(h, n))
    else if h < s.nodes[node].base || h - s.nodes[node].base >= |s.nodes[node].cells| then s.(owner := Crashed)
    else s.(owner := match s.nodes[node].cells[h - s.nodes[node].base] case None => Idle case Some(p) => TakeMax(h, p))
  }

  function OwnerNext(s: State): State
    requires s.owner.PutLink? ==> s.tailNode < |s.nodes|
  {
    match s.owner
    case PutTail(offset) =>
      s.(shared := s.tail, owner := if offset + 1 == NODE_SIZE then PutLink else Idle)
    case PutLink => LinkNode(s)
    case TakeWalk(h, node) => TakeOn(s, h, node)
    case TakeMax(h, p) => s.(head := Max(s.head, h + 1), owner := Idle, took := s.took + [Got(h, p)])
    case _ => s
  }

  // ---------------------------------------------------------------- thief steps

  function SetThief(s: State, u: nat, th: Thief): State
    requires u < |s.thieves|
  {
    s.(thieves := s.thieves[u := th])
  }

  function WalkOn(s: State, th: Thief, h: nat): Thief
    requires th.node < |s.nodes|
  {
    if h < th.base then th.(pc := Underflow)
    else if h < th.base + NODE_SIZE then th.(pc := LoadCell(h))
    else match s.nodes[th.node].next
      case None => th.(pc := Unlinked)
      case Some(n) => th.(node := n, base := th.base + NODE_SIZE)
  }

  function ReadCell(s: State, th: Thief, h: nat): Thief
    requires th.node < |s.nodes| && th.base <= h < th.base + |s.nodes[th.node].cells|
  {
    th.(pc := match s.nodes[th.node].cells[h - th.base] case None => Resting case Some(p) => Advance(h, p))
  }

  ghost predicate ThiefShape(s: State, th: Thief) {
    && th.node < |s.nodes|
    && (th.pc.LoadCell? ==> th.base <= th.pc.h < th.base + |s.nodes[th.node].cells|)
  }

  function ThiefNext(s: State, u: nat): State
    requires u < |s.thieves| && ThiefShape(s, s.thieves[u])
  {
    var th := s.thieves[u];
    match th.pc
    case LoadTail(h) => SetThief(s, u, th.(pc := if h >= s.shared then Resting else Walk(h)))
    case Walk(h) => SetThief(s, u, WalkOn(s, th, h))
    case LoadCell(h) => SetThief(s, u, ReadCell(s, th, h))
    case Advance(h, p) => SetThief(s.(head := Max(s.head, h + 1)), u, th.(pc := Resting, got := th.got + [Got(h, p)]))
    case Unlinked => SetThief(s, u, th.(pc := Resting))
    case _ => s
  }

  ghost predicate Enabled(s: State, st: Step) {
    match st
    case StartPut => s.owner.Idle?
    case StartTake => s.owner.Idle?
    case OwnerStep => !s.owner.Idle? && !s.owner.Crashed?
    case StartSteal(u) => u < |s.thieves| && s.thieves[u].pc.Resting?
    case ThiefStep(u) => u < |s.thieves| && !s.thieves[u].pc.Resting? && !s.thieves[u].pc.Underflow?
  }

  ghost predicate Shape(s: State) {
    s.tailNode < |s.nodes| && forall u :: 0 <= u < |s.thieves| ==> ThiefShape(s, s.thieves[u])
  }

  function Apply(s: State, st: Step): State
    requires Shape(s) && Enabled(s, st)
  {
    match st
    case StartPut => StoreBox(s)
    case StartTake => BeginTake(s)
    case OwnerStep => OwnerNext(s)
    case StartSteal(u) => SetThief(s, u, s.thieves[u].(pc := LoadTail(s.head)))
    case ThiefStep(u) => ThiefNext(s, u)
  }

  // ---------------------------------------------------------------- the invariant

  /** Node `k` holds boxes `k * NODE_SIZE` onwards, as far as they have been put. */
  ghost predicate NodeOk(s: State, k: nat)
    requires k < |s.nodes|
  {
    var node := s.nodes[k];
    && node.base == k * NODE_SIZE && |node.cells| == NODE_SIZE
    && node.next == (if k + 1 < |s.nodes| then Some(k + 1) else None)
    && forall i :: 0 <= i < NODE_SIZE ==> node.cells[i] == if node.base + i < s.tail then Some(node.base + i) else None
  }

  ghost predicate ListOk(s: State) {
    && |s.nodes| == s.tailNode + 1
    && (forall k :: 0 <= k < |s.nodes| ==> NodeOk(s, k))
    && s.tailNode * NODE_SIZE <= s.tail
    && (if s.owner.PutLink? then s.tail == (s.tailNode + 1) * NODE_SIZE
        else if s.owner.PutTail?
        then s.tail == s.tailNode * NODE_SIZE + s.owner.offset + 1 && s.owner.offset < NODE_SIZE
        else s.tail < (s.tailNode + 1) * NODE_SIZE)
    && s.tail == s.shared + (if s.owner.PutTail? then 1 else 0)
    && s.head <= s.shared
  }

  ghost predicate OwnerOk(s: State) {
    match s.owner
    case TakeWalk(h, node) => node * NODE_SIZE <= h < s.shared && h <= s.head && AllBelow(s.took, h)
    case TakeMax(h, p) => p == h < s.shared && h <= s.head && AllBelow(s.took, h)
    case Crashed => false
    case _ => true
  }

  ghost predicate ConsumerOk(s: State, got: seq<Got>) {
    Increasing(got) && AllBelow(got, s.head) && Right(got, s.shared)
  }

  ghost predicate ThiefOk(s: State, th: Thief) {
    && ConsumerOk(s, th.got)
    && th.node < |s.nodes| && th.base == th.node * NODE_SIZE <= s.head
    && match th.pc
       case LoadTail(h) => th.base <= h <= s.head && AllBelow(th.got, h)
       case Walk(h) => th.base <= h <= s.head && h < s.shared && AllBelow(th.got, h)
       case LoadCell(h) => th.base <= h < th.base + NODE_SIZE && h <= s.head && h < s.shared && AllBelow(th.got, h)
       case Advance(h, p) => p == h <= s.head && h < s.shared && AllBelow(th.got, h)
       case Resting => true
       case Unlinked => false
       case Underflow => false
  }

  ghost predicate Delivered(s: State, i: nat) {
    Has(s.took, i) || exists u :: 0 <= u < |s.thieves| && Has(s.thieves[u].got, i)
  }

  ghost predicate Inv(s: State) {
    && ListOk(s)
    && OwnerOk(s) && ConsumerOk(s, s.took)
    && (forall u :: 0 <= u < |s.thieves| ==> ThiefOk(s, s.thieves[u]))
    && (forall i: nat :: i < s.head ==> Delivered(s, i))
  }
}

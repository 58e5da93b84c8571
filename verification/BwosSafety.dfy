/** Every step of the block-based queue keeps its invariant. */
module BwosSafety {
  import opened Numbers
  import opened Bwos

  // ---------------------------------------------------------------- accounting

  ghost predicate SameSlot(s: State, s1: State, k: nat, i: nat) {
    && k < |s.blocks| && k < |s1.blocks| && i < |s.blocks[k].slots| && i < |s1.blocks[k].slots|
    && s1.blocks[k].slots[i] == s.blocks[k].slots[i]
  }

  /** Nothing entered or left the queue. */
  ghost predicate SameLive(s: State, s1: State) {
    && s1.hist.pos == s.hist.pos && s1.hist.out == s.hist.out && s1.hist.lost == s.hist.lost
    && (forall k: nat, i: nat :: Live(s1, k, i) <==> Live(s, k, i))
    && (forall k: nat, i: nat :: Live(s, k, i) ==> SameSlot(s, s1, k, i))
  }

  lemma SameLiveKeeps(s: State, s1: State)
    requires Accounted(s) && SameLive(s, s1)
    ensures Accounted(s1)
  {
    forall k: nat, i: nat | Live(s1, k, i)
      ensures AtHome(s1, k, i)
    {
      assert Live(s, k, i) && AtHome(s, k, i) && SameSlot(s, s1, k, i);
    }
    forall x: nat
      ensures Here(s1, x) <==> Here(s, x)
    {
      if x < |s.hist.pos| && Live(s, s.hist.pos[x].k, s.hist.pos[x].i) {
        assert SameSlot(s, s1, s.hist.pos[x].k, s.hist.pos[x].i);
      }
    }
    forall x: nat
      ensures FateOk(s1, x)
    {
      assert FateOk(s, x);
    }
  }

  /** The value of one live slot was handed out. */
  ghost predicate TookOne(s: State, s1: State, k: nat, i: nat) {
    && Live(s, k, i)
    && s1.hist.pos == s.hist.pos && s1.hist.out == s.hist.out + [s.blocks[k].slots[i]] && s1.hist.lost == s.hist.lost
    && (forall k1: nat, i1: nat :: Live(s1, k1, i1) <==> Live(s, k1, i1) && !(k1 == k && i1 == i))
    && (forall k1: nat, i1: nat :: Live(s, k1, i1) ==> SameSlot(s, s1, k1, i1))
  }

  lemma TookOneKeeps(s: State, s1: State, k: nat, i: nat)
    requires Accounted(s) && TookOne(s, s1, k, i)
    ensures Accounted(s1)
  {
    var v := s.blocks[k].slots[i];
    assert AtHome(s, k, i);
    forall k1: nat, i1: nat | Live(s1, k1, i1)
      ensures AtHome(s1, k1, i1)
    {
      assert Live(s, k1, i1) && AtHome(s, k1, i1) && SameSlot(s, s1, k1, i1);
    }
    forall x: nat
      ensures Here(s1, x) <==> Here(s, x) && x != v
    {
      if x < |s.hist.pos| && Live(s, s.hist.pos[x].k, s.hist.pos[x].i) {
        assert SameSlot(s, s1, s.hist.pos[x].k, s.hist.pos[x].i);
      }
    }
    forall x: nat
      ensures FateOk(s1, x)
    {
      assert FateOk(s, x);
      OccAppend(s.hist.out, v, x);
    }
  }

  /** The next value was published at `(k, i)`. */
  ghost predicate PutOne(s: State, s1: State, k: nat, i: nat) {
    && s1.hist.pos == s.hist.pos + [Place(k, i)] && s1.hist.out == s.hist.out && s1.hist.lost == s.hist.lost
    && (forall k1: nat, i1: nat :: Live(s1, k1, i1) <==> Live(s, k1, i1) || (k1 == k && i1 == i))
    && (forall k1: nat, i1: nat :: Live(s, k1, i1) ==> SameSlot(s, s1, k1, i1))
    && !Live(s, k, i) && Live(s1, k, i) && s1.blocks[k].slots[i] == |s.hist.pos|
    && (forall k1: nat, i1: nat :: Live(s, k1, i1) ==> Precedes(Place(k1, i1), Place(k, i)))
  }

  lemma PutOneKeeps(s: State, s1: State, k: nat, i: nat)
    requires Accounted(s) && PutOne(s, s1, k, i)
    ensures Accounted(s1)
  {
    var n := |s.hist.pos|;
    forall k1: nat, i1: nat | Live(s1, k1, i1)
      ensures AtHome(s1, k1, i1)
    {
      if Live(s, k1, i1) {
        assert AtHome(s, k1, i1) && SameSlot(s, s1, k1, i1);
      }
    }
    forall x: nat
      ensures Here(s1, x) <==> Here(s, x) || x == n
    {
      if x < n {
        assert s1.hist.pos[x] == s.hist.pos[x];
        var p := s.hist.pos[x];
        if Live(s, p.k, p.i) {
          assert SameSlot(s, s1, p.k, p.i);
        }
      }
    }
    forall x: nat
      ensures FateOk(s1, x)
    {
      assert FateOk(s, x);
    }
  }

  /** The next value was published where nothing looks for it. */
  lemma LostOneKeeps(s: State, s1: State, k: nat, i: nat)
    requires Accounted(s)
    requires s1.hist.pos == s.hist.pos + [Place(k, i)] && s1.hist.out == s.hist.out
    requires s1.hist.lost == s.hist.lost + [|s.hist.pos|]
    requires forall k1: nat, i1: nat :: Live(s1, k1, i1) <==> Live(s, k1, i1)
    requires forall k1: nat, i1: nat :: Live(s, k1, i1) ==> SameSlot(s, s1, k1, i1)
    requires !Live(s, k, i)
    ensures Accounted(s1)
  {
    var n := |s.hist.pos|;
    forall k1: nat, i1: nat | Live(s1, k1, i1)
      ensures AtHome(s1, k1, i1)
    {
      assert Live(s, k1, i1) && AtHome(s, k1, i1) && SameSlot(s, s1, k1, i1);
    }
    forall x: nat
      ensures Here(s1, x) <==> Here(s, x)
    {
      if x < n {
        assert s1.hist.pos[x] == s.hist.pos[x];
        var p := s.hist.pos[x];
        if Live(s, p.k, p.i) {
          assert SameSlot(s, s1, p.k, p.i);
        }
      }
    }
    forall x: nat
      ensures FateOk(s1, x)
    {
      assert FateOk(s, x);
      OccAppend(s.hist.lost, n, x);
    }
  }

  // ---------------------------------------------------------------- the chain and the thieves

  lemma {:induction false} ChainSame(blocks: seq<Block>, blocks1: seq<Block>, from: nat, k: nat)
    requires from < |blocks| <= |blocks1|
    requires forall j :: 0 <= j < |blocks| ==> blocks1[j].prev == blocks[j].prev
    ensures OnChain(blocks1, from, k) <==> OnChain(blocks, from, k)
    decreases from
  {
    if blocks[from].prev.Some? && blocks[from].prev.value < from {
      ChainSame(blocks, blocks1, blocks[from].prev.value, k);
    }
  }

  /** What block `k` shows thieves stays good: the element at `stolen` stays until `stolen` moves. */
  ghost predicate TopKept(s: State, s1: State, k: nat) {
    && k < |s.blocks| && k < |s1.blocks|
    && |s1.blocks[k].slots| == |s.blocks[k].slots|
    && s.blocks[k].stolen <= s1.blocks[k].stolen
    && (s1.blocks[k].stolen == s.blocks[k].stolen < Avail(s, k) ==> s1.blocks[k].stolen < Avail(s1, k))
    && (s1.blocks[k].stolen == s.blocks[k].stolen < Avail(s, k) && s.blocks[k].stolen < |s.blocks[k].slots| ==>
          s1.blocks[k].slots[s.blocks[k].stolen] == s.blocks[k].slots[s.blocks[k].stolen])
  }

  lemma ThiefStill(s: State, s1: State, th: Thief)
    requires ThiefShape(s, th) && ThiefOk(s, th) && |s.blocks| <= |s1.blocks|
    requires forall k :: 0 <= k < |s.blocks| ==> TopKept(s, s1, k)
    ensures ThiefShape(s1, th) && ThiefOk(s1, th)
  {
    match th
    case Read(k, _, _) => assert TopKept(s, s1, k);
    case Bottom(k, _, _) => assert TopKept(s, s1, k);
    case Cas(k, _, _, _) => assert TopKept(s, s1, k);
    case _ =>
  }

  lemma ThievesStill(s: State, s1: State)
    requires Shape(s) && ThievesOk(s) && s1.thieves == s.thieves && |s.blocks| <= |s1.blocks|
    requires forall k :: 0 <= k < |s.blocks| ==> TopKept(s, s1, k)
    ensures forall w :: 0 <= w < |s1.thieves| ==> ThiefShape(s1, s1.thieves[w]) && ThiefOk(s1, s1.thieves[w])
  {
    forall w | 0 <= w < |s1.thieves|
      ensures ThiefShape(s1, s1.thieves[w]) && ThiefOk(s1, s1.thieves[w])
    {
      ThiefStill(s, s1, s.thieves[w]);
    }
  }

  /** Only block `k` changed, and not its links. */
  ghost predicate OnlyBlock(s: State, s1: State, k: nat) {
    && s1.kind == s.kind && s1.size == s.size && s1.owner == s.owner
    && |s1.blocks| == |s.blocks| && k < |s.blocks|
    && (forall j :: 0 <= j < |s.blocks| && j != k ==> s1.blocks[j] == s.blocks[j])
    && s1.blocks[k].prev == s.blocks[k].prev && s1.blocks[k].next == s.blocks[k].next
  }

  lemma BlocksStill(s: State, s1: State, k: nat)
    requires Shape(s) && OnlyBlock(s, s1, k) && TopKept(s, s1, k)
    requires s1.blocks[k].committed <= s.size && s1.blocks[k].stolen <= s.size
    ensures forall j :: 0 <= j < |s1.blocks| ==> BlockShape(s1, j)
  {
    forall j | 0 <= j < |s1.blocks|
      ensures BlockShape(s1, j)
    {
      assert BlockShape(s, j);
    }
  }

  lemma ChainStill(s: State, s1: State, k: nat)
    requires s.owner < |s.blocks| && OnlyBlock(s, s1, k) && TopKept(s, s1, k) && Drained(s) && Linked(s)
    requires k == s.owner || s1.blocks[k].committed == s.blocks[k].committed
    ensures Drained(s1) && Linked(s1)
  {
    forall j | 0 <= j < |s1.blocks|
      ensures OnChain(s1.blocks, s1.owner, j) <==> OnChain(s.blocks, s.owner, j)
    {
      ChainSame(s.blocks, s1.blocks, s.owner, j);
    }
    ChainSame(s.blocks, s1.blocks, s.owner, s.owner);
  }

  /** An owner step that touches at most the owner's block. */
  ghost predicate OwnerFrame(s: State, s1: State) {
    OnlyBlock(s, s1, s.owner) && s1.thieves == s.thieves && s1.produced == s.produced
  }

  lemma OwnerFrameKeeps(s: State, s1: State)
    requires Shape(s) && ThievesOk(s) && Drained(s) && Linked(s)
    requires OwnerFrame(s, s1) && TopKept(s, s1, s.owner)
    requires s1.blocks[s.owner].committed <= s.size && s1.blocks[s.owner].stolen <= s.size
    requires BottomShape(s1)
    ensures Shape(s1) && ThievesOk(s1) && Drained(s1) && Linked(s1)
  {
    BlocksStill(s, s1, s.owner);
    ChainStill(s, s1, s.owner);
    forall k | 0 <= k < |s.blocks|
      ensures TopKept(s, s1, k)
    {
    }
    ThievesStill(s, s1);
  }

  // ---------------------------------------------------------------- put

  lemma PutInPlaceFrame(s: State)
    requires Structure(s) && s.pc.Idle? && s.blocks[s.owner].committed != s.size
    ensures Structure(BeginPut(s))
  {
    OwnerFrameKeeps(s, BeginPut(s));
  }

  lemma PutInPlaceLive(s: State)
    requires Structure(s) && s.pc.Idle? && s.blocks[s.owner].committed != s.size
    ensures SameLive(s, BeginPut(s))
  {
  }

  lemma PutInPlaceKeeps(s: State)
    requires Inv(s) && s.pc.Idle? && s.blocks[s.owner].committed != s.size
    ensures Inv(BeginPut(s))
  {
    PutInPlaceFrame(s);
    PutInPlaceLive(s);
    SameLiveKeeps(s, BeginPut(s));
  }

  lemma PutFullKeeps(s: State)
    requires Inv(s) && s.pc.Idle? && s.kind.Fixed? && s.blocks[s.owner].committed == s.size && s.owner + 1 == |s.blocks|
    ensures Inv(BeginPut(s))
  {
  }

  /** Advancing to the next fixed block. */
  lemma AdvanceFrame(s: State)
    requires Structure(s) && s.pc.Idle? && s.kind.Fixed?
    requires s.blocks[s.owner].committed == s.size && s.owner + 1 < |s.blocks|
    ensures Structure(BeginPut(s))
  {
    var s1 := BeginPut(s);
    assert BlockShape(s, s.owner + 1);
    AdvanceChain(s, s1);
    forall k | 0 <= k < |s.blocks|
      ensures TopKept(s, s1, k) && BlockShape(s1, k)
    {
      assert BlockShape(s, k);
    }
    ThievesStill(s, s1);
  }

  lemma AdvanceKeeps(s: State)
    requires Inv(s) && s.pc.Idle? && s.kind.Fixed? && s.blocks[s.owner].committed == s.size && s.owner + 1 < |s.blocks|
    ensures Inv(BeginPut(s))
  {
    AdvanceFrame(s);
    AdvanceLive(s);
    SameLiveKeeps(s, BeginPut(s));
  }

  lemma AdvanceLive(s: State)
    requires Shape(s) && s.pc.Idle? && s.kind.Fixed?
    requires s.blocks[s.owner].committed == s.size && s.owner + 1 < |s.blocks|
    ensures SameLive(s, BeginPut(s))
  {
  }

  lemma ChainUp(blocks: seq<Block>, from: nat, k: nat)
    requires OnChain(blocks, from, k)
    ensures k <= from
    decreases from
  {
  }

  lemma AdvanceChain(s: State, s1: State)
    requires s.owner + 1 < |s.blocks| && s1.blocks == s.blocks && s1.owner == s.owner + 1
    requires BlockShape(s, s.owner + 1) && BlockShape(s, s.owner) && s.kind.Fixed? && Drained(s) && Linked(s)
    ensures Drained(s1) && Linked(s1) && s.blocks[s1.owner].committed <= s.blocks[s1.owner].stolen
  {
    forall k | 0 <= k < |s.blocks|
      ensures OnChain(s1.blocks, s1.owner, k) <==> k == s1.owner || OnChain(s.blocks, s.owner, k)
    {
    }
    if OnChain(s.blocks, s.owner, s1.owner) {
      ChainUp(s.blocks, s.owner, s1.owner);
    }
  }

  /** Linking a fresh block. */
  lemma LinkFreshChain(s: State)
    requires Shape(s) && Drained(s) && Linked(s)
    ensures Drained(LinkFresh(s)) && Linked(LinkFresh(s))
  {
    var s1 := LinkFresh(s);
    forall k: nat
      ensures OnChain(s1.blocks, s.owner, k) <==> OnChain(s.blocks, s.owner, k)
      ensures OnChain(s1.blocks, s1.owner, k) <==> k == s1.owner || OnChain(s.blocks, s.owner, k)
    {
      ChainSame(s.blocks, s1.blocks, s.owner, k);
    }
    forall k | 0 < k < |s1.blocks| && OnChain(s1.blocks, s1.owner, k)
      ensures s1.blocks[k].prev.Some? && s1.blocks[k].prev.value < |s1.blocks|
      ensures s1.blocks[s1.blocks[k].prev.value].next == Some(k)
    {
      if k < |s.blocks| {
        ChainUp(s.blocks, s.owner, k);
        assert BlockShape(s, k);
      }
    }
  }

  lemma LinkFreshFrame(s: State)
    requires Structure(s) && s.pc.Idle? && s.kind.Growable?
    ensures Structure(LinkFresh(s))
  {
    var s1 := LinkFresh(s);
    LinkFreshChain(s);
    forall k | 0 <= k < |s.blocks|
      ensures TopKept(s, s1, k)
    {
    }
    forall k | 0 <= k < |s1.blocks|
      ensures BlockShape(s1, k)
    {
      if k < |s.blocks| {
        assert BlockShape(s, k);
      }
    }
    ThievesStill(s, s1);
  }

  lemma LinkFreshKeeps(s: State)
    requires Inv(s) && s.pc.Idle? && s.kind.Growable?
    ensures Inv(LinkFresh(s))
  {
    LinkFreshFrame(s);
    SameLiveKeeps(s, LinkFresh(s));
  }

  lemma StoreProducedFrame(s: State)
    requires Structure(s) && s.pc.PutProduced?
    ensures Structure(OwnerNext(s))
  {
    var s1 := OwnerNext(s);
    OwnerFrameKeeps(s, s.(pc := PutWrite(0)));
    forall k | 0 <= k < |s1.blocks|
      ensures BlockShape(s1, k)
    {
      assert BlockShape(s, k);
    }
    ThievesStill(s, s1);
  }

  lemma StoreProducedKeeps(s: State)
    requires Inv(s) && s.pc.PutProduced?
    ensures Inv(OwnerNext(s))
  {
    StoreProducedFrame(s);
    SameLiveKeeps(s, OwnerNext(s));
  }

  lemma WriteSlotFrame(s: State, bottom: nat)
    requires Structure(s) && s.pc == PutWrite(bottom)
    ensures Structure(WriteSlot(s, bottom))
  {
    OwnerFrameKeeps(s, WriteSlot(s, bottom));
  }

  lemma WriteSlotLive(s: State, bottom: nat)
    requires Structure(s) && s.pc == PutWrite(bottom)
    ensures SameLive(s, WriteSlot(s, bottom))
  {
  }

  lemma WriteSlotKeeps(s: State, bottom: nat)
    requires Inv(s) && s.pc == PutWrite(bottom)
    ensures Inv(WriteSlot(s, bottom))
  {
    WriteSlotFrame(s, bottom);
    WriteSlotLive(s, bottom);
    SameLiveKeeps(s, WriteSlot(s, bottom));
  }

  lemma LiveOnChain(s: State, k: nat, i: nat)
    requires Drained(s) && s.owner < |s.blocks| && Live(s, k, i)
    ensures k <= s.owner
  {
    if k != s.owner {
      assert OnChain(s.blocks, s.owner, k);
      ChainUp(s.blocks, s.owner, k);
    }
  }

  lemma PublishFrame(s: State, bottom: nat)
    requires Structure(s) && s.pc == PutPublish(bottom)
    ensures Structure(Publish(s, bottom))
  {
    OwnerFrameKeeps(s, Publish(s, bottom));
  }

  lemma PublishAccounts(s: State, bottom: nat)
    requires Inv(s) && s.pc == PutPublish(bottom)
    ensures Accounted(Publish(s, bottom))
  {
    var s1 := Publish(s, bottom);
    if bottom < s.blocks[s.owner].stolen {
      LostOneKeeps(s, s1, s.owner, bottom);
    } else {
      forall k: nat, i: nat | Live(s, k, i)
        ensures Precedes(Place(k, i), Place(s.owner, bottom))
      {
        LiveOnChain(s, k, i);
      }
      PutOneKeeps(s, s1, s.owner, bottom);
    }
  }

  lemma PublishKeeps(s: State, bottom: nat)
    requires Inv(s) && s.pc == PutPublish(bottom)
    ensures Inv(Publish(s, bottom))
  {
    PublishFrame(s, bottom);
    PublishAccounts(s, bottom);
  }

  // ---------------------------------------------------------------- pop

  lemma StartPopFrame(s: State)
    requires Structure(s) && s.pc.Idle?
    ensures Structure(s.(pc := PopLook))
  {
    OwnerFrameKeeps(s, s.(pc := PopLook));
  }

  lemma StartPopLive(s: State)
    requires Structure(s) && s.pc.Idle?
    ensures SameLive(s, s.(pc := PopLook))
  {
  }

  lemma StartPopKeeps(s: State)
    requires Inv(s) && s.pc.Idle?
    ensures Inv(s.(pc := PopLook))
  {
    StartPopFrame(s);
    StartPopLive(s);
    SameLiveKeeps(s, s.(pc := PopLook));
  }

  lemma LookFrame(s: State)
    requires Structure(s) && s.pc.PopLook?
    requires s.blocks[s.owner].committed > s.blocks[s.owner].stolen || s.blocks[s.owner].prev.None?
    ensures Structure(LookAtBlock(s))
  {
    OwnerFrameKeeps(s, LookAtBlock(s));
  }

  lemma LookLive(s: State)
    requires Structure(s) && s.pc.PopLook?
    requires s.blocks[s.owner].committed > s.blocks[s.owner].stolen || s.blocks[s.owner].prev.None?
    ensures SameLive(s, LookAtBlock(s))
  {
  }

  lemma LookKeeps(s: State)
    requires Inv(s) && s.pc.PopLook?
    requires s.blocks[s.owner].committed > s.blocks[s.owner].stolen || s.blocks[s.owner].prev.None?
    ensures Inv(LookAtBlock(s))
  {
    LookFrame(s);
    LookLive(s);
    SameLiveKeeps(s, LookAtBlock(s));
  }

  /** Stepping back leaves a drained block behind. */
  lemma StepBackChain(s: State, s1: State)
    requires s.owner < |s.blocks| && BlockShape(s, s.owner) && Drained(s) && Linked(s)
    requires s.blocks[s.owner].prev.Some? && s1.blocks == s.blocks && s1.owner == s.blocks[s.owner].prev.value
    requires s.blocks[s.owner].committed <= s.blocks[s.owner].stolen
    ensures Drained(s1) && Linked(s1)
  {
    forall k | 0 <= k < |s.blocks|
      ensures OnChain(s.blocks, s.owner, k) <==> k == s.owner || OnChain(s.blocks, s1.owner, k)
    {
    }
  }

  lemma StepBackKeeps(s: State)
    requires Inv(s) && s.pc.PopLook?
    requires s.blocks[s.owner].committed <= s.blocks[s.owner].stolen && s.blocks[s.owner].prev.Some?
    ensures Inv(LookAtBlock(s))
  {
    var s1 := LookAtBlock(s);
    StepBackChain(s, s1);
    forall k | 0 <= k < |s.blocks|
      ensures TopKept(s, s1, k)
    {
    }
    forall k | 0 <= k < |s1.blocks|
      ensures BlockShape(s1, k)
    {
      assert BlockShape(s, k);
    }
    ThievesStill(s, s1);
    SameLiveKeeps(s, s1);
  }

  lemma LowerFrame(s: State)
    requires Structure(s) && (s.pc.PopLower? || s.pc.PopTop?)
    ensures Structure(OwnerNext(s))
  {
    OwnerFrameKeeps(s, OwnerNext(s));
  }

  lemma LowerLive(s: State)
    requires Structure(s) && (s.pc.PopLower? || s.pc.PopTop?)
    ensures SameLive(s, OwnerNext(s))
  {
  }

  lemma LowerKeeps(s: State)
    requires Inv(s) && (s.pc.PopLower? || s.pc.PopTop?)
    ensures Inv(OwnerNext(s))
  {
    LowerFrame(s);
    LowerLive(s);
    SameLiveKeeps(s, OwnerNext(s));
  }

  lemma FixFrame(s: State)
    requires Structure(s) && (s.pc.PopFix? || s.pc.PopRestore? || s.pc.LastRead?)
    ensures Structure(OwnerNext(s))
  {
    OwnerFrameKeeps(s, OwnerNext(s));
  }

  lemma FixLive(s: State)
    requires Structure(s) && (s.pc.PopFix? || s.pc.PopRestore? || s.pc.LastRead?)
    ensures SameLive(s, OwnerNext(s))
  {
  }

  lemma FixKeeps(s: State)
    requires Inv(s) && (s.pc.PopFix? || s.pc.PopRestore? || s.pc.LastRead?)
    ensures Inv(OwnerNext(s))
  {
    FixFrame(s);
    FixLive(s);
    SameLiveKeeps(s, OwnerNext(s));
  }

  lemma TakeFrame(s: State, b: nat)
    requires Structure(s) && s.pc == TakeRead(b)
    ensures Structure(OwnerNext(s)) && TookOne(s, OwnerNext(s), s.owner, b)
  {
    OwnerFrameKeeps(s, OwnerNext(s));
  }

  lemma TakeKeeps(s: State, b: nat)
    requires Inv(s) && s.pc == TakeRead(b)
    ensures Inv(OwnerNext(s))
  {
    TakeFrame(s, b);
    TookOneKeeps(s, OwnerNext(s), s.owner, b);
  }

  lemma LastCasFrame(s: State, b: nat, v: nat)
    requires Structure(s) && s.pc == LastCas(b, v)
    ensures Structure(OwnerNext(s))
  {
    OwnerFrameKeeps(s, OwnerNext(s));
  }

  lemma LastCasAccounts(s: State, b: nat, v: nat)
    requires Inv(s) && s.pc == LastCas(b, v)
    ensures Accounted(OwnerNext(s))
  {
    var s1 := OwnerNext(s);
    if s.blocks[s.owner].stolen == b {
      TookOneKeeps(s, s1, s.owner, b);
    } else {
      SameLiveKeeps(s, s1);
    }
  }

  lemma LastCasKeeps(s: State, b: nat, v: nat)
    requires Inv(s) && s.pc == LastCas(b, v)
    ensures Inv(OwnerNext(s))
  {
    LastCasFrame(s, b, v);
    LastCasAccounts(s, b, v);
  }

  // ---------------------------------------------------------------- thieves

  lemma ThiefMoves(s: State, w: nat, th: Thief)
    requires Inv(s) && w < |s.thieves| && ThiefShape(s, th) && ThiefOk(s, th)
    ensures Inv(SetThief(s, w, th))
  {
    ThiefFrame(s, w, th);
    SameLiveKeeps(s, SetThief(s, w, th));
  }

  lemma ThiefFrame(s: State, w: nat, th: Thief)
    requires Structure(s) && w < |s.thieves| && ThiefShape(s, th) && ThiefOk(s, th)
    ensures Structure(SetThief(s, w, th))
  {
    var s1 := SetThief(s, w, th);
    forall k | 0 <= k < |s1.blocks|
      ensures BlockShape(s1, k)
    {
      assert BlockShape(s, k);
    }
    forall u | 0 <= u < |s1.thieves|
      ensures ThiefShape(s1, s1.thieves[u]) && ThiefOk(s1, s1.thieves[u])
    {
      assert ThiefShape(s, s.thieves[u]) && ThiefOk(s, s.thieves[u]);
    }
  }

  lemma ThiefSees(s: State, w: nat)
    requires Shape(s) && ThievesOk(s) && w < |s.thieves| && !s.thieves[w].Away? && !s.thieves[w].Cas?
    ensures ThiefNext(s, w) == SetThief(s, w, ThiefNext(s, w).thieves[w])
    ensures ThiefShape(s, ThiefNext(s, w).thieves[w]) && ThiefOk(s, ThiefNext(s, w).thieves[w])
  {
    var th := s.thieves[w];
    assert ThiefShape(s, th) && ThiefOk(s, th);
    assert BlockShape(s, th.k);
  }

  lemma ThiefLooksKeeps(s: State, w: nat)
    requires Inv(s) && w < |s.thieves| && !s.thieves[w].Away? && !s.thieves[w].Cas?
    ensures Inv(ThiefNext(s, w))
  {
    ThiefSees(s, w);
    ThiefMoves(s, w, ThiefNext(s, w).thieves[w]);
  }

  /** State after a thief's winning CAS, as far as the queue goes. */
  function Won(s: State, k: nat, v: nat): State
    requires k < |s.blocks|
  {
    HandOut(SetBlock(s, k, s.blocks[k].(stolen := s.blocks[k].stolen + 1)), v)
  }

  ghost predicate CanWin(s: State, k: nat, v: nat)
    requires k < |s.blocks|
  {
    var t := s.blocks[k].stolen;
    t < Avail(s, k) && t < |s.blocks[k].slots| && s.blocks[k].slots[t] == v
  }

  lemma WinFrame(s: State, k: nat, v: nat)
    requires Structure(s) && k < |s.blocks| && CanWin(s, k, v)
    ensures Shape(Won(s, k, v)) && ThievesOk(Won(s, k, v)) && Drained(Won(s, k, v)) && Linked(Won(s, k, v))
  {
    var s1 := Won(s, k, v);
    assert BlockShape(s, k);
    forall j | 0 <= j < |s.blocks|
      ensures TopKept(s, s1, j)
    {
    }
    BlocksStill(s, s1, k);
    ChainStill(s, s1, k);
    ThievesStill(s, s1);
  }

  lemma WinOwner(s: State, k: nat, v: nat)
    requires Structure(s) && k < |s.blocks| && CanWin(s, k, v)
    requires Shape(Won(s, k, v))
    ensures OwnerOk(Won(s, k, v)) && ProducedOk(Won(s, k, v)) && CleanOk(Won(s, k, v)) && DirtyOk(Won(s, k, v))
  {
  }

  lemma WinTakes(s: State, k: nat, v: nat)
    requires k < |s.blocks| && CanWin(s, k, v)
    ensures TookOne(s, Won(s, k, v), k, s.blocks[k].stolen)
  {
  }

  lemma ThiefWins(s: State, k: nat, v: nat)
    requires Inv(s) && k < |s.blocks| && CanWin(s, k, v)
    ensures Inv(Won(s, k, v))
  {
    WinFrame(s, k, v);
    WinOwner(s, k, v);
    WinTakes(s, k, v);
    TookOneKeeps(s, Won(s, k, v), k, s.blocks[k].stolen);
  }

  lemma ThiefCasWins(s: State, w: nat, k: nat, end: nat, t: nat, v: nat)
    requires Inv(s) && w < |s.thieves| && s.thieves[w] == Cas(k, end, t, v)
    requires k < |s.blocks| && s.blocks[k].stolen == t
    ensures Inv(RaceForTop(s, w, k, t, v))
  {
    assert ThiefShape(s, s.thieves[w]) && ThiefOk(s, s.thieves[w]);
    ThiefWins(s, k, v);
    var away := Away(if s.kind.Growable? then k else 0);
    var s1 := Won(s, k, v);
    assert RaceForTop(s, w, k, t, v) == SetThief(s1, w, away);
    ThiefMoves(s1, w, away);
  }

  lemma ThiefCasLoses(s: State, w: nat, k: nat, end: nat, t: nat, v: nat)
    requires Inv(s) && w < |s.thieves| && s.thieves[w] == Cas(k, end, t, v)
    requires k < |s.blocks| && s.blocks[k].stolen != t
    ensures Inv(RaceForTop(s, w, k, t, v))
  {
    ThiefMoves(s, w, Away(if s.kind.Growable? then k else 0));
  }

  lemma ThiefCasKeeps(s: State, w: nat)
    requires Inv(s) && w < |s.thieves| && s.thieves[w].Cas?
    ensures Inv(ThiefNext(s, w))
  {
    var Cas(k, end, t, v) := s.thieves[w];
    assert ThiefShape(s, s.thieves[w]);
    if s.blocks[k].stolen == t {
      ThiefCasWins(s, w, k, end, t, v);
    } else {
      ThiefCasLoses(s, w, k, end, t, v);
    }
  }

  // ---------------------------------------------------------------- all steps

  lemma InitInv(s: State)
    requires Init(s)
    ensures Inv(s)
  {
    forall k | 0 <= k < |s.blocks|
      ensures BlockShape(s, k)
    {
    }
    assert OnChain(s.blocks, 0, 0);
  }

  lemma BeginPutKeeps(s: State)
    requires Inv(s) && s.pc.Idle?
    ensures Inv(BeginPut(s))
  {
    if s.blocks[s.owner].committed != s.size {
      PutInPlaceKeeps(s);
    } else if s.kind.Growable? {
      LinkFreshKeeps(s);
    } else if s.owner + 1 == |s.blocks| {
      PutFullKeeps(s);
    } else {
      AdvanceKeeps(s);
    }
  }

  lemma OwnerStepKeeps(s: State)
    requires Inv(s) && !s.pc.Idle?
    ensures Inv(OwnerNext(s))
  {
    match s.pc
    case PutProduced => StoreProducedKeeps(s);
    case PutWrite(bottom) => WriteSlotKeeps(s, bottom);
    case PutPublish(bottom) => PublishKeeps(s, bottom);
    case PopLook =>
      if s.blocks[s.owner].committed <= s.blocks[s.owner].stolen && s.blocks[s.owner].prev.Some? {
        StepBackKeeps(s);
      } else {
        LookKeeps(s);
      }
    case PopLower(_) => LowerKeeps(s);
    case PopTop(_) => LowerKeeps(s);
    case TakeRead(b) => TakeKeeps(s, b);
    case LastCas(b, v) => LastCasKeeps(s, b, v);
    case _ => FixKeeps(s);
  }

  lemma StepKeeps(s: State, st: Step)
    requires Inv(s) && Enabled(s, st)
    ensures Inv(Apply(s, st))
  {
    match st
    case StartPut => BeginPutKeeps(s);
    case StartPop => StartPopKeeps(s);
    case OwnerStep => OwnerStepKeeps(s);
    case StartSteal(w) =>
      assert ThiefShape(s, s.thieves[w]);
      ThiefMoves(s, w, Look(s.thieves[w].cursor, s.produced));
    case ThiefStep(w) => if s.thieves[w].Cas? { ThiefCasKeeps(s, w); } else { ThiefLooksKeeps(s, w); }
    case NewHandle(w) => ThiefMoves(s, w, Away(0));
  }
}

/** Every step of the queue with multiplicity keeps its invariant. */
module WsMultSafety {
  import opened Numbers
  import opened Deliveries
  import opened WsMult

  // ---------------------------------------------------------------- frames

  /** Arrays are only added, and cells and flags only filled in. */
  ghost predicate MemoryGrows(s: State, s1: State) {
    && |s.arrays| <= |s1.arrays| && s.boxes <= s1.boxes && s.maxHead <= s1.maxHead && s.bounded == s1.bounded
    && forall a :: 0 <= a < |s.arrays| ==> Fills(s.arrays[a], s1.arrays[a])
  }

  ghost predicate Fills(t: Tasks, t1: Tasks) {
    && |t1.cells| == |t.cells| && |t1.claimed| == |t.claimed|
    && (forall i :: 0 <= i < |t.cells| && t.cells[i] == Some(i) ==> t1.cells[i] == Some(i))
  }

  lemma ThiefStill(s: State, s1: State, th: Thief)
    requires ThiefOk(s, th) && MemoryGrows(s, s1)
    ensures ThiefOk(s1, th)
  {
    if th.pc.LoadCell? {
      assert Fills(s.arrays[th.pc.a], s1.arrays[th.pc.a]);
    }
    if th.pc.ClaimFlag? {
      assert Fills(s.arrays[th.pc.a], s1.arrays[th.pc.a]);
    }
  }

  /** All thieves but `u` are as before. */
  ghost predicate Others(s: State, s1: State, u: nat) {
    && u < |s.thieves| == |s1.thieves|
    && forall v :: 0 <= v < |s.thieves| && v != u ==> s1.thieves[v] == s.thieves[v]
  }

  lemma ThievesStill(s: State, s1: State, u: nat)
    requires ThievesOk(s) && MemoryGrows(s, s1) && Others(s, s1, u) && ThiefOk(s1, s1.thieves[u])
    ensures ThievesOk(s1)
  {
    forall v | 0 <= v < |s1.thieves|
      ensures ThiefOk(s1, s1.thieves[v])
    {
      if v != u {
        ThiefStill(s, s1, s.thieves[v]);
      }
    }
  }

  lemma AllThievesStill(s: State, s1: State)
    requires ThievesOk(s) && MemoryGrows(s, s1) && s1.thieves == s.thieves
    ensures ThievesOk(s1)
  {
    forall v | 0 <= v < |s1.thieves|
      ensures ThiefOk(s1, s1.thieves[v])
    {
      ThiefStill(s, s1, s.thieves[v]);
    }
  }

  // ---------------------------------------------------------------- deliveries

  ghost predicate Accounted(s: State, i: nat) {
    Delivered(s, i) || TakenBySome(s, i)
  }

  /** Thief `u` still has all it had. */
  ghost predicate Kept(th: Thief, th1: Thief) {
    forall i: nat :: (Has(th.got, i) ==> Has(th1.got, i)) && (Takes(th, i) ==> Takes(th1, i))
  }

  lemma AccountedStill(s: State, s1: State, u: nat, i: nat)
    requires Others(s, s1, u) && s1.took == s.took && Kept(s.thieves[u], s1.thieves[u]) && Accounted(s, i)
    ensures Accounted(s1, i)
  {
    if TakenBySome(s, i) {
      var v :| 0 <= v < |s.thieves| && Takes(s.thieves[v], i);
      assert Takes(s1.thieves[v], i);
    } else if !Has(s.took, i) {
      var v :| 0 <= v < |s.thieves| && Has(s.thieves[v].got, i);
      assert Has(s1.thieves[v].got, i);
    }
  }

  /** `head` moved at most past `h`, and `h` is accounted for. */
  lemma CoveredStill(s: State, s1: State, u: nat, h: nat)
    requires Covered(s) && Others(s, s1, u) && s1.took == s.took && Kept(s.thieves[u], s1.thieves[u])
    requires h <= s.maxHead && s1.maxHead <= Max(s.maxHead, h + 1)
    requires s1.maxHead > s.maxHead ==> Accounted(s1, h)
    ensures Covered(s1)
  {
    forall i: nat | i < s1.maxHead
      ensures Delivered(s1, i) || TakenBySome(s1, i)
    {
      if i < s.maxHead {
        assert Accounted(s, i);
        AccountedStill(s, s1, u, i);
      }
    }
  }

  ghost predicate SameTakes(th: Thief, th1: Thief) {
    forall i: nat :: Takes(th1, i) <==> Takes(th, i)
  }

  /** Claims stay as they are. */
  lemma ClaimsStill(s: State, s1: State, u: nat)
    requires ClaimsOk(s) && Others(s, s1, u) && SameTakes(s.thieves[u], s1.thieves[u])
    requires forall i: nat :: Claimed(s1, i) <==> Claimed(s, i)
    requires s1.thieves[u].pc.Nudge? ==> Claimed(s1, s1.thieves[u].pc.h)
    requires OnceOnly(s1.thieves[u])
    ensures ClaimsOk(s1)
  {
    forall i: nat | Claimed(s1, i)
      ensures TakenBySome(s1, i)
    {
      assert TakenBySome(s, i);
      var v :| 0 <= v < |s.thieves| && Takes(s.thieves[v], i);
      assert Takes(s1.thieves[v], i);
    }
  }

  lemma OrderStill(s: State, s1: State, u: nat)
    requires OrderOk(s) && Others(s, s1, u) && s1.took == s.took && s1.owner == s.owner
    requires WeakOk(s1.thieves[u]) && (s1.thieves[u].kind.Weak? <==> s.thieves[u].kind.Weak?)
    requires s.back ==> s1.back
    requires s1.back ==> s.back || s.thieves[u].kind.Weak?
    requires !s1.back ==> s.head <= s1.head == s1.maxHead && StrongOk(s1, s1.thieves[u])
    ensures OrderOk(s1)
  {
    assert NoWeak(s1) ==> NoWeak(s) by {
      assert forall v :: 0 <= v < |s.thieves| ==> (s1.thieves[v].kind.Weak? <==> s.thieves[v].kind.Weak?);
    }
    if !s1.back {
      forall v | 0 <= v < |s1.thieves|
        ensures StrongOk(s1, s1.thieves[v])
      {
        assert StrongOk(s, s.thieves[v]);
      }
    }
  }

  // ---------------------------------------------------------------- thief steps

  /** A step that changes only the `pc` (and private maximum) of thief `u`. */
  lemma QuietStep(s: State, u: nat, th: Thief)
    requires Inv(s) && u < |s.thieves| && (th.kind.Weak? <==> s.thieves[u].kind.Weak?)
    requires th.got == s.thieves[u].got && th.won == s.thieves[u].won
    requires ThiefOk(s, th) && !th.pc.Advance? && !s.thieves[u].pc.Advance?
    requires th.pc.Nudge? ==> Claimed(s, th.pc.h)
    requires WeakOk(th) && (!s.back ==> StrongOk(s, th))
    ensures Inv(SetThief(s, u, th))
  {
    var s1 := SetThief(s, u, th);
    ThievesStill(s, s1, u);
    CoveredStill(s, s1, u, s.maxHead);
    ClaimsStill(s, s1, u);
    OrderStill(s, s1, u);
  }

  lemma BeginStealKeeps(s: State, u: nat, kind: Kind)
    requires Inv(s) && Enabled(s, StartSteal(u, kind))
    ensures Inv(BeginSteal(s, u, kind))
  {
    assert ThiefOk(s, s.thieves[u]) && WeakOk(s.thieves[u]);
    QuietStep(s, u, BeginSteal(s, u, kind).thieves[u]);
  }

  lemma LoadArrayKeeps(s: State, u: nat)
    requires Inv(s) && u < |s.thieves| && s.thieves[u].pc.LoadArray?
    ensures Inv(ThiefNext(s, u))
  {
    var th := s.thieves[u];
    assert ThiefOk(s, th) && WeakOk(th);
    assert At(th.pc, th.pc.h);
    QuietStep(s, u, ThiefNext(s, u).thieves[u]);
  }

  lemma ReadCellKeeps(s: State, u: nat)
    requires Inv(s) && u < |s.thieves| && s.thieves[u].pc.LoadCell?
    ensures Inv(ThiefNext(s, u))
  {
    var th := s.thieves[u];
    assert ThiefOk(s, th) && WeakOk(th);
    assert At(th.pc, th.pc.h);
    if ThiefNext(s, u).thieves[u].pc.Advance? {
      StartAdvance(s, u);
    } else {
      assert CellsOk(s.arrays[th.pc.a], s.boxes);
      QuietStep(s, u, ThiefNext(s, u).thieves[u]);
    }
  }

  /** A strong thief that found a task goes on to advance `head`; it takes nothing exclusively. */
  lemma StartAdvance(s: State, u: nat)
    requires Inv(s) && u < |s.thieves| && s.thieves[u].pc.LoadCell? && ThiefShape(s, s.thieves[u])
    requires ThiefNext(s, u).thieves[u].pc.Advance?
    ensures Inv(ThiefNext(s, u))
  {
    var s1 := ThiefNext(s, u);
    var th := s.thieves[u];
    assert ThiefOk(s, th) && At(th.pc, th.pc.h);
    assert CellsOk(s.arrays[th.pc.a], s.boxes);
    assert At(s1.thieves[u].pc, th.pc.h);
    ThievesStill(s, s1, u);
    CoveredStill(s, s1, u, s.maxHead);
    ClaimsStill(s, s1, u);
    OrderStill(s, s1, u);
  }

  lemma LoseClaimKeeps(s: State, u: nat, h: nat, a: nat, p: nat)
    requires Inv(s) && u < |s.thieves| && s.thieves[u].pc == ClaimFlag(h, a, p)
    requires ThiefShape(s, s.thieves[u]) && s.arrays[a].claimed[h]
    ensures Inv(TryClaim(s, u, h, a, p))
  {
    assert ThiefOk(s, s.thieves[u]) && WeakOk(s.thieves[u]);
    assert At(s.thieves[u].pc, h);
    QuietStep(s, u, s.thieves[u].(pc := Nudge(h)));
  }

  lemma WinClaimKeeps(s: State, u: nat, h: nat, a: nat, p: nat)
    requires Inv(s) && u < |s.thieves| && s.thieves[u].pc == ClaimFlag(h, a, p)
    requires ThiefShape(s, s.thieves[u]) && !s.arrays[a].claimed[h]
    ensures Inv(TryClaim(s, u, h, a, p))
  {
    var s1 := TryClaim(s, u, h, a, p);
    var th, th1 := s.thieves[u], s1.thieves[u];
    assert ThiefOk(s, th);
    assert At(th.pc, h) && At(th1.pc, h);
    assert CellsOk(s.arrays[a], s.boxes);
    assert !Claimed(s, h);
    assert ThiefOk(s1, th1);
    ThievesStill(s, s1, u);
    CoveredStill(s, s1, u, s.maxHead);
    OrderStill(s, s1, u);
    ClaimAdds(s, s1, u, h);
  }

  lemma ClaimAdds(s: State, s1: State, u: nat, h: nat)
    requires ClaimsOk(s) && Others(s, s1, u) && !Claimed(s, h)
    requires s.thieves[u].kind.Exclusive? && !s.thieves[u].pc.Advance?
    requires exists p :: s1.thieves[u] == s.thieves[u].(pc := Advance(h, p))
    requires forall i: nat :: Claimed(s1, i) <==> Claimed(s, i) || i == h
    ensures ClaimsOk(s1)
  {
    forall i: nat
      ensures Takes(s1.thieves[u], i) <==> Takes(s.thieves[u], i) || i == h
    {
    }
    forall v | 0 <= v < |s.thieves|
      ensures !Takes(s.thieves[v], h)
    {
    }
    forall i: nat | Claimed(s1, i)
      ensures TakenBySome(s1, i)
    {
      if i == h {
        assert Takes(s1.thieves[u], i);
      } else {
        assert TakenBySome(s, i);
        var v :| 0 <= v < |s.thieves| && Takes(s.thieves[v], i);
        assert Takes(s1.thieves[v], i);
      }
    }
  }

  lemma NudgeOrder(s: State, u: nat, h: nat)
    requires OrderOk(s) && u < |s.thieves| && s.thieves[u].pc == Nudge(h) && s.thieves[u].kind.Exclusive?
    ensures OrderOk(ThiefNext(s, u))
  {
    assert At(s.thieves[u].pc, h);
    assert !s.back ==> StrongOk(s, s.thieves[u]);
    OrderStill(s, ThiefNext(s, u), u);
  }

  lemma NudgeKeeps(s: State, u: nat, h: nat)
    requires Inv(s) && u < |s.thieves| && s.thieves[u].pc == Nudge(h)
    ensures Inv(ThiefNext(s, u))
  {
    var s1 := ThiefNext(s, u);
    assert ThiefOk(s, s.thieves[u]) && At(s.thieves[u].pc, h);
    assert Claimed(s, h) && TakenBySome(s, h);
    NudgeIsCovered(s, u, h);
    AccountedStill(s, s1, u, h);
    ThievesStill(s, s1, u);
    CoveredStill(s, s1, u, h);
    ClaimsStill(s, s1, u);
    NudgeOrder(s, u, h);
  }

  /** Whoever claimed a slot found a box in it. */
  lemma NudgeIsCovered(s: State, u: nat, h: nat)
    requires ThievesOk(s) && ClaimsOk(s) && TakenBySome(s, h)
    ensures h < s.boxes
  {
    var v :| 0 <= v < |s.thieves| && Takes(s.thieves[v], h);
    assert ThiefOk(s, s.thieves[v]) && OnceOnly(s.thieves[v]);
  }

  // ---------------------------------------------------------------- deliveries by thieves

  /** The state after thief `u` delivered index `h` and left `head` at `head1`. */
  function Delivering(s: State, u: nat, r: nat, h: nat, head1: nat): State
    requires u < |s.thieves|
  {
    Deliver(s.(head := head1, maxHead := Max(s.maxHead, head1), back := s.back || head1 < s.head), u, r, h, h)
  }

  ghost predicate CanDeliver(s: State, u: nat, r: nat, h: nat, head1: nat) {
    && u < |s.thieves| && Holding(s.thieves[u].pc) && s.thieves[u].pc.h == h
    && (s.thieves[u].kind.Exclusive? ==> s.thieves[u].pc.Advance?)
    && r <= Max(s.maxHead, head1) && head1 <= Max(s.maxHead, h + 1)
    && (s.thieves[u].kind.Weak? ==> s.thieves[u].r <= r && h < r)
    && (!s.thieves[u].kind.Weak? ==> head1 == Max(s.head, h + 1))
    && (s.head == s.maxHead ==> head1 == s.head || head1 == h + 1)
  }

  lemma DeliverCovers(s: State, u: nat, r: nat, h: nat, head1: nat)
    requires Covered(s) && ClaimsOk(s) && CanDeliver(s, u, r, h, head1) && h <= s.maxHead
    ensures Covered(Delivering(s, u, r, h, head1)) && ClaimsOk(Delivering(s, u, r, h, head1))
  {
    var s1 := Delivering(s, u, r, h, head1);
    var th, th1 := s.thieves[u], s1.thieves[u];
    assert OnceOnly(th);
    DeliverTakes(th, th1, h);
    CoveredStill(s, s1, u, h);
    ClaimsStill(s, s1, u);
  }

  lemma DeliverOrders(s: State, u: nat, r: nat, h: nat, head1: nat)
    requires OrderOk(s) && CanDeliver(s, u, r, h, head1)
    ensures OrderOk(Delivering(s, u, r, h, head1))
  {
    var s1 := Delivering(s, u, r, h, head1);
    assert At(s.thieves[u].pc, h) && WeakOk(s.thieves[u]);
    if !s1.back {
      assert StrongOk(s, s.thieves[u]);
    }
    OrderStill(s, s1, u);
  }

  lemma DeliverKeeps(s: State, u: nat, r: nat, h: nat, head1: nat)
    requires Inv(s) && CanDeliver(s, u, r, h, head1)
    ensures Inv(Delivering(s, u, r, h, head1))
  {
    assert ThiefOk(s, s.thieves[u]) && At(s.thieves[u].pc, h);
    ThievesStill(s, Delivering(s, u, r, h, head1), u);
    DeliverCovers(s, u, r, h, head1);
    DeliverOrders(s, u, r, h, head1);
  }

  lemma DeliverTakes(th: Thief, th1: Thief, h: nat)
    requires th1.got == th.got + [Got(h, h)] && th1.kind == th.kind && th1.pc.Resting?
    requires th1.won == if th.kind.Exclusive? then th.won + [Got(h, h)] else th.won
    requires th.kind.Exclusive? ==> th.pc.Advance? && th.pc.h == h
    requires OnceOnly(th)
    ensures Kept(th, th1) && SameTakes(th, th1) && Has(th1.got, h) && OnceOnly(th1)
  {
    forall i: nat
      ensures Has(th1.got, i) <==> Has(th.got, i) || i == h
      ensures th.kind.Exclusive? ==> (Has(th1.won, i) <==> Has(th.won, i) || i == h)
    {
      HasAppend(th.got, Got(h, h), i);
      HasAppend(th.won, Got(h, h), i);
    }
    if th.kind.Exclusive? {
      forall j | 0 <= j < |th.won|
        ensures th.won[j].index != h
      {
        assert !Has(th.won, h);
      }
    }
  }

  lemma AdvanceCan(s: State, u: nat)
    requires HeadOk(s) && u < |s.thieves| && ThiefOk(s, s.thieves[u]) && s.thieves[u].pc.Advance?
    ensures var th := s.thieves[u];
      && CanDeliver(s, u, th.r, th.pc.h, Max(s.head, th.pc.h + 1))
      && ThiefNext(s, u) == Delivering(s, u, th.r, th.pc.h, Max(s.head, th.pc.h + 1))
  {
    assert At(s.thieves[u].pc, s.thieves[u].pc.h);
  }

  lemma AdvanceKeeps(s: State, u: nat)
    requires Inv(s) && u < |s.thieves| && s.thieves[u].pc.Advance?
    ensures Inv(ThiefNext(s, u))
  {
    AdvanceCan(s, u);
    var th := s.thieves[u];
    DeliverKeeps(s, u, th.r, th.pc.h, Max(s.head, th.pc.h + 1));
  }

  lemma WeakStoreCan(s: State, u: nat)
    requires HeadOk(s) && u < |s.thieves| && ThiefOk(s, s.thieves[u])
    requires WeakOk(s.thieves[u]) && s.thieves[u].pc.WeakStore?
    ensures var h := s.thieves[u].pc.h;
      CanDeliver(s, u, h + 1, h, h + 1) && ThiefNext(s, u) == Delivering(s, u, h + 1, h, h + 1)
  {
    assert At(s.thieves[u].pc, s.thieves[u].pc.h);
  }

  lemma WeakStoreKeeps(s: State, u: nat)
    requires Inv(s) && u < |s.thieves| && s.thieves[u].pc.WeakStore?
    ensures Inv(ThiefNext(s, u))
  {
    WeakStoreCan(s, u);
    var h := s.thieves[u].pc.h;
    DeliverKeeps(s, u, h + 1, h, h + 1);
  }

  lemma WeakLookKeeps(s: State, u: nat)
    requires Inv(s) && u < |s.thieves| && s.thieves[u].pc.WeakRead?
    ensures Inv(ThiefNext(s, u))
  {
    var th := s.thieves[u];
    assert ThiefOk(s, th) && WeakOk(th);
    assert At(th.pc, th.pc.h);
    var r := Max(th.r, s.head);
    if th.pc.h + 1 > r {
      QuietStep(s, u, th.(r := r, pc := WeakStore(th.pc.h, th.pc.p)));
    } else {
      DeliverKeeps(s, u, r, th.pc.h, s.head);
    }
  }

  // ---------------------------------------------------------------- the owner

  ghost predicate SameDeliveries(s: State, s1: State) {
    s1.thieves == s.thieves && s.maxHead == s1.maxHead && s1.head == s.head && s1.took == s.took && s1.back == s.back
  }

  lemma OwnerQuiet(s: State, s1: State)
    requires Covered(s) && ClaimsOk(s) && OrderOk(s) && SameDeliveries(s, s1)
    requires forall i: nat :: Claimed(s1, i) <==> Claimed(s, i)
    requires s1.owner.TakeMax? && !s.back ==> s1.owner.h == s.head
    ensures Covered(s1) && ClaimsOk(s1) && OrderOk(s1)
  {
    forall i: nat
      ensures TakenBySome(s1, i) <==> TakenBySome(s, i)
      ensures Delivered(s1, i) <==> Delivered(s, i)
    {
    }
    if !s.back {
      forall v | 0 <= v < |s1.thieves|
        ensures StrongOk(s1, s1.thieves[v])
      {
        assert StrongOk(s, s.thieves[v]);
      }
    }
  }

  lemma BeginTakeKeeps(s: State)
    requires Inv(s) && s.owner.Idle?
    ensures Inv(BeginTake(s))
  {
    var s1 := BeginTake(s);
    AllThievesStill(s, s1);
    OwnerQuiet(s, s1);
  }

  lemma BeginPutArrays(s: State)
    requires ArraysOk(s) && s.owner.Idle?
    ensures ArraysOk(BeginPut(s)) && MemoryGrows(s, BeginPut(s))
  {
    var s1 := BeginPut(s);
    assert CellsOk(s.arrays[s.active], s.boxes);
    assert s1.retired == Upto(s1.active);
    forall a | 0 <= a < |s1.arrays|
      ensures CellsOk(s1.arrays[a], s1.boxes)
    {
      if a < |s.arrays| {
        assert CellsOk(s.arrays[a], s.boxes);
      }
    }
  }

  lemma BeginPutKeeps(s: State)
    requires Inv(s) && s.owner.Idle?
    ensures Inv(BeginPut(s))
  {
    BeginPutArrays(s);
    AllThievesStill(s, BeginPut(s));
    OwnerQuiet(s, BeginPut(s));
  }

  lemma StoreKeeps(s: State)
    requires Inv(s) && (s.owner.PutStore? || s.owner.PutMark?)
    ensures Inv(OwnerNext(s))
  {
    var s1 := OwnerNext(s);
    forall a | 0 <= a < |s1.arrays|
      ensures CellsOk(s1.arrays[a], s1.boxes)
      ensures Fills(s.arrays[a], s1.arrays[a])
    {
      assert CellsOk(s.arrays[a], s.boxes);
    }
    AllThievesStill(s, s1);
    OwnerQuiet(s, s1);
  }

  /** `i` was delivered to the owner. */
  lemma OwnerDelivers(s: State, s1: State, h: nat)
    requires Covered(s) && ClaimsOk(s) && s1.thieves == s.thieves && s1.arrays == s.arrays
    requires s1.took == s.took + [Got(h, h)] && h <= s.maxHead && s1.maxHead <= Max(s.maxHead, h + 1)
    ensures Covered(s1) && ClaimsOk(s1)
  {
    forall i: nat
      ensures Has(s1.took, i) <==> Has(s.took, i) || i == h
      ensures TakenBySome(s1, i) <==> TakenBySome(s, i)
      ensures Claimed(s1, i) <==> Claimed(s, i)
    {
      HasAppend(s.took, Got(h, h), i);
    }
    forall i: nat | i < s1.maxHead
      ensures Delivered(s1, i) || TakenBySome(s1, i)
    {
      if i < s.maxHead {
        assert Delivered(s, i) || TakenBySome(s, i);
      }
    }
  }

  lemma OwnerOrder(s: State, s1: State, h: nat)
    requires OrderOk(s) && s1.thieves == s.thieves && s.owner.TakeMax? && s.owner.h == h && s1.owner.Idle?
    requires s1.back == s.back
    requires s1.took == s.took + [Got(h, h)]
    requires s1.head == Max(s.head, h + 1) && s1.maxHead == Max(s.maxHead, s1.head)
    ensures OrderOk(s1)
  {
    if !s.back {
      forall v | 0 <= v < |s1.thieves|
        ensures StrongOk(s1, s1.thieves[v])
      {
        assert StrongOk(s, s.thieves[v]);
      }
    }
  }

  lemma TakeMaxKeeps(s: State, h: nat, p: nat)
    requires Inv(s) && s.owner == TakeMax(h, p)
    ensures Inv(OwnerNext(s))
  {
    var s1 := OwnerNext(s);
    AllThievesStill(s, s1);
    OwnerDelivers(s, s1, h);
    OwnerOrder(s, s1, h);
  }

  // ---------------------------------------------------------------- all steps

  lemma InitInv(s: State)
    requires Init(s)
    ensures Inv(s)
  {
    forall u, i: nat | 0 <= u < |s.thieves|
      ensures !Takes(s.thieves[u], i) && ThiefOk(s, s.thieves[u]) && OnceOnly(s.thieves[u])
    {
      assert s.thieves[u] == Thief(s.thieves[u].kind, Resting, 0, [], []);
    }
    forall u | 0 <= u < |s.thieves|
      ensures WeakOk(s.thieves[u]) && StrongOk(s, s.thieves[u])
    {
      assert s.thieves[u] == Thief(s.thieves[u].kind, Resting, 0, [], []);
    }
  }

  lemma ThiefStepKeeps(s: State, u: nat)
    requires Inv(s) && u < |s.thieves|
    ensures ThiefShape(s, s.thieves[u]) && Inv(ThiefNext(s, u))
  {
    assert ThiefOk(s, s.thieves[u]);
    match s.thieves[u].pc
    case Resting =>
      assert ThiefNext(s, u) == s;
    case LoadArray(_) => LoadArrayKeeps(s, u);
    case LoadCell(_, _, _) => ReadCellKeeps(s, u);
    case ClaimFlag(h, a, p) =>
      if s.arrays[a].claimed[h] {
        LoseClaimKeeps(s, u, h, a, p);
      } else {
        WinClaimKeeps(s, u, h, a, p);
      }
    case Nudge(h) => NudgeKeeps(s, u, h);
    case WeakRead(_, _) => WeakLookKeeps(s, u);
    case Advance(_, _) => AdvanceKeeps(s, u);
    case WeakStore(_, _) => WeakStoreKeeps(s, u);
  }

  lemma OwnerStepKeeps(s: State)
    requires Inv(s)
    ensures Inv(OwnerNext(s))
  {
    match s.owner
    case Idle =>
    case TakeMax(h, p) => TakeMaxKeeps(s, h, p);
    case _ => StoreKeeps(s);
  }

  lemma InvShape(s: State)
    requires Inv(s)
    ensures Shape(s)
  {
    forall u | 0 <= u < |s.thieves|
      ensures ThiefShape(s, s.thieves[u])
    {
      assert ThiefOk(s, s.thieves[u]);
    }
  }

  lemma StepKeeps(s: State, st: Step)
    requires Inv(s) && Enabled(s, st)
    ensures Shape(s) && Inv(Apply(s, st))
  {
    InvShape(s);
    match st
    case StartPut => BeginPutKeeps(s);
    case StartTake => BeginTakeKeeps(s);
    case OwnerStep => OwnerStepKeeps(s);
    case StartSteal(u, kind) => BeginStealKeeps(s, u, kind);
    case ThiefStep(u) => ThiefStepKeeps(s, u);
  }
}

/** What a stealer's answers mean while everybody else is at work. */
module BwosCalls {
  import opened Numbers
  import opened Runs
  import opened Bwos
  import opened BwosSafety
  import opened BwosTheorems
  import opened BwosFrontier
  import opened BwosAhead

  /** Thief `w` is inside a steal that started at step `i`, up to state `j`. */
  ghost predicate Stealing(r: Run<State, Step>, w: nat, i: nat, j: nat) {
    && i < j <= |r.steps| < |r.states|
    && (forall m :: i <= m <= j ==> w < |r.states[m].thieves|)
    && r.states[i].thieves[w].Away? && r.steps[i] == StartSteal(w)
    && forall m :: i < m <= j ==> !r.states[m].thieves[w].Away?
  }

  /** A completed steal: started at step `i`, answered at step `j`. */
  ghost predicate StealCall(r: Run<State, Step>, w: nat, i: nat, j: nat) {
    && i <= j < |r.steps| < |r.states|
    && (forall m :: i <= m <= j + 1 ==> w < |r.states[m].thieves|)
    && r.states[i].thieves[w].Away? && r.steps[i] == StartSteal(w)
    && (forall m :: i < m <= j ==> !r.states[m].thieves[w].Away?) && r.states[j + 1].thieves[w].Away?
  }

  // ---------------------------------------------------------------- what was seen on the way

  /** At some moment of the steal block `k` had nothing to steal. */
  ghost predicate SeenDrained(r: Run<State, Step>, i: nat, j: nat, k: nat) {
    exists x: nat :: i < x < j && x < |r.states| && k < |r.states[x].blocks|
      && r.states[x].blocks[k].committed <= r.states[x].blocks[k].stolen
  }

  /** At some moment of the steal block `k` linked to block `n`. */
  ghost predicate SeenLinked(r: Run<State, Step>, i: nat, j: nat, k: nat, n: nat) {
    exists x: nat :: i < x < j && x < |r.states| && k < |r.states[x].blocks| && r.states[x].blocks[k].next == Some(n)
  }

  /** At some moment of the steal `stolen` of block `k` was `t`. */
  ghost predicate SeenTop(r: Run<State, Step>, i: nat, j: nat, k: nat, t: nat) {
    exists x: nat :: i < x < j && x < |r.states| && k < |r.states[x].blocks| && r.states[x].blocks[k].stolen == t
  }

  /** The blocks walked over: from the cursor to `last`, each drained when looked at and linked to the next. */
  ghost predicate Walked(r: Run<State, Step>, i: nat, j: nat, path: seq<nat>, first: nat, last: nat) {
    && path != [] && path[0] == first && path[|path| - 1] == last
    && forall q :: 0 <= q < |path| - 1 ==> SeenDrained(r, i, j, path[q]) && SeenLinked(r, i, j, path[q], path[q + 1])
  }

  lemma SeenLater(r: Run<State, Step>, i: nat, j: nat)
    ensures forall k: nat :: SeenDrained(r, i, j, k) ==> SeenDrained(r, i, j + 1, k)
    ensures forall k: nat, n: nat :: SeenLinked(r, i, j, k, n) ==> SeenLinked(r, i, j + 1, k, n)
    ensures forall k: nat, t: nat :: SeenTop(r, i, j, k, t) ==> SeenTop(r, i, j + 1, k, t)
  {
  }

  lemma WalkedLater(r: Run<State, Step>, i: nat, j: nat, path: seq<nat>, first: nat, last: nat)
    requires Walked(r, i, j, path, first, last)
    ensures Walked(r, i, j + 1, path, first, last)
  {
    SeenLater(r, i, j);
  }

  lemma WalkedOn(r: Run<State, Step>, i: nat, j: nat, path: seq<nat>, first: nat, k: nat, n: nat)
    requires Walked(r, i, j, path, first, k) && SeenDrained(r, i, j, k) && SeenLinked(r, i, j, k, n)
    ensures Walked(r, i, j, path + [n], first, n)
  {
  }

  /** What the thief's own bookkeeping says about the steal so far. */
  ghost predicate Noted(r: Run<State, Step>, i: nat, j: nat, th: Thief, end: nat) {
    match th
    case Away(_) => true
    case Look(_, e) => e == end
    case Bottom(k, e, t) => e == end && SeenTop(r, i, j, k, t)
    case Read(k, e, t) => e == end && SeenTop(r, i, j, k, t)
    case Cas(k, e, t, _) => e == end && SeenTop(r, i, j, k, t)
    case Onward(k, e) => e == end && SeenDrained(r, i, j, k)
  }

  lemma NotedLater(r: Run<State, Step>, i: nat, j: nat, th: Thief, end: nat)
    requires Noted(r, i, j, th, end)
    ensures Noted(r, i, j + 1, th, end)
  {
    SeenLater(r, i, j);
  }

  /** A step by somebody else leaves the thief alone. */
  lemma OthersLeave(s: State, st: Step, s1: State, w: nat)
    requires Next(s, st, s1) && w < |s.thieves| && w < |s1.thieves| && !s.thieves[w].Away?
    requires st != ThiefStep(w)
    ensures s1.thieves[w] == s.thieves[w]
  {
    if st.OwnerStep? {
      OwnerLeaves(s);
    }
  }

  lemma OwnerLeaves(s: State)
    requires Shape(s)
    ensures OwnerNext(s).thieves == s.thieves
  {
  }

  lemma StepAt(r: Run<State, Step>, j: nat)
    requires IsRun(r) && j < |r.steps|
    ensures Inv(r.states[j]) && Next(r.states[j], r.steps[j], r.states[j + 1])
  {
    RunInv(r, j);
  }

  /** The thief's own step inside a steal: it stays at its block, having noted what it saw, or walks on. */
  lemma OwnStepNotes(r: Run<State, Step>, i: nat, j: nat, w: nat, end: nat)
    requires i < j < |r.steps| < |r.states| && Inv(r.states[j]) && w < |r.states[j].thieves|
    requires !r.states[j].thieves[w].Away? && Noted(r, i, j, r.states[j].thieves[w], end)
    requires r.states[j + 1] == ThiefNext(r.states[j], w) && !r.states[j + 1].thieves[w].Away?
    ensures var th, th1 := r.states[j].thieves[w], r.states[j + 1].thieves[w];
      && Noted(r, i, j + 1, th1, end)
      && (CursorOf(th1) == CursorOf(th)
          || (SeenDrained(r, i, j + 1, CursorOf(th)) && SeenLinked(r, i, j + 1, CursorOf(th), CursorOf(th1))))
  {
    var s := r.states[j];
    SeenLater(r, i, j);
    assert ThiefShape(s, s.thieves[w]) && ThiefOk(s, s.thieves[w]);
    assert BlockShape(s, CursorOf(s.thieves[w]));
  }

  /** The steal so far: the blocks walked over, and what the thief noted last. */
  ghost predicate WalkedTo(r: Run<State, Step>, w: nat, i: nat, j: nat, path: seq<nat>) {
    && i < |r.states| && j < |r.states| && w < |r.states[i].thieves| && w < |r.states[j].thieves|
    && Walked(r, i, j, path, CursorOf(r.states[i].thieves[w]), CursorOf(r.states[j].thieves[w]))
    && Noted(r, i, j, r.states[j].thieves[w], r.states[i].produced)
  }

  lemma OwnStepWalks(r: Run<State, Step>, w: nat, i: nat, j: nat, path: seq<nat>) returns (path1: seq<nat>)
    requires i < j && j + 1 < |r.states| && WalkedTo(r, w, i, j, path) && w < |r.states[j + 1].thieves|
    requires Noted(r, i, j + 1, r.states[j + 1].thieves[w], r.states[i].produced)
    requires var k, k1 := CursorOf(r.states[j].thieves[w]), CursorOf(r.states[j + 1].thieves[w]);
      k1 == k || (SeenDrained(r, i, j + 1, k) && SeenLinked(r, i, j + 1, k, k1))
    ensures WalkedTo(r, w, i, j + 1, path1)
  {
    var first, k := CursorOf(r.states[i].thieves[w]), CursorOf(r.states[j].thieves[w]);
    var k1 := CursorOf(r.states[j + 1].thieves[w]);
    path1 := path;
    WalkedLater(r, i, j, path, first, k);
    if k1 != k {
      WalkedOn(r, i, j + 1, path, first, k, k1);
      path1 := path + [k1];
    }
  }

  lemma OthersStepWalks(r: Run<State, Step>, w: nat, i: nat, j: nat, path: seq<nat>)
    requires i < j && j + 1 < |r.states| && WalkedTo(r, w, i, j, path)
    requires w < |r.states[j + 1].thieves| && r.states[j + 1].thieves[w] == r.states[j].thieves[w]
    ensures WalkedTo(r, w, i, j + 1, path)
  {
    WalkedLater(r, i, j, path, CursorOf(r.states[i].thieves[w]), CursorOf(r.states[j].thieves[w]));
    NotedLater(r, i, j, r.states[j].thieves[w], r.states[i].produced);
  }

  lemma StealStarts(r: Run<State, Step>, w: nat, i: nat)
    requires IsRun(r) && Stealing(r, w, i, i + 1)
    ensures WalkedTo(r, w, i, i + 1, [CursorOf(r.states[i].thieves[w])])
  {
    StepAt(r, i);
  }

  lemma StealOneMore(r: Run<State, Step>, w: nat, i: nat, j: nat, path: seq<nat>) returns (path1: seq<nat>)
    requires IsRun(r) && i < j && Stealing(r, w, i, j + 1) && WalkedTo(r, w, i, j, path)
    ensures WalkedTo(r, w, i, j + 1, path1)
  {
    StepAt(r, j);
    if r.steps[j] == ThiefStep(w) {
      OwnStepNotes(r, i, j, w, r.states[i].produced);
      path1 := OwnStepWalks(r, w, i, j, path);
    } else {
      OthersLeave(r.states[j], r.steps[j], r.states[j + 1], w);
      OthersStepWalks(r, w, i, j, path);
      path1 := path;
    }
  }

  ghost predicate Walks(r: Run<State, Step>, w: nat, i: nat, k: nat) {
    exists path :: WalkedTo(r, w, i, k, path)
  }

  lemma WalksOn(r: Run<State, Step>, w: nat, i: nat, j: nat, k: nat)
    requires IsRun(r) && Stealing(r, w, i, j) && i < k < j && Walks(r, w, i, k)
    ensures Walks(r, w, i, k + 1)
  {
    var path :| WalkedTo(r, w, i, k, path);
    var path1 := StealOneMore(r, w, i, k, path);
  }

  lemma StealSoFar(r: Run<State, Step>, w: nat, i: nat, j: nat) returns (path: seq<nat>)
    requires IsRun(r) && Stealing(r, w, i, j)
    ensures WalkedTo(r, w, i, j, path)
  {
    StealStarts(r, w, i);
    forall k: nat | i + 1 <= k < j && Walks(r, w, i, k)
      ensures Walks(r, w, i, k + 1)
    {
      WalksOn(r, w, i, j, k);
    }
    HandedOn((k: nat) => Walks(r, w, i, k), i + 1, j);
    path :| WalkedTo(r, w, i, j, path);
  }

  // ---------------------------------------------------------------- the answers

  /** `Success`: the value handed out was in the queue up to this step, at the slot the thief claimed, and is no
      longer. */
  ghost predicate Succeeded(s: State, s1: State, w: nat)
    requires w < |s.thieves|
  {
    && s.thieves[w].Cas?
    && s1.hist == s.hist.(out := s.hist.out + [s.thieves[w].v])
    && Here(s, s.thieves[w].v) && !Here(s1, s.thieves[w].v)
    && s.hist.pos[s.thieves[w].v] == Place(s.thieves[w].k, s.thieves[w].t)
  }

  /** `Retry`: nothing is handed out, and somebody else has taken from the block since the thief looked. */
  ghost predicate Retried(r: Run<State, Step>, i: nat, j: nat, w: nat)
    requires j + 1 < |r.states| && w < |r.states[j].thieves|
  {
    var s, s1 := r.states[j], r.states[j + 1];
    && s.thieves[w].Cas? && s1.hist == s.hist && s.thieves[w].k < |s.blocks|
    && s.thieves[w].t < s.blocks[s.thieves[w].k].stolen
    && SeenTop(r, i, j, s.thieves[w].k, s.thieves[w].t)
  }

  /** `Empty`: nothing is handed out; every block from the cursor to the end of the chain, or to the last one
      produced when the steal began, had nothing to steal at some moment of the steal. */
  ghost predicate FoundEmpty(r: Run<State, Step>, i: nat, j: nat, w: nat, path: seq<nat>)
    requires j + 1 < |r.states| && i < |r.states| && w < |r.states[i].thieves| && w < |r.states[j].thieves|
  {
    var s, s1 := r.states[j], r.states[j + 1];
    && s.thieves[w].Onward? && s1.hist == s.hist && s.thieves[w].k < |s.blocks|
    && Walked(r, i, j, path, CursorOf(r.states[i].thieves[w]), s.thieves[w].k)
    && SeenDrained(r, i, j, s.thieves[w].k)
    && (s.kind.Growable? ==> s.blocks[s.thieves[w].k].next.None?)
    && (s.kind.Fixed? ==> s.thieves[w].k + 1 >= r.states[i].produced)
  }

  lemma WinnerLeaves(s: State, w: nat)
    requires Inv(s) && w < |s.thieves| && s.thieves[w].Cas?
    requires s.thieves[w].k < |s.blocks| && s.blocks[s.thieves[w].k].stolen == s.thieves[w].t
    ensures Succeeded(s, ThiefNext(s, w), w)
  {
    assert ThiefShape(s, s.thieves[w]) && ThiefOk(s, s.thieves[w]);
    assert AtHome(s, s.thieves[w].k, s.thieves[w].t);
  }

  lemma AnswerIsOwn(s: State, st: Step, s1: State, w: nat)
    requires Next(s, st, s1) && w < |s.thieves| && w < |s1.thieves| && !s.thieves[w].Away? && s1.thieves[w].Away?
    ensures st == ThiefStep(w) && (s.thieves[w].Cas? || s.thieves[w].Onward?)
  {
    if st != ThiefStep(w) {
      OthersLeave(s, st, s1, w);
    }
  }

  /** A completed steal, whatever the owner and the other stealers did meanwhile, gives one of the three answers
      for the reason it stands for, having walked over blocks that were drained when it looked at them. */
  lemma StealAnswers(r: Run<State, Step>, w: nat, i: nat, j: nat) returns (path: seq<nat>)
    requires IsRun(r) && StealCall(r, w, i, j)
    ensures Walked(r, i, j, path, CursorOf(r.states[i].thieves[w]), CursorOf(r.states[j].thieves[w]))
    ensures Succeeded(r.states[j], r.states[j + 1], w) || Retried(r, i, j, w) || FoundEmpty(r, i, j, w, path)
  {
    StepAt(r, i);
    path := StealSoFar(r, w, i, j);
    StepAt(r, j);
    var s, s1 := r.states[j], r.states[j + 1];
    AnswerIsOwn(s, r.steps[j], s1, w);
    assert ThiefShape(s, s.thieves[w]) && ThiefOk(s, s.thieves[w]);
    if s.thieves[w].Cas? && s.blocks[s.thieves[w].k].stolen == s.thieves[w].t {
      WinnerLeaves(s, w);
    }
  }

  // ---------------------------------------------------------------- the bounded queue's answer

  ghost predicate CursorsAtHead(s: State) {
    s.kind.Fixed? ==> forall w :: 0 <= w < |s.thieves| && s.thieves[w].Away? ==> s.thieves[w].cursor == 0
  }

  lemma StepCursors(s: State, st: Step)
    requires Shape(s) && Enabled(s, st) && CursorsAtHead(s)
    ensures CursorsAtHead(Apply(s, st))
  {
    KindStays(s, st);
    if st.OwnerStep? {
      OwnerLeaves(s);
    }
  }

  lemma RunCursors(r: Run<State, Step>, n: nat)
    requires IsRun(r) && n < |r.states|
    ensures CursorsAtHead(r.states[n])
  {
    forall k | 0 <= k < |r.states| - 1 && CursorsAtHead(r.states[k])
      ensures CursorsAtHead(r.states[k + 1])
    {
      StepAt(r, k);
      StepCursors(r.states[k], r.steps[k]);
    }
    InvAlong(r.states, CursorsAtHead, n);
  }

  lemma LinkedInRow(r: Run<State, Step>, i: nat, j: nat, k: nat, n: nat)
    requires IsRun(r) && SeenLinked(r, i, j, k, n) && forall x: nat :: x < |r.states| ==> r.states[x].kind.Fixed?
    ensures n == k + 1
  {
    var x: nat :| i < x < j && x < |r.states| && k < |r.states[x].blocks| && r.states[x].blocks[k].next == Some(n);
    RunInv(r, x);
    assert BlockShape(r.states[x], k);
  }

  lemma {:induction false} PathIsRow(r: Run<State, Step>, i: nat, j: nat, path: seq<nat>, last: nat, q: nat)
    requires IsRun(r) && Walked(r, i, j, path, 0, last) && q < |path|
    requires forall x: nat :: x < |r.states| ==> r.states[x].kind.Fixed?
    ensures path[q] == q
  {
    if q > 0 {
      PathIsRow(r, i, j, path, last, q - 1);
      LinkedInRow(r, i, j, path[q - 1], path[q - 1 + 1]);
    }
  }

  /** On the bounded queue `Empty` means that each block produced when the steal began had nothing to steal at
      some moment of the steal. */
  lemma BoundedEmptyMeans(r: Run<State, Step>, w: nat, i: nat, j: nat, k: nat)
    requires IsRun(r) && StealCall(r, w, i, j) && r.states[j].thieves[w].Onward? && r.states[0].kind.Fixed?
    requires k < r.states[i].produced
    ensures SeenDrained(r, i, j, k)
  {
    var path := StealAnswers(r, w, i, j);
    RunCursors(r, i);
    forall x: nat | x < |r.states|
      ensures r.states[x].kind.Fixed?
    {
      KindsAlong(r, x);
    }
    forall q | 0 <= q < |path|
      ensures path[q] == q
    {
      PathIsRow(r, i, j, path, r.states[j].thieves[w].k, q);
    }
    assert path[|path| - 1] == |path| - 1 == r.states[j].thieves[w].k;
    assert path[k] == k;
  }

  lemma {:induction false} KindsAlong(r: Run<State, Step>, n: nat)
    requires IsRun(r) && n < |r.states|
    ensures r.states[n].kind == r.states[0].kind
  {
    if n > 0 {
      KindsAlong(r, n - 1);
      StepAt(r, n - 1);
      KindStays(r.states[n - 1], r.steps[n - 1]);
    }
  }
}

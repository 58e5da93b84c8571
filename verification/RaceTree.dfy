/**
 The series-parallel tree of src/race.rs and its two depth-first numberings.
 */
module RaceTree {

  datatype Access = Access(location: nat, isWrite: bool)

  datatype Node =
    | Strand(accesses: seq<Access>)
    | Series(children: seq<Node>)
    | Parallel(children: seq<Node>)

  datatype StrandInfo = StrandInfo(english: nat, hebrew: nat, accesses: seq<Access>)

  const UNSET: nat := 0xffff_ffff_ffff_ffff

  function Count(node: Node): nat
    decreases node
  {
    match node
    case Strand(_) => 1
    case Series(children) => CountAll(children)
    case Parallel(children) => CountAll(children)
  }

  function CountAll(children: seq<Node>): nat
    decreases children
  {
    if children == [] then 0 else Count(children[0]) + CountAll(children[1..])
  }

  /** The accesses of each strand, strands left to right. */
  function Leaves(node: Node): (r: seq<seq<Access>>)
    ensures |r| == Count(node)
    decreases node
  {
    match node
    case Strand(accesses) => [accesses]
    case Series(children) => LeavesAll(children)
    case Parallel(children) => LeavesAll(children)
  }

  function LeavesAll(children: seq<Node>): (r: seq<seq<Access>>)
    ensures |r| == CountAll(children)
    decreases children
  {
    if children == [] then [] else Leaves(children[0]) + LeavesAll(children[1..])
  }

  /** How many strands come before strand `e` when parallel children are visited right to left. */
  function HebrewPos(node: Node, e: nat): (r: nat)
    requires e < Count(node)
    ensures r < Count(node)
    decreases node
  {
    match node
    case Strand(_) => 0
    case Series(children) => HebrewIn(children, false, e)
    case Parallel(children) => HebrewIn(children, true, e)
  }

  function HebrewIn(children: seq<Node>, par: bool, e: nat): (r: nat)
    requires e < CountAll(children)
    ensures r < CountAll(children)
    decreases children
  {
    var c := Count(children[0]);
    if e < c
    then HebrewPos(children[0], e) + if par then CountAll(children[1..]) else 0
    else HebrewIn(children[1..], par, e - c) + if par then 0 else c
  }

  /** Whether the lowest common ancestor of two strands is a parallel node: descend while one child
      holds both. */
  ghost predicate LcaParallel(node: Node, u: nat, v: nat)
    requires u < Count(node) && v < Count(node) && u != v
    decreases node
  {
    match node
    case Strand(_) => false
    case Series(children) => LcaIn(children, false, u, v)
    case Parallel(children) => LcaIn(children, true, u, v)
  }

  ghost predicate LcaIn(children: seq<Node>, par: bool, u: nat, v: nat)
    requires u < CountAll(children) && v < CountAll(children) && u != v
    decreases children
  {
    var c := Count(children[0]);
    if u < c && v < c then LcaParallel(children[0], u, v)
    else if c <= u && c <= v then LcaIn(children[1..], par, u - c, v - c)
    else par
  }

  /** The SP-order characterisation: the two numberings disagree on a pair of strands exactly when
      their lowest common ancestor is a parallel node. */
  lemma {:induction false} OrdersDisagree(node: Node, u: nat, v: nat)
    requires u < Count(node) && v < Count(node) && u != v
    ensures HebrewPos(node, u) != HebrewPos(node, v)
    ensures (u < v) != (HebrewPos(node, u) < HebrewPos(node, v)) <==> LcaParallel(node, u, v)
    decreases node
  {
    match node
    case Strand(_) =>
    case Series(children) => OrdersDisagreeIn(children, false, u, v);
    case Parallel(children) => OrdersDisagreeIn(children, true, u, v);
  }

  lemma {:induction false} OrdersDisagreeIn(children: seq<Node>, par: bool, u: nat, v: nat)
    requires u < CountAll(children) && v < CountAll(children) && u != v
    ensures HebrewIn(children, par, u) != HebrewIn(children, par, v)
    ensures (u < v) != (HebrewIn(children, par, u) < HebrewIn(children, par, v)) <==> LcaIn(children, par, u, v)
    decreases children
  {
    var c := Count(children[0]);
    if u < c && v < c {
      OrdersDisagree(children[0], u, v);
    } else if c <= u && c <= v {
      OrdersDisagreeIn(children[1..], par, u - c, v - c);
    }
  }

  // ---------------------------------------------------------------- the English pass

  function Fresh(leaves: seq<seq<Access>>, base: nat): (r: seq<StrandInfo>)
    ensures |r| == |leaves|
  {
    seq(|leaves|, i requires 0 <= i < |leaves| => StrandInfo(base + i, UNSET, leaves[i]))
  }

  lemma {:induction false} CountSplit(children: seq<Node>, i: nat)
    requires i < |children|
    ensures CountAll(children[..i + 1]) == CountAll(children[..i]) + Count(children[i])
    ensures CountAll(children) == CountAll(children[..i]) + CountAll(children[i..])
    decreases children
  {
    if i == 0 {
      assert children[..1] == [children[0]] && children[1..][..0] == [];
    } else {
      CountSplit(children[1..], i - 1);
      assert children[..i + 1][1..] == children[1..][..i];
      assert children[..i][1..] == children[1..][..i - 1];
      assert children[1..][i - 1..] == children[i..];
    }
  }

  lemma {:induction false} LeavesSplit(children: seq<Node>, i: nat)
    requires i < |children|
    ensures LeavesAll(children[..i + 1]) == LeavesAll(children[..i]) + Leaves(children[i])
    decreases children
  {
    if i == 0 {
      assert children[..1] == [children[0]];
    } else {
      LeavesSplit(children[1..], i - 1);
      assert children[..i + 1][1..] == children[1..][..i];
      assert children[..i][1..] == children[1..][..i - 1];
    }
  }

  /** `assign_english`: number the strands left to right, one new record each. */
  method AssignEnglish(node: Node, counter: nat, out: seq<StrandInfo>) returns (counter': nat, out': seq<StrandInfo>)
    ensures counter' == counter + Count(node)
    ensures out' == out + Fresh(Leaves(node), counter)
    decreases node
  {
    counter', out' := counter, out;
    match node
    case Strand(accesses) =>
      out' := out' + [StrandInfo(counter', UNSET, accesses)];
      counter' := counter' + 1;
    case Series(children) => counter', out' := AssignChildren(children, counter, out);
    case Parallel(children) => counter', out' := AssignChildren(children, counter, out);
  }

  method AssignChildren(children: seq<Node>, counter: nat, out: seq<StrandInfo>)
    returns (counter': nat, out': seq<StrandInfo>)
    ensures counter' == counter + CountAll(children)
    ensures out' == out + Fresh(LeavesAll(children), counter)
    decreases children
  {
    counter', out' := counter, out;
    for i := 0 to |children|
      invariant counter' == counter + CountAll(children[..i])
      invariant out' == out + Fresh(LeavesAll(children[..i]), counter)
    {
      CountSplit(children, i);
      LeavesSplit(children, i);
      counter', out' := AssignEnglish(children[i], counter', out');
    }
    assert children[..|children|] == children;
  }

  // ---------------------------------------------------------------- the Hebrew pass

  /** Where the strands of child `i` land in the Hebrew order of its parent. */
  lemma HebrewOfChild(children: seq<Node>, par: bool, i: nat, e: nat)
    requires i < |children| && e < Count(children[i])
    ensures CountAll(children[..i]) + e < CountAll(children)
    ensures HebrewIn(children, par, CountAll(children[..i]) + e)
         == HebrewPos(children[i], e) + if par then CountAll(children[i + 1..]) else CountAll(children[..i])
    decreases children
  {
    if i > 0 {
      HebrewOfChild(children[1..], par, i - 1, e);
      assert children[..i][1..] == children[1..][..i - 1];
      assert children[1..][i..] == children[i + 1..];
    }
  }

  /** The records of strands `lo..hi` of a node's subtree, first strand at `base`, have their rank. */
  ghost predicate Ranked(was: seq<StrandInfo>, now: seq<StrandInfo>, node: Node, base: nat, hebrew: nat,
                         lo: nat, hi: nat)
  {
    && |now| == |was|
    && lo <= hi <= Count(node)
    && base + hi <= |was|
    && (forall k :: base + lo <= k < base + hi ==> now[k] == was[k].(hebrew := hebrew + HebrewPos(node, k - base)))
    && (forall k :: 0 <= k < |was| && !(base + lo <= k < base + hi) ==> now[k] == was[k])
  }

  /** Ranking the next child of a series node extends the ranked strands to the right. */
  lemma RankNextChild(was: seq<StrandInfo>, mid: seq<StrandInfo>, now: seq<StrandInfo>,
                      node: Node, i: nat, base: nat, hebrew: nat)
    requires node.Series? && i < |node.children|
    requires CountAll(node.children[..i + 1]) == CountAll(node.children[..i]) + Count(node.children[i]) <= Count(node)
    requires Ranked(was, mid, node, base, hebrew, 0, CountAll(node.children[..i]))
    requires Ranked(mid, now, node.children[i],
                    base + CountAll(node.children[..i]), hebrew + CountAll(node.children[..i]),
                    0, Count(node.children[i]))
    ensures Ranked(was, now, node, base, hebrew, 0, CountAll(node.children[..i + 1]))
  {
    var before := CountAll(node.children[..i]);
    forall k | base + before <= k < base + before + Count(node.children[i])
      ensures now[k] == was[k].(hebrew := hebrew + HebrewPos(node, k - base))
    {
      HebrewOfChild(node.children, false, i, k - base - before);
    }
  }

  /** Ranking the children of a parallel node right to left extends the ranked strands to the left. */
  lemma RankPriorChild(was: seq<StrandInfo>, mid: seq<StrandInfo>, now: seq<StrandInfo>,
                       node: Node, i: nat, base: nat, hebrew: nat)
    requires node.Parallel? && i < |node.children|
    requires CountAll(node.children[..i + 1]) == CountAll(node.children[..i]) + Count(node.children[i]) <= Count(node)
    requires Ranked(was, mid, node, base, hebrew, CountAll(node.children[..i + 1]), Count(node))
    requires Ranked(mid, now, node.children[i],
                    base + CountAll(node.children[..i]), hebrew + CountAll(node.children[i + 1..]),
                    0, Count(node.children[i]))
    ensures Ranked(was, now, node, base, hebrew, CountAll(node.children[..i]), Count(node))
  {
    var before := CountAll(node.children[..i]);
    forall k | base + before <= k < base + before + Count(node.children[i])
      ensures now[k] == was[k].(hebrew := hebrew + HebrewPos(node, k - base))
    {
      HebrewOfChild(node.children, true, i, k - base - before);
    }
  }

  /** `hebrew_walk`: writes the Hebrew rank of every strand below `node` into its record, touches no
      other record, and moves both counters past the subtree. */
  method HebrewWalk(node: Node, hebrew: nat, out: array<StrandInfo>, cursor: nat)
    returns (hebrew': nat, cursor': nat)
    requires cursor + Count(node) <= out.Length
    modifies out
    ensures hebrew' == hebrew + Count(node) && cursor' == cursor + Count(node)
    ensures Ranked(old(out[..]), out[..], node, cursor, hebrew, 0, Count(node))
    decreases node
  {
    hebrew', cursor' := hebrew, cursor;
    match node
    case Strand(_) =>
      out[cursor'] := out[cursor'].(hebrew := hebrew');
      hebrew', cursor' := hebrew' + 1, cursor' + 1;
    case Series(_) => hebrew', cursor' := WalkSeries(node, hebrew, out, cursor);
    case Parallel(_) => hebrew', cursor' := WalkParallel(node, hebrew, out, cursor);
  }

  method WalkSeries(node: Node, hebrew: nat, out: array<StrandInfo>, cursor: nat)
    returns (hebrew': nat, cursor': nat)
    requires node.Series? && cursor + Count(node) <= out.Length
    modifies out
    ensures hebrew' == hebrew + Count(node) && cursor' == cursor + Count(node)
    ensures Ranked(old(out[..]), out[..], node, cursor, hebrew, 0, Count(node))
    decreases node, 0
  {
    hebrew', cursor' := hebrew, cursor;
    var children := node.children;
    for i := 0 to |children|
      invariant CountAll(children[..i]) <= Count(node)
      invariant hebrew' == hebrew + CountAll(children[..i]) && cursor' == cursor + CountAll(children[..i])
      invariant Ranked(old(out[..]), out[..], node, cursor, hebrew, 0, CountAll(children[..i]))
    {
      CountSplit(children, i);
      ghost var mid := out[..];
      hebrew', cursor' := HebrewWalk(children[i], hebrew', out, cursor');
      RankNextChild(old(out[..]), mid, out[..], node, i, cursor, hebrew);
    }
    assert children[..|children|] == children;
  }

  /** The English index of each child's first strand. */
  method ChildBases(children: seq<Node>, first: nat) returns (bases: seq<nat>, end: nat)
    ensures |bases| == |children| && end == first + CountAll(children)
    ensures forall i :: 0 <= i < |children| ==> bases[i] == first + CountAll(children[..i])
  {
    bases, end := [], first;
    for i := 0 to |children|
      invariant |bases| == i && end == first + CountAll(children[..i])
      invariant forall j :: 0 <= j < i ==> bases[j] == first + CountAll(children[..j])
    {
      CountSplit(children, i);
      bases := bases + [end];
      end := end + Count(children[i]);
    }
    assert children[..|children|] == children;
  }

  method WalkParallel(node: Node, hebrew: nat, out: array<StrandInfo>, cursor: nat)
    returns (hebrew': nat, cursor': nat)
    requires node.Parallel? && cursor + Count(node) <= out.Length
    modifies out
    ensures hebrew' == hebrew + Count(node) && cursor' == cursor + Count(node)
    ensures Ranked(old(out[..]), out[..], node, cursor, hebrew, 0, Count(node))
    decreases node, 0
  {
    hebrew' := hebrew;
    var children := node.children;
    var bases, end := ChildBases(children, cursor);
    assert children[..|children|] == children;
    for i := |children| downto 0
      invariant CountAll(children) == CountAll(children[..i]) + CountAll(children[i..])
      invariant hebrew' == hebrew + CountAll(children[i..])
      invariant Ranked(old(out[..]), out[..], node, cursor, hebrew, CountAll(children[..i]), Count(node))
    {
      CountSplit(children, i);
      ghost var mid := out[..];
      var ignored: nat;
      hebrew', ignored := HebrewWalk(children[i], hebrew', out, bases[i]);
      RankPriorChild(old(out[..]), mid, out[..], node, i, cursor, hebrew);
    }
    cursor' := end;
  }
}

/**
 The lifeline graph of src/scheduler.rs: worker indices that differ in one bit, clamped to the
 number of workers, which need not be a power of two.
 */
module Hypercube {
  import opened Numbers

  function Differ(x: nat, y: nat): nat { if x == y then 0 else 1 }

  function Both(x: nat, y: nat): nat { if x == 1 && y == 1 then 1 else 0 }

  /** Bitwise exclusive or. */
  function Xor(a: nat, b: nat): nat
    decreases a + b
  {
    if a == 0 && b == 0 then 0 else 2 * Xor(a / 2, b / 2) + Differ(a % 2, b % 2)
  }

  function And(a: nat, b: nat): nat
    decreases a + b
  {
    if a == 0 && b == 0 then 0 else 2 * And(a / 2, b / 2) + Both(a % 2, b % 2)
  }

  /** The number of bits in which two indices differ. */
  function Hamming(a: nat, b: nat): nat
    decreases a + b
  {
    if a == 0 && b == 0 then 0 else Hamming(a / 2, b / 2) + Differ(a % 2, b % 2)
  }

  ghost predicate Adjacent(u: nat, v: nat) {
    exists k: nat :: v == Xor(u, Pow2(k))
  }

  lemma {:induction false} XorTwice(u: nat, b: nat)
    ensures Xor(Xor(u, b), b) == u
    decreases u + b
  {
    if u != 0 || b != 0 {
      XorTwice(u / 2, b / 2);
    }
  }

  lemma AdjacentSymmetric(u: nat, v: nat)
    requires Adjacent(u, v)
    ensures Adjacent(v, u)
  {
    var k: nat :| v == Xor(u, Pow2(k));
    XorTwice(u, Pow2(k));
  }

  /** Flipping a bit above an index exceeds every bound on it. */
  lemma {:induction false} XorHigh(u: nat, k: nat)
    requires u < Pow2(k)
    ensures Xor(u, Pow2(k)) == u + Pow2(k)
    decreases k
  {
    if k == 0 {
      assert Xor(0, 0) == 0;
    } else {
      XorHigh(u / 2, k - 1);
    }
  }

  lemma {:induction false} XorDiffers(u: nat, k: nat)
    ensures Xor(u, Pow2(k)) != u
    decreases k
  {
    if k > 0 {
      XorDiffers(u / 2, k - 1);
    }
  }

  lemma {:induction false} XorDistinct(u: nat, j: nat, k: nat)
    requires j < k
    ensures Xor(u, Pow2(j)) != Xor(u, Pow2(k))
    decreases j
  {
    if j > 0 {
      XorDistinct(u / 2, j - 1, k - 1);
    }
  }

  /** `hypercube_neighbours`: exactly the indices below `n` that differ from `id` in one bit, each once. */
  method HypercubeNeighbours(id: nat, n: nat) returns (out: seq<nat>)
    requires id < n
    ensures forall v: nat :: v in out <==> v < n && Adjacent(id, v)
    ensures forall i, j :: 0 <= i < j < |out| ==> out[i] != out[j]
  {
    out := [];
    var bit := 1;
    ghost var k := 0;
    while bit < n
      invariant bit == Pow2(k)
      invariant forall v: nat :: v in out <==> v < n && exists j: nat :: j < k && v == Xor(id, Pow2(j))
      invariant forall i, j :: 0 <= i < j < |out| ==> out[i] != out[j]
      decreases n - bit
    {
      var neighbour := Xor(id, bit);
      XorDiffers(id, k);
      forall j: nat | j < k
        ensures Xor(id, Pow2(j)) != neighbour
      {
        XorDistinct(id, j, k);
      }
      assert neighbour !in out;
      if neighbour < n && neighbour != id {
        out := out + [neighbour];
      }
      bit := bit * 2;
      k := k + 1;
    }
    forall v: nat | v < n && Adjacent(id, v)
      ensures v in out
    {
      var j: nat :| v == Xor(id, Pow2(j));
      if j >= k {
        Pow2Grows(k, j);
        XorHigh(id, j);
      }
    }
  }

  // ---------------------------------------------------------------- connectivity

  /** A walk along lifelines that stays within the workers up to `top`. */
  ghost predicate IsPath(p: seq<nat>, u: nat, v: nat, top: nat) {
    && p != [] && p[0] == u && p[|p| - 1] == v
    && (forall i :: 0 <= i < |p| ==> p[i] <= top)
    && (forall i :: 0 <= i < |p| - 1 ==> Adjacent(p[i], p[i + 1]))
  }

  lemma AdjacentDoubled(x: nat, y: nat, b: nat)
    requires Adjacent(x, y) && b < 2
    ensures Adjacent(2 * x + b, 2 * y + b)
  {
    var k: nat :| y == Xor(x, Pow2(k));
    assert Pow2(k + 1) == 2 * Pow2(k);
    assert Xor(2 * x + b, Pow2(k + 1)) == 2 * Xor(x, Pow2(k)) + b;
  }

  lemma AdjacentLowBit(x: nat)
    ensures Adjacent(2 * x + 1, 2 * x)
  {
    XorZero(x);
    assert Xor(2 * x + 1, Pow2(0)) == 2 * x;
  }

  lemma {:induction false} XorZero(x: nat)
    ensures Xor(x, 0) == x
  {
    if x > 0 {
      XorZero(x / 2);
    }
  }

  lemma {:induction false} AndBelow(u: nat, v: nat)
    ensures And(u, v) <= u && And(u, v) == And(v, u)
    decreases u + v
  {
    if u != 0 || v != 0 {
      AndBelow(u / 2, v / 2);
    }
  }

  lemma {:induction false} HammingSymmetric(u: nat, v: nat)
    ensures Hamming(u, v) == Hamming(v, u)
    decreases u + v
  {
    if u != 0 || v != 0 {
      HammingSymmetric(u / 2, v / 2);
    }
  }

  /** The common bits lie on a shortest way between two indices. */
  lemma {:induction false} HammingThrough(u: nat, v: nat)
    ensures Hamming(u, v) == Hamming(u, And(u, v)) + Hamming(And(u, v), v)
    decreases u + v
  {
    if u != 0 || v != 0 {
      HammingThrough(u / 2, v / 2);
      var w := And(u, v);
      assert w / 2 == And(u / 2, v / 2) && w % 2 == Both(u % 2, v % 2);
      HammingStep(u, v);
      HammingStep(u, w);
      HammingStep(w, v);
    }
  }

  lemma HammingStep(u: nat, v: nat)
    ensures Hamming(u, v) == Hamming(u / 2, v / 2) + Differ(u % 2, v % 2)
  {
  }

  /** Clearing the bits `u` does not share with `v`, one at a time, never goes above `u`. */
  lemma {:induction false} PathDown(u: nat, v: nat) returns (p: seq<nat>)
    ensures IsPath(p, u, And(u, v), u) && |p| == Hamming(u, And(u, v)) + 1
    decreases u + v
  {
    if u == 0 && v == 0 {
      p := [0];
    } else {
      var q := PathDown(u / 2, v / 2);
      p := PathDoubled(q, u / 2, And(u / 2, v / 2), u % 2);
      var w := And(u, v);
      assert w / 2 == And(u / 2, v / 2) && w % 2 == Both(u % 2, v % 2);
      HammingStep(u, w);
      if u % 2 == 1 && v % 2 == 0 {
        AdjacentLowBit(w / 2);
        p := p + [w];
      }
    }
  }

  lemma PathDoubled(q: seq<nat>, u: nat, w: nat, b: nat) returns (p: seq<nat>)
    requires IsPath(q, u, w, u) && b < 2
    ensures IsPath(p, 2 * u + b, 2 * w + b, 2 * u + b) && |p| == |q|
  {
    p := seq(|q|, i requires 0 <= i < |q| => 2 * q[i] + b);
    forall i | 0 <= i < |p| - 1
      ensures Adjacent(p[i], p[i + 1])
    {
      AdjacentDoubled(q[i], q[i + 1], b);
    }
  }

  lemma Reversed(p: seq<nat>, u: nat, v: nat, top: nat) returns (r: seq<nat>)
    requires IsPath(p, u, v, top)
    ensures IsPath(r, v, u, top) && |r| == |p|
  {
    r := seq(|p|, i requires 0 <= i < |p| => p[|p| - 1 - i]);
    forall i | 0 <= i < |r| - 1
      ensures Adjacent(r[i], r[i + 1])
    {
      AdjacentSymmetric(p[|p| - 2 - i], p[|p| - 1 - i]);
    }
  }

  lemma {:induction false} HammingBound(u: nat, v: nat, bits: nat)
    requires u < Pow2(bits) && v < Pow2(bits)
    ensures Hamming(u, v) <= bits
    decreases bits
  {
    if bits > 0 && (u != 0 || v != 0) {
      HammingBound(u / 2, v / 2, bits - 1);
    }
  }

  /** Work reaches every worker: any two are joined by a walk along lifelines that stays below `n` and
      is as long as the number of bits they differ in, at most the number of bits of `n - 1`. */
  lemma Connected(u: nat, v: nat, n: nat, bits: nat) returns (p: seq<nat>)
    requires u < n && v < n && n <= Pow2(bits)
    ensures IsPath(p, u, v, n - 1)
    ensures |p| - 1 == Hamming(u, v) <= bits
  {
    var w := And(u, v);
    AndBelow(u, v);
    HammingThrough(u, v);
    HammingSymmetric(v, w);
    HammingBound(u, v, bits);
    var down := PathDown(u, v);
    var back := PathDown(v, u);
    var up := Reversed(back, v, w, v);
    p := PathJoined(down, up, u, w, v, n - 1);
  }

  lemma PathJoined(a: seq<nat>, b: seq<nat>, u: nat, w: nat, v: nat, top: nat) returns (p: seq<nat>)
    requires u <= top && v <= top && IsPath(a, u, w, u) && IsPath(b, w, v, v)
    ensures IsPath(p, u, v, top) && |p| == |a| + |b| - 1
  {
    p := a + b[1..];
    forall i | 0 <= i < |p| - 1
      ensures Adjacent(p[i], p[i + 1])
    {
      if i >= |a| - 1 {
        assert p[i] == b[i - (|a| - 1)] && p[i + 1] == b[i - (|a| - 1) + 1];
      }
    }
  }
}

/** Facts about identifiers and cyclic positions shared by the protocol models. */
module Numbers {

  datatype Option<T> = None | Some(value: T)

  function Max(a: int, b: int): int {
    if a < b then b else a
  }

  /** Counts one item. */
  function Is(t: nat, x: nat): nat {
    if t == x then 1 else 0
  }

  /** The first `n` identifiers, in order. */
  function Upto(n: nat): (r: seq<nat>)
    ensures |r| == n
    ensures forall i :: 0 <= i < n ==> r[i] == i
  {
    seq(n, i => i)
  }

  /** Two logical indices closer than the capacity never share a cell. */
  lemma ModDistinct(i: int, j: int, cap: int)
    requires 0 < cap
    requires 0 < j - i < cap
    ensures i % cap != j % cap
  {
    var q := j / cap - i / cap;
    assert j - i == q * cap + (j % cap - i % cap);
    MulBounds(q, cap);
  }

  lemma MulBounds(k: int, cap: int)
    requires cap > 0
    ensures k >= 1 ==> k * cap >= cap
    ensures k <= 0 ==> k * cap <= 0
  {
  }

  /** A bag counts every identifier below `n` exactly once. */
  lemma UptoOnce(n: nat, id: nat)
    ensures multiset(Upto(n))[id] == if id < n then 1 else 0
    decreases n
  {
    if n > 0 {
      UptoOnce(n - 1, id);
      assert Upto(n) == Upto(n - 1) + [n - 1];
    }
  }

  lemma UptoExtend(n: nat)
    ensures multiset(Upto(n + 1)) == multiset(Upto(n)) + multiset{n}
  {
    assert Upto(n + 1) == Upto(n) + [n];
  }

  function Pow2(k: nat): (r: nat)
    ensures r > 0
  {
    if k == 0 then 1 else 2 * Pow2(k - 1)
  }

  lemma Pow2Sum(a: nat, b: nat)
    ensures Pow2(a) * Pow2(b) == Pow2(a + b)
  {
    if a > 0 {
      Pow2Sum(a - 1, b);
    }
  }

  lemma Pow2Grows(a: nat, b: nat)
    requires a <= b
    ensures Pow2(a) <= Pow2(b)
  {
    if a < b {
      Pow2Grows(a, b - 1);
    }
  }

  lemma MulAssociates(a: int, b: int, c: int)
    ensures a * b * c == a * (b * c)
  {
  }

  /** Reducing modulo a multiple first changes nothing. */
  lemma ModMod(x: int, big: int, cap: int, m: int)
    requires cap > 0 && m > 0 && big == cap * m
    ensures (x % big) % cap == x % cap
  {
    var q, r := x / big, x % big;
    assert x == r + cap * (m * q);
    ModShift(r, cap, m * q);
  }

  lemma ModShift(r: int, cap: int, n: int)
    requires cap > 0
    ensures (r + cap * n) % cap == r % cap
  {
    var a, b := (r + cap * n) % cap, r % cap;
    var q := (r + cap * n) / cap - r / cap - n;
    assert r + cap * n == cap * ((r + cap * n) / cap) + a;
    assert r == cap * (r / cap) + b;
    assert cap * q == b - a by {
      assert cap * q == cap * ((r + cap * n) / cap) - cap * (r / cap) - cap * n;
    }
    MulBounds(q, cap);
    MulBounds(-q, cap);
  }

  /** How often `x` occurs in a sequence. */
  function Occ(q: seq<nat>, x: nat): nat {
    if q == [] then 0 else Occ(q[..|q| - 1], x) + if q[|q| - 1] == x then 1 else 0
  }

  lemma OccAppend(q: seq<nat>, y: nat, x: nat)
    ensures Occ(q + [y], x) == Occ(q, x) + if y == x then 1 else 0
  {
    assert (q + [y])[..|q|] == q;
  }

  lemma OccFirst(q: seq<nat>, x: nat)
    requires q != []
    ensures Occ(q, x) == (if q[0] == x then 1 else 0) + Occ(q[1..], x)
    decreases |q|
  {
    if |q| > 1 {
      var front := q[..|q| - 1];
      OccFirst(front, x);
      assert q[1..][..|q| - 2] == front[1..];
    }
  }

  lemma OccMultiset(q: seq<nat>, x: nat)
    ensures Occ(q, x) == multiset(q)[x]
    decreases |q|
  {
    if q != [] {
      OccMultiset(q[..|q| - 1], x);
      assert q == q[..|q| - 1] + [q[|q| - 1]];
    }
  }

  /** Distinct identifiers below `n`, as many as there are, are all of them. */
  lemma Pigeonhole(q: seq<nat>, n: nat)
    requires |q| == n && forall x: nat :: Occ(q, x) <= if x < n then 1 else 0
    ensures forall x: nat :: Occ(q, x) == if x < n then 1 else 0
  {
    forall x: nat
      ensures multiset(q)[x] <= multiset(Upto(n))[x]
    {
      OccMultiset(q, x);
      UptoOnce(n, x);
    }
    BagSubset(multiset(q), multiset(Upto(n)));
    forall x: nat
      ensures Occ(q, x) == if x < n then 1 else 0
    {
      OccMultiset(q, x);
      UptoOnce(n, x);
    }
  }

  lemma BagSubset(a: multiset<nat>, b: multiset<nat>)
    requires forall x :: a[x] <= b[x]
    requires |a| == |b|
    ensures a == b
  {
    assert b == a + (b - a);
    assert |b - a| == 0;
  }

  /** No more distinct identifiers below `n` than `n`. */
  lemma AtMost(q: seq<nat>, n: nat)
    requires forall x: nat :: Occ(q, x) <= if x < n then 1 else 0
    ensures |q| <= n
  {
    forall x: nat
      ensures multiset(q)[x] <= multiset(Upto(n))[x]
    {
      OccMultiset(q, x);
      UptoOnce(n, x);
    }
    var rest := multiset(Upto(n)) - multiset(q);
    assert multiset(Upto(n)) == multiset(q) + rest;
  }
}

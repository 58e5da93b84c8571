/** The 64-bit `isize` the deques index with, and how its wrapping relates to unbounded indices. */
module Isize {
  import opened Numbers

  const HALF := 0x8000_0000_0000_0000
  const WORD := 0x1_0000_0000_0000_0000

  newtype ISize = x: int | -0x8000_0000_0000_0000 <= x < 0x8000_0000_0000_0000

  /** Two's complement truncation: add or drop whole words until the value fits. */
  function Wrap(x: int): ISize
    decreases if x < 0 then -x else x + 1
  {
    if x >= HALF then Wrap(x - WORD) else if x < -HALF then Wrap(x + WORD) else x as ISize
  }

  function WrappingAdd(a: ISize, b: ISize): ISize { Wrap(a as int + b as int) }

  function WrappingSub(a: ISize, b: ISize): ISize { Wrap(a as int - b as int) }

  /** `index as usize & mask` for a power-of-two capacity. */
  function Slot(index: ISize, cap: nat): (r: nat)
    requires cap > 0
    ensures r < cap
  {
    (index as int % WORD) % cap
  }

  /** The capacities a buffer can have: powers of two up to 2^62. */
  ghost predicate IsCap(cap: nat) {
    exists k: nat :: k <= 62 && cap == Pow2(k)
  }

  lemma WrapSplit(x: int) returns (q: int)
    ensures x == Wrap(x) as int + q * WORD
    decreases if x < 0 then -x else x + 1
  {
    if x >= HALF {
      q := WrapSplit(x - WORD);
      q := q + 1;
    } else if x < -HALF {
      q := WrapSplit(x + WORD);
      q := q - 1;
    } else {
      q := 0;
    }
  }

  /** Truncation is the one isize a whole number of words away. */
  lemma WrapUnique(x: int, r: int, q: int)
    requires x == r + q * WORD && -HALF <= r < HALF
    ensures Wrap(x) as int == r
  {
    var k := WrapSplit(x);
  }

  lemma WrapSmall(x: int)
    requires -HALF <= x < HALF
    ensures Wrap(x) as int == x
  {
  }

  lemma WrapPeriodic(x: int)
    ensures (Wrap(x) as int - x) % WORD == 0
    ensures Wrap(x) as int % WORD == x % WORD
  {
    var q := WrapSplit(x);
    ModShift(Wrap(x) as int, WORD, q);
    ModShift(0, WORD, -q);
  }

  lemma WrapSame(x: int, y: int, q: int)
    requires x == y + q * WORD
    ensures Wrap(x) == Wrap(y)
  {
    var qy := WrapSplit(y);
    WrapUnique(x, Wrap(y) as int, qy + q);
  }

  /** Two wrapped indices differ by their true distance whenever that fits. */
  lemma WrapDistance(x: int, y: int)
    ensures WrappingSub(Wrap(x), Wrap(y)) == Wrap(x - y)
    ensures -HALF <= x - y < HALF ==> WrappingSub(Wrap(x), Wrap(y)) as int == x - y
  {
    var qx := WrapSplit(x);
    var qy := WrapSplit(y);
    WrapSame(x - y, Wrap(x) as int - Wrap(y) as int, qx - qy);
    if -HALF <= x - y < HALF {
      WrapSmall(x - y);
    }
  }

  lemma WrapStep(x: int, k: ISize)
    ensures WrappingAdd(Wrap(x), k) == Wrap(x + k as int)
    ensures WrappingSub(Wrap(x), k) == Wrap(x - k as int)
  {
    var q := WrapSplit(x);
    WrapSame(x + k as int, Wrap(x) as int + k as int, q);
    WrapSame(x - k as int, Wrap(x) as int - k as int, q);
  }

  /** Wrapped indices are equal only a whole number of wrap-arounds apart. */
  lemma WrapInjective(x: int, y: int)
    requires -WORD < x - y < WORD
    ensures Wrap(x) == Wrap(y) <==> x == y
  {
    var qx := WrapSplit(x);
    var qy := WrapSplit(y);
  }

  lemma CapDividesWord(cap: nat) returns (m: nat)
    requires IsCap(cap)
    ensures m > 0 && WORD == cap * m && 0 < cap <= HALF / 2
  {
    var k: nat :| k <= 62 && cap == Pow2(k);
    m := Pow2(64 - k);
    Pow2Sum(k, 64 - k);
    Pow2Grows(k, 62);
    assert Pow2(62) == HALF / 2 && Pow2(64) == WORD by { BigPowers(); }
  }

  lemma BigPowers()
    ensures Pow2(62) == HALF / 2 && Pow2(64) == WORD
  {
    SmallPowers();
    Pow2Sum(16, 16);
    Pow2Sum(32, 32);
    assert Pow2(64) == 2 * Pow2(63) && Pow2(63) == 2 * Pow2(62);
  }

  lemma SmallPowers()
    ensures Pow2(16) == 0x1_0000
  {
    assert Pow2(4) == 16;
    Pow2Sum(4, 4);
    Pow2Sum(8, 8);
  }

  /** Masking a wrapped index picks the same cell as reducing the unbounded one. */
  lemma SlotOfWrap(x: int, cap: nat)
    requires IsCap(cap)
    ensures cap > 0 && Slot(Wrap(x), cap) == x % cap
  {
    var m := CapDividesWord(cap);
    WrapPeriodic(x);
    ModMod(x, WORD, cap, m);
  }

  lemma CapDoubles(cap: nat)
    requires IsCap(cap) && cap < HALF / 2
    ensures IsCap(cap * 2)
  {
    var k: nat :| k <= 62 && cap == Pow2(k);
    if k == 62 {
      BigPowers();
    }
    assert Pow2(k + 1) == cap * 2;
  }

  /** Halving stays a power of two; above 16 it stays at least 16. */
  lemma CapHalves(cap: nat)
    requires IsCap(cap) && cap > 16
    ensures IsCap(cap / 2) && cap / 2 >= 16 && cap == cap / 2 * 2
  {
    var k: nat :| k <= 62 && cap == Pow2(k);
    assert cap == 2 * Pow2(k - 1);
    assert Pow2(4) == 16;
    if k <= 4 {
      Pow2Grows(k, 4);
    } else {
      Pow2Grows(4, k - 1);
    }
  }
}

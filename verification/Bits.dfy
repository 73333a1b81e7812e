/** Trailing-zero arithmetic behind the skip ring: `LowBit` is a rank's lowest set bit and
    `TrailingZeros` its position.  Everything is proved by halving. */
module Bits {

  function Pow2(k: nat): (p: nat)
    ensures p >= 1
  {
    if k == 0 then 1 else 2 * Pow2(k - 1)
  }

  function TrailingZeros(r: nat): nat
    requires r > 0
  {
    if r % 2 == 1 then 0 else 1 + TrailingZeros(r / 2)
  }

  function LowBit(r: nat): (b: nat)
    requires r > 0
    ensures 1 <= b <= r
  {
    if r % 2 == 1 then 1 else 2 * LowBit(r / 2)
  }

  /** The rank reached from `r` by adding its lowest set bit. */
  function Up(r: nat): nat
    requires r > 0
  {
    r + LowBit(r)
  }

  /** `r` with its lowest set bit cleared. */
  function Wall(r: nat): nat
    requires r > 0
  {
    r - LowBit(r)
  }

  function FloorLog2(n: nat): (k: nat)
    requires n > 0
    ensures Pow2(k) <= n < 2 * Pow2(k)
  {
    if n == 1 then 0 else 1 + FloorLog2(n / 2)
  }

  /** The least exponent whose power of two is at least `n`. */
  function CeilLog2(n: nat): nat
    requires n > 0
  {
    if n == Pow2(FloorLog2(n)) then FloorLog2(n) else FloorLog2(n) + 1
  }

  ghost predicate IsPow2(n: nat) {
    exists k: nat :: n == Pow2(k)
  }

  lemma {:induction false} Pow2Monotone(i: nat, j: nat)
    requires i < j
    ensures 2 * Pow2(i) <= Pow2(j)
    decreases j
  {
    if i + 1 < j {
      Pow2Monotone(i, j - 1);
    }
  }

  lemma FloorLog2Unique(n: nat, k: nat)
    requires Pow2(k) <= n < 2 * Pow2(k)
    ensures n > 0 && FloorLog2(n) == k
  {
    var f := FloorLog2(n);
    if f < k {
      Pow2Monotone(f, k);
    } else if k < f {
      Pow2Monotone(k, f);
    }
  }

  lemma IsPow2Iff(n: nat)
    requires n > 0
    ensures IsPow2(n) <==> n == Pow2(FloorLog2(n))
  {
    if IsPow2(n) {
      var k: nat :| n == Pow2(k);
      FloorLog2Unique(n, k);
    }
  }

  lemma CeilLog2Least(n: nat)
    requires n > 0
    ensures n <= Pow2(CeilLog2(n))
    ensures forall k: nat | n <= Pow2(k) :: CeilLog2(n) <= k
  {
    forall k: nat | n <= Pow2(k)
      ensures CeilLog2(n) <= k
    {
      if k < CeilLog2(n) {
        if k < FloorLog2(n) {
          Pow2Monotone(k, FloorLog2(n));
        }
      }
    }
  }

  lemma {:induction false} LowBitIsPow2(r: nat)
    requires r > 0
    ensures LowBit(r) == Pow2(TrailingZeros(r))
  {
    if r % 2 == 0 {
      LowBitIsPow2(r / 2);
    }
  }

  /** Whether bit `i` of `r` is set: the test `r & (1 << i)`. */
  predicate BitAt(r: nat, i: nat) {
    if i == 0 then r % 2 == 1 else BitAt(r / 2, i - 1)
  }

  ghost predicate NoBitBelow(r: nat, i: nat) {
    forall j: nat | j < i :: !BitAt(r, j)
  }

  lemma NoBitBelowHalf(r: nat, i: nat)
    requires i > 0 && NoBitBelow(r, i)
    ensures r % 2 == 0 && NoBitBelow(r / 2, i - 1)
  {
    assert !BitAt(r, 0);
    forall j: nat | j < i - 1
      ensures !BitAt(r / 2, j)
    {
      assert !BitAt(r, j + 1);
    }
  }

  /** A set bit with nothing below it is the lowest bit. */
  lemma {:induction false} LowestSetBit(r: nat, i: nat)
    requires NoBitBelow(r, i)
    ensures BitAt(r, i) ==> r > 0 && LowBit(r) == Pow2(i)
  {
    if i > 0 {
      NoBitBelowHalf(r, i);
      LowestSetBit(r / 2, i - 1);
    }
  }

  /** When only the top bit can be set, the number is zero or its own lowest bit. */
  lemma {:induction false} LoneBit(r: nat, i: nat)
    requires NoBitBelow(r, i) && r < 2 * Pow2(i)
    ensures r == 0 || LowBit(r) == r
  {
    if i > 0 {
      NoBitBelowHalf(r, i);
      LoneBit(r / 2, i - 1);
    }
  }

  /** Adding a bit below the lowest set bit makes it the lowest set bit. */
  lemma {:induction false} AddLowerBit(r: nat, j: nat)
    requires r > 0 ==> j < TrailingZeros(r)
    ensures TrailingZeros(r + Pow2(j)) == j && LowBit(r + Pow2(j)) == Pow2(j)
    decreases j
  {
    if j == 0 {
    } else {
      AddLowerBit(r / 2, j - 1);
      assert (r + Pow2(j)) / 2 == r / 2 + Pow2(j - 1);
    }
  }

  /** The climb strictly raises the level and never moves the wall forward. */
  lemma {:induction false} UpRaises(r: nat)
    requires r > 0
    ensures TrailingZeros(Up(r)) > TrailingZeros(r)
    ensures Wall(Up(r)) <= Wall(r)
  {
    if r % 2 == 0 {
      UpRaises(r / 2);
      assert Up(r) / 2 == Up(r / 2);
    } else {
      assert LowBit(Up(r)) >= 2;
    }
  }

  /** Clearing the lowest set bit strictly raises the level. */
  lemma {:induction false} WallRaises(r: nat)
    requires r > 0 && Wall(r) > 0
    ensures TrailingZeros(Wall(r)) > TrailingZeros(r)
  {
    if r % 2 == 0 {
      WallRaises(r / 2);
      assert Wall(r) / 2 == Wall(r / 2);
    }
  }

  /** Strictly inside the block that ends at `t`, the climb cannot jump over `t`. */
  lemma {:induction false} ClimbStaysInBlock(o: nat, t: nat)
    requires t > 0 && Wall(t) < o < t
    ensures Up(o) <= t
  {
    assert t % 2 == 0;
    if o % 2 == 0 {
      assert Wall(t) / 2 == Wall(t / 2);
      ClimbStaysInBlock(o / 2, t / 2);
      assert Up(o) / 2 == Up(o / 2);
    }
  }

  /** A rank climbed to from `Up(o)` is climbed to from `o`. */
  lemma {:induction false} ClimbExtends(o: nat, p: nat)
    requires 0 < o && Up(o) < p && Wall(p) < Up(o)
    ensures Wall(p) < o
  {
    if o % 2 == 0 {
      assert p % 2 == 0;
      assert Up(o) / 2 == Up(o / 2) && Wall(p) / 2 == Wall(p / 2);
      ClimbExtends(o / 2, p / 2);
    }
  }
}

/** Little-endian words and two's complement, as the memory of an LP64 machine holds them. */
module Bytes {
  import opened Common

  type byte = x: int | 0 <= x < 256

  function Pow256(k: nat): (p: nat)
    ensures p > 0
  {
    if k == 0 then 1 else 256 * Pow256(k - 1)
  }

  /** The `k` bytes of `n`, least significant first; higher bytes are cut off. */
  function Word(n: nat, k: nat): (bs: seq<byte>)
    ensures |bs| == k
  {
    if k == 0 then [] else [n % 256] + Word(n / 256, k - 1)
  }

  function Value(bs: seq<byte>): (n: nat) {
    if bs == [] then 0 else bs[0] + 256 * Value(bs[1..])
  }

  lemma {:induction false} WordRoundTrip(n: nat, k: nat)
    requires n < Pow256(k)
    ensures Value(Word(n, k)) == n
  {
    if k > 0 {
      WordRoundTrip(n / 256, k - 1);
      assert Word(n, k)[1..] == Word(n / 256, k - 1);
    }
  }

  lemma FewerTimes(d: nat, q: nat, r: nat, q': nat)
    requires q < q' && r < d
    ensures q * d + r < q' * d
  {
    assert (q + 1) * d <= q' * d;
  }

  lemma Quotient(n: nat, d: nat, q: nat, r: nat)
    requires n == q * d + r && r < d
    ensures n / d == q
  {
    if n / d < q {
      FewerTimes(d, n / d, n % d, q);
    } else if n / d > q {
      FewerTimes(d, q, r, n / d);
    }
  }

  lemma DivideTwice(n: nat, p: nat)
    requires p > 0
    ensures n / 256 / p == n / (256 * p)
  {
    var q, r := n / 256 / p, n / 256 % p;
    assert n == (q * p + r) * 256 + n % 256;
    assert (q * p + r) * 256 == q * (256 * p) + r * 256;
    Quotient(n, 256 * p, q, r * 256 + n % 256);
  }

  /** Least significant first: byte `i` is digit `i` to the base 256. */
  lemma {:induction false} WordByte(n: nat, k: nat, i: nat)
    requires i < k
    ensures Word(n, k)[i] == n / Pow256(i) % 256
  {
    if i > 0 {
      WordByte(n / 256, k - 1, i - 1);
      DivideTwice(n, Pow256(i - 1));
    }
  }

  lemma {:induction false} ValueRoundTrip(bs: seq<byte>)
    ensures Value(bs) < Pow256(|bs|) && Word(Value(bs), |bs|) == bs
  {
    if bs != [] {
      ValueRoundTrip(bs[1..]);
    }
  }

  const INT_HALF := 0x8000_0000
  const INT_WORD := 0x1_0000_0000
  const LONG_WORD := 0x1_0000_0000_0000_0000

  lemma Widths()
    ensures Pow256(4) == INT_WORD && Pow256(8) == LONG_WORD
  {
    assert Pow256(2) == 65536;
    assert Pow256(4) == 65536 * 65536;
    assert Pow256(6) == 65536 * Pow256(4);
    assert Pow256(8) == 65536 * Pow256(6);
  }

  predicate IsInt(x: int) {
    -INT_HALF <= x < INT_HALF
  }

  predicate IsLong(x: int) {
    0 <= x < LONG_WORD
  }

  /** A C int as its 32-bit pattern, and back. */
  function Unsigned(x: int): (u: nat)
    ensures u < INT_WORD
  {
    x % INT_WORD
  }

  function Signed(u: nat): (x: int)
    ensures IsInt(x)
  {
    var w := u % INT_WORD;
    if w < INT_HALF then w else w - INT_WORD
  }

  lemma IntRoundTrip(x: int)
    requires IsInt(x)
    ensures Value(Word(Unsigned(x), 4)) == Unsigned(x) && Signed(Value(Word(Unsigned(x), 4))) == x
  {
    Widths();
    WordRoundTrip(Unsigned(x), 4);
  }

  lemma LongRoundTrip(n: nat)
    requires IsLong(n)
    ensures Value(Word(n, 8)) == n
  {
    Widths();
    WordRoundTrip(n, 8);
  }

  function Zeros(n: nat): (bs: seq<byte>)
    ensures |bs| == n && forall i | 0 <= i < n :: bs[i] == 0
  {
    Repeat(0, n)
  }
}

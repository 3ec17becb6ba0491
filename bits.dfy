/** Machine words and the shift arithmetic the simulator uses on addresses. */
module Bits {

  /** Number of values of a 32-bit C `unsigned int`. */
  const WORD: int := 0x1_0000_0000

  /** A C `unsigned int`: instruction and data addresses. */
  type Word = x: int | 0 <= x < WORD

  /** One more than the largest 32-bit C `int`. */
  const INT_LIMIT: int := 0x8000_0000

  /** `1 << n`, as an unbounded integer. */
  function Pow2(n: nat): (r: nat)
    ensures r >= 1
  {
    if n == 0 then 1 else 2 * Pow2(n - 1)
  }

  /** `x >> n` on an unsigned value: `n` halvings, each rounding down. */
  function Shr(x: nat, n: nat): nat
  {
    if n == 0 then x else Shr(x / 2, n - 1)
  }

  /** `x % (1 << n)` on an unsigned value: the `n` low bits of `x`. */
  function Low(x: nat, n: nat): nat
  {
    if n == 0 then 0 else x % 2 + 2 * Low(x / 2, n - 1)
  }

  lemma {:induction false} Pow2Add(m: nat, n: nat)
    ensures Pow2(m + n) == Pow2(m) * Pow2(n)
  {
    if m > 0 {
      Pow2Add(m - 1, n);
      assert Pow2(m + n) == 2 * Pow2(m - 1 + n);
    }
  }

  /** Shifting by `a` and then by `b` is shifting by `a + b`. */
  lemma {:induction false} ShrShr(x: nat, a: nat, b: nat)
    ensures Shr(Shr(x, a), b) == Shr(x, a + b)
  {
    if a > 0 {
      ShrShr(x / 2, a - 1, b);
    }
  }

  /** The shifted value and the shifted-out low bits rebuild the number. */
  lemma {:induction false} ShrSplit(x: nat, n: nat)
    ensures x == Shr(x, n) * Pow2(n) + Low(x, n)
    ensures Low(x, n) < Pow2(n)
  {
    if n > 0 {
      ShrSplit(x / 2, n - 1);
      var q, p, l := Shr(x / 2, n - 1), Pow2(n - 1), Low(x / 2, n - 1);
      assert x / 2 == q * p + l;
      assert x == 2 * (x / 2) + x % 2;
      assert q * (2 * p) == 2 * (q * p);
      assert x == q * (2 * p) + (x % 2 + 2 * l);
    }
  }

  /** A value is determined by its shifted value and its shifted-out low bits. */
  lemma ShrLowDetermine(x: nat, y: nat, n: nat)
    requires Shr(x, n) == Shr(y, n) && Low(x, n) == Low(y, n)
    ensures x == y
  {
    ShrSplit(x, n);
    ShrSplit(y, n);
  }

  /** A shift by at least one position halves the value or more. */
  lemma {:induction false} ShrHalves(x: nat, n: nat)
    requires n >= 1
    ensures 2 * Shr(x, n) <= x
  {
    ShrLe(x / 2, n - 1);
  }

  lemma {:induction false} ShrLe(x: nat, n: nat)
    ensures Shr(x, n) <= x
  {
    if n > 0 {
      ShrLe(x / 2, n - 1);
    }
  }

  /** `(x + y) mod 2^32`: the wrap-around of an `unsigned int` sum. */
  function AddWrap(x: Word, y: Word): (r: Word)
    ensures r == x + y || r == x + y - WORD
  {
    (x + y) % WORD
  }

  lemma {:induction false} Pow2Monotone(m: nat, n: nat)
    requires m <= n
    ensures Pow2(m) <= Pow2(n)
  {
    if m < n {
      Pow2Monotone(m, n - 1);
    }
  }

  lemma {:induction false} Pow2Exceeds(n: nat)
    ensures n < Pow2(n)
  {
    if n > 0 {
      Pow2Exceeds(n - 1);
    }
  }
}

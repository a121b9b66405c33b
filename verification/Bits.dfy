/** Powers of two, the bitwise and, and index arithmetic of the ring. */
module Bits {
  import opened Types

  function Pow2(k: nat): (p: nat)
    ensures p > 0
  {
    if k == 0 then 1 else 2 * Pow2(k - 1)
  }

  ghost predicate IsPow2(p: nat) {
    exists k :: p == Pow2(k)
  }

  /** The bitwise and of two unsigned numbers. */
  function And(x: nat, y: nat): nat {
    if x == 0 || y == 0 then 0 else 2 * And(x / 2, y / 2) + (x % 2) * (y % 2)
  }

  /** Masking with a power of two less one is the remainder by it. */
  lemma {:induction false} MaskIsMod(x: nat, k: nat)
    ensures And(x, Pow2(k) - 1) == At(x, Pow2(k))
    decreases k
  {
    if k == 0 {
    } else if x == 0 {
      ModUnique(0, Pow2(k), 0, 0);
    } else {
      MaskIsMod(x / 2, k - 1);
      MaskStep(x, Pow2(k - 1));
    }
  }

  lemma MaskStep(x: nat, m: nat)
    requires x > 0 && m > 0 && And(x / 2, m - 1) == At(x / 2, m)
    ensures And(x, 2 * m - 1) == At(x, 2 * m)
  {
    hide And, At;
    AndOdd(x, m - 1);
    HalfMod(x, m);
    assert 2 * (m - 1) + 1 == 2 * m - 1;
  }

  lemma AndOdd(x: nat, y: nat)
    requires x > 0
    ensures And(x, 2 * y + 1) == 2 * And(x / 2, y) + x % 2
  {
    assert (2 * y + 1) / 2 == y && (2 * y + 1) % 2 == 1;
  }

  lemma Multiple(d: int, m: int)
    requires m > 0
    ensures (d >= 1 ==> d * m >= m) && (d <= -1 ==> d * m <= -m) && (d == 0 ==> d * m == 0)
  {
  }

  lemma HalfMod(x: nat, m: nat)
    requires m > 0
    ensures At(x, 2 * m) == 2 * At(x / 2, m) + x % 2
  {
    var q, r := (x / 2) / m, (x / 2) % m;
    assert x == 2 * (q * m + r) + x % 2;
    ModUnique(x, 2 * m, q, 2 * r + x % 2);
  }

  lemma ModUnique(x: int, m: nat, q: int, r: int)
    requires m > 0 && x == q * m + r && 0 <= r < m
    ensures x % m == r
  {
    var d := x / m - q;
    assert x % m - r == -(d * m);
    Multiple(d, m);
  }

  // ---------------------------------------------------------------- the capacity

  const TWO_63: int := 0x8000_0000_0000_0000

  lemma {:induction false} Pow2Grows(j: nat, k: nat)
    requires j < k
    ensures Pow2(j) < Pow2(k)
    decreases k
  {
    if j < k - 1 { Pow2Grows(j, k - 1); }
  }

  lemma {:induction false} Pow2Sum(j: nat, k: nat)
    ensures Pow2(j + k) == Pow2(j) * Pow2(k)
    decreases j
  {
    if j > 0 { Pow2Sum(j - 1, k); }
  }

  lemma Pow2Limits()
    ensures Pow2(63) == TWO_63 && Pow2(64) == TWO_64
  {
    Sixteen();
    assert Pow2(64) == 2 * Pow2(63);
    hide Pow2;
    Pow2Sum(4, 4);
    Pow2Sum(8, 8);
    Pow2Sum(16, 16);
    Pow2Sum(32, 32);
  }

  lemma Sixteen()
    ensures Pow2(4) == 16
  {
  }

  /** A left shift by one of a 64-bit number. */
  function Shl(p: nat): nat { 2 * p % TWO_64 }

  /** The value of p after k rounds of the search loop. */
  function Doubled(k: nat): nat {
    if k == 0 then 1 else Shl(Doubled(k - 1))
  }

  lemma {:induction false} DoubledIs(k: nat)
    ensures Doubled(k) == if k < 64 then Pow2(k) else 0
    decreases k
  {
    if k > 0 {
      DoubledIs(k - 1);
      ShlPow2(k - 1);
      hide Pow2, Shl;
    }
  }

  /** Shifting doubles up to 2^63 and then drops the only bit. */
  lemma ShlPow2(k: nat)
    ensures Shl(if k < 64 then Pow2(k) else 0) == if k < 63 then Pow2(k + 1) else 0
  {
    Pow2Limits();
    if k < 63 {
      Pow2Grows(k + 1, 64);
      hide Pow2;
      Residue(2 * Pow2(k), 0, 2 * Pow2(k));
    } else {
      hide Pow2;
      Residue(TWO_64, 1, 0);
    }
  }

  /** The search for a power of two ends exactly for requests up to 2^63: beyond, the shift
      drops the only bit and the loop stays at zero. */
  lemma SearchEndsIff(n: nat)
    requires 0 < n < TWO_64
    ensures (exists k :: Doubled(k) >= n) <==> n <= TWO_63
  {
    Pow2Limits();
    DoubledIs(63);
    forall k | Doubled(k) >= n ensures n <= TWO_63 {
      DoubledIs(k);
      if k < 63 { Pow2Grows(k, 63); }
    }
    assert Doubled(63) == TWO_63;
  }

  /** The least power of two that is at least n and at least 2. */
  method NextPow2(n: nat) returns (p: nat)
    requires n <= TWO_63
    ensures IsPow2(p) && p >= n && 2 <= p <= TWO_63
    ensures forall q: nat :: IsPow2(q) && q >= n && q >= 2 ==> p <= q
  {
    if n < 2 {
      assert Pow2(1) == 2;
      return 2;
    }
    p := 1;
    ghost var k := 0;
    Pow2Limits();
    while p < n
      invariant p == Pow2(k) && k <= 63 && (k > 0 ==> Pow2(k - 1) < n)
      decreases 63 - k
    {
      if k == 63 { assert false; }
      Pow2Grows(k, 64);
      Pow2Grows(k + 1, 64);
      p := Shl(p);
      k := k + 1;
    }
    if k < 63 { Pow2Grows(k, 63); }
    forall q: nat | IsPow2(q) && q >= n && q >= 2 ensures p <= q {
      var j: nat :| q == Pow2(j);
      if j < k - 1 { Pow2Grows(j, k - 1); }
      if k < j { Pow2Grows(k, j); }
    }
  }

  // ---------------------------------------------------------------- ring positions

  /** The slot of the n-th item. */
  function At(n: nat, cap: nat): (i: nat)
    requires cap > 0
    ensures i < cap
  {
    n % cap
  }

  lemma AtNext(n: nat, cap: nat)
    requires cap > 0
    ensures At(At(n, cap) + 1, cap) == At(n + 1, cap)
  {
    var q, r := n / cap, n % cap;
    if r + 1 < cap {
      ModUnique(n + 1, cap, q, r + 1);
      ModUnique(r + 1, cap, 0, r + 1);
    } else {
      assert (q + 1) * cap == q * cap + cap;
      ModUnique(n + 1, cap, q + 1, 0);
      ModUnique(cap, cap, 1, 0);
    }
  }

  lemma AtPeriod(n: nat, cap: nat)
    requires cap > 0
    ensures At(n + cap, cap) == At(n, cap)
  {
    assert (n / cap + 1) * cap == n / cap * cap + cap;
    ModUnique(n + cap, cap, n / cap + 1, n % cap);
  }

  /** Two items less than one lap apart have the same slot only if they are the same item. */
  lemma AtDistinct(m: nat, n: nat, cap: nat)
    requires cap > 0 && m <= n < m + cap
    ensures At(m, cap) == At(n, cap) <==> m == n
  {
    var d := n / cap - m / cap;
    assert n - m == d * cap + (n % cap - m % cap);
    Multiple(d, cap);
  }
}

/**
 kf_factor: splits a transform length into radices, fours first, then twos, then odd divisors.
 Proved: the result is a radix chain of the length, fits the 32-pair table for every C int,
 and every radix is 4 or a prime (or the single radix 1 of length 1).
 */
module KfFactor {
  import opened Complex
  import opened Dft
  import opened Butterflies
  import opened KissFft

  const INT_MAX: int := 0x7FFF_FFFF

  ghost predicate Divides(d: int, n: int)
    requires d != 0
  {
    n % d == 0
  }

  ghost predicate NoDivisorBelow(n: int, p: int) {
    forall d | 2 <= d < p :: !Divides(d, n)
  }

  ghost predicate Prime(p: int) {
    p >= 2 && NoDivisorBelow(p, p)
  }

  /** floor(sqrt(n)); exact in a double for every C int. */
  function FloorSqrt(n: nat): (r: nat)
    ensures r * r <= n < (r + 1) * (r + 1)
  {
    if n == 0 then 0
    else
      var r := FloorSqrt(n - 1);
      if (r + 1) * (r + 1) <= n then
        assert n == (r + 1) * (r + 1);
        r + 1
      else r
  }

  lemma DivisorFacts(d: int, n: int)
    requires d >= 2 && n >= 1 && Divides(d, n)
    ensures n == d * (n / d) && 1 <= n / d < n
  {}

  lemma DividesProduct(d: int, k: int)
    requires d >= 1
    ensures Divides(d, d * k)
    ensures Divides(d, k * d)
  {
    assert d * k == k * d;
    assert (k * d) % d == 0 by { ModMultiple(k, d); }
  }

  lemma {:induction false} ModMultiple(k: int, d: int)
    requires d >= 1
    ensures (k * d) % d == 0
    decreases if k < 0 then -k else k
  {
    if k > 0 {
      ModMultiple(k - 1, d);
      assert k * d == (k - 1) * d + d;
      ModShiftUp((k - 1) * d, d);
    } else if k < 0 {
      ModMultiple(k + 1, d);
      assert (k + 1) * d == k * d + d;
      ModShiftUp(k * d, d);
    }
  }

  lemma ModShiftUp(a: int, d: int)
    requires d >= 1
    ensures (a + d) % d == a % d
  {
    var q, r := a / d, a % d;
    assert a == q * d + r;
    assert a + d == (q + 1) * d + r by { assert (q + 1) * d == q * d + d; }
    QuotientUnique(a + d, d, q + 1, r);
  }

  lemma QuotientUnique(a: int, d: int, q: int, r: int)
    requires d >= 1 && a == q * d + r && 0 <= r < d
    ensures a / d == q && a % d == r
  {
    var q', r' := a / d, a % d;
    assert a == q' * d + r';
    assert (q - q') * d == r' - r by { assert (q - q') * d == q * d - q' * d; }
    SmallMultiple(q - q', d, r' - r);
  }

  lemma SmallMultiple(k: int, d: int, x: int)
    requires d >= 1 && k * d == x && -d < x < d
    ensures k == 0
  {
    Cancel(k, 1, d);
    Cancel(-1, k, d);
  }

  lemma DividesTrans(a: int, b: int, c: int)
    requires a >= 1 && b >= 1 && Divides(a, b) && Divides(b, c)
    ensures Divides(a, c)
  {
    var x, y := b / a, c / b;
    assert c == y * b && b == x * a;
    assert c == (y * x) * a;
    ModMultiple(y * x, a);
  }

  /** Trial division has passed an odd p: nothing below p + 2 divides n. */
  lemma PassOdd(n: int, p: int)
    requires n >= 1 && p >= 3 && p % 2 == 1
    requires NoDivisorBelow(n, p) && !Divides(p, n)
    ensures NoDivisorBelow(n, p + 2)
  {
    if Divides(p + 1, n) {
      assert Divides(2, p + 1);
      DividesTrans(2, p + 1, n);
    }
  }

  /** No divisor up to the square root of a bound: prime. */
  lemma PrimeBySquare(n: int, p: int, bound: int)
    requires 2 <= n <= bound && p >= 2 && bound < p * p
    requires NoDivisorBelow(n, p)
    ensures Prime(n)
  {
    forall d | 2 <= d < n ensures !Divides(d, n) {
      if Divides(d, n) {
        var e := n / d;
        DivisorFacts(d, n);
        DividesProduct(e, d);
        assert e >= 2;
        assert d >= p && e >= p;
        Square(p, d, e);
      }
    }
  }

  lemma Square(p: int, d: int, e: int)
    requires p >= 0 && d >= p && e >= p
    ensures d * e >= p * p
  {}

  /** The least divisor is prime. */
  lemma LeastDivisorPrime(n: int, p: int)
    requires n >= 1 && p >= 2 && Divides(p, n) && NoDivisorBelow(n, p)
    ensures Prime(p)
  {
    forall d | 2 <= d < p ensures !Divides(d, p) {
      if Divides(d, p) {
        DividesTrans(d, p, n);
      }
    }
  }

  lemma WholeQuotient(n: int, p: int)
    requires n >= 1 && p >= 1 && Divides(p, n)
    ensures n / p >= 1 && Divides(n / p, n)
  {
    assert n == p * (n / p);
    DividesProduct(n / p, p);
  }

  lemma QuotientKeeps(n: int, p: int, bound: int)
    requires n >= 1 && p >= 1 && Divides(p, n) && NoDivisorBelow(n, bound)
    ensures NoDivisorBelow(n / p, bound)
  {
    hide Divides;
    var m := n / p;
    WholeQuotient(n, p);
    forall d | 2 <= d < bound ensures !Divides(d, m) {
      if Divides(d, m) {
        DividesTrans(d, m, n);
      }
    }
  }

  function Pow2(k: nat): nat {
    if k == 0 then 1 else 2 * Pow2(k - 1)
  }

  lemma {:induction false} Pow2Bound(k: nat)
    requires Pow2(k) <= INT_MAX
    ensures k <= 30
  {
    assert Pow2(8) == 256;
    assert Pow2(16) == 65536;
    assert Pow2(24) == 0x100_0000;
    assert Pow2(31) == 0x8000_0000;
    if k > 30 {
      Pow2Mono(31, k);
    }
  }

  lemma {:induction false} Pow2Mono(a: nat, b: nat)
    requires a <= b
    ensures Pow2(a) <= Pow2(b)
  {
    if a < b { Pow2Mono(a, b - 1); }
  }

  /** facbuf so far: a chain from n that has reached cur. */
  ghost predicate ChainTo(facbuf: seq<int>, n: int, cur: int)
    decreases |facbuf|
  {
    if |facbuf| < 2 then facbuf == [] && n == cur
    else
      && facbuf[0] >= 1 && facbuf[1] >= 1 && facbuf[0] * facbuf[1] == n
      && ChainTo(facbuf[2..], facbuf[1], cur)
  }

  lemma ChainStart(n: int)
    ensures ChainTo([], n, n)
  {}

  lemma {:induction false} ChainExtend(facbuf: seq<int>, n: int, cur: int, p: int, m: int)
    requires ChainTo(facbuf, n, cur) && p >= 1 && m >= 1 && p * m == cur
    ensures ChainTo(facbuf + [p, m], n, m)
    decreases |facbuf|
  {
    var longer := facbuf + [p, m];
    if |facbuf| < 2 {
      assert longer == [p, m] && longer[2..] == [];
    } else {
      ChainExtend(facbuf[2..], facbuf[1], cur, p, m);
      assert longer[2..] == facbuf[2..] + [p, m];
    }
  }

  lemma {:induction false} ChainClosed(facbuf: seq<int>, n: nat)
    requires ChainTo(facbuf, n, 1) && |facbuf| >= 2
    ensures Chain(facbuf, n)
    decreases |facbuf|
  {
    if facbuf[1] != 1 {
      assert |facbuf[2..]| >= 2;
      ChainClosed(facbuf[2..], facbuf[1]);
    }
  }

  /** Every radix a plan can hold. */
  ghost predicate GoodRadix(p: int, n: int) {
    p == 4 || Prime(p) || (p == 1 && n == 1)
  }

  /** What the candidate p knows about the unfactored part when the inner loop tests it. */
  ghost predicate Candidate(p: int, cur: int, floorSqrt: int) {
    || p == 4
    || (p == cur && (cur == 1 || Prime(cur)))
    || (NoDivisorBelow(cur, p) && (p == 2 || (p >= 3 && p % 2 == 1)) && p <= floorSqrt)
  }

  lemma SelfDivides(n: int)
    requires n >= 1
    ensures Divides(n, n)
  {}

  /** After a failed test of p: the next trial divisor, before it is compared with the square root. */
  function Following(p: int): int {
    if p == 4 then 2 else if p == 2 then 3 else p + 2
  }

  lemma FailedTest(p: int, cur: int, floorSqrt: nat, n: nat)
    requires 1 <= cur <= n < (floorSqrt + 1) * (floorSqrt + 1)
    requires p >= 1 && Candidate(p, cur, floorSqrt) && !Divides(p, cur)
    ensures p == 4 || p == 2 || (3 <= p <= floorSqrt && p % 2 == 1)
    ensures Following(p) <= floorSqrt ==> Candidate(Following(p), cur, floorSqrt)
    ensures Following(p) > floorSqrt ==> Candidate(cur, cur, floorSqrt)
  {
    hide Divides, Prime;
    SelfDivides(cur);
    if p != 4 && p != 2 {
      PassOdd(cur, p);
    }
    var next := Following(p);
    assert NoDivisorBelow(cur, next);
    if next > floorSqrt && cur > 1 {
      Square(floorSqrt + 1, next, next);
      PrimeBySquare(cur, next, n);
    }
  }

  /** Steps left in the trial division. */
  ghost function TrialsLeft(p: int, cur: int, floorSqrt: int): int
    requires p >= 1
  {
    if cur % p == 0 then 0
    else if p == 4 then floorSqrt + 3
    else if p == 2 then floorSqrt + 2
    else floorSqrt + 1 - p
  }

  /** The inner loop of kf_factor: the next radix. */
  method NextRadix(cur: int, p0: int, floorSqrt: nat, ghost n: nat) returns (p: int)
    requires 1 <= cur <= n < (floorSqrt + 1) * (floorSqrt + 1)
    requires Candidate(p0, cur, floorSqrt)
    ensures p >= 1 && Divides(p, cur) && Candidate(p, cur, floorSqrt)
    ensures cur > 1 ==> p >= 2
  {
    p := p0;
    while cur % p != 0
      invariant p >= 1 && (cur > 1 ==> p >= 2)
      invariant Candidate(p, cur, floorSqrt)
      decreases TrialsLeft(p, cur, floorSqrt)
    {
      hide Candidate;
      FailedTest(p, cur, floorSqrt, n);
      assert cur % cur == 0;
      if p == 4 {
        p := 2;
      } else if p == 2 {
        p := 3;
      } else {
        p := p + 2;
      }
      if p > floorSqrt {
        p := cur;
      }
    }
  }

  lemma OnlyOne(p: int)
    requires p >= 1 && Divides(p, 1)
    ensures p == 1
  {}

  lemma RadixGood(p: int, cur: int, floorSqrt: int, n: int)
    requires cur >= 1 && p >= 1 && Divides(p, cur) && Candidate(p, cur, floorSqrt)
    requires cur == 1 ==> n == 1
    ensures GoodRadix(p, n)
  {
    if p != 4 && !(p == cur && (cur == 1 || Prime(cur))) {
      LeastDivisorPrime(cur, p);
    }
  }

  lemma NextCandidate(p: int, cur: int, floorSqrt: int)
    requires cur > 1 && p >= 2 && Divides(p, cur) && Candidate(p, cur, floorSqrt)
    ensures 1 <= cur / p < cur && p * (cur / p) == cur
    ensures cur / p > 1 ==> Candidate(p, cur / p, floorSqrt)
  {
    DivisorFacts(p, cur);
    if p == cur {
      assert cur / p == 1;
    } else if p != 4 {
      QuotientKeeps(cur, p, p);
    }
  }

  lemma Halved(cur: int, next: int, p: int, pairs: nat, n: int)
    requires p >= 2 && p * next == cur && next >= 1 && cur * Pow2(pairs) <= n
    ensures next * Pow2(pairs + 1) <= n
  {
    assert 2 * next <= p * next;
    assert next * Pow2(pairs + 1) == (2 * next) * Pow2(pairs);
    assert (2 * next) * Pow2(pairs) <= cur * Pow2(pairs);
  }

  method KfFactor(n: int) returns (facbuf: seq<int>)
    requires 1 <= n <= INT_MAX
    ensures Chain(facbuf, n)
    ensures |facbuf| <= 64
    ensures forall i | 0 <= i < |facbuf| && i % 2 == 0 :: GoodRadix(facbuf[i], n)
  {
    hide Divides, Prime, GoodRadix, ChainTo, FloorSqrt;
    var p := 4;
    var floorSqrt := FloorSqrt(n);
    var cur := n;
    facbuf := [];
    ghost var pairs := 0;
    ChainStart(n);
    while true
      invariant 1 <= cur <= n && (cur == 1 ==> n == 1)
      invariant |facbuf| == 2 * pairs
      invariant Candidate(p, cur, floorSqrt)
      invariant ChainTo(facbuf, n, cur)
      invariant cur * Pow2(pairs) <= n
      invariant n == 1 ==> facbuf == []
      invariant forall i | 0 <= i < |facbuf| && i % 2 == 0 :: GoodRadix(facbuf[i], n)
      decreases cur
    {
      p := NextRadix(cur, p, floorSqrt, n);
      RadixGood(p, cur, floorSqrt, n);
      var next := cur / p;
      if n > 1 {
        NextCandidate(p, cur, floorSqrt);
        Halved(cur, next, p, pairs, n);
      } else {
        OnlyOne(p);
      }
      ChainExtend(facbuf, n, cur, p, next);
      facbuf := facbuf + [p, next];
      pairs := pairs + 1;
      cur := next;
      if cur <= 1 {
        ChainClosed(facbuf, n);
        if n > 1 {
          Pow2Bound(pairs);
        }
        return;
      }
    }
  }

  /** kiss_fft_alloc: a plan for any length, from a twiddle table with the laws of exp(-2 pi i k / n). */
  method KissFftAlloc(nfft: int, inverse: bool, twiddles: seq<Cpx>) returns (st: Cfg)
    requires 1 <= nfft <= INT_MAX && |twiddles| == nfft && ValidTwiddles(twiddles, inverse)
    ensures st.nfft == nfft && st.inverse == inverse && st.twiddles == twiddles
    ensures ValidPlan(st) && Chain(st.factors, nfft) && |st.factors| <= 64
  {
    var factors := KfFactor(nfft);
    st := Cfg(nfft, inverse, factors, twiddles);
  }
}

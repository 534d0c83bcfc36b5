/**
 The discrete Fourier transform and the laws of a twiddle table.

 `ValidTwiddles` lists what kiss_fft_alloc's table of exp(-2 pi i k / N) (or its
 conjugate, for an inverse plan) satisfies in exact arithmetic. Everything the
 butterflies need (halves, thirds, fifths of a turn) is derived from it.
 */
module Dft {
  import opened Complex

  ghost predicate ValidTwiddles(tw: seq<Cpx>, inverse: bool) {
    && |tw| > 0
    && tw[0] == One
    && (forall i, j | 0 <= i < |tw| && 0 <= j < |tw| :: GroupLaw(tw, i, j))
    && (forall i | 0 <= i < |tw| :: UnitLaw(tw, i))
    && (forall i | 0 < i < |tw| :: PrimitiveLaw(tw, i))
    && (forall q | 4 * q == |tw| :: QuarterLaw(tw, inverse, q))
  }

  /** Exponents add. */
  ghost predicate GroupLaw(tw: seq<Cpx>, i: int, j: int) {
    W(tw, i + j) == Mul(W(tw, i), W(tw, j))
  }

  /** Every entry has modulus one. */
  ghost predicate UnitLaw(tw: seq<Cpx>, i: int) {
    Mul(W(tw, i), Conj(W(tw, i))) == One
  }

  /** Only the zeroth power is one. */
  ghost predicate PrimitiveLaw(tw: seq<Cpx>, i: int) {
    W(tw, i) != One
  }

  /** A quarter turn goes down in a forward table and up in an inverse one. */
  ghost predicate QuarterLaw(tw: seq<Cpx>, inverse: bool, q: int) {
    W(tw, q) == Cpx(0.0, if inverse then 1.0 else -1.0)
  }

  /** The i-th power of the primitive root, for any exponent: table entry i modulo the table length. */
  ghost function W(tw: seq<Cpx>, i: int): Cpx {
    if i < 0 || |tw| == 0 then Zero
    else if i < |tw| then tw[i]
    else W(tw, i - |tw|)
  }

  lemma {:induction false} WAdd(tw: seq<Cpx>, inverse: bool, a: nat, b: nat)
    requires ValidTwiddles(tw, inverse)
    ensures W(tw, a + b) == Mul(W(tw, a), W(tw, b))
    decreases a + b
  {
    if a >= |tw| {
      WAdd(tw, inverse, a - |tw|, b);
    } else if b >= |tw| {
      WAdd(tw, inverse, a, b - |tw|);
    } else {
      assert GroupLaw(tw, a, b);
    }
  }

  lemma {:induction false} WTurns(tw: seq<Cpx>, a: nat, c: nat)
    requires |tw| > 0
    ensures W(tw, a + c * |tw|) == W(tw, a)
    decreases c
  {
    if c > 0 {
      WTurns(tw, a, c - 1);
      assert a + c * |tw| == a + (c - 1) * |tw| + |tw|;
    }
  }

  lemma WSplit(tw: seq<Cpx>, inverse: bool, whole: nat, high: nat, low: nat, turns: nat)
    requires ValidTwiddles(tw, inverse)
    requires whole == high + (low + turns * |tw|)
    ensures W(tw, whole) == Mul(W(tw, high), W(tw, low))
  {
    WAdd(tw, inverse, high, low + turns * |tw|);
    WTurns(tw, low, turns);
  }

  /** Element i of a buffer; reads past the end are never made and count as zero. */
  ghost function At(f: seq<Cpx>, i: int): Cpx {
    if 0 <= i < |f| then f[i] else Zero
  }

  /** One term of bin k: sample j (from base b, every st-th element) against root^(fs * j * k). */
  ghost function Term(f: seq<Cpx>, b: int, st: int, tw: seq<Cpx>, fs: int, k: int, j: int): Cpx {
    Mul(At(f, b + j * st), W(tw, fs * j * k))
  }

  /** Bin k of the n-point DFT of f[b], f[b + st], f[b + 2 st], ... with root^fs as the n-th root. */
  ghost function Bin(f: seq<Cpx>, b: int, st: int, n: int, tw: seq<Cpx>, fs: int, k: int): Cpx {
    Sum(n, (j: int) => Term(f, b, st, tw, fs, k, j))
  }

  /** What one radix-p butterfly column computes: the p-point combination of the sub-transforms. */
  ghost function Combined(sub: seq<Cpx>, tw: seq<Cpx>, fs: int, k: int): Cpx {
    Sum(|sub|, (q: int) => Twisted(sub, tw, fs, k, q))
  }

  /** Sub-transform value q, moved by its twiddle. */
  ghost function Twisted(sub: seq<Cpx>, tw: seq<Cpx>, fs: int, k: int, q: int): Cpx {
    Mul(At(sub, q), W(tw, fs * q * k))
  }

  lemma Distribute(c: int, a: int, b: int)
    ensures c * (a + b) == c * a + c * b
    ensures (a + b) * c == a * c + b * c
  {}

  lemma Regroup(a: int, j: int, q1: int, m: int)
    ensures a * j * (q1 * m) == (j * q1) * (a * m)
  {}

  lemma ExponentSplit(fs: nat, p: nat, m: nat, q: nat, j: nat, u: nat, q1: nat)
    ensures fs * (q + j * p) * (u + q1 * m) == fs * q * (u + q1 * m) + (fs * p * j * u + (j * q1) * (fs * p * m))
  {
    var k := u + q1 * m;
    assert fs * (q + j * p) * k == fs * q * k + fs * (j * p) * k by {
      Distribute(fs, q, j * p);
      Distribute(k, fs * q, fs * (j * p));
    }
    var a := fs * p * j;
    assert fs * (j * p) == a;
    assert a * k == a * u + a * (q1 * m) by {
      Distribute(a, u, q1 * m);
    }
    Regroup(fs * p, j, q1, m);
  }

  lemma SampleIndex(b: nat, st: nat, p: nat, q: nat, j: nat)
    ensures b + q * st + j * (p * st) == b + (q + j * p) * st
  {
    assert (q + j * p) * st == q * st + (j * p) * st;
    assert (j * p) * st == j * (p * st);
  }

  lemma MulSwap(x: Cpx, v: Cpx, w: Cpx)
    ensures Mul(Mul(x, v), w) == Mul(x, Mul(w, v))
  {
    MulAssoc(x, v, w);
    MulComm(v, w);
  }

  /** One term of a sub-transform, moved by its twiddle, is one term of the whole transform. */
  lemma TermDecimated(f: seq<Cpx>, b: nat, st: nat, p: nat, m: nat, tw: seq<Cpx>, inverse: bool, fs: nat,
                      u: nat, q1: nat, q: nat, j: nat)
    requires ValidTwiddles(tw, inverse)
    requires fs * p * m == |tw|
    ensures Mul(Term(f, b + q * st, p * st, tw, fs * p, u, j), W(tw, fs * q * (u + q1 * m)))
         == Term(f, b, st, tw, fs, u + q1 * m, q + j * p)
  {
    hide Mul, At;
    var k := u + q1 * m;
    var low: nat := fs * p * j * u;
    var high: nat := fs * q * k;
    var whole: nat := fs * (q + j * p) * k;
    assert W(tw, whole) == Mul(W(tw, high), W(tw, low)) by {
      ExponentSplit(fs, p, m, q, j, u, q1);
      WSplit(tw, inverse, whole, high, low, j * q1);
    }
    SampleIndex(b, st, p, q, j);
    MulSwap(At(f, b + (q + j * p) * st), W(tw, low), W(tw, high));
  }

  /** A whole sub-transform, moved by its twiddle, is one residue class of the whole transform. */
  lemma SubTransform(f: seq<Cpx>, b: nat, st: nat, p: nat, m: nat, tw: seq<Cpx>, inverse: bool, fs: nat,
                     u: nat, q1: nat, q: nat, g: int -> Cpx)
    requires ValidTwiddles(tw, inverse)
    requires fs * p * m == |tw|
    requires forall j :: g(j) == Term(f, b, st, tw, fs, u + q1 * m, j)
    ensures Mul(Bin(f, b + q * st, p * st, m, tw, fs * p, u), W(tw, fs * q * (u + q1 * m)))
         == ClassSum(p, m, g, q)
  {
    hide Mul, Term, At, W;
    var b' := b + q * st;
    var st' := p * st;
    var fs' := fs * p;
    var w := W(tw, fs * q * (u + q1 * m));
    var t := (j: int) => Term(f, b', st', tw, fs', u, j);
    var tt := (j: int) => Mul(t(j), w);
    assert Mul(Bin(f, b', st', m, tw, fs', u), w) == Sum(m, tt) by {
      SumScale(m, t, w);
      SumExt(m, (j: int) => Term(f, b', st', tw, fs', u, j), t);
      SumExt(m, (j: int) => Mul(t(j), w), tt);
    }
    var gg := (j: int) => g(q + j * p);
    assert Sum(m, tt) == Sum(m, gg) by {
      forall j | 0 <= j < m ensures tt(j) == gg(j) {
        TermDecimated(f, b, st, p, m, tw, inverse, fs, u, q1, q, j);
      }
      SumExt(m, tt, gg);
    }
    SumExt(m, gg, (j: int) => g(q + j * p));
  }

  /**
   Decimation in time, for any factorisation n = p * m: the radix-p combination of the p
   sub-transforms of length m is the transform of length p * m.
   */
  lemma Recombine(f: seq<Cpx>, b: nat, st: nat, p: nat, m: nat, tw: seq<Cpx>, inverse: bool, fs: nat,
                  u: nat, q1: nat, sub: seq<Cpx>)
    requires ValidTwiddles(tw, inverse)
    requires fs * p * m == |tw|
    requires |sub| == p
    requires forall q :: 0 <= q < p ==> sub[q] == Bin(f, b + q * st, p * st, m, tw, fs * p, u)
    ensures Combined(sub, tw, fs, u + q1 * m) == Bin(f, b, st, p * m, tw, fs, u + q1 * m)
  {
    hide Mul, Term, W, Bin;
    var k := u + q1 * m;
    var g := (j: int) => Term(f, b, st, tw, fs, k, j);
    var c := (q: int) => Twisted(sub, tw, fs, k, q);
    var d := (q: int) => ClassSum(p, m, g, q);
    assert Combined(sub, tw, fs, k) == Sum(p, c) by {
      SumExt(p, (q: int) => Twisted(sub, tw, fs, k, q), c);
    }
    assert Sum(p, c) == Sum(p, d) by {
      forall q | 0 <= q < p ensures c(q) == d(q) {
        SubTransform(f, b, st, p, m, tw, inverse, fs, u, q1, q, g);
      }
      SumExt(p, c, d);
    }
    assert Sum(p, d) == Sum(p * m, g) by {
      SumDecimate(p, m, g);
      SumExt(p, (q: int) => ClassSum(p, m, g, q), d);
    }
    BinIs(f, b, st, p * m, tw, fs, k, g);
  }

  lemma BinIs(f: seq<Cpx>, b: int, st: int, n: int, tw: seq<Cpx>, fs: int, k: int, g: int -> Cpx)
    requires forall j :: g(j) == Term(f, b, st, tw, fs, k, j)
    ensures Bin(f, b, st, n, tw, fs, k) == Sum(n, g)
  {
    hide Term;
    SumExt(n, (j: int) => Term(f, b, st, tw, fs, k, j), g);
  }
}

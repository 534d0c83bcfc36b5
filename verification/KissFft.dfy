/**
 kf_work and kiss_fft: the recursive mixed-radix transform. For every radix chain of the length,
 and whichever butterflies the chain selects, the output block holds exactly the DFT of the
 strided input.
 */
module KissFft {
  import opened Complex
  import opened Dft
  import opened Turns
  import opened Butterflies

  /** facbuf as kf_factor leaves it: p1, m1, p2, m2, ... with p[i] * m[i] == m[i-1], ending at m == 1. */
  ghost predicate Chain(factors: seq<int>, n: nat) {
    && |factors| >= 2
    && factors[0] >= 1 && factors[1] >= 1
    && factors[0] * factors[1] == n
    && (factors[1] == 1 || Chain(factors[2..], factors[1]))
  }

  /** The first `count` sub-transforms are in place: each is the DFT of one residue class of the input. */
  ghost predicate SubTransforms(s: seq<Cpx>, o: int, p: int, m: int, count: int,
                                f: seq<Cpx>, b: int, step: int, tw: seq<Cpx>, fs: int)
  {
    forall u, q | 0 <= u < m && 0 <= q < count ::
      At(s, Slot(o, m, u, q)) == Bin(f, b + q * step, p * step, m, tw, fs * p, u)
  }

  /** Fout[o..o+n] is the n-point DFT of the strided input, and nothing else changed. */
  ghost predicate Transformed(before: seq<Cpx>, after: seq<Cpx>, o: int, n: int,
                              f: seq<Cpx>, b: int, step: int, tw: seq<Cpx>, fs: int)
  {
    && |after| == |before|
    && (forall k | 0 <= k < n :: At(after, o + k) == Bin(f, b, step, n, tw, fs, k))
    && (forall i | 0 <= i < |before| && !(o <= i < o + n) :: after[i] == before[i])
  }

  lemma BinOfOne(f: seq<Cpx>, b: int, step: int, tw: seq<Cpx>, inverse: bool, fs: int)
    requires ValidTwiddles(tw, inverse)
    ensures Bin(f, b, step, 1, tw, fs, 0) == At(f, b)
  {
    hide ValidTwiddles, Bin, Term, At;
    var t := (j: int) => Term(f, b, step, tw, fs, 0, j);
    FirstTerm(f, b, step, tw, inverse, fs);
    assert Sum(1, t) == Add(Sum(0, t), t(0));
    BinIs(f, b, step, 1, tw, fs, 0, t);
  }

  lemma FirstTerm(f: seq<Cpx>, b: int, step: int, tw: seq<Cpx>, inverse: bool, fs: int)
    requires ValidTwiddles(tw, inverse)
    ensures Term(f, b, step, tw, fs, 0, 0) == At(f, b)
  {
    WZero(tw, inverse);
    hide ValidTwiddles, At, W;
    assert fs * 0 * 0 == 0 && b + 0 * step == b;
    MulOne(At(f, b));
  }

  lemma MulOne(x: Cpx)
    ensures Mul(x, One) == x
  {}

  /** Butterflied sub-transforms are the whole transform, bin by bin. */
  lemma Recombination(subs: seq<Cpx>, after: seq<Cpx>, o: nat, p: nat, m: nat,
                      f: seq<Cpx>, b: nat, step: nat, st: Cfg, fs: nat)
    requires ValidPlan(st) && m >= 1 && fs * m * p == st.nfft
    requires SubTransforms(subs, o, p, m, p, f, b, step, st.twiddles, fs)
    requires Recombined(subs, after, o, p, m, st, fs)
    ensures forall k | 0 <= k < p * m :: At(after, o + k) == Bin(f, b, step, p * m, st.twiddles, fs, k)
  {
    hide Combined, ValidTwiddles, Bin, Column;
    forall k | 0 <= k < p * m
      ensures At(after, o + k) == Bin(f, b, step, p * m, st.twiddles, fs, k)
    {
      var u, q1 := k % m, k / m;
      assert k == u + q1 * m;
      assert q1 < p by { Quotient(p, m, k); }
      assert Slot(o, m, u, q1) == o + k;
      var column := Column(subs, o, m, p, u);
      ColumnEntries(subs, o, m, p, u);
      assert fs * p * m == fs * m * p;
      Recombine(f, b, step, p, m, st.twiddles, st.inverse, fs, u, q1, column);
    }
  }

  lemma ColumnEntries(s: seq<Cpx>, o: int, m: int, p: nat, u: int)
    ensures forall q | 0 <= q < p :: Column(s, o, m, p, u)[q] == At(s, Slot(o, m, u, q))
  {}

  lemma Cancel(a: int, b: int, c: nat)
    requires a * c < b * c
    ensures a < b
  {}

  lemma Quotient(p: nat, m: nat, k: nat)
    requires m >= 1 && k < p * m
    ensures k / m < p
  {
    var a := k / m;
    assert a * m < p * m;
    Cancel(a, p, m);
  }

  /** Sub-transform `count` written into its own block, the earlier blocks kept. */
  lemma NextSubTransform(s: seq<Cpx>, s': seq<Cpx>, o: nat, p: nat, m: nat, count: nat,
                         f: seq<Cpx>, b: int, step: int, tw: seq<Cpx>, fs: int)
    requires SubTransforms(s, o, p, m, count, f, b, step, tw, fs)
    requires count < p && o + p * m <= |s|
    requires Transformed(s, s', o + count * m, m, f, b + count * step, p * step, tw, fs * p)
    ensures SubTransforms(s', o, p, m, count + 1, f, b, step, tw, fs)
  {
    hide Bin;
    forall u, q | 0 <= u < m && 0 <= q < count + 1
      ensures At(s', Slot(o, m, u, q)) == Bin(f, b + q * step, p * step, m, tw, fs * p, u)
    {
      SlotBounds(o, m, p, u, q);
      if q < count {
        SlotOrder(o, m, u, q, 0, count);
      } else {
        assert Slot(o, m, u, q) == o + count * m + u;
      }
    }
  }

  /** The length of a chain is its first radix times the rest. */
  lemma ChainLength(fstride: nat, p: nat, m: nat, inStride: nat, n: nat)
    requires fstride * (p * m) == n
    ensures fstride * p * m == n && fstride * m * p == n
    ensures (fstride * p) * inStride == p * (fstride * inStride)
  {}

  lemma Mono(a: int, b: int, c: nat)
    requires a <= b
    ensures a * c <= b * c
  {}

  /** Reads of sub-transform q stay inside the reads of the whole. */
  lemma ReadBounds(b: nat, step: nat, p: nat, m: nat, q: nat)
    requires q < p && m >= 1
    ensures (b + q * step) + (m - 1) * (p * step) <= b + (p * m - 1) * step
  {
    var a := (m - 1) * p;
    assert a == p * m - p;
    Mono(q + a, p * m - 1, step);
    Distribute(step, q, a);
    Reassociate(m - 1, p, step);
  }

  lemma Reassociate(a: int, b: int, c: int)
    ensures a * (b * c) == (a * b) * c
  {}

  /** Before the q-th sub-call: its block lies inside the output block and its reads inside the input. */
  lemma CallBounds(o: nat, p: nat, m: nat, q: nat, b: nat, step: nat, len: nat)
    requires q < p && m >= 1 && b + (p * m - 1) * step < len
    ensures o <= o + q * m && o + q * m + m <= o + p * m
    ensures b + q * step + (m - 1) * (p * step) < len
  {
    ReadBounds(b, step, p, m, q);
    SlotBounds(o, m, p, m - 1, q);
    assert q * m >= 0;
  }

  /** The p sub-transforms of kf_work: copied when m == 1, otherwise computed recursively. */
  method KfSubs(Fout: array<Cpx>, o: nat, f: seq<Cpx>, b: nat, fstride: nat, inStride: nat,
                p: nat, m: nat, rest: seq<int>, st: Cfg, ghost step: nat)
    requires ValidPlan(st)
    requires p >= 1 && m >= 1 && (m == 1 || Chain(rest, m))
    requires fstride >= 1 && fstride * p * m == st.nfft
    requires step == fstride * inStride
    requires o + p * m <= Fout.Length
    requires b + (p * m - 1) * step < |f|
    modifies Fout
    ensures SubTransforms(Fout[..], o, p, m, p, f, b, step, st.twiddles, fstride)
    ensures forall i | 0 <= i < Fout.Length && !(o <= i < o + p * m) :: Fout[i] == old(Fout[i])
    decreases |rest|, 1
  {
    hide ValidTwiddles, Bin, SubTransforms;
    ghost var tw := st.twiddles;
    assert (fstride * p) * inStride == p * step by { Swap(fstride, p, inStride); }
    var fpos := b;
    var q := 0;
    NoSubs(Fout[..], o, p, m, f, b, step, tw, fstride);
    while q < p
      invariant 0 <= q <= p
      invariant fpos == b + q * step
      invariant SubTransforms(Fout[..], o, p, m, q, f, b, step, tw, fstride)
      invariant forall i | 0 <= i < Fout.Length && !(o <= i < o + p * m) :: Fout[i] == old(Fout[i])
    {
      ghost var s := Fout[..];
      CallBounds(o, p, m, q, b, step, |f|);
      if m == 1 {
        Fout[o + q] := f[fpos];
        BinOfOne(f, fpos, p * step, tw, st.inverse, fstride * p);
      } else {
        KfWork(Fout, o + q * m, f, fpos, fstride * p, inStride, rest, st, m);
      }
      NextSubTransform(s, Fout[..], o, p, m, q, f, b, step, tw, fstride);
      fpos := fpos + fstride * inStride;
      Distribute(step, q, 1);
      q := q + 1;
    }
  }

  lemma Swap(a: int, b: int, c: int)
    ensures (a * b) * c == b * (a * c)
  {}

  lemma NoSubs(s: seq<Cpx>, o: int, p: int, m: int, f: seq<Cpx>, b: int, step: int, tw: seq<Cpx>, fs: int)
    ensures SubTransforms(s, o, p, m, 0, f, b, step, tw, fs)
  {}

  /** The radix switch of kf_work. */
  method KfCombine(Fout: array<Cpx>, o: nat, fstride: nat, st: Cfg, m: nat, p: nat)
    requires ValidPlan(st)
    requires m >= 1 && p >= 1 && fstride >= 1 && fstride * m * p == st.nfft
    requires o + p * m <= Fout.Length
    modifies Fout
    ensures Recombined(old(Fout[..]), Fout[..], o, p, m, st, fstride)
  {
    if p == 2 {
      KfBfly2(Fout, o, fstride, st, m);
    } else if p == 3 {
      KfBfly3(Fout, o, fstride, st, m);
    } else if p == 4 {
      KfBfly4(Fout, o, fstride, st, m);
    } else if p == 5 {
      KfBfly5(Fout, o, fstride, st, m);
    } else {
      KfBflyGeneric(Fout, o, fstride, st, m, p);
    }
  }

  /** kf_work: the n-point DFT of f[b], f[b + fstride * inStride], ... into Fout[o..o + n]. */
  method KfWork(Fout: array<Cpx>, o: nat, f: seq<Cpx>, b: nat, fstride: nat, inStride: nat,
                factors: seq<int>, st: Cfg, ghost n: nat)
    requires ValidPlan(st)
    requires Chain(factors, n) && fstride >= 1 && fstride * n == st.nfft
    requires o + n <= Fout.Length
    requires b + (n - 1) * (fstride * inStride) < |f|
    modifies Fout
    ensures Transformed(old(Fout[..]), Fout[..], o, n, f, b, fstride * inStride, st.twiddles, fstride)
    decreases |factors|, 0
  {
    hide ValidTwiddles, Bin, Recombined, SubTransforms;
    var p: nat, m: nat := factors[0], factors[1];
    ghost var step: nat := fstride * inStride;
    ChainLength(fstride, p, m, inStride, st.nfft);
    KfSubs(Fout, o, f, b, fstride, inStride, p, m, factors[2..], st, step);
    ghost var subs := Fout[..];
    KfCombine(Fout, o, fstride, st, m, p);
    Recombination(subs, Fout[..], o, p, m, f, b, step, st, fstride);
    OutsideKept(subs, Fout[..], o, p, m, st, fstride);
  }

  lemma OutsideKept(before: seq<Cpx>, after: seq<Cpx>, o: int, p: nat, m: nat, st: Cfg, fs: int)
    requires Recombined(before, after, o, p, m, st, fs)
    ensures |after| == |before|
    ensures forall i | 0 <= i < |before| && !(o <= i < o + p * m) :: after[i] == before[i]
  {}
}

/**
 The five in-place butterflies of kiss_fft.c. Each overwrites p interleaved sub-transforms of
 length m, starting at element o of Fout, and each is proved to leave the same thing there:
 the radix-p combination of every column (`Recombined`), whatever arithmetic it uses to get it.
 */
module Butterflies {
  import opened Complex
  import opened Dft
  import opened Turns

  /** The plan: kiss_fft_state. */
  datatype Cfg = Cfg(nfft: nat, inverse: bool, factors: seq<int>, twiddles: seq<Cpx>)

  ghost predicate ValidPlan(st: Cfg) {
    st.nfft == |st.twiddles| && ValidTwiddles(st.twiddles, st.inverse)
  }

  /** Where sub-transform q keeps its u-th value. */
  ghost function Slot(o: int, m: int, u: int, q: int): int {
    o + u + q * m
  }

  /**
   The first n columns of `after` hold the radix-p recombination of the p sub-transforms that
   `before` held; the other columns, and everything outside the block, are as before.
   */
  ghost predicate Progress(before: seq<Cpx>, after: seq<Cpx>, o: int, p: nat, m: nat, st: Cfg, fs: int, n: int) {
    && |after| == |before|
    && (forall u, q | 0 <= u < m && 0 <= q < p ::
          At(after, Slot(o, m, u, q)) == if u < n then Done(before, o, m, p, st.twiddles, fs, u, q)
                                         else At(before, Slot(o, m, u, q)))
    && (forall i | 0 <= i < |before| && !(o <= i < o + p * m) :: after[i] == before[i])
  }

  /** All columns recombined: what a whole butterfly leaves. */
  ghost predicate Recombined(before: seq<Cpx>, after: seq<Cpx>, o: int, p: nat, m: nat, st: Cfg, fs: int) {
    Progress(before, after, o, p, m, st, fs, m)
  }

  lemma SlotBounds(o: nat, m: nat, p: nat, u: nat, q: nat)
    requires u < m && q < p
    ensures o <= Slot(o, m, u, q) < o + p * m
  {
    Distribute(m, q, 1);
    assert (q + 1) * m <= p * m;
    assert 0 <= q * m;
  }

  lemma SlotOrder(o: nat, m: nat, u: nat, q: nat, u': nat, q': nat)
    requires u < m && q < q'
    ensures Slot(o, m, u, q) < Slot(o, m, u', q')
  {
    Distribute(m, q, 1);
    assert (q + 1) * m <= q' * m;
  }

  /** Different columns share no slot. */
  lemma SlotDistinct(o: nat, m: nat, u: nat, q: nat, u': nat, q': nat)
    requires u < m && u' < m && u != u'
    ensures Slot(o, m, u, q) != Slot(o, m, u', q')
  {
    if q < q' {
      SlotOrder(o, m, u, q, u', q');
    } else if q' < q {
      SlotOrder(o, m, u', q', u, q);
    }
  }

  /** Rewriting column n, and nothing else, advances the butterfly by one column. */
  lemma ProgressStep(before: seq<Cpx>, a: seq<Cpx>, a': seq<Cpx>, o: nat, p: nat, m: nat, st: Cfg, fs: int, n: nat,
                     written: set<int>)
    requires Progress(before, a, o, p, m, st, fs, n)
    requires n < m && o + p * m <= |before| && |a'| == |a|
    requires forall q | 0 <= q < p :: At(a', Slot(o, m, n, q)) == Done(before, o, m, p, st.twiddles, fs, n, q)
    requires forall i | 0 <= i < |a| && i !in written :: a'[i] == a[i]
    requires forall i | i in written :: exists q :: 0 <= q < p && i == Slot(o, m, n, q)
    ensures Progress(before, a', o, p, m, st, fs, n + 1)
  {
    hide Done;
    forall u, q | 0 <= u < m && 0 <= q < p && u != n
      ensures At(a', Slot(o, m, u, q)) == At(a, Slot(o, m, u, q))
    {
      SlotBounds(o, m, p, u, q);
      forall q' | 0 <= q' < p ensures Slot(o, m, u, q) != Slot(o, m, n, q') {
        SlotDistinct(o, m, u, q, n, q');
      }
    }
    forall i | 0 <= i < |before| && !(o <= i < o + p * m) ensures a'[i] == before[i] {
      forall q | 0 <= q < p ensures i != Slot(o, m, n, q) {
        SlotBounds(o, m, p, n, q);
      }
    }
  }

  /** Slots of a column not yet reached still hold what they held before. */
  lemma Unreached(before: seq<Cpx>, a: seq<Cpx>, o: nat, p: nat, m: nat, st: Cfg, fs: int, u: nat)
    requires Progress(before, a, o, p, m, st, fs, u)
    requires u < m && o + p * m <= |before|
    ensures |a| == |before|
    ensures forall q | 0 <= q < p :: 0 <= Slot(o, m, u, q) < |a| && a[Slot(o, m, u, q)] == before[Slot(o, m, u, q)]
  {
    forall q | 0 <= q < p
      ensures 0 <= Slot(o, m, u, q) < |a| && a[Slot(o, m, u, q)] == before[Slot(o, m, u, q)]
    {
      SlotBounds(o, m, p, u, q);
      assert At(a, Slot(o, m, u, q)) == At(before, Slot(o, m, u, q));
    }
  }

  lemma NoProgress(before: seq<Cpx>, o: int, p: nat, m: nat, st: Cfg, fs: int)
    ensures Progress(before, before, o, p, m, st, fs, 0)
  {}

  lemma TableIndex(tw: seq<Cpx>, fs: nat, m: nat, p: nat, q: nat, u: nat)
    requires fs * m * p == |tw| && q < p && u < m && fs > 0
    ensures 0 <= fs * q * u < |tw|
    ensures W(tw, fs * q * u) == tw[fs * q * u]
  {
    assert q * u < p * m by {
      assert q * u <= q * m;
      assert q * m < p * m;
    }
    assert fs * q * u == fs * (q * u);
    assert fs * (q * u) < fs * (p * m);
    assert fs * (p * m) == fs * m * p;
  }

  /** Term q of column u, with the table entry the C code reads. */
  lemma Scratch(before: seq<Cpx>, o: nat, m: nat, p: nat, st: Cfg, fs: nat, u: nat, q: nat)
    requires ValidPlan(st)
    requires fs >= 1 && fs * m * p == st.nfft && q < p && u < m
    requires o + p * m <= |before|
    ensures 0 <= fs * q * u < st.nfft
    ensures o + u + q * m < |before|
    ensures Column(before, o, m, p, u)[q] == before[o + u + q * m]
    ensures Twisted(Column(before, o, m, p, u), st.twiddles, fs, u, q)
         == Mul(before[o + u + q * m], st.twiddles[fs * q * u])
  {
    hide Mul;
    TableIndex(st.twiddles, fs, m, p, q, u);
    assert q * m + m <= p * m by { Distribute(m, q, 1); assert (q + 1) * m <= p * m; }
  }

  lemma Column2(before: seq<Cpx>, o: nat, m: nat, st: Cfg, fs: nat, u: nat)
    requires ValidPlan(st)
    requires fs >= 1 && fs * m * 2 == st.nfft && u < m && o + 2 * m <= |before|
    ensures 0 <= fs * u < st.nfft
    ensures var t := Mul(before[o + m + u], st.twiddles[fs * u]);
            && Done(before, o, m, 2, st.twiddles, fs, u, 0) == Add(before[o + u], t)
            && Done(before, o, m, 2, st.twiddles, fs, u, 1) == Sub(before[o + u], t)
  {
    hide Mul, Add, Sub, Twisted, Combined, Column, W;
    Scratch(before, o, m, 2, st, fs, u, 0);
    Scratch(before, o, m, 2, st, fs, u, 1);
    Radix2(Column(before, o, m, 2, u), st.twiddles, st.inverse, fs, m, u);
  }

  method KfBfly2(Fout: array<Cpx>, o: nat, fstride: nat, st: Cfg, m: nat)
    requires ValidPlan(st)
    requires m >= 1 && fstride >= 1 && fstride * m * 2 == st.nfft
    requires o + 2 * m <= Fout.Length
    modifies Fout
    ensures Recombined(old(Fout[..]), Fout[..], o, 2, m, st, fstride)
  {
    hide Mul, Add, Sub, Done;
    ghost var before := Fout[..];
    var u := 0;
    while u < m
      invariant 0 <= u <= m
      invariant Progress(before, Fout[..], o, 2, m, st, fstride, u)
    {
      Column2(before, o, m, st, fstride, u);
      ghost var a := Fout[..];
      assert Slot(o, m, u, 0) == o + u && Slot(o, m, u, 1) == o + m + u;
      var t := Mul(Fout[o + m + u], st.twiddles[fstride * u]);
      Fout[o + m + u] := Sub(Fout[o + u], t);
      Fout[o + u] := Add(Fout[o + u], t);
      ProgressStep(before, a, Fout[..], o, 2, m, st, fstride, u, {o + u, o + m + u});
      u := u + 1;
    }
  }

  // The componentwise assignments of the C code: C_MULBYSCALAR, c - HALF_OF(s), c + i s, c - i s.
  function MulByScalar(c: Cpx, s: real): Cpx { Cpx(c.r * s, c.i * s) }
  function LessHalf(c: Cpx, s: Cpx): Cpx { Cpx(c.r - s.r * 0.5, c.i - s.i * 0.5) }
  function AddI(c: Cpx, s: Cpx): Cpx { Cpx(c.r - s.i, c.i + s.r) }
  function SubI(c: Cpx, s: Cpx): Cpx { Cpx(c.r + s.i, c.i - s.r) }

  lemma Algebra3(c0: Cpx, s1: Cpx, s2: Cpx, z: Cpx)
    requires z.r == -0.5
    ensures var s3, d := Add(s1, s2), Sub(s1, s2);
            var h, e := LessHalf(c0, s3), MulByScalar(d, z.i);
            && Add(Add(c0, s1), s2) == Add(c0, s3)
            && Add(Add(c0, Mul(s1, z)), Mul(s2, Conj(z))) == AddI(h, e)
            && Add(Add(c0, Mul(s1, Conj(z))), Mul(s2, z)) == SubI(h, e)
  {}

  lemma Column3(before: seq<Cpx>, o: nat, m: nat, st: Cfg, fs: nat, u: nat)
    requires ValidPlan(st)
    requires fs >= 1 && fs * m * 3 == st.nfft && u < m && o + 3 * m <= |before|
    ensures 0 <= fs * u < st.nfft && 0 <= fs * 2 * u < st.nfft && 0 <= fs * m < st.nfft
    ensures var c0 := before[o + u];
            var s1 := Mul(before[o + u + m], st.twiddles[fs * u]);
            var s2 := Mul(before[o + u + 2 * m], st.twiddles[fs * 2 * u]);
            var z := st.twiddles[fs * m];
            && z.r == -0.5
            && Done(before, o, m, 3, st.twiddles, fs, u, 0) == Add(Add(c0, s1), s2)
            && Done(before, o, m, 3, st.twiddles, fs, u, 1) == Add(Add(c0, Mul(s1, z)), Mul(s2, Conj(z)))
            && Done(before, o, m, 3, st.twiddles, fs, u, 2) == Add(Add(c0, Mul(s1, Conj(z))), Mul(s2, z))
  {
    hide Mul, Add, Sub, Conj, Twisted, Combined, Column;
    assert 0 <= fs * m < st.nfft;
    assert W(st.twiddles, fs * m) == st.twiddles[fs * m];
    hide W;
    Scratch(before, o, m, 3, st, fs, u, 0);
    Scratch(before, o, m, 3, st, fs, u, 1);
    Scratch(before, o, m, 3, st, fs, u, 2);
    Radix3(Column(before, o, m, 3, u), st.twiddles, st.inverse, fs, m, u);
  }

  method KfBfly3(Fout: array<Cpx>, o: nat, fstride: nat, st: Cfg, m: nat)
    requires ValidPlan(st)
    requires m >= 1 && fstride >= 1 && fstride * m * 3 == st.nfft
    requires o + 3 * m <= Fout.Length
    modifies Fout
    ensures Recombined(old(Fout[..]), Fout[..], o, 3, m, st, fstride)
  {
    hide Mul, Add, Sub, Conj, Done, MulByScalar, LessHalf, AddI, SubI, Progress;
    ghost var before := Fout[..];
    NoProgress(before, o, 3, m, st, fstride);
    Column3(before, o, m, st, fstride, 0);
    var epi3 := st.twiddles[fstride * m];
    var u := 0;
    while u < m
      invariant 0 <= u <= m
      invariant Progress(before, Fout[..], o, 3, m, st, fstride, u)
    {
      Column3(before, o, m, st, fstride, u);
      ghost var a := Fout[..];
      Unreached(before, a, o, 3, m, st, fstride, u);
      assert Slot(o, m, u, 0) == o + u && Slot(o, m, u, 1) == o + u + m && Slot(o, m, u, 2) == o + u + 2 * m;
      var f0, f1, f2 := o + u, o + u + m, o + u + 2 * m;
      var s1 := Mul(Fout[f1], st.twiddles[fstride * u]);
      var s2 := Mul(Fout[f2], st.twiddles[fstride * 2 * u]);
      Algebra3(Fout[f0], s1, s2, epi3);
      var s3 := Add(s1, s2);
      var s0 := Sub(s1, s2);
      Fout[f1] := LessHalf(Fout[f0], s3);
      s0 := MulByScalar(s0, epi3.i);
      Fout[f0] := Add(Fout[f0], s3);
      Fout[f2] := SubI(Fout[f1], s0);
      Fout[f1] := AddI(Fout[f1], s0);
      ProgressStep(before, a, Fout[..], o, 3, m, st, fstride, u, {f0, f1, f2});
      u := u + 1;
    }
  }

  lemma TurnRules(s: Cpx)
    ensures Mul(s, Cpx(0.0, 1.0)) == Cpx(-s.i, s.r)
    ensures Mul(s, Cpx(0.0, -1.0)) == Cpx(s.i, -s.r)
    ensures Mul(s, Cpx(-1.0, 0.0)) == Cpx(-s.r, -s.i)
    ensures Mul(s, One) == s
  {}

  lemma Algebra4(c0: Cpx, s1: Cpx, s2: Cpx, s3: Cpx, inverse: bool)
    ensures var z, minus := Cpx(0.0, if inverse then 1.0 else -1.0), Cpx(-1.0, 0.0);
            var d, e, sum, dif := Sub(c0, s2), Add(c0, s2), Add(s1, s3), Sub(s1, s3);
            && Add(Add(Add(c0, s1), s2), s3) == Add(e, sum)
            && Four(c0, s1, z, s2, minus, s3, Conj(z)) == (if inverse then AddI(d, dif) else SubI(d, dif))
            && Four(c0, s1, minus, s2, One, s3, minus) == Sub(e, sum)
            && Four(c0, s1, Conj(z), s2, minus, s3, z) == (if inverse then SubI(d, dif) else AddI(d, dif))
  {
    assert Conj(Cpx(0.0, 1.0)) == Cpx(0.0, -1.0) && Conj(Cpx(0.0, -1.0)) == Cpx(0.0, 1.0);
    hide Mul, Conj;
    TurnRules(s1);
    TurnRules(s2);
    TurnRules(s3);
  }

  lemma Column4(before: seq<Cpx>, o: nat, m: nat, st: Cfg, fs: nat, u: nat)
    requires ValidPlan(st)
    requires fs >= 1 && fs * m * 4 == st.nfft && u < m && o + 4 * m <= |before|
    ensures 0 <= fs * u < st.nfft && 0 <= fs * 2 * u < st.nfft && 0 <= fs * 3 * u < st.nfft
    ensures var c0 := before[o + u];
            var s1 := Mul(before[o + u + m], st.twiddles[fs * u]);
            var s2 := Mul(before[o + u + 2 * m], st.twiddles[fs * 2 * u]);
            var s3 := Mul(before[o + u + 3 * m], st.twiddles[fs * 3 * u]);
            var z, minus := Cpx(0.0, if st.inverse then 1.0 else -1.0), Cpx(-1.0, 0.0);
            && Done(before, o, m, 4, st.twiddles, fs, u, 0) == Add(Add(Add(c0, s1), s2), s3)
            && Done(before, o, m, 4, st.twiddles, fs, u, 1) == Four(c0, s1, z, s2, minus, s3, Conj(z))
            && Done(before, o, m, 4, st.twiddles, fs, u, 2) == Four(c0, s1, minus, s2, One, s3, minus)
            && Done(before, o, m, 4, st.twiddles, fs, u, 3) == Four(c0, s1, Conj(z), s2, minus, s3, z)
  {
    hide Mul, Add, Sub, Conj, Four, Twisted, Combined, Column, W;
    Scratch(before, o, m, 4, st, fs, u, 0);
    Scratch(before, o, m, 4, st, fs, u, 1);
    Scratch(before, o, m, 4, st, fs, u, 2);
    Scratch(before, o, m, 4, st, fs, u, 3);
    Radix4(Column(before, o, m, 4, u), st.twiddles, st.inverse, fs, m, u);
  }

  method KfBfly4(Fout: array<Cpx>, o: nat, fstride: nat, st: Cfg, m: nat)
    requires ValidPlan(st)
    requires m >= 1 && fstride >= 1 && fstride * m * 4 == st.nfft
    requires o + 4 * m <= Fout.Length
    modifies Fout
    ensures Recombined(old(Fout[..]), Fout[..], o, 4, m, st, fstride)
  {
    hide Mul, Add, Sub, Conj, Four, Done, AddI, SubI, Progress;
    ghost var before := Fout[..];
    NoProgress(before, o, 4, m, st, fstride);
    var u := 0;
    while u < m
      invariant 0 <= u <= m
      invariant Progress(before, Fout[..], o, 4, m, st, fstride, u)
    {
      Column4(before, o, m, st, fstride, u);
      ghost var a := Fout[..];
      Unreached(before, a, o, 4, m, st, fstride, u);
      var f0, f1, f2, f3 := o + u, o + u + m, o + u + 2 * m, o + u + 3 * m;
      assert Slot(o, m, u, 0) == f0 && Slot(o, m, u, 1) == f1 && Slot(o, m, u, 2) == f2 && Slot(o, m, u, 3) == f3;
      var s0 := Mul(Fout[f1], st.twiddles[fstride * u]);
      var s1 := Mul(Fout[f2], st.twiddles[fstride * 2 * u]);
      var s2 := Mul(Fout[f3], st.twiddles[fstride * 3 * u]);
      Algebra4(Fout[f0], s0, s1, s2, st.inverse);
      var s5 := Sub(Fout[f0], s1);
      Fout[f0] := Add(Fout[f0], s1);
      var s3 := Add(s0, s2);
      var s4 := Sub(s0, s2);
      Fout[f2] := Sub(Fout[f0], s3);
      Fout[f0] := Add(Fout[f0], s3);
      if st.inverse {
        Fout[f1] := AddI(s5, s4);
        Fout[f3] := SubI(s5, s4);
      } else {
        Fout[f1] := SubI(s5, s4);
        Fout[f3] := AddI(s5, s4);
      }
      ProgressStep(before, a, Fout[..], o, 4, m, st, fstride, u, {f0, f1, f2, f3});
      u := u + 1;
    }
  }

  // scratch[5] and scratch[11], then scratch[6], then scratch[12] of kf_bfly5.
  function Blend(s0: Cpx, s7: Cpx, s8: Cpx, x: real, y: real): Cpx {
    Cpx(s0.r + s7.r * x + s8.r * y, s0.i + s7.i * x + s8.i * y)
  }
  function Spin(s10: Cpx, s9: Cpx, x: real, y: real): Cpx {
    Cpx(s10.i * x + s9.i * y, -(s10.r * x) - s9.r * y)
  }
  function CounterSpin(s10: Cpx, s9: Cpx, x: real, y: real): Cpx {
    Cpx(-(s10.i * x) + s9.i * y, s10.r * x - s9.r * y)
  }

  /** Two terms turned by conjugate amounts, through their sum and difference. */
  lemma PairTurn(s: Cpx, t: Cpx, w: Cpx, sum: Cpx, dif: Cpx)
    requires sum == Add(s, t) && dif == Sub(s, t)
    ensures Add(Mul(s, w), Mul(t, Conj(w))) == Cpx(sum.r * w.r - dif.i * w.i, sum.i * w.r + dif.r * w.i)
  {
    Spread(s.r, t.r, w.r);
    Spread(s.i, t.i, w.r);
    Spread(s.r, t.r, w.i);
    Spread(s.i, t.i, w.i);
  }

  lemma PairTurnBack(s: Cpx, t: Cpx, w: Cpx, sum: Cpx, dif: Cpx)
    requires sum == Add(s, t) && dif == Sub(s, t)
    ensures Add(Mul(s, Conj(w)), Mul(t, w)) == Cpx(sum.r * w.r + dif.i * w.i, sum.i * w.r - dif.r * w.i)
  {
    PairTurn(s, t, Conj(w), sum, dif);
    assert Conj(Conj(w)) == w;
    hide Mul, Add, Sub;
    Negated(dif.i, w.i);
    Negated(dif.r, w.i);
  }

  lemma Negated(x: real, y: real)
    ensures x * (-y) == -(x * y)
  {}

  lemma Spread(x: real, y: real, z: real)
    ensures (x + y) * z == x * z + y * z && (x - y) * z == x * z - y * z
  {}

  lemma FivePairs(c0: Cpx, s1: Cpx, w1: Cpx, s2: Cpx, w2: Cpx, s3: Cpx, w3: Cpx, s4: Cpx, w4: Cpx)
    ensures Five(c0, s1, w1, s2, w2, s3, w3, s4, w4)
         == Add(Add(c0, Add(Mul(s1, w1), Mul(s4, w4))), Add(Mul(s2, w2), Mul(s3, w3)))
  {
    hide Mul;
  }

  lemma OuterSums(c0: Cpx, s7: Cpx, s8: Cpx, s9: Cpx, s10: Cpx, a: Cpx, b: Cpx)
    ensures Add(Add(c0, Cpx(s7.r * a.r - s10.i * a.i, s7.i * a.r + s10.r * a.i)),
                Cpx(s8.r * b.r - s9.i * b.i, s8.i * b.r + s9.r * b.i))
         == Sub(Blend(c0, s7, s8, a.r, b.r), Spin(s10, s9, a.i, b.i))
    ensures Add(Add(c0, Cpx(s7.r * a.r + s10.i * a.i, s7.i * a.r - s10.r * a.i)),
                Cpx(s8.r * b.r + s9.i * b.i, s8.i * b.r - s9.r * b.i))
         == Add(Blend(c0, s7, s8, a.r, b.r), Spin(s10, s9, a.i, b.i))
  {}

  lemma InnerSums(c0: Cpx, s7: Cpx, s8: Cpx, s9: Cpx, s10: Cpx, a: Cpx, b: Cpx)
    ensures Add(Add(c0, Cpx(s7.r * b.r - s10.i * b.i, s7.i * b.r + s10.r * b.i)),
                Cpx(s8.r * a.r + s9.i * a.i, s8.i * a.r - s9.r * a.i))
         == Add(Blend(c0, s7, s8, b.r, a.r), CounterSpin(s10, s9, b.i, a.i))
    ensures Add(Add(c0, Cpx(s7.r * b.r + s10.i * b.i, s7.i * b.r - s10.r * b.i)),
                Cpx(s8.r * a.r - s9.i * a.i, s8.i * a.r + s9.r * a.i))
         == Sub(Blend(c0, s7, s8, b.r, a.r), CounterSpin(s10, s9, b.i, a.i))
  {}

  lemma PlainSum(c0: Cpx, s1: Cpx, s2: Cpx, s3: Cpx, s4: Cpx)
    ensures Add(Add(Add(Add(c0, s1), s2), s3), s4) == Add(c0, Add(Add(s1, s4), Add(s2, s3)))
  {}

  lemma Algebra5(c0: Cpx, s1: Cpx, s2: Cpx, s3: Cpx, s4: Cpx, a: Cpx, b: Cpx)
    ensures var s7, s8, s9, s10 := Add(s1, s4), Add(s2, s3), Sub(s2, s3), Sub(s1, s4);
            var s5, s6 := Blend(c0, s7, s8, a.r, b.r), Spin(s10, s9, a.i, b.i);
            var s11, s12 := Blend(c0, s7, s8, b.r, a.r), CounterSpin(s10, s9, b.i, a.i);
            && Add(Add(Add(Add(c0, s1), s2), s3), s4) == Add(c0, Add(s7, s8))
            && Five(c0, s1, a, s2, b, s3, Conj(b), s4, Conj(a)) == Sub(s5, s6)
            && Five(c0, s1, b, s2, Conj(a), s3, a, s4, Conj(b)) == Add(s11, s12)
            && Five(c0, s1, Conj(b), s2, a, s3, Conj(a), s4, b) == Sub(s11, s12)
            && Five(c0, s1, Conj(a), s2, Conj(b), s3, b, s4, a) == Add(s5, s6)
  {
    hide Mul, Add, Sub, Conj, Five, Blend, Spin, CounterSpin;
    var s7, s8, s9, s10 := Add(s1, s4), Add(s2, s3), Sub(s2, s3), Sub(s1, s4);
    PlainSum(c0, s1, s2, s3, s4);
    PairTurn(s1, s4, a, s7, s10);
    PairTurn(s1, s4, b, s7, s10);
    PairTurn(s2, s3, a, s8, s9);
    PairTurn(s2, s3, b, s8, s9);
    PairTurnBack(s1, s4, a, s7, s10);
    PairTurnBack(s1, s4, b, s7, s10);
    PairTurnBack(s2, s3, a, s8, s9);
    PairTurnBack(s2, s3, b, s8, s9);
    FivePairs(c0, s1, a, s2, b, s3, Conj(b), s4, Conj(a));
    FivePairs(c0, s1, b, s2, Conj(a), s3, a, s4, Conj(b));
    FivePairs(c0, s1, Conj(b), s2, a, s3, Conj(a), s4, b);
    FivePairs(c0, s1, Conj(a), s2, Conj(b), s3, b, s4, a);
    OuterSums(c0, s7, s8, s9, s10, a, b);
    InnerSums(c0, s7, s8, s9, s10, a, b);
  }

  lemma Column5(before: seq<Cpx>, o: nat, m: nat, st: Cfg, fs: nat, u: nat)
    requires ValidPlan(st)
    requires fs >= 1 && fs * m * 5 == st.nfft && u < m && o + 5 * m <= |before|
    ensures 0 <= fs * u < st.nfft && 0 <= fs * 2 * u < st.nfft && 0 <= fs * 3 * u < st.nfft && 0 <= fs * 4 * u < st.nfft
    ensures 0 <= fs * m < st.nfft && 0 <= 2 * (fs * m) < st.nfft
    ensures var c0 := before[o + u];
            var s1 := Mul(before[o + u + m], st.twiddles[fs * u]);
            var s2 := Mul(before[o + u + 2 * m], st.twiddles[fs * 2 * u]);
            var s3 := Mul(before[o + u + 3 * m], st.twiddles[fs * 3 * u]);
            var s4 := Mul(before[o + u + 4 * m], st.twiddles[fs * 4 * u]);
            var a, b := st.twiddles[fs * m], st.twiddles[2 * (fs * m)];
            && Done(before, o, m, 5, st.twiddles, fs, u, 0) == Add(Add(Add(Add(c0, s1), s2), s3), s4)
            && Done(before, o, m, 5, st.twiddles, fs, u, 1) == Five(c0, s1, a, s2, b, s3, Conj(b), s4, Conj(a))
            && Done(before, o, m, 5, st.twiddles, fs, u, 2) == Five(c0, s1, b, s2, Conj(a), s3, a, s4, Conj(b))
            && Done(before, o, m, 5, st.twiddles, fs, u, 3) == Five(c0, s1, Conj(b), s2, a, s3, Conj(a), s4, b)
            && Done(before, o, m, 5, st.twiddles, fs, u, 4) == Five(c0, s1, Conj(a), s2, Conj(b), s3, b, s4, a)
  {
    hide Mul, Add, Sub, Conj, Five, Twisted, Combined, Column;
    assert 0 <= fs * m;
    assert W(st.twiddles, fs * m) == st.twiddles[fs * m];
    assert W(st.twiddles, 2 * (fs * m)) == st.twiddles[2 * (fs * m)];
    hide W;
    Scratch(before, o, m, 5, st, fs, u, 0);
    Scratch(before, o, m, 5, st, fs, u, 1);
    Scratch(before, o, m, 5, st, fs, u, 2);
    Scratch(before, o, m, 5, st, fs, u, 3);
    Scratch(before, o, m, 5, st, fs, u, 4);
    Radix5(Column(before, o, m, 5, u), st.twiddles, st.inverse, fs, m, u);
  }

  /** The loop body of kf_bfly5 on one column: elements f0 .. f4 with twiddles t1 .. t4. */
  method Bfly5Cell(Fout: array<Cpx>, f0: nat, f1: nat, f2: nat, f3: nat, f4: nat,
                   t1: Cpx, t2: Cpx, t3: Cpx, t4: Cpx, ya: Cpx, yb: Cpx)
    requires f0 < f1 < f2 < f3 < f4 < Fout.Length
    modifies Fout
    ensures var c0, s1, s2, s3, s4 := old(Fout[f0]), Mul(old(Fout[f1]), t1), Mul(old(Fout[f2]), t2),
                                      Mul(old(Fout[f3]), t3), Mul(old(Fout[f4]), t4);
            && Fout[f0] == Add(Add(Add(Add(c0, s1), s2), s3), s4)
            && Fout[f1] == Five(c0, s1, ya, s2, yb, s3, Conj(yb), s4, Conj(ya))
            && Fout[f2] == Five(c0, s1, yb, s2, Conj(ya), s3, ya, s4, Conj(yb))
            && Fout[f3] == Five(c0, s1, Conj(yb), s2, ya, s3, Conj(ya), s4, yb)
            && Fout[f4] == Five(c0, s1, Conj(ya), s2, Conj(yb), s3, yb, s4, ya)
    ensures forall i | 0 <= i < Fout.Length && i != f0 && i != f1 && i != f2 && i != f3 && i != f4 ::
            Fout[i] == old(Fout[i])
  {
    hide Mul, Add, Sub, Conj, Five, Blend, Spin, CounterSpin;
    var s0 := Fout[f0];
    var s1 := Mul(Fout[f1], t1);
    var s2 := Mul(Fout[f2], t2);
    var s3 := Mul(Fout[f3], t3);
    var s4 := Mul(Fout[f4], t4);
    Algebra5(s0, s1, s2, s3, s4, ya, yb);
    var s7 := Add(s1, s4);
    var s10 := Sub(s1, s4);
    var s8 := Add(s2, s3);
    var s9 := Sub(s2, s3);
    Fout[f0] := Add(Fout[f0], Add(s7, s8));
    var s5 := Blend(s0, s7, s8, ya.r, yb.r);
    var s6 := Spin(s10, s9, ya.i, yb.i);
    Fout[f1] := Sub(s5, s6);
    Fout[f4] := Add(s5, s6);
    var s11 := Blend(s0, s7, s8, yb.r, ya.r);
    var s12 := CounterSpin(s10, s9, yb.i, ya.i);
    Fout[f2] := Add(s11, s12);
    Fout[f3] := Sub(s11, s12);
  }

  method KfBfly5(Fout: array<Cpx>, o: nat, fstride: nat, st: Cfg, m: nat)
    requires ValidPlan(st)
    requires m >= 1 && fstride >= 1 && fstride * m * 5 == st.nfft
    requires o + 5 * m <= Fout.Length
    modifies Fout
    ensures Recombined(old(Fout[..]), Fout[..], o, 5, m, st, fstride)
  {
    hide Mul, Add, Conj, Five, Done, Progress;
    ghost var before := Fout[..];
    NoProgress(before, o, 5, m, st, fstride);
    Column5(before, o, m, st, fstride, 0);
    var ya := st.twiddles[fstride * m];
    var yb := st.twiddles[2 * (fstride * m)];
    for u := 0 to m
      invariant Progress(before, Fout[..], o, 5, m, st, fstride, u)
    {
      Column5(before, o, m, st, fstride, u);
      ghost var a := Fout[..];
      Unreached(before, a, o, 5, m, st, fstride, u);
      var f0, f1, f2, f3, f4 := o + u, o + u + m, o + u + 2 * m, o + u + 3 * m, o + u + 4 * m;
      assert Slot(o, m, u, 0) == f0 && Slot(o, m, u, 1) == f1 && Slot(o, m, u, 2) == f2
          && Slot(o, m, u, 3) == f3 && Slot(o, m, u, 4) == f4;
      Bfly5Cell(Fout, f0, f1, f2, f3, f4, st.twiddles[fstride * u], st.twiddles[fstride * 2 * u],
                st.twiddles[fstride * 3 * u], st.twiddles[fstride * 4 * u], ya, yb);
      ProgressStep(before, a, Fout[..], o, 5, m, st, fstride, u, {f0, f1, f2, f3, f4});
    }
  }

  /** Keeping a running table index below the table length does not change the entry it names. */
  lemma NextIndex(tw: seq<Cpx>, inverse: bool, index: nat, step: nat, e: nat)
    requires ValidTwiddles(tw, inverse)
    requires index < |tw| && step < |tw| && W(tw, e) == tw[index]
    ensures var next := if index + step >= |tw| then index + step - |tw| else index + step;
            next < |tw| && W(tw, e + step) == tw[next]
  {
    hide Mul;
    WAdd(tw, inverse, e, step);
    WAdd(tw, inverse, index, step);
    assert W(tw, index) == tw[index];
    var next := if index + step >= |tw| then index + step - |tw| else index + step;
    assert W(tw, index + step) == tw[next];
  }

  /** The accumulation of kf_bfly_generic for bin k, with its wrapping twiddle index. */
  method GenericBin(scratch: seq<Cpx>, fstride: nat, st: Cfg, k: nat) returns (acc: Cpx)
    requires ValidPlan(st)
    requires |scratch| >= 1 && fstride * k < st.nfft
    ensures acc == Combined(scratch, st.twiddles, fstride, k)
  {
    hide Mul, Add, ValidTwiddles, W;
    ghost var tw := st.twiddles;
    ghost var t := (q: int) => Twisted(scratch, tw, fstride, k, q);
    var twidx := 0;
    acc := scratch[0];
    WZero(tw, st.inverse);
    TwistedFirst(scratch, tw, st.inverse, fstride, k);
    assert Sum(1, t) == acc;
    assert tw[0] == W(tw, 0) by { FirstEntry(tw, st.inverse); }
    for q := 1 to |scratch|
      invariant 0 <= twidx < st.nfft
      invariant W(tw, fstride * (q - 1) * k) == tw[twidx]
      invariant acc == Sum(q, t)
    {
      assert fstride * q * k == fstride * (q - 1) * k + fstride * k by { Exponent(fstride, q, k); }
      NextIndex(tw, st.inverse, twidx, fstride * k, fstride * (q - 1) * k);
      twidx := twidx + fstride * k;
      if twidx >= st.nfft {
        twidx := twidx - st.nfft;
      }
      var x := Mul(scratch[q], st.twiddles[twidx]);
      assert t(q) == x;
      acc := Add(acc, x);
    }
    SumExt(|scratch|, (q: int) => Twisted(scratch, tw, fstride, k, q), t);
  }

  lemma FirstEntry(tw: seq<Cpx>, inverse: bool)
    requires ValidTwiddles(tw, inverse)
    ensures |tw| > 0 && W(tw, 0) == tw[0]
  {}

  lemma Exponent(fs: nat, q: nat, k: nat)
    requires q >= 1
    ensures fs * q * k == fs * (q - 1) * k + fs * k
    ensures fs * (q - 1) * k >= 0
  {
    assert fs * q == fs * (q - 1) + fs;
    Distribute(k, fs * (q - 1), fs);
    assert fs * (q - 1) >= 0;
  }

  lemma BinBelow(fs: nat, m: nat, p: nat, n: nat, u: nat, q: nat)
    requires u < m && q < p && fs >= 1 && fs * m * p == n
    ensures fs * (u + q * m) < n
  {
    SlotBounds(0, m, p, u, q);
    assert fs * (u + q * m) < fs * (p * m);
    assert fs * (p * m) == fs * m * p;
  }

  /** First inner loop of kf_bfly_generic: copy column u. */
  method LoadColumn(Fout: array<Cpx>, o: nat, m: nat, p: nat, u: nat) returns (scratch: seq<Cpx>)
    requires u < m && o + p * m <= Fout.Length
    ensures scratch == Column(Fout[..], o, m, p, u)
  {
    scratch := [];
    var k: nat := u;
    ghost var column := Column(Fout[..], o, m, p, u);
    for q1 := 0 to p
      invariant k == u + q1 * m
      invariant scratch == column[..q1]
    {
      SlotBounds(o, m, p, u, q1);
      scratch := scratch + [Fout[o + k]];
      Distribute(m, q1, 1);
      k := k + m;
    }
  }

  /** Writing slot q1 of a column keeps its earlier slots. */
  lemma StoreSlot(s: seq<Cpx>, o: nat, m: nat, p: nat, u: nat, q1: nat, v: Cpx)
    requires u < m && q1 < p && o + p * m <= |s|
    ensures 0 <= Slot(o, m, u, q1) < |s|
    ensures At(s[Slot(o, m, u, q1) := v], Slot(o, m, u, q1)) == v
    ensures forall q | 0 <= q < q1 :: At(s[Slot(o, m, u, q1) := v], Slot(o, m, u, q)) == At(s, Slot(o, m, u, q))
  {
    SlotBounds(o, m, p, u, q1);
    forall q | 0 <= q < q1 ensures At(s[Slot(o, m, u, q1) := v], Slot(o, m, u, q)) == At(s, Slot(o, m, u, q)) {
      SlotOrder(o, m, u, q, u, q1);
      SlotBounds(o, m, p, u, q);
    }
  }

  /** Second inner loop: overwrite column u with its p bins. */
  method StoreColumn(Fout: array<Cpx>, o: nat, fstride: nat, st: Cfg, m: nat, p: nat, u: nat, scratch: seq<Cpx>)
    returns (ghost written: set<int>)
    requires ValidPlan(st)
    requires m >= 1 && p >= 1 && fstride >= 1 && fstride * m * p == st.nfft
    requires u < m && |scratch| == p && o + p * m <= Fout.Length
    modifies Fout
    ensures forall q | 0 <= q < p ::
              At(Fout[..], Slot(o, m, u, q)) == Combined(scratch, st.twiddles, fstride, u + q * m)
    ensures forall i | 0 <= i < Fout.Length && i !in written :: Fout[i] == old(Fout[i])
    ensures forall i | i in written :: exists q :: 0 <= q < p && i == Slot(o, m, u, q)
  {
    hide Combined, ValidTwiddles;
    var k: nat := u;
    written := {};
    for q1 := 0 to p
      invariant k == u + q1 * m
      invariant forall q | 0 <= q < q1 ::
                  At(Fout[..], Slot(o, m, u, q)) == Combined(scratch, st.twiddles, fstride, u + q * m)
      invariant forall i | 0 <= i < Fout.Length && i !in written :: Fout[i] == old(Fout[i])
      invariant forall i | i in written :: exists q :: 0 <= q < q1 && i == Slot(o, m, u, q)
    {
      SlotBounds(o, m, p, u, q1);
      BinBelow(fstride, m, p, st.nfft, u, q1);
      var acc := GenericBin(scratch, fstride, st, k);
      StoreSlot(Fout[..], o, m, p, u, q1, acc);
      ghost var b := Fout[..];
      Fout[o + k] := acc;
      assert Fout[..] == b[o + k := acc];
      assert Slot(o, m, u, q1) == o + k;
      written := written + {o + k};
      Distribute(m, q1, 1);
      k := k + m;
    }
  }

  /** Column u not yet rewritten: it still reads as it did before the butterfly. */
  lemma ColumnUntouched(before: seq<Cpx>, a: seq<Cpx>, o: nat, p: nat, m: nat, st: Cfg, fs: int, u: nat)
    requires Progress(before, a, o, p, m, st, fs, u) && u < m
    ensures Column(a, o, m, p, u) == Column(before, o, m, p, u)
  {
    forall q | 0 <= q < p ensures At(a, o + u + q * m) == At(before, o + u + q * m) {
      assert o + u + q * m == Slot(o, m, u, q);
    }
  }

  method KfBflyGeneric(Fout: array<Cpx>, o: nat, fstride: nat, st: Cfg, m: nat, p: nat)
    requires ValidPlan(st)
    requires m >= 1 && p >= 1 && fstride >= 1 && fstride * m * p == st.nfft
    requires o + p * m <= Fout.Length
    modifies Fout
    ensures Recombined(old(Fout[..]), Fout[..], o, p, m, st, fstride)
  {
    hide Combined, ValidTwiddles, W, Column;
    ghost var before := Fout[..];
    for u := 0 to m
      invariant Progress(before, Fout[..], o, p, m, st, fstride, u)
    {
      ghost var a := Fout[..];
      ColumnUntouched(before, a, o, p, m, st, fstride, u);
      var scratch := LoadColumn(Fout, o, m, p, u);
      ghost var written := StoreColumn(Fout, o, fstride, st, m, p, u, scratch);
      ProgressStep(before, a, Fout[..], o, p, m, st, fstride, u, written);
    }
  }
}

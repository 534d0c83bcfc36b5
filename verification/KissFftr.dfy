/**
 kiss_fft and kiss_fftr: the public transforms. kiss_fftr packs a real signal of even length 2n
 into n complex samples, runs the n-point transform and unpacks n + 1 bins.
 */
module KissFftr {
  import opened Complex
  import opened Dft
  import opened Turns
  import opened Butterflies
  import opened KissFft

  /** kiss_fft_stride for distinct buffers. */
  method KissFftStride(st: Cfg, fin: seq<Cpx>, fout: array<Cpx>, inStride: nat)
    requires ValidPlan(st) && Chain(st.factors, st.nfft)
    requires fout.Length == st.nfft
    requires (st.nfft - 1) * inStride < |fin|
    modifies fout
    ensures forall k | 0 <= k < st.nfft :: fout[k] == Bin(fin, 0, inStride, st.nfft, st.twiddles, 1, k)
  {
    hide ValidTwiddles, Bin;
    KfWork(fout, 0, fin, 0, 1, inStride, st.factors, st, st.nfft);
    forall k | 0 <= k < st.nfft ensures fout[k] == Bin(fin, 0, inStride, st.nfft, st.twiddles, 1, k) {
      assert At(fout[..], 0 + k) == fout[k];
    }
  }

  ghost predicate RealValued(x: seq<Cpx>) {
    forall i | 0 <= i < |x| :: x[i].i == 0.0
  }

  ghost function Lift(x: seq<real>): (l: seq<Cpx>)
    ensures |l| == |x| && RealValued(l)
  {
    seq(|x|, i requires 0 <= i < |x| => Cpx(x[i], 0.0))
  }

  lemma {:induction false} WUnit(tw: seq<Cpx>, inverse: bool, a: nat)
    requires ValidTwiddles(tw, inverse)
    ensures Mul(W(tw, a), Conj(W(tw, a))) == One
  {
    hide Mul, Conj;
    if a < |tw| {
      assert UnitLaw(tw, a);
    } else {
      WUnit(tw, inverse, a - |tw|);
    }
  }

  /** Exponents that add up to whole turns are conjugate. */
  lemma WConj(tw: seq<Cpx>, inverse: bool, a: nat, b: nat, turns: nat)
    requires ValidTwiddles(tw, inverse)
    requires a + b == turns * |tw|
    ensures W(tw, b) == Conj(W(tw, a))
  {
    hide Mul, Conj;
    WUnit(tw, inverse, a);
    WAdd(tw, inverse, a, b);
    WTurns(tw, 0, turns);
    WZero(tw, inverse);
    ConjInverse(W(tw, a), W(tw, b));
  }

  lemma ConjRealMul(x: Cpx, w: Cpx)
    requires x.i == 0.0
    ensures Mul(x, Conj(w)) == Conj(Mul(x, w))
  {}

  lemma TurnsOf(j: nat, k: nat, k': nat, c: nat, n: nat)
    requires k + k' == c * n
    ensures 2 * j * k + 2 * j * k' == (j * c) * (2 * n)
    ensures 0 <= 2 * j * k && 0 <= 2 * j * k'
  {
    Distribute(2 * j, k, k');
    assert 2 * j * (c * n) == (j * c) * (2 * n);
  }

  /** Bins of a real half-signal at mirrored frequencies are conjugate. */
  lemma MirrorBin(x: seq<Cpx>, b: nat, n: nat, root: seq<Cpx>, k: nat, k': nat, c: nat)
    requires RealValued(x) && ValidTwiddles(root, false) && |root| == 2 * n
    requires k + k' == c * n
    ensures Bin(x, b, 2, n, root, 2, k') == Conj(Bin(x, b, 2, n, root, 2, k))
  {
    hide ValidTwiddles, Mul, Conj, W, RealValued, At;
    var t := (j: int) => Term(x, b, 2, root, 2, k, j);
    var t' := (j: int) => Term(x, b, 2, root, 2, k', j);
    var ct := (j: int) => Conj(t(j));
    forall j | 0 <= j < n ensures t'(j) == ct(j) {
      TurnsOf(j, k, k', c, n);
      WConj(root, false, 2 * j * k, 2 * j * k', j * c);
      RealAt(x, b + j * 2);
      ConjRealMul(At(x, b + j * 2), W(root, 2 * j * k));
    }
    SumExt(n, t', ct);
    SumConj(n, t);
    SumExt(n, (j: int) => Conj(t(j)), ct);
    BinIs(x, b, 2, n, root, 2, k, t);
    BinIs(x, b, 2, n, root, 2, k', t');
  }

  lemma RealAt(x: seq<Cpx>, i: int)
    requires RealValued(x)
    ensures At(x, i).i == 0.0
  {}

  /** The half-length table is every second entry of the full-length one. */
  ghost predicate HalfTable(tw: seq<Cpx>, root: seq<Cpx>) {
    |root| == 2 * |tw| && forall i | 0 <= i < |tw| :: tw[i] == root[2 * i]
  }

  lemma {:induction false} HalfW(tw: seq<Cpx>, root: seq<Cpx>, i: nat)
    requires HalfTable(tw, root) && |tw| > 0
    ensures W(tw, i) == W(root, 2 * i)
  {
    if i >= |tw| {
      HalfW(tw, root, i - |tw|);
    }
  }

  lemma {:induction false} SumAddI(n: nat, f: int -> Cpx, g: int -> Cpx, h: int -> Cpx)
    requires forall i | 0 <= i < n :: h(i) == AddI(f(i), g(i))
    ensures Sum(n, h) == AddI(Sum(n, f), Sum(n, g))
  {
    if n > 0 {
      hide AddI, Add;
      SumAddI(n - 1, f, g, h);
      AddIAdd(Sum(n - 1, f), Sum(n - 1, g), f(n - 1), g(n - 1));
    }
  }

  lemma AddIAdd(a: Cpx, b: Cpx, c: Cpx, d: Cpx)
    ensures Add(AddI(a, b), AddI(c, d)) == AddI(Add(a, c), Add(b, d))
  {}

  lemma PackedMul(a: real, b: real, w: Cpx)
    ensures Mul(Cpx(a, b), w) == AddI(Mul(Cpx(a, 0.0), w), Mul(Cpx(b, 0.0), w))
  {}

  /** timedata read as n complex samples. */
  ghost predicate Packs(packed: seq<Cpx>, x: seq<Cpx>) {
    |x| == 2 * |packed| && forall j | 0 <= j < |packed| :: packed[j] == Cpx(x[2 * j].r, x[2 * j + 1].r)
  }

  ghost function EvenBin(x: seq<Cpx>, n: nat, root: seq<Cpx>, k: int): Cpx { Bin(x, 0, 2, n, root, 2, k) }
  ghost function OddBin(x: seq<Cpx>, n: nat, root: seq<Cpx>, k: int): Cpx { Bin(x, 1, 2, n, root, 2, k) }

  lemma PackedTerm(packed: seq<Cpx>, x: seq<Cpx>, tw: seq<Cpx>, root: seq<Cpx>, k: nat, j: nat)
    requires RealValued(x) && Packs(packed, x) && HalfTable(tw, root) && j < |packed| && |tw| > 0
    ensures Term(packed, 0, 1, tw, 1, k, j) == AddI(Term(x, 0, 2, root, 2, k, j), Term(x, 1, 2, root, 2, k, j))
  {
    assert 0 <= j * k;
    HalfW(tw, root, j * k);
    assert 1 * j * k == j * k && 2 * j * k == 2 * (j * k);
    hide Mul, W, AddI;
    PackedMul(x[2 * j].r, x[2 * j + 1].r, W(root, 2 * j * k));
  }

  /** The packed transform interleaves the even and odd half-transforms as real and imaginary parts. */
  lemma PackedBin(packed: seq<Cpx>, x: seq<Cpx>, n: nat, tw: seq<Cpx>, root: seq<Cpx>, k: nat)
    requires RealValued(x) && Packs(packed, x) && HalfTable(tw, root) && |packed| == |tw| == n && n > 0
    ensures Bin(packed, 0, 1, n, tw, 1, k) == AddI(EvenBin(x, n, root, k), OddBin(x, n, root, k))
  {
    hide Term, AddI, RealValued, Packs, HalfTable;
    var z := (j: int) => Term(packed, 0, 1, tw, 1, k, j);
    var e := (j: int) => Term(x, 0, 2, root, 2, k, j);
    var o := (j: int) => Term(x, 1, 2, root, 2, k, j);
    forall j | 0 <= j < n ensures z(j) == AddI(e(j), o(j)) {
      PackedTerm(packed, x, tw, root, k, j);
    }
    SumAddI(n, e, o, z);
    BinIs(packed, 0, 1, n, tw, 1, k, z);
    BinIs(x, 0, 2, n, root, 2, k, e);
    BinIs(x, 1, 2, n, root, 2, k, o);
  }

  /** The full-length bins k and k + n from the two half-transforms. */
  lemma FullBins(x: seq<Cpx>, n: nat, root: seq<Cpx>, k: nat)
    requires ValidTwiddles(root, false) && |root| == 2 * n
    ensures var e, o := EvenBin(x, n, root, k), OddBin(x, n, root, k);
            && Bin(x, 0, 1, 2 * n, root, 1, k) == Add(e, Mul(o, W(root, k)))
            && Bin(x, 0, 1, 2 * n, root, 1, k + n) == Sub(e, Mul(o, W(root, k)))
  {
    hide Bin, Combined, ValidTwiddles, Mul, Add, Sub, W;
    var sub := [EvenBin(x, n, root, k), OddBin(x, n, root, k)];
    Recombine(x, 0, 1, 2, n, root, false, 1, k, 0, sub);
    Recombine(x, 0, 1, 2, n, root, false, 1, k, 1, sub);
    Radix2(sub, root, false, 1, n, k);
    SecondTerm(sub, root, k);
  }

  lemma SecondTerm(c: seq<Cpx>, root: seq<Cpx>, k: nat)
    requires |c| == 2
    ensures Twisted(c, root, 1, k, 1) == Mul(c[1], W(root, k))
  {
    assert 1 * 1 * k == k;
  }

  /** Two bins from one packed pair: bin k, and its mirror n - k, as kiss_fftr computes them. */
  lemma Unpack(zk: Cpx, znk: Cpx, e: Cpx, o: Cpx, e': Cpx, o': Cpx, v: Cpx, v': Cpx, twiddle: Cpx)
    requires zk == AddI(e, o) && znk == AddI(e', o')
    requires e' == Conj(e) && o' == Conj(o) && v' == Cpx(-v.r, v.i) && twiddle == Mul(v, Cpx(0.0, -1.0))
    ensures var f1k, f2k := Add(zk, Conj(znk)), Sub(zk, Conj(znk));
            var tw := Mul(f2k, twiddle);
            && Cpx((f1k.r + tw.r) * 0.5, (f1k.i + tw.i) * 0.5) == Add(e, Mul(o, v))
            && Cpx((f1k.r - tw.r) * 0.5, (tw.i - f1k.i) * 0.5) == Add(e', Mul(o', v'))
  {
    var f2k := Sub(zk, Conj(znk));
    assert f2k == Cpx(-2.0 * o.i, 2.0 * o.r);
    assert twiddle == Cpx(v.i, -v.r);
    var ov := Mul(o, v);
    assert Mul(f2k, twiddle) == Cpx(2.0 * ov.r, 2.0 * ov.i);
    assert Mul(o', v') == Cpx(-ov.r, ov.i);
  }

  /**
   kiss_fftr_state. `root` is the table of the 2n-th roots that the two stored tables sample:
   the half-length twiddles are its even entries, and super_twiddles[i] is
   exp(-pi i ((i+1)/n + 1/2)), that is entry i + 1 turned a further quarter; an inverse plan has both
   the table and the quarter turn the other way round.
   */
  ghost predicate ValidRealPlan(sub: Cfg, superTwiddles: seq<Cpx>, root: seq<Cpx>) {
    && ValidPlan(sub) && Chain(sub.factors, sub.nfft)
    && ValidTwiddles(root, sub.inverse)
    && HalfTable(sub.twiddles, root)
    && |superTwiddles| == sub.nfft / 2
    && (forall i | 0 <= i < |superTwiddles| ::
          superTwiddles[i] == Mul(root[i + 1], Cpx(0.0, if sub.inverse then 1.0 else -1.0)))
  }

  lemma MirrorRoot(root: seq<Cpx>, n: nat, k: nat)
    requires ValidTwiddles(root, false) && |root| == 2 * n && k <= n
    ensures W(root, n - k) == Cpx(-W(root, k).r, W(root, k).i)
  {
    hide ValidTwiddles;
    WConj(root, false, k, 2 * n - k, 1);
    WAdd(root, false, n, n - k);
    HalfTurn(root, false, n);
    var v := W(root, n - k);
    assert Mul(Cpx(-1.0, 0.0), v) == Cpx(-v.r, -v.i);
    assert W(root, 2 * n - k) == Cpx(-v.r, -v.i);
  }

  lemma EdgeBins(x: seq<Cpx>, n: nat, root: seq<Cpx>, z0: Cpx)
    requires RealValued(x) && ValidTwiddles(root, false) && |root| == 2 * n && n > 0
    requires z0 == AddI(EvenBin(x, n, root, 0), OddBin(x, n, root, 0))
    ensures Bin(x, 0, 1, 2 * n, root, 1, 0) == Cpx(z0.r + z0.i, 0.0)
    ensures Bin(x, 0, 1, 2 * n, root, 1, n) == Cpx(z0.r - z0.i, 0.0)
  {
    MirrorBin(x, 0, n, root, 0, 0, 0);
    MirrorBin(x, 1, n, root, 0, 0, 0);
    FullBins(x, n, root, 0);
    WZero(root, false);
    hide ValidTwiddles, Bin, RealValued, W;
    var e, o := EvenBin(x, n, root, 0), OddBin(x, n, root, 0);
    assert Mul(o, One) == o;
  }

  lemma MiddleBins(x: seq<Cpx>, n: nat, root: seq<Cpx>, k: nat, zk: Cpx, znk: Cpx, twiddle: Cpx)
    requires RealValued(x) && ValidTwiddles(root, false) && |root| == 2 * n && 1 <= k < n
    requires zk == AddI(EvenBin(x, n, root, k), OddBin(x, n, root, k))
    requires znk == AddI(EvenBin(x, n, root, n - k), OddBin(x, n, root, n - k))
    requires twiddle == Mul(W(root, k), Cpx(0.0, -1.0))
    ensures var f1k, f2k := Add(zk, Conj(znk)), Sub(zk, Conj(znk));
            var tw := Mul(f2k, twiddle);
            && Cpx((f1k.r + tw.r) * 0.5, (f1k.i + tw.i) * 0.5) == Bin(x, 0, 1, 2 * n, root, 1, k)
            && Cpx((f1k.r - tw.r) * 0.5, (tw.i - f1k.i) * 0.5) == Bin(x, 0, 1, 2 * n, root, 1, n - k)
  {
    hide ValidTwiddles, Bin, RealValued, W, Mul, Add, Sub, Conj, AddI;
    MirrorBin(x, 0, n, root, k, n - k, 1);
    MirrorBin(x, 1, n, root, k, n - k, 1);
    FullBins(x, n, root, k);
    FullBins(x, n, root, n - k);
    MirrorRoot(root, n, k);
    Unpack(zk, znk, EvenBin(x, n, root, k), OddBin(x, n, root, k), EvenBin(x, n, root, n - k),
           OddBin(x, n, root, n - k), W(root, k), W(root, n - k), twiddle);
  }

  /** kiss_fftr: the first n + 1 bins of the 2n-point DFT of a real signal; refuses an inverse plan. */
  method KissFftr(sub: Cfg, superTwiddles: seq<Cpx>, ghost root: seq<Cpx>, timedata: seq<real>, freqdata: array<Cpx>)
    returns (ok: bool)
    requires ValidRealPlan(sub, superTwiddles, root)
    requires |timedata| == 2 * sub.nfft && freqdata.Length == sub.nfft + 1
    modifies freqdata
    ensures ok == !sub.inverse
    ensures !ok ==> freqdata[..] == old(freqdata[..])
    ensures ok ==> forall k | 0 <= k <= sub.nfft ::
                     freqdata[k] == Bin(Lift(timedata), 0, 1, 2 * sub.nfft, root, 1, k)
  {
    hide Bin, W, Mul, Add, Sub, Conj, AddI, Chain, ValidTwiddles;
    if sub.inverse {
      return false;
    }
    ghost var x := Lift(timedata);
    var n := sub.nfft;
    NonEmptyPlan(sub);
    var packed := seq(n, j requires 0 <= j < n => Cpx(timedata[2 * j], timedata[2 * j + 1]));
    assert Packs(packed, x);
    var tmpbuf := new Cpx[n];
    KissFftStride(sub, packed, tmpbuf, 1);
    forall k | 0 <= k < n ensures tmpbuf[k] == AddI(EvenBin(x, n, root, k), OddBin(x, n, root, k)) {
      PackedBin(packed, x, n, sub.twiddles, root, k);
    }
    EdgeBins(x, n, root, tmpbuf[0]);
    freqdata[0] := Cpx(tmpbuf[0].r + tmpbuf[0].i, 0.0);
    freqdata[n] := Cpx(tmpbuf[0].r - tmpbuf[0].i, 0.0);
    ghost var z := tmpbuf[..];
    for k := 1 to n / 2 + 1
      invariant tmpbuf[..] == z
      invariant forall j | 0 <= j < k :: freqdata[j] == Bin(x, 0, 1, 2 * n, root, 1, j)
      invariant forall j | n - k < j <= n :: freqdata[j] == Bin(x, 0, 1, 2 * n, root, 1, j)
    {
      RootEntry(sub, superTwiddles, root, k);
      MiddleBins(x, n, root, k, tmpbuf[k], tmpbuf[n - k], superTwiddles[k - 1]);
      var fpk := tmpbuf[k];
      var fpnk := Conj(tmpbuf[n - k]);
      var f1k := Add(fpk, fpnk);
      var f2k := Sub(fpk, fpnk);
      var tw := Mul(f2k, superTwiddles[k - 1]);
      freqdata[k] := Cpx((f1k.r + tw.r) * 0.5, (f1k.i + tw.i) * 0.5);
      freqdata[n - k] := Cpx((f1k.r - tw.r) * 0.5, (tw.i - f1k.i) * 0.5);
    }
    return true;
  }

  lemma NonEmptyPlan(sub: Cfg)
    requires ValidPlan(sub)
    ensures sub.nfft > 0
  {}

  lemma RootEntry(sub: Cfg, superTwiddles: seq<Cpx>, root: seq<Cpx>, k: nat)
    requires ValidRealPlan(sub, superTwiddles, root) && !sub.inverse && 1 <= k <= sub.nfft / 2
    ensures superTwiddles[k - 1] == Mul(W(root, k), Cpx(0.0, -1.0))
  {}
}

/**
 Values of the twiddle table at a half, a third and a fifth of a turn, and the closed forms
 of the radix-2, 3, 4 and 5 combinations that the special butterflies evaluate.
 */
module Turns {
  import opened Complex
  import opened Dft

  lemma ConjInverse(z: Cpx, y: Cpx)
    requires Mul(z, Conj(z)) == One
    requires Mul(z, y) == One
    ensures y == Conj(z)
  {
    calc {
      y;
      Mul(One, y);
      Mul(Mul(Conj(z), z), y);
      { MulAssoc(Conj(z), z, y); }
      Mul(Conj(z), One);
      Conj(z);
    }
  }

  lemma WZero(tw: seq<Cpx>, inverse: bool)
    requires ValidTwiddles(tw, inverse)
    ensures W(tw, 0) == One && W(tw, |tw|) == One
  {
    assert W(tw, |tw|) == W(tw, 0);
  }

  /** Going a back is the conjugate of going a forward. */
  lemma WBack(tw: seq<Cpx>, inverse: bool, a: nat, b: nat)
    requires ValidTwiddles(tw, inverse)
    requires a + b == |tw| && a < |tw|
    ensures W(tw, b) == Conj(W(tw, a))
  {
    hide Mul, Conj;
    assert UnitLaw(tw, a);
    WAdd(tw, inverse, a, b);
    WZero(tw, inverse);
    ConjInverse(W(tw, a), W(tw, b));
  }

  lemma SquareRootOfOne(z: Cpx)
    requires Mul(z, z) == One && z != One
    ensures z == Cpx(-1.0, 0.0)
  {
    assert z.r * z.i == 0.0;
    assert z.r * z.r == 1.0 + z.i * z.i;
    assert z.r != 0.0;
    assert z.i == 0.0;
    assert (z.r - 1.0) * (z.r + 1.0) == 0.0;
  }

  lemma HalfTurn(tw: seq<Cpx>, inverse: bool, h: nat)
    requires ValidTwiddles(tw, inverse)
    requires 2 * h == |tw|
    ensures W(tw, h) == Cpx(-1.0, 0.0)
  {
    hide Mul;
    WAdd(tw, inverse, h, h);
    WZero(tw, inverse);
    assert PrimitiveLaw(tw, h);
    SquareRootOfOne(W(tw, h));
  }

  lemma CubeRoot(z: Cpx)
    requires Mul(z, Conj(z)) == One && Mul(z, z) == Conj(z) && z != One
    ensures z.r == -0.5
  {
    assert z.r * z.r + z.i * z.i == 1.0;
    assert z.r * z.r - z.i * z.i == z.r;
    assert z.r * z.i + z.i * z.r == -z.i;
    assert z.i != 0.0 by {
      assert z.i == 0.0 ==> z.r * z.r == 1.0 && z.r * z.r == z.r;
    }
    assert z.i * (2.0 * z.r + 1.0) == 0.0;
  }

  lemma ThirdTurn(tw: seq<Cpx>, inverse: bool, h: nat)
    requires ValidTwiddles(tw, inverse)
    requires 3 * h == |tw|
    ensures W(tw, h).r == -0.5
    ensures W(tw, 2 * h) == Conj(W(tw, h))
  {
    hide Mul, Conj;
    WBack(tw, inverse, h, 2 * h);
    WAdd(tw, inverse, h, h);
    assert UnitLaw(tw, h);
    assert PrimitiveLaw(tw, h);
    CubeRoot(W(tw, h));
  }

  /** The p values a butterfly column reads: one from each sub-transform. */
  ghost function Column(s: seq<Cpx>, o: int, m: int, p: nat, u: int): (c: seq<Cpx>)
    ensures |c| == p
  {
    seq(p, (q: int) => At(s, o + u + q * m))
  }

  /** What the column must hold afterwards, in its q1-th place. */
  ghost function Done(s: seq<Cpx>, o: int, m: int, p: nat, tw: seq<Cpx>, fs: int, u: int, q1: int): Cpx {
    Combined(Column(s, o, m, p, u), tw, fs, u + q1 * m)
  }

  lemma TwistedFirst(c: seq<Cpx>, tw: seq<Cpx>, inverse: bool, fs: int, k: int)
    requires ValidTwiddles(tw, inverse) && |c| > 0
    ensures Twisted(c, tw, fs, k, 0) == c[0]
    ensures Add(Zero, Twisted(c, tw, fs, k, 0)) == c[0]
  {
    assert fs * 0 * k == 0;
    WZero(tw, inverse);
  }

  /** The combination, term by term, for the four special radices. */
  lemma Unrolled(c: seq<Cpx>, tw: seq<Cpx>, inverse: bool, fs: int, k: int)
    requires ValidTwiddles(tw, inverse)
    requires 2 <= |c| <= 5
    ensures var t := (q: int) => Twisted(c, tw, fs, k, q);
            var s2 := Add(c[0], t(1));
            && (|c| == 2 ==> Combined(c, tw, fs, k) == s2)
            && (|c| == 3 ==> Combined(c, tw, fs, k) == Add(s2, t(2)))
            && (|c| == 4 ==> Combined(c, tw, fs, k) == Add(Add(s2, t(2)), t(3)))
            && (|c| == 5 ==> Combined(c, tw, fs, k) == Add(Add(Add(s2, t(2)), t(3)), t(4)))
  {
    hide Add, Twisted;
    var t := (q: int) => Twisted(c, tw, fs, k, q);
    SumExt(|c|, (q: int) => Twisted(c, tw, fs, k, q), t);
    TwistedFirst(c, tw, inverse, fs, k);
    assert Sum(1, t) == c[0];
    assert Sum(2, t) == Add(c[0], t(1));
    assert Sum(3, t) == Add(Sum(2, t), t(2));
    assert Sum(4, t) == Add(Sum(3, t), t(3));
    assert Sum(5, t) == Add(Sum(4, t), t(4));
  }

  /** Moving a bin index by q1 sub-lengths rotates term q by the (q * q1)-th power of the p-th root. */
  lemma Rotated(c: seq<Cpx>, tw: seq<Cpx>, inverse: bool, fs: nat, m: nat, u: nat, q1: nat, q: nat)
    requires ValidTwiddles(tw, inverse)
    ensures Twisted(c, tw, fs, u + q1 * m, q)
         == Mul(Twisted(c, tw, fs, u, q), W(tw, (q * q1) * (fs * m)))
  {
    hide Mul, At, W;
    var a: nat := fs * q * u;
    var b: nat := (q * q1) * (fs * m);
    assert fs * q * (u + q1 * m) == a + b by {
      Distribute(fs * q, u, q1 * m);
      Regroup(fs, q, q1, m);
    }
    WAdd(tw, inverse, a, b);
    MulAssoc(At(c, q), W(tw, a), W(tw, b));
  }

  /** Powers of the p-th root repeat with period p. */
  lemma RootPeriod(tw: seq<Cpx>, p: nat, h: nat, e: nat)
    requires p * h == |tw| && |tw| > 0
    ensures W(tw, (e + p) * h) == W(tw, e * h)
  {
    assert (e + p) * h == e * h + 1 * |tw|;
    assert e * h >= 0;
    WTurns(tw, e * h, 1);
  }

  lemma Radix2(c: seq<Cpx>, tw: seq<Cpx>, inverse: bool, fs: nat, m: nat, u: nat)
    requires ValidTwiddles(tw, inverse) && |c| == 2
    requires 2 * (fs * m) == |tw|
    ensures var s1 := Twisted(c, tw, fs, u, 1);
            && Combined(c, tw, fs, u) == Add(c[0], s1)
            && Combined(c, tw, fs, u + m) == Sub(c[0], s1)
  {
    hide Twisted, Combined, W, Mul, Add, Sub;
    Unrolled(c, tw, inverse, fs, u);
    Unrolled(c, tw, inverse, fs, u + m);
    Rotated(c, tw, inverse, fs, m, u, 1, 1);
    assert (1 * 1) * (fs * m) == fs * m;
    HalfTurn(tw, inverse, fs * m);
    AddMinus(c[0], Twisted(c, tw, fs, u, 1));
  }

  lemma AddMinus(a: Cpx, s: Cpx)
    ensures Add(a, Mul(s, Cpx(-1.0, 0.0))) == Sub(a, s)
  {}

  lemma Radix3(c: seq<Cpx>, tw: seq<Cpx>, inverse: bool, fs: nat, m: nat, u: nat)
    requires ValidTwiddles(tw, inverse) && |c| == 3
    requires 3 * (fs * m) == |tw|
    ensures var s1, s2, z := Twisted(c, tw, fs, u, 1), Twisted(c, tw, fs, u, 2), W(tw, fs * m);
            && z.r == -0.5
            && Combined(c, tw, fs, u) == Add(Add(c[0], s1), s2)
            && Combined(c, tw, fs, u + m) == Add(Add(c[0], Mul(s1, z)), Mul(s2, Conj(z)))
            && Combined(c, tw, fs, u + 2 * m) == Add(Add(c[0], Mul(s1, Conj(z))), Mul(s2, z))
  {
    hide Twisted, Combined, W, Mul, Add, Conj;
    var h := fs * m;
    Unrolled(c, tw, inverse, fs, u);
    Unrolled(c, tw, inverse, fs, u + m);
    Unrolled(c, tw, inverse, fs, u + 2 * m);
    Rotated(c, tw, inverse, fs, m, u, 1, 1);
    Rotated(c, tw, inverse, fs, m, u, 1, 2);
    Rotated(c, tw, inverse, fs, m, u, 2, 1);
    Rotated(c, tw, inverse, fs, m, u, 2, 2);
    RootPeriod(tw, 3, h, 1);
    ThirdTurn(tw, inverse, h);
  }

  /** c0 + s1 w1 + s2 w2 + s3 w3. */
  ghost function Four(c0: Cpx, s1: Cpx, w1: Cpx, s2: Cpx, w2: Cpx, s3: Cpx, w3: Cpx): Cpx {
    Add(Add(Add(c0, Mul(s1, w1)), Mul(s2, w2)), Mul(s3, w3))
  }

  lemma Radix4(c: seq<Cpx>, tw: seq<Cpx>, inverse: bool, fs: nat, m: nat, u: nat)
    requires ValidTwiddles(tw, inverse) && |c| == 4
    requires 4 * (fs * m) == |tw|
    ensures var s1, s2, s3 := Twisted(c, tw, fs, u, 1), Twisted(c, tw, fs, u, 2), Twisted(c, tw, fs, u, 3);
            var z, minus := Cpx(0.0, if inverse then 1.0 else -1.0), Cpx(-1.0, 0.0);
            && Combined(c, tw, fs, u) == Add(Add(Add(c[0], s1), s2), s3)
            && Combined(c, tw, fs, u + m) == Four(c[0], s1, z, s2, minus, s3, Conj(z))
            && Combined(c, tw, fs, u + 2 * m) == Four(c[0], s1, minus, s2, One, s3, minus)
            && Combined(c, tw, fs, u + 3 * m) == Four(c[0], s1, Conj(z), s2, minus, s3, z)
  {
    hide Twisted, Combined, W, Mul, Add, Conj;
    Unrolled(c, tw, inverse, fs, u);
    Rotate4(c, tw, inverse, fs, m, u, 1);
    Rotate4(c, tw, inverse, fs, m, u, 2);
    Rotate4(c, tw, inverse, fs, m, u, 3);
    QuarterPowers(tw, inverse, fs * m);
  }

  lemma QuarterPowers(tw: seq<Cpx>, inverse: bool, h: nat)
    requires ValidTwiddles(tw, inverse)
    requires 4 * h == |tw|
    ensures var z := Cpx(0.0, if inverse then 1.0 else -1.0);
            && W(tw, h) == z && W(tw, 2 * h) == Cpx(-1.0, 0.0) && W(tw, 3 * h) == Conj(z)
            && W(tw, 4 * h) == One && W(tw, 6 * h) == Cpx(-1.0, 0.0) && W(tw, 9 * h) == z
  {
    assert W(tw, h) == Cpx(0.0, if inverse then 1.0 else -1.0) by {
      assert QuarterLaw(tw, inverse, h);
    }
    hide W;
    HalfTurn(tw, inverse, 2 * h);
    WBack(tw, inverse, h, 3 * h);
    WZero(tw, inverse);
    RootPeriod(tw, 4, h, 2);
    RootPeriod(tw, 4, h, 1);
    RootPeriod(tw, 4, h, 5);
  }

  lemma Rotate4(c: seq<Cpx>, tw: seq<Cpx>, inverse: bool, fs: nat, m: nat, u: nat, q1: nat)
    requires ValidTwiddles(tw, inverse) && |c| == 4
    ensures Combined(c, tw, fs, u + q1 * m)
         == Add(Add(Add(c[0], Mul(Twisted(c, tw, fs, u, 1), W(tw, q1 * (fs * m)))),
                    Mul(Twisted(c, tw, fs, u, 2), W(tw, 2 * q1 * (fs * m)))),
                Mul(Twisted(c, tw, fs, u, 3), W(tw, 3 * q1 * (fs * m))))
  {
    hide Twisted, Combined, W, Mul, Add;
    Unrolled(c, tw, inverse, fs, u + q1 * m);
    Rotated(c, tw, inverse, fs, m, u, q1, 1);
    Rotated(c, tw, inverse, fs, m, u, q1, 2);
    Rotated(c, tw, inverse, fs, m, u, q1, 3);
  }

  lemma Rotate5(c: seq<Cpx>, tw: seq<Cpx>, inverse: bool, fs: nat, m: nat, u: nat, q1: nat)
    requires ValidTwiddles(tw, inverse) && |c| == 5
    ensures Combined(c, tw, fs, u + q1 * m)
         == Add(Add(Add(Add(c[0], Mul(Twisted(c, tw, fs, u, 1), W(tw, q1 * (fs * m)))),
                        Mul(Twisted(c, tw, fs, u, 2), W(tw, 2 * q1 * (fs * m)))),
                    Mul(Twisted(c, tw, fs, u, 3), W(tw, 3 * q1 * (fs * m)))),
                Mul(Twisted(c, tw, fs, u, 4), W(tw, 4 * q1 * (fs * m))))
  {
    hide Twisted, Combined, W, Mul, Add;
    Unrolled(c, tw, inverse, fs, u + q1 * m);
    Rotated(c, tw, inverse, fs, m, u, q1, 1);
    Rotated(c, tw, inverse, fs, m, u, q1, 2);
    Rotated(c, tw, inverse, fs, m, u, q1, 3);
    Rotated(c, tw, inverse, fs, m, u, q1, 4);
  }

  /** c0 + s1 w1 + s2 w2 + s3 w3 + s4 w4. */
  ghost function Five(c0: Cpx, s1: Cpx, w1: Cpx, s2: Cpx, w2: Cpx, s3: Cpx, w3: Cpx, s4: Cpx, w4: Cpx): Cpx {
    Add(Add(Add(Add(c0, Mul(s1, w1)), Mul(s2, w2)), Mul(s3, w3)), Mul(s4, w4))
  }

  lemma FifthPowers(tw: seq<Cpx>, inverse: bool, h: nat)
    requires ValidTwiddles(tw, inverse)
    requires 5 * h == |tw|
    ensures var a, b := W(tw, h), W(tw, 2 * h);
            && W(tw, 3 * h) == Conj(b) && W(tw, 4 * h) == Conj(a)
            && W(tw, 6 * h) == a && W(tw, 8 * h) == Conj(b) && W(tw, 9 * h) == Conj(a)
            && W(tw, 12 * h) == b && W(tw, 16 * h) == a
  {
    hide W, Conj;
    WBack(tw, inverse, h, 4 * h);
    WBack(tw, inverse, 2 * h, 3 * h);
    RootPeriod(tw, 5, h, 1);
    RootPeriod(tw, 5, h, 3);
    RootPeriod(tw, 5, h, 4);
    RootPeriod(tw, 5, h, 2);
    RootPeriod(tw, 5, h, 7);
    RootPeriod(tw, 5, h, 6);
    RootPeriod(tw, 5, h, 11);
  }

  lemma Radix5(c: seq<Cpx>, tw: seq<Cpx>, inverse: bool, fs: nat, m: nat, u: nat)
    requires ValidTwiddles(tw, inverse) && |c| == 5
    requires 5 * (fs * m) == |tw|
    ensures var s1, s2, s3, s4 := Twisted(c, tw, fs, u, 1), Twisted(c, tw, fs, u, 2),
                                  Twisted(c, tw, fs, u, 3), Twisted(c, tw, fs, u, 4);
            var a, b := W(tw, fs * m), W(tw, 2 * (fs * m));
            && Combined(c, tw, fs, u) == Add(Add(Add(Add(c[0], s1), s2), s3), s4)
            && Combined(c, tw, fs, u + m) == Five(c[0], s1, a, s2, b, s3, Conj(b), s4, Conj(a))
            && Combined(c, tw, fs, u + 2 * m) == Five(c[0], s1, b, s2, Conj(a), s3, a, s4, Conj(b))
            && Combined(c, tw, fs, u + 3 * m) == Five(c[0], s1, Conj(b), s2, a, s3, Conj(a), s4, b)
            && Combined(c, tw, fs, u + 4 * m) == Five(c[0], s1, Conj(a), s2, Conj(b), s3, b, s4, a)
  {
    hide Twisted, Combined, W, Mul, Add, Conj;
    Unrolled(c, tw, inverse, fs, u);
    Rotate5(c, tw, inverse, fs, m, u, 1);
    Rotate5(c, tw, inverse, fs, m, u, 2);
    Rotate5(c, tw, inverse, fs, m, u, 3);
    Rotate5(c, tw, inverse, fs, m, u, 4);
    FifthPowers(tw, inverse, fs * m);
  }
}

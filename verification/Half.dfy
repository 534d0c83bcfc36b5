/**
 float32 to float16, on bit patterns. Magnitudes are compared exactly: a float32 magnitude in units
 of 2^-149 and a float16 magnitude in units of 2^-24, with infinity standing at 2^16, the value next
 after the largest float16, as rounding to nearest wants it.
 */
module Half {

  function Pow2(n: nat): (p: int)
    ensures p >= 1
  {
    if n == 0 then 1 else 2 * Pow2(n - 1)
  }

  lemma {:induction false} Pow2Add(a: nat, b: nat)
    ensures Pow2(a + b) == Pow2(a) * Pow2(b)
  {
    if a > 0 {
      Pow2Add(a - 1, b);
      Assoc(Pow2(a - 1), Pow2(b));
    }
  }

  lemma Assoc(x: int, y: int)
    ensures 2 * (x * y) == (2 * x) * y
  {}

  // ---- the conversion ----

  const Inf16: int := 0x7C00
  const Inf32: int := 0x7F80_0000

  /** The biased float16 exponent before any clamping. */
  function Exp(x: int): int { (x / 0x80_0000) % 0x100 - 127 + 15 }

  function Mant(x: int): int { x % 0x80_0000 }

  function IsNaN(x: int): bool { (x / 0x80_0000) % 0x100 == 0xFF && Mant(x) != 0 }

  /** The result without its sign, by the exponent and mantissa fields. */
  function Bits(exp: int, mant: int, nan: bool): int {
    if exp <= 0 then
      if exp < -10 then 0
      else
        var m := (mant + 0x80_0000) / Pow2(1 - exp);
        (m + 0x1000) / 0x2000
    else if exp >= 31 then
      if nan then 0x7E00 else 0x7C00
    else
      var m, r := mant / 0x2000, mant % 0x2000;
      var out := exp * 0x400 + m;
      if r > 0x1000 || (r == 0x1000 && m % 2 == 1) then out + 1 else out
  }

  /** f32_to_f16 on a 32-bit pattern. */
  function ToHalf(x: int): int
    requires 0 <= x < 0x1_0000_0000
  {
    var sign := if x >= 0x8000_0000 then 0x8000 else 0;
    sign + Bits(Exp(x), Mant(x), IsNaN(x))
  }

  /** The sign bit goes over unchanged and nothing else depends on it. */
  lemma SignApart(x: int)
    requires 0x8000_0000 <= x < 0x1_0000_0000
    ensures ToHalf(x) == 0x8000 + ToHalf(x - 0x8000_0000) && IsNaN(x) == IsNaN(x - 0x8000_0000)
  {
    hide Bits;
    var y := x - 0x8000_0000;
    assert x / 0x80_0000 == y / 0x80_0000 + 0x100;
  }

  // ---- exact magnitudes ----

  /** Value of a float32 magnitude pattern, in units of 2^-149. */
  function V32(x: int): int
    requires 0 <= x
  {
    var e := x / 0x80_0000;
    if e == 0 then Mant(x) else (0x80_0000 + Mant(x)) * Pow2(e - 1)
  }

  /** Value of a float16 magnitude pattern, in units of 2^-24. */
  function V16(h: int): int
    requires 0 <= h
  {
    var e := h / 0x400;
    if e == 0 then h % 0x400 else (0x400 + h % 0x400) * Pow2(e - 1)
  }

  /** The same, in units of 2^-149. */
  function V16At149(h: int): int
    requires 0 <= h
  {
    V16(h) * Pow2(125)
  }

  function Step16(h: int): int
    requires 0 <= h
  {
    if h / 0x400 == 0 then 1 else Pow2(h / 0x400 - 1)
  }

  lemma V16Next(h: int)
    requires 0 <= h
    ensures V16(h + 1) == V16(h) + Step16(h)
  {
    var e, m := h / 0x400, h % 0x400;
    if m < 0x3FF {
      assert (h + 1) / 0x400 == e && (h + 1) % 0x400 == m + 1;
    } else {
      assert (h + 1) / 0x400 == e + 1 && (h + 1) % 0x400 == 0;
    }
  }

  lemma {:induction false} V16Rises(g: int, h: int)
    requires 0 <= g <= h
    ensures V16(g) <= V16(h) && (g < h ==> V16(g) < V16(h))
    decreases h - g
  {
    hide V16;
    if g < h {
      V16Rises(g, h - 1);
      V16Next(h - 1);
    }
  }

  lemma V32Next(x: int)
    requires 0 <= x
    ensures V32(x + 1) > V32(x)
  {
    var e, m := x / 0x80_0000, Mant(x);
    if m < 0x7F_FFFF {
      assert (x + 1) / 0x80_0000 == e && Mant(x + 1) == m + 1;
    } else {
      assert (x + 1) / 0x80_0000 == e + 1 && Mant(x + 1) == 0;
    }
  }

  lemma {:induction false} V32Rises(x: int, y: int)
    requires 0 <= x <= y
    ensures V32(x) <= V32(y) && (x < y ==> V32(x) < V32(y))
    decreases y - x
  {
    hide V32;
    if x < y {
      V32Rises(x, y - 1);
      V32Next(y - 1);
    }
  }

  function Dist(a: int, b: int): int { if a < b then b - a else a - b }

  /** No float16 magnitude, infinity included, is closer to v. */
  ghost predicate Nearest(v: int, h: int) {
    0 <= h <= Inf16 && forall g | 0 <= g <= Inf16 :: Dist(v, V16At149(h)) <= Dist(v, V16At149(g))
  }

  lemma V16At149Rises(g: int, h: int)
    requires 0 <= g <= h
    ensures V16At149(g) <= V16At149(h) && (g < h ==> V16At149(g) < V16At149(h))
  {
    hide V16, Pow2;
    V16Rises(g, h);
    Scale(V16(g), V16(h), Pow2(125));
  }

  lemma Scale(a: int, b: int, c: int)
    requires a <= b && c >= 1
    ensures a * c <= b * c && (a < b ==> a * c < b * c)
  {}

  /** Between two neighbours, the closer one is nearest of all. */
  lemma CloserIsNearest(v: int, lo: int, h: int)
    requires 0 <= lo < Inf16 && V16At149(lo) <= v <= V16At149(lo + 1) && (h == lo || h == lo + 1)
    requires Dist(v, V16At149(h)) <= Dist(v, V16At149(lo)) && Dist(v, V16At149(h)) <= Dist(v, V16At149(lo + 1))
    ensures Nearest(v, h)
  {
    hide V16At149;
    forall g | 0 <= g <= Inf16 ensures Dist(v, V16At149(h)) <= Dist(v, V16At149(g)) {
      if g <= lo { V16At149Rises(g, lo); } else { V16At149Rises(lo + 1, g); }
    }
  }

  lemma LargestIsNearest(v: int)
    requires v >= V16At149(Inf16)
    ensures Nearest(v, Inf16)
  {
    hide V16At149;
    forall g | 0 <= g <= Inf16 ensures Dist(v, V16At149(Inf16)) <= Dist(v, V16At149(g)) {
      V16At149Rises(g, Inf16);
    }
  }

  // ---- rounding ----

  /** The largest float16 magnitude not above a finite, not too large float32 magnitude. */
  function FloorHalf(x: int): int {
    var exp, mant := Exp(x), Mant(x);
    if exp < -10 then 0
    else if exp <= 0 then (mant + 0x80_0000) / Pow2(14 - exp)
    else exp * 0x400 + mant / 0x2000
  }

  /** v lies between lo and the next float16, w parts of d above lo, each part worth u. */
  ghost predicate Between(v: int, lo: int, base: int, w: int, d: int, u: int) {
    && 0 <= lo < Inf16 && 0 <= w < d && u >= 1
    && v == (base + w) * u && V16At149(lo) == base * u && V16At149(lo + 1) == (base + d) * u
  }

  lemma BetweenRounds(v: int, lo: int, base: int, w: int, d: int, u: int)
    requires Between(v, lo, base, w, d, u)
    ensures V16At149(lo) <= v < V16At149(lo + 1)
    ensures 2 * w < d <==> Dist(v, V16At149(lo)) < Dist(v, V16At149(lo + 1))
    ensures 2 * w > d <==> Dist(v, V16At149(lo)) > Dist(v, V16At149(lo + 1))
    ensures 2 * w <= d ==> Nearest(v, lo)
    ensures 2 * w >= d ==> Nearest(v, lo + 1)
  {
    hide V16At149, Nearest;
    Distribute(base, w, u);
    Distribute(base, d, u);
    Distribute(w, d - w, u);
    Scale(0, w, u);
    Scale(w, d, u);
    if 2 * w <= d { Scale(w, d - w, u); CloserIsNearest(v, lo, lo); }
    if 2 * w >= d { Scale(d - w, w, u); CloserIsNearest(v, lo, lo + 1); }
  }

  lemma Distribute(a: int, b: int, c: int)
    ensures (a + b) * c == a * c + b * c
  {}

  /** Normal results: the low 13 mantissa bits decide. */
  lemma NormalBetween(x: int)
    requires 0 <= x < Inf32 && 1 <= Exp(x) <= 30
    ensures var exp, mant := Exp(x), Mant(x);
            Between(V32(x), FloorHalf(x), 0x80_0000 + mant / 0x2000 * 0x2000, mant % 0x2000, 0x2000, Pow2(exp + 111))
  {
    hide Pow2;
    var exp, mant := Exp(x), Mant(x);
    var m, lo := mant / 0x2000, FloorHalf(x);
    assert x / 0x80_0000 == exp + 112;
    assert m < 0x400 && lo / 0x400 == exp && lo % 0x400 == m;
    Normal16(exp, m);
    V16Next(lo);
    StepAt149(exp);
    Distribute(V16(lo), Step16(lo), Pow2(125));
    Distribute(0x80_0000 + m * 0x2000, 0x2000, Pow2(exp + 111));
  }

  /** A unit in the last place of exponent exp, in units of 2^-149. */
  lemma StepAt149(exp: int)
    requires 1 <= exp <= 31
    ensures Pow2(exp - 1) * Pow2(125) == 0x2000 * Pow2(exp + 111)
  {
    hide Pow2;
    Pow2Add(exp - 1, 125);
    Pow2Add(13, exp + 111);
    SmallPowers();
  }

  lemma SmallPowers()
    ensures Pow2(0) == 1 && Pow2(1) == 2 && Pow2(10) == 0x400 && Pow2(13) == 0x2000 && Pow2(14) == 0x4000
            && Pow2(23) == 0x80_0000 && Pow2(24) == 0x100_0000
  {
    Pow2Add(10, 13);
    Pow2Add(10, 3);
    Pow2Add(12, 12);
    Pow2Add(10, 2);
  }

  lemma Normal16(exp: int, m: int)
    requires 1 <= exp <= 31 && 0 <= m < 0x400
    ensures V16At149(exp * 0x400 + m) == (0x80_0000 + m * 0x2000) * Pow2(exp + 111)
  {
    hide Pow2;
    var h := exp * 0x400 + m;
    assert h / 0x400 == exp && h % 0x400 == m;
    StepAt149(exp);
    Product(0x400 + m, Pow2(exp - 1), Pow2(125));
    Product(0x400 + m, 0x2000, Pow2(exp + 111));
  }

  lemma Product(a: int, b: int, c: int)
    ensures (a * b) * c == a * (b * c)
  {}

  lemma {:induction false} Pow2Rises(a: nat, b: nat)
    requires a <= b
    ensures Pow2(a) <= Pow2(b)
  {
    if a < b { Pow2Rises(a, b - 1); }
  }

  /** Up to 2^-13 the float16 pattern is the value itself. */
  lemma Small16(h: int)
    requires 0 <= h < 0x800
    ensures V16(h) == h
  {
    SmallPowers();
  }

  /** Subnormal results: the bits shifted out of the significand decide. */
  lemma SubnormalBetween(x: int)
    requires 0 <= x < Inf32 && -10 <= Exp(x) <= 0
    ensures var exp := Exp(x); var sig, d := Mant(x) + 0x80_0000, Pow2(14 - exp);
            Between(V32(x), FloorHalf(x), sig / d * d, sig % d, d, Pow2(exp + 111))
  {
    hide Pow2;
    var exp := Exp(x);
    var sig, d, u := Mant(x) + 0x80_0000, Pow2(14 - exp), Pow2(exp + 111);
    assert x / 0x80_0000 == exp + 112;
    var lo := sig / d;
    assert sig == lo * d + sig % d;
    SmallPowers();
    Pow2Rises(14, 14 - exp);
    QuotientBelow(sig, d, 0x4000, 0x400);
    Small16(lo);
    Small16(lo + 1);
    Pow2Add(14 - exp, exp + 111);
    Product(lo, d, u);
    Product(lo + 1, d, u);
    Distribute(lo, 1, d);
  }

  lemma QuotientBelow(a: int, d: int, c: int, b: int)
    requires 0 <= a < c * b && d >= c > 0 && b > 0
    ensures 0 <= a / d < b
  {
    assert a == (a / d) * d + a % d;
    if a / d >= b {
      Scale(c, d, b);
      Commute(d, b);
      Scale(b, a / d, d);
    }
  }

  lemma Commute(a: int, b: int)
    ensures a * b == b * a
  {}

  /** Shifting first and rounding after is one rounding, half upward. */
  lemma ShiftThenRound(sig: int, k: nat)
    requires sig >= 0
    ensures var d := Pow2(k + 13);
            (sig / Pow2(k) + 0x1000) / 0x2000 == sig / d + (if 2 * (sig % d) >= d then 1 else 0)
  {
    hide Pow2;
    var p, d := Pow2(k), Pow2(k + 13);
    SmallPowers();
    Pow2Add(k, 13);
    var a, lo := sig / p, sig / d;
    DivDiv(sig, p, 0x2000);
    var b := a % 0x2000;
    assert a == lo * 0x2000 + b;
    assert (a + 0x1000) / 0x2000 == lo + (if b >= 0x1000 then 1 else 0);
    RemainderHalf(sig, p, a, lo, b);
  }

  /** sig / (p * c) is (sig / p) / c. */
  lemma DivDiv(sig: int, p: int, c: int)
    requires sig >= 0 && p > 0 && c > 0
    ensures p * c > 0 && sig / (p * c) == (sig / p) / c
  {
    var a := sig / p;
    var q := a / c;
    assert sig == a * p + sig % p && a == q * c + a % c;
    Nested(q, c, a % c, p, sig % p);
    QuotientIs(sig, p * c, q);
  }

  lemma Nested(q: int, c: int, t: int, p: int, s: int)
    requires 0 <= t < c && 0 <= s < p
    ensures p * c > 0 && q * (p * c) <= (q * c + t) * p + s < q * (p * c) + p * c
  {
    Distribute(q * c, t, p);
    Product(q, c, p);
    Commute(c, p);
    Scale(0, t, p);
    Scale(t + 1, c, p);
    Distribute(t, 1, p);
    Scale(1, c, p);
  }

  lemma QuotientIs(x: int, d: int, q: int)
    requires d > 0 && q * d <= x < q * d + d
    ensures x / d == q
  {
    var r := x / d;
    assert x == r * d + x % d;
    if r < q { Scale(r + 1, q, d); Distribute(r, 1, d); }
    if r > q { Scale(q + 1, r, d); Distribute(q, 1, d); }
  }

  lemma RemainderHalf(sig: int, p: int, a: int, lo: int, b: int)
    requires sig >= 0 && p > 0 && a == sig / p && a == lo * 0x2000 + b && 0 <= b < 0x2000 && lo == sig / (p * 0x2000)
    ensures 2 * (sig % (p * 0x2000)) >= p * 0x2000 <==> b >= 0x1000
  {
    var d := p * 0x2000;
    assert sig == a * p + sig % p && sig == lo * d + sig % d;
    Distribute(lo * 0x2000, b, p);
    Product(lo, 0x2000, p);
    assert sig % d == b * p + sig % p;
    if b >= 0x1000 { Scale(0x1000, b, p); } else { Scale(b + 1, 0x1000, p); Distribute(b, 1, p); }
  }

  /** Too small for any float16: nearest is zero. */
  lemma TinyBetween(x: int)
    requires 0 <= x < Inf32 && Exp(x) < -10
    ensures 2 * V32(x) < Pow2(125) && Between(V32(x), 0, 0, V32(x), Pow2(125), 1)
  {
    hide Pow2;
    var e := x / 0x80_0000;
    Small16(0);
    Small16(1);
    SmallPowers();
    Pow2Add(24, 100);
    Pow2Add(1, 124);
    if e > 0 {
      Pow2Rises(e - 1, 100);
      Scale(Pow2(e - 1), Pow2(100), 0x100_0000);
      Scale(0x80_0000 + Mant(x), 0xFF_FFFF, Pow2(e - 1));
    } else {
      Pow2Rises(1, 100);
    }
  }

  /** At least 2^16: beyond every finite float16. */
  lemma HugeIsBeyond(x: int)
    requires 0 <= x <= Inf32 && Exp(x) >= 31
    ensures V32(x) >= V16At149(Inf16)
  {
    hide Pow2;
    var e := x / 0x80_0000;
    Normal16(31, 0);
    Pow2Rises(142, e - 1);
    Scale(Pow2(142), Pow2(e - 1), 0x80_0000);
    Scale(0x80_0000, 0x80_0000 + Mant(x), Pow2(e - 1));
  }

  /** Halfway between the float16 below it and the next. */
  ghost predicate Tie(x: int)
    requires 0 <= x
  {
    var lo := FloorHalf(x);
    lo >= 0 && Dist(V32(x), V16At149(lo)) == Dist(V32(x), V16At149(lo + 1))
  }

  /** h is the closer neighbour of x, or on a tie the one the rule names. */
  ghost predicate RoundedTo(x: int, h: int, up: bool)
    requires 0 <= x
  {
    var v, lo := V32(x), FloorHalf(x);
    && 0 <= lo < Inf16 && V16At149(lo) <= v < V16At149(lo + 1) && Nearest(v, h)
    && h == if Tie(x) then (if up then lo + 1 else lo)
            else if Dist(v, V16At149(lo)) < Dist(v, V16At149(lo + 1)) then lo else lo + 1
  }

  lemma BetweenRounded(x: int, h: int, base: int, w: int, d: int, u: int)
    requires 0 <= x && Between(V32(x), FloorHalf(x), base, w, d, u)
    requires h == if 2 * w > d then FloorHalf(x) + 1 else if 2 * w < d then FloorHalf(x) else h
    requires h == FloorHalf(x) || h == FloorHalf(x) + 1
    ensures RoundedTo(x, h, h == FloorHalf(x) + 1)
    ensures Tie(x) <==> 2 * w == d
  {
    hide V16At149, V32, Nearest, FloorHalf;
    BetweenIn(V32(x), FloorHalf(x), base, w, d, u);
    BetweenRounds(V32(x), FloorHalf(x), base, w, d, u);
  }

  lemma TinyRounds(x: int)
    requires 0 <= x < Inf32 && Exp(x) < -10
    ensures RoundedTo(x, ToHalf(x), true)
  {
    hide V16At149, V32, Between, RoundedTo, Pow2;
    TinyBetween(x);
    BetweenRounded(x, 0, 0, V32(x), Pow2(125), 1);
    EitherWay(x, 0);
  }

  lemma SubnormalRounds(x: int)
    requires 0 <= x < Inf32 && -10 <= Exp(x) <= 0
    ensures RoundedTo(x, ToHalf(x), true)
  {
    hide V16At149, V32, Between, RoundedTo, Pow2;
    var exp := Exp(x);
    var sig, d := Mant(x) + 0x80_0000, Pow2(14 - exp);
    SubnormalBetween(x);
    ShiftThenRound(sig, 1 - exp);
    BetweenRounded(x, ToHalf(x), sig / d * d, sig % d, d, Pow2(exp + 111));
    if !Tie(x) { EitherWay(x, ToHalf(x)); }
  }

  lemma NormalRounds(x: int)
    requires 0 <= x < Inf32 && 1 <= Exp(x) <= 30
    ensures RoundedTo(x, ToHalf(x), FloorHalf(x) % 2 == 1)
  {
    hide V16At149, V32, Between, RoundedTo, Pow2;
    var exp, mant := Exp(x), Mant(x);
    NormalBetween(x);
    BetweenRounded(x, ToHalf(x), 0x80_0000 + mant / 0x2000 * 0x2000, mant % 0x2000, 0x2000, Pow2(exp + 111));
    assert FloorHalf(x) % 2 == (mant / 0x2000) % 2;
    if !Tie(x) { EitherWay(x, ToHalf(x)); }
  }

  lemma EitherWay(x: int, h: int)
    requires 0 <= x && !Tie(x) && (RoundedTo(x, h, false) || RoundedTo(x, h, true))
    ensures RoundedTo(x, h, true) && RoundedTo(x, h, false)
  {
    hide V16At149, V32, Nearest, FloorHalf, Tie;
  }

  /**
   Every magnitude below 2^16 goes to the closer neighbour; a tie goes to the even one when the result
   is normal and always upward when it is subnormal.
   */
  lemma RoundsToCloser(x: int)
    requires 0 <= x < Inf32 && Exp(x) <= 30
    ensures RoundedTo(x, ToHalf(x), Exp(x) <= 0 || FloorHalf(x) % 2 == 1)
  {
    hide RoundedTo, ToHalf, FloorHalf;
    if Exp(x) < -10 {
      TinyRounds(x);
    } else if Exp(x) <= 0 {
      SubnormalRounds(x);
    } else {
      NormalRounds(x);
    }
  }

  lemma BetweenIn(v: int, lo: int, base: int, w: int, d: int, u: int)
    requires Between(v, lo, base, w, d, u)
    ensures 0 <= lo < Inf16
  {}

  /** Every non-NaN magnitude is converted to a nearest float16 magnitude. */
  lemma ConversionIsNearest(x: int)
    requires 0 <= x <= Inf32
    ensures Nearest(V32(x), ToHalf(x))
  {
    hide V16At149, V32, Nearest, Bits, FloorHalf;
    if x < Inf32 && Exp(x) <= 30 {
      RoundsToCloser(x);
    } else {
      HugeIsBeyond(x);
      LargestIsNearest(V32(x));
      HugeGivesInf(x);
    }
  }

  lemma HugeGivesInf(x: int)
    requires 0 <= x <= Inf32 && Exp(x) >= 31
    ensures ToHalf(x) == Inf16
  {}

  /** Larger magnitudes never convert to smaller ones. */
  lemma ConversionIsMonotone(x: int, y: int)
    requires 0 <= x <= y <= Inf32
    ensures ToHalf(x) <= ToHalf(y)
  {
    hide V16At149, V32, ToHalf;
    ConversionIsNearest(x);
    ConversionIsNearest(y);
    V32Rises(x, y);
    var g, h := ToHalf(x), ToHalf(y);
    if h < g {
      V16At149Rises(h, g);
    }
  }

  /** The value of a whole pattern, sign included. */
  function Value32(x: int): int
    requires 0 <= x
  {
    if x >= 0x8000_0000 then -V32(x - 0x8000_0000) else V32(x)
  }

  function Value16(h: int): int
    requires 0 <= h
  {
    if h >= 0x8000 then -V16(h - 0x8000) else V16(h)
  }

  /** A 32-bit pattern that is not a NaN. */
  predicate Number(x: int) {
    0 <= x <= Inf32 || 0x8000_0000 <= x <= 0x8000_0000 + Inf32
  }

  /** Numbers are the patterns whose exponent is not all ones, and the infinities. */
  lemma NumberIffNotNan(x: int)
    requires 0 <= x < 0x1_0000_0000
    ensures Number(x) <==> (x / 0x80_0000) % 0x100 != 0xFF || x % 0x80_0000 == 0
  {}

  /** A NaN becomes a NaN: exponent all ones, mantissa not zero. */
  lemma NanStaysNan(x: int)
    requires 0 <= x < 0x1_0000_0000 && !Number(x)
    ensures (ToHalf(x) / 0x400) % 0x20 == 0x1F && ToHalf(x) % 0x400 != 0
  {
    NumberIffNotNan(x);
  }

  lemma SignedValue(x: int)
    requires Number(x)
    ensures var m := if x >= 0x8000_0000 then x - 0x8000_0000 else x;
            0 <= m <= Inf32 && 0 <= ToHalf(m) <= Inf16 && ToHalf(x) >= 0 &&
            Value16(ToHalf(x)) == if x >= 0x8000_0000 then -V16(ToHalf(m)) else V16(ToHalf(m))
  {
    hide V16, ToHalf, V16At149, V32;
    if x >= 0x8000_0000 { SignApart(x); }
    ConversionIsNearest(if x >= 0x8000_0000 then x - 0x8000_0000 else x);
  }

  /** The whole conversion respects the order of values, negative ones included. */
  lemma ValuesKeepOrder(x: int, y: int)
    requires Number(x) && Number(y) && Value32(x) <= Value32(y)
    ensures ToHalf(x) >= 0 && ToHalf(y) >= 0 && Value16(ToHalf(x)) <= Value16(ToHalf(y))
  {
    hide V16, V32, ToHalf, Value16;
    SignedValue(x);
    SignedValue(y);
    var a := if x >= 0x8000_0000 then x - 0x8000_0000 else x;
    var b := if y >= 0x8000_0000 then y - 0x8000_0000 else y;
    V32Rises(0, a);
    V32Rises(0, b);
    ZeroIsZero();
    NonNegative16(ToHalf(a));
    NonNegative16(ToHalf(b));
    if a <= b {
      ConversionIsMonotone(a, b);
      V16Rises(ToHalf(a), ToHalf(b));
      V32Rises(a, b);
    } else {
      ConversionIsMonotone(b, a);
      V16Rises(ToHalf(b), ToHalf(a));
      V32Rises(b, a);
    }
  }

  lemma NonNegative16(h: int)
    requires 0 <= h
    ensures V16(h) >= 0
  {
    V16Rises(0, h);
  }

  lemma ZeroIsZero()
    ensures V32(0) == 0 && V16(0) == 0 && ToHalf(0) == 0
  {
    hide Pow2;
  }

  /** Round to nearest, ties to even (section 4.3.1 of IEEE 754-2008), by value. */
  ghost function TiesToEven(x: int): int
    requires 0 <= x
  {
    var v, lo := V32(x), FloorHalf(x);
    if lo < 0 then 0
    else if Dist(v, V16At149(lo)) < Dist(v, V16At149(lo + 1)) then lo
    else if Dist(v, V16At149(lo)) > Dist(v, V16At149(lo + 1)) then lo + 1
    else if lo % 2 == 0 then lo else lo + 1
  }

  /** The conversion is the standard's rounding except for subnormal ties above an even neighbour. */
  lemma TiesToEvenIff(x: int)
    requires 0 <= x < Inf32 && Exp(x) <= 30
    ensures ToHalf(x) == TiesToEven(x) <==> !(Exp(x) <= 0 && Tie(x) && FloorHalf(x) % 2 == 0)
  {
    hide V16At149, V32, ToHalf, Nearest, Dist, FloorHalf;
    RoundsToCloser(x);
  }

  /** Such ties exist: 2^-25, pattern 0x33000000, becomes 2^-24 where the standard rounds it to 0. */
  lemma SmallestTieGoesUp()
    ensures Tie(0x3300_0000) && ToHalf(0x3300_0000) == 1 && TiesToEven(0x3300_0000) == 0
  {
    var x := 0x3300_0000;
    assert Exp(x) == -10 && Mant(x) == 0;
    SmallPowers();
    Pow2Add(10, 1);
    hide Pow2, V16At149, V32, Dist;
    assert FloorHalf(x) == 0;
    SubnormalTieBits(x);
    TiesToEvenIff(x);
  }

  /** A subnormal tie is visible in the bits: exactly the shifted-out half is set. */
  lemma SubnormalTieBits(x: int)
    requires 0 <= x < Inf32 && -10 <= Exp(x) <= 0
    ensures Tie(x) <==> 2 * ((Mant(x) + 0x80_0000) % Pow2(14 - Exp(x))) == Pow2(14 - Exp(x))
  {
    hide V16At149, V32, Nearest, Dist, Between, Pow2;
    var exp := Exp(x);
    var sig, d := Mant(x) + 0x80_0000, Pow2(14 - exp);
    SubnormalBetween(x);
    BetweenIn(V32(x), FloorHalf(x), sig / d * d, sig % d, d, Pow2(exp + 111));
    BetweenRounds(V32(x), FloorHalf(x), sig / d * d, sig % d, d, Pow2(exp + 111));
  }
}

/**
 Complex numbers over exact reals, and finite sums of them.

 The C macros C_MUL, C_ADD and C_SUB become functions on pairs of reals; float
 rounding is not modelled. `Sum` is the vocabulary in which the transforms are
 specified.
 */
module Complex {

  datatype Cpx = Cpx(r: real, i: real)

  const Zero: Cpx := Cpx(0.0, 0.0)
  const One: Cpx := Cpx(1.0, 0.0)

  function Add(a: Cpx, b: Cpx): Cpx { Cpx(a.r + b.r, a.i + b.i) }
  function Sub(a: Cpx, b: Cpx): Cpx { Cpx(a.r - b.r, a.i - b.i) }
  function Mul(a: Cpx, b: Cpx): Cpx { Cpx(a.r * b.r - a.i * b.i, a.r * b.i + a.i * b.r) }
  function Conj(a: Cpx): Cpx { Cpx(a.r, -a.i) }

  lemma MulAssoc(a: Cpx, b: Cpx, c: Cpx)
    ensures Mul(Mul(a, b), c) == Mul(a, Mul(b, c))
  {
    assert (a.r * b.r - a.i * b.i) * c.r - (a.r * b.i + a.i * b.r) * c.i
        == a.r * (b.r * c.r - b.i * c.i) - a.i * (b.r * c.i + b.i * c.r);
    assert (a.r * b.r - a.i * b.i) * c.i + (a.r * b.i + a.i * b.r) * c.r
        == a.r * (b.r * c.i + b.i * c.r) + a.i * (b.r * c.r - b.i * c.i);
  }

  lemma MulComm(a: Cpx, b: Cpx)
    ensures Mul(a, b) == Mul(b, a)
  {}

  lemma MulAddLeft(a: Cpx, b: Cpx, c: Cpx)
    ensures Mul(Add(a, b), c) == Add(Mul(a, c), Mul(b, c))
  {}

  lemma ConjAdd(a: Cpx, b: Cpx)
    ensures Conj(Add(a, b)) == Add(Conj(a), Conj(b))
  {}

  /** f(0) + ... + f(n-1). */
  ghost function Sum(n: int, f: int -> Cpx): Cpx {
    if n <= 0 then Zero else Add(Sum(n - 1, f), f(n - 1))
  }

  lemma {:induction false} SumExt(n: int, f: int -> Cpx, g: int -> Cpx)
    requires forall i :: 0 <= i < n ==> f(i) == g(i)
    ensures Sum(n, f) == Sum(n, g)
  {
    if n > 0 {
      SumExt(n - 1, f, g);
      assert f(n - 1) == g(n - 1);
    }
  }

  lemma {:induction false} SumAdd(n: nat, f: int -> Cpx, g: int -> Cpx)
    ensures Sum(n, (i: int) => Add(f(i), g(i))) == Add(Sum(n, f), Sum(n, g))
  {
    if n > 0 {
      SumAdd(n - 1, f, g);
    }
  }

  lemma {:induction false} SumScale(n: nat, f: int -> Cpx, c: Cpx)
    ensures Mul(Sum(n, f), c) == Sum(n, (i: int) => Mul(f(i), c))
  {
    if n > 0 {
      SumScale(n - 1, f, c);
      MulAddLeft(Sum(n - 1, f), f(n - 1), c);
    }
  }

  lemma {:induction false} SumConj(n: nat, f: int -> Cpx)
    ensures Conj(Sum(n, f)) == Sum(n, (i: int) => Conj(f(i)))
  {
    if n > 0 {
      hide Conj, Add;
      SumConj(n - 1, f);
      ConjAdd(Sum(n - 1, f), f(n - 1));
    }
  }

  /** A sum of n + m terms splits after the first n. */
  lemma {:induction false} SumSplit(n: nat, m: nat, f: int -> Cpx)
    ensures Sum(n + m, f) == Add(Sum(n, f), Sum(m, (i: int) => f(n + i)))
  {
    if m > 0 {
      SumSplit(n, m - 1, f);
    }
  }

  /** The terms of g whose index is congruent to q modulo p, the first m of them. */
  ghost function ClassSum(p: int, m: int, g: int -> Cpx, q: int): Cpx {
    Sum(m, (j: int) => g(q + j * p))
  }

  lemma ClassSumStep(p: nat, m: nat, g: int -> Cpx, q: int)
    ensures ClassSum(p, m + 1, g, q) == Add(ClassSum(p, m, g, q), g(p * m + q))
  {
    hide Add;
    assert q + m * p == p * m + q;
    SumExt(m, (j: int) => g(q + j * p), (j: int) => g(q + j * p));
  }

  /** The p residue classes added up. */
  ghost function Decimated(p: int, m: int, g: int -> Cpx): Cpx {
    Sum(p, (q: int) => ClassSum(p, m, g, q))
  }

  lemma DecimateStep(p: nat, m: nat, pm: nat, g: int -> Cpx)
    requires pm == p * m
    requires Sum(pm, g) == Decimated(p, m, g)
    ensures Sum(pm + p, g) == Decimated(p, m + 1, g)
  {
    hide Add, ClassSum;
    var head := (q: int) => ClassSum(p, m, g, q);
    var last := (q: int) => g(pm + q);
    var both := (q: int) => Add(head(q), last(q));
    var next := (q: int) => ClassSum(p, m + 1, g, q);
    assert Sum(pm + p, g) == Add(Sum(p, head), Sum(p, last)) by {
      SumSplit(pm, p, g);
      SumExt(p, (i: int) => g(pm + i), last);
      SumExt(p, (q: int) => ClassSum(p, m, g, q), head);
    }
    assert Sum(p, both) == Add(Sum(p, head), Sum(p, last)) by {
      SumAdd(p, head, last);
      SumExt(p, (i: int) => Add(head(i), last(i)), both);
    }
    assert Sum(p, both) == Sum(p, next) by {
      forall q | 0 <= q < p ensures both(q) == next(q) {
        ClassSumStep(p, m, g, q);
      }
      SumExt(p, both, next);
    }
    SumExt(p, next, (q: int) => ClassSum(p, m + 1, g, q));
  }

  /** Decimation: p * m terms regrouped into p residue classes modulo p. */
  lemma {:induction false} SumDecimate(p: nat, m: nat, g: int -> Cpx)
    ensures Sum(p * m, g) == Decimated(p, m, g)
  {
    if m == 0 {
      assert p * m == 0;
      SumZero(p, (q: int) => ClassSum(p, m, g, q));
    } else {
      SumDecimate(p, m - 1, g);
      var pm := p * (m - 1);
      DecimateStep(p, m - 1, pm, g);
      assert p * m == pm + p;
    }
  }

  lemma {:induction false} SumZero(n: nat, f: int -> Cpx)
    requires forall i :: 0 <= i < n ==> f(i) == Zero
    ensures Sum(n, f) == Zero
  {
    if n > 0 {
      SumZero(n - 1, f);
    }
  }
}

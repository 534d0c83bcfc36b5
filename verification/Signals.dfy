/**
 Signals are sequences of real samples (one channel). This module holds the vocabulary shared by
 the streaming layers: zero padding, concatenation of chunks, Python slices, pointwise maps.
 */
module Signals {

  type Signal = seq<real>

  /** Sample i, zero outside the signal. */
  function Get(x: Signal, i: int): real {
    if 0 <= i < |x| then x[i] else 0.0
  }

  function Zeros(n: nat): (z: Signal)
    ensures |z| == n && forall i | 0 <= i < n :: z[i] == 0.0
  {
    seq(n, i => 0.0)
  }

  /** x[-n:] for n > 0. */
  function LastOf<T>(x: seq<T>, n: nat): seq<T> {
    if n <= |x| then x[|x| - n..] else x
  }

  function Concat(chunks: seq<Signal>): Signal {
    if chunks == [] then [] else chunks[0] + Concat(chunks[1..])
  }

  lemma {:induction false} ConcatAppend(chunks: seq<Signal>, last: Signal)
    ensures Concat(chunks + [last]) == Concat(chunks) + last
  {
    if chunks == [] {
      assert [last][1..] == [];
    } else {
      ConcatAppend(chunks[1..], last);
      assert (chunks + [last])[1..] == chunks[1..] + [last];
      assert Concat(chunks) == chunks[0] + Concat(chunks[1..]);
    }
  }

  ghost predicate NonEmpty(chunks: seq<Signal>) {
    forall i | 0 <= i < |chunks| :: chunks[i] != []
  }

  function Map(f: real -> real, x: Signal): (y: Signal)
    ensures |y| == |x| && forall i | 0 <= i < |x| :: y[i] == f(x[i])
  {
    seq(|x|, i requires 0 <= i < |x| => f(x[i]))
  }

  function Map2(f: (real, real) -> real, x: Signal, y: Signal): (z: Signal)
    requires |x| == |y|
    ensures |z| == |x| && forall i | 0 <= i < |x| :: z[i] == f(x[i], y[i])
  {
    seq(|x|, i requires 0 <= i < |x| => f(x[i], y[i]))
  }

  lemma MapSplit(f: real -> real, x: Signal, y: Signal)
    ensures Map(f, x + y) == Map(f, x) + Map(f, y)
  {
    assert |Map(f, x + y)| == |Map(f, x) + Map(f, y)|;
  }

  lemma Map2Split(f: (real, real) -> real, a: Signal, b: Signal, c: Signal, d: Signal)
    requires |a| == |c| && |b| == |d|
    ensures Map2(f, a + b, c + d) == Map2(f, a, c) + Map2(f, b, d)
  {
    assert |Map2(f, a + b, c + d)| == |Map2(f, a, c) + Map2(f, b, d)|;
  }
}

/**
 Causal convolution and transposed convolution: the whole-signal forms, and what they give when a
 signal arrives in two parts. A layer is causal when the output for a prefix is a prefix of the
 output; the streaming forms rest on the explicit state each lemma names.
 */
module ConvLayers {
  import opened Signals

  /** A stride-1 causal convolution; its module pads (taps - 1) * dilation zeros on the left. */
  datatype Conv = Conv(w: seq<real>, dilation: nat, bias: real)

  ghost predicate ValidConv(c: Conv) {
    |c.w| >= 1 && c.dilation >= 1
  }

  function Padding(c: Conv): nat {
    if |c.w| == 0 then 0 else (|c.w| - 1) * c.dilation
  }

  function Dot(w: seq<real>, d: nat, x: Signal, t: int): real {
    if w == [] then 0.0 else w[0] * Get(x, t) + Dot(w[1..], d, x, t + d)
  }

  /** module.conv: the unpadded convolution. */
  function ConvOf(c: Conv, x: Signal): (y: Signal)
    ensures |y| == if |x| >= Padding(c) then |x| - Padding(c) else 0
  {
    var n: nat := if |x| >= Padding(c) then |x| - Padding(c) else 0;
    seq(n, t => c.bias + Dot(c.w, c.dilation, x, t))
  }

  /** The module run on a whole signal. */
  function FullConv(c: Conv, x: Signal): (y: Signal)
    ensures |y| == |x|
  {
    ConvOf(c, Zeros(Padding(c)) + x)
  }

  /** The streaming state after input h: the last `padding` samples of the padded input. */
  ghost function History(c: Conv, h: Signal): (s: Signal)
    ensures |s| == Padding(c)
  {
    (Zeros(Padding(c)) + h)[|h|..]
  }

  ghost predicate Agree(x: Signal, t: int, y: Signal, u: int, i: int) {
    Get(x, t + i) == Get(y, u + i)
  }

  /** An output sample depends only on the `padding + 1` samples under the kernel. */
  lemma {:induction false} DotLocal(w: seq<real>, d: nat, x: Signal, t: int, y: Signal, u: int)
    requires |w| >= 1
    requires forall i | 0 <= i <= (|w| - 1) * d :: Agree(x, t, y, u, i)
    ensures Dot(w, d, x, t) == Dot(w, d, y, u)
    decreases |w|
  {
    NonNegative(|w| - 1, d);
    assert Agree(x, t, y, u, 0);
    if |w| > 1 {
      var w', t', u' := w[1..], t + d, u + d;
      Reach(|w| - 1, d);
      forall i | 0 <= i <= (|w'| - 1) * d ensures Agree(x, t', y, u', i) {
        assert Agree(x, t, y, u, d + i);
      }
      DotLocal(w', d, x, t', y, u');
    } else {
      assert w[1..] == [];
    }
  }

  lemma Reach(n: nat, d: nat)
    requires n >= 1
    ensures n * d == (n - 1) * d + d
  {}

  lemma NonNegative(n: nat, d: nat)
    ensures n * d >= 0
  {}

  /** Output sample t reads input samples t .. t + padding. */
  lemma ConvSample(c: Conv, x: Signal, t: nat, y: Signal, u: nat)
    requires ValidConv(c)
    requires t + Padding(c) < |x| && u + Padding(c) < |y|
    requires x[t..t + Padding(c) + 1] == y[u..u + Padding(c) + 1]
    ensures ConvOf(c, x)[t] == ConvOf(c, y)[u]
  {
    var p := Padding(c);
    forall i | 0 <= i <= p ensures Agree(x, t, y, u, i) {
      assert x[t..t + p + 1][i] == y[u..u + p + 1][i];
    }
    DotLocal(c.w, c.dilation, x, t, y, u);
  }

  /** Dropping the first n inputs drops the first n outputs. */
  lemma ConvDrop(c: Conv, x: Signal, n: nat)
    requires ValidConv(c) && n + Padding(c) <= |x|
    ensures ConvOf(c, x[n..]) == ConvOf(c, x)[n..]
  {
    forall t | 0 <= t < |x| - n - Padding(c) ensures ConvOf(c, x[n..])[t] == ConvOf(c, x)[n..][t] {
      assert x[n..][t..t + Padding(c) + 1] == x[n + t..n + t + Padding(c) + 1];
      ConvSample(c, x[n..], t, x, n + t);
    }
  }

  lemma ConvTake(c: Conv, x: Signal, n: nat)
    requires ValidConv(c) && n + Padding(c) <= |x|
    ensures ConvOf(c, x[..n + Padding(c)]) == ConvOf(c, x)[..n]
  {
    var y := x[..n + Padding(c)];
    forall t | 0 <= t < n ensures ConvOf(c, y)[t] == ConvOf(c, x)[..n][t] {
      assert y[t..t + Padding(c) + 1] == x[t..t + Padding(c) + 1];
      ConvSample(c, y, t, x, t);
    }
  }

  /**
   One streaming step from the right state: the new outputs, exactly, and the next state.
   */
  lemma ConvStep(c: Conv, h: Signal, part: Signal)
    requires ValidConv(c)
    ensures FullConv(c, h + part) == FullConv(c, h) + ConvOf(c, History(c, h) + part)
    ensures History(c, h + part) == (History(c, h) + part)[|part|..]
  {
    var full := Zeros(Padding(c)) + (h + part);
    assert full[..|h| + Padding(c)] == Zeros(Padding(c)) + h;
    assert full[|h|..] == History(c, h) + part;
    ConvDrop(c, full, |h|);
    ConvTake(c, full, |h|);
    var y := ConvOf(c, full);
    assert y == y[..|h|] + y[|h|..];
    assert full[|h + part|..] == full[|h|..][|part|..];
  }

  lemma ConvStart(c: Conv)
    ensures History(c, []) == Zeros(Padding(c))
    ensures FullConv(c, []) == []
  {
    assert Zeros(Padding(c)) + [] == Zeros(Padding(c));
  }
}

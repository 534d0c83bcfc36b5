/**
 What one sample of a full pass is, as a formula over its inputs: every layer the streaming proofs
 speak of is the layer the network's definition names.
 */
module Code2WavSamples {
  import opened Signals
  import opened Sums
  import opened ConvLayers
  import opened TransposedConv
  import opened Attention
  import opened Code2WavReference

  // ---- causal convolution ----

  /** Tap k of K meets the sample (K - 1 - k) * dilation places back; before the signal there are zeros. */
  function TapOf(c: Conv, x: Signal, t: int, k: int): real {
    if 0 <= k < |c.w| then c.w[k] * Get(x, t - (|c.w| - 1 - k) * c.dilation) else 0.0
  }

  lemma {:induction false} DotSnoc(w: seq<real>, v: real, d: nat, x: Signal, t: int)
    ensures Dot(w + [v], d, x, t) == Dot(w, d, x, t) + v * Get(x, t + |w| * d)
    decreases |w|
  {
    if w == [] {
      assert (w + [v])[1..] == [];
    } else {
      DotSnoc(w[1..], v, d, x, t + d);
      assert (w + [v])[1..] == w[1..] + [v];
      assert t + d + (|w| - 1) * d == t + |w| * d;
    }
  }

  /** Behind the padding, tap m of the running sum meets the sample its formula names. */
  lemma TapShift(c: Conv, x: Signal, t: nat, m: nat)
    requires ValidConv(c) && m < |c.w|
    ensures Get(Zeros(Padding(c)) + x, t + m * c.dilation) == Get(x, t - (|c.w| - 1 - m) * c.dilation)
  {
    Shift(|c.w| - 1, m, c.dilation);
    GetPadded(Padding(c), x, t + m * c.dilation);
  }

  lemma GetPadded(n: nat, x: Signal, i: nat)
    ensures Get(Zeros(n) + x, i) == Get(x, i - n)
  {}

  lemma Shift(n: int, m: nat, d: nat)
    ensures n * d - m * d == (n - m) * d && m * d >= 0
  {}

  lemma {:induction false} DotSum(c: Conv, x: Signal, t: nat, n: nat)
    requires ValidConv(c) && n <= |c.w|
    ensures Dot(c.w[..n], c.dilation, Zeros(Padding(c)) + x, t) == Sum(n, k => TapOf(c, x, t, k))
  {
    hide Padding, Zeros, Get;
    if n == 0 {
      assert c.w[..0] == [];
    } else {
      hide Dot;
      var m := n - 1;
      DotSum(c, x, t, m);
      assert c.w[..n] == c.w[..m] + [c.w[m]];
      DotSnoc(c.w[..m], c.w[m], c.dilation, Zeros(Padding(c)) + x, t);
      TapShift(c, x, t, m);
    }
  }

  /** A sample of the causal convolution: bias and each tap times the sample it looks back on. */
  lemma ConvSampleIs(c: Conv, x: Signal, t: nat)
    requires ValidConv(c) && t < |x|
    ensures FullConv(c, x)[t] == c.bias + Sum(|c.w|, k => TapOf(c, x, t, k))
  {
    DotSum(c, x, t, |c.w|);
    assert c.w[..|c.w|] == c.w;
  }

  // ---- transposed convolution ----

  /** What input i puts at raw position p: the kernel starts at i * stride. */
  function Contribution(c: TConv, x: Signal, p: int, i: int): real {
    if 0 <= i < |x| && 0 <= p - i * c.stride < |c.w| then c.w[p - i * c.stride] * x[i] else 0.0
  }

  lemma {:induction false} RawSum(c: TConv, x: Signal, p: int)
    ensures RawAt(c, x, p) == Sum(|x|, i => Contribution(c, x, p, i))
  {
    if x != [] {
      var n := |x| - 1;
      RawSum(c, x[..n], p);
      SumSame(n, i => Contribution(c, x[..n], p, i), i => Contribution(c, x, p, i));
    }
  }

  /** A sample of the transposed convolution, and how many there are. */
  lemma TConvSampleIs(c: TConv, x: Signal, t: nat)
    requires ValidTConv(c) && x != []
    ensures var n := (|x| - 1) * c.stride + |c.w| - c.leftPad - c.rightPad;
            |FullTConv(c, x)| == if n > 0 then n else 0
    ensures t < |FullTConv(c, x)| ==>
              FullTConv(c, x)[t] == c.bias + Sum(|x|, i => Contribution(c, x, c.leftPad + t, i))
  {
    RawSum(c, x, c.leftPad + t);
  }

  // ---- residuals, layers and the output ----

  /** Position t of a transformer layer: the input joined with attention over the last normed positions. */
  lemma LayerSampleIs(l: Layer, x: Signal, t: nat)
    requires t < |x|
    ensures FullLayer(l, x)[t] ==
            l.join(x[t], l.attn.attend(l.attn.query(t, l.norm(x[t])), LastWindow(l.attn, Map(l.norm, x), t)))
  {
    FullAttnWindow(l.attn, Map(l.norm, x), t);
  }

  lemma ConvNextSampleIs(u: UpStage, x: Signal, t: nat)
    requires ValidConv(u.dwconv) && t < |x|
    ensures |FullConvNext(u, x)| == |x|
    ensures FullConvNext(u, x)[t] == x[t] + u.g(u.dwconv.bias + Sum(|u.dwconv.w|, k => TapOf(u.dwconv, x, t, k)))
  {
    ConvSampleIs(u.dwconv, x, t);
  }

  lemma UnitSampleIs(u: ResUnit, x: Signal, t: nat)
    requires ValidUnit(u) && t < |x|
    ensures |FullUnit(u, x)| == |x|
    ensures var mid := Map(u.act2, FullConv(u.conv1, Map(u.act1, x)));
            FullUnit(u, x)[t] == x[t] + (u.conv2.bias + Sum(|u.conv2.w|, k => TapOf(u.conv2, mid, t, k)))
  {
    ConvSampleIs(u.conv2, Map(u.act2, FullConv(u.conv1, Map(u.act1, x))), t);
  }

  /** The waveform is the decoder's output, limited to -1 .. 1. */
  lemma PassIsLimited(m: Reference, codes: seq<Frame>, t: nat)
    requires t < |FullPass(m, codes)|
    ensures var raw := RunDecoder(m.decoder, |m.decoder|,
                                  RunUpsample(m.upsample, |m.upsample|, PreTransformerFull(m, codes)));
            && |raw| == |FullPass(m, codes)|
            && -1.0 <= FullPass(m, codes)[t] <= 1.0
            && (-1.0 <= raw[t] <= 1.0 ==> FullPass(m, codes)[t] == raw[t])
            && (raw[t] > 1.0 ==> FullPass(m, codes)[t] == 1.0) && (raw[t] < -1.0 ==> FullPass(m, codes)[t] == -1.0)
  {}
}

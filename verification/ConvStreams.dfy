/**
 The convolution half of qwen3_code2wav_stateful_reference.py: step functions with explicit state,
 and the list-of-chunks streams built from them. Every stream is proved to concatenate to the
 whole-signal layer, for every chunking.
 */
module ConvStreams {
  import opened Signals
  import opened ConvLayers
  import opened TransposedConv

  /** causal_conv_step: history in, output and next history out. */
  function CausalConvStep(c: Conv, x: Signal, history: Signal): (Signal, Signal) {
    if Padding(c) == 0 then (ConvOf(c, x), [])
    else
      var padded := history + x;
      (ConvOf(c, padded), LastOf(padded, Padding(c)))
  }

  lemma CausalConvStepCorrect(c: Conv, h: Signal, x: Signal)
    requires ValidConv(c)
    ensures var (y, s) := CausalConvStep(c, x, History(c, h));
            FullConv(c, h + x) == FullConv(c, h) + y && s == History(c, h + x)
  {
    ConvStep(c, h, x);
    if Padding(c) == 0 {
      assert History(c, h) + x == x;
    }
  }

  /** causal_conv_stream_chunks: empty chunks are skipped. */
  method CausalConvStreamChunks(c: Conv, chunks: seq<Signal>) returns (outs: seq<Signal>)
    requires ValidConv(c)
    ensures Concat(outs) == FullConv(c, Concat(chunks))
    ensures NonEmpty(chunks) ==> |outs| == |chunks| && forall i | 0 <= i < |outs| :: |outs[i]| == |chunks[i]|
    ensures NonEmpty(outs)
  {
    var history := Zeros(Padding(c));
    ConvStart(c);
    outs := [];
    assert chunks[..0] == [];
    for i := 0 to |chunks|
      invariant history == History(c, Concat(chunks[..i]))
      invariant Concat(outs) == FullConv(c, Concat(chunks[..i]))
      invariant NonEmpty(chunks) ==> |outs| == i && forall j | 0 <= j < i :: |outs[j]| == |chunks[j]|
      invariant NonEmpty(outs)
    {
      var part := chunks[i];
      assert chunks[..i + 1] == chunks[..i] + [part];
      ConcatAppend(chunks[..i], part);
      if |part| == 0 {
        assert Concat(chunks[..i]) + part == Concat(chunks[..i]);
        continue;
      }
      CausalConvStepCorrect(c, Concat(chunks[..i]), part);
      var (y, next) := CausalConvStep(c, part, history);
      history := next;
      ConcatAppend(outs, y);
      outs := outs + [y];
    }
    assert chunks[..|chunks|] == chunks;
  }

  /** TransposeConvEmitState. */
  datatype EmitState = EmitState(raw: Signal, emitted: nat, offset: nat)

  function AddAt(base: Signal, start: nat, x: Signal): (y: Signal)
    ensures |y| == |base|
  {
    seq(|base|, i requires 0 <= i < |base| => base[i] + Get(x, i - start))
  }

  /** A Python slice: bounds past the end are clamped. */
  function PySlice(x: Signal, a: nat, b: nat): Signal {
    if a >= |x| || b <= a then [] else if b <= |x| then x[a..b] else x[a..]
  }

  function Max(a: int, b: int): int { if a >= b then a else b }

  /** transposed_conv_emit_step. */
  function EmitStep(c: TConv, x: Signal, st: EmitState, final: bool): (Signal, EmitState) {
    var raw := RawOf(c, x);
    var start := st.offset * c.stride;
    var rawLen := Max(|st.raw|, start + |raw|);
    var grown := st.raw + Zeros(rawLen - |st.raw|);
    var accum := AddAt(grown, start, raw);
    var nextOffset := st.offset + |x|;
    var stableEnd := if final then Max(0, |accum| - c.rightPad - c.leftPad)
                     else Max(0, nextOffset * c.stride - c.leftPad);
    var emitEnd := Max(st.emitted, stableEnd);
    var y := PySlice(accum, c.leftPad + st.emitted, c.leftPad + emitEnd);
    (Map(v => v + c.bias, y), EmitState(accum, emitEnd, nextOffset))
  }

  /** How many trimmed samples are settled once n inputs have arrived. */
  ghost function StableEnd(c: TConv, n: nat): nat {
    Max(0, n * c.stride - c.leftPad)
  }

  /** The state after input h, no final step taken. */
  ghost function EmitStateAt(c: TConv, h: Signal): EmitState {
    EmitState(RawOf(c, h), StableEnd(c, |h|), |h|)
  }

  lemma Accumulated(c: TConv, h: Signal, x: Signal)
    requires 1 <= c.stride <= |c.w| && x != []
    ensures var start := |h| * c.stride;
            var rawLen := Max(RawLen(c, |h|), start + RawLen(c, |x|));
            && rawLen == RawLen(c, |h + x|)
            && AddAt(RawOf(c, h) + Zeros(rawLen - RawLen(c, |h|)), start, RawOf(c, x)) == RawOf(c, h + x)
  {
    RawLenGrows(c, |h|, |x|);
    RawLenGrows(c, |h|, |h| + |x|);
    hide RawAt, RawLen, RawOf, AddAt, Zeros, Get;
    var start := |h| * c.stride;
    var rawLen := RawLen(c, |h + x|);
    var accum := AddAt(RawOf(c, h) + Zeros(rawLen - RawLen(c, |h|)), start, RawOf(c, x));
    assert |accum| == rawLen;
    forall i | 0 <= i < rawLen ensures accum[i] == RawOf(c, h + x)[i] {
      AccumulatedAt(c, h, x, rawLen, i);
    }
  }

  lemma AccumulatedAt(c: TConv, h: Signal, x: Signal, rawLen: nat, i: nat)
    requires c.stride >= 1 && i < rawLen == RawLen(c, |h + x|) && rawLen >= RawLen(c, |h|)
    ensures AddAt(RawOf(c, h) + Zeros(rawLen - RawLen(c, |h|)), |h| * c.stride, RawOf(c, x))[i] == RawOf(c, h + x)[i]
  {
    hide RawAt;
    var start := |h| * c.stride;
    RawSplit(c, h, x, i);
    RawGet(c, h, i);
    RawGet(c, x, i - start);
    RawGet(c, h + x, i);
    var grown := RawOf(c, h) + Zeros(rawLen - RawLen(c, |h|));
    assert grown[i] == Get(RawOf(c, h), i);
  }

  lemma RawGet(c: TConv, x: Signal, i: int)
    requires c.stride >= 1
    ensures Get(RawOf(c, x), i) == RawAt(c, x, i)
  {
    if i < 0 || i >= RawLen(c, |x|) { RawOutside(c, x, i); }
  }

  /** A slice of the accumulator continues what was emitted. */
  lemma SliceEmits(c: TConv, x: Signal, a: nat, b: nat)
    requires a <= b && (a == b || c.leftPad + b <= RawLen(c, |x|))
    ensures Emitted(c, x, a) + Map(v => v + c.bias, PySlice(RawOf(c, x), c.leftPad + a, c.leftPad + b)) ==
            Emitted(c, x, b)
  {
    var y := Map(v => v + c.bias, PySlice(RawOf(c, x), c.leftPad + a, c.leftPad + b));
    if a == b {
      assert y == [];
    } else {
      assert |y| == b - a;
      forall i | 0 <= i < b - a ensures y[i] == Emitted(c, x, b)[a + i] {
        assert PySlice(RawOf(c, x), c.leftPad + a, c.leftPad + b)[i] == RawOf(c, x)[c.leftPad + a + i];
      }
    }
  }

  /** The trimmed length once h + x has arrived: settled samples, or everything on the final step. */
  ghost function EmitEnd(c: TConv, n: nat, final: bool): nat {
    if final then Max(0, RawLen(c, n) - c.rightPad - c.leftPad) else StableEnd(c, n)
  }

  lemma EmitBounds(c: TConv, n: nat, m: nat, final: bool)
    requires ValidTConv(c) && m >= 1
    ensures StableEnd(c, n) <= EmitEnd(c, n + m, final)
    ensures EmitEnd(c, n + m, final) == 0 || c.leftPad + EmitEnd(c, n + m, final) <= RawLen(c, n + m)
  {
    var s := c.stride;
    RawLenGrows(c, n, m);
    RawLenGrows(c, n + m, n + m);
    assert (n + m) * s == n * s + m * s;
    assert m * s >= s by { assert m * s >= 1 * s; }
    assert (m - 1) * s >= 0;
  }

  lemma EmitStepCorrect(c: TConv, h: Signal, x: Signal, final: bool)
    requires ValidTConv(c) && x != []
    ensures var (y, s) := EmitStep(c, x, EmitStateAt(c, h), final);
            && Emitted(c, h, StableEnd(c, |h|)) + y == Emitted(c, h + x, EmitEnd(c, |h + x|, final))
            && (!final ==> s == EmitStateAt(c, h + x))
  {
    hide Emitted, RawAt, RawOf, PySlice, AddAt, Map;
    var n := StableEnd(c, |h|);
    var b := EmitEnd(c, |h + x|, final);
    Accumulated(c, h, x);
    EmitBounds(c, |h|, |x|, final);
    EmittedStable(c, h, x, n);
    SliceEmits(c, h + x, n, b);
  }

  /**
   transposed_conv_stream_emit_chunks. If the last chunk is not empty the outputs are exactly the
   trimmed one-shot layer; otherwise the final step never runs and only settled samples come out.
   */
  method TransposedConvStreamEmitChunks(c: TConv, chunks: seq<Signal>) returns (outs: seq<Signal>)
    requires ValidTConv(c)
    ensures NonEmpty(outs)
    ensures chunks != [] && chunks[|chunks| - 1] != [] ==> Concat(outs) == FullTConv(c, Concat(chunks))
    ensures chunks == [] || chunks[|chunks| - 1] == [] ==>
              Concat(outs) == Emitted(c, Concat(chunks), StableEnd(c, |Concat(chunks)|))
  {
    var st := EmitState([], 0, 0);
    outs := [];
    assert chunks[..0] == [];
    assert EmitStateAt(c, []) == st;
    for i := 0 to |chunks|
      invariant NonEmpty(outs)
      invariant i < |chunks| || |chunks| == 0 || chunks[|chunks| - 1] == [] ==>
                  st == EmitStateAt(c, Concat(chunks[..i]))
      invariant i < |chunks| || |chunks| == 0 || chunks[|chunks| - 1] == [] ==>
                  Concat(outs) == Emitted(c, Concat(chunks[..i]), StableEnd(c, |Concat(chunks[..i])|))
      invariant i == |chunks| > 0 && chunks[|chunks| - 1] != [] ==>
                  Concat(outs) == FullTConv(c, Concat(chunks[..i]))
    {
      var part := chunks[i];
      ghost var h := Concat(chunks[..i]);
      assert chunks[..i + 1] == chunks[..i] + [part];
      ConcatAppend(chunks[..i], part);
      if |part| == 0 {
        assert h + part == h;
        continue;
      }
      var final := i == |chunks| - 1;
      EmitStepCorrect(c, h, part, final);
      assert Emitted(c, h + part, EmitEnd(c, |h + part|, true)) == FullTConv(c, h + part);
      var (y, next) := EmitStep(c, part, st, final);
      st := next;
      if |y| > 0 {
        ConcatAppend(outs, y);
        outs := outs + [y];
      } else {
        assert Concat(outs) + y == Concat(outs);
      }
    }
    assert chunks[..|chunks|] == chunks;
  }

  /** The final flag changes the output exactly when the right trim is not the kernel overhang. */
  lemma FinalFlagMatters(c: TConv, x: Signal)
    requires ValidTConv(c) && x != []
    ensures FullTConv(c, x) == Emitted(c, x, StableEnd(c, |x|))
       <==> (c.rightPad == |c.w| - c.stride
             || (|x| * c.stride <= c.leftPad && RawLen(c, |x|) <= c.leftPad + c.rightPad))
  {
    RawLenGrows(c, |x|, |x|);
  }

  /** Kernel 2, stride 1 and nothing trimmed: without the final step the last sample never comes out. */
  lemma FinalFlagNeeded()
    ensures var c := TConv([1.0, 1.0], 1, 0.0, 0, 0);
            && ValidTConv(c) && |FullTConv(c, [1.0])| == 2
            && Emitted(c, [1.0], StableEnd(c, 1)) == FullTConv(c, [1.0])[..1]
  {
    var c := TConv([1.0, 1.0], 1, 0.0, 0, 0);
    assert RawLen(c, 1) == 2 && StableEnd(c, 1) == 1;
  }
}

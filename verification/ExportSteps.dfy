/**
 The fixed-size-state steps of qwen3_tts_code2wav_stateful_export.py. Each is proved against the
 whole-signal layer and an explicit state function of the input history, so it refines the
 growing-state reference step of the same layer.
 */
module ExportSteps {
  import opened Signals
  import opened ConvLayers
  import opened TransposedConv
  import opened ConvStreams
  import opened Attention

  /** _causal_conv_step. */
  function ExportConvStep(c: Conv, x: Signal, state: Signal): (Signal, Signal) {
    if Padding(c) == 0 then (ConvOf(c, x), state)
    else
      var padded := state + x;
      (ConvOf(c, padded), LastOf(padded, Padding(c)))
  }

  lemma ExportConvStepCorrect(c: Conv, h: Signal, x: Signal)
    requires ValidConv(c)
    ensures var (y, s) := ExportConvStep(c, x, History(c, h));
            FullConv(c, h + x) == FullConv(c, h) + y && s == History(c, h + x)
  {
    ConvStep(c, h, x);
    if Padding(c) == 0 {
      assert History(c, h) + x == x;
    }
  }

  /** The shape the export relies on: nothing trimmed on the left, the kernel overhang on the right. */
  ghost predicate ExportTConv(t: TConv) {
    1 <= t.stride <= |t.w| && t.leftPad == 0 && t.rightPad == |t.w| - t.stride
  }

  /** Raw samples past the emitted end: what the pending buffer must hold after input h. */
  ghost function Pending(t: TConv, h: Signal): (p: Signal)
    requires ExportTConv(t)
    ensures |p| == t.rightPad
  {
    seq(t.rightPad, j => RawAt(t, h, |h| * t.stride + j))
  }

  /** _transposed_conv_step (and _transposed_conv_no_state, for which the state is empty). */
  function ExportTConvStep(t: TConv, x: Signal, pending: Signal): (Signal, Signal) {
    var raw := RawOf(t, x);
    var sum := AddAt(raw, 0, pending);
    var emit := |x| * t.stride;
    (Map(v => v + t.bias, PySlice(sum, 0, emit)), PySlice(sum, emit, |sum|))
  }

  lemma ExportLength(t: TConv, n: nat)
    requires ExportTConv(t)
    ensures n > 0 ==> RawLen(t, n) == n * t.stride + t.rightPad
    ensures n == 0 ==> RawLen(t, n) == 0
    ensures n * t.stride >= 0
    ensures RawLen(t, n) - t.rightPad - t.leftPad <= n * t.stride
    ensures n == 0 ==> n * t.stride == 0
  {
    RawLenGrows(t, n, n);
  }

  lemma FullIsEmitted(t: TConv, x: Signal)
    requires ExportTConv(t)
    ensures FullTConv(t, x) == Emitted(t, x, |x| * t.stride)
  {
    ExportLength(t, |x|);
  }

  /** Sample i of the chunk's own raw output plus the pending overlap is the true raw sample. */
  lemma OverlapAt(t: TConv, h: Signal, x: Signal, i: nat)
    requires ExportTConv(t) && x != [] && i < RawLen(t, |x|)
    ensures AddAt(RawOf(t, x), 0, Pending(t, h))[i] == RawAt(t, h + x, |h| * t.stride + i)
  {
    hide RawAt;
    var at := |h| * t.stride + i;
    RawSplit(t, h, x, at);
    ExportLength(t, |h|);
    assert RawOf(t, x)[i] == RawAt(t, x, i);
    if i >= t.rightPad {
      RawOutside(t, h, at);
    }
  }

  /** The step's raw sum: true raw samples from h's end on, split into outputs and pending. */
  lemma OverlapParts(t: TConv, h: Signal, x: Signal) returns (sum: Signal)
    requires ExportTConv(t) && x != []
    ensures var (y, p) := ExportTConvStep(t, x, Pending(t, h));
            var m := |x| * t.stride;
            && |sum| == m + t.rightPad && m >= 0
            && y == Map(v => v + t.bias, sum[..m]) && p == sum[m..]
    ensures forall i | 0 <= i < |sum| :: sum[i] == RawAt(t, h + x, |h| * t.stride + i)
  {
    hide RawAt, RawOf, AddAt, Pending, RawLen, Map;
    ExportLength(t, |x|);
    sum := AddAt(RawOf(t, x), 0, Pending(t, h));
    var m := |x| * t.stride;
    assert |sum| == m + t.rightPad && m > 0 by {
      assert |x| * t.stride >= 1 * t.stride;
    }
    SplitAt(sum, m);
    forall i | 0 <= i < |sum| ensures sum[i] == RawAt(t, h + x, |h| * t.stride + i) {
      OverlapAt(t, h, x, i);
    }
  }

  lemma SplitAt(x: Signal, m: nat)
    requires 0 < m <= |x|
    ensures PySlice(x, 0, m) == x[..m] && PySlice(x, m, |x|) == x[m..]
  {}

  lemma ExportTConvStepCorrect(t: TConv, h: Signal, x: Signal)
    requires ExportTConv(t) && x != []
    ensures var (y, p) := ExportTConvStep(t, x, Pending(t, h));
            FullTConv(t, h + x) == FullTConv(t, h) + y && p == Pending(t, h + x)
  {
    hide RawAt, FullTConv, ExportTConvStep, Emitted, Pending, Map;
    var (y, p) := ExportTConvStep(t, x, Pending(t, h));
    var n, m := |h| * t.stride, |x| * t.stride;
    assert |h + x| * t.stride == n + m;
    var sum := OverlapParts(t, h, x);
    FullIsEmitted(t, h + x);
    FullIsEmitted(t, h);
    ExportLength(t, |h|);
    EmittedStable(t, h, x, n);
    EmittedIs(t, h + x, n, sum, m);
    PendingIs(t, h + x, n + m, sum, m);
  }

  lemma EmittedIs(t: TConv, all: Signal, n: nat, sum: Signal, m: nat)
    requires t.leftPad == 0 && m <= |sum|
    requires forall i | 0 <= i < |sum| :: sum[i] == RawAt(t, all, n + i)
    ensures Emitted(t, all, n + m) == Emitted(t, all, n) + Map(v => v + t.bias, sum[..m])
  {
    hide RawAt;
    var y := Map(v => v + t.bias, sum[..m]);
    forall i | 0 <= i < m ensures Emitted(t, all, n + m)[n + i] == y[i] {
      assert sum[..m][i] == sum[i];
    }
  }

  lemma PendingIs(t: TConv, all: Signal, end: nat, sum: Signal, m: nat)
    requires ExportTConv(t) && end == |all| * t.stride && m <= end
    requires |sum| == m + t.rightPad && forall i | 0 <= i < |sum| :: sum[i] == RawAt(t, all, end - m + i)
    ensures sum[m..] == Pending(t, all)
  {
    hide RawAt;
    forall j | 0 <= j < t.rightPad ensures sum[m..][j] == Pending(t, all)[j] {
      assert sum[m + j] == RawAt(t, all, end + j);
    }
  }

  lemma PendingStart(t: TConv)
    requires ExportTConv(t)
    ensures Pending(t, []) == Zeros(t.rightPad)
  {
    forall j | 0 <= j < t.rightPad ensures Pending(t, [])[j] == Zeros(t.rightPad)[j] {
      assert RawAt(t, [], 0 * t.stride + j) == 0.0;
    }
  }

  /** x[..., -keep:]: with keep 0 Python takes everything, not nothing. */
  function PyLast(x: Signal, keep: nat): Signal {
    if keep == 0 then x else LastOf(x, keep)
  }

  function Keys(a: Attn, x: Signal, off: int): (k: Signal)
    ensures |k| == |x|
  {
    seq(|x|, i requires 0 <= i < |x| => a.key(off + i, x[i]))
  }

  function Values(a: Attn, x: Signal): (v: Signal)
    ensures |v| == |x|
  {
    seq(|x|, i requires 0 <= i < |x| => a.value(x[i]))
  }

  /** Cached keys and values with the positions the export assigns them: off - keep .. off - 1, then the chunk. */
  function Positioned(k: Signal, v: Signal, first: int): (e: seq<Entry>)
    requires |k| == |v|
    ensures |e| == |k|
  {
    seq(|k|, i requires 0 <= i < |k| => Entry(first + i, k[i], v[i]))
  }

  /** The export's mask drops the zero-filled slots by their negative positions. */
  function Real(e: seq<Entry>): seq<Entry> {
    if e == [] then [] else (if e[0].pos >= 0 then [e[0]] else []) + Real(e[1..])
  }

  /** _attention_step of the export. */
  function ExportAttentionStep(a: Attn, x: Signal, ks: Signal, vs: Signal, off: int): (r: (Signal, Signal, Signal))
    requires |ks| == |vs|
  {
    var allK := ks + Keys(a, x, off);
    var allV := vs + Values(a, x);
    var all := Positioned(allK, allV, off - Keep(a));
    var y := seq(|x|, i requires 0 <= i < |x| => AttendAt(a, Real(all), off + i, x[i]));
    (y, PyLast(allK, Keep(a)), PyLast(allV, Keep(a)))
  }

  ghost function KeyState(a: Attn, h: Signal): (s: Signal)
    ensures |s| == Keep(a)
  {
    (Zeros(Keep(a)) + Keys(a, h, 0))[|h|..]
  }

  ghost function ValueState(a: Attn, h: Signal): (s: Signal)
    ensures |s| == Keep(a)
  {
    (Zeros(Keep(a)) + Values(a, h))[|h|..]
  }

  lemma {:induction false} RealAll(e: seq<Entry>)
    requires forall i | 0 <= i < |e| :: e[i].pos >= 0
    ensures Real(e) == e
  {
    if e != [] { RealAll(e[1..]); }
  }

  lemma {:induction false} RealDropsNegative(e: seq<Entry>, f: seq<Entry>)
    requires forall i | 0 <= i < |e| :: e[i].pos < 0
    ensures Real(e + f) == Real(f)
  {
    if e == [] {
      assert e + f == f;
    } else {
      RealDropsNegative(e[1..], f);
      assert (e + f)[1..] == e[1..] + f;
    }
  }

  /** Zero-filled slots of the fixed cache after input h. */
  ghost function Blank(a: Attn, h: Signal): nat {
    if |h| >= Keep(a) then 0 else Keep(a) - |h|
  }

  lemma PastSlots(a: Attn, h: Signal)
    ensures var past := Positioned(KeyState(a, h), ValueState(a, h), |h| - Keep(a));
            var blank := Blank(a, h);
            && |past| == blank + |CacheAt(a, h)|
            && (forall i | 0 <= i < blank :: past[i].pos < 0)
            && past[blank..] == CacheAt(a, h)
  {
    var past := Positioned(KeyState(a, h), ValueState(a, h), |h| - Keep(a));
    var blank := Blank(a, h);
    forall i | blank <= i < |past| ensures past[i] == CacheAt(a, h)[i - blank] {
      var t := |h| - Keep(a) + i;
      assert KeyState(a, h)[i] == a.key(t, h[t]);
      assert ValueState(a, h)[i] == a.value(h[t]);
    }
  }

  lemma PositionedSplit(k: Signal, v: Signal, a: Attn, x: Signal, first: int)
    requires |k| == |v|
    ensures Positioned(k + Keys(a, x, first + |k|), v + Values(a, x), first)
         == Positioned(k, v, first) + Entries(a, x, first + |k|)
  {
    var all := Positioned(k + Keys(a, x, first + |k|), v + Values(a, x), first);
    var two := Positioned(k, v, first) + Entries(a, x, first + |k|);
    assert |all| == |two|;
    forall i | 0 <= i < |all| ensures all[i] == two[i] {
    }
  }

  /** The fixed cache, once the zero-filled slots are masked, is the growing cache. */
  lemma FixedCacheIsCache(a: Attn, h: Signal, x: Signal)
    ensures Real(Positioned(KeyState(a, h) + Keys(a, x, |h|), ValueState(a, h) + Values(a, x), |h| - Keep(a)))
         == CacheAt(a, h) + Entries(a, x, |h|)
  {
    PastSlots(a, h);
    PositionedSplit(KeyState(a, h), ValueState(a, h), a, x, |h| - Keep(a));
    var past := Positioned(KeyState(a, h), ValueState(a, h), |h| - Keep(a));
    var blank := Blank(a, h);
    var kept := CacheAt(a, h) + Entries(a, x, |h|);
    forall i | 0 <= i < |kept| ensures kept[i].pos >= 0 {
    }
    hide Entries, CacheAt, KeyState, ValueState, Positioned, Keys, Values, Real;
    assert past == past[..blank] + past[blank..];
    assert past + Entries(a, x, |h|) == past[..blank] + kept;
    RealDropsNegative(past[..blank], kept);
    RealAll(kept);
  }

  /** One exported step from the right state: the new outputs, exactly, and the next state. */
  lemma ExportAttentionStepCorrect(a: Attn, h: Signal, x: Signal)
    requires a.window >= 2
    ensures var (y, ks, vs) := ExportAttentionStep(a, x, KeyState(a, h), ValueState(a, h), |h|);
            && FullAttn(a, h + x) == FullAttn(a, h) + y
            && ks == KeyState(a, h + x) && vs == ValueState(a, h + x)
  {
    hide AttendAt, FullAttn, AttentionStep, CacheAt, KeyState, ValueState, Keys, Values, Real, Positioned;
    FixedCacheRefinesGrowing(a, h, x);
    AttentionStepCorrect(a, h, x);
    CacheTensorsStep(a, h, x);
  }

  lemma CacheTensorsStep(a: Attn, h: Signal, x: Signal)
    requires a.window >= 2
    ensures PyLast(KeyState(a, h) + Keys(a, x, |h|), Keep(a)) == KeyState(a, h + x)
    ensures PyLast(ValueState(a, h) + Values(a, x), Keep(a)) == ValueState(a, h + x)
  {
    assert Keys(a, h + x, 0) == Keys(a, h, 0) + Keys(a, x, |h|);
    assert Values(a, h + x) == Values(a, h) + Values(a, x);
    RollTensor(Zeros(Keep(a)), Keys(a, h, 0), Keys(a, x, |h|));
    RollTensor(Zeros(Keep(a)), Values(a, h), Values(a, x));
  }

  /** Keeping the last |z| of a rolling buffer, in two parts or in one. */
  lemma RollTensor(z: Signal, h: Signal, x: Signal)
    requires |z| > 0
    ensures PyLast((z + h)[|h|..] + x, |z|) == (z + (h + x))[|h + x|..]
  {
    assert z + (h + x) == (z + h) + x;
    assert (z + h)[|h|..] + x == ((z + h) + x)[|h|..];
  }

  lemma KeyStateStart(a: Attn)
    ensures KeyState(a, []) == Zeros(Keep(a)) && ValueState(a, []) == Zeros(Keep(a))
  {
    assert Zeros(Keep(a)) + [] == Zeros(Keep(a));
  }

  /** The fixed-size state keeps its size exactly when the window is at least two (or the chunk is empty). */
  lemma StateSizeKept(a: Attn, x: Signal, ks: Signal, vs: Signal, off: int)
    requires |ks| == |vs| == Keep(a)
    ensures |ExportAttentionStep(a, x, ks, vs, off).1| == Keep(a) <==> (a.window >= 2 || x == [])
  {}

  /** Window 1: the state should stay empty, but one frame leaves one entry in it. */
  lemma WindowOneGrows(a: Attn)
    requires a.window == 1
    ensures Keep(a) == 0 && |ExportAttentionStep(a, [0.0], [], [], 0).1| == 1
  {}

  /** The fixed pending buffer emits what the reference's growing accumulator emits. */
  lemma PendingRefinesAccumulator(t: TConv, h: Signal, x: Signal, final: bool)
    requires ExportTConv(t) && x != []
    ensures ExportTConvStep(t, x, Pending(t, h)).0 == EmitStep(t, x, EmitStateAt(t, h), final).0
  {
    hide ExportTConvStep, EmitStep, EmitStateAt, Pending, Emitted, FullTConv;
    ExportTConvStepCorrect(t, h, x);
    EmitStepCorrect(t, h, x, final);
    FullIsEmitted(t, h);
    FullIsEmitted(t, h + x);
    ExportLength(t, |h|);
    ExportLength(t, |h + x|);
    SameTail(FullTConv(t, h), ExportTConvStep(t, x, Pending(t, h)).0, EmitStep(t, x, EmitStateAt(t, h), final).0);
  }

  lemma SameTail(a: Signal, b: Signal, c: Signal)
    requires a + b == a + c
    ensures b == c
  {
    assert b == (a + b)[|a|..];
    assert c == (a + c)[|a|..];
  }

  /** The fixed masked cache attends to what the reference's growing cache attends to. */
  lemma FixedCacheRefinesGrowing(a: Attn, h: Signal, x: Signal)
    ensures ExportAttentionStep(a, x, KeyState(a, h), ValueState(a, h), |h|).0
         == AttentionStep(a, x, CacheAt(a, h), |h|).0
  {
    FixedCacheIsCache(a, h, x);
  }

  /** The exported step, too, attends to exactly the last `window` positions. */
  lemma ExportStepWindow(a: Attn, h: Signal, x: Signal, i: nat)
    requires a.window >= 1 && i < |x|
    ensures var y := ExportAttentionStep(a, x, KeyState(a, h), ValueState(a, h), |h|).0;
            i < |y| && y[i] == a.attend(a.query(|h| + i, x[i]), LastWindow(a, h + x, |h| + i))
  {
    hide CacheAt, LastWindow, KeyState, ValueState, AttendAt, Real, Positioned;
    FixedCacheRefinesGrowing(a, h, x);
    StepWindow(a, h, x, i);
  }
}

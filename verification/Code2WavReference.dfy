/**
 The whole Code2Wav stack of qwen3_code2wav_stateful_reference.py: transformer layers, upsampling
 stages, decoder blocks. The streamed run is proved to give the samples of one full pass for every
 way of cutting the code frames into chunks.
 */
module Code2WavReference {
  import opened Options
  import opened Signals
  import opened ConvLayers
  import opened TransposedConv
  import opened ConvStreams
  import opened Attention

  type Frame = seq<int>

  /** A transformer layer: norm, attention, and a positionwise join of residual, scale and MLP. */
  datatype Layer = Layer(norm: real -> real, attn: Attn, join: (real, real) -> real)

  /** A ConvNeXt block after a transposed convolution; g is its positionwise tail. */
  datatype UpStage = UpStage(tconv: TConv, dwconv: Conv, g: real -> real)

  datatype ResUnit = ResUnit(act1: real -> real, conv1: Conv, act2: real -> real, conv2: Conv)

  datatype Block =
    | ConvBlock(conv: Conv)
    | Stage(act: real -> real, tconv: TConv, units: seq<ResUnit>)
    | Snake(f: real -> real)

  datatype Reference = Reference(embed: Frame -> real, layers: seq<Layer>, norm: real -> real,
                                 upsample: seq<UpStage>, decoder: seq<Block>)

  ghost predicate ValidUnit(u: ResUnit) { ValidConv(u.conv1) && ValidConv(u.conv2) }

  ghost predicate ValidBlock(b: Block) {
    match b
    case ConvBlock(c) => ValidConv(c)
    case Stage(_, t, units) => ValidTConv(t) && forall i | 0 <= i < |units| :: ValidUnit(units[i])
    case Snake(_) => true
  }

  ghost predicate ValidReference(m: Reference) {
    && (forall i | 0 <= i < |m.layers| :: m.layers[i].attn.window >= 1)
    && (forall i | 0 <= i < |m.upsample| :: ValidTConv(m.upsample[i].tconv) && ValidConv(m.upsample[i].dwconv))
    && (forall i | 0 <= i < |m.decoder| :: ValidBlock(m.decoder[i]))
  }

  // ---- one full pass ----

  function Plus(x: real, y: real): real { x + y }

  function Clamp(v: real): real { if v < -1.0 then -1.0 else if v > 1.0 then 1.0 else v }

  function Embed(f: Frame -> real, codes: seq<Frame>): (x: Signal)
    ensures |x| == |codes| && forall i | 0 <= i < |x| :: x[i] == f(codes[i])
  {
    seq(|codes|, i requires 0 <= i < |codes| => f(codes[i]))
  }

  ghost function FullLayer(l: Layer, x: Signal): (y: Signal)
    ensures |y| == |x|
  {
    Map2(l.join, x, FullAttn(l.attn, Map(l.norm, x)))
  }

  /** The first n layers. */
  ghost function RunLayers(layers: seq<Layer>, n: nat, x: Signal): (y: Signal)
    requires n <= |layers|
    ensures |y| == |x|
  {
    if n == 0 then x else FullLayer(layers[n - 1], RunLayers(layers, n - 1, x))
  }

  ghost function PreTransformerFull(m: Reference, codes: seq<Frame>): Signal {
    Map(m.norm, RunLayers(m.layers, |m.layers|, Embed(m.embed, codes)))
  }

  ghost function FullConvNext(u: UpStage, x: Signal): Signal {
    Map2(Plus, x, Map(u.g, FullConv(u.dwconv, x)))
  }

  ghost function FullUnit(u: ResUnit, x: Signal): Signal {
    Map2(Plus, x, FullConv(u.conv2, Map(u.act2, FullConv(u.conv1, Map(u.act1, x)))))
  }

  /** The first n residual units. */
  ghost function RunUnits(units: seq<ResUnit>, n: nat, x: Signal): Signal
    requires n <= |units|
  {
    if n == 0 then x else FullUnit(units[n - 1], RunUnits(units, n - 1, x))
  }

  ghost function FullBlock(b: Block, x: Signal): Signal {
    match b
    case ConvBlock(c) => FullConv(c, x)
    case Stage(act, t, units) => RunUnits(units, |units|, FullTConv(t, Map(act, x)))
    case Snake(f) => Map(f, x)
  }

  ghost function RunUpsample(stages: seq<UpStage>, n: nat, x: Signal): Signal
    requires n <= |stages|
  {
    if n == 0 then x else FullConvNext(stages[n - 1], FullTConv(stages[n - 1].tconv, RunUpsample(stages, n - 1, x)))
  }

  ghost function RunDecoder(blocks: seq<Block>, n: nat, x: Signal): Signal
    requires n <= |blocks|
  {
    if n == 0 then x else FullBlock(blocks[n - 1], RunDecoder(blocks, n - 1, x))
  }

  /** model(codes). */
  ghost function FullPass(m: Reference, codes: seq<Frame>): Signal {
    var hidden := RunUpsample(m.upsample, |m.upsample|, PreTransformerFull(m, codes));
    Map(Clamp, RunDecoder(m.decoder, |m.decoder|, hidden))
  }

  // ---- chunk lists ----

  function MapChunks(f: real -> real, chunks: seq<Signal>): (outs: seq<Signal>)
    ensures |outs| == |chunks| && forall i | 0 <= i < |outs| :: outs[i] == Map(f, chunks[i])
  {
    seq(|chunks|, i requires 0 <= i < |chunks| => Map(f, chunks[i]))
  }

  lemma {:induction false} ConcatMap(f: real -> real, chunks: seq<Signal>)
    ensures Concat(MapChunks(f, chunks)) == Map(f, Concat(chunks))
  {
    if chunks != [] {
      ConcatMap(f, chunks[1..]);
      MapSplit(f, chunks[0], Concat(chunks[1..]));
      assert MapChunks(f, chunks)[1..] == MapChunks(f, chunks[1..]);
    }
  }

  ghost predicate SameShape(a: seq<Signal>, b: seq<Signal>) {
    |a| == |b| && forall i | 0 <= i < |a| :: |a[i]| == |b[i]|
  }

  /** [residual + y for residual, y in zip(a, b, strict=True)]. */
  function AddChunks(a: seq<Signal>, b: seq<Signal>): (outs: seq<Signal>)
    requires SameShape(a, b)
    ensures SameShape(outs, a) && forall i | 0 <= i < |outs| :: outs[i] == Map2(Plus, a[i], b[i])
  {
    seq(|a|, i requires 0 <= i < |a| => Map2(Plus, a[i], b[i]))
  }

  lemma {:induction false} ConcatAdd(a: seq<Signal>, b: seq<Signal>)
    requires SameShape(a, b)
    ensures |Concat(a)| == |Concat(b)|
    ensures Concat(AddChunks(a, b)) == Map2(Plus, Concat(a), Concat(b))
  {
    if a != [] {
      ConcatAdd(a[1..], b[1..]);
      Map2Split(Plus, a[0], Concat(a[1..]), b[0], Concat(b[1..]));
      assert AddChunks(a, b)[1..] == AddChunks(a[1..], b[1..]);
    }
  }

  // ---- streams ----

  method StreamConvNextBlockChunks(u: UpStage, chunks: seq<Signal>) returns (outs: seq<Signal>)
    requires ValidConv(u.dwconv) && NonEmpty(chunks)
    ensures NonEmpty(outs)
    ensures Concat(outs) == FullConvNext(u, Concat(chunks))
  {
    var conv := CausalConvStreamChunks(u.dwconv, chunks);
    var y := MapChunks(u.g, conv);
    ConcatMap(u.g, conv);
    ConcatAdd(chunks, y);
    outs := AddChunks(chunks, y);
  }

  method StreamResidualUnitChunks(u: ResUnit, chunks: seq<Signal>) returns (outs: seq<Signal>)
    requires ValidUnit(u) && NonEmpty(chunks)
    ensures NonEmpty(outs)
    ensures Concat(outs) == FullUnit(u, Concat(chunks))
  {
    var y := MapChunks(u.act1, chunks);
    ConcatMap(u.act1, chunks);
    y := CausalConvStreamChunks(u.conv1, y);
    ConcatMap(u.act2, y);
    y := MapChunks(u.act2, y);
    y := CausalConvStreamChunks(u.conv2, y);
    ConcatAdd(chunks, y);
    outs := AddChunks(chunks, y);
  }

  method StreamTConvChunks(t: TConv, chunks: seq<Signal>) returns (outs: seq<Signal>)
    requires ValidTConv(t) && NonEmpty(chunks)
    ensures NonEmpty(outs)
    ensures Concat(outs) == FullTConv(t, Concat(chunks))
  {
    outs := TransposedConvStreamEmitChunks(t, chunks);
  }

  method StreamBlockChunks(b: Block, chunks: seq<Signal>) returns (outs: seq<Signal>)
    requires ValidBlock(b) && NonEmpty(chunks)
    ensures NonEmpty(outs)
    ensures Concat(outs) == FullBlock(b, Concat(chunks))
  {
    match b
    case ConvBlock(c) =>
      outs := CausalConvStreamChunks(c, chunks);
    case Snake(f) =>
      ConcatMap(f, chunks);
      outs := MapChunks(f, chunks);
    case Stage(act, t, units) =>
      outs := MapChunks(act, chunks);
      ConcatMap(act, chunks);
      outs := StreamTConvChunks(t, outs);
      ghost var x := FullTConv(t, Map(act, Concat(chunks)));
      for i := 0 to |units|
        invariant NonEmpty(outs)
        invariant Concat(outs) == RunUnits(units, i, x)
      {
        assert ValidUnit(units[i]);
        outs := StreamResidualUnitChunks(units[i], outs);
      }
  }

  /** convnet_stream_online. */
  method ConvnetStreamOnline(m: Reference, chunks: seq<Signal>) returns (outs: seq<Signal>)
    requires ValidReference(m) && NonEmpty(chunks)
    ensures NonEmpty(outs)
    ensures Concat(outs) == RunDecoder(m.decoder, |m.decoder|, RunUpsample(m.upsample, |m.upsample|, Concat(chunks)))
  {
    outs := chunks;
    for i := 0 to |m.upsample|
      invariant NonEmpty(outs)
      invariant Concat(outs) == RunUpsample(m.upsample, i, Concat(chunks))
    {
      outs := StreamTConvChunks(m.upsample[i].tconv, outs);
      outs := StreamConvNextBlockChunks(m.upsample[i], outs);
    }
    ghost var x := Concat(outs);
    for i := 0 to |m.decoder|
      invariant NonEmpty(outs)
      invariant Concat(outs) == RunDecoder(m.decoder, i, x)
    {
      assert ValidBlock(m.decoder[i]);
      outs := StreamBlockChunks(m.decoder[i], outs);
    }
  }

  // ---- transformer ----

  /** transformer_layer_step. */
  function LayerStep(l: Layer, x: Signal, cache: seq<Entry>, off: int): (r: (Signal, seq<Entry>))
    ensures |r.0| == |x|
  {
    var (h, next) := AttentionStep(l.attn, Map(l.norm, x), cache, off);
    (Map2(l.join, x, h), next)
  }

  ghost function LayerCache(l: Layer, h: Signal): seq<Entry> {
    CacheAt(l.attn, Map(l.norm, h))
  }

  lemma LayerStepCorrect(l: Layer, h: Signal, x: Signal)
    requires l.attn.window >= 1
    ensures var (y, next) := LayerStep(l, x, LayerCache(l, h), |h|);
            FullLayer(l, h + x) == FullLayer(l, h) + y && next == LayerCache(l, h + x)
  {
    MapSplit(l.norm, h, x);
    AttentionStepCorrect(l.attn, Map(l.norm, h), Map(l.norm, x));
    var (y, _) := AttentionStep(l.attn, Map(l.norm, x), LayerCache(l, h), |h|);
    Map2Split(l.join, h, x, FullAttn(l.attn, Map(l.norm, h)), y);
  }

  /** The caches of all layers after input h: layer i has seen what the first i layers make of h. */
  ghost predicate CachesAt(layers: seq<Layer>, states: seq<seq<Entry>>, h: Signal) {
    |states| == |layers| &&
    forall i | 0 <= i < |layers| :: states[i] == LayerCache(layers[i], RunLayers(layers, i, h))
  }

  method LayersStep(layers: seq<Layer>, x: Signal, states: seq<seq<Entry>>, off: nat, ghost h: Signal)
    returns (y: Signal, next: seq<seq<Entry>>)
    requires forall i | 0 <= i < |layers| :: layers[i].attn.window >= 1
    requires CachesAt(layers, states, h) && off == |h|
    ensures RunLayers(layers, |layers|, h + x) == RunLayers(layers, |layers|, h) + y
    ensures CachesAt(layers, next, h + x)
  {
    y := x;
    next := states;
    for i := 0 to |layers|
      invariant |next| == |layers|
      invariant RunLayers(layers, i, h + x) == RunLayers(layers, i, h) + y
      invariant forall j | 0 <= j < i :: next[j] == LayerCache(layers[j], RunLayers(layers, j, h + x))
      invariant forall j | i <= j < |layers| :: next[j] == LayerCache(layers[j], RunLayers(layers, j, h))
    {
      LayerStepCorrect(layers[i], RunLayers(layers, i, h), y);
      var (out, cache) := LayerStep(layers[i], y, next[i], off);
      y := out;
      next := next[i := cache];
    }
  }

  function SumOf(chunks: seq<nat>): nat {
    if chunks == [] then 0 else SumOf(chunks[..|chunks| - 1]) + chunks[|chunks| - 1]
  }

  function Part(codes: seq<Frame>, a: nat, n: nat): seq<Frame> {
    if a >= |codes| then [] else if a + n <= |codes| then codes[a..a + n] else codes[a..]
  }

  /** The frames consumed once the running offset is `off`. */
  ghost function Consumed(codes: seq<Frame>, off: nat): seq<Frame> {
    if off <= |codes| then codes[..off] else codes
  }

  /** Some run of leading chunk sizes adds up to n. */
  ghost predicate Reaches(chunks: seq<nat>, upTo: nat, n: nat)
    requires upTo <= |chunks|
  {
    exists k: nat :: k <= upTo && SumOf(chunks[..k]) == n
  }

  /** The body of the chunk loop: one chunk of frames through all layers and the final norm. */
  method PreTransformerChunk(
    m: Reference, part: seq<Frame>, states: seq<seq<Entry>>, offset: nat, ghost done: seq<Frame>)
    returns (out: Signal, next: seq<seq<Entry>>)
    requires ValidReference(m)
    requires CachesAt(m.layers, states, Embed(m.embed, done)) && offset == |done|
    ensures CachesAt(m.layers, next, Embed(m.embed, done + part))
    ensures PreTransformerFull(m, done + part) == PreTransformerFull(m, done) + out
    ensures |out| == |part|
  {
    EmbedSplit(m.embed, done, part);
    var hidden;
    hidden, next := LayersStep(m.layers, Embed(m.embed, part), states, offset, Embed(m.embed, done));
    MapSplit(m.norm, RunLayers(m.layers, |m.layers|, Embed(m.embed, done)), hidden);
    StepLength(m, done, part, hidden);
    out := Map(m.norm, hidden);
  }

  /**
   pre_transformer_stream_chunks. The sizes are accepted exactly when some leading run of them
   covers the frames; then the chunks concatenate to the full pre-transformer.
   */
  method PreTransformerStreamChunks(m: Reference, codes: seq<Frame>, chunks: seq<nat>) returns (r: Option<seq<Signal>>)
    requires ValidReference(m)
    ensures r.Some? <==> Reaches(chunks, |chunks|, |codes|)
    ensures r.Some? ==> NonEmpty(r.value) && Concat(r.value) == PreTransformerFull(m, codes)
  {
    hide CachesAt, PreTransformerFull, ValidReference, Embed, Reaches, Tracks, Consumed, Part;
    var states := seq(|m.layers|, i => []);
    var outs: seq<Signal> := [];
    var offset: nat := 0;
    EmptyStart(m, states);
    NotReached(codes, chunks);
    for i := 0 to |chunks|
      invariant CachesAt(m.layers, states, Embed(m.embed, Consumed(codes, offset)))
      invariant Concat(outs) == PreTransformerFull(m, Consumed(codes, offset))
      invariant NonEmpty(outs)
      invariant Tracks(chunks, i, offset, |codes|)
    {
      var part := Part(codes, offset, chunks[i]);
      TracksNext(codes, chunks, i, offset);
      if |part| == 0 {
        continue;
      }
      ghost var done := Consumed(codes, offset);
      var out, next := PreTransformerChunk(m, part, states, offset, done);
      states := next;
      ConcatAppend(outs, out);
      outs := outs + [out];
      offset := offset + chunks[i];
    }
    Finished(codes, chunks, offset);
    if offset != |codes| {
      return None;
    }
    return Some(outs);
  }

  /** The running offset follows the sizes until it meets or passes the frame count, then stays. */
  ghost predicate Tracks(chunks: seq<nat>, i: nat, offset: nat, n: nat)
    requires i <= |chunks|
  {
    && (offset < n ==> offset == SumOf(chunks[..i]))
    && offset <= SumOf(chunks[..i])
    && (Reaches(chunks, i, n) <==> offset == n)
  }

  lemma NotReached(codes: seq<Frame>, chunks: seq<nat>)
    ensures Tracks(chunks, 0, 0, |codes|)
    ensures Consumed(codes, 0) == []
  {
    assert chunks[..0] == [];
    assert Reaches(chunks, 0, |codes|) <==> SumOf(chunks[..0]) == |codes|;
  }

  lemma TracksNext(codes: seq<Frame>, chunks: seq<nat>, i: nat, offset: nat)
    requires i < |chunks| && Tracks(chunks, i, offset, |codes|)
    ensures var part := Part(codes, offset, chunks[i]);
            && Tracks(chunks, i + 1, if part == [] then offset else offset + chunks[i], |codes|)
            && (part != [] ==> Consumed(codes, offset + chunks[i]) == Consumed(codes, offset) + part)
            && (part != [] ==> |Consumed(codes, offset)| == offset)
  {
    ReachesNext(chunks, i, |codes|);
  }

  lemma Finished(codes: seq<Frame>, chunks: seq<nat>, offset: nat)
    requires Tracks(chunks, |chunks|, offset, |codes|)
    ensures Reaches(chunks, |chunks|, |codes|) <==> offset == |codes|
    ensures offset == |codes| ==> Consumed(codes, offset) == codes
  {}

  lemma EmptyStart(m: Reference, states: seq<seq<Entry>>)
    requires |states| == |m.layers| && forall i | 0 <= i < |states| :: states[i] == []
    ensures CachesAt(m.layers, states, Embed(m.embed, []))
    ensures PreTransformerFull(m, []) == []
  {
    assert Embed(m.embed, []) == [];
    forall i | 0 <= i < |m.layers| ensures states[i] == LayerCache(m.layers[i], RunLayers(m.layers, i, [])) {
      assert RunLayers(m.layers, i, []) == [];
    }
  }

  lemma EmbedSplit(f: Frame -> real, a: seq<Frame>, b: seq<Frame>)
    ensures Embed(f, a + b) == Embed(f, a) + Embed(f, b)
  {
    assert |Embed(f, a + b)| == |Embed(f, a) + Embed(f, b)|;
  }

  lemma StepLength(m: Reference, a: seq<Frame>, b: seq<Frame>, y: Signal)
    requires RunLayers(m.layers, |m.layers|, Embed(m.embed, a + b)) ==
             RunLayers(m.layers, |m.layers|, Embed(m.embed, a)) + y
    ensures |y| == |b|
  {}

  lemma ReachesNext(chunks: seq<nat>, i: nat, n: nat)
    requires i < |chunks|
    ensures Reaches(chunks, i + 1, n) <==> Reaches(chunks, i, n) || SumOf(chunks[..i + 1]) == n
    ensures SumOf(chunks[..i + 1]) == SumOf(chunks[..i]) + chunks[i]
  {
    assert chunks[..i + 1][..i] == chunks[..i];
  }

  /**
   code2wav_stream_online: for every chunking that covers the frames, the streamed samples are the
   samples of one full pass. A chunking that does not cover them is refused, and so is an input that
   yields no sample at all, since there is then nothing to concatenate.
   */
  method Code2WavStreamOnline(m: Reference, codes: seq<Frame>, chunks: seq<nat>) returns (r: Option<Signal>)
    requires ValidReference(m)
    ensures r.Some? <==> Reaches(chunks, |chunks|, |codes|) && FullPass(m, codes) != []
    ensures r.Some? ==> r.value == FullPass(m, codes)
  {
    var hidden := PreTransformerStreamChunks(m, codes, chunks);
    if hidden.None? {
      return None;
    }
    var wav := ConvnetStreamOnline(m, hidden.value);
    SomethingToJoin(wav);
    if wav == [] {
      return None;
    }
    return Some(Map(Clamp, Concat(wav)));
  }

  lemma SomethingToJoin(chunks: seq<Signal>)
    requires NonEmpty(chunks)
    ensures Concat(chunks) == [] <==> chunks == []
  {
    if chunks != [] {
      var n := |chunks| - 1;
      ConcatAppend(chunks[..n], chunks[n]);
      assert chunks == chunks[..n] + [chunks[n]];
    }
  }
}

/**
 _build_state_specs and initial_states: the published size of every state tensor, in order. Proved:
 the state list of every history has exactly these sizes, and the zero-filled initial list is the
 state list of the empty history.
 */
module Code2WavSpecs {
  import opened Signals
  import opened ConvLayers
  import opened TransposedConv
  import opened Attention
  import opened ExportSteps
  import opened Code2WavReference
  import opened Code2WavExport

  datatype StateName =
    | AttnK(layer: nat) | AttnV(layer: nat)
    | PreConvState
    | UpPending(stage: nat) | UpDepthwise(stage: nat)
    | DecoderConv(block: nat) | DecoderPending(block: nat)
    | UnitConv1(block: nat, unit: nat) | UnitConv2(block: nat, unit: nat)

  datatype StateSpec = StateSpec(name: StateName, size: nat)

  /** A state list with the given sizes. */
  ghost predicate Shaped(states: States, specs: seq<StateSpec>) {
    |states| == |specs| && forall i | 0 <= i < |states| :: |states[i]| == specs[i].size
  }

  ghost predicate AllZero(states: States) {
    forall i | 0 <= i < |states| :: states[i] == Zeros(|states[i]|)
  }

  lemma ShapedAppend(a: States, p: seq<StateSpec>, b: States, q: seq<StateSpec>)
    requires Shaped(a, p) && Shaped(b, q)
    ensures Shaped(a + b, p + q)
    ensures AllZero(a) && AllZero(b) ==> AllZero(a + b)
  {}

  function ConvSpecs(name: StateName, c: Conv): seq<StateSpec> {
    if Padding(c) == 0 then [] else [StateSpec(name, Padding(c))]
  }

  function TConvSpecs(name: StateName, t: TConv): seq<StateSpec> {
    if t.rightPad == 0 then [] else [StateSpec(name, t.rightPad)]
  }

  function UnitSpecs(block: nat, index: nat, u: ResUnit): seq<StateSpec> {
    ConvSpecs(UnitConv1(block, index), u.conv1) + ConvSpecs(UnitConv2(block, index), u.conv2)
  }

  function UnitsSpecs(block: nat, units: seq<ResUnit>, n: nat): seq<StateSpec>
    requires n <= |units|
  {
    if n == 0 then [] else UnitsSpecs(block, units, n - 1) + UnitSpecs(block, n + 1, units[n - 1])
  }

  function BlockSpecs(index: nat, b: Block): seq<StateSpec> {
    match b
    case ConvBlock(c) => ConvSpecs(DecoderConv(index), c)
    case Stage(_, t, units) => TConvSpecs(DecoderPending(index), t) + UnitsSpecs(index, units, |units|)
    case Snake(_) => []
  }

  function DecoderSpecs(blocks: seq<Block>, n: nat): seq<StateSpec>
    requires n <= |blocks|
  {
    if n == 0 then [] else DecoderSpecs(blocks, n - 1) + BlockSpecs(n - 1, blocks[n - 1])
  }

  function UpSpecs(stages: seq<UpStage>, n: nat): seq<StateSpec>
    requires n <= |stages|
  {
    if n == 0 then []
    else UpSpecs(stages, n - 1)
         + (TConvSpecs(UpPending(n - 1), stages[n - 1].tconv) + ConvSpecs(UpDepthwise(n - 1), stages[n - 1].dwconv))
  }

  function LayerSpecs(n: nat, keep: nat): seq<StateSpec> {
    if n == 0 then [] else LayerSpecs(n - 1, keep) + LayerPair(n - 1, keep)
  }

  function SpecsOf(m: Exported): seq<StateSpec> {
    LayerSpecs(|m.layers|, if m.window >= 1 then m.window - 1 else 0)
    + (ConvSpecs(PreConvState, m.preConv)
       + (UpSpecs(m.upsample, |m.upsample|) + DecoderSpecs(m.decoder, |m.decoder|)))
  }

  lemma SpecAssoc(a: seq<StateSpec>, b: seq<StateSpec>, c: seq<StateSpec>)
    ensures (a + b) + c == a + (b + c)
  {}

  /** The decoder-block arm of _build_state_specs. */
  method AddStage(index: nat, t: TConv, units: seq<ResUnit>, specs: seq<StateSpec>) returns (longer: seq<StateSpec>)
    ensures longer == specs + (TConvSpecs(DecoderPending(index), t) + UnitsSpecs(index, units, |units|))
  {
    hide ConvSpecs, TConvSpecs;
    longer := specs + TConvSpecs(DecoderPending(index), t);
    ghost var head := longer;
    for j := 0 to |units|
      invariant longer == head + UnitsSpecs(index, units, j)
    {
      var one := ConvSpecs(UnitConv1(index, j + 2), units[j].conv1);
      var two := ConvSpecs(UnitConv2(index, j + 2), units[j].conv2);
      SpecAssoc(longer, one, two);
      SpecAssoc(head, UnitsSpecs(index, units, j), one + two);
      longer := longer + one;
      longer := longer + two;
    }
    SpecAssoc(specs, TConvSpecs(DecoderPending(index), t), UnitsSpecs(index, units, |units|));
  }

  method AddBlock(index: nat, b: Block, specs: seq<StateSpec>) returns (longer: seq<StateSpec>)
    ensures longer == specs + BlockSpecs(index, b)
  {
    match b
    case ConvBlock(c) => longer := specs + ConvSpecs(DecoderConv(index), c);
    case Stage(_, t, units) => longer := AddStage(index, t, units, specs);
    case Snake(_) => longer := specs;
  }

  /** _build_state_specs, as the loops that append to `specs`. */
  method BuildStateSpecs(m: Exported) returns (specs: seq<StateSpec>)
    ensures specs == SpecsOf(m)
  {
    hide ConvSpecs, TConvSpecs, BlockSpecs;
    specs := [];
    var keep := if m.window >= 1 then m.window - 1 else 0;
    for i := 0 to |m.layers|
      invariant specs == LayerSpecs(i, keep)
    {
      SpecAssoc(specs, [StateSpec(AttnK(i), keep)], [StateSpec(AttnV(i), keep)]);
      specs := specs + [StateSpec(AttnK(i), keep)];
      specs := specs + [StateSpec(AttnV(i), keep)];
    }
    ghost var layers := specs;
    specs := specs + ConvSpecs(PreConvState, m.preConv);
    ghost var front := specs;
    for i := 0 to |m.upsample|
      invariant specs == front + UpSpecs(m.upsample, i)
    {
      var one := TConvSpecs(UpPending(i), m.upsample[i].tconv);
      var two := ConvSpecs(UpDepthwise(i), m.upsample[i].dwconv);
      SpecAssoc(specs, one, two);
      SpecAssoc(front, UpSpecs(m.upsample, i), one + two);
      specs := specs + one;
      specs := specs + two;
    }
    ghost var middle := specs;
    for i := 0 to |m.decoder|
      invariant specs == middle + DecoderSpecs(m.decoder, i)
    {
      SpecAssoc(middle, DecoderSpecs(m.decoder, i), BlockSpecs(i, m.decoder[i]));
      specs := AddBlock(i, m.decoder[i], specs);
    }
    SpecAssoc(front, UpSpecs(m.upsample, |m.upsample|), DecoderSpecs(m.decoder, |m.decoder|));
    SpecAssoc(layers, ConvSpecs(PreConvState, m.preConv),
              UpSpecs(m.upsample, |m.upsample|) + DecoderSpecs(m.decoder, |m.decoder|));
  }

  // ---- every history has the published sizes; the empty one is all zeros ----

  lemma ConvShape(name: StateName, c: Conv, h: Signal)
    ensures Shaped(ConvStates(c, h), ConvSpecs(name, c))
    ensures h == [] ==> AllZero(ConvStates(c, h))
  {
    ConvStart(c);
  }

  lemma TConvShape(name: StateName, t: TConv, h: Signal)
    requires ExportTConv(t)
    ensures Shaped(TConvStates(t, h), TConvSpecs(name, t))
    ensures h == [] ==> AllZero(TConvStates(t, h)) && FullTConv(t, h) == []
  {
    PendingStart(t);
    FullIsEmitted(t, []);
    assert 0 * t.stride == 0;
  }

  lemma UnitShape(block: nat, index: nat, u: ResUnit, h: Signal)
    ensures Shaped(UnitStates(u, h), UnitSpecs(block, index, u))
    ensures h == [] ==> AllZero(UnitStates(u, h)) && FullUnit(u, h) == []
  {
    hide ConvStates, ConvSpecs, Shaped, AllZero;
    var x := Map(u.act1, h);
    var y := Map(u.act2, FullConv(u.conv1, x));
    ConvShape(UnitConv1(block, index), u.conv1, x);
    ConvShape(UnitConv2(block, index), u.conv2, y);
    ShapedAppend(ConvStates(u.conv1, x), ConvSpecs(UnitConv1(block, index), u.conv1),
                 ConvStates(u.conv2, y), ConvSpecs(UnitConv2(block, index), u.conv2));
  }

  lemma {:induction false} UnitsShape(block: nat, units: seq<ResUnit>, n: nat, h: Signal)
    requires n <= |units|
    ensures Shaped(Flatten(UnitPieces(units, h)[..n]), UnitsSpecs(block, units, n))
    ensures h == [] ==> AllZero(Flatten(UnitPieces(units, h)[..n])) && RunUnits(units, n, h) == []
  {
    hide UnitStates, UnitSpecs, Shaped, AllZero, FullUnit;
    if n == 0 {
      EmptyShape();
    } else {
      UnitsShape(block, units, n - 1, h);
      UnitShape(block, n + 1, units[n - 1], RunUnits(units, n - 1, h));
      FlattenNext(UnitPieces(units, h), n - 1);
      ShapedAppend(Flatten(UnitPieces(units, h)[..n - 1]), UnitsSpecs(block, units, n - 1),
                   UnitStates(units[n - 1], RunUnits(units, n - 1, h)), UnitSpecs(block, n + 1, units[n - 1]));
    }
  }

  lemma EmptyShape()
    ensures Shaped([], []) && AllZero([])
  {}

  lemma BlockShape(index: nat, b: Block, h: Signal)
    requires ExportBlock(b)
    ensures Shaped(BlockStates(b, h), BlockSpecs(index, b))
    ensures h == [] ==> AllZero(BlockStates(b, h)) && FullBlock(b, h) == []
  {
    hide ConvStates, ConvSpecs, TConvStates, TConvSpecs, Shaped, AllZero, FullTConv;
    match b
    case ConvBlock(c) => ConvShape(DecoderConv(index), c, h);
    case Snake(_) => EmptyShape();
    case Stage(act, t, units) =>
      var x := Map(act, h);
      TConvShape(DecoderPending(index), t, x);
      UnitsShape(index, units, |units|, FullTConv(t, x));
      var pieces := UnitPieces(units, FullTConv(t, x));
      assert pieces[..|units|] == pieces;
      ShapedAppend(TConvStates(t, x), TConvSpecs(DecoderPending(index), t),
                   Flatten(pieces), UnitsSpecs(index, units, |units|));
  }

  lemma {:induction false} DecoderShape(blocks: seq<Block>, n: nat, h: Signal)
    requires n <= |blocks| && forall i | 0 <= i < |blocks| :: ExportBlock(blocks[i])
    ensures Shaped(Flatten(BlockPieces(blocks, h)[..n]), DecoderSpecs(blocks, n))
    ensures h == [] ==> AllZero(Flatten(BlockPieces(blocks, h)[..n])) && RunDecoder(blocks, n, h) == []
  {
    hide BlockStates, BlockSpecs, Shaped, AllZero, FullBlock, ExportBlock;
    if n == 0 {
      EmptyShape();
    } else {
      DecoderShape(blocks, n - 1, h);
      BlockShape(n - 1, blocks[n - 1], RunDecoder(blocks, n - 1, h));
      FlattenNext(BlockPieces(blocks, h), n - 1);
      ShapedAppend(Flatten(BlockPieces(blocks, h)[..n - 1]), DecoderSpecs(blocks, n - 1),
                   BlockStates(blocks[n - 1], RunDecoder(blocks, n - 1, h)), BlockSpecs(n - 1, blocks[n - 1]));
    }
  }

  lemma StageShape(i: nat, s: UpStage, h: Signal)
    requires ExportTConv(s.tconv)
    ensures Shaped(StageStates(s, h), TConvSpecs(UpPending(i), s.tconv) + ConvSpecs(UpDepthwise(i), s.dwconv))
    ensures h == [] ==> AllZero(StageStates(s, h)) && FullConvNext(s, FullTConv(s.tconv, h)) == []
  {
    hide ConvStates, ConvSpecs, TConvStates, TConvSpecs, Shaped, AllZero, FullTConv;
    TConvShape(UpPending(i), s.tconv, h);
    ConvShape(UpDepthwise(i), s.dwconv, FullTConv(s.tconv, h));
    ShapedAppend(TConvStates(s.tconv, h), TConvSpecs(UpPending(i), s.tconv),
                 ConvStates(s.dwconv, FullTConv(s.tconv, h)), ConvSpecs(UpDepthwise(i), s.dwconv));
  }

  lemma {:induction false} UpShape(stages: seq<UpStage>, n: nat, h: Signal)
    requires n <= |stages| && forall i | 0 <= i < |stages| :: ExportTConv(stages[i].tconv)
    ensures Shaped(Flatten(StagePieces(stages, h)[..n]), UpSpecs(stages, n))
    ensures h == [] ==> AllZero(Flatten(StagePieces(stages, h)[..n])) && RunUpsample(stages, n, h) == []
  {
    hide StageStates, ConvSpecs, TConvSpecs, Shaped, AllZero, FullConvNext, FullTConv, ExportTConv;
    if n == 0 {
      EmptyShape();
    } else {
      UpShape(stages, n - 1, h);
      StageShape(n - 1, stages[n - 1], RunUpsample(stages, n - 1, h));
      FlattenNext(StagePieces(stages, h), n - 1);
      ShapedAppend(Flatten(StagePieces(stages, h)[..n - 1]), UpSpecs(stages, n - 1),
                   StageStates(stages[n - 1], RunUpsample(stages, n - 1, h)),
                   TConvSpecs(UpPending(n - 1), stages[n - 1].tconv) +
                   ConvSpecs(UpDepthwise(n - 1), stages[n - 1].dwconv));
    }
  }

  function LayerPair(i: nat, keep: nat): seq<StateSpec> {
    [StateSpec(AttnK(i), keep), StateSpec(AttnV(i), keep)]
  }

  lemma LayerShape(l: Layer, i: nat, h: Signal)
    ensures Shaped(LayerStates(l, h), LayerPair(i, Keep(l.attn)))
    ensures h == [] ==> AllZero(LayerStates(l, h))
  {
    KeyStateStart(l.attn);
  }

  lemma LayerPieceAt(layers: seq<Layer>, h: Signal, i: nat)
    requires i < |layers|
    ensures LayerPieces(layers, h)[i] == LayerStates(layers[i], RunLayers(layers, i, h))
  {}

  lemma {:induction false} LayersShape(layers: seq<Layer>, window: nat, n: nat, h: Signal)
    requires n <= |layers| && window >= 1 && forall i | 0 <= i < |layers| :: layers[i].attn.window == window
    ensures Shaped(Flatten(LayerPieces(layers, h)[..n]), LayerSpecs(n, window - 1))
    ensures h == [] ==> AllZero(Flatten(LayerPieces(layers, h)[..n]))
  {
    hide LayerStates, Shaped, AllZero, LayerPieces, LayerPair, FullLayer, Flatten;
    if n == 0 {
      EmptyShape();
      FlattenNone(LayerPieces(layers, h));
    } else {
      LayersShape(layers, window, n - 1, h);
      var l, x := layers[n - 1], RunLayers(layers, n - 1, h);
      LayerShape(l, n - 1, x);
      LayerPieceAt(layers, h, n - 1);
      FlattenNext(LayerPieces(layers, h), n - 1);
      ShapedAppend(Flatten(LayerPieces(layers, h)[..n - 1]), LayerSpecs(n - 1, window - 1),
                   LayerStates(l, x), LayerPair(n - 1, window - 1));
    }
  }

  /** After every history the list has exactly the published sizes, tensor by tensor. */
  lemma StatesFitSpecs(m: Exported, codes: seq<Frame>)
    requires ValidExport(m)
    ensures Shaped(StatesOf(m, codes), SpecsOf(m))
    ensures codes == [] ==> AllZero(StatesOf(m, codes))
  {
    hide Shaped, AllZero, LayerPieces, StagePieces, BlockPieces, Flatten, ConvSpecs, ExportTConv, ExportBlock;
    var a, b := LayerPieces(m.layers, LayerInput(m, codes)), StagePieces(m.upsample, PreOut(m, codes));
    var c := BlockPieces(m.decoder, UpOut(m, codes));
    LayersShape(m.layers, m.window, |m.layers|, LayerInput(m, codes));
    UpShape(m.upsample, |m.upsample|, PreOut(m, codes));
    DecoderShape(m.decoder, |m.decoder|, UpOut(m, codes));
    assert a[..|a|] == a && b[..|b|] == b && c[..|c|] == c;
    PreConvShape(m.preConv, Latent(m, codes));
    ShapedAppend(Flatten(b), UpSpecs(m.upsample, |m.upsample|), Flatten(c), DecoderSpecs(m.decoder, |m.decoder|));
    ShapedAppend([History(m.preConv, Latent(m, codes))], ConvSpecs(PreConvState, m.preConv),
                 Flatten(b) + Flatten(c), UpSpecs(m.upsample, |m.upsample|) + DecoderSpecs(m.decoder, |m.decoder|));
    ShapedAppend(Flatten(a), LayerSpecs(|m.layers|, m.window - 1),
                 [History(m.preConv, Latent(m, codes))] + (Flatten(b) + Flatten(c)),
                 ConvSpecs(PreConvState, m.preConv) +
                 (UpSpecs(m.upsample, |m.upsample|) + DecoderSpecs(m.decoder, |m.decoder|)));
  }

  lemma PreConvShape(c: Conv, h: Signal)
    requires Padding(c) > 0
    ensures Shaped([History(c, h)], ConvSpecs(PreConvState, c))
    ensures h == [] ==> AllZero([History(c, h)])
  {
    ConvStart(c);
  }

  /** initial_states. */
  function InitialStates(specs: seq<StateSpec>): (s: States)
    ensures |s| == |specs| && forall i | 0 <= i < |s| :: s[i] == Zeros(specs[i].size)
  {
    seq(|specs|, i requires 0 <= i < |specs| => Zeros(specs[i].size))
  }

  /** Starting from zeros is starting from the empty history. */
  lemma InitialStatesCorrect(m: Exported)
    requires ValidExport(m)
    ensures InitialStates(SpecsOf(m)) == StatesOf(m, [])
  {
    hide SpecsOf, StatesOf;
    StatesFitSpecs(m, []);
    var a, b := InitialStates(SpecsOf(m)), StatesOf(m, []);
    assert |a| == |b|;
    forall i | 0 <= i < |a| ensures a[i] == b[i] {
    }
  }

  lemma {:induction false} LayerSpecCount(n: nat, keep: nat)
    ensures |LayerSpecs(n, keep)| == 2 * n
  {
    if n > 0 { LayerSpecCount(n - 1, keep); }
  }
}

/**
 StatefulCode2WavModule: one chunk in, one chunk out, all layer state passed through a flat list of
 fixed-size tensors. `StatesOf` says independently what that list must be after any input history;
 `Forward` is proved to take the list for h to the list for h + part, in the same order, while
 emitting exactly the samples of the full pass that the chunk adds.
 */
module Code2WavExport {
  import opened Signals
  import opened ConvLayers
  import opened TransposedConv
  import opened Attention
  import opened ExportSteps
  import opened Code2WavReference

  datatype Exported = Exported(decode: Frame -> real, preConv: Conv, window: nat, inputProj: real -> real,
                               layers: seq<Layer>, outputProj: real -> real,
                               upsample: seq<UpStage>, decoder: seq<Block>)

  ghost predicate ExportBlock(b: Block) {
    match b
    case ConvBlock(c) => ValidConv(c)
    case Stage(_, t, units) => ExportTConv(t) && forall i | 0 <= i < |units| :: ValidUnit(units[i])
    case Snake(_) => true
  }

  ghost predicate ValidExport(m: Exported) {
    && ValidConv(m.preConv) && Padding(m.preConv) > 0
    && m.window >= 2
    && (forall i | 0 <= i < |m.layers| :: m.layers[i].attn.window == m.window)
    && (forall i | 0 <= i < |m.upsample| :: ExportTConv(m.upsample[i].tconv) && ValidConv(m.upsample[i].dwconv))
    && (forall i | 0 <= i < |m.decoder| :: ExportBlock(m.decoder[i]))
  }

  // ---- the state list ----

  type States = seq<Signal>

  ghost function Flatten(pieces: seq<States>): States {
    if pieces == [] then [] else Flatten(pieces[..|pieces| - 1]) + pieces[|pieces| - 1]
  }

  /** X stands at the cursor. */
  ghost predicate Starts(states: States, cursor: nat, x: States) {
    cursor + |x| <= |states| && states[cursor..cursor + |x|] == x
  }

  lemma StartsSplit(states: States, cursor: nat, x: States, y: States)
    requires Starts(states, cursor, x + y)
    ensures Starts(states, cursor, x) && Starts(states, cursor + |x|, y)
  {
    var all := states[cursor..cursor + |x + y|];
    assert states[cursor..cursor + |x|] == all[..|x|];
    assert states[cursor + |x|..cursor + |x| + |y|] == all[|x|..];
  }

  /** Piece i of a flattened list stands after the pieces before it. */
  lemma {:induction false} StartsPiece(states: States, cursor: nat, pieces: seq<States>, i: nat)
    requires Starts(states, cursor, Flatten(pieces)) && i < |pieces|
    ensures Starts(states, cursor + |Flatten(pieces[..i])|, pieces[i])
    ensures Flatten(pieces[..i + 1]) == Flatten(pieces[..i]) + pieces[i]
    decreases |pieces|
  {
    var front := pieces[..|pieces| - 1];
    StartsSplit(states, cursor, Flatten(front), pieces[|pieces| - 1]);
    assert pieces[..i + 1][..i] == pieces[..i];
    if i < |pieces| - 1 {
      StartsPiece(states, cursor, front, i);
      assert front[..i] == pieces[..i];
    }
  }

  ghost function ConvStates(c: Conv, h: Signal): States {
    if Padding(c) == 0 then [] else [History(c, h)]
  }

  ghost function TConvStates(t: TConv, h: Signal): States
    requires ExportTConv(t)
  {
    if t.rightPad == 0 then [] else [Pending(t, h)]
  }

  ghost function LayerStates(l: Layer, h: Signal): States {
    [KeyState(l.attn, Map(l.norm, h)), ValueState(l.attn, Map(l.norm, h))]
  }

  ghost function LayerPieces(layers: seq<Layer>, h: Signal): (p: seq<States>)
    ensures |p| == |layers|
  {
    seq(|layers|, i requires 0 <= i < |layers| => LayerStates(layers[i], RunLayers(layers, i, h)))
  }

  ghost function UnitStates(u: ResUnit, h: Signal): States {
    var x := Map(u.act1, h);
    ConvStates(u.conv1, x) + ConvStates(u.conv2, Map(u.act2, FullConv(u.conv1, x)))
  }

  ghost function UnitPieces(units: seq<ResUnit>, h: Signal): (p: seq<States>)
    ensures |p| == |units|
  {
    seq(|units|, i requires 0 <= i < |units| => UnitStates(units[i], RunUnits(units, i, h)))
  }

  ghost function BlockStates(b: Block, h: Signal): States
    requires ExportBlock(b)
  {
    match b
    case ConvBlock(c) => ConvStates(c, h)
    case Stage(act, t, units) =>
      var x := Map(act, h);
      TConvStates(t, x) + Flatten(UnitPieces(units, FullTConv(t, x)))
    case Snake(_) => []
  }

  ghost function BlockPieces(blocks: seq<Block>, h: Signal): (p: seq<States>)
    requires forall i | 0 <= i < |blocks| :: ExportBlock(blocks[i])
    ensures |p| == |blocks|
  {
    seq(|blocks|, i requires 0 <= i < |blocks| => BlockStates(blocks[i], RunDecoder(blocks, i, h)))
  }

  ghost function StageStates(s: UpStage, h: Signal): States
    requires ExportTConv(s.tconv)
  {
    TConvStates(s.tconv, h) + ConvStates(s.dwconv, FullTConv(s.tconv, h))
  }

  ghost function StagePieces(stages: seq<UpStage>, h: Signal): (p: seq<States>)
    requires forall i | 0 <= i < |stages| :: ExportTConv(stages[i].tconv)
    ensures |p| == |stages|
  {
    seq(|stages|, i requires 0 <= i < |stages| => StageStates(stages[i], RunUpsample(stages, i, h)))
  }

  // ---- one full pass, and the list of states it leaves ----

  ghost function Latent(m: Exported, codes: seq<Frame>): Signal {
    Embed(m.decode, codes)
  }

  ghost function LayerInput(m: Exported, codes: seq<Frame>): Signal {
    Map(m.inputProj, FullConv(m.preConv, Latent(m, codes)))
  }

  ghost function PreOut(m: Exported, codes: seq<Frame>): Signal {
    Map(m.outputProj, RunLayers(m.layers, |m.layers|, LayerInput(m, codes)))
  }

  ghost function UpOut(m: Exported, codes: seq<Frame>): Signal {
    RunUpsample(m.upsample, |m.upsample|, PreOut(m, codes))
  }

  /** model(codes). */
  ghost function ExportPass(m: Exported, codes: seq<Frame>): Signal {
    Map(Clamp, RunDecoder(m.decoder, |m.decoder|, UpOut(m, codes)))
  }

  /** The state list after the frames `codes`, in the order of _build_state_specs. */
  ghost function StatesOf(m: Exported, codes: seq<Frame>): States
    requires ValidExport(m)
  {
    Flatten(LayerPieces(m.layers, LayerInput(m, codes)))
    + ([History(m.preConv, Latent(m, codes))]
       + (Flatten(StagePieces(m.upsample, PreOut(m, codes)))
          + Flatten(BlockPieces(m.decoder, UpOut(m, codes)))))
  }

  // ---- forward, step by step ----

  /** A causal convolution with or without a state slot. */
  method ConvForward(c: Conv, x: Signal, states: States, cursor: nat, outputs: States, ghost h: Signal)
    returns (y: Signal, cursor': nat, outputs': States)
    requires ValidConv(c) && Starts(states, cursor, ConvStates(c, h))
    ensures FullConv(c, h + x) == FullConv(c, h) + y && |y| == |x|
    ensures cursor' == cursor + |ConvStates(c, h)|
    ensures outputs' == outputs + ConvStates(c, h + x)
  {
    ExportConvStepCorrect(c, h, x);
    if Padding(c) == 0 {
      y, cursor', outputs' := ConvOf(c, x), cursor, outputs;
    } else {
      var state := states[cursor];
      assert state == states[cursor..cursor + 1][0];
      var (out, next) := ExportConvStep(c, x, state);
      y, cursor', outputs' := out, cursor + 1, outputs + [next];
    }
  }

  /** A transposed convolution with or without a pending buffer. */
  method TConvForward(t: TConv, x: Signal, states: States, cursor: nat, outputs: States, ghost h: Signal)
    returns (y: Signal, cursor': nat, outputs': States)
    requires ExportTConv(t) && x != [] && Starts(states, cursor, TConvStates(t, h))
    ensures FullTConv(t, h + x) == FullTConv(t, h) + y && y != []
    ensures cursor' == cursor + |TConvStates(t, h)|
    ensures outputs' == outputs + TConvStates(t, h + x)
  {
    ExportTConvStepCorrect(t, h, x);
    ExportNonEmpty(t, h, x);
    if t.rightPad == 0 {
      assert Pending(t, h) == [];
      var (out, _) := ExportTConvStep(t, x, []);
      y, cursor', outputs' := out, cursor, outputs;
    } else {
      var pending := states[cursor];
      assert pending == states[cursor..cursor + 1][0];
      var (out, next) := ExportTConvStep(t, x, pending);
      y, cursor', outputs' := out, cursor + 1, outputs + [next];
    }
  }

  lemma ExportNonEmpty(t: TConv, h: Signal, x: Signal)
    requires ExportTConv(t) && x != []
    ensures |FullTConv(t, h + x)| > |FullTConv(t, h)|
  {
    FullIsEmitted(t, h + x);
    FullIsEmitted(t, h);
    assert |h + x| * t.stride == |h| * t.stride + |x| * t.stride;
    assert |x| * t.stride >= 1 * t.stride;
  }

  lemma ResidualExtends(f: Signal, f': Signal, g: Signal, y: Signal, z: Signal)
    requires |f| == |g| && |y| == |z| && f' == g + z
    ensures Map2(Plus, f + y, f') == Map2(Plus, f, g) + Map2(Plus, y, z)
  {
    Map2Split(Plus, f, y, g, z);
  }

  /** _convnext_step after its transposed convolution: one upsampling stage. */
  method StageForward(s: UpStage, x: Signal, states: States, cursor: nat, outputs: States, ghost h: Signal)
    returns (y: Signal, cursor': nat, outputs': States)
    requires ExportTConv(s.tconv) && ValidConv(s.dwconv) && x != []
    requires Starts(states, cursor, StageStates(s, h))
    ensures FullConvNext(s, FullTConv(s.tconv, h + x)) == FullConvNext(s, FullTConv(s.tconv, h)) + y && y != []
    ensures cursor' == cursor + |StageStates(s, h)|
    ensures outputs' == outputs + StageStates(s, h + x)
  {
    hide TConvStates, ConvStates, Starts, ExportTConv, FullTConv, FullConv;
    StartsSplit(states, cursor, TConvStates(s.tconv, h), ConvStates(s.dwconv, FullTConv(s.tconv, h)));
    var hidden;
    hidden, cursor', outputs' := TConvForward(s.tconv, x, states, cursor, outputs, h);
    var conv;
    ghost var u := FullTConv(s.tconv, h);
    conv, cursor', outputs' := ConvForward(s.dwconv, hidden, states, cursor', outputs', u);
    MapSplit(s.g, FullConv(s.dwconv, u), conv);
    ResidualExtends(u, Map(s.g, FullConv(s.dwconv, u + hidden)), Map(s.g, FullConv(s.dwconv, u)), hidden,
      Map(s.g, conv));
    y := Map2(Plus, hidden, Map(s.g, conv));
    Assoc(outputs, TConvStates(s.tconv, h + x), ConvStates(s.dwconv, u + hidden));
  }

  lemma Assoc(a: States, b: States, c: States)
    ensures (a + b) + c == a + (b + c)
  {}

  /** _decoder_unit_step. */
  method UnitForward(u: ResUnit, x: Signal, states: States, cursor: nat, outputs: States, ghost h: Signal)
    returns (y: Signal, cursor': nat, outputs': States)
    requires ValidUnit(u) && x != []
    requires Starts(states, cursor, UnitStates(u, h))
    ensures FullUnit(u, h + x) == FullUnit(u, h) + y && y != []
    ensures cursor' == cursor + |UnitStates(u, h)|
    ensures outputs' == outputs + UnitStates(u, h + x)
  {
    hide ConvStates, Starts, FullConv;
    ghost var a := Map(u.act1, h);
    ghost var b := Map(u.act2, FullConv(u.conv1, a));
    StartsSplit(states, cursor, ConvStates(u.conv1, a), ConvStates(u.conv2, b));
    MapSplit(u.act1, h, x);
    var hidden := Map(u.act1, x);
    hidden, cursor', outputs' := ConvForward(u.conv1, hidden, states, cursor, outputs, a);
    MapSplit(u.act2, FullConv(u.conv1, a), hidden);
    ghost var b' := Map(u.act2, hidden);
    hidden := Map(u.act2, hidden);
    hidden, cursor', outputs' := ConvForward(u.conv2, hidden, states, cursor', outputs', b);
    ResidualExtends(h, FullConv(u.conv2, b + b'), FullConv(u.conv2, b), x, hidden);
    y := Map2(Plus, x, hidden);
    Assoc(outputs, ConvStates(u.conv1, Map(u.act1, h + x)), ConvStates(u.conv2, b + b'));
  }

  /** One decoder block. */
  method BlockForward(b: Block, x: Signal, states: States, cursor: nat, outputs: States, ghost h: Signal)
    returns (y: Signal, cursor': nat, outputs': States)
    requires ExportBlock(b) && x != []
    requires Starts(states, cursor, BlockStates(b, h))
    ensures FullBlock(b, h + x) == FullBlock(b, h) + y && y != []
    ensures cursor' == cursor + |BlockStates(b, h)|
    ensures outputs' == outputs + BlockStates(b, h + x)
  {
    match b
    case ConvBlock(c) =>
      y, cursor', outputs' := ConvForward(c, x, states, cursor, outputs, h);
    case Snake(f) =>
      MapSplit(f, h, x);
      y, cursor', outputs' := Map(f, x), cursor, outputs;
    case Stage(act, t, units) =>
      y, cursor', outputs' := DecoderStageForward(act, t, units, x, states, cursor, outputs, h);
  }

  method DecoderStageForward(act: real -> real, t: TConv, units: seq<ResUnit>, x: Signal,
                             states: States, cursor: nat, outputs: States, ghost h: Signal)
    returns (y: Signal, cursor': nat, outputs': States)
    requires ExportBlock(Stage(act, t, units)) && x != []
    requires Starts(states, cursor, BlockStates(Stage(act, t, units), h))
    ensures FullBlock(Stage(act, t, units), h + x) == FullBlock(Stage(act, t, units), h) + y && y != []
    ensures cursor' == cursor + |BlockStates(Stage(act, t, units), h)|
    ensures outputs' == outputs + BlockStates(Stage(act, t, units), h + x)
  {
    hide TConvStates, Starts, ExportTConv, FullTConv, UnitStates, UnitPieces, FullUnit, ValidUnit, Flatten;
    MapSplit(act, h, x);
    ghost var a := Map(act, h);
    ghost var u := FullTConv(t, a);
    StartsSplit(states, cursor, TConvStates(t, a), Flatten(UnitPieces(units, u)));
    y := Map(act, x);
    y, cursor', outputs' := TConvForward(t, y, states, cursor, outputs, a);
    ghost var part := y;
    ghost var c0, o0 := cursor', outputs';
    ghost var old_, new_ := UnitPieces(units, u), UnitPieces(units, u + part);
    FlattenNone(old_);
    FlattenNone(new_);
    for i := 0 to |units|
      invariant y != []
      invariant RunUnits(units, i, u + part) == RunUnits(units, i, u) + y
      invariant cursor' == c0 + |Flatten(old_[..i])|
      invariant outputs' == o0 + Flatten(new_[..i])
    {
      StartsPiece(states, c0, old_, i);
      FlattenNext(new_, i);
      UnitPieceAt(units, u, i);
      UnitPieceAt(units, u + part, i);
      Assoc(o0, Flatten(new_[..i]), new_[i]);
      y, cursor', outputs' := UnitForward(units[i], y, states, cursor', outputs', RunUnits(units, i, u));
    }
    assert old_[..|units|] == old_ && new_[..|units|] == new_;
    Assoc(outputs, TConvStates(t, Map(act, h + x)), Flatten(new_));
  }

  lemma FlattenNext(pieces: seq<States>, i: nat)
    requires i < |pieces|
    ensures Flatten(pieces[..i + 1]) == Flatten(pieces[..i]) + pieces[i]
  {
    assert pieces[..i + 1][..i] == pieces[..i];
  }

  /** One exported transformer layer. */
  method LayerForward(l: Layer, x: Signal, states: States, cursor: nat, outputs: States, off: nat, ghost h: Signal)
    returns (y: Signal, cursor': nat, outputs': States)
    requires l.attn.window >= 2 && off == |h|
    requires Starts(states, cursor, LayerStates(l, h))
    ensures FullLayer(l, h + x) == FullLayer(l, h) + y && |y| == |x|
    ensures cursor' == cursor + 2
    ensures outputs' == outputs + LayerStates(l, h + x)
  {
    var k, v := states[cursor], states[cursor + 1];
    assert states[cursor..cursor + 2] == [k, v];
    MapSplit(l.norm, h, x);
    ExportAttentionStepCorrect(l.attn, Map(l.norm, h), Map(l.norm, x));
    var (attn, k', v') := ExportAttentionStep(l.attn, Map(l.norm, x), k, v, off);
    Map2Split(l.join, h, x, FullAttn(l.attn, Map(l.norm, h)), attn);
    y := Map2(l.join, x, attn);
    cursor' := cursor + 2;
    outputs' := outputs + [k', v'];
  }

  /** _pre_transformer_step without its projections. */
  method LayersForward(layers: seq<Layer>, x: Signal, states: States, outputs: States, off: nat, ghost h: Signal)
    returns (y: Signal, outputs': States)
    requires off == |h| && forall i | 0 <= i < |layers| :: layers[i].attn.window >= 2
    requires Starts(states, 0, Flatten(LayerPieces(layers, h)))
    ensures RunLayers(layers, |layers|, h + x) == RunLayers(layers, |layers|, h) + y && |y| == |x|
    ensures outputs' == outputs + Flatten(LayerPieces(layers, h + x))
  {
    hide Starts, LayerStates, FullLayer;
    y := x;
    var cursor := 0;
    outputs' := outputs;
    ghost var old_, new_ := LayerPieces(layers, h), LayerPieces(layers, h + x);
    for i := 0 to |layers|
      invariant |y| == |x|
      invariant RunLayers(layers, i, h + x) == RunLayers(layers, i, h) + y
      invariant cursor == |Flatten(old_[..i])|
      invariant outputs' == outputs + Flatten(new_[..i])
    {
      StartsPiece(states, 0, old_, i);
      FlattenNext(new_, i);
      Assoc(outputs, Flatten(new_[..i]), new_[i]);
      LayerSize(layers[i], RunLayers(layers, i, h));
      y, cursor, outputs' := LayerForward(layers[i], y, states, cursor, outputs', off, RunLayers(layers, i, h));
    }
    assert old_[..|layers|] == old_ && new_[..|layers|] == new_;
  }

  lemma LayerSize(l: Layer, h: Signal)
    ensures |LayerStates(l, h)| == 2
  {}

  lemma {:induction false} PairsFlatten(pieces: seq<States>)
    requires forall i | 0 <= i < |pieces| :: |pieces[i]| == 2
    ensures |Flatten(pieces)| == 2 * |pieces|
  {
    if pieces != [] {
      PairsFlatten(pieces[..|pieces| - 1]);
    }
  }

  method UpsampleForward(stages: seq<UpStage>, x: Signal, states: States, cursor: nat, outputs: States, ghost h: Signal)
    returns (y: Signal, cursor': nat, outputs': States)
    requires forall i | 0 <= i < |stages| :: ExportTConv(stages[i].tconv) && ValidConv(stages[i].dwconv)
    requires x != [] && Starts(states, cursor, Flatten(StagePieces(stages, h)))
    ensures RunUpsample(stages, |stages|, h + x) == RunUpsample(stages, |stages|, h) + y && y != []
    ensures cursor' == cursor + |Flatten(StagePieces(stages, h))|
    ensures outputs' == outputs + Flatten(StagePieces(stages, h + x))
  {
    hide Starts, StageStates, StagePieces, FullTConv, FullConvNext, ExportTConv, Flatten;
    FlattenNone(StagePieces(stages, h));
    FlattenNone(StagePieces(stages, h + x));
    y, cursor', outputs' := x, cursor, outputs;
    ghost var old_, new_ := StagePieces(stages, h), StagePieces(stages, h + x);
    for i := 0 to |stages|
      invariant y != []
      invariant RunUpsample(stages, i, h + x) == RunUpsample(stages, i, h) + y
      invariant cursor' == cursor + |Flatten(old_[..i])|
      invariant outputs' == outputs + Flatten(new_[..i])
    {
      StartsPiece(states, cursor, old_, i);
      FlattenNext(new_, i);
      Assoc(outputs, Flatten(new_[..i]), new_[i]);
      StagePieceAt(stages, h, i);
      StagePieceAt(stages, h + x, i);
      y, cursor', outputs' := StageForward(stages[i], y, states, cursor', outputs', RunUpsample(stages, i, h));
    }
    assert old_[..|stages|] == old_ && new_[..|stages|] == new_;
  }

  lemma StagePieceAt(stages: seq<UpStage>, h: Signal, i: nat)
    requires forall j | 0 <= j < |stages| :: ExportTConv(stages[j].tconv)
    requires i < |stages|
    ensures StagePieces(stages, h)[i] == StageStates(stages[i], RunUpsample(stages, i, h))
  {}

  lemma UnitPieceAt(units: seq<ResUnit>, h: Signal, i: nat)
    requires i < |units|
    ensures UnitPieces(units, h)[i] == UnitStates(units[i], RunUnits(units, i, h))
  {}

  lemma FlattenNone(pieces: seq<States>)
    ensures Flatten(pieces[..0]) == []
  {}

  method DecoderForward(blocks: seq<Block>, x: Signal, states: States, cursor: nat, outputs: States, ghost h: Signal)
    returns (y: Signal, outputs': States)
    requires forall i | 0 <= i < |blocks| :: ExportBlock(blocks[i])
    requires x != [] && Starts(states, cursor, Flatten(BlockPieces(blocks, h)))
    ensures RunDecoder(blocks, |blocks|, h + x) == RunDecoder(blocks, |blocks|, h) + y && y != []
    ensures outputs' == outputs + Flatten(BlockPieces(blocks, h + x))
  {
    hide Starts, BlockStates, FullBlock, ExportBlock;
    var cursor' := cursor;
    y, outputs' := x, outputs;
    ghost var old_, new_ := BlockPieces(blocks, h), BlockPieces(blocks, h + x);
    for i := 0 to |blocks|
      invariant y != []
      invariant RunDecoder(blocks, i, h + x) == RunDecoder(blocks, i, h) + y
      invariant cursor' == cursor + |Flatten(old_[..i])|
      invariant outputs' == outputs + Flatten(new_[..i])
    {
      StartsPiece(states, cursor, old_, i);
      FlattenNext(new_, i);
      Assoc(outputs, Flatten(new_[..i]), new_[i]);
      y, cursor', outputs' := BlockForward(blocks[i], y, states, cursor', outputs', RunDecoder(blocks, i, h));
    }
    assert new_[..|blocks|] == new_;
  }

  /** Where the parts of the list stand: layers at 0, the pre-conv state after them, then the rest. */
  lemma Layout(m: Exported, states: States, codes: seq<Frame>)
    requires ValidExport(m) && states == StatesOf(m, codes)
    ensures var l := 2 * |m.layers|;
            && Starts(states, 0, Flatten(LayerPieces(m.layers, LayerInput(m, codes))))
            && l < |states| && states[l] == History(m.preConv, Latent(m, codes))
            && Starts(states, l + 1, Flatten(StagePieces(m.upsample, PreOut(m, codes))))
            && Starts(states, l + 1 + |Flatten(StagePieces(m.upsample, PreOut(m, codes)))|,
                      Flatten(BlockPieces(m.decoder, UpOut(m, codes))))
  {
    hide Starts, Flatten, History, Latent, LayerInput, PreOut, UpOut;
    var pieces := LayerPieces(m.layers, LayerInput(m, codes));
    LayerPieceSizes(m.layers, LayerInput(m, codes));
    PairsFlatten(pieces);
    LayoutOf(states, Flatten(pieces), History(m.preConv, Latent(m, codes)),
             Flatten(StagePieces(m.upsample, PreOut(m, codes))), Flatten(BlockPieces(m.decoder, UpOut(m, codes))));
  }

  lemma LayerPieceSizes(layers: seq<Layer>, h: Signal)
    ensures forall i | 0 <= i < |layers| :: |LayerPieces(layers, h)[i]| == 2
  {}

  lemma LayoutOf(states: States, a: States, b: Signal, c: States, d: States)
    requires states == a + ([b] + (c + d))
    ensures |a| < |states| && states[|a|] == b
    ensures Starts(states, 0, a) && Starts(states, |a| + 1, c) && Starts(states, |a| + 1 + |c|, d)
  {
    assert states[..|states|] == states;
    StartsSplit(states, 0, a, [b] + (c + d));
    StartsSplit(states, |a|, [b], c + d);
    StartsSplit(states, |a| + 1, c, d);
  }

  /** The front of forward: code latents, pre-conv (whose state stands after the layers'), transformer. */
  method PreForward(m: Exported, part: seq<Frame>, off: nat, states: States, ghost codes: seq<Frame>)
    returns (hidden: Signal, outputs: States)
    requires ValidExport(m) && part != [] && off == |codes|
    requires 2 * |m.layers| < |states| && states[2 * |m.layers|] == History(m.preConv, Latent(m, codes))
    requires Starts(states, 0, Flatten(LayerPieces(m.layers, LayerInput(m, codes))))
    ensures PreOut(m, codes + part) == PreOut(m, codes) + hidden && hidden != []
    ensures outputs == Flatten(LayerPieces(m.layers, LayerInput(m, codes + part)))
                       + [History(m.preConv, Latent(m, codes + part))]
  {
    hide Starts, FullConv, LayerPieces, Flatten, RunLayers;
    EmbedSplit(m.decode, codes, part);
    var latent := Embed(m.decode, part);
    ghost var before := Latent(m, codes);
    ExportConvStepCorrect(m.preConv, before, latent);
    var (conv, preState) := ExportConvStep(m.preConv, latent, states[2 * |m.layers|]);
    MapSplit(m.inputProj, FullConv(m.preConv, before), conv);
    var pre, preOutputs := LayersForward(m.layers, Map(m.inputProj, conv), states, [], off, LayerInput(m, codes));
    MapSplit(m.outputProj, RunLayers(m.layers, |m.layers|, LayerInput(m, codes)), pre);
    outputs := preOutputs + [preState];
    hidden := Map(m.outputProj, pre);
  }

  /**
   forward. From the state list of any history, with the position offset of that history, one chunk
   gives exactly the samples it adds to the full pass, and the state list of the longer history.
   */
  method Forward(m: Exported, part: seq<Frame>, off: nat, states: States, ghost codes: seq<Frame>)
    returns (wave: Signal, outputs: States)
    requires ValidExport(m) && part != []
    requires states == StatesOf(m, codes) && off == |codes|
    ensures ExportPass(m, codes + part) == ExportPass(m, codes) + wave && wave != []
    ensures outputs == StatesOf(m, codes + part)
  {
    hide Starts, BlockPieces, StagePieces, LayerPieces, Flatten, PreOut, RunUpsample, RunDecoder, Latent, LayerInput,
         ExportTConv, ExportBlock, History, Map;
    Layout(m, states, codes);
    var hidden;
    hidden, outputs := PreForward(m, part, off, states, codes);
    var cursor := 2 * |m.layers| + 1;
    var up, dec;
    up, cursor, outputs := UpsampleForward(m.upsample, hidden, states, cursor, outputs, PreOut(m, codes));
    assert UpOut(m, codes + part) == UpOut(m, codes) + up;
    dec, outputs := DecoderForward(m.decoder, up, states, cursor, outputs, UpOut(m, codes));
    MapSplit(Clamp, RunDecoder(m.decoder, |m.decoder|, UpOut(m, codes)), dec);
    wave := Map(Clamp, dec);
    Reassemble(Flatten(LayerPieces(m.layers, LayerInput(m, codes + part))),
               [History(m.preConv, Latent(m, codes + part))],
               Flatten(StagePieces(m.upsample, PreOut(m, codes + part))),
               Flatten(BlockPieces(m.decoder, UpOut(m, codes + part))));
  }

  lemma Reassemble(a: States, b: States, c: States, d: States)
    ensures ((a + b) + c) + d == a + (b + (c + d))
  {}
}

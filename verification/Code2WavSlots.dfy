/**
 The cursor of forward: which module takes which tensor of the list it is given, and in which order the
 new states come back, for any module and a list of any length. The published list is that of
 _build_state_specs, which leaves the pre-conv out when it has no padding, while forward takes and
 returns a pre-conv tensor always.
 */
module Code2WavSlots {
  import opened ConvLayers
  import opened TransposedConv
  import opened Code2WavReference
  import opened Code2WavExport
  import opened Code2WavSpecs

  /** Progress of one call: ok is false once a take has run off the list, which raises. */
  datatype Walk = Walk(ok: bool, cursor: nat, taken: map<nat, StateName>, returned: seq<StateName>)

  function Names(specs: seq<StateSpec>): (names: seq<StateName>)
    ensures |names| == |specs| && forall i | 0 <= i < |names| :: names[i] == specs[i].name
  {
    seq(|specs|, i requires 0 <= i < |specs| => specs[i].name)
  }

  lemma NamesAppend(a: seq<StateSpec>, b: seq<StateSpec>)
    ensures Names(a + b) == Names(a) + Names(b)
  {}

  /** Every module has the tensor at its own place. */
  function Own(names: seq<StateName>): (m: map<nat, StateName>)
    ensures forall k :: k in m <==> 0 <= k < |names|
    ensures forall k | k in m :: m[k] == names[k]
  {
    map k: nat | k < |names| :: names[k]
  }

  /** _take for one module, and its new state appended. */
  function Take(w: Walk, count: nat, name: StateName): Walk {
    if !w.ok then w
    else if w.cursor >= count then w.(ok := false)
    else Walk(true, w.cursor + 1, w.taken[w.cursor := name], w.returned + [name])
  }

  /** So far exactly the modules `names` have taken the first tensors, each its own; or the list was shorter. */
  ghost predicate Walked(w: Walk, count: nat, names: seq<StateName>) {
    if w.ok then w.returned == names && w.cursor == |names| <= count && w.taken == Own(names)
    else count < |names|
  }

  lemma TakeWalks(w: Walk, count: nat, names: seq<StateName>, name: StateName)
    requires Walked(w, count, names)
    ensures Walked(Take(w, count, name), count, names + [name])
  {
    if w.ok && w.cursor < count {
      assert Own(names)[|names| := name] == Own(names + [name]);
    }
  }

  /** A causal convolution takes a tensor if it has padding. */
  method TakeConv(w: Walk, count: nat, name: StateName, c: Conv, ghost names: seq<StateName>) returns (w': Walk)
    requires Walked(w, count, names)
    ensures Walked(w', count, names + Names(ConvSpecs(name, c)))
  {
    w' := w;
    assert names + [] == names;
    if Padding(c) != 0 {
      assert Names(ConvSpecs(name, c)) == [name];
      TakeWalks(w, count, names, name);
      w' := Take(w, count, name);
    }
  }

  /** A transposed convolution takes one if it trims on the right. */
  method TakeTConv(w: Walk, count: nat, name: StateName, t: TConv, ghost names: seq<StateName>) returns (w': Walk)
    requires Walked(w, count, names)
    ensures Walked(w', count, names + Names(TConvSpecs(name, t)))
  {
    w' := w;
    assert names + [] == names;
    if t.rightPad != 0 {
      assert Names(TConvSpecs(name, t)) == [name];
      TakeWalks(w, count, names, name);
      w' := Take(w, count, name);
    }
  }

  /** Adding a module's names to a list built up of spec lists. */
  lemma Behind(names: seq<StateName>, a: seq<StateSpec>, b: seq<StateSpec>)
    ensures (names + Names(a)) + Names(b) == names + Names(a + b)
  {}

  method TakeUnits(w: Walk, count: nat, block: nat, units: seq<ResUnit>, ghost names: seq<StateName>) returns (w': Walk)
    requires Walked(w, count, names)
    ensures Walked(w', count, names + Names(UnitsSpecs(block, units, |units|)))
  {
    hide Walked, ConvSpecs;
    w' := w;
    assert names + Names([]) == names;
    for j := 0 to |units|
      invariant Walked(w', count, names + Names(UnitsSpecs(block, units, j)))
    {
      ghost var sofar := UnitsSpecs(block, units, j);
      ghost var one, two := ConvSpecs(UnitConv1(block, j + 2), units[j].conv1),
                            ConvSpecs(UnitConv2(block, j + 2), units[j].conv2);
      w' := TakeConv(w', count, UnitConv1(block, j + 2), units[j].conv1, names + Names(sofar));
      Behind(names, sofar, one);
      w' := TakeConv(w', count, UnitConv2(block, j + 2), units[j].conv2, names + Names(sofar + one));
      Behind(names, sofar + one, two);
      SpecAssoc(sofar, one, two);
    }
  }

  method TakeBlock(w: Walk, count: nat, index: nat, b: Block, ghost names: seq<StateName>) returns (w': Walk)
    requires Walked(w, count, names)
    ensures Walked(w', count, names + Names(BlockSpecs(index, b)))
  {
    hide Walked, ConvSpecs, TConvSpecs, UnitsSpecs;
    match b
    case ConvBlock(c) => w' := TakeConv(w, count, DecoderConv(index), c, names);
    case Stage(_, t, units) =>
      w' := TakeTConv(w, count, DecoderPending(index), t, names);
      w' := TakeUnits(w', count, index, units, names + Names(TConvSpecs(DecoderPending(index), t)));
      Behind(names, TConvSpecs(DecoderPending(index), t), UnitsSpecs(index, units, |units|));
    case Snake(_) =>
      w' := w;
      assert names + Names([]) == names;
  }

  /** All tensors forward takes, in list order: as published, but always with a pre-conv tensor. */
  function Taken(m: Exported): seq<StateSpec> {
    LayerSpecs(|m.layers|, if m.window >= 1 then m.window - 1 else 0)
    + ([StateSpec(PreConvState, Padding(m.preConv))]
       + (UpSpecs(m.upsample, |m.upsample|) + DecoderSpecs(m.decoder, |m.decoder|)))
  }

  /** The transformer layers take theirs from the front, while the pre-conv already holds the one behind them. */
  method TakeLayers(m: Exported, count: nat) returns (w: Walk)
    requires 2 * |m.layers| < count
    ensures w.ok && w.returned == Names(LayerSpecs(|m.layers|, if m.window >= 1 then m.window - 1 else 0))
    ensures w.cursor == 2 * |m.layers| == |w.returned|
    ensures w.taken == Own(w.returned)[2 * |m.layers| := PreConvState]
  {
    var keep := if m.window >= 1 then m.window - 1 else 0;
    var behind := 2 * |m.layers|;
    w := Walk(true, 0, map[behind := PreConvState], []);
    assert Own([]) == map[];
    for i := 0 to |m.layers|
      invariant w.ok && w.cursor == 2 * i && w.returned == Names(LayerSpecs(i, keep)) && |w.returned| == 2 * i
      invariant w.taken == Own(w.returned)[behind := PreConvState]
    {
      hide LayerSpecs, Names, Own, Take;
      TakeFront(w, count, AttnK(i), behind);
      w := Take(w, count, AttnK(i));
      TakeFront(w, count, AttnV(i), behind);
      w := Take(w, count, AttnV(i));
      LayerNames(i, keep);
    }
  }

  lemma LayerNames(i: nat, keep: nat)
    ensures Names(LayerSpecs(i + 1, keep)) == Names(LayerSpecs(i, keep)) + [AttnK(i)] + [AttnV(i)]
  {
    NamesAppend(LayerSpecs(i, keep), LayerPair(i, keep));
    assert Names(LayerPair(i, keep)) == [AttnK(i), AttnV(i)];
  }

  /** A take in front of the tensor the pre-conv holds. */
  lemma TakeFront(w: Walk, count: nat, name: StateName, behind: nat)
    requires w.ok && w.cursor == |w.returned| < behind < count && w.taken == Own(w.returned)[behind := PreConvState]
    ensures var w' := Take(w, count, name);
            && w'.ok && w'.cursor == w.cursor + 1 && w'.returned == w.returned + [name]
            && w'.taken == Own(w'.returned)[behind := PreConvState]
  {
    OwnNext(w.returned, name, behind);
  }

  lemma OwnNext(names: seq<StateName>, name: StateName, behind: nat)
    requires |names| < behind
    ensures Own(names)[behind := PreConvState][|names| := name] == Own(names + [name])[behind := PreConvState]
  {}

  /** forward's bookkeeping on a list of `count` tensors. */
  method ForwardSlots(m: Exported, count: nat) returns (w: Walk)
    ensures w.ok <==> |Taken(m)| <= count
    ensures w.ok ==> w.taken == Own(Names(Taken(m))) && w.returned == Names(Taken(m))
  {
    hide Walked, ConvSpecs, TConvSpecs, BlockSpecs;
    ghost var layers := LayerSpecs(|m.layers|, if m.window >= 1 then m.window - 1 else 0);
    LayerSpecCount(|m.layers|, if m.window >= 1 then m.window - 1 else 0);
    ghost var pre := [StateSpec(PreConvState, Padding(m.preConv))];
    if count <= 2 * |m.layers| {
      return Walk(false, 0, map[], []);
    }
    w := TakeLayers(m, count);
    w := Walk(true, w.cursor + 1, w.taken, w.returned + [PreConvState]);
    ghost var front := Names(layers + pre);
    PreConvBehind(layers, pre, w, count);
    assert front + Names([]) == front;
    for i := 0 to |m.upsample|
      invariant Walked(w, count, front + Names(UpSpecs(m.upsample, i)))
    {
      ghost var sofar := UpSpecs(m.upsample, i);
      ghost var one, two := TConvSpecs(UpPending(i), m.upsample[i].tconv),
                            ConvSpecs(UpDepthwise(i), m.upsample[i].dwconv);
      w := TakeTConv(w, count, UpPending(i), m.upsample[i].tconv, front + Names(sofar));
      Behind(front, sofar, one);
      w := TakeConv(w, count, UpDepthwise(i), m.upsample[i].dwconv, front + Names(sofar + one));
      Behind(front, sofar + one, two);
      SpecAssoc(sofar, one, two);
    }
    ghost var up := UpSpecs(m.upsample, |m.upsample|);
    ghost var middle := front + Names(up);
    assert middle + Names([]) == middle;
    for i := 0 to |m.decoder|
      invariant Walked(w, count, middle + Names(DecoderSpecs(m.decoder, i)))
    {
      w := TakeBlock(w, count, i, m.decoder[i], middle + Names(DecoderSpecs(m.decoder, i)));
      Behind(middle, DecoderSpecs(m.decoder, i), BlockSpecs(i, m.decoder[i]));
    }
    ghost var dec := DecoderSpecs(m.decoder, |m.decoder|);
    Behind(front, up, dec);
    NamesAppend(layers + pre, up + dec);
    SpecAssoc(layers, pre, up + dec);
    Arrived(w, count, Names(Taken(m)));
  }

  lemma PreConvBehind(layers: seq<StateSpec>, pre: seq<StateSpec>, w: Walk, count: nat)
    requires |pre| == 1 && pre[0].name == PreConvState && |layers| < count
    requires w.ok && w.cursor == |layers| + 1 && w.returned == Names(layers) + [PreConvState]
    requires w.taken == Own(Names(layers))[|layers| := PreConvState]
    ensures Walked(w, count, Names(layers + pre))
  {
    NamesAppend(layers, pre);
    assert Names(pre) == [PreConvState];
  }

  lemma Arrived(w: Walk, count: nat, names: seq<StateName>)
    requires Walked(w, count, names)
    ensures w.ok <==> |names| <= count
    ensures w.ok ==> w.taken == Own(names) && w.returned == names
  {}

  /**
   Given the published list, forward gets through exactly when the pre-conv has padding; then every
   module takes the tensor published under its own name, each tensor once, and the new states come back
   in the published order. Without padding it runs off the end of the list.
   */
  method ForwardOnPublishedList(m: Exported) returns (w: Walk)
    ensures w.ok <==> Padding(m.preConv) > 0
    ensures w.ok ==> w.taken == Own(Names(SpecsOf(m))) && w.returned == Names(SpecsOf(m))
    ensures !w.ok ==> |Taken(m)| == |SpecsOf(m)| + 1
  {
    var specs := BuildStateSpecs(m);
    w := ForwardSlots(m, |specs|);
  }

  /** A module without pre-conv padding: a one-tap pre-conv, and nothing else. Its list is empty and forward raises. */
  method UnpaddedForward() returns (m: Exported, w: Walk)
    ensures Padding(m.preConv) == 0 && SpecsOf(m) == [] && !w.ok
  {
    m := Exported(f => 0.0, Conv([1.0], 1, 0.0), 2, v => v, [], v => v, [], []);
    w := ForwardOnPublishedList(m);
  }
}

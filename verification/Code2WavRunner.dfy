/**
 StatefulCode2WavRunner: two buffers per state tensor, of which the host calls one read and the other
 write, and the engine's own input and output bindings, which are moved only by setTensorAddress. The
 engine is any function of the frames, the final flag, the position offset and the bound input buffers; everything
 that can fail around it is an input. With an input bound to the same buffer as its output the
 engine promises nothing.
 */
module Code2WavRunner {
  import opened Signals
  import opened Code2WavReference
  import opened Code2WavExport
  import opened Code2WavSpecs

  /** One chunk as the engine gets it: its frames and the is_final flag, which an engine may ignore. */
  datatype Part = Part(frames: seq<Frame>, isFinal: bool)

  type Engine = (Part, nat, States) -> (Signal, States)

  datatype Outcome = Rejected | Produced(wave: Signal) | Threw | Cleared

  /**
   What happens around one call: `scribble` is what a failed inference leaves in its output buffers,
   `garbled` what an engine with aliased buffers gives, rebind(k) the two setTensorAddress results.
   */
  datatype Env = Env(
    reshapeOk: bool, scalarsOk: bool, inferOk: bool, scribble: States, garbled: (Signal, States),
    rebind: nat -> (bool, bool))

  /** A state's two buffers; a side names one of them. */
  datatype Pair = Pair(a: Signal, b: Signal)

  function At(p: Pair, side: bool): Signal {
    if side then p.b else p.a
  }

  function Put(p: Pair, side: bool, v: Signal): Pair {
    if side then p.(b := v) else p.(a := v)
  }

  /** Buffers, the host's choice of read side, the engine's bindings, and mPositionOffset. */
  datatype Rig = Rig(mem: seq<Pair>, read: seq<bool>, input: seq<bool>, output: seq<bool>, offset: nat)

  predicate Sized(g: Rig, n: nat) {
    |g.mem| == |g.read| == |g.input| == |g.output| == n
  }

  /** The engine returns one tensor for each state. */
  ghost predicate Regular(engine: Engine, n: nat) {
    forall part, off, states :: |engine(part, off, states).1| == n
  }

  /** The contents of the chosen sides. */
  function Sides(mem: seq<Pair>, which: seq<bool>): (s: States)
    requires |mem| == |which|
    ensures |s| == |mem| && forall k | 0 <= k < |s| :: s[k] == At(mem[k], which[k])
  {
    seq(|mem|, k requires 0 <= k < |mem| => At(mem[k], which[k]))
  }

  function Flip(which: seq<bool>): (r: seq<bool>)
    ensures |r| == |which| && forall k | 0 <= k < |r| :: r[k] == !which[k]
  {
    seq(|which|, k requires 0 <= k < |which| => !which[k])
  }

  /** New values put into the chosen sides; tensors that are not there leave a buffer alone. */
  function Stored(mem: seq<Pair>, which: seq<bool>, values: States): (r: seq<Pair>)
    requires |mem| == |which|
    ensures |r| == |mem|
    ensures forall k | 0 <= k < |r| :: r[k] == if k < |values| then Put(mem[k], which[k], values[k]) else mem[k]
  {
    seq(|mem|, k requires 0 <= k < |mem| => if k < |values| then Put(mem[k], which[k], values[k]) else mem[k])
  }

  /** The engine reads what the host calls read and writes what it calls write. */
  predicate Agreed(g: Rig) {
    |g.read| == |g.input| == |g.output| && forall k | 0 <= k < |g.read| :: AgreedAt(g, k)
  }

  predicate AgreedAt(g: Rig, k: nat)
    requires k < |g.read| && k < |g.input| && k < |g.output|
  {
    g.input[k] == g.read[k] && g.output[k] == !g.read[k]
  }

  predicate Aliased(g: Rig)
    requires |g.input| == |g.output|
  {
    exists k :: 0 <= k < |g.input| && g.input[k] == g.output[k]
  }

  // ---- what each operation does to the rig ----

  function ZerosOf(sizes: seq<nat>): (s: States)
    ensures |s| == |sizes| && forall k | 0 <= k < |s| :: s[k] == Zeros(sizes[k])
  {
    seq(|sizes|, k requires 0 <= k < |sizes| => Zeros(sizes[k]))
  }

  /** reset: both buffers of every state are zeroed, the offset too; no binding is touched. */
  function ResetRig(g: Rig, sizes: seq<nat>): Rig
    requires Sized(g, |sizes|)
  {
    g.(mem := seq(|sizes|, k requires 0 <= k < |sizes| => Pair(Zeros(sizes[k]), Zeros(sizes[k]))), offset := 0)
  }

  /** One turn of the swap loop: the host swaps, then each binding follows if its call succeeds. */
  function SwapAt(g: Rig, j: nat, rebind: (bool, bool)): Rig
    requires Sized(g, |g.mem|) && j < |g.mem|
  {
    var now := !g.read[j];
    g.(read := g.read[j := now],
       input := if rebind.0 then g.input[j := now] else g.input,
       output := if rebind.1 then g.output[j := !now] else g.output)
  }

  /** The swap loop from state j on; it stops at the first state with a failed call. */
  function SwapFrom(g: Rig, j: nat, rebind: nat -> (bool, bool)): (Rig, bool)
    requires Sized(g, |g.mem|)
    decreases |g.mem| - j
  {
    if j >= |g.mem| then (g, true)
    else if rebind(j) == (true, true) then SwapFrom(SwapAt(g, j, rebind(j)), j + 1, rebind)
    else (SwapAt(g, j, rebind(j)), false)
  }

  /** codes arrive as one row per quantizer; a frame is a column. */
  function FramesOf(codes: seq<seq<int>>): (f: seq<Frame>)
    requires codes != [] && forall i | 0 <= i < |codes| :: |codes[i]| == |codes[0]|
    ensures |f| == |codes[0]|
  {
    seq(|codes[0]|, t requires 0 <= t < |codes[0]| =>
      seq(|codes|, q requires 0 <= q < |codes| => codes[q][t]))
  }

  function PartOf(codes: seq<seq<int>>, isFinal: bool): (p: Part)
    requires codes != [] && forall i | 0 <= i < |codes| :: |codes[i]| == |codes[0]|
    ensures |p.frames| == |codes[0]|
  {
    Part(FramesOf(codes), isFinal)
  }

  /** prepareCodes' checks. */
  predicate Acceptable(codes: seq<seq<int>>, numQuantizers: nat) {
    codes != [] && codes[0] != [] && |codes| == numQuantizers && forall i | 0 <= i < |codes| :: |codes[i]| == |codes[0]|
  }

  function Computed(engine: Engine, g: Rig, part: Part, env: Env): (Signal, States)
    requires Sized(g, |g.mem|)
  {
    if Aliased(g) then env.garbled else engine(part, g.offset, Sides(g.mem, g.input))
  }

  /** generateChunk. */
  function ChunkRig(
    engine: Engine, numQuantizers: nat, maxWaveform: nat, g: Rig, codes: seq<seq<int>>, isFinal: bool, env: Env)
    : (Rig, Outcome)
    requires Sized(g, |g.mem|)
  {
    if !Acceptable(codes, numQuantizers) || !env.reshapeOk || !env.scalarsOk then (g, Rejected)
    else if !env.inferOk then (g.(mem := Stored(g.mem, g.output, env.scribble)), Rejected)
    else
      var (wave, outs) := Computed(engine, g, PartOf(codes, isFinal), env);
      var g1 := g.(mem := Stored(g.mem, g.output, outs));
      if |wave| > maxWaveform then (g1, Rejected)
      else
        var (g2, ok) := SwapFrom(g1.(offset := g1.offset + |codes[0]|), 0, env.rebind);
        (g2, if ok then Produced(wave) else Threw)
  }

  // ---- the runner ----

  class Runner {
    const engine: Engine
    const sizes: seq<nat>
    const numQuantizers: nat
    const maxWaveform: nat
    var mem: seq<Pair>
    var read: seq<bool>
    var input: seq<bool>
    var output: seq<bool>
    var positionOffset: nat

    function AsRig(): Rig
      reads this
    {
      Rig(mem, read, input, output, positionOffset)
    }

    /** Buffers allocated with any contents, bindings set, then reset. */
    constructor (engine: Engine, sizes: seq<nat>, numQuantizers: nat, maxWaveform: nat, contents: seq<Pair>)
      requires |contents| == |sizes|
      ensures this.engine == engine && this.sizes == sizes
      ensures this.numQuantizers == numQuantizers && this.maxWaveform == maxWaveform
      ensures Sized(AsRig(), |sizes|) && Agreed(AsRig()) && Fits(engine, sizes, AsRig(), [])
    {
      this.engine, this.sizes, this.numQuantizers, this.maxWaveform := engine, sizes, numQuantizers, maxWaveform;
      mem := contents;
      read := seq(|sizes|, k => false);
      input := seq(|sizes|, k => false);
      output := seq(|sizes|, k => true);
      positionOffset := 0;
      new;
      Reset();
      ResetFitsIff(engine, sizes, AsRig());
    }

    method Reset()
      requires Sized(AsRig(), |sizes|)
      modifies this
      ensures Sized(AsRig(), |sizes|) && AsRig() == ResetRig(old(AsRig()), sizes)
    {
      positionOffset := 0;
      for k := 0 to |mem|
        invariant |mem| == |sizes| && positionOffset == 0
        invariant read == old(read) && input == old(input) && output == old(output)
        invariant forall i | 0 <= i < k :: mem[i] == Pair(Zeros(sizes[i]), Zeros(sizes[i]))
      {
        mem := mem[k := Pair(Zeros(sizes[k]), Zeros(sizes[k]))];
      }
      assert mem == ResetRig(old(AsRig()), sizes).mem;
    }

    method SwapStateBuffers(rebind: nat -> (bool, bool)) returns (ok: bool)
      requires Sized(AsRig(), |mem|)
      modifies `read, `input, `output
      ensures Sized(AsRig(), |mem|) && (AsRig(), ok) == SwapFrom(old(AsRig()), 0, rebind)
    {
      for j := 0 to |mem|
        invariant Sized(AsRig(), |mem|) && SwapFrom(AsRig(), j, rebind) == SwapFrom(old(AsRig()), 0, rebind)
      {
        var (inOk, outOk) := rebind(j);
        read := read[j := !read[j]];
        if inOk { input := input[j := read[j]]; }
        if outOk { output := output[j := !read[j]]; }
        if !(inOk && outOk) { return false; }
      }
      return true;
    }

    method GenerateChunk(codes: seq<seq<int>>, isFinal: bool, env: Env) returns (r: Outcome)
      requires Sized(AsRig(), |sizes|)
      modifies this
      ensures Sized(AsRig(), |sizes|)
      ensures (AsRig(), r) == ChunkRig(engine, numQuantizers, maxWaveform, old(AsRig()), codes, isFinal, env)
    {
      hide SwapFrom;
      if !Acceptable(codes, numQuantizers) || !env.reshapeOk || !env.scalarsOk { return Rejected; }
      if !env.inferOk {
        mem := Stored(mem, output, env.scribble);
        return Rejected;
      }
      var (wave, outs) := Computed(engine, AsRig(), PartOf(codes, isFinal), env);
      mem := Stored(mem, output, outs);
      if |wave| > maxWaveform { return Rejected; }
      positionOffset := positionOffset + |codes[0]|;
      var ok := SwapStateBuffers(env.rebind);
      return if ok then Produced(wave) else Threw;
    }
  }

  // ---- the fold ----

  /** What a sequence of chunks yields from zero states: samples, states and offset. */
  datatype Folded = Folded(wave: Signal, states: States, offset: nat)

  function Fold(engine: Engine, sizes: seq<nat>, parts: seq<Part>): Folded {
    if parts == [] then Folded([], ZerosOf(sizes), 0)
    else
      var n := |parts| - 1;
      var before := Fold(engine, sizes, parts[..n]);
      var (wave, states) := engine(parts[n], before.offset, before.states);
      Folded(before.wave + wave, states, before.offset + |parts[n].frames|)
  }

  lemma FoldSnoc(engine: Engine, sizes: seq<nat>, parts: seq<Part>, part: Part)
    ensures var before := Fold(engine, sizes, parts); var r := engine(part, before.offset, before.states);
            Fold(engine, sizes, parts + [part]) == Folded(before.wave + r.0, r.1, before.offset + |part.frames|)
  {
    assert (parts + [part])[..|parts|] == parts;
  }

  /** The rig is ready to continue after these chunks: bindings, read side and offset are all right. */
  ghost predicate Fits(engine: Engine, sizes: seq<nat>, g: Rig, parts: seq<Part>) {
    && Sized(g, |sizes|) && Agreed(g)
    && Sides(g.mem, g.read) == Fold(engine, sizes, parts).states
    && g.offset == Fold(engine, sizes, parts).offset
  }

  /** Reset makes the runner ready exactly if the bindings agreed before it. */
  lemma ResetFitsIff(engine: Engine, sizes: seq<nat>, g: Rig)
    requires Sized(g, |sizes|)
    ensures Sized(ResetRig(g, sizes), |sizes|) && (Agreed(ResetRig(g, sizes)) <==> Agreed(g))
    ensures Fits(engine, sizes, ResetRig(g, sizes), []) <==> Agreed(g)
  {
    var z := ResetRig(g, sizes);
    assert Sides(z.mem, z.read) == ZerosOf(sizes);
    assert forall k | 0 <= k < |g.read| :: AgreedAt(z, k) == AgreedAt(g, k);
  }

  // ---- swapping ----

  /** The first state from j on with a failed call, or n. */
  function Stop(rebind: nat -> (bool, bool), j: nat, n: nat): (k: nat)
    ensures j <= n ==> j <= k <= n
    ensures k < n ==> rebind(k) != (true, true)
    ensures forall i: nat | j <= i < k && i < n :: rebind(i) == (true, true)
    decreases n - j
  {
    if j >= n then n else if rebind(j) == (true, true) then Stop(rebind, j + 1, n) else j
  }

  /** State k after a swap loop that went from state j to state stop. */
  ghost predicate TurnedAt(g: Rig, h: Rig, k: nat, j: nat, stop: nat, rebind: nat -> (bool, bool))
    requires Sized(g, |g.mem|) && Sized(h, |g.mem|) && k < |g.mem|
  {
    if j <= k <= stop then
      && h.read[k] == !g.read[k]
      && h.input[k] == (if k < stop || rebind(k).0 then !g.read[k] else g.input[k])
      && h.output[k] == (if k < stop || rebind(k).1 then g.read[k] else g.output[k])
    else h.read[k] == g.read[k] && h.input[k] == g.input[k] && h.output[k] == g.output[k]
  }

  lemma {:induction false} SwapShape(g: Rig, j: nat, rebind: nat -> (bool, bool))
    requires Sized(g, |g.mem|) && j <= |g.mem|
    ensures var n := |g.mem|; var (h, ok) := SwapFrom(g, j, rebind); var stop := Stop(rebind, j, n);
            && Sized(h, n) && h.mem == g.mem && h.offset == g.offset && (ok <==> stop == n)
            && forall k: nat | k < n :: TurnedAt(g, h, k, j, stop, rebind)
    decreases |g.mem| - j
  {
    if j < |g.mem| && rebind(j) == (true, true) {
      SwapShape(SwapAt(g, j, rebind(j)), j + 1, rebind);
      var n := |g.mem|;
      var (h, ok) := SwapFrom(g, j, rebind);
      var stop := Stop(rebind, j, n);
      var g1 := SwapAt(g, j, rebind(j));
      forall k: nat | k < n ensures TurnedAt(g, h, k, j, stop, rebind) {
        assert TurnedAt(g1, h, k, j + 1, stop, rebind);
      }
    }
  }

  /** After a complete swap the bindings agree, whatever they were before. */
  lemma FullSwapAgrees(g: Rig, rebind: nat -> (bool, bool))
    requires Sized(g, |g.mem|) && SwapFrom(g, 0, rebind).1
    ensures var h := SwapFrom(g, 0, rebind).0; Sized(h, |g.mem|) && h.mem == g.mem && h.offset == g.offset
    ensures var h := SwapFrom(g, 0, rebind).0; h.read == Flip(g.read) && Agreed(h)
  {
    SwapShape(g, 0, rebind);
    var h := SwapFrom(g, 0, rebind).0;
    hide SwapFrom;
    forall k: nat | k < |g.mem| ensures h.read[k] == Flip(g.read)[k] && AgreedAt(h, k) {
      assert TurnedAt(g, h, k, 0, |g.mem|, rebind);
    }
  }

  /** A swap from agreeing bindings leaves them agreeing exactly if no call failed. */
  lemma SwapAgrees(g: Rig, rebind: nat -> (bool, bool))
    requires Sized(g, |g.mem|) && Agreed(g)
    ensures var (h, ok) := SwapFrom(g, 0, rebind);
            Sized(h, |g.mem|) && h.mem == g.mem && h.offset == g.offset && (Agreed(h) <==> ok)
  {
    SwapShape(g, 0, rebind);
    var (h, ok) := SwapFrom(g, 0, rebind);
    var stop := Stop(rebind, 0, |g.mem|);
    hide SwapFrom;
    if stop < |g.mem| {
      assert TurnedAt(g, h, stop, 0, stop, rebind) && AgreedAt(g, stop);
      assert !AgreedAt(h, stop);
    } else {
      FullSwapAgrees(g, rebind);
    }
  }

  // ---- one call ----

  /** Storing into the write sides leaves the read sides alone and shows on the write sides. */
  lemma StoredSides(mem: seq<Pair>, read: seq<bool>, write: seq<bool>, values: States)
    requires |mem| == |read| == |write| && forall k | 0 <= k < |read| :: write[k] == !read[k]
    ensures Sides(Stored(mem, write, values), read) == Sides(mem, read)
    ensures |values| == |mem| ==> Sides(Stored(mem, write, values), write) == values
  {}

  /** From a ready rig: a rejected call leaves it ready, a produced chunk is the fold's next, a throw unbinds it. */
  lemma ChunkFits(
    engine: Engine, sizes: seq<nat>, nq: nat, maxWave: nat, g: Rig, parts: seq<Part>, codes: seq<seq<int>>,
    isFinal: bool, env: Env)
    requires Regular(engine, |sizes|) && Fits(engine, sizes, g, parts)
    ensures var (h, r) := ChunkRig(engine, nq, maxWave, g, codes, isFinal, env);
            match r {
              case Rejected => Fits(engine, sizes, h, parts) && Sides(h.mem, h.read) == Sides(g.mem, g.read)
                && h.offset == g.offset
              case Produced(wave) =>
                && Acceptable(codes, nq) && Fits(engine, sizes, h, parts + [PartOf(codes, isFinal)])
                && Fold(engine, sizes, parts + [PartOf(codes, isFinal)]).wave == Fold(engine, sizes, parts).wave + wave
              case Threw => Sized(h, |sizes|) && !Agreed(h) && Acceptable(codes, nq)
                && h.offset == g.offset + |codes[0]|
            }
  {
    hide SwapFrom, Fold, PartOf, Aliased, Fits, Stored, Sides, Agreed, Regular;
    FitsSized(engine, sizes, g, parts);
    if Acceptable(codes, nq) && env.reshapeOk && env.scalarsOk && env.inferOk {
      InferredFits(engine, sizes, g, parts, PartOf(codes, isFinal), env);
      var (wave, outs) := Computed(engine, g, PartOf(codes, isFinal), env);
      SwappedFits(engine, sizes, g, parts, PartOf(codes, isFinal), outs, env.rebind);
    } else if Acceptable(codes, nq) && env.reshapeOk && env.scalarsOk {
      StoredFits(engine, sizes, g, parts, env.scribble);
    }
  }

  lemma FitsSized(engine: Engine, sizes: seq<nat>, g: Rig, parts: seq<Part>)
    requires Fits(engine, sizes, g, parts)
    ensures Sized(g, |sizes|)
  {}

  /** Whatever lands in the output buffers, a ready rig stays ready. */
  lemma StoredFits(engine: Engine, sizes: seq<nat>, g: Rig, parts: seq<Part>, values: States)
    requires Fits(engine, sizes, g, parts)
    ensures var h := g.(mem := Stored(g.mem, g.output, values));
            Fits(engine, sizes, h, parts) && Sides(h.mem, h.read) == Sides(g.mem, g.read)
  {
    hide Fold;
    AgreedSides(g);
    StoredSides(g.mem, g.read, g.output, values);
    KeptBindings(g, g.(mem := Stored(g.mem, g.output, values)));
  }

  /** The engine of a ready rig computes the fold's next step. */
  lemma InferredFits(engine: Engine, sizes: seq<nat>, g: Rig, parts: seq<Part>, part: Part, env: Env)
    requires Regular(engine, |sizes|) && Fits(engine, sizes, g, parts)
    ensures var (wave, outs) := Computed(engine, g, part, env); var next := Fold(engine, sizes, parts + [part]);
            && next == Folded(Fold(engine, sizes, parts).wave + wave, outs, g.offset + |part.frames|)
            && |outs| == |sizes|
            && var h := g.(mem := Stored(g.mem, g.output, outs));
               Fits(engine, sizes, h, parts) && Sides(h.mem, h.read) == Sides(g.mem, g.read)
  {
    hide Fold, Aliased;
    NotAliased(g);
    AgreedSides(g);
    assert g.input == g.read;
    FoldSnoc(engine, sizes, parts, part);
    StoredFits(engine, sizes, g, parts, Computed(engine, g, part, env).1);
  }

  /**
   With the outputs in place, a complete swap makes the rig ready for the longer sequence; a failed
   one never does.
   */
  lemma SwappedFits(
    engine: Engine, sizes: seq<nat>, g: Rig, parts: seq<Part>, part: Part, outs: States, rebind: nat -> (bool, bool))
    requires Fits(engine, sizes, g, parts) && |outs| == |sizes|
    requires Fold(engine, sizes, parts + [part]).states == outs
    requires Fold(engine, sizes, parts + [part]).offset == g.offset + |part.frames|
    ensures var g1 := g.(mem := Stored(g.mem, g.output, outs), offset := g.offset + |part.frames|);
            var (h, ok) := SwapFrom(g1, 0, rebind);
            && Sized(h, |sizes|) && h.offset == g.offset + |part.frames|
            && (if ok then Fits(engine, sizes, h, parts + [part]) else !Agreed(h))
  {
    hide SwapFrom, Fold, Agreed;
    AgreedSides(g);
    StoredSides(g.mem, g.read, g.output, outs);
    var g1 := g.(mem := Stored(g.mem, g.output, outs), offset := g.offset + |part.frames|);
    KeptBindings(g, g1);
    SwapAgrees(g1, rebind);
    if SwapFrom(g1, 0, rebind).1 {
      FullSwapAgrees(g1, rebind);
      assert Flip(g.read) == g.output;
    }
  }

  lemma NotAliased(g: Rig)
    requires Sized(g, |g.mem|) && Agreed(g)
    ensures !Aliased(g)
  {
    forall k | 0 <= k < |g.input| ensures g.input[k] != g.output[k] { assert AgreedAt(g, k); }
  }

  lemma AgreedSides(g: Rig)
    requires Sized(g, |g.mem|) && Agreed(g)
    ensures forall k | 0 <= k < |g.read| :: g.output[k] == !g.read[k] && g.input[k] == g.read[k]
  {
    forall k | 0 <= k < |g.read| ensures g.output[k] == !g.read[k] && g.input[k] == g.read[k] { assert AgreedAt(g, k); }
  }

  lemma KeptBindings(g: Rig, h: Rig)
    requires Sized(g, |g.mem|) && Sized(h, |g.mem|) && h.read == g.read && h.input == g.input && h.output == g.output
    ensures Agreed(h) <==> Agreed(g)
  {
    assert forall k | 0 <= k < |g.read| :: AgreedAt(h, k) == AgreedAt(g, k);
  }

  // ---- whole runs ----

  datatype Call = Chunk(codes: seq<seq<int>>, isFinal: bool, env: Env) | ResetCall

  /** The parameters a runner is built with. */
  datatype Setup = Setup(engine: Engine, sizes: seq<nat>, numQuantizers: nat, maxWaveform: nat)

  /** The rig after these calls, and their outcomes. */
  function DriveRig(u: Setup, g: Rig, calls: seq<Call>): (r: (Rig, seq<Outcome>))
    requires Sized(g, |u.sizes|)
    ensures Sized(r.0, |u.sizes|) && |r.1| == |calls|
  {
    if calls == [] then (g, [])
    else
      var n := |calls| - 1;
      var (h, log) := DriveRig(u, g, calls[..n]);
      match calls[n]
      case ResetCall => (ResetRig(h, u.sizes), log + [Cleared])
      case Chunk(codes, isFinal, env) =>
        ChunkSized(u.engine, u.numQuantizers, u.maxWaveform, h, codes, isFinal, env);
        var (h', o) := ChunkRig(u.engine, u.numQuantizers, u.maxWaveform, h, codes, isFinal, env);
        (h', log + [o])
  }

  lemma ChunkSized(engine: Engine, nq: nat, maxWave: nat, g: Rig, codes: seq<seq<int>>, isFinal: bool, env: Env)
    requires Sized(g, |g.mem|)
    ensures Sized(ChunkRig(engine, nq, maxWave, g, codes, isFinal, env).0, |g.mem|)
    ensures ChunkRig(engine, nq, maxWave, g, codes, isFinal, env).1.Produced? ==> Acceptable(codes, nq)
    ensures !ChunkRig(engine, nq, maxWave, g, codes, isFinal, env).1.Cleared?
  {
    hide SwapFrom, PartOf;
    if Acceptable(codes, nq) && env.reshapeOk && env.scalarsOk && env.inferOk {
      var outs := Computed(engine, g, PartOf(codes, isFinal), env).1;
      SwapShape(g.(mem := Stored(g.mem, g.output, outs), offset := g.offset + |codes[0]|), 0, env.rebind);
    }
  }

  /** The chunks accepted since the last reset, read off the calls and their outcomes. */
  function PartsSince(calls: seq<Call>, log: seq<Outcome>): seq<Part>
    requires |calls| == |log|
  {
    if calls == [] then []
    else
      var n := |calls| - 1;
      var before := PartsSince(calls[..n], log[..n]);
      match calls[n]
      case ResetCall => []
      case Chunk(codes, isFinal, _) =>
        if log[n].Produced? && codes != [] && (forall i | 0 <= i < |codes| :: |codes[i]| == |codes[0]|)
        then before + [PartOf(codes, isFinal)] else before
  }

  /** Samples produced since the last reset. */
  function HeardSince(calls: seq<Call>, log: seq<Outcome>): Signal
    requires |calls| == |log|
  {
    if calls == [] then []
    else
      var n := |calls| - 1;
      var before := HeardSince(calls[..n], log[..n]);
      if calls[n].ResetCall? then [] else if log[n].Produced? then before + log[n].wave else before
  }

  /** The bindings agreed at the last reset, or at the start, and no call has thrown since. */
  ghost predicate Ready(u: Setup, g: Rig, calls: seq<Call>)
    requires Sized(g, |u.sizes|)
  {
    if calls == [] then true
    else
      var n := |calls| - 1;
      if calls[n].ResetCall? then Agreed(DriveRig(u, g, calls[..n]).0)
      else Ready(u, g, calls[..n]) && !DriveRig(u, g, calls).1[n].Threw?
  }

  /** In every run: while Ready, everything since the last reset is the fold over the chunks accepted since. */
  lemma {:induction false} RunIsFold(u: Setup, g: Rig, calls: seq<Call>)
    requires Regular(u.engine, |u.sizes|) && Fits(u.engine, u.sizes, g, [])
    ensures var (h, log) := DriveRig(u, g, calls); var parts := PartsSince(calls, log);
            Ready(u, g, calls) ==>
              Fits(u.engine, u.sizes, h, parts) && HeardSince(calls, log) == Fold(u.engine, u.sizes, parts).wave
  {
    hide Regular, Fits, ChunkRig, Fold, PartOf, Agreed;
    FitsSized(u.engine, u.sizes, g, []);
    if calls == [] {
      FoldNothing(u.engine, u.sizes);
    } else {
      var n := |calls| - 1;
      RunIsFold(u, g, calls[..n]);
      var (h, log) := DriveRig(u, g, calls[..n]);
      assert DriveRig(u, g, calls).1[..n] == log;
      match calls[n] {
        case ResetCall =>
          ResetFitsIff(u.engine, u.sizes, h);
          FoldNothing(u.engine, u.sizes);
        case Chunk(codes, isFinal, env) =>
          ChunkSized(u.engine, u.numQuantizers, u.maxWaveform, h, codes, isFinal, env);
          if Ready(u, g, calls) {
            ChunkFits(u.engine, u.sizes, u.numQuantizers, u.maxWaveform, h, PartsSince(calls[..n], log),
              codes, isFinal, env);
          }
      }
    }
  }

  // ---- which frames the engine got ----

  /** The chunk calls that got through since the last reset. */
  function Through(calls: seq<Call>, log: seq<Outcome>): (r: seq<Call>)
    requires |calls| == |log|
    ensures forall k | 0 <= k < |r| :: r[k].Chunk?
  {
    if calls == [] then []
    else
      var n := |calls| - 1;
      var before := Through(calls[..n], log[..n]);
      if calls[n].ResetCall? then [] else if log[n].Produced? then before + [calls[n]] else before
  }

  /** Row q of the codes of these calls, one after the other. */
  function Rows(calls: seq<Call>, q: nat): seq<int>
    requires forall k | 0 <= k < |calls| :: calls[k].Chunk?
  {
    if calls == [] then []
    else
      var n := |calls| - 1;
      Rows(calls[..n], q) + (if q < |calls[n].codes| then calls[n].codes[q] else [])
  }

  function AllFrames(parts: seq<Part>): seq<Frame> {
    if parts == [] then [] else AllFrames(parts[..|parts| - 1]) + parts[|parts| - 1].frames
  }

  /** Component q of every frame. */
  function Component(frames: seq<Frame>, q: nat): seq<int>
    requires forall t | 0 <= t < |frames| :: q < |frames[t]|
  {
    seq(|frames|, t requires 0 <= t < |frames| => frames[t][q])
  }

  /** Frame by frame and flag by flag, the parts are what the calls brought. */
  ghost predicate Brought(parts: seq<Part>, calls: seq<Call>, nq: nat)
    requires forall k | 0 <= k < |calls| :: calls[k].Chunk?
  {
    && |parts| == |calls| && (forall k | 0 <= k < |parts| :: parts[k].isFinal == calls[k].isFinal)
    && (forall t | 0 <= t < |AllFrames(parts)| :: |AllFrames(parts)[t]| == nq)
    && forall q: nat | q < nq :: Component(AllFrames(parts), q) == Rows(calls, q)
  }

  lemma BroughtOne(parts: seq<Part>, calls: seq<Call>, nq: nat, codes: seq<seq<int>>, isFinal: bool, env: Env)
    requires forall k | 0 <= k < |calls| :: calls[k].Chunk?
    requires Brought(parts, calls, nq) && Acceptable(codes, nq)
    ensures Brought(parts + [PartOf(codes, isFinal)], calls + [Chunk(codes, isFinal, env)], nq)
  {
    var part, call := PartOf(codes, isFinal), Chunk(codes, isFinal, env);
    var parts', calls' := parts + [part], calls + [call];
    assert parts'[..|parts|] == parts && calls'[..|calls|] == calls;
    assert AllFrames(parts') == AllFrames(parts) + part.frames;
    forall q: nat | q < nq ensures Component(AllFrames(parts'), q) == Rows(calls', q) {
      assert Component(part.frames, q) == codes[q];
      assert Component(AllFrames(parts'), q) == Component(AllFrames(parts), q) + Component(part.frames, q);
    }
  }

  /**
   In every run, for every quantizer q, component q of the frames accepted since the last reset, in
   order, is the rows codes[q] of the calls that got through since, one after the other; and each part
   carries its call's final flag.
   */
  lemma {:induction false} FramesAreRows(u: Setup, g: Rig, calls: seq<Call>)
    requires Sized(g, |u.sizes|)
    ensures var log := DriveRig(u, g, calls).1;
            Brought(PartsSince(calls, log), Through(calls, log), u.numQuantizers)
  {
    hide ChunkRig, PartOf, Brought;
    NothingBrought(u.numQuantizers);
    if calls != [] {
      var n := |calls| - 1;
      FramesAreRows(u, g, calls[..n]);
      var (h, log) := DriveRig(u, g, calls[..n]);
      assert DriveRig(u, g, calls).1[..n] == log;
      if calls[n].Chunk? {
        var codes, isFinal, env := calls[n].codes, calls[n].isFinal, calls[n].env;
        ChunkSized(u.engine, u.numQuantizers, u.maxWaveform, h, codes, isFinal, env);
        if ChunkRig(u.engine, u.numQuantizers, u.maxWaveform, h, codes, isFinal, env).1.Produced? {
          BroughtOne(PartsSince(calls[..n], log), Through(calls[..n], log), u.numQuantizers, codes, isFinal, env);
        }
      }
    }
  }

  lemma NothingBrought(nq: nat)
    ensures Brought([], [], nq)
  {
    assert forall q: nat | q < nq :: Component([], q) == Rows([], q);
  }

  lemma FoldNothing(engine: Engine, sizes: seq<nat>)
    ensures Fold(engine, sizes, []) == Folded([], ZerosOf(sizes), 0)
  {}

  /** What a caller can tell from the outcomes alone: bindings known to agree, and readiness known. */
  datatype Trust = Trust(agreed: bool, ready: bool)

  function TrustAfter(log: seq<Outcome>): Trust {
    if log == [] then Trust(true, true)
    else
      var n := |log| - 1;
      var t := TrustAfter(log[..n]);
      match log[n]
      case Rejected => t
      case Produced(_) => Trust(true, t.ready)
      case Threw => Trust(false, false)
      case Cleared => Trust(t.agreed, t.agreed)
  }

  /** Without a throw nothing is in doubt; after one, a chunk that gets through and a reset settle everything again. */
  lemma {:induction false} TrustIs(log: seq<Outcome>, wave: Signal)
    ensures (forall i | 0 <= i < |log| :: !log[i].Threw?) ==> TrustAfter(log) == Trust(true, true)
    ensures TrustAfter(log + [Threw]) == Trust(false, false)
    ensures TrustAfter(log + [Threw] + [Produced(wave)] + [Cleared]) == Trust(true, true)
  {
    if log != [] { TrustIs(log[..|log| - 1], wave); }
    var one, two := log + [Threw], log + [Threw] + [Produced(wave)];
    assert one[..|log|] == log && two[..|one|] == one && (two + [Cleared])[..|two|] == two;
  }

  /** A chunk that got through leaves agreeing bindings, and a rejected one leaves them as they were. */
  lemma ChunkBindings(engine: Engine, nq: nat, maxWave: nat, g: Rig, codes: seq<seq<int>>, isFinal: bool, env: Env)
    requires Sized(g, |g.mem|)
    ensures var (h, r) := ChunkRig(engine, nq, maxWave, g, codes, isFinal, env);
            (r.Produced? ==> Agreed(h)) && (r.Rejected? ==> (Agreed(h) <==> Agreed(g)))
  {
    hide SwapFrom, PartOf, Agreed;
    ChunkSized(engine, nq, maxWave, g, codes, isFinal, env);
    if Acceptable(codes, nq) && env.reshapeOk && env.scalarsOk && env.inferOk {
      var outs := Computed(engine, g, PartOf(codes, isFinal), env).1;
      var g1 := g.(mem := Stored(g.mem, g.output, outs));
      KeptBindings(g, g1);
      var g2 := g1.(offset := g1.offset + |codes[0]|);
      if SwapFrom(g2, 0, env.rebind).1 { FullSwapAgrees(g2, env.rebind); }
    } else {
      KeptBindings(g, ChunkRig(engine, nq, maxWave, g, codes, isFinal, env).0);
    }
  }

  /** After a throw, one chunk that gets through and then a reset are enough; the outcomes alone show it. */
  lemma {:induction false} TrustedIsReady(u: Setup, g: Rig, calls: seq<Call>)
    requires Sized(g, |u.sizes|) && Agreed(g)
    ensures var (h, log) := DriveRig(u, g, calls);
            (TrustAfter(log).agreed ==> Agreed(h)) && (TrustAfter(log).ready ==> Ready(u, g, calls))
  {
    hide ChunkRig, Agreed;
    if calls != [] {
      var n := |calls| - 1;
      TrustedIsReady(u, g, calls[..n]);
      var (h, log) := DriveRig(u, g, calls[..n]);
      assert DriveRig(u, g, calls).1[..n] == log;
      match calls[n] {
        case ResetCall => KeptBindings(h, ResetRig(h, u.sizes));
        case Chunk(codes, isFinal, env) =>
          ChunkSized(u.engine, u.numQuantizers, u.maxWaveform, h, codes, isFinal, env);
          ChunkBindings(u.engine, u.numQuantizers, u.maxWaveform, h, codes, isFinal, env);
      }
    }
  }

  /** The runner itself, over any calls: resets, rejections and failed rebinds included. */
  method DriveRunner(runner: Runner, calls: seq<Call>) returns (log: seq<Outcome>)
    requires Sized(runner.AsRig(), |runner.sizes|) && Regular(runner.engine, |runner.sizes|)
    requires Fits(runner.engine, runner.sizes, runner.AsRig(), [])
    modifies runner
    ensures Sized(runner.AsRig(), |runner.sizes|) && |log| == |calls|
    ensures var u := Setup(runner.engine, runner.sizes, runner.numQuantizers, runner.maxWaveform);
            var parts := PartsSince(calls, log);
            && (runner.AsRig(), log) == DriveRig(u, old(runner.AsRig()), calls)
            && (Ready(u, old(runner.AsRig()), calls) ==>
                  && Fits(runner.engine, runner.sizes, runner.AsRig(), parts)
                  && HeardSince(calls, log) == Fold(runner.engine, runner.sizes, parts).wave)
            && Brought(parts, Through(calls, log), runner.numQuantizers)
            && (TrustAfter(log).ready ==> Ready(u, old(runner.AsRig()), calls))
  {
    hide Fits, Regular, ChunkRig, Fold, PartsSince, HeardSince, TrustAfter, Ready, Brought, Through;
    ghost var u := Setup(runner.engine, runner.sizes, runner.numQuantizers, runner.maxWaveform);
    ghost var g := runner.AsRig();
    log := [];
    assert calls[..0] == [];
    for i := 0 to |calls|
      invariant Sized(runner.AsRig(), |runner.sizes|) && |log| == i
      invariant (runner.AsRig(), log) == DriveRig(u, g, calls[..i])
    {
      assert calls[..i + 1][..i] == calls[..i];
      match calls[i] {
        case ResetCall =>
          runner.Reset();
          log := log + [Cleared];
        case Chunk(codes, isFinal, env) =>
          var r := runner.GenerateChunk(codes, isFinal, env);
          log := log + [r];
      }
    }
    assert calls[..|calls|] == calls;
    FitsAgreed(u.engine, u.sizes, g, []);
    RunIsFold(u, g, calls);
    FramesAreRows(u, g, calls);
    TrustedIsReady(u, g, calls);
  }

  lemma FitsAgreed(engine: Engine, sizes: seq<nat>, g: Rig, parts: seq<Part>)
    requires Fits(engine, sizes, g, parts)
    ensures Sized(g, |sizes|) && Agreed(g)
  {}

  // ---- after a throw ----

  /**
   What a throw leaves behind a ready rig: the offset has moved, the states up to the failing one have
   been swapped by the host, and only the failing one's bindings disagree. If both of its calls failed,
   input and output are exactly exchanged; if one did, the engine reads and writes one buffer.
   */
  lemma ThrowLeaves(
    engine: Engine, sizes: seq<nat>, nq: nat, maxWave: nat, g: Rig, codes: seq<seq<int>>, isFinal: bool, env: Env)
    requires Sized(g, |sizes|) && Agreed(g) && ChunkRig(engine, nq, maxWave, g, codes, isFinal, env).1.Threw?
    ensures var h := ChunkRig(engine, nq, maxWave, g, codes, isFinal, env).0; var stop := Stop(env.rebind, 0, |sizes|);
            && Sized(h, |sizes|) && stop < |sizes| && Acceptable(codes, nq) && h.offset == g.offset + |codes[0]|
            && (forall k: nat | k < |sizes| :: h.read[k] == (if k <= stop then !g.read[k] else g.read[k]))
            && (forall k: nat | k < |sizes| :: AgreedAt(h, k) <==> k != stop)
            && (Aliased(h) <==> env.rebind(stop) != (false, false))
            && (!Aliased(h) ==> h.input[stop] == !h.read[stop] && h.output[stop] == h.read[stop])
  {
    hide SwapFrom, PartOf, Sides, Stop, Stored, Computed;
    var part := PartOf(codes, isFinal);
    var outs := Computed(engine, g, part, env).1;
    var g1 := g.(mem := Stored(g.mem, g.output, outs), offset := g.offset + |codes[0]|);
    SwapShape(g1, 0, env.rebind);
    var h, stop := SwapFrom(g1, 0, env.rebind).0, Stop(env.rebind, 0, |sizes|);
    forall k: nat | k < |sizes|
      ensures h.read[k] == (if k <= stop then !g.read[k] else g.read[k]) && (AgreedAt(h, k) <==> k != stop)
      ensures k != stop ==> h.input[k] != h.output[k]
    {
      assert TurnedAt(g1, h, k, 0, stop, env.rebind) && AgreedAt(g, k);
    }
    assert TurnedAt(g1, h, stop, 0, stop, env.rebind) && AgreedAt(g, stop);
    if env.rebind(stop) != (false, false) { assert h.input[stop] == h.output[stop]; }
  }

  /** A call that gets everything right around it. */
  predicate Smooth(env: Env, n: nat) {
    env.reshapeOk && env.scalarsOk && env.inferOk && Stop(env.rebind, 0, n) == n
  }

  /**
   The first chunk after a reset, from any bindings without aliasing. Its samples are right, and the
   bindings agree afterwards; but the runner is ready to go on exactly if every state's output was bound
   to the host's write buffer or came out all zero. Otherwise that state is lost.
   */
  lemma FirstChunkAfterReset(
    engine: Engine, sizes: seq<nat>, nq: nat, maxWave: nat, g: Rig, codes: seq<seq<int>>, isFinal: bool, env: Env)
    requires Regular(engine, |sizes|) && Sized(g, |sizes|) && !Aliased(g)
    requires Acceptable(codes, nq) && Smooth(env, |sizes|)
    requires |engine(PartOf(codes, isFinal), 0, ZerosOf(sizes)).0| <= maxWave
    ensures var (wave, outs) := engine(PartOf(codes, isFinal), 0, ZerosOf(sizes)); var z := ResetRig(g, sizes);
            var (h, r) := ChunkRig(engine, nq, maxWave, z, codes, isFinal, env);
            && r == Produced(wave) && Agreed(h) && Sized(h, |sizes|)
            && (Fits(engine, sizes, h, [PartOf(codes, isFinal)]) <==>
                forall k: nat | k < |sizes| :: g.output[k] == !g.read[k] || outs[k] == Zeros(sizes[k]))
  {
    hide SwapFrom, PartOf, Fold, Agreed;
    var part := PartOf(codes, isFinal);
    var (wave, outs) := engine(part, 0, ZerosOf(sizes));
    var z := ResetRig(g, sizes);
    assert Sides(z.mem, z.input) == ZerosOf(sizes);
    assert !Aliased(z);
    var z1 := z.(mem := Stored(z.mem, z.output, outs), offset := 0 + |codes[0]|);
    SwapShape(z1, 0, env.rebind);
    FullSwapAgrees(z1, env.rebind);
    var h := SwapFrom(z1, 0, env.rebind).0;
    FoldNothing(engine, sizes);
    FoldSnoc(engine, sizes, [], part);
    assert [] + [part] == [part];
    assert |outs| == |sizes|;
    forall k: nat | k < |sizes|
      ensures Sides(h.mem, h.read)[k] == if g.output[k] == !g.read[k] then outs[k] else Zeros(sizes[k])
    {
      assert h.mem[k] == Put(z.mem[k], z.output[k], outs[k]);
    }
    if forall k: nat | k < |sizes| :: g.output[k] == !g.read[k] || outs[k] == Zeros(sizes[k]) {
      assert Sides(h.mem, h.read) == outs;
    }
  }

  /** Reset, any chunk that gets through, reset: ready again, from any bindings. */
  lemma SecondResetRepairs(
    engine: Engine, sizes: seq<nat>, nq: nat, maxWave: nat, g: Rig, codes: seq<seq<int>>, isFinal: bool, env: Env)
    requires Sized(g, |sizes|) && ChunkRig(engine, nq, maxWave, ResetRig(g, sizes), codes, isFinal, env).1.Produced?
    ensures var h := ChunkRig(engine, nq, maxWave, ResetRig(g, sizes), codes, isFinal, env).0;
            Sized(h, |sizes|) && Fits(engine, sizes, ResetRig(h, sizes), [])
  {
    hide ChunkRig, Fits, Agreed;
    var z := ResetRig(g, sizes);
    ChunkSized(engine, nq, maxWave, z, codes, isFinal, env);
    ChunkBindings(engine, nq, maxWave, z, codes, isFinal, env);
    ResetFitsIff(engine, sizes, ChunkRig(engine, nq, maxWave, z, codes, isFinal, env).0);
  }

  // ---- a run in which reset does not repair ----

  /** A small engine: its one state counts the chunks, and each chunk sounds the count so far. */
  function Counter(part: Part, off: nat, states: States): (Signal, States) {
    if |states| == 1 && |states[0]| == 1 then ([states[0][0]], [[states[0][0] + 1.0]]) else ([], [[]])
  }

  function CounterEnv(bound: bool): Env {
    Env(true, true, true, [], ([], []), k => (bound, bound))
  }

  /** A rig with one state of one sample. */
  function Single(a: real, b: real, read: bool, input: bool, offset: nat): Rig {
    Rig([Pair([a], [b])], [read], [input], [!input], offset)
  }

  lemma SingleSwap(g: Rig, bound: bool)
    requires Sized(g, 1)
    ensures SwapFrom(g, 0, CounterEnv(bound).rebind) ==
            (Rig(g.mem, [!g.read[0]], [if bound then !g.read[0] else g.input[0]],
                 [if bound then g.read[0] else g.output[0]], g.offset), bound)
  {
    var g1 := SwapAt(g, 0, (bound, bound));
    assert g1.read == [!g.read[0]];
    assert g1.input == [if bound then !g.read[0] else g.input[0]];
    assert g1.output == [if bound then g.read[0] else g.output[0]];
  }

  lemma SingleChunk(a: real, b: real, read: bool, input: bool, offset: nat, bound: bool)
    ensures var v := if input then b else a;
            ChunkRig(Counter, 1, 1, Single(a, b, read, input, offset), [[7]], false, CounterEnv(bound)) ==
            (Rig([if input then Pair([v + 1.0], [b]) else Pair([a], [v + 1.0])],
                 [!read], [if bound then !read else input], [if bound then read else !input], offset + 1),
             if bound then Produced([v]) else Threw)
  {
    hide SwapFrom;
    var g, v := Single(a, b, read, input, offset), if input then b else a;
    assert !Aliased(g);
    assert Sides(g.mem, g.input) == [[v]];
    var mem := Stored(g.mem, g.output, [[v + 1.0]]);
    assert mem == [if input then Pair([v + 1.0], [b]) else Pair([a], [v + 1.0])];
    SingleSwap(g.(mem := mem, offset := offset + 1), bound);
  }

  lemma DriveSnoc(u: Setup, g: Rig, calls: seq<Call>, c: Call)
    requires Sized(g, |u.sizes|)
    ensures var (h, log) := DriveRig(u, g, calls);
            DriveRig(u, g, calls + [c]) ==
            if c.ResetCall? then (ResetRig(h, u.sizes), log + [Cleared])
            else var (h', o) := ChunkRig(u.engine, u.numQuantizers, u.maxWaveform, h, c.codes, c.isFinal, c.env);
                 (h', log + [o])
  {
    hide ChunkRig;
    assert (calls + [c])[..|calls|] == calls;
  }

  lemma SinceSnoc(calls: seq<Call>, log: seq<Outcome>, c: Call, o: Outcome)
    requires |calls| == |log|
    ensures PartsSince(calls + [c], log + [o]) ==
            if c.ResetCall? then []
            else if o.Produced? && c.codes != [] && (forall i | 0 <= i < |c.codes| :: |c.codes[i]| == |c.codes[0]|)
            then PartsSince(calls, log) + [PartOf(c.codes, c.isFinal)] else PartsSince(calls, log)
    ensures HeardSince(calls + [c], log + [o]) ==
            if c.ResetCall? then [] else if o.Produced? then HeardSince(calls, log) + o.wave else HeardSince(calls, log)
  {
    hide PartOf;
    assert (calls + [c])[..|calls|] == calls && (log + [o])[..|log|] == log;
  }

  /** One reset and two good chunks after whatever came before. */
  function AfterReset(before: seq<Call>): seq<Call> {
    before + [ResetCall] + [Chunk([[7]], false, CounterEnv(true))] + [Chunk([[7]], false, CounterEnv(true))]
  }

  /** From exchanged bindings: reset and two good chunks sound 0, 0. */
  lemma CounterRun(u: Setup, g: Rig, calls: seq<Call>, h: Rig, log: seq<Outcome>)
    requires u == Setup(Counter, [1], 1, 1) && Sized(g, 1) && DriveRig(u, g, calls) == (h, log)
    requires Sized(h, 1) && h.read == [true] && h.input == [false] && h.output == [true]
    ensures DriveRig(u, g, AfterReset(calls)).1 == log + [Cleared] + [Produced([0.0])] + [Produced([0.0])]
  {
    hide DriveRig, ChunkRig;
    var good := Chunk([[7]], false, CounterEnv(true));
    DriveSnoc(u, g, calls, ResetCall);
    assert Zeros(1) == [0.0];
    assert ResetRig(h, [1]) == Single(0.0, 0.0, true, false, 0);
    SingleChunk(0.0, 0.0, true, false, 0, true);
    DriveSnoc(u, g, calls + [ResetCall], good);
    var g3 := Single(0.0, 1.0, false, false, 1);
    assert Rig([Pair([0.0], [0.0 + 1.0])], [!true], [!true], [true], 0 + 1) == g3;
    SingleChunk(0.0, 1.0, false, false, 1, true);
    DriveSnoc(u, g, calls + [ResetCall] + [good], good);
  }

  /** What that makes of the two readings since the reset. */
  lemma CounterFold(calls: seq<Call>, log: seq<Outcome>)
    requires |calls| == |log|
    ensures var log' := log + [Cleared] + [Produced([0.0])] + [Produced([0.0])];
            var parts := PartsSince(AfterReset(calls), log');
            HeardSince(AfterReset(calls), log') == [0.0, 0.0] && Fold(Counter, [1], parts).wave == [0.0, 1.0]
  {
    hide PartsSince, HeardSince, PartOf, Fold;
    var good, part := Chunk([[7]], false, CounterEnv(true)), PartOf([[7]], false);
    SinceSnoc(calls, log, ResetCall, Cleared);
    SinceSnoc(calls + [ResetCall], log + [Cleared], good, Produced([0.0]));
    SinceSnoc(calls + [ResetCall] + [good], log + [Cleared] + [Produced([0.0])], good, Produced([0.0]));
    assert Zeros(1) == [0.0];
    assert ZerosOf([1]) == [[0.0]];
    FoldNothing(Counter, [1]);
    FoldSnoc(Counter, [1], [], part);
    assert Fold(Counter, [1], [] + [part]) == Folded([0.0], [[1.0]], 1);
    FoldSnoc(Counter, [1], [] + [part], part);
  }

  /**
   A throw, a reset, then two good chunks: the second chunk decodes from a lost state. What was heard
   since the reset is 0, 0 where the fold over the same two chunks gives 0, 1.
   */
  lemma ResetDoesNotRepair()
    ensures var u := Setup(Counter, [1], 1, 1); var g := Single(0.0, 0.0, false, false, 0);
            var calls := AfterReset([Chunk([[7]], false, CounterEnv(false))]);
            var log := DriveRig(u, g, calls).1; var parts := PartsSince(calls, log);
            && Fits(Counter, [1], g, []) && log == [Threw, Cleared, Produced([0.0]), Produced([0.0])]
            && HeardSince(calls, log) == [0.0, 0.0] && Fold(Counter, [1], parts).wave == [0.0, 1.0]
  {
    hide ChunkRig, Fold, PartsSince, HeardSince, AfterReset;
    var u, g := Setup(Counter, [1], 1, 1), Single(0.0, 0.0, false, false, 0);
    var bad := Chunk([[7]], false, CounterEnv(false));
    assert Zeros(1) == [0.0];
    assert ZerosOf([1]) == Sides(g.mem, g.read) && AgreedAt(g, 0);
    FoldNothing(Counter, [1]);
    SingleChunk(0.0, 0.0, false, false, 0, false);
    DriveSnoc(u, g, [], bad);
    assert [] + [bad] == [bad];
    var (h, log) := DriveRig(u, g, [bad]);
    assert log == [Threw];
    CounterRun(u, g, [bad], h, log);
    CounterFold([bad], log);
  }

  // ---- with the exported module as the engine ----

  function Joined(parts: seq<Part>): seq<Frame> {
    if parts == [] then [] else Joined(parts[..|parts| - 1]) + parts[|parts| - 1].frames
  }

  function Sizes(specs: seq<StateSpec>): (s: seq<nat>)
    ensures |s| == |specs| && forall k | 0 <= k < |s| :: s[k] == specs[k].size
  {
    seq(|specs|, k requires 0 <= k < |specs| => specs[k].size)
  }

  /** Along these chunks the engine computes what forward computes. */
  ghost predicate Computes(m: Exported, engine: Engine, parts: seq<Part>)
    requires ValidExport(m)
  {
    forall k | 0 <= k < |parts| :: ComputesAt(m, engine, Joined(parts[..k]), parts[k])
  }

  ghost predicate ComputesAt(m: Exported, engine: Engine, codes: seq<Frame>, part: Part)
    requires ValidExport(m)
  {
    var (wave, outs) := engine(part, |codes|, StatesOf(m, codes));
    ExportPass(m, codes + part.frames) == ExportPass(m, codes) + wave && outs == StatesOf(m, codes + part.frames)
  }

  /** Then the fold is the full pass: the runner's samples since a reset are those of the whole utterance. */
  lemma {:induction false} FoldIsFullPass(m: Exported, engine: Engine, parts: seq<Part>)
    requires ValidExport(m) && Computes(m, engine, parts)
    ensures var f := Fold(engine, Sizes(SpecsOf(m)), parts); var codes := Joined(parts);
            f.wave == ExportPass(m, codes) && f.states == StatesOf(m, codes) && f.offset == |codes|
  {
    hide ValidExport, StatesOf, ExportPass, SpecsOf;
    if parts == [] {
      EmptyPass(m);
      InitialStatesCorrect(m);
      assert ZerosOf(Sizes(SpecsOf(m))) == InitialStates(SpecsOf(m));
    } else {
      var n := |parts| - 1;
      forall k | 0 <= k < n ensures ComputesAt(m, engine, Joined(parts[..n][..k]), parts[..n][k]) {
        assert parts[..n][..k] == parts[..k];
        assert ComputesAt(m, engine, Joined(parts[..k]), parts[k]);
      }
      FoldIsFullPass(m, engine, parts[..n]);
      assert ComputesAt(m, engine, Joined(parts[..n]), parts[n]);
    }
  }

  lemma EmptyPass(m: Exported)
    requires ValidExport(m)
    ensures ExportPass(m, []) == []
  {
    UpShape(m.upsample, |m.upsample|, []);
    DecoderShape(m.decoder, |m.decoder|, []);
    assert PreOut(m, []) == [];
  }

  /** And forward itself, run chunk by chunk from the published zeros, is such an engine. */
  method ForwardFold(m: Exported, parts: seq<Part>) returns (wave: Signal, states: States)
    requires ValidExport(m) && forall k | 0 <= k < |parts| :: parts[k].frames != []
    ensures wave == ExportPass(m, Joined(parts)) && states == StatesOf(m, Joined(parts))
  {
    hide ValidExport, StatesOf, ExportPass, SpecsOf;
    var specs := BuildStateSpecs(m);
    InitialStatesCorrect(m);
    EmptyPass(m);
    wave, states := [], InitialStates(specs);
    var offset := 0;
    assert parts[..0] == [];
    for i := 0 to |parts|
      invariant offset == |Joined(parts[..i])|
      invariant wave == ExportPass(m, Joined(parts[..i])) && states == StatesOf(m, Joined(parts[..i]))
    {
      var piece, next := Forward(m, parts[i].frames, offset, states, Joined(parts[..i]));
      assert parts[..i + 1][..i] == parts[..i];
      wave, states, offset := wave + piece, next, offset + |parts[i].frames|;
    }
    assert parts[..|parts|] == parts;
  }
}

/**
 One streamed request of the SparkTTS worker: token ids arrive in arbitrary batches, are sorted into
 speaker (global) and audio (semantic) tokens, and are vocoded in overlapping chunks, some while
 decoding still runs and the rest in a final flush.
 */
module SparkRequest {
  import opened SparkVocoder

  const GlobalIdBase: int := 151665
  const GlobalIdEnd: int := 155760
  const SemanticIdBase: int := 155761
  const SemanticIdEnd: int := 163952
  const Globals: int := 32
  const MaxInt32: int := 0x7fff_ffff

  /** A request's settings after their clamps; in clone mode the speaker comes with the request. */
  datatype Settings = Settings(
    voc: Engine, first: int, chunk: int, overlap: int, maxSemantic: int, clone: bool, cloneGlobal: seq<int>, echo: nat)

  ghost predicate ValidSettings(cfg: Settings) {
    && Upsamples(cfg.voc)
    && 1 <= cfg.first <= MaxInt32 && 1 <= cfg.chunk <= MaxInt32 && 0 <= cfg.overlap <= MaxInt32
    && cfg.maxSemantic <= MaxInt32 && (!cfg.clone ==> cfg.echo == 0)
  }

  datatype ChunkEvent = ChunkEvent(index: int, samples: seq<real>, isFinal: bool)

  // ---- what a token stream means, however it is cut into batches ----

  function InRange(ids: seq<int>, lo: int, hi: int): seq<int> {
    if ids == [] then []
    else
      var id := ids[|ids| - 1];
      InRange(ids[..|ids| - 1], lo, hi) + (if lo <= id <= hi then [id - lo] else [])
  }

  lemma InRangeSnoc(ids: seq<int>, id: int, lo: int, hi: int)
    ensures InRange(ids + [id], lo, hi) == InRange(ids, lo, hi) + (if lo <= id <= hi then [id - lo] else [])
  {
    assert (ids + [id])[..|ids|] == ids;
  }

  function Take(s: seq<int>, n: int): (r: seq<int>)
    ensures |r| <= |s| && (n >= 0 ==> |r| <= n)
  {
    if n <= 0 then [] else if n < |s| then s[..n] else s
  }

  function Drop(s: seq<int>, n: nat): seq<int> {
    if n <= |s| then s[n..] else []
  }

  /** The first 32 speaker tokens, or the voice profile's. */
  function GlobalOf(cfg: Settings, ids: seq<int>): seq<int> {
    if cfg.clone then cfg.cloneGlobal else Take(InRange(ids, GlobalIdBase, GlobalIdEnd), Globals)
  }

  /** The audio tokens after the echoed reference prefix, up to the cap. */
  function SemanticOf(cfg: Settings, ids: seq<int>): seq<int> {
    Take(Drop(InRange(ids, SemanticIdBase, SemanticIdEnd), cfg.echo), cfg.maxSemantic)
  }

  /** One more token id: a speaker token, an audio token, or neither. */
  lemma TokenSorted(cfg: Settings, ids: seq<int>, id: int)
    requires cfg.maxSemantic >= 0
    ensures var before := GlobalOf(cfg, ids);
            GlobalOf(cfg, ids + [id]) ==
            if !cfg.clone && 151665 <= id <= 155760 && |before| < 32 then before + [id - 151665] else before
    ensures var before := SemanticOf(cfg, ids); var echoed := |InRange(ids, SemanticIdBase, SemanticIdEnd)| < cfg.echo;
            SemanticOf(cfg, ids + [id]) ==
            if 155761 <= id <= 163952 && !echoed && |before| < cfg.maxSemantic then before + [id - 155761] else before
  {
    InRangeSnoc(ids, id, GlobalIdBase, GlobalIdEnd);
    InRangeSnoc(ids, id, SemanticIdBase, SemanticIdEnd);
    hide InRange;
  }

  function Flatten(batches: seq<seq<int>>): seq<int> {
    if batches == [] then [] else Flatten(batches[..|batches| - 1]) + batches[|batches| - 1]
  }

  // ---- the flush's 32-bit arithmetic ----

  function Wrap32(x: int): int {
    if x > MaxInt32 then x - 0x1_0000_0000 else x
  }

  /** Where the flush's last chunk would end if it were not clamped to the total. */
  function FlushEnd(from: int, total: int, chunk: int): int
    requires chunk > 0
  {
    from + ((total - from + chunk - 1) / chunk) * chunk
  }

  /** Every addition of the flush stays within int32. */
  predicate FlushFits(cfg: Settings, from: int, index: int, total: int)
    requires cfg.chunk > 0
  {
    var start := if index == 0 then cfg.first else from;
    from >= total || start >= total || FlushEnd(start, total, cfg.chunk) <= MaxInt32
  }

  /** The flush overflows: a matter of the settings and the number of audio tokens alone. */
  predicate Hangs(cfg: Settings, total: int)
    requires cfg.chunk > 0
  {
    cfg.first < total && FlushEnd(cfg.first, total, cfg.chunk) > 0x7fff_ffff
  }

  /** Live chunks are cut at first, first + chunk, first + 2 chunk, ..., however the tokens arrive. */
  ghost predicate OnGrid(cfg: Settings, cuts: seq<int>) {
    && (|cuts| > 1 ==> cuts[1] == cfg.first)
    && (forall k | 1 <= k < |cuts| - 1 :: cuts[k + 1] == cuts[k] + cfg.chunk)
  }

  /** How many tokens the chunk after cut k takes, if they are there. */
  function Want(cfg: Settings, k: int): int {
    if k == 0 then cfg.first else cfg.chunk
  }

  /** Every cut but 0 is the one before plus a chunk's worth, or the total if that is less. */
  ghost predicate GridTo(cfg: Settings, cuts: seq<int>, total: int) {
    forall k | 0 <= k < |cuts| - 1 ::
      cuts[k + 1] == if total < cuts[k] + Want(cfg, k) then total else cuts[k] + Want(cfg, k)
  }

  lemma OnGridTo(cfg: Settings, cuts: seq<int>, total: int)
    requires OnGrid(cfg, cuts) && Cuts(cuts, total)
    ensures GridTo(cfg, cuts, total)
  {}

  /** Cuts that follow the grid to the total are determined by the settings and the total alone. */
  lemma {:induction false} GridIsUnique(cfg: Settings, a: seq<int>, b: seq<int>, total: int, k: nat)
    requires Cuts(a, total) && Cuts(b, total) && GridTo(cfg, a, total) && GridTo(cfg, b, total)
    requires Last(a) == total && Last(b) == total && k < |a|
    ensures k < |b| && a[..k + 1] == b[..k + 1]
    ensures k == |a| - 1 ==> a == b
  {
    if k > 0 {
      GridIsUnique(cfg, a, b, total, k - 1);
      assert a[k - 1] < a[k];
      assert a[k - 1] == a[..k][k - 1] == b[..k][k - 1] == b[k - 1];
      assert a[..k + 1] == a[..k] + [a[k]] && b[..k + 1] == b[..k] + [b[k]];
    }
    if k == |a| - 1 {
      assert b[k] == total;
      assert |b| == k + 1;
    }
  }

  /** From any grid point the flush ends where it would end from the first one. */
  lemma {:induction false} GridEnd(cfg: Settings, cuts: seq<int>, total: int)
    requires cfg.chunk > 0 && Cuts(cuts, total) && OnGrid(cfg, cuts) && |cuts| > 1
    ensures Last(cuts) < total ==> FlushEnd(cfg.first, total, cfg.chunk) == FlushEnd(Last(cuts), total, cfg.chunk)
    ensures Last(cuts) == total && cfg.first < total ==> FlushEnd(cfg.first, total, cfg.chunk) == total
    decreases |cuts|
  {
    hide FlushEnd;
    var m := |cuts| - 1;
    if m > 1 {
      assert cuts[m - 1] < cuts[m] && cuts[m - 1 + 1] == cuts[m - 1] + cfg.chunk;
      GridEnd(cfg, cuts[..m], total);
      FlushEndStep(cuts[m - 1], total, cfg.chunk);
    }
  }

  lemma GridNext(cfg: Settings, cuts: seq<int>)
    requires OnGrid(cfg, cuts) && |cuts| > 0 && (|cuts| == 1 ==> cuts[0] == 0)
    ensures OnGrid(cfg, cuts + [Last(cuts) + if |cuts| == 1 then cfg.first else cfg.chunk])
  {}

  /** So whether the flush can finish does not depend on what was emitted live. */
  lemma HangsAnyway(cfg: Settings, cuts: seq<int>, total: int)
    requires 1 <= cfg.first && cfg.chunk > 0 && 0 < total <= MaxInt32 && Cuts(cuts, total) && OnGrid(cfg, cuts)
    ensures FlushFits(cfg, Last(cuts), |cuts| - 1, total) <==> !Hangs(cfg, total)
  {
    hide FlushEnd;
    CutsLast(cuts, total);
    if |cuts| > 1 {
      GridEnd(cfg, cuts, total);
      assert cuts[1] <= Last(cuts);
    }
  }

  lemma QuotientIs(x: int, c: int, q: int)
    requires c > 0 && q * c <= x < q * c + c
    ensures x / c == q
  {
    var p := x / c;
    assert x == p * c + x % c;
    if p < q { assert (p + 1) * c <= q * c by { Scale(p + 1, q, c); } }
    if p > q { assert (q + 1) * c <= p * c by { Scale(q + 1, p, c); } }
  }

  lemma Scale(a: int, b: int, c: int)
    requires a <= b && c >= 0
    ensures a * c <= b * c
  {}

  lemma FlushEndStep(from: int, total: int, chunk: int)
    requires chunk > 0 && from < total
    ensures from + chunk >= total ==> FlushEnd(from, total, chunk) == from + chunk
    ensures from + chunk < total ==> FlushEnd(from, total, chunk) == FlushEnd(from + chunk, total, chunk)
    ensures FlushEnd(from, total, chunk) >= from + chunk
  {
    var x := total - from + chunk - 1;
    var q := x / chunk;
    assert x == q * chunk + x % chunk;
    if from + chunk >= total {
      QuotientIs(x, chunk, 1);
    } else {
      Less(q, chunk);
      QuotientIs(x - chunk, chunk, q - 1);
      assert total - (from + chunk) + chunk - 1 == x - chunk;
      assert q >= 1 by { if q <= 0 { Scale(q, 0, chunk); } }
      Scale(1, q, chunk);
    }
  }

  lemma Less(q: int, c: int)
    ensures (q - 1) * c == q * c - c
  {}

  // ---- the request ----

  /** Chunk events whose samples are, in order, the pieces of wav between the cuts. */
  ghost predicate Pieces(events: seq<ChunkEvent>, wav: seq<real>, cuts: seq<int>) {
    && |events| == |cuts| - 1
    && forall j | 0 <= j < |events| :: IsPiece(events[j], j, wav, cuts[j], cuts[j + 1])
  }

  ghost predicate IsPiece(e: ChunkEvent, j: int, wav: seq<real>, from: int, to: int) {
    && 0 <= PerToken * from <= PerToken * to <= |wav|
    && e.index == j && e.samples == wav[PerToken * from..PerToken * to]
  }

  lemma PiecesGrow(events: seq<ChunkEvent>, wav: seq<real>, cuts: seq<int>, out: seq<real>, to: int, isFinal: bool)
    requires Pieces(events, wav, cuts) && |cuts| > 0 && |wav| == PerToken * Last(cuts)
    requires Last(cuts) <= to && |out| == PerToken * (to - Last(cuts))
    ensures Pieces(events + [ChunkEvent(|events|, out, isFinal)], wav + out, cuts + [to])
  {
    var events', wav', cuts' := events + [ChunkEvent(|events|, out, isFinal)], wav + out, cuts + [to];
    forall j | 0 <= j < |events'| ensures IsPiece(events'[j], j, wav', cuts'[j], cuts'[j + 1]) {
      if j < |events| {
        assert IsPiece(events[j], j, wav, cuts[j], cuts[j + 1]);
        assert wav'[PerToken * cuts[j]..PerToken * cuts[j + 1]] == wav[PerToken * cuts[j]..PerToken * cuts[j + 1]];
      } else {
        assert wav'[|wav|..] == out;
      }
    }
  }

  ghost predicate NoneFinal(events: seq<ChunkEvent>) {
    forall j | 0 <= j < |events| :: !events[j].isFinal
  }

  /** Exactly the last event is final: it carries the last piece, or it is an empty marker behind it. */
  ghost predicate Terminated(events: seq<ChunkEvent>, wav: seq<real>, cuts: seq<int>) {
    && |events| > 0 && (forall j | 0 <= j < |events| :: events[j].isFinal <==> j == |events| - 1)
    && var last := |events| - 1;
       || Pieces(events, wav, cuts)
       || (Pieces(events[..last], wav, cuts) && events[last].index == last && events[last].samples == [])
  }

  function TailOf(wav: seq<real>): seq<real> {
    if |wav| >= Fade then wav[|wav| - Fade..] else wav
  }

  lemma TailAppend(before: seq<real>, out: seq<real>)
    requires |out| >= Fade
    ensures TailOf(before + out) == TailOf(out)
  {}

  class Request {
    const cfg: Settings
    var global: seq<int>
    var semantic: seq<int>
    var skipped: nat
    var dVectorReady: bool
    var speaker: seq<int>            // what the slot's d_vector was last computed from
    var emittedTokens: int
    var chunkIndex: int
    var emittedSamples: int
    var crossfadeTail: seq<real>
    var wav: seq<real>
    var events: seq<ChunkEvent>
    ghost var seen: seq<int>         // every token id so far
    ghost var cuts: seq<int>         // where chunks were cut

    ghost predicate Parsed() reads this {
      && ValidSettings(cfg)
      && global == GlobalOf(cfg, seen) && semantic == SemanticOf(cfg, seen)
      && skipped == (var n := |InRange(seen, SemanticIdBase, SemanticIdEnd)|; if n < cfg.echo then n else cfg.echo)
      && (dVectorReady ==> |global| == Globals && speaker == global)
    }

    /** Everything emitted so far is the reference stream cut at `cuts`. */
    ghost predicate Voiced() reads this {
      && ValidSettings(cfg) && Cuts(cuts, |semantic|)
      && emittedTokens == Last(cuts) && chunkIndex == |cuts| - 1
      && (|cuts| > 1 ==> dVectorReady)
      && wav == Streamed(cfg.voc, speaker, semantic, cfg.overlap, cuts)
      && |wav| == PerToken * emittedTokens && emittedSamples == |wav|
      && crossfadeTail == TailOf(wav)
      && Pieces(events, wav, cuts)
    }

    constructor (cfg: Settings, stale: seq<int>)
      requires ValidSettings(cfg) && (cfg.clone ==> |cfg.cloneGlobal| == Globals)
      ensures this.cfg == cfg && Parsed() && Voiced() && OnGrid(cfg, cuts) && seen == [] && cuts == [0]
      ensures dVectorReady || |global| < Globals
    {
      this.cfg := cfg;
      global := if cfg.clone then cfg.cloneGlobal else [];
      dVectorReady := cfg.clone;
      speaker := if cfg.clone then cfg.cloneGlobal else stale;
      semantic, skipped := [], 0;
      emittedTokens, chunkIndex, emittedSamples, crossfadeTail := 0, 0, 0, [];
      wav, events := [], [];
      seen, cuts := [], [0];
    }

    /** Sorts one batch of token ids. */
    method ReadTokens(ids: seq<int>)
      requires Parsed()
      modifies this`global, this`semantic, this`skipped, this`seen
      ensures Parsed() && seen == old(seen) + ids
      ensures old(semantic) <= semantic && old(global) <= global
    {
      for i := 0 to |ids|
        invariant Parsed() && seen == old(seen) + ids[..i]
        invariant old(semantic) <= semantic && old(global) <= global
      {
        ReadToken(ids[i]);
        assert ids[..i + 1] == ids[..i] + [ids[i]];
      }
      assert ids[..|ids|] == ids;
    }

    method ReadToken(tid: int)
      requires Parsed()
      modifies this`global, this`semantic, this`skipped, this`seen
      ensures Parsed() && seen == old(seen) + [tid]
      ensures old(semantic) <= semantic && old(global) <= global
    {
      hide InRange, Upsamples;
      InRangeSnoc(seen, tid, GlobalIdBase, GlobalIdEnd);
      InRangeSnoc(seen, tid, SemanticIdBase, SemanticIdEnd);
      if GlobalIdBase <= tid <= GlobalIdEnd {
        if !cfg.clone && |global| < Globals {
          global := global + [tid - GlobalIdBase];
        }
      } else if SemanticIdBase <= tid <= SemanticIdEnd {
        if cfg.clone && skipped < cfg.echo {
          skipped := skipped + 1;
        } else if |semantic| < cfg.maxSemantic {
          semantic := semantic + [tid - SemanticIdBase];
        }
      }
      seen := seen + [tid];
    }

    /** The seam loop: blends the start of `out` with the saved tail, sample by sample. */
    method CrossfadeSeam(start: seq<real>, ghost before: seq<real>) returns (out: seq<real>)
      requires crossfadeTail == TailOf(before) && (before == [] || |before| >= Fade) && |start| >= Fade
      ensures out == Crossfaded(start, before)
    {
      hide Mix;
      out := start;
      if crossfadeTail != [] {
        var n := if |crossfadeTail| < Fade then |crossfadeTail| else Fade;
        for i := 0 to n
          invariant |out| == |start|
          invariant forall k | i <= k < |out| :: out[k] == start[k]
          invariant forall k | 0 <= k < i :: out[k] == Mix(k, start[k], before[|before| - Fade + k])
        {
          out := out[i := Mix(i, out[i], crossfadeTail[i])];
        }
      }
    }

    /** Vocodes tokens emittedTokens..endToken behind their left overlap and fades the seam. */
    method VocodeChunkWindow(endToken: int) returns (out: seq<real>)
      requires Voiced() && emittedTokens < endToken <= |semantic|
      modifies this`emittedTokens, this`crossfadeTail
      ensures out == Crossfaded(Fresh(cfg.voc, speaker, semantic, old(emittedTokens), endToken, cfg.overlap), wav)
      ensures |out| == PerToken * (endToken - old(emittedTokens))
      ensures emittedTokens == endToken && crossfadeTail == TailOf(out)
    {
      hide Crossfaded, RunBicodec, Streamed, Pieces, Upsamples, Fresh, Cuts;
      CutsLast(cuts, |semantic|);
      var windowStart := if 0 > emittedTokens - cfg.overlap then 0 else emittedTokens - cfg.overlap;
      var skipTokens := emittedTokens - windowStart;
      var full := RunBicodec(cfg.voc, speaker, semantic[windowStart..endToken]);
      var skipSamples := skipTokens * PerToken;
      WindowAudio(cfg, speaker, semantic, emittedTokens, endToken);
      if skipSamples >= |full| { return []; }
      out := CrossfadeSeam(full[skipSamples..], wav);
      crossfadeTail := if |out| >= Fade then out[|out| - Fade..] else out;
      emittedTokens := endToken;
    }

    method EmitAudioChunk(samples: seq<real>, isFinal: bool)
      modifies this`events, this`emittedSamples, this`chunkIndex
      ensures var dropped := samples == [] && !isFinal;
              events == old(events) + (if dropped then [] else [ChunkEvent(old(chunkIndex), samples, isFinal)])
      ensures var dropped := samples == [] && !isFinal; chunkIndex == old(chunkIndex) + if dropped then 0 else 1
      ensures emittedSamples == old(emittedSamples) + |samples|
    {
      if samples == [] && !isFinal { return; }
      events := events + [ChunkEvent(chunkIndex, samples, isFinal)];
      emittedSamples := emittedSamples + |samples|;
      chunkIndex := chunkIndex + 1;
    }

    /** One overlap chunk up to endToken; a request for nothing new changes nothing. */
    method EmitOneChunk(endToken: int, isFinal: bool) returns (emitted: bool)
      requires Voiced() && dVectorReady && endToken <= |semantic|
      modifies this`emittedTokens, this`crossfadeTail, this`events, this`emittedSamples, this`chunkIndex, this`wav,
               this`cuts
      ensures Voiced() && emitted == (endToken > old(emittedTokens))
      ensures !emitted ==> events == old(events) && cuts == old(cuts) && wav == old(wav)
      ensures emitted ==> cuts == old(cuts) + [endToken] && |events| == |old(events)| + 1
      ensures emitted ==> events[..|old(events)|] == old(events) && events[|old(events)|].isFinal == isFinal
    {
      hide Crossfaded, Fresh, Streamed, Pieces, Upsamples, Cuts, TailOf;
      if endToken <= emittedTokens { return false; }
      CutsLast(cuts, |semantic|);
      StreamedSnoc(cfg.voc, speaker, semantic, cfg.overlap, cuts, endToken);
      var cs := VocodeChunkWindow(endToken);
      PiecesGrow(events, wav, cuts, cs, endToken, isFinal);
      PiecesCount(events, wav, cuts);
      TailAppend(wav, cs);
      wav := wav + cs;
      EmitAudioChunk(cs, isFinal);
      cuts := cuts + [endToken];
      return true;
    }

    /** One popped batch: sort it, compute the speaker once 32 tokens are in, emit at most one chunk. */
    method Consume(ids: seq<int>)
      requires Parsed() && Voiced() && NoneFinal(events) && (dVectorReady || |global| < Globals) && OnGrid(cfg, cuts)
      modifies this
      ensures Parsed() && Voiced() && NoneFinal(events) && (dVectorReady || |global| < Globals) && OnGrid(cfg, cuts)
      ensures seen == old(seen) + ids && (dVectorReady <==> |global| == Globals)
      ensures var next := Last(old(cuts)) + Want(cfg, |old(cuts)| - 1);
              cuts == old(cuts) + if dVectorReady && next <= |semantic| then [next] else []
    {
      hide Streamed, Pieces, Upsamples, InRange, OnGrid, NoneFinal, TailOf;
      ghost var more := |semantic|;
      ReadTokens(ids);
      assert semantic == old(semantic) + semantic[more..];
      StreamedGrows(cfg.voc, speaker, old(semantic), semantic[more..], cfg.overlap, cuts);
      if !dVectorReady && |global| == Globals {
        StreamedNothing(cfg, speaker, global, semantic, cuts);
        speaker, dVectorReady := global, true;
      }
      if dVectorReady {
        EmitLive();
      }
    }

    /** While decoding runs: one chunk if a chunk's worth of audio tokens is there. */
    method EmitLive()
      requires Voiced() && NoneFinal(events) && dVectorReady && OnGrid(cfg, cuts)
      modifies this`emittedTokens, this`crossfadeTail, this`events, this`emittedSamples, this`chunkIndex, this`wav,
               this`cuts
      ensures Voiced() && NoneFinal(events) && OnGrid(cfg, cuts)
      ensures var next := Last(old(cuts)) + Want(cfg, |old(cuts)| - 1);
              cuts == old(cuts) + if next <= |semantic| then [next] else []
    {
      hide Streamed, Pieces, Upsamples, Cuts, TailOf, OnGrid;
      CutsLast(cuts, |semantic|);
      var want := if chunkIndex == 0 then cfg.first else cfg.chunk;
      if |semantic| - emittedTokens >= want {
        GridNext(cfg, cuts);
        var emitted := EmitOneChunk(emittedTokens + want, false);
        assert forall j | 0 <= j < |old(events)| :: events[j] == events[..|old(events)|][j];
      }
    }

    /** Emits what is left; `stuck` says that an iteration changed nothing, so the loop would never end. */
    method Flush() returns (stuck: bool)
      requires Parsed() && Voiced() && NoneFinal(events) && dVectorReady && semantic != []
      requires GridTo(cfg, cuts, |semantic|)
      modifies this`emittedTokens, this`crossfadeTail, this`events, this`emittedSamples, this`chunkIndex, this`wav,
               this`cuts
      ensures stuck <==> !FlushFits(cfg, old(emittedTokens), old(chunkIndex), |semantic|)
      ensures !stuck ==> Cuts(cuts, |semantic|) && Last(cuts) == |semantic| && old(cuts) <= cuts
      ensures !stuck ==> GridTo(cfg, cuts, |semantic|)
      ensures !stuck ==> wav == Streamed(cfg.voc, speaker, semantic, cfg.overlap, cuts) && emittedSamples == |wav|
      ensures !stuck ==> Terminated(events, wav, cuts) && chunkIndex == |events|
    {
      hide Streamed, Pieces, Upsamples, InRange, FlushEnd, Cuts, TailOf, GridTo, FlushFits;
      CutsLast(cuts, |semantic|);
      var total := |semantic|;
      var lastWasFinal := false;
      while emittedTokens < total
        invariant Voiced() && emittedTokens <= total && old(cuts) <= cuts && GridTo(cfg, cuts, total)
        invariant if lastWasFinal then emittedTokens == total && OneFinal(events) else NoneFinal(events)
        invariant FlushFits(cfg, old(emittedTokens), old(chunkIndex), total) <==>
                  FlushFits(cfg, emittedTokens, chunkIndex, total)
        decreases total - emittedTokens
      {
        var want := if chunkIndex == 0 then cfg.first else cfg.chunk;
        var sum := Wrap32(emittedTokens + want);
        var endToken := if total < sum then total else sum;
        FitsStep(cfg, emittedTokens, chunkIndex, total);
        var isFinal := endToken >= total;
        ghost var was := events;
        GridOn(cfg, cuts, total, endToken);
        var emitted := EmitOneChunk(endToken, isFinal);
        if !emitted { return true; }
        lastWasFinal := isFinal;
        assert forall j | 0 <= j < |was| :: events[j] == events[..|was|][j];
        CutsLast(cuts, |semantic|);
      }
      PiecesCount(events, wav, cuts);
      NoneLeft(cfg, total, chunkIndex);
      if !lastWasFinal {
        ghost var was := events;
        EmitAudioChunk([], true);
        assert events[..|was|] == was;
      }
      return false;
    }
  }

  /** Running the engine on the window and skipping the overlap's samples leaves the chunk's own audio. */
  lemma WindowAudio(cfg: Settings, sp: seq<int>, tokens: seq<int>, from: int, to: int)
    requires ValidSettings(cfg) && 0 <= from < to <= |tokens|
    ensures var ws := if from > cfg.overlap then from - cfg.overlap else 0;
            var full := RunBicodec(cfg.voc, sp, tokens[ws..to]);
            0 <= (from - ws) * PerToken < |full| &&
            full[(from - ws) * PerToken..] == Fresh(cfg.voc, sp, tokens, from, to, cfg.overlap)
    ensures |Fresh(cfg.voc, sp, tokens, from, to, cfg.overlap)| == PerToken * (to - from)
  {
    hide RunBicodec;
    var ws := WindowStart(from, cfg.overlap);
    BicodecSamples(cfg.voc, sp, tokens[ws..to]);
  }

  /** With nothing left the flush fits. */
  lemma NoneLeft(cfg: Settings, total: int, index: int)
    requires cfg.chunk > 0
    ensures FlushFits(cfg, total, index, total)
  {}

  /** One more cut where the grid says. */
  lemma GridOn(cfg: Settings, cuts: seq<int>, total: int, to: int)
    requires GridTo(cfg, cuts, total) && cuts != []
    ensures var next := Last(cuts) + Want(cfg, |cuts| - 1);
            to == (if total < next then total else next) ==> GridTo(cfg, cuts + [to], total)
  {}

  ghost predicate OneFinal(events: seq<ChunkEvent>) {
    |events| > 0 && forall j | 0 <= j < |events| :: events[j].isFinal <==> j == |events| - 1
  }

  lemma PiecesCount(events: seq<ChunkEvent>, wav: seq<real>, cuts: seq<int>)
    requires Pieces(events, wav, cuts)
    ensures |events| == |cuts| - 1
  {}

  lemma CutsLast(cuts: seq<int>, n: int)
    requires Cuts(cuts, n)
    ensures |cuts| > 0 && 0 <= Last(cuts) <= n && (|cuts| == 1 <==> Last(cuts) == 0)
  {
    assert |cuts| > 1 ==> cuts[0] < cuts[|cuts| - 1];
  }

  /** Before the first chunk the speaker does not matter. */
  lemma StreamedNothing(cfg: Settings, sp: seq<int>, sp': seq<int>, tokens: seq<int>, cuts: seq<int>)
    requires |cuts| == 1
    ensures Streamed(cfg.voc, sp, tokens, cfg.overlap, cuts) == Streamed(cfg.voc, sp', tokens, cfg.overlap, cuts)
  {}

  /** One flush iteration makes progress exactly when its addition fits, and then keeps the verdict. */
  lemma FitsStep(cfg: Settings, from: int, index: int, total: int)
    requires 1 <= cfg.first <= MaxInt32 && 1 <= cfg.chunk <= MaxInt32 && 0 <= from < total <= MaxInt32
    requires index >= 0 && (index == 0 ==> from == 0)
    ensures var want := if index == 0 then cfg.first else cfg.chunk; var sum := Wrap32(from + want);
            var to := if total < sum then total else sum;
            if to > from then FlushFits(cfg, from, index, total) <==> FlushFits(cfg, to, index + 1, total)
            else !FlushFits(cfg, from, index, total)
  {
    hide FlushEnd;
    if index > 0 { FlushEndStep(from, total, cfg.chunk); }
  }

  datatype Outcome = Finished(events: seq<ChunkEvent>, wav: seq<real>) | Failed | Hung

  /**
   A whole request, for any batching of the token ids. It fails exactly without 32 speaker tokens or
   without audio tokens, and hangs exactly when the settings make the flush's 32-bit addition overflow
   for that many tokens; otherwise its chunks cover the tokens from 0 to the last, in order and once,
   and exactly the last one is final.
   */
  method StreamRequest(cfg: Settings, stale: seq<int>, popped: seq<seq<int>>)
    returns (outcome: Outcome, ghost cuts: seq<int>)
    requires ValidSettings(cfg)
    ensures var tokens := SemanticOf(cfg, Flatten(popped));
            outcome.Failed? <==> |GlobalOf(cfg, Flatten(popped))| != Globals || tokens == []
    ensures var tokens := SemanticOf(cfg, Flatten(popped));
            outcome.Hung? <==> !outcome.Failed? && Hangs(cfg, |tokens|)
    ensures outcome.Finished? ==>
              var sp, tokens := GlobalOf(cfg, Flatten(popped)), SemanticOf(cfg, Flatten(popped));
              && Cuts(cuts, |tokens|) && Last(cuts) == |tokens| && GridTo(cfg, cuts, |tokens|)
              && outcome.wav == Streamed(cfg.voc, sp, tokens, cfg.overlap, cuts)
              && |outcome.wav| == PerToken * |tokens|
              && Terminated(outcome.events, outcome.wav, cuts)
  {
    hide Streamed, Pieces, Upsamples, InRange, FlushEnd, Terminated, NoneFinal, OnGrid, GridTo, FlushFits, TailOf,
         Hangs;
    cuts := [0];
    if cfg.clone && |cfg.cloneGlobal| != Globals { return Failed, cuts; }
    var request := new Request(cfg, stale);
    NothingEmitted(request.events, request.wav, request.cuts);
    for i := 0 to |popped|
      invariant request.cfg == cfg && OnGrid(cfg, request.cuts)
      invariant request.Parsed() && request.Voiced() && NoneFinal(request.events)
      invariant request.dVectorReady || |request.global| < Globals
      invariant request.seen == Flatten(popped[..i])
    {
      request.Consume(popped[i]);
      assert popped[..i + 1][..i] == popped[..i];
    }
    assert popped[..|popped|] == popped;
    if |request.global| != Globals || request.semantic == [] { return Failed, cuts; }
    HangsAnyway(cfg, request.cuts, |request.semantic|);
    OnGridTo(cfg, request.cuts, |request.semantic|);
    var stuck := request.Flush();
    if stuck { return Hung, cuts; }
    cuts := request.cuts;
    StreamedLength(cfg.voc, request.speaker, request.semantic, cfg.overlap, cuts);
    return Finished(request.events, request.wav), cuts;
  }

  /** However the same token ids are cut into batches, the outcome is of the same kind and the audio the same. */
  method AnyBatching(cfg: Settings, stale: seq<int>, stale': seq<int>, popped: seq<seq<int>>, popped': seq<seq<int>>)
    returns (outcome: Outcome, outcome': Outcome)
    requires ValidSettings(cfg) && Flatten(popped) == Flatten(popped')
    ensures (outcome.Failed? <==> outcome'.Failed?) && (outcome.Hung? <==> outcome'.Hung?)
    ensures outcome.Finished? ==> outcome'.Finished? && outcome.wav == outcome'.wav
  {
    hide Streamed, Terminated, Cuts, GridTo, Upsamples, InRange, FlushEnd;
    ghost var cuts, cuts';
    outcome, cuts := StreamRequest(cfg, stale, popped);
    outcome', cuts' := StreamRequest(cfg, stale', popped');
    if outcome.Finished? {
      ghost var total := |SemanticOf(cfg, Flatten(popped))|;
      CutsLast(cuts, total);
      GridIsUnique(cfg, cuts, cuts', total, |cuts| - 1);
    }
  }

  lemma NothingEmitted(events: seq<ChunkEvent>, wav: seq<real>, cuts: seq<int>)
    requires Pieces(events, wav, cuts) && |cuts| == 1
    ensures NoneFinal(events)
  {}

  function Repeat(id: int, n: nat): (ids: seq<int>)
    ensures |ids| == n
  {
    seq(n, i => id)
  }

  lemma {:induction false} InRangeRepeat(head: seq<int>, id: int, n: nat, lo: int, hi: int)
    ensures |InRange(head + Repeat(id, n), lo, hi)| == |InRange(head, lo, hi)| + (if lo <= id <= hi then n else 0)
  {
    hide InRange;
    if n == 0 {
      assert head + Repeat(id, 0) == head;
    } else {
      InRangeRepeat(head, id, n - 1, lo, hi);
      InRangeSnoc(head + Repeat(id, n - 1), id, lo, hi);
      assert head + Repeat(id, n) == head + Repeat(id, n - 1) + [id];
    }
  }

  /** The overflow is real: the default first chunk, the largest chunk setting, 32 speaker and 13 audio tokens. */
  method HangingRequest(voc: Engine, stale: seq<int>) returns (cfg: Settings, popped: seq<seq<int>>, outcome: Outcome)
    requires Upsamples(voc)
    ensures cfg == Settings(voc, 12, MaxInt32, 12, 600, false, [], 0) && |popped| == 1 && |popped[0]| == 45
    ensures outcome.Hung?
  {
    hide InRange, FlushEnd, Upsamples;
    cfg := Settings(voc, 12, MaxInt32, 12, 600, false, [], 0);
    var ids := [] + Repeat(GlobalIdBase, 32) + Repeat(SemanticIdBase, 13);
    popped := [ids];
    NothingInRange(GlobalIdBase, GlobalIdEnd);
    NothingInRange(SemanticIdBase, SemanticIdEnd);
    InRangeRepeat([], GlobalIdBase, 32, GlobalIdBase, GlobalIdEnd);
    InRangeRepeat([], GlobalIdBase, 32, SemanticIdBase, SemanticIdEnd);
    InRangeRepeat([] + Repeat(GlobalIdBase, 32), SemanticIdBase, 13, GlobalIdBase, GlobalIdEnd);
    InRangeRepeat([] + Repeat(GlobalIdBase, 32), SemanticIdBase, 13, SemanticIdBase, SemanticIdEnd);
    assert popped[..0] == [];
    assert Flatten(popped) == ids;
    FlushEndStep(12, 13, MaxInt32);
    ghost var cuts;
    outcome, cuts := StreamRequest(cfg, stale, popped);
  }

  lemma NothingInRange(lo: int, hi: int)
    ensures InRange([], lo, hi) == []
  {}
}

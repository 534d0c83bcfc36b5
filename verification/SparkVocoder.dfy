/**
 The overlap-chunk vocoder of the SparkTTS worker. The BiCodec engine is a parameter `voc` from a
 speaker and a token window to samples; of it only its rate and, where stated, its causality is used.
 Samples are reals.
 */
module SparkVocoder {

  type Engine = (seq<int>, seq<int>) -> seq<real>

  const MinT: int := 8
  const PerToken: int := 320
  const Fade: int := 160

  /** 320 samples for each token of a window the engine's profile admits. */
  ghost predicate Upsamples(voc: Engine) {
    forall sp, w :: |w| >= MinT ==> |voc(sp, w)| == PerToken * |w|
  }

  function Slice(s: seq<int>, from: int, to: int): (r: seq<int>)
    ensures 0 <= from <= to <= |s| ==> |r| == to - from
  {
    if 0 <= from <= to <= |s| then s[from..to] else []
  }

  // ---- runBicodec ----

  /** Short windows repeat their last token up to the engine's minimum. */
  function Padded(w: seq<int>): (p: seq<int>)
    ensures |p| == if |w| < 8 then 8 else |w|
    ensures forall i | 0 <= i < |p| :: p[i] == if i < |w| then w[i] else if w == [] then 0 else w[|w| - 1]
    decreases MinT - |w|
  {
    if |w| >= MinT then w else Padded(w + [if w == [] then 0 else w[|w| - 1]])
  }

  function RunBicodec(voc: Engine, sp: seq<int>, w: seq<int>): seq<real> {
    var wav := voc(sp, Padded(w));
    if |w| < |Padded(w)| && PerToken * |w| <= |wav| then wav[..PerToken * |w|] else wav
  }

  /** Padding shows neither in the length nor in the samples kept. */
  lemma {:induction false} BicodecSamples(voc: Engine, sp: seq<int>, w: seq<int>)
    requires Upsamples(voc)
    ensures |RunBicodec(voc, sp, w)| == PerToken * |w| <= |voc(sp, Padded(w))|
    ensures forall t | 0 <= t < PerToken * |w| :: RunBicodec(voc, sp, w)[t] == voc(sp, Padded(w))[t]
  {
    hide Padded;
    assert |voc(sp, Padded(w))| == PerToken * |Padded(w)|;
  }

  // ---- one chunk ----

  function WindowStart(from: int, overlap: int): int {
    if from > overlap then from - overlap else 0
  }

  /** Tokens from..to, vocoded behind up to `overlap` tokens of left context whose audio is dropped. */
  function Fresh(voc: Engine, sp: seq<int>, tokens: seq<int>, from: int, to: int, overlap: int): seq<real> {
    var ws := WindowStart(from, overlap);
    var all := RunBicodec(voc, sp, Slice(tokens, ws, to));
    var skip := PerToken * (from - ws);
    if 0 <= skip < |all| then all[skip..] else []
  }

  function Mix(i: int, sample: real, tail: real): real {
    var a := i as real / Fade as real;
    a * sample + (1.0 - a) * tail
  }

  /** i parts of the new sample, 160 - i parts of the old one. */
  lemma MixParts(i: int, sample: real, tail: real)
    ensures 160.0 * Mix(i, sample, tail) == i as real * sample + (160 - i) as real * tail
  {
    var a := i as real / Fade as real;
    assert 160.0 * a == i as real;
    assert 160.0 * (a * sample) == (160.0 * a) * sample;
    assert 160.0 * ((1.0 - a) * tail) == (160.0 - 160.0 * a) * tail;
  }

  /** The first samples of a chunk fade in from the last samples emitted before it. */
  function Crossfaded(out: seq<real>, before: seq<real>): (r: seq<real>)
    ensures |r| == |out|
  {
    if |before| < Fade || |out| < Fade then out
    else seq(|out|, i requires 0 <= i < |out| =>
           if i < Fade then Mix(i, out[i], before[|before| - Fade + i]) else out[i])
  }

  // ---- the whole stream, from its cut points alone ----

  /** 0 = cuts[0] < cuts[1] < ... <= n: chunk j covers tokens cuts[j]..cuts[j + 1]. */
  ghost predicate Cuts(cuts: seq<int>, n: int) {
    && |cuts| > 0 && cuts[0] == 0
    && (forall j | 0 <= j < |cuts| :: 0 <= cuts[j] <= n)
    && (forall i, j | 0 <= i < j < |cuts| :: cuts[i] < cuts[j])
  }

  function Last(cuts: seq<int>): int {
    if cuts == [] then 0 else cuts[|cuts| - 1]
  }

  function Streamed(voc: Engine, sp: seq<int>, tokens: seq<int>, overlap: int, cuts: seq<int>): seq<real> {
    if |cuts| <= 1 then []
    else
      var m := |cuts| - 1;
      var before := Streamed(voc, sp, tokens, overlap, cuts[..m]);
      before + Crossfaded(Fresh(voc, sp, tokens, cuts[m - 1], cuts[m], overlap), before)
  }

  lemma {:induction false} FreshLength(voc: Engine, sp: seq<int>, tokens: seq<int>, from: int, to: int, overlap: int)
    requires Upsamples(voc) && 0 <= from <= to <= |tokens| && overlap >= 0
    ensures |Fresh(voc, sp, tokens, from, to, overlap)| == PerToken * (to - from)
  {
    hide RunBicodec;
    var ws := WindowStart(from, overlap);
    BicodecSamples(voc, sp, Slice(tokens, ws, to));
    assert |Slice(tokens, ws, to)| == to - ws;
  }

  /** A window shorter than 8 tokens repeats its last one. */
  function Filled(window: seq<int>): seq<int>
    requires window != []
  {
    if |window| < 8 then window + seq(8 - |window|, _ => window[|window| - 1]) else window
  }

  lemma PaddedIsFilled(window: seq<int>)
    requires window != []
    ensures Padded(window) == Filled(window)
  {
    hide Padded;
  }

  /** A chunk is the end of its window's audio: tokens max(0, from - overlap)..to, less the context's samples. */
  lemma ChunkWindow(voc: Engine, sp: seq<int>, tokens: seq<int>, from: int, to: int, overlap: int)
    requires Upsamples(voc) && 0 <= from < to <= |tokens| && overlap >= 0
    ensures var ws := if from > overlap then from - overlap else 0; var audio := voc(sp, Filled(tokens[ws..to]));
            && |audio| >= 320 * (to - ws)
            && Fresh(voc, sp, tokens, from, to, overlap) == audio[320 * (from - ws)..320 * (to - ws)]
  {
    hide RunBicodec, Padded, Filled, Upsamples;
    var ws := WindowStart(from, overlap);
    var window := tokens[ws..to];
    PaddedIsFilled(window);
    BicodecSamples(voc, sp, window);
    var all, audio := RunBicodec(voc, sp, window), voc(sp, Filled(window));
    assert all == audio[..320 * (to - ws)];
    assert audio[..320 * (to - ws)][320 * (from - ws)..] == audio[320 * (from - ws)..320 * (to - ws)];
  }

  /** Streaming yields exactly 320 samples a token. */
  lemma {:induction false} StreamedLength(voc: Engine, sp: seq<int>, tokens: seq<int>, overlap: int, cuts: seq<int>)
    requires Upsamples(voc) && Cuts(cuts, |tokens|) && overlap >= 0
    ensures |Streamed(voc, sp, tokens, overlap, cuts)| == 320 * Last(cuts)
    decreases |cuts|
  {
    hide Fresh, Crossfaded, Upsamples;
    var m := |cuts| - 1;
    if m > 0 {
      StreamedLength(voc, sp, tokens, overlap, cuts[..m]);
      FreshLength(voc, sp, tokens, cuts[m - 1], cuts[m], overlap);
    }
  }

  lemma {:induction false} StreamedSnoc(
    voc: Engine, sp: seq<int>, tokens: seq<int>, overlap: int, cuts: seq<int>, to: int)
    requires Cuts(cuts, |tokens|) && Last(cuts) < to <= |tokens|
    ensures Cuts(cuts + [to], |tokens|)
    ensures var before := Streamed(voc, sp, tokens, overlap, cuts);
            Streamed(voc, sp, tokens, overlap, cuts + [to]) ==
            before + Crossfaded(Fresh(voc, sp, tokens, Last(cuts), to, overlap), before)
  {
    hide Fresh, Crossfaded;
    assert (cuts + [to])[..|cuts|] == cuts;
  }

  /** Tokens that arrive later do not change what is already vocoded. */
  lemma {:induction false} StreamedGrows(
    voc: Engine, sp: seq<int>, tokens: seq<int>, more: seq<int>, overlap: int, cuts: seq<int>)
    requires Cuts(cuts, |tokens|) && overlap >= 0
    ensures Streamed(voc, sp, tokens + more, overlap, cuts) == Streamed(voc, sp, tokens, overlap, cuts)
    decreases |cuts|
  {
    hide Fresh, Crossfaded;
    var m := |cuts| - 1;
    if m > 0 {
      StreamedGrows(voc, sp, tokens, more, overlap, cuts[..m]);
      FreshGrows(voc, sp, tokens, more, cuts[m - 1], cuts[m], overlap);
    }
  }

  lemma {:induction false} FreshGrows(
    voc: Engine, sp: seq<int>, tokens: seq<int>, more: seq<int>, from: int, to: int, overlap: int)
    requires 0 <= from <= to <= |tokens| && overlap >= 0
    ensures Fresh(voc, sp, tokens + more, from, to, overlap) == Fresh(voc, sp, tokens, from, to, overlap)
  {
    hide RunBicodec;
    var ws := WindowStart(from, overlap);
    assert Slice(tokens + more, ws, to) == Slice(tokens, ws, to);
  }

  // ---- causal engines ----

  /** Token i of u and token j of v look back on the same `reach` tokens, or on the same whole prefix. */
  predicate SameReach(u: seq<int>, i: int, v: seq<int>, j: int, reach: int) {
    && 0 <= i < |u| && 0 <= j < |v|
    && (i < reach || j < reach ==> i == j)
    && (forall d | 0 <= d <= reach && d <= i :: Ago(u, i, d) == Ago(v, j, d))
  }

  /** The token d places before place i. */
  function Ago(u: seq<int>, i: int, d: int): int {
    if 0 <= i - d < |u| then u[i - d] else 0
  }

  predicate SameFrame(x: seq<real>, i: int, y: seq<real>, j: int) {
    forall r | 0 <= r < PerToken && 0 <= PerToken * i + r < |x| && 0 <= PerToken * j + r < |y| ::
      Sample(x, i, r) == Sample(y, j, r)
  }

  function Sample(x: seq<real>, i: int, r: int): real {
    if 0 <= PerToken * i + r < |x| then x[PerToken * i + r] else 0.0
  }

  /** A token's 320 samples depend on it and the `reach` tokens before it, and on nothing else. */
  ghost predicate Causal(voc: Engine, reach: nat) {
    forall sp, u, v, i, j | |u| >= MinT && |v| >= MinT && SameReach(u, i, v, j, reach) ::
      SameFrame(voc(sp, u), i, voc(sp, v), j)
  }

  lemma {:induction false} PaddedAgo(w: seq<int>, i: int, d: int)
    requires 0 <= d <= i < |w|
    ensures i < |Padded(w)| && Ago(Padded(w), i, d) == Ago(w, i, d)
  {
    hide Padded;
  }

  lemma {:induction false} SliceAgo(tokens: seq<int>, ws: int, to: int, k: int, d: int)
    requires 0 <= ws <= k < to <= |tokens| && 0 <= d <= k - ws
    ensures Ago(Slice(tokens, ws, to), k - ws, d) == Ago(tokens, k, d)
  {}

  lemma {:induction false} WindowAgo(tokens: seq<int>, ws: int, to: int, k: int, i: int, d: int)
    requires 0 <= ws <= k < to <= |tokens| && i == k - ws && 0 <= d <= i
    ensures Ago(Padded(Slice(tokens, ws, to)), i, d) == Ago(Padded(tokens), k, d)
  {
    hide *;
    PaddedAgo(Slice(tokens, ws, to), i, d);
    SliceAgo(tokens, ws, to, k, d);
    PaddedAgo(tokens, k, d);
  }

  /** Window offset k - ws sees what the whole utterance's token k sees. */
  lemma {:induction false} WindowReach(tokens: seq<int>, ws: int, to: int, k: int, reach: nat)
    requires 0 <= ws <= k < to <= |tokens| && (ws == 0 || k - ws >= reach)
    ensures SameReach(Padded(Slice(tokens, ws, to)), k - ws, Padded(tokens), k, reach)
  {
    hide Padded, Ago, Slice;
    var i := k - ws;
    forall d | 0 <= d <= i ensures Ago(Padded(Slice(tokens, ws, to)), i, d) == Ago(Padded(tokens), k, d) {
      WindowAgo(tokens, ws, to, k, i, d);
    }
  }

  /** With reach within the overlap, the kept part of a chunk is the one-shot audio of its tokens. */
  lemma {:induction false} FreshIsOneShot(
    voc: Engine, sp: seq<int>, tokens: seq<int>, from: int, to: int, overlap: int, reach: nat, k: int, r: int)
    requires Upsamples(voc) && Causal(voc, reach) && reach <= overlap && 0 <= from <= k < to <= |tokens|
    requires 0 <= r < PerToken
    ensures Sample(Fresh(voc, sp, tokens, from, to, overlap), k - from, r) == Sample(RunBicodec(voc, sp, tokens), k, r)
  {
    hide Padded, SameReach, RunBicodec;
    var ws := WindowStart(from, overlap);
    var w := Slice(tokens, ws, to);
    WindowReach(tokens, ws, to, k, reach);
    BicodecSamples(voc, sp, w);
    BicodecSamples(voc, sp, tokens);
    var x, y := voc(sp, Padded(w)), voc(sp, Padded(tokens));
    assert SameFrame(x, k - ws, y, k);
    assert Sample(x, k - ws, r) == Sample(y, k, r);
  }

  lemma {:induction false} FreshSample(
    voc: Engine, sp: seq<int>, tokens: seq<int>, from: int, to: int, overlap: int, reach: nat, t: int)
    requires Upsamples(voc) && Causal(voc, reach) && reach <= overlap && 0 <= from <= to <= |tokens|
    requires PerToken * from <= t < PerToken * to
    ensures |RunBicodec(voc, sp, tokens)| == PerToken * |tokens|
    ensures |Fresh(voc, sp, tokens, from, to, overlap)| == PerToken * (to - from)
    ensures Fresh(voc, sp, tokens, from, to, overlap)[t - PerToken * from] == RunBicodec(voc, sp, tokens)[t]
  {
    hide Fresh, RunBicodec, Causal, Upsamples;
    var k := t / PerToken;
    FreshIsOneShot(voc, sp, tokens, from, to, overlap, reach, k, t % PerToken);
    FreshLength(voc, sp, tokens, from, to, overlap);
    BicodecSamples(voc, sp, tokens);
  }

  /** Sample t lies in chunk j. */
  predicate InChunk(cuts: seq<int>, j: int, t: int) {
    0 <= j < |cuts| - 1 && PerToken * cuts[j] <= t < PerToken * cuts[j + 1]
  }

  /**
   What streaming makes of sample t: the one-shot sample; or, at place i < 160 of a later chunk, i parts
   of it and 160 - i parts of the sample emitted 160 places before, so that place 0 repeats that sample.
   */
  ghost predicate StreamedFrom(wav: seq<real>, one: seq<real>, t: int, later: bool, seam: int) {
    && Fade <= t + (if later then 0 else Fade) && 0 <= t < |wav| && t < |one|
    && (if later && seam < 160
        then 160.0 * wav[t] == seam as real * one[t] + (160 - seam) as real * wav[t - 160]
        else wav[t] == one[t])
  }

  lemma ChunkSample(before: seq<real>, out: seq<real>, one: seq<real>, from: int, t: int)
    requires |before| == PerToken * from && |out| >= Fade && PerToken * from <= t < PerToken * from + |out|
    requires t < |one| && out[t - PerToken * from] == one[t]
    ensures StreamedFrom(before + Crossfaded(out, before), one, t, from > 0, t - PerToken * from)
  {
    hide Mix;
    var i, r := t - PerToken * from, Crossfaded(out, before);
    assert (before + r)[t] == r[i];
    if from > 0 && i < Fade {
      assert (before + r)[t - Fade] == before[|before| - Fade + i];
      MixParts(i, one[t], before[|before| - Fade + i]);
    }
  }

  lemma PrefixSample(before: seq<real>, more: seq<real>, one: seq<real>, t: int, later: bool, seam: int)
    requires StreamedFrom(before, one, t, later, seam)
    ensures StreamedFrom(before + more, one, t, later, seam)
  {
    hide Mix;
  }

  /**
   When the engine is causal within the overlap, every streamed sample is the one-shot sample, except
   that the first 160 samples of a later chunk are mixed with the 160 samples emitted just before it.
   */
  lemma {:induction false} StreamedSample(
    voc: Engine, sp: seq<int>, tokens: seq<int>, overlap: int, reach: nat, cuts: seq<int>, j: int, t: int)
    requires Upsamples(voc) && Causal(voc, reach) && reach <= overlap
    requires Cuts(cuts, |tokens|) && InChunk(cuts, j, t)
    ensures StreamedFrom(Streamed(voc, sp, tokens, overlap, cuts), RunBicodec(voc, sp, tokens),
                         t, j > 0, t - PerToken * cuts[j])
    decreases |cuts|
  {
    hide Causal, Fresh, RunBicodec, StreamedFrom, Upsamples, Crossfaded;
    var m := |cuts| - 1;
    var head := cuts[..m];
    var before := Streamed(voc, sp, tokens, overlap, head);
    var one := RunBicodec(voc, sp, tokens);
    StreamedLength(voc, sp, tokens, overlap, head);
    var out := Fresh(voc, sp, tokens, cuts[m - 1], cuts[m], overlap);
    if j == m - 1 {
      FreshSample(voc, sp, tokens, cuts[m - 1], cuts[m], overlap, reach, t);
      ChunkSample(before, out, one, cuts[j], t);
      assert j > 0 ==> cuts[0] < cuts[j];
    } else {
      StreamedSample(voc, sp, tokens, overlap, reach, head, j, t);
      PrefixSample(before, Crossfaded(out, before), one, t, j > 0, t - PerToken * cuts[j]);
    }
  }

  /** Every streamed sample lies in some chunk. */
  lemma {:induction false} ChunkOfSample(cuts: seq<int>, n: int, t: int) returns (j: int)
    requires Cuts(cuts, n) && 0 <= t < PerToken * Last(cuts)
    ensures InChunk(cuts, j, t)
    decreases |cuts|
  {
    var m := |cuts| - 1;
    if t >= PerToken * cuts[m - 1] {
      j := m - 1;
    } else {
      j := ChunkOfSample(cuts[..m], n, t);
    }
  }

  /** So outside the first 160 samples of each later chunk, streaming is one-shot vocoding. */
  lemma StreamingIsOneShot(voc: Engine, sp: seq<int>, tokens: seq<int>, overlap: int, reach: nat, cuts: seq<int>)
    requires Upsamples(voc) && Causal(voc, reach) && reach <= overlap
    requires Cuts(cuts, |tokens|) && Last(cuts) == |tokens|
    ensures var wav, one := Streamed(voc, sp, tokens, overlap, cuts), RunBicodec(voc, sp, tokens);
            && |wav| == |one| == PerToken * |tokens|
            && forall t | 0 <= t < |wav| && !InSeam(cuts, t) :: wav[t] == one[t]
  {
    hide Causal, Upsamples, Streamed, RunBicodec, Mix;
    StreamedLength(voc, sp, tokens, overlap, cuts);
    BicodecSamples(voc, sp, tokens);
    var wav, one := Streamed(voc, sp, tokens, overlap, cuts), RunBicodec(voc, sp, tokens);
    forall t | 0 <= t < |wav| && !InSeam(cuts, t) ensures wav[t] == one[t] {
      var j := ChunkOfSample(cuts, |tokens|, t);
      StreamedSample(voc, sp, tokens, overlap, reach, cuts, j, t);
      assert !SeamOf(cuts, j, t);
    }
  }

  /** t is one of the first 160 samples of a chunk other than the first. */
  ghost predicate InSeam(cuts: seq<int>, t: int) {
    exists j :: SeamOf(cuts, j, t)
  }

  predicate SeamOf(cuts: seq<int>, j: int, t: int) {
    0 < j < |cuts| - 1 && PerToken * cuts[j] <= t < PerToken * cuts[j] + Fade
  }

  // ---- an engine that looks back ----

  /** Each token's samples are its own value plus that of the token before it. */
  function LookBack(sp: seq<int>, w: seq<int>): (wav: seq<real>)
    ensures |wav| == PerToken * |w|
  {
    seq(PerToken * |w|, t requires 0 <= t < PerToken * |w| => (w[t / PerToken] + Ago(w, t / PerToken, 1)) as real)
  }

  lemma LookBackSample(sp: seq<int>, w: seq<int>, i: int, r: int)
    requires 0 <= i < |w| && 0 <= r < PerToken
    ensures Sample(LookBack(sp, w), i, r) == (w[i] + Ago(w, i, 1)) as real
  {
    assert (PerToken * i + r) / PerToken == i;
  }

  /** What is asked of an engine is met by one that needs its own token and the one before, and does hear them. */
  lemma LookBackIsCausal(sp: seq<int>, w: seq<int>, i: nat)
    ensures Upsamples(LookBack) && Causal(LookBack, 1)
    ensures i + 1 < |w| ==> LookBack(sp, w)[320 * (i + 1)] == (w[i + 1] + w[i]) as real
  {
    if i + 1 < |w| { LookBackSample(sp, w, i + 1, 0); }
    hide LookBack, Ago;
    forall sp, u, v, i, j | |u| >= MinT && |v| >= MinT && SameReach(u, i, v, j, 1)
      ensures SameFrame(LookBack(sp, u), i, LookBack(sp, v), j)
    {
      assert Ago(u, i, 0) == Ago(v, j, 0);
      assert i > 0 ==> Ago(u, i, 1) == Ago(v, j, 1);
      forall r | 0 <= r < PerToken ensures Sample(LookBack(sp, u), i, r) == Sample(LookBack(sp, v), j, r) {
        LookBackSample(sp, u, i, r);
        LookBackSample(sp, v, j, r);
      }
    }
  }
}

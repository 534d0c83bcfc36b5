/**
 What a streaming ASR session answers over whole runs: every chunk's answer, the chain of partial
 transcripts behind confirmed prefixes, and the final of the legacy prefix mode, each said by the core's
 answers and the tokenizer alone.
 */
module AsrTranscripts {
  import opened Options
  import opened AsrPrefix
  import opened AsrSession
  import opened AsrWorker
  import opened AsrRuns

  // ---- the prefix a hop may keep ----

  /** p is the text of e tokens: the most that may be kept without cutting a character, or the least. */
  ghost predicate KeepsTokens(tok: Tokenizer, tokens: seq<int>, unfixed: int, finish: bool, e: nat, p: string) {
    var most, least := |tokens| - unfixed, if finish then 1 else 0;
    && least <= e <= |tokens| && most <= |tokens|
    && p == (if e == 0 then "" else tok.decode(tokens[..e]))
    && (e == least || (e <= most && '\U{FFFD}' !in p))
    && forall j | 0 < j && e < j <= most :: '\U{FFFD}' in tok.decode(tokens[..j])
  }

  /** What may be kept of the previous raw text after `done` partials: nothing while warming up. */
  ghost predicate Keeps(cfg: Config, previous: string, done: nat, finish: bool, p: string) {
    var tokens := cfg.tok.encode(previous);
    if !cfg.tok.loaded || previous == "" || done < cfg.warmup || tokens == [] then p == ""
    else exists e :: KeepsTokens(cfg.tok, tokens, cfg.unfixed, finish, e, p)
  }

  lemma PrefixKeeps(cfg: Config, l: Local, done: nat, finish: bool)
    requires cfg.unfixed >= 1 && l.hops == done
    ensures Keeps(cfg, l.raw, done, finish, Prefix(cfg, l, finish))
  {
    hide Rollback;
    var tokens := cfg.tok.encode(l.raw);
    if cfg.tok.loaded && l.raw != "" && done >= cfg.warmup && tokens != [] {
      var e: nat := ConfirmedIsLongestClean(cfg.tok, l.raw, l.hops, cfg.warmup, cfg.unfixed, finish);
      forall j | 0 < j && e < j <= |tokens| - cfg.unfixed ensures '\U{FFFD}' in cfg.tok.decode(tokens[..j]) {
        assert !Clean(Text(cfg.tok, tokens, j));
      }
      assert KeepsTokens(cfg.tok, tokens, cfg.unfixed, finish, e, Prefix(cfg, l, finish));
    }
  }

  // ---- answers ----

  /** The raw text behind prefix p: p and the parsed continuation. */
  function RawOf(cfg: Config, p: string, out: CoreOut): string {
    p + if out.text.Some? then cfg.parse(out.text.value) else ""
  }

  /** A prefix-mode partial: the core continued a text that may be kept, and said so or failed. */
  ghost predicate Continued(cfg: Config, meta: string, audio: Audio, previous: string, done: nat, p: string, e: Event) {
    && Keeps(cfg, previous, done, false, p)
    && var out := cfg.core(Continue(meta, audio, p));
       e == if out.ok then Partial(cfg.strip(RawOf(cfg, p, out))) else PartialFailed(out.error)
  }

  /** The answer to a chunk, from the payloads since begin (its own last) and the partials before it. */
  ghost predicate Answers(cfg: Config, meta: string, ps: seq<Payload>, previous: string, done: nat, e: Event) {
    var pcm, audio := LastPcm(ps), AudioAfter(cfg, ps);
    if pcm != "" && !cfg.pcmSupported then e == PcmUnsupported
    else if pcm != "" && !cfg.convertible(pcm) then e == PcmFailed
    else if audio.NoAudio? then e == ChunkAck
    else if cfg.prefixMode then exists p :: Continued(cfg, meta, audio, previous, done, p, e)
    else
      var out := cfg.core(OneShot(meta, audio));
      e == if !out.ok then PartialFailed(out.error)
           else Partial(if out.text.Some? then cfg.strip(out.text.value) else "")
  }

  /** The last of the raw texts, "" if there is none. */
  function Latest(raws: seq<string>): string {
    if raws == [] then "" else raws[|raws| - 1]
  }

  // ---- the chain of partials ----

  /** A partial as it was told, with the audio it was decoded from. */
  datatype Told = Told(text: string, audio: Audio)

  /** The partials told since the session's begin, off its events and its script. */
  ghost function PartialsSince(cfg: Config, who: string, lines: seq<Line>, refused: set<nat>): seq<Told> {
    if lines == [] then []
    else
      var n := |lines| - 1;
      var before, sc := PartialsSince(cfg, who, lines[..n], refused), ScriptOf(who, lines, refused);
      var was, now := Solo(cfg, who, lines[..n], refused).1, Solo(cfg, who, lines, refused).1;
      if sc.None? then []
      else if |now| > |was| && now[|now| - 1].Partial? then
        before + [Told(now[|now| - 1].text, AudioAfter(cfg, sc.value.payloads))]
      else before
  }

  /** Partial k is the stripped raw text k, which continues what may be kept of raw text k - 1. */
  ghost predicate Link(cfg: Config, meta: string, told: seq<Told>, raws: seq<string>, k: nat)
    requires k < |told| == |raws|
  {
    var previous := if k == 0 then "" else raws[k - 1];
    told[k].text == cfg.strip(raws[k]) && exists p :: Extends(cfg, meta, told[k].audio, previous, k, p, raws[k])
  }

  ghost predicate Extends(
    cfg: Config, meta: string, audio: Audio, previous: string, done: nat, p: string, raw: string)
  {
    && Keeps(cfg, previous, done, false, p)
    && var out := cfg.core(Continue(meta, audio, p)); out.ok && raw == RawOf(cfg, p, out)
  }

  ghost predicate Chained(cfg: Config, meta: string, told: seq<Told>, raws: seq<string>) {
    |told| == |raws| && forall k: nat | k < |told| :: Link(cfg, meta, told, raws, k)
  }

  /** The session's fields are those of its script and of the chain. */
  ghost predicate Holds(cfg: Config, l: Local, sc: Script, told: seq<Told>, raws: seq<string>) {
    && Follows(cfg, Some(l), Some(sc)) && l.hops == |raws| && l.raw == Latest(raws)
    && Chained(cfg, sc.meta, told, raws)
  }

  lemma ChainedSnoc(
    cfg: Config, meta: string, told: seq<Told>, raws: seq<string>, audio: Audio, p: string, raw: string)
    requires Chained(cfg, meta, told, raws) && Extends(cfg, meta, audio, Latest(raws), |raws|, p, raw)
    ensures Chained(cfg, meta, told + [Told(cfg.strip(raw), audio)], raws + [raw])
  {
    hide Extends;
    var told', raws' := told + [Told(cfg.strip(raw), audio)], raws + [raw];
    forall k: nat | k < |told'| ensures Link(cfg, meta, told', raws', k) {
      if k < |told| {
        assert Link(cfg, meta, told, raws, k);
        assert told'[k] == told[k] && raws'[k] == raws[k] && (k > 0 ==> raws'[k - 1] == raws[k - 1]);
      } else {
        assert k > 0 ==> raws'[k - 1] == Latest(raws);
      }
    }
  }

  /** One hop in prefix mode: the answer, and the chain one link longer if it is a partial. */
  lemma HopChain(cfg: Config, l: Local, sc: Script, told: seq<Told>, raws: seq<string>) returns (raws': seq<string>)
    requires cfg.prefixMode && cfg.unfixed >= 1 && l.hops == |raws| && l.raw == Latest(raws)
    requires Chained(cfg, l.meta, told, raws)
    ensures var (l', e) := Hop(cfg, l);
            && (exists p :: Continued(cfg, l.meta, l.audio, Latest(raws), |raws|, p, e))
            && l'.hops == |raws'| && l'.raw == Latest(raws')
            && Chained(cfg, l.meta, if e.Partial? then told + [Told(e.text, l.audio)] else told, raws')
  {
    hide Keeps, Chained, Confirmed;
    var p := Prefix(cfg, l, false);
    PrefixKeeps(cfg, l, |raws|, false);
    assert Continued(cfg, l.meta, l.audio, Latest(raws), |raws|, p, Hop(cfg, l).1);
    raws' := raws;
    var out := cfg.core(Continue(l.meta, l.audio, p));
    if out.ok {
      ChainedSnoc(cfg, l.meta, told, raws, l.audio, p, RawOf(cfg, p, out));
      raws' := raws + [RawOf(cfg, p, out)];
    }
  }

  /** One chunk: the answer its payloads call for, and the chain afterwards. */
  lemma ChunkChain(cfg: Config, l: Local, sc: Script, told: seq<Told>, raws: seq<string>, p: Payload, now: int)
    returns (raws': seq<string>)
    requires cfg.prefixMode && cfg.unfixed >= 1 && Holds(cfg, l, sc, told, raws)
    ensures var (l', e) := Chunk(cfg, l, p, now); var sc' := Script(sc.meta, sc.payloads + [p], now);
            && Answers(cfg, sc.meta, sc'.payloads, Latest(raws), |raws|, e)
            && var audio := AudioAfter(cfg, sc'.payloads);
               Holds(cfg, l', sc', if e.Partial? then told + [Told(e.text, audio)] else told, raws')
  {
    hide Hop, AudioAfter, LastPcm, Chained, Continued;
    ChunkFollows(cfg, l, sc, p, now);
    LastPcmSnoc(sc.payloads, p);
    AudioAfterSnoc(cfg, sc.payloads, p);
    var l1 := Recorded(l, p).(seen := now);
    var l2 := if l1.pcm != "" then l1.(audio := FromPcm(l1.pcm)) else l1;
    raws' := raws;
    if !(l1.pcm != "" && (!cfg.pcmSupported || !cfg.convertible(l1.pcm))) && !l2.audio.NoAudio? {
      raws' := HopChain(cfg, l2, sc, told, raws);
    }
  }

  // ---- whole runs ----

  lemma PartialsSnoc(cfg: Config, who: string, lines: seq<Line>, line: Line, refused: set<nat>)
    ensures var sc := ScriptOf(who, lines + [line], refused); var before := PartialsSince(cfg, who, lines, refused);
            var was, now := Solo(cfg, who, lines, refused).1, Solo(cfg, who, lines + [line], refused).1;
            PartialsSince(cfg, who, lines + [line], refused) ==
            if sc.None? then []
            else if |now| > |was| && now[|now| - 1].Partial? then
              before + [Told(now[|now| - 1].text, AudioAfter(cfg, sc.value.payloads))]
            else before
  {
    hide Solo, ScriptOf, AudioAfter;
    assert (lines + [line])[..|lines|] == lines;
  }

  lemma ScriptSnocRefused(who: string, lines: seq<Line>, line: Line, refused: set<nat>)
    ensures ScriptOf(who, lines + [line], refused) ==
            ScriptLine(who, ScriptOf(who, lines, refused), line, |lines| in refused)
  {
    hide ScriptLine;
    assert (lines + [line])[..|lines|] == lines;
  }

  /** The partials end with the session. */
  lemma NoPartials(cfg: Config, who: string, lines: seq<Line>, refused: set<nat>)
    requires ScriptOf(who, lines, refused).None?
    ensures PartialsSince(cfg, who, lines, refused) == []
  {}

  /** A line that is not a chunk of a live session adds no partial. */
  lemma OtherLine(cfg: Config, who: string, was: (Option<Local>, seq<Event>), line: Line, refused: bool)
    requires !(line.Line? && line.input.ChunkIn? && !line.input.last && line.id == who && !refused && was.0.Some?)
    ensures var now := SoloLine(cfg, who, was, line, refused);
            && (|now.1| > |was.1| ==> !now.1[|now.1| - 1].Partial?)
            && (now.0.Some? ==> if was.0.Some? then now.0.value == was.0.value.(seen := now.0.value.seen)
                                else now.0.value == Fresh(line.input.meta, line.now))
  {
    hide Chunk, Confirmed;
  }

  /**
   In every run in prefix mode, the partials told since a session's begin form a chain: partial k is the
   stripped raw text k, and raw text k is a kept part of raw text k - 1, nothing in the first `warmup`
   partials, followed by what the core made of it and the audio of that chunk. The session's counter is
   their number.
   */
  lemma {:induction false} PartialsChain(cfg: Config, who: string, lines: seq<Line>, refused: set<nat>)
    returns (raws: seq<string>)
    requires cfg.prefixMode && cfg.unfixed >= 1 && ScriptOf(who, lines, refused).Some?
    ensures Solo(cfg, who, lines, refused).0.Some?
    ensures var l, sc := Solo(cfg, who, lines, refused).0.value, ScriptOf(who, lines, refused).value;
            Holds(cfg, l, sc, PartialsSince(cfg, who, lines, refused), raws)
  {
    hide Solo, ScriptOf, PartialsSince, Chained, Chunk, AudioAfter, LastPcm, SoloLine;
    RunFollowsScript(cfg, who, lines, refused);
    if lines == [] {
      NoScript(who);
      raws := [];
      EmptyScript(who, refused);
    } else {
      var n := |lines| - 1;
      var head, line := lines[..n], lines[n];
      assert lines == head + [line];
      SoloSnoc(cfg, who, head, line, refused);
      ScriptSnocRefused(who, head, line, refused);
      PartialsSnoc(cfg, who, head, line, refused);
      RunFollowsScript(cfg, who, head, refused);
      if ScriptOf(who, head, refused).None? {
        raws := [];
        NoPartials(cfg, who, head, refused);
        OtherLine(cfg, who, Solo(cfg, who, head, refused), line, n in refused);
        EmptyChain(cfg, ScriptOf(who, lines, refused).value.meta);
      } else {
        raws := PartialsChain(cfg, who, head, refused);
        raws := LineChain(cfg, who, head, line, refused, raws);
      }
    }
  }

  lemma EmptyScript(who: string, refused: set<nat>)
    ensures ScriptOf(who, [], refused).None?
  {}

  lemma EmptyChain(cfg: Config, meta: string)
    ensures Chained(cfg, meta, [], [])
  {}

  lemma LineChain(cfg: Config, who: string, lines: seq<Line>, line: Line, refused: set<nat>, raws: seq<string>)
    returns (raws': seq<string>)
    requires cfg.prefixMode && cfg.unfixed >= 1
    requires Solo(cfg, who, lines, refused).0.Some? && ScriptOf(who, lines, refused).Some?
    requires Holds(cfg, Solo(cfg, who, lines, refused).0.value, ScriptOf(who, lines, refused).value,
                   PartialsSince(cfg, who, lines, refused), raws)
    requires ScriptOf(who, lines + [line], refused).Some? && Solo(cfg, who, lines + [line], refused).0.Some?
    requires Follows(cfg, Solo(cfg, who, lines + [line], refused).0, ScriptOf(who, lines + [line], refused))
    ensures Holds(cfg, Solo(cfg, who, lines + [line], refused).0.value, ScriptOf(who, lines + [line], refused).value,
                  PartialsSince(cfg, who, lines + [line], refused), raws')
  {
    hide Solo, ScriptOf, PartialsSince, Chained, Chunk, AudioAfter, LastPcm, End;
    SoloSnoc(cfg, who, lines, line, refused);
    ScriptSnocRefused(who, lines, line, refused);
    PartialsSnoc(cfg, who, lines, line, refused);
    var l, sc := Solo(cfg, who, lines, refused).0.value, ScriptOf(who, lines, refused).value;
    var told := PartialsSince(cfg, who, lines, refused);
    raws' := raws;
    if line.Line? && line.input.ChunkIn? && !line.input.last && line.id == who && |lines| !in refused {
      raws' := ChunkChain(cfg, l, sc, told, raws, line.input.payload, line.now);
    } else {
      OtherLine(cfg, who, Solo(cfg, who, lines, refused), line, |lines| in refused);
    }
  }

  lemma PlainChunk(cfg: Config, l: Local, sc: Script, p: Payload, now: int, previous: string, done: nat)
    requires !cfg.prefixMode && Follows(cfg, Some(l), Some(sc))
    ensures Answers(cfg, sc.meta, sc.payloads + [p], previous, done, Chunk(cfg, l, p, now).1)
  {
    hide AudioAfter, LastPcm, Confirmed;
    LastPcmSnoc(sc.payloads, p);
    AudioAfterSnoc(cfg, sc.payloads, p);
  }

  /**
   In every run and every mode, a chunk is answered by what the payloads since begin call for: an error
   about its PCM, a mere acknowledgement without audio, or the core's word on that audio.
   */
  lemma ChunkIsAnswered(cfg: Config, who: string, lines: seq<Line>, refused: set<nat>, p: Payload, now: int)
    returns (raws: seq<string>, e: Event)
    requires cfg.unfixed >= 1 && ScriptOf(who, lines, refused).Some? && |lines| !in refused
    ensures var sc := ScriptOf(who, lines, refused).value;
            && Solo(cfg, who, lines + [Line(who, ChunkIn(p, false), now)], refused).1 ==
               Solo(cfg, who, lines, refused).1 + [e]
            && Answers(cfg, sc.meta, sc.payloads + [p], Latest(raws), |raws|, e)
            && (cfg.prefixMode ==> Chained(cfg, sc.meta, PartialsSince(cfg, who, lines, refused), raws))
  {
    hide Solo, ScriptOf, PartialsSince, Chained, Chunk, AudioAfter, LastPcm, Answers;
    RunFollowsScript(cfg, who, lines, refused);
    SoloSnoc(cfg, who, lines, Line(who, ChunkIn(p, false), now), refused);
    var l, sc := Solo(cfg, who, lines, refused).0.value, ScriptOf(who, lines, refused).value;
    e := Chunk(cfg, l, p, now).1;
    if cfg.prefixMode {
      raws := PartialsChain(cfg, who, lines, refused);
      var _ := ChunkChain(cfg, l, sc, PartialsSince(cfg, who, lines, refused), raws, p, now);
    } else {
      raws := [];
      PlainChunk(cfg, l, sc, p, now, "", 0);
    }
  }

  /** Everything else a session is told: begins, lines without a session, sweeps, and nothing for others' lines. */
  lemma OtherLinesAnswered(cfg: Config, who: string, lines: seq<Line>, refused: set<nat>, line: Line)
    ensures var sc := ScriptOf(who, lines, refused);
            var was, now := Solo(cfg, who, lines, refused).1, Solo(cfg, who, lines + [line], refused).1;
            if line.Sweep? then now == was + (if sc.Some? && line.now - sc.value.seen > 30000 then [Timeout] else [])
            else if line.id != who || |lines| in refused then now == was
            else if line.input.BeginIn? then now == was + [if who == "" then MissingId else BeginAck]
            else sc.None? ==> now == was + [Unknown]
  {
    hide Solo, ScriptOf, AudioAfter, LastPcm, Chunk, End;
    RunFollowsScript(cfg, who, lines, refused);
    SoloSnoc(cfg, who, lines, line, refused);
  }

  // ---- the legacy final ----

  /** The final behind prefix p of the last raw text, which keeps at least one token. */
  ghost predicate FinalBehind(
    cfg: Config, meta: string, audio: Audio, previous: string, done: nat, p: string, e: Event)
  {
    && Keeps(cfg, previous, done, true, p)
    && var out := cfg.core(Continue(meta, audio, p)); var raw := RawOf(cfg, p, out);
       e == if out.ok then Final(true, Some(raw), Some(cfg.strip(raw)), None) else Final(false, None, None, out.error)
  }

  /** What closing a session of the legacy prefix mode answers. */
  ghost predicate LegacyFinal(cfg: Config, sc: Script, p: Payload, previous: string, done: nat, e: Event) {
    if p.pcm.Some? && !cfg.pcmSupported then e == PcmUnsupported
    else if p.pcm.Some? && !cfg.convertible(p.pcm.value) then e == PcmFailed
    else
      var audio := if p.pcm.Some? then FromPcm(p.pcm.value)
                   else if p.file.None? then AudioAfter(cfg, sc.payloads)
                   else if p.file.value == "" then NoAudio else FromFile(p.file.value);
      if audio.NoAudio? then e == NoAudioError
      else exists k :: FinalBehind(cfg, sc.meta, audio, previous, done, k, e)
  }

  lemma FinishIsLegacy(cfg: Config, l: Local, done: nat)
    requires cfg.prefixMode && !cfg.finalOneShot && cfg.unfixed >= 1 && l.hops == done && !l.audio.NoAudio?
    ensures exists p :: FinalBehind(cfg, l.meta, l.audio, l.raw, done, p, Finish(cfg, l))
  {
    hide Keeps, Confirmed;
    PrefixKeeps(cfg, l, done, true);
    assert FinalBehind(cfg, l.meta, l.audio, l.raw, done, Prefix(cfg, l, true), Finish(cfg, l));
  }

  lemma EndIsLegacy(cfg: Config, l: Local, sc: Script, p: Payload, done: nat)
    requires cfg.prefixMode && !cfg.finalOneShot && cfg.unfixed >= 1 && l.hops == done
    requires Follows(cfg, Some(l), Some(sc))
    ensures LegacyFinal(cfg, sc, p, l.raw, done, End(cfg, l, p))
    ensures End(cfg, Recorded(l, p), p) == End(cfg, l, p)
  {
    hide Keeps, Confirmed, AudioAfter, LastPcm, FinalBehind;
    assert Recorded(Recorded(l, p), p) == Recorded(l, p);
    var l1 := Recorded(l, p);
    var l2 := if p.pcm.Some? then l1.(audio := FromPcm(l1.pcm)) else l1;
    if !l2.audio.NoAudio? { FinishIsLegacy(cfg, l2, done); }
  }

  /** In the legacy prefix mode, closing a session after any run answers with one more link of the chain. */
  lemma ClosingIsLegacy(cfg: Config, who: string, lines: seq<Line>, refused: set<nat>, line: Line)
    returns (raws: seq<string>, e: Event)
    requires cfg.prefixMode && !cfg.finalOneShot && cfg.unfixed >= 1
    requires line.Line? && line.id == who && Closes(line.input) && |lines| !in refused
    requires ScriptOf(who, lines, refused).Some?
    ensures var sc := ScriptOf(who, lines, refused).value;
            && Solo(cfg, who, lines + [line], refused).0.None?
            && Solo(cfg, who, lines + [line], refused).1 == Solo(cfg, who, lines, refused).1 + [e]
            && Chained(cfg, sc.meta, PartialsSince(cfg, who, lines, refused), raws)
            && LegacyFinal(cfg, sc, line.input.payload, Latest(raws), |raws|, e)
  {
    hide Solo, ScriptOf, PartialsSince, Chained, Chunk, AudioAfter, LastPcm, LegacyFinal, End;
    raws := PartialsChain(cfg, who, lines, refused);
    SoloSnoc(cfg, who, lines, line, refused);
    var l, sc := Solo(cfg, who, lines, refused).0.value, ScriptOf(who, lines, refused).value;
    EndIsLegacy(cfg, l, sc, line.input.payload, |raws|);
    e := End(cfg, l, line.input.payload);
  }
}

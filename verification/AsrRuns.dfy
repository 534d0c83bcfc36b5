/**
 What an ASR session promises over whole runs, read off its own lines: which audio a hop and the final
 decode listen to. The decode core, the prefix mode and what the hops produced play no part in it.
 */
module AsrRuns {
  import opened Options
  import opened AsrPrefix
  import opened AsrSession
  import opened AsrWorker

  /** A live session's lines since its begin: the begin's settings, the chunks' payloads, the last time. */
  datatype Script = Script(meta: string, payloads: seq<Payload>, seen: int)

  function ScriptLine(who: string, was: Option<Script>, line: Line, refused: bool): Option<Script> {
    match line
    case Sweep(now) => if was.Some? && now - was.value.seen > 30000 then None else was
    case Line(id, input, now) =>
      if id != who || refused then was
      else match input
        case BeginIn(meta) =>
          if who == "" then was
          else if was.Some? then Some(was.value.(seen := now)) else Some(Script(meta, [], now))
        case ChunkIn(p, last) =>
          if was.None? || last then None
          else Some(Script(was.value.meta, was.value.payloads + [p], now))
        case EndIn(p) => None
  }

  function ScriptOf(who: string, lines: seq<Line>, refused: set<nat>): Option<Script> {
    if lines == [] then None
    else
      var n := |lines| - 1;
      ScriptLine(who, ScriptOf(who, lines[..n], refused), lines[n], n in refused)
  }

  // ---- audio, from the payloads alone ----

  /** The PCM the session holds: that of the last payload that carried any, "" if none did. */
  function LastPcm(ps: seq<Payload>): string {
    if ps == [] then ""
    else
      var n := |ps| - 1;
      if ps[n].pcm.Some? then ps[n].pcm.value else LastPcm(ps[..n])
  }

  /** What the session listens to after these chunks. */
  function AudioAfter(cfg: Config, ps: seq<Payload>): Audio {
    if ps == [] then NoAudio
    else
      var n := |ps| - 1;
      var named := if ps[n].file.None? then AudioAfter(cfg, ps[..n])
                   else if ps[n].file.value == "" then NoAudio else FromFile(ps[n].file.value);
      var pcm := LastPcm(ps);
      if pcm == "" || !cfg.pcmSupported then named
      else if cfg.convertible(pcm) then FromPcm(pcm)
      else if named.FromPcm? then Missing else named
  }

  /** The session's state is its script's, whatever was decoded on the way. */
  ghost predicate Follows(cfg: Config, v: Option<Local>, sc: Option<Script>) {
    && (v.Some? <==> sc.Some?)
    && (v.Some? ==>
          && v.value.meta == sc.value.meta && v.value.seen == sc.value.seen
          && v.value.pcm == LastPcm(sc.value.payloads) && v.value.audio == AudioAfter(cfg, sc.value.payloads))
  }

  lemma HopKeeps(cfg: Config, l: Local)
    ensures var l' := Hop(cfg, l).0; l'.meta == l.meta && l'.audio == l.audio && l'.pcm == l.pcm && l'.seen == l.seen
  {
    hide Confirmed;
  }

  lemma LastPcmSnoc(ps: seq<Payload>, p: Payload)
    ensures LastPcm(ps + [p]) == if p.pcm.Some? then p.pcm.value else LastPcm(ps)
  {
    assert (ps + [p])[..|ps|] == ps;
  }

  lemma AudioAfterSnoc(cfg: Config, ps: seq<Payload>, p: Payload)
    ensures var named := if p.file.Some? then Named(p.file.value) else AudioAfter(cfg, ps);
            var pcm := LastPcm(ps + [p]);
            AudioAfter(cfg, ps + [p]) ==
            if pcm == "" || !cfg.pcmSupported then named
            else if cfg.convertible(pcm) then FromPcm(pcm)
            else if named.FromPcm? then Missing else named
  {
    hide LastPcm;
    assert (ps + [p])[..|ps|] == ps;
  }

  lemma ChunkFollows(cfg: Config, l: Local, sc: Script, p: Payload, now: int)
    requires Follows(cfg, Some(l), Some(sc))
    ensures Follows(cfg, Some(Chunk(cfg, l, p, now).0), Some(Script(sc.meta, sc.payloads + [p], now)))
  {
    hide Hop, AudioAfter, LastPcm;
    LastPcmSnoc(sc.payloads, p);
    AudioAfterSnoc(cfg, sc.payloads, p);
    var l1 := Recorded(l, p).(seen := now);
    HopKeeps(cfg, if l1.pcm != "" then l1.(audio := FromPcm(l1.pcm)) else l1);
  }

  lemma FollowsLine(
    cfg: Config, who: string, was: (Option<Local>, seq<Event>), sc: Option<Script>, line: Line, refused: bool)
    requires Follows(cfg, was.0, sc)
    ensures Follows(cfg, SoloLine(cfg, who, was, line, refused).0, ScriptLine(who, sc, line, refused))
  {
    hide Chunk, End, AudioAfter, LastPcm;
    if line.Line? && line.input.ChunkIn? && was.0.Some? {
      ChunkFollows(cfg, was.0.value, sc.value, line.input.payload, line.now);
    }
    NothingHeard(cfg);
  }

  lemma NothingHeard(cfg: Config)
    ensures AudioAfter(cfg, []) == NoAudio && LastPcm([]) == ""
  {}

  /** In every run the session's audio is what its own payloads since begin say, in every mode. */
  lemma {:induction false} RunFollowsScript(cfg: Config, who: string, lines: seq<Line>, refused: set<nat>)
    ensures Follows(cfg, Solo(cfg, who, lines, refused).0, ScriptOf(who, lines, refused))
  {
    hide Follows, SoloLine, ScriptLine;
    if lines == [] {
      assert Follows(cfg, None, None) by { EmptyFollows(cfg); }
    } else {
      var n := |lines| - 1;
      RunFollowsScript(cfg, who, lines[..n], refused);
      FollowsLine(cfg, who, Solo(cfg, who, lines[..n], refused), ScriptOf(who, lines[..n], refused),
        lines[n], n in refused);
    }
  }

  lemma EmptyFollows(cfg: Config)
    ensures Follows(cfg, None, None)
  {}

  // ---- the final decode ----

  /** One-shot decode of the audio, as a final event. */
  function Decoded(cfg: Config, meta: string, audio: Audio): Event {
    if audio.NoAudio? then NoAudioError
    else
      var out := cfg.core(OneShot(meta, audio));
      var text := if out.text.Some? then cfg.strip(out.text.value) else "";
      Final(out.ok, out.text, if out.ok then Some(text) else None, out.error)
  }

  /** What closing a session with this payload must answer. */
  function ClosingEvent(cfg: Config, sc: Script, p: Payload): Event {
    if p.pcm.None? then
      Decoded(cfg, sc.meta, if p.file.Some? then Named(p.file.value) else AudioAfter(cfg, sc.payloads))
    else if !cfg.pcmSupported then PcmUnsupported
    else if !cfg.convertible(p.pcm.value) then PcmFailed
    else Decoded(cfg, sc.meta, FromPcm(p.pcm.value))
  }

  predicate Closes(input: Input) {
    input.EndIn? || (input.ChunkIn? && input.last)
  }

  /**
   In the default modes, closing a session after any run answers with the one-shot decode of its last
   audio, by an end event or a last chunk alike: no hop, prefix or earlier transcript shows in it.
   */
  lemma FinalIsOneShot(cfg: Config, who: string, lines: seq<Line>, refused: set<nat>, line: Line)
    requires !cfg.prefixMode || cfg.finalOneShot
    requires line.Line? && line.id == who && Closes(line.input) && |lines| !in refused
    requires ScriptOf(who, lines, refused).Some?
    ensures var before, after := Solo(cfg, who, lines, refused), Solo(cfg, who, lines + [line], refused);
            && after.0.None?
            && after.1 == before.1 + [ClosingEvent(cfg, ScriptOf(who, lines, refused).value, line.input.payload)]
  {
    hide Solo, ScriptOf, AudioAfter, LastPcm, Confirmed;
    RunFollowsScript(cfg, who, lines, refused);
    SoloSnoc(cfg, who, lines, line, refused);
  }

  /** A line that leaves session who alone: another session's, or a sweep within the idle limit. */
  predicate Quiet(who: string, line: Line, seen: int) {
    match line
    case Sweep(now) => now - seen <= IdleTimeoutMs
    case Line(id, _, _) => id != who
  }

  lemma {:induction false} QuietLines(cfg: Config, who: string, lines: seq<Line>, between: seq<Line>, refused: set<nat>)
    requires var v := Solo(cfg, who, lines, refused).0;
             v.Some? && forall i | 0 <= i < |between| :: Quiet(who, between[i], v.value.seen)
    ensures Solo(cfg, who, lines + between, refused) == Solo(cfg, who, lines, refused)
  {
    hide Solo, Step;
    if between == [] {
      assert lines + between == lines;
    } else {
      var n := |between| - 1;
      QuietLines(cfg, who, lines, between[..n], refused);
      assert lines + between == (lines + between[..n]) + [between[n]];
      SoloSnoc(cfg, who, lines + between[..n], between[n], refused);
      assert Quiet(who, between[n], Solo(cfg, who, lines, refused).0.value.seen);
    }
  }

  /**
   Partials converge to the final: in cumulative mode, if a chunk of any run is answered with a partial
   and the session is then ended without further audio, whatever other sessions do in between, the
   final transcript is that partial's text.
   */
  lemma FinalRepeatsPartial(
    cfg: Config, who: string, lines: seq<Line>, refused: set<nat>, p: Payload, now: int, between: seq<Line>, later: int)
    requires !cfg.prefixMode && Solo(cfg, who, lines, refused).0.Some?
    requires forall i | 0 <= i < |between| :: Quiet(who, between[i], now)
    requires |lines| !in refused && |lines| + 1 + |between| !in refused
    requires Chunk(cfg, Solo(cfg, who, lines, refused).0.value, p, now).1.Partial?
    ensures var told := Solo(cfg, who, lines, refused).1;
            var all := lines + [Line(who, ChunkIn(p, false), now)] + between +
                       [Line(who, EndIn(Payload(None, None)), later)];
            var end := Solo(cfg, who, all, refused).1;
            && |end| == |told| + 2 && end[..|told|] == told && end[|told|].Partial?
            && end[|told| + 1].Final? && end[|told| + 1].ok && end[|told| + 1].transcript == Some(end[|told|].text)
  {
    hide Solo, Confirmed;
    var chunk, end := Line(who, ChunkIn(p, false), now), Line(who, EndIn(Payload(None, None)), later);
    var l := Solo(cfg, who, lines, refused).0.value;
    SoloSnoc(cfg, who, lines, chunk, refused);
    assert Chunk(cfg, l, p, now).0.seen == now;
    QuietLines(cfg, who, lines + [chunk], between, refused);
    SoloSnoc(cfg, who, lines + [chunk] + between, end, refused);
  }

  // ---- which audio a hop listens to ----

  /** The chunk was decoded from this audio: state and answer are those of a hop over it. */
  ghost predicate HopOver(cfg: Config, l: Local, p: Payload, now: int, audio: Audio, r: (Local, Event)) {
    r == Hop(cfg, Recorded(l, p).(seen := now, audio := audio))
  }

  /**
   "Last wins" does not hold across kinds. In every run and every mode, a chunk that names a file is
   decoded from that file exactly when the last PCM sent since begin, by this chunk or an earlier one,
   is empty or there was none.
   */
  lemma FileWinsIffNoPcm(cfg: Config, who: string, lines: seq<Line>, refused: set<nat>, p: Payload, now: int)
    requires p.file.Some? && p.file.value != "" && ScriptOf(who, lines, refused).Some?
    ensures Solo(cfg, who, lines, refused).0.Some?
    ensures var l := Solo(cfg, who, lines, refused).0.value; var sc := ScriptOf(who, lines, refused).value;
            HopOver(cfg, l, p, now, FromFile(p.file.value), Chunk(cfg, l, p, now)) <==> LastPcm(sc.payloads + [p]) == ""
  {
    hide Solo, ScriptOf, AudioAfter, LastPcm, Hop;
    RunFollowsScript(cfg, who, lines, refused);
    var l, sc := Solo(cfg, who, lines, refused).0.value, ScriptOf(who, lines, refused).value;
    LastPcmSnoc(sc.payloads, p);
    var l1 := Recorded(l, p).(seen := now);
    HopKeeps(cfg, l1);
    HopKeeps(cfg, l1.(audio := FromPcm(l1.pcm)));
    HopAnswers(cfg, l1);
  }

  lemma HopAnswers(cfg: Config, l: Local)
    ensures var e := Hop(cfg, l).1; e.Partial? || e.PartialFailed?
  {
    hide Confirmed;
  }

  /** A run in which it fails: PCM first, then a chunk naming a file. */
  lemma FileLosesAfterPcm(cfg: Config, who: string, pcm: string, path: string)
    requires who != "" && pcm != "" && cfg.pcmSupported && cfg.convertible(pcm)
    ensures var lines := [Line(who, BeginIn("{}"), 0), Line(who, ChunkIn(Payload(None, Some(pcm)), false), 1),
                          Line(who, ChunkIn(Payload(Some(path), None), false), 2)];
            var v := Solo(cfg, who, lines, {}).0; v.Some? && v.value.audio == FromPcm(pcm)
  {
    var begin, first := Line(who, BeginIn("{}"), 0), Line(who, ChunkIn(Payload(None, Some(pcm)), false), 1);
    var second := Line(who, ChunkIn(Payload(Some(path), None), false), 2);
    var lines := [begin, first, second];
    RunFollowsScript(cfg, who, lines, {});
    assert lines[..2] == [begin, first] && [begin, first][..1] == [begin] && [begin][..0] == [];
    assert [] + [Payload(None, Some(pcm))] == [Payload(None, Some(pcm))];
    assert ScriptOf(who, [begin], {}) == Some(Script("{}", [], 0));
    assert ScriptOf(who, [begin, first], {}) == Some(Script("{}", [Payload(None, Some(pcm))], 1));
    var ps := [Payload(None, Some(pcm))] + [Payload(Some(path), None)];
    assert ScriptOf(who, lines, {}) == Some(Script("{}", ps, 2));
    LastPcmSnoc([], Payload(None, Some(pcm)));
    LastPcmSnoc([Payload(None, Some(pcm))], Payload(Some(path), None));
    AudioAfterSnoc(cfg, [Payload(None, Some(pcm))], Payload(Some(path), None));
  }

  // ---- lost audio ----

  predicate Converts(cfg: Config, ps: seq<Payload>, j: nat)
    requires j < |ps|
  {
    var pcm := LastPcm(ps[..j + 1]); pcm != "" && cfg.convertible(pcm)
  }

  predicate FailsToConvert(cfg: Config, ps: seq<Payload>, j: nat)
    requires j < |ps|
  {
    var pcm := LastPcm(ps[..j + 1]); pcm != "" && !cfg.convertible(pcm)
  }

  /** From chunk i on nothing replaces the audio: no later conversion, no later file. */
  ghost predicate Last(cfg: Config, ps: seq<Payload>, i: nat) {
    i < |ps| && forall j: nat | i < j < |ps| :: !Converts(cfg, ps, j) && ps[j].file.None?
  }

  /** Chunk i converted its PCM and nothing has replaced that audio since. */
  ghost predicate HeldSince(cfg: Config, ps: seq<Payload>, i: nat) {
    Last(cfg, ps, i) && Converts(cfg, ps, i)
  }

  ghost predicate FailedSince(cfg: Config, ps: seq<Payload>, i: nat) {
    exists k: nat :: i < k < |ps| && FailsToConvert(cfg, ps, k)
  }

  ghost predicate Held(cfg: Config, ps: seq<Payload>) {
    exists i: nat :: HeldSince(cfg, ps, i) && !FailedSince(cfg, ps, i)
  }

  ghost predicate Lost(cfg: Config, ps: seq<Payload>) {
    exists i: nat :: HeldSince(cfg, ps, i) && FailedSince(cfg, ps, i)
  }

  lemma SamePrefix(cfg: Config, qs: seq<Payload>, p: Payload, j: nat)
    requires j < |qs|
    ensures Converts(cfg, qs + [p], j) == Converts(cfg, qs, j)
            && FailsToConvert(cfg, qs + [p], j) == FailsToConvert(cfg, qs, j)
  {
    assert (qs + [p])[..j + 1] == qs[..j + 1];
  }

  lemma HeldStep(cfg: Config, qs: seq<Payload>, p: Payload, i: nat)
    requires i <= |qs|
    ensures var ps, n := qs + [p], |qs|;
            && (i < n ==> (HeldSince(cfg, ps, i) <==> HeldSince(cfg, qs, i) && !Converts(cfg, ps, n) && p.file.None?))
            && (i < n ==> (FailedSince(cfg, ps, i) <==> FailedSince(cfg, qs, i) || FailsToConvert(cfg, ps, n)))
            && (i == n ==> (HeldSince(cfg, ps, i) <==> Converts(cfg, ps, n)) && !FailedSince(cfg, ps, i))
  {
    hide Converts, FailsToConvert;
    var ps, n := qs + [p], |qs|;
    forall j: nat | j < n
      ensures Converts(cfg, ps, j) == Converts(cfg, qs, j) && FailsToConvert(cfg, ps, j) == FailsToConvert(cfg, qs, j)
    {
      SamePrefix(cfg, qs, p, j);
    }
    assert forall j: nat | j < n :: ps[j] == qs[j];
    if i < n {
      if HeldSince(cfg, qs, i) && !Converts(cfg, ps, n) && p.file.None? {
        forall j: nat | i < j < |ps| ensures !Converts(cfg, ps, j) && ps[j].file.None? {
          if j < n { assert !Converts(cfg, qs, j); }
        }
      }
      if HeldSince(cfg, ps, i) {
        assert !Converts(cfg, ps, n) && ps[n].file.None?;
        forall j: nat | i < j < n ensures !Converts(cfg, qs, j) && qs[j].file.None? { assert !Converts(cfg, ps, j); }
      }
      if FailedSince(cfg, qs, i) {
        var k: nat :| i < k < n && FailsToConvert(cfg, qs, k);
        assert FailsToConvert(cfg, ps, k);
      }
      if FailedSince(cfg, ps, i) {
        var k: nat :| i < k < |ps| && FailsToConvert(cfg, ps, k);
        if k < n { assert FailsToConvert(cfg, qs, k); }
      }
    }
  }

  /** Held and Lost one payload later. */
  lemma HeldLater(cfg: Config, qs: seq<Payload>, p: Payload)
    ensures var ps, n := qs + [p], |qs|;
            && (Held(cfg, ps) <==>
                  Converts(cfg, ps, n) || (Held(cfg, qs) && p.file.None? && !FailsToConvert(cfg, ps, n)))
            && (Lost(cfg, ps) <==> !Converts(cfg, ps, n) && p.file.None? &&
                                   (Lost(cfg, qs) || (Held(cfg, qs) && FailsToConvert(cfg, ps, n))))
  {
    hide HeldSince, FailedSince, LastPcm;
    var ps, n := qs + [p], |qs|;
    forall i: nat | i <= n
      ensures i < n ==> (HeldSince(cfg, ps, i) <==> HeldSince(cfg, qs, i) && !Converts(cfg, ps, n) && p.file.None?)
      ensures i < n ==> (FailedSince(cfg, ps, i) <==> FailedSince(cfg, qs, i) || FailsToConvert(cfg, ps, n))
      ensures i == n ==> (HeldSince(cfg, ps, i) <==> Converts(cfg, ps, n)) && !FailedSince(cfg, ps, i)
    {
      HeldStep(cfg, qs, p, i);
    }
    forall i: nat | HeldSince(cfg, qs, i) ensures i < n { HeldInside(cfg, qs, i); }
    forall i: nat | HeldSince(cfg, ps, i) ensures i <= n { HeldInside(cfg, ps, i); }
    if Held(cfg, qs) { var i: nat :| HeldSince(cfg, qs, i) && !FailedSince(cfg, qs, i); }
    if Lost(cfg, qs) { var i: nat :| HeldSince(cfg, qs, i) && FailedSince(cfg, qs, i); }
    if Converts(cfg, ps, n) { assert HeldSince(cfg, ps, n) && !FailedSince(cfg, ps, n); }
  }

  lemma HeldInside(cfg: Config, ps: seq<Payload>, i: nat)
    requires HeldSince(cfg, ps, i)
    ensures i < |ps|
  {}

  lemma {:induction false} DanglesWithPcm(cfg: Config, ps: seq<Payload>)
    requires cfg.pcmSupported
    ensures AudioAfter(cfg, ps).Missing? <==> Lost(cfg, ps)
    ensures AudioAfter(cfg, ps).FromPcm? <==> Held(cfg, ps)
  {
    hide Held, Lost, AudioAfter, LastPcm;
    if ps == [] {
      NothingHeard(cfg);
      NothingHeldOrLost(cfg);
    } else {
      var n := |ps| - 1;
      var qs, p := ps[..n], ps[n];
      assert ps == qs + [p] && ps[..n + 1] == ps;
      DanglesWithPcm(cfg, qs);
      HeldLater(cfg, qs, p);
      AudioAfterSnoc(cfg, qs, p);
    }
  }

  lemma NothingHeldOrLost(cfg: Config)
    ensures !Held(cfg, []) && !Lost(cfg, [])
  {}

  lemma {:induction false} NeverDangles(cfg: Config, ps: seq<Payload>)
    requires !cfg.pcmSupported
    ensures AudioAfter(cfg, ps).NoAudio? || AudioAfter(cfg, ps).FromFile?
  {
    if ps != [] { NeverDangles(cfg, ps[..|ps| - 1]); }
  }

  /**
   When the session is left with a deleted file: exactly when some chunk converted its PCM, a later one
   failed to, and no chunk in between or since converted again or named a file. A close without
   audio of its own then decodes the missing file.
   */
  lemma DanglesIff(cfg: Config, ps: seq<Payload>)
    ensures AudioAfter(cfg, ps).Missing? <==> cfg.pcmSupported && Lost(cfg, ps)
    ensures AudioAfter(cfg, ps).FromPcm? <==> cfg.pcmSupported && Held(cfg, ps)
  {
    if cfg.pcmSupported { DanglesWithPcm(cfg, ps); } else { NeverDangles(cfg, ps); }
  }

  /** Two PCM chunks after a begin. */
  function TwoChunks(who: string, a: string, b: string): seq<Line> {
    [Line(who, BeginIn("{}"), 0)] + [Line(who, ChunkIn(Payload(None, Some(a)), false), 1)]
    + [Line(who, ChunkIn(Payload(None, Some(b)), false), 2)]
  }

  lemma ScriptSnoc(who: string, lines: seq<Line>, line: Line)
    ensures ScriptOf(who, lines + [line], {}) == ScriptLine(who, ScriptOf(who, lines, {}), line, false)
  {
    hide ScriptLine;
    assert (lines + [line])[..|lines|] == lines;
  }

  lemma TwoChunksScript(who: string, a: string, b: string)
    requires who != ""
    ensures ScriptOf(who, TwoChunks(who, a, b), {}) ==
            Some(Script("{}", [] + [Payload(None, Some(a))] + [Payload(None, Some(b))], 2))
  {
    hide ScriptOf;
    var begin, first := Line(who, BeginIn("{}"), 0), Line(who, ChunkIn(Payload(None, Some(a)), false), 1);
    assert ScriptOf(who, [], {}) == None by { NoScript(who); }
    ScriptSnoc(who, [], begin);
    assert [] + [begin] == [begin];
    ScriptSnoc(who, [begin], first);
    ScriptSnoc(who, [begin] + [first], Line(who, ChunkIn(Payload(None, Some(b)), false), 2));
  }

  lemma NoScript(who: string)
    ensures ScriptOf(who, [], {}) == None
  {}

  /**
   A run in which audio is lost: PCM that converts, then PCM that does not, then an end without audio.
   The final answer is the decode of a deleted file, although good audio had been received.
   */
  lemma LostAudioIsDecoded(cfg: Config, who: string, a: string, b: string)
    requires (!cfg.prefixMode || cfg.finalOneShot) && who != "" && cfg.pcmSupported
    requires a != "" && cfg.convertible(a) && b != "" && !cfg.convertible(b)
    ensures var lines := TwoChunks(who, a, b);
            var told := Solo(cfg, who, lines + [Line(who, EndIn(Payload(None, None)), 3)], {}).1;
            && AudioAfter(cfg, [] + [Payload(None, Some(a))] + [Payload(None, Some(b))]) == Missing
            && told == Solo(cfg, who, lines, {}).1 + [Decoded(cfg, "{}", Missing)]
  {
    hide Solo, ScriptOf, TwoChunks, AudioAfter, LastPcm;
    var ps := [] + [Payload(None, Some(a))];
    NothingHeard(cfg);
    LastPcmSnoc([], Payload(None, Some(a)));
    AudioAfterSnoc(cfg, [], Payload(None, Some(a)));
    LastPcmSnoc(ps, Payload(None, Some(b)));
    AudioAfterSnoc(cfg, ps, Payload(None, Some(b)));
    TwoChunksScript(who, a, b);
    FinalIsOneShot(cfg, who, TwoChunks(who, a, b), {}, Line(who, EndIn(Payload(None, None)), 3));
  }
}

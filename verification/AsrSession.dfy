/**
 What one streaming ASR session does with its own events, described without lanes, files or other
 sessions. The decode core, the PCM conversion and the tokenizer are parameters and deterministic.
 */
module AsrSession {
  import opened Options
  import opened AsrPrefix

  /** What a decode listens to: a caller's file, audio converted from PCM, or a deleted temp file. */
  datatype Audio = NoAudio | FromFile(path: string) | FromPcm(pcm: string) | Missing

  /** A plain request over the audio, or one that continues a confirmed transcript. */
  datatype Request = OneShot(meta: string, audio: Audio) | Continue(meta: string, audio: Audio, prefix: string)

  datatype CoreOut = CoreOut(ok: bool, text: Option<string>, error: Option<string>)

  datatype Config = Config(
    slots: nat,
    pcmSupported: bool,
    convertible: string -> bool,
    core: Request -> CoreOut,
    strip: string -> string,         // stripLangTag
    parse: string -> string,         // parseAsrText
    tok: Tokenizer,
    prefixMode: bool, finalOneShot: bool, warmup: int, unfixed: int)

  const IdleTimeoutMs: int := 30000

  /** The audio fields of a chunk or end event: mel_path (or else audio), and pcm_b64. */
  datatype Payload = Payload(file: Option<string>, pcm: Option<string>)

  datatype Event =
    | BeginAck | MissingId | Unknown | PcmUnsupported | PcmFailed | ChunkAck | NoAudioError | Timeout
    | Partial(text: string) | PartialFailed(error: Option<string>)
    | Final(ok: bool, response: Option<string>, transcript: Option<string>, error: Option<string>)

  datatype Local = Local(meta: string, audio: Audio, pcm: string, raw: string, hops: int, seen: int)

  function Fresh(meta: string, now: int): Local {
    Local(meta, NoAudio, "", "", 0, now)
  }

  function Named(path: string): Audio {
    if path == "" then NoAudio else FromFile(path)
  }

  /** The payload is recorded, the newest of each kind winning. */
  function Recorded(l: Local, p: Payload): Local {
    l.(audio := if p.file.Some? then Named(p.file.value) else l.audio,
       pcm := if p.pcm.Some? then p.pcm.value else l.pcm)
  }

  function Transcript(cfg: Config, out: CoreOut): string {
    if out.text.Some? then cfg.strip(out.text.value) else ""
  }

  function Prefix(cfg: Config, l: Local, finish: bool): string {
    Confirmed(cfg.tok, l.raw, l.hops, cfg.warmup, cfg.unfixed, finish)
  }

  /** The continuation a hop generated. */
  function Generated(cfg: Config, out: CoreOut): string {
    if out.ok && out.text.Some? then cfg.parse(out.text.value) else ""
  }

  /** One decode hop over the session's current audio. */
  function Hop(cfg: Config, l: Local): (Local, Event) {
    if cfg.prefixMode then
      var prefix := Prefix(cfg, l, false);
      var out := cfg.core(Continue(l.meta, l.audio, prefix));
      if out.ok then
        var raw := prefix + Generated(cfg, out);
        (l.(raw := raw, hops := l.hops + 1), Partial(cfg.strip(raw)))
      else (l, PartialFailed(out.error))
    else
      var out := cfg.core(OneShot(l.meta, l.audio));
      (l, if out.ok then Partial(Transcript(cfg, out)) else PartialFailed(out.error))
  }

  /** PCM recorded in the session is converted before every hop, whatever else the chunk carried. */
  function Chunk(cfg: Config, l: Local, p: Payload, now: int): (Local, Event) {
    var l1 := Recorded(l, p).(seen := now);
    if l1.pcm != "" && !cfg.pcmSupported then (l1, PcmUnsupported)
    else if l1.pcm != "" && !cfg.convertible(l1.pcm) then
      (l1.(audio := if l1.audio.FromPcm? then Missing else l1.audio), PcmFailed)
    else
      var l2 := if l1.pcm != "" then l1.(audio := FromPcm(l1.pcm)) else l1;
      if l2.audio.NoAudio? then (l2, ChunkAck) else Hop(cfg, l2)
  }

  function FinalOf(cfg: Config, out: CoreOut): Event {
    Final(out.ok, out.text, if out.ok then Some(Transcript(cfg, out)) else None, out.error)
  }

  function Finish(cfg: Config, l: Local): Event {
    if l.audio.NoAudio? then NoAudioError
    else if cfg.prefixMode && !cfg.finalOneShot then
      var prefix := Prefix(cfg, l, true);
      var out := cfg.core(Continue(l.meta, l.audio, prefix));
      var raw := prefix + Generated(cfg, out);
      Final(out.ok, if out.ok then Some(raw) else None, if out.ok then Some(cfg.strip(raw)) else None,
            if out.ok then None else out.error)
    else FinalOf(cfg, cfg.core(OneShot(l.meta, l.audio)))
  }

  /** The end event; only PCM that it carries itself is converted. */
  function End(cfg: Config, l: Local, p: Payload): Event {
    var l1 := Recorded(l, p);
    if p.pcm.None? then Finish(cfg, l1)
    else if !cfg.pcmSupported then PcmUnsupported
    else if !cfg.convertible(l1.pcm) then PcmFailed
    else Finish(cfg, l1.(audio := FromPcm(l1.pcm)))
  }

  // ---- a session's own run ----

  datatype Input = BeginIn(meta: string) | ChunkIn(payload: Payload, last: bool) | EndIn(payload: Payload)

  /** One of the session's own events; None is a session that does not exist. */
  function Step(cfg: Config, sid: string, v: Option<Local>, input: Input, now: int): (Option<Local>, Event) {
    match input
    case BeginIn(meta) =>
      if sid == "" then (v, MissingId)
      else (Some(if v.Some? then v.value.(seen := now) else Fresh(meta, now)), BeginAck)
    case ChunkIn(p, last) =>
      if v.None? then (v, Unknown)
      else if last then (None, End(cfg, Recorded(v.value, p), p))
      else var (l, e) := Chunk(cfg, v.value, p, now); (Some(l), e)
    case EndIn(p) => if v.None? then (v, Unknown) else (None, End(cfg, v.value, p))
  }

  predicate Expired(v: Option<Local>, now: int) {
    v.Some? && now - v.value.seen > IdleTimeoutMs
  }
}

/**
 The streaming ASR worker: many sessions in one process, each holding a lane of the shared cache and
 possibly a temp audio file. Lane allocation is the minimal contract "a free lane, or none"; temp
 files get names never used before; paths given by callers never name a temp file of the worker.
 */
module AsrWorker {
  import opened Options
  import opened AsrPrefix
  import opened AsrSession

  datatype Path = NoPath | External(name: string) | Temp(n: nat)

  datatype Session = Session(
    lane: nat, melPath: Path, owned: Path, pcm: string, meta: string, raw: string, hops: int, lastActivity: int)

  datatype Output = Begun(id: string, lane: nat) | Saturated(id: string) | Say(id: string, event: Event)

  function PathOf(name: string): Path {
    if name == "" then NoPath else External(name)
  }

  /** What a decode of this path hears now. */
  function AudioAt(disk: map<nat, string>, path: Path): Audio {
    match path
    case NoPath => NoAudio
    case External(name) => FromFile(name)
    case Temp(n) => if n in disk then FromPcm(disk[n]) else Missing
  }

  function LocalOf(s: Session, disk: map<nat, string>): Local {
    Local(s.meta, AudioAt(disk, s.melPath), s.pcm, s.raw, s.hops, s.lastActivity)
  }

  // ---- lanes ----

  predicate OnLane(sessions: map<string, Session>, id: string, n: nat) {
    id in sessions && sessions[id].lane == n
  }

  ghost predicate Held(sessions: map<string, Session>, n: nat) {
    exists id :: OnLane(sessions, id, n)
  }

  /** Held lanes are exactly the lanes of live sessions, and no two sessions share one. */
  ghost predicate LanesOk(sessions: map<string, Session>, held: set<nat>, slots: nat) {
    && (forall id | id in sessions :: sessions[id].lane in held && sessions[id].lane < slots)
    && (forall n | n in held :: Held(sessions, n))
    && (forall a, b | a in sessions && b in sessions && a != b :: sessions[a].lane != sessions[b].lane)
  }

  lemma LanesSame(sessions: map<string, Session>, held: set<nat>, slots: nat, id: string, s: Session)
    requires LanesOk(sessions, held, slots) && id in sessions && s.lane == sessions[id].lane
    ensures LanesOk(sessions[id := s], held, slots)
  {
    forall n | n in held ensures Held(sessions[id := s], n) {
      var o :| OnLane(sessions, o, n);
      assert OnLane(sessions[id := s], o, n);
    }
  }

  lemma LanesAdd(sessions: map<string, Session>, held: set<nat>, slots: nat, id: string, s: Session)
    requires LanesOk(sessions, held, slots) && id !in sessions && s.lane !in held && s.lane < slots
    ensures LanesOk(sessions[id := s], held + {s.lane}, slots)
  {
    forall n | n in held + {s.lane} ensures Held(sessions[id := s], n) {
      if n == s.lane {
        assert OnLane(sessions[id := s], id, n);
      } else {
        var o :| OnLane(sessions, o, n);
        assert OnLane(sessions[id := s], o, n);
      }
    }
  }

  lemma LanesDrop(sessions: map<string, Session>, held: set<nat>, slots: nat, id: string)
    requires LanesOk(sessions, held, slots) && id in sessions
    ensures LanesOk(sessions - {id}, held - {sessions[id].lane}, slots)
  {
    forall n | n in held - {sessions[id].lane} ensures Held(sessions - {id}, n) {
      var o :| OnLane(sessions, o, n);
      assert OnLane(sessions - {id}, o, n);
    }
  }

  lemma {:induction false} LaneCount(sessions: map<string, Session>, held: set<nat>, slots: nat)
    requires LanesOk(sessions, held, slots)
    ensures |held| == |sessions|
    decreases |sessions|
  {
    if |sessions| > 0 {
      var id :| id in sessions;
      LanesDrop(sessions, held, slots, id);
      assert sessions.Keys == (sessions - {id}).Keys + {id};
      assert |sessions| == |sessions.Keys| && |sessions - {id}| == |(sessions - {id}).Keys|;
      assert sessions[id].lane in held;
      hide LanesOk;
      LaneCount(sessions - {id}, held - {sessions[id].lane}, slots);
    } else {
      assert forall n | n in held :: Held(sessions, n);
    }
  }

  lemma {:induction false} BoundedSet(s: set<nat>, n: nat)
    requires forall x | x in s :: x < n
    ensures |s| <= n
    ensures |s| < n ==> exists x: nat :: x < n && x !in s
  {
    if n == 0 {
      assert s == {};
    } else {
      BoundedSet(s - {n - 1}, n - 1);
    }
  }

  /** Live sessions never exceed the slots; below that a lane is free. */
  lemma LanesBound(sessions: map<string, Session>, held: set<nat>, slots: nat)
    requires LanesOk(sessions, held, slots)
    ensures |held| == |sessions| <= slots
    ensures |held| < slots ==> exists n: nat :: n < slots && n !in held
  {
    LaneCount(sessions, held, slots);
    forall x | x in held ensures x < slots {
      var id :| OnLane(sessions, id, x);
    }
    hide LanesOk;
    BoundedSet(held, slots);
  }

  // ---- temp files ----

  predicate Owns(sessions: map<string, Session>, id: string, n: nat) {
    id in sessions && sessions[id].owned == Temp(n)
  }

  ghost predicate Owned(sessions: map<string, Session>, n: nat) {
    exists id :: Owns(sessions, id, n)
  }

  /** Every temp file on disk belongs to a live session, each session has at most one, and none is shared. */
  ghost predicate FilesOk(sessions: map<string, Session>, disk: map<nat, string>, clock: nat) {
    && (forall n | n in disk :: n < clock && Owned(sessions, n))
    && (forall id | id in sessions :: FileOk(sessions[id], clock))
    && (forall a, b | a in sessions && b in sessions && a != b :: Disjoint(sessions[a].owned, sessions[b].owned))
  }

  predicate FileOk(s: Session, clock: nat) {
    && !s.owned.External? && (s.owned.Temp? ==> s.owned.n < clock)
    && (s.melPath.Temp? ==> s.melPath == s.owned)
  }

  predicate Disjoint(p: Path, q: Path) {
    p.Temp? ==> p != q
  }

  function Without(disk: map<nat, string>, path: Path): map<nat, string> {
    if path.Temp? then disk - {path.n} else disk
  }

  lemma FilesSame(sessions: map<string, Session>, disk: map<nat, string>, clock: nat, id: string, s: Session)
    requires FilesOk(sessions, disk, clock) && FileOk(s, clock)
    requires if id in sessions then s.owned == sessions[id].owned else s.owned.NoPath?
    ensures FilesOk(sessions[id := s], disk, clock)
  {
    forall n | n in disk ensures Owned(sessions[id := s], n) {
      var o :| Owns(sessions, o, n);
      assert Owns(sessions[id := s], o, n);
    }
  }

  /** The session's file is deleted; the session may go with it. */
  lemma FilesErase(sessions: map<string, Session>, disk: map<nat, string>, clock: nat, id: string)
    requires FilesOk(sessions, disk, clock) && id in sessions
    ensures FilesOk(sessions, Without(disk, sessions[id].owned), clock)
    ensures FilesOk(sessions - {id}, Without(disk, sessions[id].owned), clock)
  {
    forall n | n in Without(disk, sessions[id].owned)
      ensures Owned(sessions, n) && Owned(sessions - {id}, n)
    {
      var o :| Owns(sessions, o, n);
      assert o != id;
      assert Owns(sessions - {id}, o, n);
    }
  }

  /** The session gets a file under a name never used before. */
  lemma FilesNew(
    sessions: map<string, Session>, disk: map<nat, string>, clock: nat, id: string, s: Session, pcm: string)
    requires FilesOk(sessions, disk, clock) && id in sessions && s.owned == Temp(clock) == s.melPath
    requires sessions[id].owned.Temp? ==> sessions[id].owned.n !in disk
    ensures FilesOk(sessions[id := s], disk[clock := pcm], clock + 1)
  {
    var sessions' := sessions[id := s];
    forall n | n in disk[clock := pcm] ensures n < clock + 1 && Owned(sessions', n) {
      if n == clock {
        assert Owns(sessions', id, n);
      } else {
        var o :| Owns(sessions, o, n);
        assert Owns(sessions', o, n);
      }
    }
    forall a, b | a in sessions' && b in sessions' && a != b ensures Disjoint(sessions'[a].owned, sessions'[b].owned) {
      assert a != id ==> FileOk(sessions[a], clock);
      assert b != id ==> FileOk(sessions[b], clock);
    }
  }

  // ---- views ----

  type Sessions = map<string, Session>

  type Disk = map<nat, string>

  /** The session as its own events see it. */
  function ViewOf(sessions: Sessions, disk: Disk, sid: string): Option<Local> {
    if sid in sessions then Some(LocalOf(sessions[sid], disk)) else None
  }

  /** Every session but sid is as it was. */
  ghost predicate Untouched(sessions: Sessions, disk: Disk, sessions': Sessions, disk': Disk, sid: string) {
    forall o | o != sid :: ViewOf(sessions', disk', o) == ViewOf(sessions, disk, o)
  }

  lemma UntouchedTrans(a: Sessions, d: Disk, b: Sessions, e: Disk, c: Sessions, f: Disk, sid: string)
    requires Untouched(a, d, b, e, sid) && Untouched(b, e, c, f, sid)
    ensures Untouched(a, d, c, f, sid)
  {
    hide ViewOf;
    forall o | o != sid ensures ViewOf(c, f, o) == ViewOf(a, d, o) {
      assert ViewOf(b, e, o) == ViewOf(a, d, o);
    }
  }

  lemma UntouchedStore(sessions: Sessions, disk: Disk, sid: string, st: Session)
    ensures Untouched(sessions, disk, sessions[sid := st], disk, sid)
    ensures Untouched(sessions, disk, sessions, disk, sid)
  {}

  /** The other sessions' audio survives this session's file being dropped or replaced. */
  lemma UntouchedFile(sessions: Sessions, disk: Disk, clock: nat, sid: string, st: Session, pcm: string)
    requires FilesOk(sessions, disk, clock) && sid in sessions
    ensures var disk' := Without(disk, sessions[sid].owned);
            && Untouched(sessions, disk, sessions, disk', sid)
            && Untouched(sessions, disk, sessions - {sid}, disk', sid)
            && Untouched(sessions, disk, sessions[sid := st], disk'[clock := pcm], sid)
  {
    forall o | o in sessions && o != sid
      ensures FileOk(sessions[o], clock) && Disjoint(sessions[o].owned, sessions[sid].owned)
    {}
    hide FilesOk;
  }

  lemma DroppedHears(sessions: Sessions, disk: Disk, clock: nat, sid: string)
    requires FilesOk(sessions, disk, clock) && sid in sessions
    ensures var st := sessions[sid];
            && LocalOf(st, Without(disk, st.owned)) == Converted(LocalOf(st, disk), false)
            && (st.owned.Temp? ==> st.owned.n !in Without(disk, st.owned))
  {
    assert FileOk(sessions[sid], clock);
  }

  lemma NewHears(disk: map<nat, string>, n: nat)
    requires n in disk
    ensures AudioAt(disk, Temp(n)) == FromPcm(disk[n])
  {}

  // ---- the worker ----

  class Worker {
    const cfg: Config
    var sessions: map<string, Session>
    var held: set<nat>
    var disk: map<nat, string>    // temp files by name, with the PCM they were made from
    var clock: nat                // next temp name
    var out: seq<Output>

    ghost predicate Valid() reads this {
      && cfg.slots >= 1 && cfg.unfixed >= 1 && "" !in sessions
      && LanesOk(sessions, held, cfg.slots) && FilesOk(sessions, disk, clock)
    }

    constructor (cfg: Config)
      requires cfg.slots >= 1 && cfg.unfixed >= 1
      ensures Valid() && this.cfg == cfg && sessions == map[] && out == []
    {
      this.cfg := cfg;
      sessions, held, disk, clock, out := map[], {}, map[], 0, [];
    }

    /** Since the given moment: sid's own step was taken and its one answer written. */
    ghost predicate Answered(was: Sessions, wasDisk: Disk, input: Input, now: int, said: seq<Output>, sid: string)
      reads this
    {
      var (v, e) := Step(cfg, sid, ViewOf(was, wasDisk, sid), input, now);
      ViewOf(sessions, disk, sid) == v && Said(out, said, sid, e)
    }

    method HandleBegin(sid: string, meta: string, now: int) returns (refused: bool)
      requires Valid()
      modifies this
      ensures Valid() && Untouched(old(sessions), old(disk), sessions, disk, sid)
      ensures refused <==> sid != "" && sid !in old(sessions) && |old(sessions)| == cfg.slots
      ensures refused ==> sessions == old(sessions) && disk == old(disk) && out == old(out) + [Saturated(sid)]
      ensures !refused ==> Answered(old(sessions), old(disk), BeginIn(meta), now, old(out), sid)
    {
      hide LanesOk, FilesOk, Untouched, Chunk, End, AudioAt;
      UntouchedStore(sessions, disk, sid, if sid in sessions then sessions[sid].(lastActivity := now) else Blank);
      if sid == "" {
        out := out + [Say(sid, MissingId)];
        return false;
      }
      if sid in sessions {
        Touch(sid, now);
        out := out + [Begun(sid, sessions[sid].lane)];
        return false;
      }
      LanesBound(sessions, held, cfg.slots);
      if |held| >= cfg.slots {
        out := out + [Saturated(sid)];
        return true;
      }
      Admit(sid, meta, now);
      return false;
    }

    /** A free lane is reserved and the session registered. */
    method Admit(sid: string, meta: string, now: int)
      requires Valid() && sid != "" && sid !in sessions && |held| < cfg.slots
      modifies this`held, this`sessions, this`out
      ensures Valid() && Untouched(old(sessions), old(disk), sessions, disk, sid)
      ensures ViewOf(sessions, disk, sid) == Some(Fresh(meta, now))
      ensures Said(out, old(out), sid, BeginAck)
    {
      hide LanesOk, FilesOk, Untouched;
      LanesBound(sessions, held, cfg.slots);
      var lane: nat :| lane < cfg.slots && lane !in held;
      var st := Session(lane, NoPath, NoPath, "", meta, "", 0, now);
      LanesAdd(sessions, held, cfg.slots, sid, st);
      FilesSame(sessions, disk, clock, sid, st);
      UntouchedStore(sessions, disk, sid, st);
      held, sessions, out := held + {lane}, sessions[sid := st], out + [Begun(sid, lane)];
    }

    /** Stores a session's new fields; its lane and its file stay the same. */
    method Store(sid: string, st: Session)
      requires Valid() && sid in sessions && FileOk(st, clock)
      requires st.lane == sessions[sid].lane && st.owned == sessions[sid].owned
      modifies this`sessions
      ensures Valid() && sessions == old(sessions)[sid := st]
    {
      hide LanesOk, FilesOk;
      LanesSame(sessions, held, cfg.slots, sid, st);
      FilesSame(sessions, disk, clock, sid, st);
      sessions := sessions[sid := st];
    }

    method Touch(sid: string, now: int)
      requires Valid() && sid in sessions
      modifies this`sessions
      ensures Valid() && sessions == old(sessions)[sid := old(sessions[sid]).(lastActivity := now)]
    {
      assert FileOk(sessions[sid], clock);
      Store(sid, sessions[sid].(lastActivity := now));
    }

    /** The session's old temp file is removed and, if the PCM converts, replaced by a new one. */
    method ConvertOwned(sid: string) returns (ok: bool)
      requires Valid() && sid in sessions
      modifies this`sessions, this`disk, this`clock
      ensures Valid() && sid in sessions && Untouched(old(sessions), old(disk), sessions, disk, sid)
      ensures ok == cfg.convertible(old(sessions[sid].pcm))
      ensures LocalOf(sessions[sid], disk) == Converted(old(LocalOf(sessions[sid], disk)), ok)
    {
      hide LanesOk, FilesOk, AudioAt, Untouched, FileOk, Without;
      var st := sessions[sid];
      var st', disk' := st.(owned := Temp(clock), melPath := Temp(clock)), Without(disk, st.owned);
      FilesErase(sessions, disk, clock, sid);
      UntouchedFile(sessions, disk, clock, sid, st', st.pcm);
      DroppedHears(sessions, disk, clock, sid);
      if !cfg.convertible(st.pcm) {
        disk := disk';
        return false;
      }
      FilesNew(sessions, disk', clock, sid, st', st.pcm);
      LanesSame(sessions, held, cfg.slots, sid, st');
      NewHears(disk'[clock := st.pcm], clock);
      disk, clock, sessions := disk'[clock := st.pcm], clock + 1, sessions[sid := st'];
      return true;
    }

    /** One decode over the session's audio, cumulative or behind the confirmed prefix. */
    method DecodeHop(st: Session) returns (st': Session, e: Event)
      requires cfg.unfixed >= 1
      ensures (LocalOf(st', disk), e) == Hop(cfg, LocalOf(st, disk))
      ensures st'.lane == st.lane && st'.owned == st.owned && st'.melPath == st.melPath
    {
      st' := st;
      if cfg.prefixMode {
        var prefix := ComputePrefix(cfg.tok, st.raw, st.hops, cfg.warmup, cfg.unfixed, false);
        var out := cfg.core(Continue(st.meta, AudioAt(disk, st.melPath), prefix));
        if out.ok {
          st' := st.(raw := prefix + Generated(cfg, out), hops := st.hops + 1);
          e := Partial(cfg.strip(st'.raw));
        } else {
          e := PartialFailed(out.error);
        }
        return;
      }
      var out := cfg.core(OneShot(st.meta, AudioAt(disk, st.melPath)));
      e := if out.ok then Partial(Transcript(cfg, out)) else PartialFailed(out.error);
    }

    method Finalize(st: Session) returns (e: Event)
      requires cfg.unfixed >= 1
      ensures e == Finish(cfg, LocalOf(st, disk))
    {
      if st.melPath.NoPath? {
        e := NoAudioError;
      } else if cfg.prefixMode && !cfg.finalOneShot {
        var prefix := ComputePrefix(cfg.tok, st.raw, st.hops, cfg.warmup, cfg.unfixed, true);
        var out := cfg.core(Continue(st.meta, AudioAt(disk, st.melPath), prefix));
        var raw := prefix + Generated(cfg, out);
        e := Final(out.ok, if out.ok then Some(raw) else None, if out.ok then Some(cfg.strip(raw)) else None,
                   if out.ok then None else out.error);
      } else {
        e := FinalOf(cfg, cfg.core(OneShot(st.meta, AudioAt(disk, st.melPath))));
      }
    }

    /** Sessions silent for more than 30 s lose their lane and file and are told so, in some order. */
    method SweepIdleSessions(now: int)
      requires Valid()
      modifies this
      ensures Valid() && sessions.Keys <= old(sessions).Keys
      ensures Reaped(old(sessions), old(disk), old(out), sessions, disk, out,
                     set id | id in old(sessions) && Expired(old(ViewOf(sessions, disk, id)), now))
    {
      hide LanesOk, FilesOk, Untouched, Reaped, ViewOf, Without, Expired;
      var reap := set id | id in sessions && now - sessions[id].lastActivity > IdleTimeoutMs;
      ghost var all := reap;
      ExpiredAre(sessions, disk, now);
      NoneReaped(sessions, disk, out);
      assert all - reap == {};
      while reap != {}
        invariant Valid() && reap <= all && reap <= sessions.Keys <= old(sessions).Keys
        invariant Reaped(old(sessions), old(disk), old(out), sessions, disk, out, all - reap)
        decreases |reap|
      {
        var sid :| sid in reap;
        ghost var was, wasDisk := sessions, disk;
        Drop(sid);
        ReapedOne(old(sessions), old(disk), old(out), was, wasDisk, out, all - reap, sid, disk);
        out := out + [Say(sid, Timeout)];
        assert all - (reap - {sid}) == all - reap + {sid};
        reap := reap - {sid};
      }
      assert all - reap == all;
    }

    /** The last decode, on a copy of the session; PCM brought by the end event gets a file of its own. */
    method EndAudio(sid: string, p: Payload) returns (st: Session, e: Event)
      requires Valid() && sid in sessions
      modifies this`disk, this`clock
      ensures e == End(cfg, old(LocalOf(sessions[sid], disk)), p)
      ensures clock >= old(clock)
      ensures var owned := sessions[sid].owned; Without(Without(disk, owned), st.owned) == Without(old(disk), owned)
    {
      hide LanesOk, FilesOk, AudioAt, FileOk, Finish, Noted, Recorded;
      ClockFree(sessions, disk, clock, sid);
      NotedKeeps(sessions[sid], p);
      FinalFileGone(disk, sessions[sid].owned, clock, Noted(sessions[sid], p).pcm) by {
        OwnedEarlier(sessions[sid], clock);
      }
      NotedIsRecorded(sessions[sid], p, disk);
      st := Noted(sessions[sid], p);
      if p.pcm.Some? && cfg.pcmSupported {
        disk := Without(disk, st.owned);
        if cfg.convertible(st.pcm) {
          disk := disk[clock := st.pcm];
          NewHears(disk, clock);
          st := st.(owned := Temp(clock), melPath := Temp(clock));
          clock := clock + 1;
          e := Finalize(st);
        } else {
          e := PcmFailed;
        }
      } else if p.pcm.Some? {
        e := PcmUnsupported;
      } else {
        e := Finalize(st);
      }
    }

    method HandleEnd(sid: string, p: Payload, ghost now: int)
      requires Valid()
      modifies this
      ensures Valid() && Untouched(old(sessions), old(disk), sessions, disk, sid)
      ensures Answered(old(sessions), old(disk), EndIn(p), now, old(out), sid)
    {
      hide LanesOk, FilesOk, Untouched, End, LocalOf, Without;
      if sid !in sessions {
        UntouchedStore(sessions, disk, sid, Blank);
        out := out + [Say(sid, Unknown)];
        return;
      }
      ghost var was := disk;
      FilesErase(sessions, disk, clock, sid);
      LanesDrop(sessions, held, cfg.slots, sid);
      UntouchedFile(sessions, disk, clock, sid, sessions[sid], "");
      var st, e := EndAudio(sid, p);
      disk := Without(disk, sessions[sid].owned);
      disk := Without(disk, st.owned);
      FilesLater(sessions - {sid}, disk, old(clock), clock);
      held, sessions := held - {sessions[sid].lane}, sessions - {sid};
      out := out + [Say(sid, e)];
    }

    method HandleChunk(sid: string, p: Payload, last: bool, now: int)
      requires Valid()
      modifies this
      ensures Valid() && Untouched(old(sessions), old(disk), sessions, disk, sid)
      ensures Answered(old(sessions), old(disk), ChunkIn(p, last), now, old(out), sid)
    {
      hide LanesOk, FilesOk, Untouched, End, Chunk, LocalOf, Hop, FileOk;
      UntouchedStore(sessions, disk, sid, Blank);
      if sid !in sessions {
        out := out + [Say(sid, Unknown)];
        return;
      }
      Record(sid, p, now);
      if last {
        EndIgnoresClock(cfg, Recorded(old(LocalOf(sessions[sid], disk)), p), p, now);
        ghost var mid, midDisk := sessions, disk;
        HandleEnd(sid, p, now);
        UntouchedTrans(old(sessions), old(disk), mid, midDisk, sessions, disk, sid);
        return;
      }
      ghost var mid, midDisk := sessions, disk;
      var e := ChunkHop(sid, old(LocalOf(sessions[sid], disk)), p, now);
      UntouchedTrans(old(sessions), old(disk), mid, midDisk, sessions, disk, sid);
      out := out + [Say(sid, e)];
    }

    /** The chunk's audio fields and its time are noted in the session itself. */
    method Record(sid: string, p: Payload, now: int)
      requires Valid() && sid in sessions
      modifies this`sessions
      ensures Valid() && sid in sessions && Untouched(old(sessions), old(disk), sessions, disk, sid)
      ensures LocalOf(sessions[sid], disk) == Recorded(old(LocalOf(sessions[sid], disk)), p).(seen := now)
    {
      hide LanesOk, FilesOk, Untouched;
      ClockFree(sessions, disk, clock, sid);
      var st := Noted(sessions[sid], p).(lastActivity := now);
      UntouchedStore(sessions, disk, sid, st);
      Store(sid, st);
    }

    /** The rest of a chunk: convert the session's PCM if it has any, then decode. */
    method ChunkHop(sid: string, ghost l: Local, ghost p: Payload, ghost now: int) returns (e: Event)
      requires Valid() && sid in sessions && LocalOf(sessions[sid], disk) == Recorded(l, p).(seen := now)
      modifies this`sessions, this`disk, this`clock
      ensures Valid() && sid in sessions && Untouched(old(sessions), old(disk), sessions, disk, sid)
      ensures (LocalOf(sessions[sid], disk), e) == Chunk(cfg, l, p, now)
    {
      hide LanesOk, FilesOk, Untouched, Hop, FileOk, Recorded;
      UntouchedStore(sessions, disk, sid, Blank);
      if sessions[sid].pcm != "" {
        if !cfg.pcmSupported { return PcmUnsupported; }
        var ok := ConvertOwned(sid);
        if !ok { return PcmFailed; }
      }
      if sessions[sid].melPath.NoPath? && sessions[sid].pcm == "" { return ChunkAck; }
      ghost var mid, midDisk := sessions, disk;
      var st;
      st, e := DecodeHop(sessions[sid]);
      ClockFree(sessions, disk, clock, sid);
      SameFile(sessions[sid], st, clock);
      UntouchedStore(sessions, disk, sid, st);
      Store(sid, st);
      UntouchedTrans(old(sessions), old(disk), mid, midDisk, sessions, disk, sid);
    }

    /** A session goes: its file, its lane, its entry. */
    method Drop(sid: string)
      requires Valid() && sid in sessions
      modifies this`sessions, this`disk, this`held
      ensures Valid() && sessions == old(sessions) - {sid} && held == old(held) - {old(sessions[sid].lane)}
      ensures disk == Without(old(disk), old(sessions[sid].owned))
      ensures Untouched(old(sessions), old(disk), sessions, disk, sid)
    {
      hide LanesOk, FilesOk, Untouched;
      var st := sessions[sid];
      FilesErase(sessions, disk, clock, sid);
      LanesDrop(sessions, held, cfg.slots, sid);
      UntouchedFile(sessions, disk, clock, sid, st, "");
      disk, held, sessions := Without(disk, st.owned), held - {st.lane}, sessions - {sid};
    }
  }

  /** What sid has been told, lanes and refusals aside. */
  function Heard(out: seq<Output>, sid: string): seq<Event> {
    if out == [] then [] else Heard(out[..|out| - 1], sid) + Plain(out[|out| - 1], sid)
  }

  lemma HeardSnoc(out: seq<Output>, o: Output, sid: string)
    ensures Heard(out + [o], sid) == Heard(out, sid) + Plain(o, sid)
  {
    assert (out + [o])[..|out|] == out;
  }

  /** Exactly the sessions in `gone` have been dropped and told so. */
  ghost predicate Reaped(
    was: Sessions, wasDisk: Disk, said: seq<Output>, sessions: Sessions, disk: Disk, out: seq<Output>,
    gone: set<string>)
  {
    forall o ::
      && ViewOf(sessions, disk, o) == (if o in gone then None else ViewOf(was, wasDisk, o))
      && Heard(out, o) == Heard(said, o) + (if o in gone then [Timeout] else [])
  }

  lemma ReapedOne(
    was: Sessions, wasDisk: Disk, said: seq<Output>, sessions: Sessions, disk: Disk, out: seq<Output>,
    gone: set<string>,
    sid: string, disk': Disk)
    requires Reaped(was, wasDisk, said, sessions, disk, out, gone) && sid !in gone
    requires Untouched(sessions, disk, sessions - {sid}, disk', sid)
    ensures Reaped(was, wasDisk, said, sessions - {sid}, disk', out + [Say(sid, Timeout)], gone + {sid})
  {
    hide Heard, LocalOf;
    forall o
      ensures ViewOf(sessions - {sid}, disk', o) == (if o in gone + {sid} then None else ViewOf(was, wasDisk, o))
      ensures Heard(out + [Say(sid, Timeout)], o) == Heard(said, o) + (if o in gone + {sid} then [Timeout] else [])
    {
      assert Heard(out, o) == Heard(said, o) + (if o in gone then [Timeout] else []);
      HeardSnoc(out, Say(sid, Timeout), o);
    }
  }

  lemma ExpiredAre(sessions: Sessions, disk: Disk, now: int)
    ensures (set id | id in sessions && now - sessions[id].lastActivity > IdleTimeoutMs)
         == (set id | id in sessions && Expired(ViewOf(sessions, disk, id), now))
  {}

  lemma NoneReaped(sessions: Sessions, disk: Disk, out: seq<Output>)
    ensures Reaped(sessions, disk, out, sessions, disk, out, {})
  {}

  // ---- whole runs ----

  datatype Line = Line(id: string, input: Input, now: int) | Sweep(now: int)

  /** One line seen by session who alone; others' lines and its refused begins are skipped. */
  function SoloLine(cfg: Config, who: string, was: (Option<Local>, seq<Event>), line: Line, refused: bool)
    : (Option<Local>, seq<Event>)
  {
    var (v, told) := was;
    match line
    case Sweep(now) => if Expired(v, now) then (None, told + [Timeout]) else was
    case Line(id, input, now) =>
      if id != who || refused then was
      else var (v', e) := Step(cfg, who, v, input, now); (v', told + [e])
  }

  /** What session who does by itself. */
  function Solo(cfg: Config, who: string, lines: seq<Line>, refused: set<nat>): (Option<Local>, seq<Event>) {
    if lines == [] then (None, [])
    else
      var n := |lines| - 1;
      SoloLine(cfg, who, Solo(cfg, who, lines[..n], refused), lines[n], n in refused)
  }

  lemma SoloSnoc(cfg: Config, who: string, lines: seq<Line>, line: Line, refused: set<nat>)
    ensures Solo(cfg, who, lines + [line], refused) ==
            SoloLine(cfg, who, Solo(cfg, who, lines, refused), line, |lines| in refused)
  {
    hide SoloLine;
    assert (lines + [line])[..|lines|] == lines;
  }

  /** The lines that concern who: its own, less its refused begins, and every sweep. */
  function Mine(who: string, lines: seq<Line>, refused: set<nat>): seq<Line> {
    if lines == [] then []
    else
      var n := |lines| - 1;
      Mine(who, lines[..n], refused) +
      (if lines[n].Line? && (lines[n].id != who || n in refused) then [] else [lines[n]])
  }

  predicate OnlyAbout(who: string, lines: seq<Line>) {
    forall i | 0 <= i < |lines| :: lines[i].Sweep? || lines[i].id == who
  }

  lemma {:induction false} SoloIsAlone(cfg: Config, who: string, lines: seq<Line>, refused: set<nat>)
    ensures OnlyAbout(who, Mine(who, lines, refused))
    ensures Solo(cfg, who, Mine(who, lines, refused), {}) == Solo(cfg, who, lines, refused)
  {
    hide Step;
    if lines != [] {
      var n := |lines| - 1;
      SoloIsAlone(cfg, who, lines[..n], refused);
      var mine := Mine(who, lines[..n], refused);
      SoloSnoc(cfg, who, mine, lines[n], {});
      assert Solo(cfg, who, lines, refused) ==
             SoloLine(cfg, who, Solo(cfg, who, mine, {}), lines[n], n in refused);
      if lines[n].Line? && (lines[n].id != who || n in refused) {
        assert Mine(who, lines, refused) == mine;
      } else {
        assert Mine(who, lines, refused) == mine + [lines[n]];
      }
    }
  }

  /** The session with a payload's audio fields noted. */
  function Noted(st: Session, p: Payload): Session {
    st.(melPath := if p.file.Some? then PathOf(p.file.value) else st.melPath,
        pcm := if p.pcm.Some? then p.pcm.value else st.pcm)
  }

  lemma NotedIsRecorded(st: Session, p: Payload, disk: Disk)
    ensures LocalOf(Noted(st, p), disk) == Recorded(LocalOf(st, disk), p)
  {}

  lemma NotedKeeps(st: Session, p: Payload)
    ensures Noted(st, p).owned == st.owned
  {}

  lemma OwnedEarlier(st: Session, clock: nat)
    requires FileOk(st, clock)
    ensures st.owned.Temp? ==> st.owned.n < clock
  {}

  lemma SameFile(st: Session, st': Session, clock: nat)
    requires FileOk(st, clock) && st'.owned == st.owned && st'.melPath == st.melPath
    ensures FileOk(st', clock)
  {}

  lemma EndIgnoresClock(cfg: Config, l: Local, p: Payload, now: int)
    ensures End(cfg, l.(seen := now), p) == End(cfg, l, p)
  {
    hide Confirmed;
  }

  /** Removing the session's file, making one for the final decode and removing that too leaves nothing behind. */
  lemma FinalFileGone(disk: Disk, owned: Path, clock: nat, pcm: string)
    requires clock !in disk && (owned.Temp? ==> owned.n < clock)
    ensures Without(Without(Without(disk, owned)[clock := pcm], owned), Temp(clock)) == Without(disk, owned)
    ensures Without(Without(disk, owned), owned) == Without(disk, owned)
  {}

  lemma FilesLater(sessions: Sessions, disk: Disk, clock: nat, clock': nat)
    requires FilesOk(sessions, disk, clock) && clock <= clock'
    ensures FilesOk(sessions, disk, clock')
  {}

  lemma ClockFree(sessions: Sessions, disk: Disk, clock: nat, sid: string)
    requires FilesOk(sessions, disk, clock) && sid in sessions
    ensures clock !in disk && FileOk(sessions[sid], clock)
  {}

  /** After a conversion attempt: the new audio, or the loss of the old one. */
  function Converted(l: Local, ok: bool): Local {
    l.(audio := if ok then FromPcm(l.pcm) else if l.audio.FromPcm? then Missing else l.audio)
  }

  const Blank: Session := Session(0, NoPath, NoPath, "", "", "", 0, 0)

  /** One more line was written, about sid, saying e. */
  predicate Said(out: seq<Output>, before: seq<Output>, sid: string, e: Event) {
    |out| == |before| + 1 && out[..|before|] == before && Plain(out[|before|], sid) == [e]
  }

  /** What an output line tells session sid, lanes and refusals aside. */
  function Plain(o: Output, sid: string): seq<Event> {
    if o.id != sid || o.Saturated? then [] else if o.Begun? then [BeginAck] else [o.event]
  }

  /** Every session's state and everything it was told are what it does by itself. */
  ghost predicate AllSolo(
    cfg: Config, sessions: Sessions, disk: Disk, out: seq<Output>, lines: seq<Line>, refused: set<nat>)
  {
    forall who :: (ViewOf(sessions, disk, who), Heard(out, who)) == Solo(cfg, who, lines, refused)
  }

  /** As many sessions are live as there are slots. */
  ghost predicate Full(cfg: Config, lines: seq<Line>, refused: set<nat>) {
    exists live: set<string> :: |live| == cfg.slots && AllLive(cfg, lines, refused, live)
  }

  ghost predicate AllLive(cfg: Config, lines: seq<Line>, refused: set<nat>, live: set<string>) {
    forall id | id in live :: Solo(cfg, id, lines, refused).0.Some?
  }

  /** A line is refused exactly when it begins a session that is not live while the slots are full. */
  ghost predicate Refusal(cfg: Config, lines: seq<Line>, line: Line, refused: set<nat>) {
    && line.Line? && line.input.BeginIn? && line.id != ""
    && Solo(cfg, line.id, lines, refused).0.None? && Full(cfg, lines, refused)
  }

  ghost predicate RefusedRight(cfg: Config, lines: seq<Line>, refused: set<nat>, n: nat) {
    && (forall i | i in refused :: i < n)
    && forall i | 0 <= i < n && i < |lines| :: i in refused <==> Refusal(cfg, lines[..i], lines[i], refused)
  }

  /** The worker answers each line in turn. */
  method Drive(cfg: Config, lines: seq<Line>) returns (w: Worker, refused: set<nat>)
    requires cfg.slots >= 1 && cfg.unfixed >= 1
    ensures w.Valid() && w.cfg == cfg
    ensures AllSolo(cfg, w.sessions, w.disk, w.out, lines, refused)
    ensures RefusedRight(cfg, lines, refused, |lines|)
  {
    hide LanesOk, FilesOk, AllSolo, Refusal, LineServed, RefusedRight;
    w := new Worker(cfg);
    refused := {};
    DriveStart(cfg, w.disk, lines);
    for i := 0 to |lines|
      invariant w.Valid() && w.cfg == cfg && fresh(w)
      invariant AllSolo(cfg, w.sessions, w.disk, w.out, lines[..i], refused)
      invariant RefusedRight(cfg, lines, refused, i)
    {
      LanesBound(w.sessions, w.held, cfg.slots);
      ghost var was, wasDisk, said := w.sessions, w.disk, w.out;
      var no := Serve(w, lines[i]);
      ghost var refused' := if no then refused + {i} else refused;
      RefusalIff(cfg, was, wasDisk, said, lines[..i], lines[i], refused);
      DriveStep(cfg, was, wasDisk, said, w.sessions, w.disk, w.out, lines, i, refused, no);
      if no { refused := refused + {i}; }
    }
    assert lines[..|lines|] == lines;
  }

  lemma DriveStart(cfg: Config, disk: Disk, lines: seq<Line>)
    ensures AllSolo(cfg, map[], disk, [], lines[..0], {}) && RefusedRight(cfg, lines, {}, 0)
  {}

  /** The worker's own test for refusing a begin is the sessions' view of it. */
  lemma RefusalIff(
    cfg: Config, sessions: Sessions, disk: Disk, out: seq<Output>, lines: seq<Line>, line: Line, refused: set<nat>)
    requires AllSolo(cfg, sessions, disk, out, lines, refused) && |sessions| <= cfg.slots
    ensures Refused(sessions, line, cfg.slots) <==> Refusal(cfg, lines, line, refused)
  {
    hide Solo, Heard, LocalOf;
    forall id ensures Solo(cfg, id, lines, refused).0.Some? <==> id in sessions {
      assert (ViewOf(sessions, disk, id), Heard(out, id)) == Solo(cfg, id, lines, refused);
    }
    assert |sessions| == |sessions.Keys|;
    if |sessions| == cfg.slots {
      assert AllLive(cfg, lines, refused, sessions.Keys);
    }
    if Full(cfg, lines, refused) {
      var live: set<string> :| |live| == cfg.slots && AllLive(cfg, lines, refused, live);
      SubsetSize(live, sessions.Keys);
    }
  }

  lemma {:induction false} SubsetSize(a: set<string>, b: set<string>)
    requires a <= b
    ensures |a| <= |b|
  {
    if a != {} {
      var x :| x in a;
      SubsetSize(a - {x}, b - {x});
    }
  }

  lemma DriveStep(
    cfg: Config, was: Sessions, wasDisk: Disk, said: seq<Output>, sessions: Sessions, disk: Disk, out: seq<Output>,
    lines: seq<Line>, i: nat, refused: set<nat>, no: bool)
    requires i < |lines| && AllSolo(cfg, was, wasDisk, said, lines[..i], refused)
             && RefusedRight(cfg, lines, refused, i)
    requires LineServed(cfg, was, wasDisk, said, sessions, disk, out, lines[i], no)
    requires no <==> Refusal(cfg, lines[..i], lines[i], refused)
    ensures var refused' := if no then refused + {i} else refused;
            && AllSolo(cfg, sessions, disk, out, lines[..i + 1], refused')
            && RefusedRight(cfg, lines, refused', i + 1)
  {
    hide Solo, SoloLine, Heard, ViewOf, Refusal;
    var refused' := if no then refused + {i} else refused;
    assert lines[..i + 1] == lines[..i] + [lines[i]];
    forall who ensures (ViewOf(sessions, disk, who), Heard(out, who)) == Solo(cfg, who, lines[..i + 1], refused') {
      assert (ViewOf(was, wasDisk, who), Heard(said, who)) == Solo(cfg, who, lines[..i], refused);
      SoloSnoc(cfg, who, lines[..i], lines[i], refused');
      SoloFrame(cfg, who, lines[..i], refused, refused');
    }
    forall k | 0 <= k <= i
      ensures Refusal(cfg, lines[..k], lines[k], refused') <==> Refusal(cfg, lines[..k], lines[k], refused)
    {
      RefusalFrame(cfg, lines[..k], lines[k], refused, refused');
    }
  }

  /** Whether a line is refused depends only on earlier refusals. */
  lemma RefusalFrame(cfg: Config, lines: seq<Line>, line: Line, r: set<nat>, r': set<nat>)
    requires forall k: nat | k < |lines| :: k in r <==> k in r'
    ensures Refusal(cfg, lines, line, r) <==> Refusal(cfg, lines, line, r')
  {
    hide Solo;
    forall id ensures Solo(cfg, id, lines, r) == Solo(cfg, id, lines, r') {
      SoloFrame(cfg, id, lines, r, r');
    }
    FullFrame(cfg, lines, r, r');
    FullFrame(cfg, lines, r', r);
  }

  lemma FullFrame(cfg: Config, lines: seq<Line>, r: set<nat>, r': set<nat>)
    requires forall id :: Solo(cfg, id, lines, r) == Solo(cfg, id, lines, r')
    ensures Full(cfg, lines, r) ==> Full(cfg, lines, r')
  {
    hide Solo;
    if Full(cfg, lines, r) {
      var live: set<string> :| |live| == cfg.slots && AllLive(cfg, lines, r, live);
      assert AllLive(cfg, lines, r', live);
    }
  }

  lemma {:induction false} SoloFrame(cfg: Config, who: string, lines: seq<Line>, r: set<nat>, r': set<nat>)
    requires forall k: nat | k < |lines| :: k in r <==> k in r'
    ensures Solo(cfg, who, lines, r) == Solo(cfg, who, lines, r')
  {
    hide SoloLine;
    if lines != [] { SoloFrame(cfg, who, lines[..|lines| - 1], r, r'); }
  }

  /** Every session has taken this line as SoloLine says. */
  ghost predicate LineServed(
    cfg: Config, was: Sessions, wasDisk: Disk, said: seq<Output>, sessions: Sessions, disk: Disk, out: seq<Output>,
    line: Line, refused: bool)
  {
    forall who :: (ViewOf(sessions, disk, who), Heard(out, who)) ==
                  SoloLine(cfg, who, (ViewOf(was, wasDisk, who), Heard(said, who)), line, refused)
  }

  predicate Refused(sessions: Sessions, line: Line, slots: nat) {
    line.Line? && line.input.BeginIn? && line.id != "" && line.id !in sessions && |sessions| == slots
  }

  /** One line of stdin, or the idle sweep between lines. */
  method Serve(w: Worker, line: Line) returns (refused: bool)
    requires w.Valid()
    modifies w
    ensures w.Valid() && refused == Refused(old(w.sessions), line, w.cfg.slots)
    ensures LineServed(w.cfg, old(w.sessions), old(w.disk), old(w.out), w.sessions, w.disk, w.out, line, refused)
  {
    hide LanesOk, FilesOk, Heard, Untouched, Step, ViewOf, LineServed;
    refused := false;
    match line
    case Sweep(now) =>
      w.SweepIdleSessions(now);
      SweepServed(w.cfg, old(w.sessions), old(w.disk), old(w.out), w.sessions, w.disk, w.out, now);
    case Line(id, input, now) =>
      match input {
        case BeginIn(meta) => refused := w.HandleBegin(id, meta, now);
        case ChunkIn(p, last) => w.HandleChunk(id, p, last, now);
        case EndIn(p) => w.HandleEnd(id, p, now);
      }
      if refused {
        RefusalServed(w.cfg, w.sessions, w.disk, old(w.out), line);
      } else {
        var (v, e) := Step(w.cfg, id, old(ViewOf(w.sessions, w.disk, id)), input, now);
        StepServed(w.cfg, old(w.sessions), old(w.disk), old(w.out), w.sessions, w.disk, w.out, line, v, e);
      }
  }

  lemma RefusalServed(cfg: Config, sessions: Sessions, disk: Disk, said: seq<Output>, line: Line)
    requires line.Line?
    ensures LineServed(cfg, sessions, disk, said, sessions, disk, said + [Saturated(line.id)], line, true)
  {
    hide Heard, ViewOf, Step;
    forall who ensures Heard(said + [Saturated(line.id)], who) == Heard(said, who) {
      HeardSnoc(said, Saturated(line.id), who);
    }
  }

  lemma StepServed(
    cfg: Config, was: Sessions, wasDisk: Disk, said: seq<Output>, sessions: Sessions, disk: Disk, out: seq<Output>,
    line: Line, v: Option<Local>, e: Event)
    requires line.Line? && Untouched(was, wasDisk, sessions, disk, line.id)
    requires (v, e) == Step(cfg, line.id, ViewOf(was, wasDisk, line.id), line.input, line.now)
    requires ViewOf(sessions, disk, line.id) == v && Said(out, said, line.id, e)
    ensures LineServed(cfg, was, wasDisk, said, sessions, disk, out, line, false)
  {
    hide Heard, ViewOf, Step;
    forall who
      ensures Heard(out, who) == if who == line.id then Heard(said, who) + [e] else Heard(said, who)
    {
      SaidHeard(out, said, line.id, e, who);
    }
  }

  lemma SweepServed(
    cfg: Config, was: Sessions, wasDisk: Disk, said: seq<Output>, sessions: Sessions, disk: Disk, out: seq<Output>,
    now: int)
    requires Reaped(was, wasDisk, said, sessions, disk, out,
                    set id | id in was && Expired(ViewOf(was, wasDisk, id), now))
    ensures LineServed(cfg, was, wasDisk, said, sessions, disk, out, Sweep(now), false)
  {
    hide Heard, LocalOf;
    forall who ensures (ViewOf(sessions, disk, who), Heard(out, who)) ==
                       SoloLine(cfg, who, (ViewOf(was, wasDisk, who), Heard(said, who)), Sweep(now), false)
    {
      assert Heard(said, who) + [] == Heard(said, who);
    }
  }

  lemma SaidHeard(out: seq<Output>, before: seq<Output>, sid: string, e: Event, who: string)
    requires Said(out, before, sid, e)
    ensures Heard(out, who) == if who == sid then Heard(before, who) + [e] else Heard(before, who)
  {
    HeardSnoc(before, out[|before|], who);
    assert out == before + [out[|before|]];
  }

  /**
   Session isolation: what a session is told in any interleaving with others equals what a worker that
   gets only that session's lines tells it, lane numbers and refused begins aside.
   */
  method Isolated(cfg: Config, lines: seq<Line>, who: string) returns (w: Worker, refused: set<nat>, alone: Worker)
    requires cfg.slots >= 1 && cfg.unfixed >= 1
    ensures AllSolo(cfg, w.sessions, w.disk, w.out, lines, refused) && RefusedRight(cfg, lines, refused, |lines|)
    ensures AllSolo(cfg, alone.sessions, alone.disk, alone.out, Mine(who, lines, refused), {})
    ensures Heard(w.out, who) == Heard(alone.out, who)
  {
    hide Solo, Heard, RefusedRight, ViewOf;
    w, refused := Drive(cfg, lines);
    SoloIsAlone(cfg, who, lines, refused);
    var none;
    alone, none := Drive(cfg, Mine(who, lines, refused));
    AloneIsNeverRefused(cfg, who, Mine(who, lines, refused), none);
  }

  /** A lone session always finds a lane. */
  lemma AloneIsNeverRefused(cfg: Config, who: string, lines: seq<Line>, refused: set<nat>)
    requires cfg.slots >= 1 && OnlyAbout(who, lines) && RefusedRight(cfg, lines, refused, |lines|)
    ensures refused == {}
  {
    hide Solo;
    forall i | i in refused ensures false {
      assert Refusal(cfg, lines[..i], lines[i], refused);
      var live: set<string> :| |live| == cfg.slots && AllLive(cfg, lines[..i], refused, live);
      var id :| id in live;
      OthersNeverLive(cfg, who, id, lines[..i], refused);
    }
  }

  lemma {:induction false} OthersNeverLive(cfg: Config, who: string, id: string, lines: seq<Line>, refused: set<nat>)
    requires OnlyAbout(who, lines) && id != who
    ensures Solo(cfg, id, lines, refused).0.None?
  {
    hide Step;
    if lines != [] { OthersNeverLive(cfg, who, id, lines[..|lines| - 1], refused); }
  }
}

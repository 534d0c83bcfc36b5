/**
 What one request of a WorkerIO does over a whole run: what it reads from its queue, where it stops,
 what is written for it, and what becomes of requests that come after close().
 */
module WorkerRequests {
  import opened WorkerIO

  // ---- where a request stops reading ----

  /** An event the request hands to its caller and reads on after. */
  predicate GoesOn(lines: seq<Event>, item: Item) {
    item.Line? && item.n < |lines| && (lines[item.n].kind.Other? || lines[item.n].kind.Error?)
  }

  /** An item after which the request is over: the exit sentinel, done or cancelled. */
  predicate Ends(lines: seq<Event>, item: Item) {
    item.Exit? || (item.n < |lines| && (lines[item.n].kind.Done? || lines[item.n].kind.Cancelled?))
  }

  predicate Reading(s: State, id: Id) {
    At(s, id, Registered) || At(s, id, Waiting)
  }

  /** Everything the request has read lets it go on, except perhaps the last item once it has stopped. */
  ghost predicate ReadSoFar(q: Mux, id: Id, reading: bool)
    requires id in q.queues && id in q.consumed
  {
    && q.consumed[id] <= |q.queues[id]|
    && forall k | 0 <= k < q.consumed[id] ::
         || GoesOn(q.log.lines, q.queues[id][k])
         || (!reading && k == q.consumed[id] - 1 && Ends(q.log.lines, q.queues[id][k]))
  }

  ghost predicate ReadShape(s: State) {
    s.mux.queues.Keys == s.mux.consumed.Keys && forall id | id in s.mux.queues :: ReadSoFar(s.mux, id, Reading(s, id))
  }

  /** Queues hold lines that were read. */
  ghost predicate LinesExist(q: Mux) {
    forall id, k | id in q.queues && 0 <= k < |q.queues[id]| && q.queues[id][k].Line? ::
      q.queues[id][k].n < |q.log.lines|
  }

  /** A step never takes anything out of a queue; only a request's own Take moves its reading place. */
  lemma QueueGrows(s: State, step: Step, id: Id)
    requires Enabled(s, step) && QueueShape(s.mux) && PhaseShape(s.phases, s.mux) && id in s.mux.queues
    ensures var q, q' := s.mux, NextMux(s, step);
            && id in q'.queues && id in q'.consumed && q.queues[id] <= q'.queues[id] && q.log.lines <= q'.log.lines
            && q'.consumed[id] == if step == Take(id) then q.consumed[id] + 1 else q.consumed[id]
  {
    hide NextPhase, NextStdin, Live, Route, Lists, Left;
  }

  lemma LinesExistStep(s: State, step: Step)
    requires Enabled(s, step) && QueueShape(s.mux) && LinesExist(s.mux)
    ensures LinesExist(NextMux(s, step))
  {
    hide NextPhase, NextStdin, Route;
    var q, q' := s.mux, NextMux(s, step);
    forall id, k | id in q'.queues && 0 <= k < |q'.queues[id]| && q'.queues[id][k].Line?
      ensures q'.queues[id][k].n < |q'.log.lines|
    {
      if id in q.queues && k < |q.queues[id]| && q'.queues[id][k] == q.queues[id][k] {
        assert q.queues[id][k].n < |q.log.lines|;
      }
    }
  }

  /** Growth of the queue and of the log leaves what was read as it was. */
  lemma ReadStays(q: Mux, q': Mux, id: Id, reading: bool, reading': bool)
    requires id in q.queues && id in q.consumed && id in q'.queues && id in q'.consumed
    requires q.queues[id] <= q'.queues[id] && q.log.lines <= q'.log.lines && q'.consumed[id] == q.consumed[id]
    requires ReadSoFar(q, id, reading) && (reading' ==> reading)
    ensures ReadSoFar(q', id, reading')
  {}

  /** The next item either lets the request go on or ends it. */
  lemma TakeMoves(s: State, id: Id)
    requires Enabled(s, Take(id)) && LinesExist(s.mux)
    ensures var item, lines := s.mux.queues[id][s.mux.consumed[id]], s.mux.log.lines;
            && GoesOn(lines, item) != Ends(lines, item)
            && Apply(s, Take(id)).phases[id] == if Ends(lines, item) then Unwinding(true) else Waiting
  {
    hide NextMux, NextStdin;
    var q := s.mux;
    assert q.queues[id][q.consumed[id]].Line? ==> q.queues[id][q.consumed[id]].n < |q.log.lines|;
  }

  lemma ReadTake(s: State, id: Id)
    requires Enabled(s, Take(id)) && LinesExist(s.mux) && ReadShape(s)
    ensures var t := Apply(s, Take(id));
            id in t.mux.queues && id in t.mux.consumed && ReadSoFar(t.mux, id, Reading(t, id))
  {
    hide NextStdin, GoesOn, Ends, NextPhase, LinesExist;
    TakeMoves(s, id);
    assert ReadSoFar(s.mux, id, true);
  }

  /** No step makes a request that has stopped read again, and a new queue has been read nowhere. */
  lemma ReadingStep(s: State, step: Step, id: Id)
    requires Enabled(s, step) && PhaseShape(s.phases, s.mux) && id in s.mux.queues
    ensures Reading(Apply(s, step), id) ==> Reading(s, id)
  {
    hide NextMux, NextStdin, Terminal;
  }

  lemma NewQueue(s: State, step: Step, id: Id)
    requires Enabled(s, step) && id !in s.mux.queues && id in NextMux(s, step).queues
    ensures var q := NextMux(s, step); q.queues[id] == [] && id in q.consumed && q.consumed[id] == 0
  {
    hide NextPhase, NextStdin;
  }

  lemma ReadShapeStep(s: State, step: Step)
    requires Enabled(s, step) && QueueShape(s.mux) && PhaseShape(s.phases, s.mux)
    requires LinesExist(s.mux) && ReadShape(s) && QueueShape(NextMux(s, step))
    ensures ReadShape(Apply(s, step))
  {
    hide Enabled, NextMux, NextPhase, NextStdin, ReadSoFar, Reading, PhaseShape, LinesExist;
    var q, q' := s.mux, NextMux(s, step);
    forall id | id in q'.queues ensures id in q'.consumed && ReadSoFar(q', id, Reading(Apply(s, step), id)) {
      if id !in q.queues {
        NewQueue(s, step, id);
        NothingRead(q', id, Reading(Apply(s, step), id));
      } else if step == Take(id) {
        ReadTake(s, id);
      } else {
        QueueGrows(s, step, id);
        ReadingStep(s, step, id);
        ReadStays(q, q', id, Reading(s, id), Reading(Apply(s, step), id));
      }
    }
  }

  lemma NothingRead(q: Mux, id: Id, reading: bool)
    requires id in q.queues && id in q.consumed && q.consumed[id] == 0
    ensures ReadSoFar(q, id, reading)
  {}

  lemma {:induction false} ReadRun(concurrency: int, steps: seq<Step>, states: seq<State>, i: nat)
    requires Run(concurrency, steps, states) && i < |states|
    ensures ReadShape(states[i]) && LinesExist(states[i].mux)
    ensures QueueShape(states[i].mux) && PhaseShape(states[i].phases, states[i].mux)
  {
    hide Enabled, ReadShape, LinesExist, QueueShape, PhaseShape, PermitsBalance, LogShape, NoneForgotten, QueueLaw,
         ExitLaw, LeftShape, NextMux, NextPhase, NextStdin;
    InvRun(concurrency, steps, states, i);
    if i == 0 {
      NothingReadYet(concurrency);
    } else {
      ReadRun(concurrency, steps, states, i - 1);
      LinesExistStep(states[i - 1], steps[i - 1]);
      ReadShapeStep(states[i - 1], steps[i - 1]);
    }
  }

  lemma NothingReadYet(concurrency: int)
    ensures ReadShape(Init(concurrency)) && LinesExist(Init(concurrency).mux)
  {}

  /** In every run, a request that still waits has read only lines that are neither done nor cancelled. */
  lemma WaitingReadsOn(concurrency: int, steps: seq<Step>, states: seq<State>, i: nat, id: Id)
    requires Run(concurrency, steps, states) && i < |states| && At(states[i], id, Waiting)
    ensures var q := states[i].mux;
            && id in q.queues && id in q.consumed && q.consumed[id] <= |q.queues[id]|
            && forall k | 0 <= k < q.consumed[id] :: GoesOn(q.log.lines, q.queues[id][k])
  {
    hide Run, Enabled, LinesExist, GoesOn, Ends;
    ReadRun(concurrency, steps, states, i);
    assert ReadSoFar(states[i].mux, id, true);
  }

  /** A request that reads an item is over exactly if that is the exit sentinel, done or cancelled. */
  lemma TakeEndsIff(concurrency: int, steps: seq<Step>, states: seq<State>, i: nat, id: Id)
    requires Run(concurrency, steps, states) && i < |steps| && steps[i] == Take(id)
    ensures Unread(states[i].mux, id)
    ensures var q := states[i].mux; var item := q.queues[id][q.consumed[id]];
            && (At(states[i + 1], id, Unwinding(true)) <==> Ends(q.log.lines, item))
            && (At(states[i + 1], id, Waiting) <==> GoesOn(q.log.lines, item))
  {
    hide GoesOn, Ends, NextPhase, NextStdin, LinesExist, ReadShape, QueueShape, PhaseShape;
    ReadRun(concurrency, steps, states, i);
    TakeMoves(states[i], id);
  }

  /** The request has stopped: it read exactly one item that ended it, and that was the last. */
  ghost predicate Stopped(q: Mux, id: Id, n: nat) {
    && id in q.queues && id in q.consumed && q.consumed[id] == n <= |q.queues[id]| && n > 0
    && Ends(q.log.lines, q.queues[id][n - 1])
    && forall k | 0 <= k < n - 1 :: GoesOn(q.log.lines, q.queues[id][k])
  }

  lemma StoppedStays(s: State, step: Step, id: Id, n: nat)
    requires Enabled(s, step) && QueueShape(s.mux) && PhaseShape(s.phases, s.mux)
    requires Stopped(s.mux, id, n) && !Reading(s, id)
    ensures Stopped(NextMux(s, step), id, n) && !Reading(Apply(s, step), id)
  {
    hide NextMux, NextPhase, NextStdin, QueueShape, PhaseShape;
    QueueGrows(s, step, id);
    ReadingStep(s, step, id);
  }

  /**
   A request that a Take brought to its end has, from then on in every state, read exactly one item that
   ends a request, the last one it took.
   */
  lemma {:induction false} LeftByTake(concurrency: int, steps: seq<Step>, states: seq<State>, i: nat, j: nat, id: Id)
    requires Run(concurrency, steps, states) && i < j < |states| && steps[i] == Take(id)
    requires !At(states[i + 1], id, Waiting)
    ensures Unread(states[i].mux, id)
    ensures Stopped(states[j].mux, id, states[i].mux.consumed[id] + 1) && !Reading(states[j], id)
    decreases j
  {
    hide NextMux, NextPhase, NextStdin, QueueShape, PhaseShape, LinesExist, GoesOn, Ends;
    ReadRun(concurrency, steps, states, j - 1);
    if j == i + 1 {
      TakeMoves(states[i], id);
      ReadSoFarAtTake(states[i], id);
    } else {
      LeftByTake(concurrency, steps, states, i, j - 1, id);
      StoppedStays(states[j - 1], steps[j - 1], id, states[i].mux.consumed[id] + 1);
    }
  }

  lemma ReadSoFarAtTake(s: State, id: Id)
    requires Enabled(s, Take(id)) && LinesExist(s.mux) && ReadShape(s)
    requires Ends(s.mux.log.lines, s.mux.queues[id][s.mux.consumed[id]])
    ensures Stopped(NextMux(s, Take(id)), id, s.mux.consumed[id] + 1)
  {
    hide LinesExist, GoesOn, Ends;
    assert ReadSoFar(s.mux, id, true);
  }

  // ---- what is written ----

  function Count(stdin: seq<StdinLine>, line: StdinLine): nat {
    if stdin == [] then 0
    else Count(stdin[..|stdin| - 1], line) + if stdin[|stdin| - 1] == line then 1 else 0
  }

  lemma CountSnoc(stdin: seq<StdinLine>, more: StdinLine, line: StdinLine)
    ensures Count(stdin + [more], line) == Count(stdin, line) + if more == line then 1 else 0
  {
    assert (stdin + [more])[..|stdin|] == stdin;
  }

  /** The request has been waiting for answers at some time up to state i. */
  ghost predicate Waited(states: seq<State>, i: nat, id: Id) {
    exists j :: 0 <= j <= i < |states| && At(states[j], id, Waiting)
  }

  predicate Sent(s: State, id: Id) {
    && id in s.phases
    && var p := s.phases[id]; p.Waiting? || p == Unwinding(true) || p.Popped? || p.Finished?
  }

  lemma SentStep(s: State, step: Step, id: Id)
    requires Enabled(s, step) && Sent(s, id)
    ensures Sent(Apply(s, step), id) && step != WriteLine(id, true) && step != WriteLine(id, false)
  {
    hide NextMux, NextStdin, Terminal;
  }

  lemma StdinStep(s: State, step: Step, line: StdinLine)
    requires Enabled(s, step)
    ensures Count(NextStdin(s, step), line) == Count(s.stdin, line) +
            if step.WriteLine? && line == RequestLine(step.id) && At(Apply(s, step), step.id, Waiting) then 1
            else if step.Cancel? && line == CancelLine(step.id) && !s.closed then 1 else 0
  {
    hide Count, NextMux;
    if step.WriteLine? { CountSnoc(s.stdin, RequestLine(step.id), line); }
    if step.Cancel? { CountSnoc(s.stdin, CancelLine(step.id), line); }
  }

  /** A request that starts to wait does so by writing its line. */
  lemma WaitingStep(s: State, step: Step, id: Id)
    requires Enabled(s, step)
    ensures At(Apply(s, step), id, Waiting) ==> At(s, id, Waiting) || (step.WriteLine? && step.id == id)
  {
    hide NextMux, NextStdin, Terminal;
  }

  /** In every run each request's line is written once if the request has come to wait, and else never. */
  lemma {:induction false} WrittenOnce(concurrency: int, steps: seq<Step>, states: seq<State>, i: nat, id: Id)
    requires Run(concurrency, steps, states) && i < |states|
    ensures Count(states[i].stdin, RequestLine(id)) == if Waited(states, i, id) then 1 else 0
    ensures Waited(states, i, id) ==> Sent(states[i], id)
  {
    hide Count, NextMux, NextPhase, NextStdin, Enabled;
    if i == 0 {
      NothingSent(concurrency, id);
    } else {
      WrittenOnce(concurrency, steps, states, i - 1, id);
      var s, step := states[i - 1], steps[i - 1];
      StdinStep(s, step, RequestLine(id));
      WaitingStep(s, step, id);
      assert Waited(states, i, id) <==> Waited(states, i - 1, id) || At(states[i], id, Waiting);
      if Waited(states, i - 1, id) { SentStep(s, step, id); }
    }
  }

  lemma NothingSent(concurrency: int, id: Id)
    ensures var s := Init(concurrency); Count(s.stdin, RequestLine(id)) == 0 && id !in s.phases
  {}

  /** How many cancels for this id were called among the first i steps while the flag was clear. */
  function Asked(steps: seq<Step>, states: seq<State>, i: nat, id: Id): nat
    requires i <= |steps| && |states| == |steps| + 1
  {
    if i == 0 then 0
    else Asked(steps, states, i - 1, id) + if steps[i - 1] == Cancel(id) && !states[i - 1].closed then 1 else 0
  }

  lemma {:induction false} CancelsWritten(concurrency: int, steps: seq<Step>, states: seq<State>, i: nat, id: Id)
    requires Run(concurrency, steps, states) && i < |states|
    ensures Count(states[i].stdin, CancelLine(id)) == Asked(steps, states, i, id)
  {
    hide Count, NextMux, NextPhase, NextStdin, Enabled;
    if i == 0 {
      assert states[0].stdin == [];
      NoLines(CancelLine(id));
    } else {
      CancelsWritten(concurrency, steps, states, i - 1, id);
      StdinStep(states[i - 1], steps[i - 1], CancelLine(id));
    }
  }

  lemma NoLines(line: StdinLine)
    ensures Count([], line) == 0
  {}

  // ---- after close() ----

  /** The request has no queue and is on its way out without one. */
  predicate Turned(s: State, id: Id) {
    && id !in s.mux.queues
    && (id in s.phases ==> s.phases[id].Acquired? || s.phases[id] == Unwinding(false) || s.phases[id].Finished?)
  }

  lemma TurnedStep(s: State, step: Step, id: Id)
    requires Enabled(s, step) && s.closed && Turned(s, id)
    ensures Apply(s, step).closed && Turned(Apply(s, step), id)
  {
    hide NextStdin, Terminal;
  }

  /** A request that has not yet looked at the flag when close() sets it never gets a queue and never writes. */
  lemma {:induction false} TurnedAway(concurrency: int, steps: seq<Step>, states: seq<State>, i: nat, j: nat, id: Id)
    requires Run(concurrency, steps, states) && i <= j < |states|
    requires states[i].closed && (id !in states[i].phases || At(states[i], id, Acquired))
    ensures Turned(states[j], id) && RequestLine(id) !in states[j].stdin
    decreases j
  {
    hide Enabled, NextMux, NextPhase, NextStdin, QueueShape, LinesExist, ReadShape;
    if i == j {
      ReadRun(concurrency, steps, states, i);
    } else {
      TurnedAway(concurrency, steps, states, i, j - 1, id);
      NothingWrittenAfterClose(concurrency, steps, states, i, j - 1);
      TurnedStep(states[j - 1], steps[j - 1], id);
    }
    WrittenOnce(concurrency, steps, states, i, id);
    NothingWrittenAfterClose(concurrency, steps, states, i, j);
    if RequestLine(id) in states[j].stdin { CountSeen(states[j].stdin, RequestLine(id)); }
  }

  lemma {:induction false} CountSeen(stdin: seq<StdinLine>, line: StdinLine)
    requires line in stdin
    ensures Count(stdin, line) > 0
  {
    var last := |stdin| - 1;
    if stdin[last] != line { CountSeen(stdin[..last], line); }
  }

  // ---- nobody is stuck ----

  /** What request id can do next in phase p; waiting for an empty queue, it can give up. */
  ghost predicate CanGoOn(s: State, id: Id)
    requires id in s.phases
  {
    match s.phases[id]
    case Acquired => Enabled(s, CheckFlag(id))
    case Checked => Enabled(s, Register(id))
    case Registered => Enabled(s, WriteLine(id, false)) && Enabled(s, WriteLine(id, true))
    case Waiting => Enabled(s, Abandon(id)) && (Unread(s.mux, id) ==> Enabled(s, Take(id)))
    case Unwinding(pop) => if pop then Enabled(s, Pop(id)) else Enabled(s, Release(id))
    case Popped => Enabled(s, Release(id))
    case Finished => true
  }

  /**
   In every state of every run: each request can go on; whenever fewer than max(1, concurrency)
   requests hold a permit a new one can acquire one, and else none can; the reader can read or end, or
   put what it holds; anyone can cancel; each call of close() can go on until it returns.
   */
  lemma NobodyIsStuck(concurrency: int, steps: seq<Step>, states: seq<State>, i: nat, id: Id, e: Event, call: nat)
    requires Run(concurrency, steps, states) && i < |states|
    ensures var s := states[i]; var n := if concurrency > 1 then concurrency else 1;
            && (id in s.phases ==> CanGoOn(s, id))
            && (id !in s.phases ==> (Enabled(s, Acquire(id)) <==> |Holders(s.phases)| < n))
            && Enabled(s, Cancel(id))
            && (s.mux.reader.Ready? ==> Enabled(s, ReadLine(e)) && Enabled(s, Eof))
            && (s.mux.reader.Holding? ==> Enabled(s, PutEvent))
            && (call !in s.mux.closers ==> Enabled(s, SetFlag(call)))
            && (call in s.mux.closers && s.mux.closers[call].Flagged? ==>
                  exists order :: Enabled(s, Sweep(call, order)))
            && (call in s.mux.closers && s.mux.closers[call].Putting? ==>
                  Enabled(s, if s.mux.closers[call].left == [] then ReturnFromClose(call) else PutExit(call)))
  {
    hide Run, Holders;
    NeverOversubscribed(concurrency, steps, states, i);
    var order := Listing(states[i].mux.inflight);
    assert call in states[i].mux.closers && states[i].mux.closers[call].Flagged? ==>
        Enabled(states[i], Sweep(call, order));
  }

  /** Some order in which a set can be listed. */
  lemma {:induction false} Listing(ids: set<Id>) returns (order: seq<Id>)
    ensures Lists(order, ids)
    decreases |ids|
  {
    if ids == {} {
      order := [];
    } else {
      var id :| id in ids;
      var rest := Listing(ids - {id});
      order := [id] + rest;
    }
  }
}

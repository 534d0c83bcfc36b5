/**
 WorkerIO: N requests multiplexed over one worker's stdin and stdout. Each critical section, queue
 operation and unlocked read of the Python code is one atomic step of a state machine; a run is any
 interleaving of enabled steps of the request threads, the reader thread and any calls of close().

 The log (lines read, and when each queue entered and left _inflight) records history so that the
 queue law can be stated; no step's outcome depends on it beyond the text of a line already read.
 */
module WorkerIO {
  import opened Options

  type Id = string

  datatype Kind = Done | Cancelled | Error | Other

  /** One JSON line from the worker; rid is its request_id or id, None when absent or empty. */
  datatype Event = Event(rid: Option<Id>, kind: Kind)

  /** What a queue holds: the n-th worker line, or the _worker_exit sentinel. */
  datatype Item = Line(n: nat) | Exit

  datatype StdinLine = RequestLine(id: Id) | CancelLine(id: Id)

  datatype Phase =
    | Acquired              // holds a permit, flag not yet checked
    | Checked               // saw the flag clear
    | Registered            // queue is in _inflight, line not yet written
    | Waiting               // line written, reading its queue
    | Unwinding(pop: bool)  // in `finally`; pop says whether an id was registered
    | Popped                // queue removed, permit still held
    | Finished              // permit released

  datatype Reader = Ready | Holding(to: Id) | Stopped

  /** One call of close(); calls may overlap. */
  datatype Closer = Flagged | Putting(left: seq<Id>) | Returned

  /** What has happened so far: the lines read, and how many had been read when a queue came and went. */
  datatype Log = Log(lines: seq<Event>, registered: map<Id, nat>, removed: map<Id, nat>)

  /** _inflight and the per-request queues, with the reader's and every close() call's progress through them. */
  datatype Mux = Mux(
    inflight: set<Id>,
    queues: map<Id, seq<Item>>,   // everything ever put, read or not
    consumed: map<Id, nat>,       // how much of it the request has read
    reader: Reader,
    closers: map<nat, Closer>,    // the calls of close() that have begun
    log: Log)

  datatype State = State(
    concurrency: nat,
    permits: int,
    phases: map<Id, Phase>,
    closed: bool,
    stdin: seq<StdinLine>,
    mux: Mux)

  datatype Step =
    | Acquire(id: Id) | CheckFlag(id: Id) | Register(id: Id) | WriteLine(id: Id, broken: bool)
    | Take(id: Id) | Abandon(id: Id) | Pop(id: Id) | Release(id: Id) | Cancel(id: Id)
    | ReadLine(event: Event) | PutEvent | Eof
    | SetFlag(call: nat) | Sweep(call: nat, order: seq<Id>) | PutExit(call: nat) | ReturnFromClose(call: nat)

  /** WorkerIO(proc, concurrency): the semaphore starts at max(1, concurrency). */
  function Init(concurrency: int): State {
    var n: nat := if concurrency > 1 then concurrency else 1;
    State(n, n, map[], false, [], Mux({}, map[], map[], Ready, map[], Log([], map[], map[])))
  }

  // ---- queue operations ----

  predicate Unread(q: Mux, id: Id) {
    id in q.queues && id in q.consumed && q.consumed[id] < |q.queues[id]|
  }

  /** The queue a worker line goes to: its own, or the only one when it is an unroutable error. */
  function Route(inflight: set<Id>, e: Event): (r: Option<Id>)
    ensures r.Some? ==> r.value in inflight
  {
    if e.rid.Some? && e.rid.value in inflight then e.rid
    else if e.kind == Error && |inflight| == 1 then Some(Sole(inflight))
    else None
  }

  function Sole(s: set<Id>): (id: Id)
    requires |s| == 1
    ensures s == {id}
  {
    SingletonOf(s);
    var id :| id in s && s == {id};
    id
  }

  lemma SingletonOf(s: set<Id>)
    requires |s| == 1
    ensures exists id :: id in s && s == {id}
  {
    var id :| id in s;
    assert |s - {id}| == 0;
    assert s == {id};
  }

  function MuxRegister(q: Mux, id: Id): Mux {
    q.(inflight := q.inflight + {id}, queues := q.queues[id := []], consumed := q.consumed[id := 0],
       log := q.log.(registered := q.log.registered[id := |q.log.lines|]))
  }

  function MuxTake(q: Mux, id: Id): Mux
    requires Unread(q, id)
  {
    q.(consumed := q.consumed[id := q.consumed[id] + 1])
  }

  function MuxPop(q: Mux, id: Id): Mux {
    if id !in q.inflight then q
    else q.(inflight := q.inflight - {id}, log := q.log.(removed := q.log.removed[id := |q.log.lines|]))
  }

  function MuxRead(q: Mux, e: Event): Mux {
    var to := Route(q.inflight, e);
    q.(log := q.log.(lines := q.log.lines + [e]), reader := if to.Some? then Holding(to.value) else Ready)
  }

  /** Appends to one queue; a queue object outlives its registration. */
  function PutOne(queues: map<Id, seq<Item>>, id: Id, item: Item): map<Id, seq<Item>> {
    if id in queues then queues[id := queues[id] + [item]] else queues
  }

  function MuxPut(q: Mux): Mux
    requires q.reader.Holding?
  {
    var n: nat := if q.log.lines == [] then 0 else |q.log.lines| - 1;
    q.(queues := PutOne(q.queues, q.reader.to, Line(n)), reader := Ready)
  }

  /** Every registered queue leaves _inflight. */
  function MuxClear(q: Mux): Mux {
    q.(inflight := {}, log := q.log.(removed := q.log.removed + map id | id in q.inflight :: |q.log.lines|))
  }

  function PutAll(queues: map<Id, seq<Item>>, ids: set<Id>): (r: map<Id, seq<Item>>)
    ensures r.Keys == queues.Keys
    ensures forall id | id in r :: r[id] == if id in ids then queues[id] + [Exit] else queues[id]
  {
    map id | id in queues :: if id in ids then queues[id] + [Exit] else queues[id]
  }

  function MuxEof(q: Mux): Mux {
    MuxClear(q).(queues := PutAll(q.queues, q.inflight), reader := Stopped)
  }

  /** The queues a call of close() has taken out of _inflight and not yet woken. */
  function Left(closers: map<nat, Closer>, call: nat): seq<Id> {
    if call in closers && closers[call].Putting? then closers[call].left else []
  }

  function MuxPutExit(q: Mux, call: nat): Mux
    requires Left(q.closers, call) != []
  {
    q.(queues := PutOne(q.queues, Left(q.closers, call)[0], Exit),
      closers := q.closers[call := Putting(Left(q.closers, call)[1..])])
  }

  function MuxSweep(q: Mux, call: nat, order: seq<Id>): Mux {
    MuxClear(q).(closers := q.closers[call := Putting(order)])
  }

  /** list(self._inflight.values()), in whatever order the dictionary has. */
  predicate Lists(order: seq<Id>, ids: set<Id>) {
    && (forall i | 0 <= i < |order| :: order[i] in ids) && (forall id | id in ids :: id in order)
    && (forall i, j | 0 <= i < j < |order| :: order[i] != order[j])
  }

  // ---- steps ----

  predicate At(s: State, id: Id, p: Phase) {
    id in s.phases && s.phases[id] == p
  }

  predicate Enabled(s: State, step: Step) {
    match step
    case Acquire(id) => id !in s.phases && s.permits > 0
    case CheckFlag(id) => At(s, id, Acquired)
    case Register(id) => At(s, id, Checked)
    case WriteLine(id, _) => At(s, id, Registered)
    case Take(id) => At(s, id, Waiting) && Unread(s.mux, id)
    case Abandon(id) => At(s, id, Waiting)
    case Pop(id) => At(s, id, Unwinding(true))
    case Release(id) => At(s, id, Popped) || At(s, id, Unwinding(false))
    case Cancel(_) => true
    case ReadLine(_) => s.mux.reader.Ready?
    case PutEvent => s.mux.reader.Holding?
    case Eof => s.mux.reader.Ready?
    case SetFlag(call) => call !in s.mux.closers
    case Sweep(call, order) => call in s.mux.closers && s.mux.closers[call].Flagged? && Lists(order, s.mux.inflight)
    case PutExit(call) => Left(s.mux.closers, call) != []
    case ReturnFromClose(call) => call in s.mux.closers && s.mux.closers[call] == Putting([])
  }

  predicate Terminal(q: Mux, item: Item) {
    var lines := q.log.lines;
    item.Exit? || (item.n < |lines| && (lines[item.n].kind.Done? || lines[item.n].kind.Cancelled?))
  }

  /** The phase the stepping request moves to; other steps move nobody. */
  function NextPhase(s: State, step: Step): Option<Phase>
    requires Enabled(s, step)
  {
    match step
    case Acquire(id) => Some(Acquired)
    case CheckFlag(id) => Some(if s.closed then Unwinding(false) else Checked)
    case Register(id) => Some(Registered)
    case WriteLine(id, broken) => Some(if s.closed || broken then Unwinding(true) else Waiting)
    case Take(id) => if Terminal(s.mux, s.mux.queues[id][s.mux.consumed[id]]) then Some(Unwinding(true)) else None
    case Abandon(id) => Some(Unwinding(true))
    case Pop(id) => Some(Popped)
    case Release(id) => Some(Finished)
    case _ => None
  }

  function NextMux(s: State, step: Step): Mux
    requires Enabled(s, step)
  {
    match step
    case Register(id) => MuxRegister(s.mux, id)
    case Take(id) => MuxTake(s.mux, id)
    case Pop(id) => MuxPop(s.mux, id)
    case ReadLine(e) => MuxRead(s.mux, e)
    case PutEvent => MuxPut(s.mux)
    case Eof => MuxEof(s.mux)
    case SetFlag(call) => s.mux.(closers := s.mux.closers[call := Flagged])
    case Sweep(call, order) => MuxSweep(s.mux, call, order)
    case PutExit(call) => MuxPutExit(s.mux, call)
    case ReturnFromClose(call) => s.mux.(closers := s.mux.closers[call := Returned])
    case _ => s.mux
  }

  /** Lines are written only under the stdin lock, after a second look at the flag. */
  function NextStdin(s: State, step: Step): seq<StdinLine> {
    match step
    case WriteLine(id, broken) => if s.closed || broken then s.stdin else s.stdin + [RequestLine(id)]
    case Cancel(id) => if s.closed then s.stdin else s.stdin + [CancelLine(id)]
    case _ => s.stdin
  }

  function Apply(s: State, step: Step): State
    requires Enabled(s, step)
  {
    var p := NextPhase(s, step);
    State(s.concurrency,
          if step.Acquire? then s.permits - 1 else if step.Release? then s.permits + 1 else s.permits,
          if p.Some? then s.phases[step.id := p.value] else s.phases,
          s.closed || step.SetFlag?,
          NextStdin(s, step),
          NextMux(s, step))
  }

  /** The states an interleaving passes through. */
  ghost predicate Run(concurrency: int, steps: seq<Step>, states: seq<State>) {
    && |states| == |steps| + 1
    && states[0] == Init(concurrency)
    && forall i | 0 <= i < |steps| :: Enabled(states[i], steps[i]) && states[i + 1] == Apply(states[i], steps[i])
  }

  // ---- permits ----

  ghost function Holders(phases: map<Id, Phase>): set<Id> {
    set id | id in phases && !phases[id].Finished?
  }

  /** Free permits and permit holders add up to the concurrency. */
  ghost predicate PermitsBalance(s: State) {
    s.permits >= 0 && s.permits + |Holders(s.phases)| == s.concurrency
  }

  lemma HoldersMove(phases: map<Id, Phase>, id: Id, p: Phase)
    ensures var h, h' := Holders(phases), Holders(phases[id := p]);
            h' == if p.Finished? then h - {id} else h + {id}
  {}

  lemma PermitsStep(s: State, step: Step)
    requires PermitsBalance(s) && Enabled(s, step)
    ensures PermitsBalance(Apply(s, step))
  {
    hide Holders, NextMux, NextStdin;
    var p := NextPhase(s, step);
    if p.Some? {
      HoldersMove(s.phases, step.id, p.value);
      HolderIn(s.phases, step.id);
      if step.Acquire? || step.Release? {
      } else {
        assert step.id in Holders(s.phases);
        assert Holders(s.phases) + {step.id} == Holders(s.phases);
      }
    }
  }

  lemma HolderIn(phases: map<Id, Phase>, id: Id)
    ensures id in Holders(phases) <==> id in phases && !phases[id].Finished?
  {}

  // ---- shape of the queues ----

  ghost predicate QueueShape(q: Mux) {
    && q.queues.Keys == q.log.registered.Keys
    && q.consumed.Keys == q.log.registered.Keys
    && q.inflight <= q.queues.Keys
    && (forall id | id in q.queues :: q.consumed[id] <= |q.queues[id]|)
    && (q.reader.Holding? ==> q.reader.to in q.queues && q.log.lines != [])
    && (forall call, id | Listed(q.closers, call, id) :: id in q.queues)
  }

  /** The call has still to wake this request. */
  predicate Listed(closers: map<nat, Closer>, call: nat, id: Id) {
    id in Left(closers, call)
  }

  /** A queue is in _inflight from its registration until its removal, and both were recorded. */
  ghost predicate LogShape(q: Mux) {
    var log := q.log;
    && q.inflight == log.registered.Keys - log.removed.Keys
    && log.removed.Keys <= log.registered.Keys
    && (forall id | id in log.registered :: log.registered[id] <= |log.lines|)
    && (forall id | id in log.removed :: log.removed[id] <= |log.lines|)
  }

  predicate Live(p: Phase) { p.Registered? || p.Waiting? || p == Unwinding(true) }

  predicate Early(p: Phase) { p.Acquired? || p.Checked? || p == Unwinding(false) }

  /** Which requests own a queue; a request leaves _inflight before it gives back its permit. */
  ghost predicate PhaseShape(phases: map<Id, Phase>, q: Mux) {
    && q.queues.Keys <= phases.Keys
    && (forall id | id in phases :: Early(phases[id]) ==> id !in q.queues)
    && (forall id | id in phases :: Live(phases[id]) ==> id in q.queues)
    && (forall id | id in q.inflight :: id in phases && Live(phases[id]))
  }

  lemma QueueShapeStep(s: State, step: Step)
    requires Enabled(s, step) && QueueShape(s.mux)
    ensures QueueShape(NextMux(s, step))
  {
    hide Listed;
    var q' := NextMux(s, step);
    forall call, id | Listed(q'.closers, call, id) ensures id in q'.queues {
      ListedStep(s, step, call, id);
    }
  }

  /** Only a sweep puts a request on a call's list, out of _inflight; only waking it takes it off. */
  lemma ListedStep(s: State, step: Step, call: nat, id: Id)
    requires Enabled(s, step)
    ensures var q, q' := s.mux, NextMux(s, step);
            && (Listed(q'.closers, call, id) ==>
                  Listed(q.closers, call, id) || (step.Sweep? && step.call == call && id in q.inflight))
            && (Listed(q.closers, call, id) ==>
                  Listed(q'.closers, call, id) ||
                  (step.PutExit? && step.call == call && id == Left(q.closers, call)[0]))
  {
    hide Route, PutOne, PutAll;
    if step.PutExit? && step.call == call {
      var left := Left(s.mux.closers, call);
      assert left == [left[0]] + left[1..];
    }
  }

  lemma LogShapeStep(s: State, step: Step)
    requires Enabled(s, step) && LogShape(s.mux) && QueueShape(s.mux) && PhaseShape(s.phases, s.mux)
    ensures LogShape(NextMux(s, step))
  {}

  lemma PhaseShapeStep(s: State, step: Step)
    requires Enabled(s, step) && PhaseShape(s.phases, s.mux) && QueueShape(s.mux)
    ensures PhaseShape(Apply(s, step).phases, Apply(s, step).mux)
  {
    hide NextStdin, QueueShape, PhaseShape;
    if NextPhase(s, step).Some? {
      PhaseShapeMove(s, step);
    } else {
      PhaseShapeMux(s, step);
    }
  }

  lemma PhaseShapeMove(s: State, step: Step)
    requires Enabled(s, step) && PhaseShape(s.phases, s.mux) && NextPhase(s, step).Some?
    ensures PhaseShape(s.phases[step.id := NextPhase(s, step).value], NextMux(s, step))
  {
    hide Terminal;
  }

  lemma PhaseShapeMux(s: State, step: Step)
    requires Enabled(s, step) && PhaseShape(s.phases, s.mux) && QueueShape(s.mux) && NextPhase(s, step).None?
    ensures PhaseShape(s.phases, NextMux(s, step))
  {
    hide Live, Early, Terminal, Route;
  }

  // ---- nobody is forgotten by close() ----

  /** The request has an exit sentinel it has not read yet. */
  ghost predicate ExitUnread(q: Mux, id: Id) {
    id in q.queues && id in q.consumed && q.consumed[id] <= |q.queues[id]| && Exit in q.queues[id][q.consumed[id]..]
  }

  /** Someone can still wake the request: it is routable, woken already, or on close()'s list. */
  ghost predicate Covered(q: Mux, id: Id) {
    id in q.inflight || ExitUnread(q, id) || OnList(q.closers, id)
  }

  ghost predicate OnList(closers: map<nat, Closer>, id: Id) {
    exists call :: Listed(closers, call, id)
  }

  /** Some call of close() has emptied _inflight. */
  ghost predicate Swept(q: Mux) {
    exists call :: call in q.closers && !q.closers[call].Flagged?
  }

  ghost predicate NoneForgotten(s: State) {
    && (s.mux.closers != map[] ==> s.closed)
    && (forall id | id in s.phases && (s.phases[id].Registered? || s.phases[id].Waiting?) :: Covered(s.mux, id))
    && (Swept(s.mux) ==>
        forall id | id in s.mux.inflight && id in s.phases :: !s.phases[id].Waiting?)
  }

  lemma ExitStays(q: Mux, q': Mux, id: Id, item: Item)
    requires ExitUnread(q, id)
    requires id in q'.queues && id in q'.consumed && q'.consumed[id] == q.consumed[id]
    requires q'.queues[id] == q.queues[id] || q'.queues[id] == q.queues[id] + [item]
    ensures ExitUnread(q', id)
  {
    var k := q.consumed[id];
    assert (q.queues[id] + [item])[k..] == q.queues[id][k..] + [item];
  }

  lemma ExitAppended(q: Mux, id: Id, before: seq<Item>)
    requires id in q.queues && id in q.consumed && q.consumed[id] <= |before|
    requires q.queues[id] == before + [Exit]
    ensures ExitUnread(q, id)
  {
    assert q.queues[id][q.consumed[id]..] == before[q.consumed[id]..] + [Exit];
  }

  lemma CoveredStep(s: State, step: Step, id: Id)
    requires Enabled(s, step) && QueueShape(s.mux) && PhaseShape(s.phases, s.mux) && id in s.phases
    requires Covered(s.mux, id) && (step.Pop? || step.Take? || step.Register? ==> step.id != id)
    ensures Covered(NextMux(s, step), id)
  {
    hide NextPhase, NextStdin, OnList, ExitUnread, PhaseShape, QueueShape, Lists;
    var q, q' := s.mux, NextMux(s, step);
    if step.PutExit? && Left(q.closers, step.call)[0] == id {
      ExitPut(q, step.call);
    } else if OnList(q.closers, id) {
      OnListStep(s, step, id);
    } else if step.Sweep? && id in q.inflight {
      SweptIsListed(q, step.call, step.order, id);
    } else if step.Eof? && id in q.inflight {
      ExitAtEof(q, id);
    } else if ExitUnread(q, id) {
      ExitUnreadStep(s, step, id);
    }
  }

  lemma ExitPut(q: Mux, call: nat)
    requires QueueShape(q) && Left(q.closers, call) != []
    ensures ExitUnread(MuxPutExit(q, call), Left(q.closers, call)[0])
  {
    var id := Left(q.closers, call)[0];
    assert Listed(q.closers, call, id);
    ExitAppended(MuxPutExit(q, call), id, q.queues[id]);
  }

  lemma ExitAtEof(q: Mux, id: Id)
    requires QueueShape(q) && id in q.inflight
    ensures ExitUnread(MuxEof(q), id)
  {
    ExitAppended(MuxEof(q), id, q.queues[id]);
  }

  lemma ExitUnreadStep(s: State, step: Step, id: Id)
    requires Enabled(s, step) && QueueShape(s.mux) && PhaseShape(s.phases, s.mux) && ExitUnread(s.mux, id)
    requires step.Take? || step.Register? ==> step.id != id
    ensures ExitUnread(NextMux(s, step), id)
  {
    hide Live, Early, NextPhase, NextStdin, Listed, Route;
    var q, q' := s.mux, NextMux(s, step);
    ExitStays(q, q', id, if step.PutEvent? then Line(|q.log.lines| - 1) else Exit);
  }

  lemma OnListStep(s: State, step: Step, id: Id)
    requires Enabled(s, step) && OnList(s.mux.closers, id)
    ensures OnList(NextMux(s, step).closers, id) || (step.PutExit? && id == Left(s.mux.closers, step.call)[0])
  {
    hide Listed, NextMux, Enabled;
    var call :| Listed(s.mux.closers, call, id);
    ListedStep(s, step, call, id);
  }

  lemma SweptIsListed(q: Mux, call: nat, order: seq<Id>, id: Id)
    requires Lists(order, q.inflight) && id in q.inflight
    ensures OnList(MuxSweep(q, call, order).closers, id)
  {
    assert Listed(MuxSweep(q, call, order).closers, call, id);
  }

  /** Reading a line leaves the sentinel behind it unread. */
  lemma CoveredTake(s: State, id: Id)
    requires Enabled(s, Take(id)) && QueueShape(s.mux) && Covered(s.mux, id)
    requires !s.mux.queues[id][s.mux.consumed[id]].Exit?
    ensures Covered(MuxTake(s.mux, id), id)
  {
    hide OnList;
    var k, items := s.mux.consumed[id], s.mux.queues[id];
    assert items[k..] == [items[k]] + items[k + 1..];
  }

  lemma NoneForgottenStep(s: State, step: Step)
    requires Enabled(s, step) && QueueShape(s.mux) && PhaseShape(s.phases, s.mux) && NoneForgotten(s)
    ensures NoneForgotten(Apply(s, step))
  {
    hide Covered, QueueShape, PhaseShape, NextStdin;
    var t := Apply(s, step);
    forall id | id in t.phases && (t.phases[id].Registered? || t.phases[id].Waiting?)
      ensures Covered(t.mux, id)
    {
      if step == Register(id) {
        CoveredRegister(s.mux, id);
      } else if step == Take(id) {
        CoveredTake(s, id);
      } else {
        CoveredStep(s, step, id);
      }
    }
  }

  lemma CoveredRegister(q: Mux, id: Id)
    ensures Covered(MuxRegister(q, id), id)
  {}

  // ---- the queue law ----

  /** The n-th line was read while id was in _inflight. */
  ghost predicate Window(log: Log, n: nat, id: Id) {
    id in log.registered && log.registered[id] <= n && (id in log.removed ==> n < log.removed[id])
  }

  /** The n-th line belongs in id's queue: it carries the id, or it is an error and id was alone. */
  ghost predicate Deliver(log: Log, n: nat, id: Id)
    requires n < |log.lines|
  {
    && Window(log, n, id)
    && (|| log.lines[n].rid == Some(id)
        || (log.lines[n].kind.Error? && forall j :: Window(log, n, j) ==> j == id))
  }

  /** Of the first k lines, those that belong to id, in order. */
  ghost function Select(log: Log, id: Id, k: nat): seq<nat>
    requires k <= |log.lines|
  {
    if k == 0 then [] else Select(log, id, k - 1) + (if Deliver(log, k - 1, id) then [k - 1] else [])
  }

  /** The worker lines in a queue, leaving out exit sentinels. */
  function LinesIn(items: seq<Item>): seq<nat> {
    if items == [] then []
    else
      var last := items[|items| - 1];
      LinesIn(items[..|items| - 1]) + (if last.Line? then [last.n] else [])
  }

  lemma LinesInPut(items: seq<Item>, item: Item)
    ensures LinesIn(items + [item]) == LinesIn(items) + (if item.Line? then [item.n] else [])
  {
    assert (items + [item])[..|items|] == items;
  }

  /** Lines whose destination has been settled: all but the one the reader holds. */
  function Dispatched(q: Mux): nat {
    if q.reader.Holding? && q.log.lines != [] then |q.log.lines| - 1 else |q.log.lines|
  }

  ghost predicate QueueLaw(q: Mux) {
    && (forall id | id in q.queues :: LinesIn(q.queues[id]) == Select(q.log, id, Dispatched(q)))
    && (q.reader.Holding? && q.log.lines != [] ==> OnlyFor(q.log, |q.log.lines| - 1, q.reader.to))
  }

  ghost predicate OnlyFor(log: Log, n: nat, to: Id)
    requires n < |log.lines|
  {
    forall id :: Deliver(log, n, id) <==> id == to
  }

  /** The two logs agree on which queues were open at each of the first k lines. */
  ghost predicate Agree(log: Log, log': Log, k: nat) {
    && k <= |log.lines| <= |log'.lines| && log'.lines[..k] == log.lines[..k]
    && forall n: nat, id | n < k :: Window(log, n, id) == Window(log', n, id)
  }

  lemma DeliverAgrees(log: Log, log': Log, k: nat, n: nat, id: Id)
    requires Agree(log, log', k) && n < k
    ensures Deliver(log, n, id) == Deliver(log', n, id)
  {
    assert log.lines[n] == log.lines[..k][n] == log'.lines[n];
    hide Window;
  }

  lemma SelectAgrees(log: Log, log': Log, id: Id, k: nat, n: nat)
    requires Agree(log, log', k) && n <= k
    ensures Select(log, id, n) == Select(log', id, n)
  {
    if n > 0 {
      SelectAgrees(log, log', id, k, n - 1);
      DeliverAgrees(log, log', k, n - 1, id);
    }
  }

  /** A step never changes which queues were open at a line already read. */
  lemma LogAgrees(s: State, step: Step)
    requires Enabled(s, step) && LogShape(s.mux) && QueueShape(s.mux) && PhaseShape(s.phases, s.mux)
    ensures Agree(s.mux.log, NextMux(s, step).log, |s.mux.log.lines|)
  {
    hide LogShape, Agree, QueueShape;
    if step.Register? {
      assert step.id !in s.mux.queues;
      hide PhaseShape;
      RegisterAgrees(s.mux, step.id);
    } else {
      hide PhaseShape;
      RestAgrees(s, step);
    }
  }

  lemma RegisterAgrees(q: Mux, id: Id)
    requires LogShape(q) && QueueShape(q) && id !in q.queues
    ensures Agree(q.log, MuxRegister(q, id).log, |q.log.lines|)
  {}

  lemma RestAgrees(s: State, step: Step)
    requires Enabled(s, step) && LogShape(s.mux) && !step.Register?
    ensures Agree(s.mux.log, NextMux(s, step).log, |s.mux.log.lines|)
  {
    hide Route, PutOne;
  }

  /** Routing under the lock picks the one queue the finished log assigns the line to. */
  lemma RouteDelivers(q: Mux, e: Event, id: Id)
    requires LogShape(q)
    ensures var n := |q.log.lines|; Deliver(MuxRead(q, e).log, n, id) <==> Route(q.inflight, e) == Some(id)
  {
    hide Window, LogShape;
    var n, log := |q.log.lines|, MuxRead(q, e).log;
    forall j ensures Window(log, n, j) <==> j in q.inflight { WindowNow(q, e, j); }
    if e.rid.Some? && e.rid.value in q.inflight {
      assert Window(log, n, e.rid.value);
    } else if |q.inflight| == 1 {
      assert q.inflight == {Sole(q.inflight)};
      assert Window(log, n, Sole(q.inflight));
    } else if forall j :: Window(log, n, j) ==> j == id {
      assert forall j | j in q.inflight :: Window(log, n, j);
      OnlyOne(q.inflight, id);
    }
  }

  /** At the line just read, the open windows are the registered requests. */
  lemma WindowNow(q: Mux, e: Event, id: Id)
    requires LogShape(q)
    ensures Window(MuxRead(q, e).log, |q.log.lines|, id) <==> id in q.inflight
  {}

  lemma OnlyOne(ids: set<Id>, id: Id)
    requires forall j | j in ids :: j == id
    ensures id in ids ==> |ids| == 1
  {
    if id in ids { assert ids == {id}; }
  }

  lemma OnlyForAgrees(log: Log, log': Log, n: nat, to: Id)
    requires n < |log.lines| && Agree(log, log', |log.lines|) && OnlyFor(log, n, to)
    ensures OnlyFor(log', n, to)
  {
    forall id ensures Deliver(log', n, id) <==> id == to {
      DeliverAgrees(log, log', |log.lines|, n, id);
    }
  }

  /** A fresh queue is owed nothing. */
  lemma SelectFresh(log: Log, id: Id, k: nat)
    requires k <= |log.lines| && id in log.registered && k <= log.registered[id]
    ensures Select(log, id, k) == []
  {}

  /** Every step except the reader's own leaves each old queue's lines as they are. */
  lemma LinesKept(s: State, step: Step, id: Id)
    requires Enabled(s, step) && QueueShape(s.mux) && PhaseShape(s.phases, s.mux) && id in s.mux.queues
    requires !step.PutEvent?
    ensures id in NextMux(s, step).queues && LinesIn(NextMux(s, step).queues[id]) == LinesIn(s.mux.queues[id])
  {
    hide LinesIn, Live, NextPhase, NextStdin;
    LinesInPut(s.mux.queues[id], Exit);
  }

  lemma QueueLawRead(q: Mux, e: Event)
    requires LogShape(q) && QueueLaw(q) && q.reader.Ready? && QueueShape(q)
    requires Agree(q.log, MuxRead(q, e).log, |q.log.lines|)
    ensures QueueLaw(MuxRead(q, e))
  {
    hide Deliver, Route, Agree, LogShape, QueueShape, LinesIn;
    var q', n := MuxRead(q, e), |q.log.lines|;
    forall id ensures Deliver(q'.log, n, id) <==> Route(q.inflight, e) == Some(id) {
      RouteDelivers(q, e, id);
    }
    forall id | id in q.queues ensures LinesIn(q.queues[id]) == Select(q'.log, id, Dispatched(q')) {
      SelectAgrees(q.log, q'.log, id, n, n);
    }
  }

  lemma QueueLawPut(q: Mux)
    requires QueueLaw(q) && QueueShape(q) && q.reader.Holding?
    ensures QueueLaw(MuxPut(q))
  {
    hide Deliver, LinesIn;
    var q', n := MuxPut(q), |q.log.lines| - 1;
    forall id | id in q'.queues ensures LinesIn(q'.queues[id]) == Select(q.log, id, n + 1) {
      LinesInPut(q.queues[id], Line(n));
      assert Deliver(q.log, n, id) <==> id == q.reader.to;
    }
  }

  lemma QueueLawQuiet(s: State, step: Step)
    requires Enabled(s, step) && QueueLaw(s.mux) && !step.ReadLine? && !step.PutEvent?
    requires LogShape(s.mux) && QueueShape(s.mux) && PhaseShape(s.phases, s.mux)
    requires Agree(s.mux.log, NextMux(s, step).log, |s.mux.log.lines|)
    ensures QueueLaw(NextMux(s, step))
  {
    hide Deliver, Agree, OnlyFor, LinesIn, Select, LogShape, PhaseShape;
    var q, q' := s.mux, NextMux(s, step);
    assert q'.log.lines == q.log.lines && (q'.reader == q.reader || step.Eof?);
    if q.reader.Holding? && q.log.lines != [] {
      OnlyForAgrees(q.log, q'.log, |q.log.lines| - 1, q.reader.to);
    }
    forall id | id in q'.queues ensures LinesIn(q'.queues[id]) == Select(q'.log, id, Dispatched(q')) {
      if id in q.queues {
        LinesKept(s, step, id);
        SelectAgrees(q.log, q'.log, id, |q.log.lines|, Dispatched(q));
      } else {
        SelectFresh(q'.log, id, Dispatched(q'));
        NothingIn();
      }
    }
  }

  lemma NothingIn()
    ensures LinesIn([]) == []
  {}

  lemma QueueLawStep(s: State, step: Step)
    requires Enabled(s, step) && QueueLaw(s.mux)
    requires LogShape(s.mux) && QueueShape(s.mux) && PhaseShape(s.phases, s.mux)
    ensures QueueLaw(NextMux(s, step))
  {
    hide QueueLaw, QueueShape, LogShape, PhaseShape, Agree, MuxRead, MuxPut;
    LogAgrees(s, step);
    if step.ReadLine? {
      QueueLawRead(s.mux, step.event);
    } else if step.PutEvent? {
      QueueLawPut(s.mux);
    } else {
      QueueLawQuiet(s, step);
    }
  }

  // ---- exit sentinels ----

  function Exits(items: seq<Item>): nat {
    multiset(items)[Exit]
  }

  /** What the calls of close() still have to wake: each queue once, already out of _inflight and not yet woken. */
  ghost predicate LeftShape(q: Mux) {
    && (forall call, id | Listed(q.closers, call, id) :: Unwoken(q, id))
    && OneList(q.closers)
  }

  ghost predicate Unwoken(q: Mux, id: Id) {
    id in q.log.removed && id in q.queues && Exits(q.queues[id]) == 0
  }

  ghost predicate OneList(closers: map<nat, Closer>) {
    && (forall c, d, id | Listed(closers, c, id) && Listed(closers, d, id) :: c == d)
    && (forall call :: NoRepeat(Left(closers, call)))
  }

  predicate NoRepeat(left: seq<Id>) {
    forall i, j | 0 <= i < j < |left| :: left[i] != left[j]
  }

  /** A queue gets a sentinel at most once, only after leaving _inflight, and only for a dead or closed worker. */
  ghost predicate ExitLaw(q: Mux, closed: bool) {
    && (forall id | id in q.queues :: Exits(q.queues[id]) <= 1)
    && (forall id | id in q.queues && Exits(q.queues[id]) > 0 :: id in q.log.removed && (closed || q.reader.Stopped?))
    && (q.closers != map[] ==> closed)
  }

  lemma ExitsPut(items: seq<Item>, item: Item)
    ensures Exits(items + [item]) == Exits(items) + (if item.Exit? then 1 else 0)
  {}

  lemma ExitLawPut(q: Mux, closed: bool)
    requires ExitLaw(q, closed) && QueueShape(q) && q.reader.Holding?
    ensures ExitLaw(MuxPut(q), closed)
  {
    hide Exits, Listed;
    ExitsPut(q.queues[q.reader.to], Line(|q.log.lines| - 1));
  }

  lemma ExitLawEof(q: Mux, closed: bool)
    requires ExitLaw(q, closed) && QueueShape(q) && LogShape(q)
    ensures ExitLaw(MuxEof(q), closed)
  {
    hide Exits, Listed;
    forall id | id in q.inflight { ExitsPut(q.queues[id], Exit); }
  }

  lemma ExitLawPutExit(q: Mux, closed: bool, call: nat)
    requires ExitLaw(q, closed) && LeftShape(q) && Left(q.closers, call) != []
    ensures ExitLaw(MuxPutExit(q, call), closed)
  {
    hide Exits, OneList;
    var id := Left(q.closers, call)[0];
    assert Listed(q.closers, call, id);
    assert Unwoken(q, id);
    ExitsPut(q.queues[id], Exit);
  }

  lemma ExitLawRest(s: State, step: Step)
    requires Enabled(s, step) && ExitLaw(s.mux, s.closed) && (step.Register? ==> step.id !in s.mux.queues)
    requires !step.PutEvent? && !step.Eof? && !step.PutExit?
    ensures ExitLaw(NextMux(s, step), s.closed || step.SetFlag?)
  {
    hide Exits, Route;
    NoExits();
  }

  lemma ExitLawStep(s: State, step: Step)
    requires Enabled(s, step) && ExitLaw(s.mux, s.closed) && QueueShape(s.mux) && LogShape(s.mux) && LeftShape(s.mux)
    requires PhaseShape(s.phases, s.mux)
    ensures ExitLaw(NextMux(s, step), s.closed || step.SetFlag?)
  {
    hide ExitLaw, QueueShape, LogShape, LeftShape, MuxPut, MuxEof, MuxPutExit, MuxSweep, Lists;
    match step
    case PutEvent => ExitLawPut(s.mux, s.closed);
    case Eof => ExitLawEof(s.mux, s.closed);
    case PutExit(call) => ExitLawPutExit(s.mux, s.closed, call);
    case _ => ExitLawRest(s, step);
  }

  /** A queue out of _inflight and not woken stays so until its sentinel is put. */
  lemma UnwokenStep(s: State, step: Step, id: Id)
    requires Enabled(s, step) && QueueShape(s.mux) && LogShape(s.mux) && PhaseShape(s.phases, s.mux)
             && Unwoken(s.mux, id)
    requires step.PutExit? ==> id != Left(s.mux.closers, step.call)[0]
    ensures Unwoken(NextMux(s, step), id)
  {
    hide Exits, Route, Listed;
    ExitsPut(s.mux.queues[id], Line(if s.mux.log.lines == [] then 0 else |s.mux.log.lines| - 1));
  }

  lemma SweptIsUnwoken(q: Mux, closed: bool, call: nat, order: seq<Id>, id: Id)
    requires ExitLaw(q, closed) && QueueShape(q) && LogShape(q) && id in q.inflight
    ensures Unwoken(MuxSweep(q, call, order), id)
  {
    hide Exits, Listed;
  }

  lemma OneListStep(s: State, step: Step)
    requires Enabled(s, step) && LeftShape(s.mux) && LogShape(s.mux)
    ensures OneList(NextMux(s, step).closers)
  {
    hide Exits;
    var q, q' := s.mux, NextMux(s, step);
    forall c, d, id | Listed(q'.closers, c, id) && Listed(q'.closers, d, id) ensures c == d {
      OneListOf(s, step, c, d, id);
    }
    forall c ensures NoRepeat(Left(q'.closers, c)) { NoRepeatOf(s, step, c); }
  }

  lemma OneListOf(s: State, step: Step, c: nat, d: nat, id: Id)
    requires Enabled(s, step) && LeftShape(s.mux) && LogShape(s.mux)
    requires Listed(NextMux(s, step).closers, c, id) && Listed(NextMux(s, step).closers, d, id)
    ensures c == d
  {
    hide Listed, NextMux, Exits, Enabled;
    ListedStep(s, step, c, id);
    ListedStep(s, step, d, id);
    assert Listed(s.mux.closers, c, id) || Listed(s.mux.closers, d, id) ==> Unwoken(s.mux, id);
  }

  lemma NoRepeatOf(s: State, step: Step, c: nat)
    requires Enabled(s, step) && OneList(s.mux.closers)
    ensures NoRepeat(Left(NextMux(s, step).closers, c))
  {
    hide Route, PutOne, PutAll, Listed;
    assert NoRepeat(Left(s.mux.closers, c));
  }

  lemma LeftShapeStep(s: State, step: Step)
    requires Enabled(s, step) && LeftShape(s.mux) && QueueShape(s.mux) && LogShape(s.mux) && PhaseShape(s.phases, s.mux)
    requires ExitLaw(s.mux, s.closed)
    ensures LeftShape(NextMux(s, step))
  {
    OneListStep(s, step);
    forall call, id | Listed(NextMux(s, step).closers, call, id) ensures Unwoken(NextMux(s, step), id) {
      UnwokenListed(s, step, call, id);
    }
    hide Listed, Unwoken, OneList, NextMux, QueueShape, LogShape, PhaseShape, Enabled;
  }

  lemma UnwokenListed(s: State, step: Step, call: nat, id: Id)
    requires Enabled(s, step) && LeftShape(s.mux) && QueueShape(s.mux) && LogShape(s.mux) && PhaseShape(s.phases, s.mux)
    requires ExitLaw(s.mux, s.closed) && Listed(NextMux(s, step).closers, call, id)
    ensures Unwoken(NextMux(s, step), id)
  {
    hide Unwoken, QueueShape, LogShape, PhaseShape, ExitLaw, Exits, MuxSweep;
    ListedStep(s, step, call, id);
    if step.Sweep? && step.call == call && id in s.mux.inflight {
      SweptIsUnwoken(s.mux, s.closed, call, step.order, id);
    } else {
      assert Listed(s.mux.closers, call, id);
      if step.PutExit? { NotFirst(s.mux.closers, step.call, call, id, NextMux(s, step).closers); }
      UnwokenStep(s, step, id);
    }
  }

  /** What is still listed after a sentinel was put is not the queue it was put to. */
  lemma NotFirst(closers: map<nat, Closer>, put: nat, call: nat, id: Id, after: map<nat, Closer>)
    requires OneList(closers) && Left(closers, put) != [] && after == closers[put := Putting(Left(closers, put)[1..])]
    requires Listed(closers, call, id) && Listed(after, call, id)
    ensures id != Left(closers, put)[0]
  {
    var left := Left(closers, put);
    assert Listed(closers, put, left[0]);
    assert NoRepeat(left);
    if call == put { assert id in left[1..]; }
  }

  lemma NoExits()
    ensures Exits([]) == 0
  {}

  // ---- whole runs ----

  ghost predicate Inv(s: State) {
    && PermitsBalance(s) && QueueShape(s.mux) && LogShape(s.mux) && PhaseShape(s.phases, s.mux)
    && NoneForgotten(s) && QueueLaw(s.mux) && ExitLaw(s.mux, s.closed) && LeftShape(s.mux)
  }

  lemma InvInit(concurrency: int)
    ensures Inv(Init(concurrency))
  {}

  lemma InvStep(s: State, step: Step)
    requires Inv(s) && Enabled(s, step)
    ensures Inv(Apply(s, step))
  {
    hide PermitsBalance, QueueShape, LogShape, PhaseShape, NoneForgotten, QueueLaw, ExitLaw, LeftShape, NextMux,
         NextStdin, NextPhase, Enabled;
    PermitsStep(s, step);
    QueueShapeStep(s, step);
    LogShapeStep(s, step);
    PhaseShapeStep(s, step);
    NoneForgottenStep(s, step);
    QueueLawStep(s, step);
    ExitLawStep(s, step);
    LeftShapeStep(s, step);
  }

  lemma {:induction false} InvRun(concurrency: int, steps: seq<Step>, states: seq<State>, i: nat)
    requires Run(concurrency, steps, states) && i < |states|
    ensures Inv(states[i]) && states[i].concurrency == Init(concurrency).concurrency
  {
    hide Inv, Enabled, NextMux, NextStdin, NextPhase;
    if i == 0 {
      InvInit(concurrency);
    } else {
      InvRun(concurrency, steps, states, i - 1);
      InvStep(states[i - 1], steps[i - 1]);
    }
  }

  /** In every reachable state permits balance and at most `concurrency` queues are registered. */
  lemma NeverOversubscribed(concurrency: int, steps: seq<Step>, states: seq<State>, i: nat)
    requires Run(concurrency, steps, states) && i < |states|
    ensures states[i].permits + |Holders(states[i].phases)| == if concurrency > 1 then concurrency else 1
    ensures states[i].permits >= 0
    ensures |states[i].mux.inflight| <= if concurrency > 1 then concurrency else 1
  {
    hide QueueLaw, NoneForgotten, LogShape, Enabled, Run;
    InvRun(concurrency, steps, states, i);
    SubsetSize(states[i].mux.inflight, Holders(states[i].phases));
  }

  lemma {:induction false} SubsetSize(a: set<Id>, b: set<Id>)
    requires a <= b
    ensures |a| <= |b|
  {
    if a != {} {
      var x :| x in a;
      SubsetSize(a - {x}, b - {x});
    }
  }

  /**
   In every state of every run, a request that wrote its line and still waits has an unread exit sentinel
   exactly if it is neither in _inflight nor on the list of a call of close().
   */
  lemma WokenIff(concurrency: int, steps: seq<Step>, states: seq<State>, i: nat, id: Id)
    requires Run(concurrency, steps, states) && i < |states| && At(states[i], id, Waiting)
    ensures var q := states[i].mux; ExitUnread(q, id) <==> id !in q.inflight && !OnList(q.closers, id)
  {
    hide QueueLaw, Enabled, Run, QueueShape, PhaseShape, PermitsBalance, ExitUnread, Swept;
    InvRun(concurrency, steps, states, i);
    var q := states[i].mux;
    assert Covered(q, id);
    if OnList(q.closers, id) { ListedHasNoExit(q, id); }
    if id in q.inflight { RegisteredHasNoExit(q, states[i].closed, id); }
  }

  lemma RegisteredHasNoExit(q: Mux, closed: bool, id: Id)
    requires ExitLaw(q, closed) && LogShape(q) && id in q.inflight
    ensures !ExitUnread(q, id)
  {
    hide Exits;
    if id in q.queues && id in q.consumed { NoneUnread(q.queues[id], q.consumed[id]); }
  }

  /**
   When some call of close() has returned, in any interleaving with others, such a request has an unread
   exit sentinel exactly if no other call has it still on its list.
   */
  lemma WokenUnlessListed(concurrency: int, steps: seq<Step>, states: seq<State>, i: nat, call: nat, id: Id)
    requires Run(concurrency, steps, states) && i < |states| && At(states[i], id, Waiting)
    requires call in states[i].mux.closers && states[i].mux.closers[call].Returned?
    ensures ExitUnread(states[i].mux, id) <==> !OnList(states[i].mux.closers, id)
    ensures !Listed(states[i].mux.closers, call, id)
  {
    WokenIff(concurrency, steps, states, i, id);
    hide QueueLaw, LogShape, Enabled, Run, QueueShape, PhaseShape, PermitsBalance, ExitUnread, ExitLaw, LeftShape;
    InvRun(concurrency, steps, states, i);
    assert Swept(states[i].mux);
  }

  lemma ListedHasNoExit(q: Mux, id: Id)
    requires LeftShape(q) && OnList(q.closers, id)
    ensures !ExitUnread(q, id)
  {
    var call :| Listed(q.closers, call, id);
    assert Unwoken(q, id);
    NoneUnread(q.queues[id], if id in q.consumed then q.consumed[id] else 0);
  }

  lemma NoneUnread(items: seq<Item>, k: nat)
    requires Exits(items) == 0
    ensures k <= |items| ==> Exit !in items[k..]
  {
    assert Exit !in items;
  }

  /** Once every call of close() that began has returned, whoever wrote a line and still waits is woken. */
  lemma CloseWakesEveryone(concurrency: int, steps: seq<Step>, states: seq<State>, i: nat, id: Id)
    requires Run(concurrency, steps, states) && i < |states| && At(states[i], id, Waiting)
    requires var closers := states[i].mux.closers; closers != map[] && forall c | c in closers :: closers[c].Returned?
    ensures ExitUnread(states[i].mux, id)
  {
    hide Run, ExitUnread;
    var closers := states[i].mux.closers;
    var call :| call in closers;
    WokenUnlessListed(concurrency, steps, states, i, call, id);
  }

  // ---- two calls of close() at once ----

  lemma RunOn(concurrency: int, steps: seq<Step>, states: seq<State>, step: Step, next: State)
    requires Run(concurrency, steps, states) && Enabled(states[|steps|], step) && next == Apply(states[|steps|], step)
    ensures Run(concurrency, steps + [step], states + [next])
  {
    hide Enabled, Apply, Init;
  }

  /** One request "a" over one permit: nothing read from the worker yet. */
  function Lone(
    phase: Phase, closed: bool, written: bool, inflight: set<Id>, queued: bool, closers: map<nat, Closer>): State
  {
    State(1, 0, map["a" := phase], closed, if written then [RequestLine("a")] else [],
          Mux(inflight, if queued then map["a" := []] else map[], if queued then map["a" := 0] else map[], Ready,
              closers,
              Log([], if queued then map["a" := 0] else map[],
                  if queued && inflight == {} then map["a" := 0] else map[])))
  }

  lemma LoneRequest()
    ensures Enabled(Init(1), Acquire("a"))
            && Apply(Init(1), Acquire("a")) == Lone(Acquired, false, false, {}, false, map[])
    ensures var s := Lone(Acquired, false, false, {}, false, map[]);
            Enabled(s, CheckFlag("a")) && Apply(s, CheckFlag("a")) == Lone(Checked, false, false, {}, false, map[])
    ensures var s := Lone(Checked, false, false, {}, false, map[]);
            Enabled(s, Register("a")) && Apply(s, Register("a")) == Lone(Registered, false, false, {"a"}, true, map[])
    ensures var s := Lone(Registered, false, false, {"a"}, true, map[]);
            && Enabled(s, WriteLine("a", false))
            && Apply(s, WriteLine("a", false)) == Lone(Waiting, false, true, {"a"}, true, map[])
  {}

  lemma CloseSteps(s: State, call: nat, order: seq<Id>)
    ensures call !in s.mux.closers ==>
              Enabled(s, SetFlag(call)) && Apply(s, SetFlag(call)) ==
                s.(closed := true, mux := s.mux.(closers := s.mux.closers[call := Flagged]))
    ensures call in s.mux.closers && s.mux.closers[call].Flagged? && Lists(order, s.mux.inflight) ==>
              Enabled(s, Sweep(call, order)) && Apply(s, Sweep(call, order)) == s.(mux := MuxSweep(s.mux, call, order))
    ensures call in s.mux.closers && s.mux.closers[call] == Putting([]) ==>
              Enabled(s, ReturnFromClose(call))
                && Apply(s, ReturnFromClose(call)) == s.(mux := s.mux.(closers := s.mux.closers[call := Returned]))
  {
    hide MuxSweep, Lists;
  }

  lemma LoneFirstCall()
    ensures var s := Lone(Waiting, false, true, {"a"}, true, map[]);
            Enabled(s, SetFlag(0)) && Apply(s, SetFlag(0)) == Lone(Waiting, true, true, {"a"}, true, map[0 := Flagged])
    ensures var s := Lone(Waiting, true, true, {"a"}, true, map[0 := Flagged]);
            && Enabled(s, Sweep(0, ["a"]))
            && Apply(s, Sweep(0, ["a"])) == Lone(Waiting, true, true, {}, true, map[0 := Putting(["a"])])
  {
    hide Enabled, Apply;
    CloseSteps(Lone(Waiting, false, true, {"a"}, true, map[]), 0, []);
    CloseSteps(Lone(Waiting, true, true, {"a"}, true, map[0 := Flagged]), 0, ["a"]);
  }

  lemma LoneSecondCall()
    ensures var s := Lone(Waiting, true, true, {}, true, map[0 := Putting(["a"])]);
            && Enabled(s, SetFlag(1))
            && Apply(s, SetFlag(1)) == Lone(Waiting, true, true, {}, true, map[0 := Putting(["a"]), 1 := Flagged])
    ensures var s := Lone(Waiting, true, true, {}, true, map[0 := Putting(["a"]), 1 := Flagged]);
            && Enabled(s, Sweep(1, []))
            && Apply(s, Sweep(1, [])) == Lone(Waiting, true, true, {}, true, map[0 := Putting(["a"]), 1 := Putting([])])
    ensures var s := Lone(Waiting, true, true, {}, true, map[0 := Putting(["a"]), 1 := Putting([])]);
            && Enabled(s, ReturnFromClose(1))
            && Apply(s, ReturnFromClose(1)) ==
               Lone(Waiting, true, true, {}, true, map[0 := Putting(["a"]), 1 := Returned])
  {
    hide Enabled, Apply;
    CloseSteps(Lone(Waiting, true, true, {}, true, map[0 := Putting(["a"])]), 1, []);
    CloseSteps(Lone(Waiting, true, true, {}, true, map[0 := Putting(["a"]), 1 := Flagged]), 1, []);
    CloseSteps(Lone(Waiting, true, true, {}, true, map[0 := Putting(["a"]), 1 := Putting([])]), 1, []);
  }

  /** A second call of close() can return while a request that waits has no sentinel: the first call still holds it. */
  lemma SecondCloseReturnsEarly() returns (steps: seq<Step>, states: seq<State>)
    ensures Run(1, steps, states)
    ensures var s := states[|steps|];
            && 1 in s.mux.closers && s.mux.closers[1].Returned? && At(s, "a", Waiting)
            && !ExitUnread(s.mux, "a") && Listed(s.mux.closers, 0, "a")
  {
    var s4 := Lone(Waiting, false, true, {"a"}, true, map[]);
    var s6 := Lone(Waiting, true, true, {}, true, map[0 := Putting(["a"])]);
    steps, states := FirstFour();
    LoneFirstCall();
    LoneSecondCall();
    LoneLast();
    hide Enabled, Apply, Init, Run, Lone, ExitUnread, Listed;
    var s5 := Lone(Waiting, true, true, {"a"}, true, map[0 := Flagged]);
    RunOn(1, steps, states, SetFlag(0), s5);
    steps, states := steps + [SetFlag(0)], states + [s5];
    RunOn(1, steps, states, Sweep(0, ["a"]), s6);
    steps, states := steps + [Sweep(0, ["a"])], states + [s6];
    var s7 := Lone(Waiting, true, true, {}, true, map[0 := Putting(["a"]), 1 := Flagged]);
    RunOn(1, steps, states, SetFlag(1), s7);
    steps, states := steps + [SetFlag(1)], states + [s7];
    var s8 := Lone(Waiting, true, true, {}, true, map[0 := Putting(["a"]), 1 := Putting([])]);
    RunOn(1, steps, states, Sweep(1, []), s8);
    steps, states := steps + [Sweep(1, [])], states + [s8];
    var s9 := Lone(Waiting, true, true, {}, true, map[0 := Putting(["a"]), 1 := Returned]);
    RunOn(1, steps, states, ReturnFromClose(1), s9);
    steps, states := steps + [ReturnFromClose(1)], states + [s9];
  }

  lemma FirstFour() returns (steps: seq<Step>, states: seq<State>)
    ensures |steps| == 4 && Run(1, steps, states) && states[4] == Lone(Waiting, false, true, {"a"}, true, map[])
  {
    steps, states := [], [Init(1)];
    assert Run(1, steps, states);
    LoneRequest();
    hide Enabled, Apply, Init, Run, Lone;
    var s1 := Lone(Acquired, false, false, {}, false, map[]);
    RunOn(1, steps, states, Acquire("a"), s1);
    steps, states := steps + [Acquire("a")], states + [s1];
    var s2 := Lone(Checked, false, false, {}, false, map[]);
    RunOn(1, steps, states, CheckFlag("a"), s2);
    steps, states := steps + [CheckFlag("a")], states + [s2];
    var s3 := Lone(Registered, false, false, {"a"}, true, map[]);
    RunOn(1, steps, states, Register("a"), s3);
    steps, states := steps + [Register("a")], states + [s3];
    var s4 := Lone(Waiting, false, true, {"a"}, true, map[]);
    RunOn(1, steps, states, WriteLine("a", false), s4);
    steps, states := steps + [WriteLine("a", false)], states + [s4];
  }

  lemma LoneLast()
    ensures var s := Lone(Waiting, true, true, {}, true, map[0 := Putting(["a"]), 1 := Returned]);
            && 1 in s.mux.closers && s.mux.closers[1].Returned? && At(s, "a", Waiting)
            && !ExitUnread(s.mux, "a") && Listed(s.mux.closers, 0, "a")
  {}

  // ---- a request after end of output ----

  /** The same state with the reader gone. */
  function Late(s: State): State {
    s.(mux := s.mux.(reader := Stopped))
  }

  /** A request's first steps do not look at the reader. */
  lemma LateStep(s: State, step: Step)
    requires Enabled(s, step) && (step.Acquire? || step.CheckFlag? || step.Register? || step.WriteLine?)
    ensures Enabled(Late(s), step) && Apply(Late(s), step) == Late(Apply(s, step))
  {}

  lemma LateRunOn(steps: seq<Step>, states: seq<State>, step: Step, s: State, next: State)
    requires Run(1, steps, states) && states[|steps|] == Late(s) && Enabled(s, step) && next == Apply(s, step)
    requires step.Acquire? || step.CheckFlag? || step.Register? || step.WriteLine?
    ensures Run(1, steps + [step], states + [Late(next)])
  {
    hide Enabled, Apply, Run, Late;
    LateStep(s, step);
    RunOn(1, steps, states, step, Late(next));
  }

  lemma EofFirst()
    ensures Run(1, [Eof], [Init(1), Late(Init(1))])
  {
    var q, q' := Init(1).mux, NextMux(Init(1), Eof);
    assert q'.queues == map[] && q'.log == q.log;
  }

  /**
   End of output wakes only who is registered by then. A request that starts after it, with close() not
   called, registers and writes its line, and then waits with nobody left to wake it.
   */
  lemma LateRequestIsNotWoken() returns (steps: seq<Step>, states: seq<State>)
    ensures Run(1, steps, states)
    ensures var s := states[|steps|];
            && s.mux.reader.Stopped? && s.mux.closers == map[] && !s.closed && At(s, "a", Waiting)
            && s.stdin == [RequestLine("a")] && "a" in s.mux.inflight && !ExitUnread(s.mux, "a")
  {
    EofFirst();
    LoneRequest();
    LateLast();
    steps, states := [Eof], [Init(1), Late(Init(1))];
    hide Enabled, Apply, Init, Run, Lone, Late, ExitUnread;
    var s1, s2 := Lone(Acquired, false, false, {}, false, map[]), Lone(Checked, false, false, {}, false, map[]);
    LateRunOn(steps, states, Acquire("a"), Init(1), s1);
    steps, states := steps + [Acquire("a")], states + [Late(s1)];
    LateRunOn(steps, states, CheckFlag("a"), s1, s2);
    steps, states := steps + [CheckFlag("a")], states + [Late(s2)];
    var s3 := Lone(Registered, false, false, {"a"}, true, map[]);
    LateRunOn(steps, states, Register("a"), s2, s3);
    steps, states := steps + [Register("a")], states + [Late(s3)];
    var s4 := Lone(Waiting, false, true, {"a"}, true, map[]);
    LateRunOn(steps, states, WriteLine("a", false), s3, s4);
    steps, states := steps + [WriteLine("a", false)], states + [Late(s4)];
  }

  lemma LateLast()
    ensures var s := Late(Lone(Waiting, false, true, {"a"}, true, map[]));
            && s.mux.reader.Stopped? && s.mux.closers == map[] && !s.closed && At(s, "a", Waiting)
            && s.stdin == [RequestLine("a")] && "a" in s.mux.inflight && !ExitUnread(s.mux, "a")
  {}

  /** Once the closed flag is set nothing more reaches the worker's stdin. */
  lemma {:induction false} NothingWrittenAfterClose(
    concurrency: int, steps: seq<Step>, states: seq<State>, i: nat, j: nat)
    requires Run(concurrency, steps, states) && i <= j < |states| && states[i].closed
    ensures states[j].closed && states[j].stdin == states[i].stdin
  {
    hide NextMux, NextPhase, Enabled, Init;
    if i < j { NothingWrittenAfterClose(concurrency, steps, states, i, j - 1); }
  }

  /** Each queue has received, in order, exactly the lines it is owed, among those the reader has settled. */
  lemma QueuesGetTheirLines(concurrency: int, steps: seq<Step>, states: seq<State>, i: nat, id: Id)
    requires Run(concurrency, steps, states) && i < |states| && id in states[i].mux.queues
    ensures LinesIn(states[i].mux.queues[id]) == Select(states[i].mux.log, id, Dispatched(states[i].mux))
  {
    hide LogShape, Enabled, Run, QueueShape, PhaseShape, PermitsBalance, NoneForgotten, Select, LinesIn;
    InvRun(concurrency, steps, states, i);
  }

  /** A queue holds at most one exit sentinel, and none while the worker is alive and WorkerIO open. */
  lemma ExitsOnlyForTheDead(concurrency: int, steps: seq<Step>, states: seq<State>, i: nat, id: Id)
    requires Run(concurrency, steps, states) && i < |states| && id in states[i].mux.queues
    ensures Exits(states[i].mux.queues[id]) <= 1
    ensures Exit in states[i].mux.queues[id] ==> states[i].closed || states[i].mux.reader.Stopped?
    ensures Exit in states[i].mux.queues[id] ==> id !in states[i].mux.inflight
  {
    hide Enabled, Run, QueueShape, PhaseShape, PermitsBalance, NoneForgotten, QueueLaw, LeftShape;
    InvRun(concurrency, steps, states, i);
  }

  /** The log tells the truth: a line's window is exactly who was in _inflight when it was read. */
  lemma {:induction false} WindowIsWhoWasInFlight(
    concurrency: int, steps: seq<Step>, states: seq<State>, i: nat, j: nat, id: Id)
    requires Run(concurrency, steps, states) && i < j < |states| && steps[i].ReadLine?
    ensures |states[i].mux.log.lines| < |states[j].mux.log.lines|
    ensures states[j].mux.log.lines[|states[i].mux.log.lines|] == steps[i].event
    ensures Window(states[j].mux.log, |states[i].mux.log.lines|, id) <==> id in states[i].mux.inflight
  {
    hide Inv, Window, Init, Enabled, Apply;
    InvRun(concurrency, steps, states, j - 1);
    assert states[j] == Apply(states[j - 1], steps[j - 1]);
    if i == j - 1 {
      WindowAtRead(states[i], steps[i].event, id);
    } else {
      WindowIsWhoWasInFlight(concurrency, steps, states, i, j - 1, id);
      WindowKept(states[j - 1], steps[j - 1], |states[i].mux.log.lines|, id);
    }
  }

  lemma WindowKept(s: State, step: Step, n: nat, id: Id)
    requires Inv(s) && Enabled(s, step) && n < |s.mux.log.lines|
    ensures n < |Apply(s, step).mux.log.lines| && Apply(s, step).mux.log.lines[n] == s.mux.log.lines[n]
    ensures Window(Apply(s, step).mux.log, n, id) == Window(s.mux.log, n, id)
  {
    hide PermitsBalance, QueueShape, LogShape, PhaseShape, NoneForgotten, QueueLaw, ExitLaw, LeftShape, NextMux,
         NextStdin, NextPhase, Enabled;
    LogAgrees(s, step);
    var log' := NextMux(s, step).log;
    assert log'.lines[n] == log'.lines[..|s.mux.log.lines|][n];
  }

  lemma WindowAtRead(s: State, e: Event, id: Id)
    requires Inv(s) && Enabled(s, ReadLine(e))
    ensures Apply(s, ReadLine(e)).mux.log.lines == s.mux.log.lines + [e]
    ensures Window(Apply(s, ReadLine(e)).mux.log, |s.mux.log.lines|, id) <==> id in s.mux.inflight
  {
    hide PermitsBalance, QueueShape, PhaseShape, NoneForgotten, QueueLaw, ExitLaw, LeftShape, NextStdin, Route;
  }
}

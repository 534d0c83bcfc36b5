/**
 Cancel routing in the SparkTTS worker: the stdin reader thread, one worker thread per slot, and the
 map from request id to slot through which a cancel finds the running request's stream channel.
 Each critical section is one atomic step. A request is known by its serial number; ids come from
 the client and may be empty or repeated unless stated otherwise. A channel is named by its request.
 */
module SparkCancel {
  import opened Options

  datatype Kind = Done | Cancelled | Error

  datatype Terminal = Terminal(serial: nat, kind: Kind)

  /** Where a slot's worker thread is in its request. */
  datatype Phase =
    | Idle
    | Queued(r: nat)        // accepted, not yet picked up
    | Opened(r: nat)        // activeChannel set
    | Running(r: nat)       // registered, decoding
    | Flushing(r: nat)      // decode joined, not cancelled: vocoding the rest
    | Ended(r: nat)         // terminal event emitted
    | Unregistered(r: nat)  // id erased from the cancel map
    | Cleared(r: nat)       // activeChannel reset, slot not yet free

  datatype Slot = Slot(phase: Phase, active: Option<nat>)

  datatype Lookup = Lookup(id: string, channel: Option<nat>)

  datatype State = State(
    slots: seq<Slot>,
    ids: seq<string>,               // id of each request seen so far, by serial
    routes: map<string, nat>,       // gCancelMap
    cancelled: set<nat>,            // channels that have been cancelled
    failed: set<nat>,               // requests with a non-empty decodeErr
    silent: set<nat>,               // history: decode threw with an empty message, so decodeErr stays empty
    pending: Option<Lookup>,        // the reader between tripCancel's lookup and chan->cancel()
    trips: seq<(string, nat)>,      // history: which cancel line stopped which channel
    events: seq<Terminal>)

  datatype Step =
    | Accept(id: string, slot: nat) | Reject(id: string) | FindChannel(id: string) | Trip
    | Open(slot: nat) | Register(slot: nat) | DecodeFails(slot: nat, silent: bool) | Join(slot: nat)
    | Complete(slot: nat) | Throw(slot: nat) | Unregister(slot: nat) | Clear(slot: nat) | Free(slot: nat)

  function Init(n: nat): State {
    State(seq(n, i => Slot(Idle, None)), [], map[], {}, {}, {}, None, [], [])
  }

  predicate In(s: State, i: nat, p: Phase) {
    i < |s.slots| && s.slots[i].phase == p
  }

  predicate Enabled(s: State, step: Step) {
    match step
    case Accept(id, i) => s.pending.None? && In(s, i, Idle)
    case Reject(id) => s.pending.None? && forall i: nat | i < |s.slots| :: !s.slots[i].phase.Idle?
    case FindChannel(id) => s.pending.None?
    case Trip => s.pending.Some?
    case Open(i) => i < |s.slots| && s.slots[i].phase.Queued?
    case Register(i) => i < |s.slots| && s.slots[i].phase.Opened?
    case DecodeFails(i, _) => i < |s.slots| && s.slots[i].phase.Running?
    case Join(i) => i < |s.slots| && s.slots[i].phase.Running?
    case Complete(i) => i < |s.slots| && s.slots[i].phase.Flushing?
    case Throw(i) => i < |s.slots| && (s.slots[i].phase.Running? || s.slots[i].phase.Flushing?)
    case Unregister(i) => i < |s.slots| && s.slots[i].phase.Ended?
    case Clear(i) => i < |s.slots| && s.slots[i].phase.Unregistered?
    case Free(i) => i < |s.slots| && s.slots[i].phase.Cleared?
  }

  function IdOf(s: State, r: nat): string {
    if r < |s.ids| then s.ids[r] else ""
  }

  predicate MovesSlot(step: Step) {
    !(step.Reject? || step.FindChannel? || step.Trip? || step.DecodeFails?)
  }

  /** How the decode's end is read: its own failure first, then a cancel, else on to the flush. */
  function JoinPhase(s: State, r: nat): Phase {
    if r in s.failed || r in s.cancelled then Ended(r) else Flushing(r)
  }

  /** The stepping slot afterwards. */
  function NextSlot(s: State, step: Step): Slot
    requires Enabled(s, step) && MovesSlot(step)
  {
    var slot := s.slots[step.slot];
    match step
    case Accept(_, _) => slot.(phase := Queued(|s.ids|))
    case Open(_) => Slot(Opened(slot.phase.r), Some(slot.phase.r))
    case Register(_) => slot.(phase := Running(slot.phase.r))
    case Join(_) => slot.(phase := JoinPhase(s, slot.phase.r))
    case Complete(_) => slot.(phase := Ended(slot.phase.r))
    case Throw(_) => slot.(phase := Ended(slot.phase.r))
    case Unregister(_) => slot.(phase := Unregistered(slot.phase.r))
    case Clear(_) => Slot(Cleared(slot.phase.r), None)
    case Free(_) => slot.(phase := Idle)
  }

  /** gCancelMap: written at registration, erased before the channel is reset; empty ids are never in it. */
  function NextRoutes(s: State, step: Step): map<string, nat>
    requires Enabled(s, step)
  {
    if step.Register? || step.Unregister? then
      var id := IdOf(s, s.slots[step.slot].phase.r);
      if id == "" then s.routes else if step.Register? then s.routes[id := step.slot] else s.routes - {id}
    else s.routes
  }

  /** tripCancel's lookup, under both locks. */
  function ChannelFor(s: State, id: string): Option<nat> {
    if id in s.routes && s.routes[id] < |s.slots| then s.slots[s.routes[id]].active else None
  }

  function NextEvents(s: State, step: Step): seq<Terminal>
    requires Enabled(s, step)
  {
    match step
    case Reject(_) => s.events + [Terminal(|s.ids|, Error)]
    case Join(i) =>
      var r := s.slots[i].phase.r;
      if r in s.failed then s.events + [Terminal(r, Error)]
      else if r in s.cancelled then s.events + [Terminal(r, Cancelled)]
      else s.events
    case Complete(i) => s.events + [Terminal(s.slots[i].phase.r, Done)]
    case Throw(i) => s.events + [Terminal(s.slots[i].phase.r, Error)]
    case _ => s.events
  }

  /** Channels cancelled by this step: tripped, or given up by a failed decode or a thrown request. */
  function NewlyCancelled(s: State, step: Step): set<nat>
    requires Enabled(s, step)
  {
    match step
    case Trip => if s.pending.value.channel.Some? then {s.pending.value.channel.value} else {}
    case DecodeFails(i, _) => {s.slots[i].phase.r}
    case Throw(i) => {s.slots[i].phase.r}
    case _ => {}
  }

  function Apply(s: State, step: Step): State
    requires Enabled(s, step)
  {
    State(if MovesSlot(step) then s.slots[step.slot := NextSlot(s, step)] else s.slots,
          if step.Accept? || step.Reject? then s.ids + [step.id] else s.ids,
          NextRoutes(s, step),
          s.cancelled + NewlyCancelled(s, step),
          if step.DecodeFails? && !step.silent then s.failed + {s.slots[step.slot].phase.r} else s.failed,
          if step.DecodeFails? && step.silent then s.silent + {s.slots[step.slot].phase.r} else s.silent,
          if step.FindChannel? then Some(Lookup(step.id, ChannelFor(s, step.id)))
          else if step.Trip? then None else s.pending,
          if step.Trip? && s.pending.value.channel.Some? then
            s.trips + [(s.pending.value.id, s.pending.value.channel.value)]
          else s.trips,
          NextEvents(s, step))
  }

  ghost predicate Run(n: nat, steps: seq<Step>, states: seq<State>) {
    && |states| == |steps| + 1
    && states[0] == Init(n)
    && forall k | 0 <= k < |steps| :: Enabled(states[k], steps[k]) && states[k + 1] == Apply(states[k], steps[k])
  }

  // ---- slots and channels ----

  predicate HasChannel(p: Phase) {
    p.Opened? || p.Running? || p.Flushing? || p.Ended? || p.Unregistered?
  }

  predicate Routable(p: Phase) {
    p.Running? || p.Flushing? || p.Ended?
  }

  predicate Unfinished(p: Phase) {
    p.Queued? || p.Opened? || p.Running? || p.Flushing?
  }

  /** A slot holds its own request's channel while the request runs, and no two slots share a request. */
  ghost predicate SlotShape(slots: seq<Slot>, count: nat) {
    && (forall i | 0 <= i < |slots| :: SlotOk(slots[i], count))
    && (forall i, j | 0 <= i < j < |slots| :: Apart(slots[i].phase, slots[j].phase))
  }

  predicate SlotOk(slot: Slot, count: nat) {
    && (!slot.phase.Idle? ==> slot.phase.r < count)
    && slot.active == if HasChannel(slot.phase) then Some(slot.phase.r) else None
  }

  predicate Apart(p: Phase, q: Phase) {
    !p.Idle? && !q.Idle? ==> p.r != q.r
  }

  /** A routed id leads to a slot whose active channel belongs to a request with that id. */
  ghost predicate RouteShape(s: State) {
    forall id | id in s.routes :: RouteOk(s, id, s.routes[id])
  }

  predicate RouteOk(s: State, id: string, i: nat) {
    && id != "" && i < |s.slots| && Routable(s.slots[i].phase)
    && s.slots[i].active.Some? && IdOf(s, s.slots[i].active.value) == id
  }

  /** Every cancel, decided or about to be delivered, hits a request of the id it names. */
  ghost predicate TripShape(s: State) {
    && (forall k | 0 <= k < |s.trips| :: TripOk(s, s.trips[k].0, s.trips[k].1))
    && (s.pending.Some? && s.pending.value.channel.Some? ==>
          TripOk(s, s.pending.value.id, s.pending.value.channel.value))
  }

  predicate TripOk(s: State, id: string, r: nat) {
    r < |s.ids| && s.ids[r] == id
  }

  /** What a step does to one slot: it stays in its request, leaves it, or starts a new one. */
  lemma SlotShapeUpdate(slots: seq<Slot>, count: nat, i: nat, slot: Slot, count': nat)
    requires SlotShape(slots, count) && i < |slots| && count <= count' && SlotOk(slot, count')
    requires slot.phase.Idle? || slot.phase.r == count || (!slots[i].phase.Idle? && slot.phase.r == slots[i].phase.r)
    ensures SlotShape(slots[i := slot], count')
  {
    var slots' := slots[i := slot];
    forall a, b | 0 <= a < b < |slots'| ensures Apart(slots'[a].phase, slots'[b].phase) {
      assert Apart(slots[a].phase, slots[b].phase);
      assert SlotOk(slots[a], count) && SlotOk(slots[b], count);
    }
  }

  lemma SlotShapeGrows(slots: seq<Slot>, count: nat, count': nat)
    requires SlotShape(slots, count) && count <= count'
    ensures SlotShape(slots, count')
  {}

  lemma SlotShapeStep(s: State, step: Step)
    requires Enabled(s, step) && SlotShape(s.slots, |s.ids|)
    ensures var t := Apply(s, step); SlotShape(t.slots, |t.ids|)
  {
    hide NextRoutes, NextEvents, NewlyCancelled, ChannelFor;
    var t := Apply(s, step);
    if MovesSlot(step) {
      assert SlotOk(s.slots[step.slot], |s.ids|);
      hide SlotShape;
      SlotShapeUpdate(s.slots, |s.ids|, step.slot, NextSlot(s, step), |t.ids|);
    } else {
      hide SlotShape;
      SlotShapeGrows(s.slots, |s.ids|, |t.ids|);
    }
  }

  /** A slot that stays routable keeps its request, its channel and so its route. */
  lemma RouteKept(s: State, step: Step, id: string, i: nat)
    requires Enabled(s, step) && RouteOk(s, id, i) && SlotOk(s.slots[i], |s.ids|)
    requires step.Unregister? && step.slot == i ==> IdOf(s, s.slots[i].phase.r) != id
    ensures RouteOk(Apply(s, step), id, i)
  {
    hide NextEvents, NewlyCancelled, ChannelFor, NextRoutes;
    if MovesSlot(step) && step.slot == i {
      assert !step.Accept?;
    }
  }

  lemma RouteNew(s: State, i: nat)
    requires Enabled(s, Register(i)) && SlotOk(s.slots[i], |s.ids|) && IdOf(s, s.slots[i].phase.r) != ""
    ensures RouteOk(Apply(s, Register(i)), IdOf(s, s.slots[i].phase.r), i)
  {
    hide NextEvents, NewlyCancelled, ChannelFor, NextRoutes;
  }

  lemma RouteShapeStep(s: State, step: Step)
    requires Enabled(s, step) && SlotShape(s.slots, |s.ids|) && RouteShape(s)
    ensures RouteShape(Apply(s, step))
  {
    hide NextEvents, NewlyCancelled, ChannelFor, NextSlot, SlotOk, RouteOk, IdOf;
    var t := Apply(s, step);
    forall id | id in t.routes ensures RouteOk(t, id, t.routes[id]) {
      if step.Register? && IdOf(s, s.slots[step.slot].phase.r) == id && id != "" {
        assert SlotOk(s.slots[step.slot], |s.ids|);
        RouteNew(s, step.slot);
      } else {
        var i := s.routes[id];
        assert RouteOk(s, id, i);
        RouteInRange(s, id, i);
        assert SlotOk(s.slots[i], |s.ids|);
        RouteKept(s, step, id, i);
      }
    }
  }

  lemma RouteInRange(s: State, id: string, i: nat)
    requires RouteOk(s, id, i)
    ensures i < |s.slots| && id != ""
  {}

  lemma TripShapeStep(s: State, step: Step)
    requires Enabled(s, step) && SlotShape(s.slots, |s.ids|) && RouteShape(s) && TripShape(s)
    ensures TripShape(Apply(s, step))
  {
    hide NextEvents, NewlyCancelled, NextSlot, NextRoutes;
    var t := Apply(s, step);
    if step.FindChannel? && step.id in s.routes {
      assert RouteOk(s, step.id, s.routes[step.id]);
      assert SlotOk(s.slots[s.routes[step.id]], |s.ids|);
    }
    forall k | 0 <= k < |t.trips| ensures TripOk(t, t.trips[k].0, t.trips[k].1) {
      if k < |s.trips| { assert TripOk(s, s.trips[k].0, s.trips[k].1); }
    }
  }

  // ---- terminal events ----

  function Count(events: seq<Terminal>, r: nat): nat {
    if events == [] then 0
    else Count(events[..|events| - 1], r) + if events[|events| - 1].serial == r then 1 else 0
  }

  lemma CountSnoc(events: seq<Terminal>, e: Terminal, r: nat)
    ensures Count(events + [e], r) == Count(events, r) + if e.serial == r then 1 else 0
  {
    assert (events + [e])[..|events|] == events;
  }

  /** Some slot still owes request r its terminal event. */
  ghost predicate Owed(slots: seq<Slot>, r: nat) {
    exists i :: 0 <= i < |slots| && Owes(slots[i], r)
  }

  predicate Owes(slot: Slot, r: nat) {
    Unfinished(slot.phase) && slot.phase.r == r
  }

  /** Every request seen has exactly one terminal event, or is still owed it and has none. */
  ghost predicate OneEnding(s: State) {
    forall r: nat :: Count(s.events, r) == if r < |s.ids| && !Owed(s.slots, r) then 1 else 0
  }

  /** Replacing slot i changes only what slot i owes. */
  lemma OwedUpdate(slots: seq<Slot>, count: nat, i: nat, slot: Slot, r: nat)
    requires SlotShape(slots, count) && i < |slots|
    ensures Owed(slots[i := slot], r) <==> Owes(slot, r) || (Owed(slots, r) && !Owes(slots[i], r))
  {
    var slots' := slots[i := slot];
    if Owed(slots', r) {
      var k :| 0 <= k < |slots'| && Owes(slots'[k], r);
      if k < i {
        assert Owes(slots[k], r) && Apart(slots[k].phase, slots[i].phase);
      } else if i < k {
        assert Owes(slots[k], r) && Apart(slots[i].phase, slots[k].phase);
      }
    }
    if Owes(slot, r) { assert Owes(slots'[i], r); }
    if Owed(slots, r) && !Owes(slots[i], r) {
      var k :| 0 <= k < |slots| && Owes(slots[k], r);
      assert Owes(slots'[k], r);
    }
  }

  lemma OwedSeen(slots: seq<Slot>, count: nat, r: nat)
    requires SlotShape(slots, count) && Owed(slots, r)
    ensures r < count
  {
    var k :| 0 <= k < |slots| && Owes(slots[k], r);
    assert SlotOk(slots[k], count);
  }

  lemma OneEndingStep(s: State, step: Step, r: nat)
    requires Enabled(s, step) && SlotShape(s.slots, |s.ids|)
    requires Count(s.events, r) == if r < |s.ids| && !Owed(s.slots, r) then 1 else 0
    ensures var t := Apply(s, step); Count(t.events, r) == if r < |t.ids| && !Owed(t.slots, r) then 1 else 0
  {
    hide NewlyCancelled, NextRoutes, ChannelFor, Owed, Count;
    var t := Apply(s, step);
    if t.events != s.events { CountSnoc(s.events, t.events[|s.events|], r); }
    if Owed(s.slots, r) { OwedSeen(s.slots, |s.ids|, r); }
    if MovesSlot(step) {
      assert SlotOk(s.slots[step.slot], |s.ids|);
      hide SlotShape;
      OwedUpdate(s.slots, |s.ids|, step.slot, NextSlot(s, step), r);
      if Owes(s.slots[step.slot], r) { OwesIsOwed(s.slots, step.slot, r); }
    }
  }

  lemma OwesIsOwed(slots: seq<Slot>, i: nat, r: nat)
    requires i < |slots| && Owes(slots[i], r)
    ensures Owed(slots, r)
  {}

  // ---- why a request was cancelled ----

  ghost predicate Tripped(s: State, r: nat) {
    r < |s.ids| && (s.ids[r], r) in s.trips
  }

  /** A cancel was delivered, or the decode failed without saying why. */
  ghost predicate Blamed(s: State, r: nat) {
    Tripped(s, r) || r in s.silent
  }

  /** A channel is cancelled by a cancel for its own id, by its own decode, or when its request threw. */
  ghost predicate CauseShape(s: State) {
    && (forall r | r in s.cancelled ::
          Tripped(s, r) || r in s.silent || r in s.failed || Terminal(r, Error) in s.events)
    && (forall k | 0 <= k < |s.events| && s.events[k].kind.Cancelled? :: Blamed(s, s.events[k].serial))
  }

  lemma {:induction false} CountSeen(events: seq<Terminal>, e: Terminal)
    requires e in events
    ensures Count(events, e.serial) > 0
  {
    var last := |events| - 1;
    if events[last] != e { CountSeen(events[..last], e); }
  }

  lemma TrippedKept(s: State, step: Step, r: nat)
    requires Enabled(s, step) && Tripped(s, r)
    ensures Tripped(Apply(s, step), r)
  {}

  lemma CauseShapeStep(s: State, step: Step)
    requires Enabled(s, step) && SlotShape(s.slots, |s.ids|) && TripShape(s) && OneEnding(s) && CauseShape(s)
    ensures CauseShape(Apply(s, step))
  {
    hide NextSlot, NextRoutes, ChannelFor, Tripped, Count, Owed, SlotShape;
    var t := Apply(s, step);
    forall r | r in s.cancelled ensures Blamed(t, r) || r in t.failed || Terminal(r, Error) in t.events {
      if Tripped(s, r) { TrippedKept(s, step, r); }
    }
    if step.Trip? && s.pending.value.channel.Some? { TripCounts(s); }
    forall k | 0 <= k < |t.events| && t.events[k].kind.Cancelled? ensures Blamed(t, t.events[k].serial) {
      if k < |s.events| {
        assert t.events[k] == s.events[k];
        if Tripped(s, t.events[k].serial) { TrippedKept(s, step, t.events[k].serial); }
      } else {
        var r := t.events[k].serial;
        OwesIsOwed(s.slots, step.slot, r);
        if Terminal(r, Error) in s.events { CountSeen(s.events, Terminal(r, Error)); }
        if Tripped(s, r) { TrippedKept(s, step, r); }
      }
    }
  }

  lemma TripCounts(s: State)
    requires s.pending.Some? && s.pending.value.channel.Some? && TripShape(s)
    ensures Tripped(Apply(s, Trip), s.pending.value.channel.value)
  {
    var t, r := Apply(s, Trip), s.pending.value.channel.value;
    assert t.trips[|s.trips|] == (s.ids[r], r);
  }

  // ---- whole runs ----

  ghost predicate Inv(s: State) {
    SlotShape(s.slots, |s.ids|) && RouteShape(s) && TripShape(s) && OneEnding(s) && CauseShape(s)
  }

  lemma InvInit(n: nat)
    ensures Inv(Init(n))
  {}

  lemma InvStep(s: State, step: Step)
    requires Inv(s) && Enabled(s, step)
    ensures Inv(Apply(s, step))
  {
    hide SlotShape, RouteShape, TripShape, CauseShape, Apply, Enabled, Count, Owed;
    SlotShapeStep(s, step);
    RouteShapeStep(s, step);
    TripShapeStep(s, step);
    CauseShapeStep(s, step);
    forall r: nat
      ensures var t := Apply(s, step); Count(t.events, r) == if r < |t.ids| && !Owed(t.slots, r) then 1 else 0
    {
      OneEndingStep(s, step, r);
    }
  }

  lemma {:induction false} InvRun(n: nat, steps: seq<Step>, states: seq<State>, k: nat)
    requires Run(n, steps, states) && k < |states|
    ensures Inv(states[k])
  {
    hide Inv, Apply, Enabled, Init;
    if k == 0 {
      InvInit(n);
    } else {
      InvRun(n, steps, states, k - 1);
      InvStep(states[k - 1], steps[k - 1]);
    }
  }

  /**
   While an id is routed, the slot's active channel belongs to a request of that id; so does every
   channel tripped.
   */
  lemma CancelsHitTheirOwn(n: nat, steps: seq<Step>, states: seq<State>, k: nat)
    requires Run(n, steps, states) && k < |states|
    ensures forall id | id in states[k].routes :: RouteOk(states[k], id, states[k].routes[id])
    ensures forall j | 0 <= j < |states[k].trips| :: TripOk(states[k], states[k].trips[j].0, states[k].trips[j].1)
  {
    hide SlotShape, CauseShape, OneEnding, Run;
    InvRun(n, steps, states, k);
  }

  /**
   A request ends as cancelled only if a cancel naming its own id was delivered to its channel, or if
   its own decode thread threw with an empty message.
   */
  lemma CancelledOnlyWhenAsked(n: nat, steps: seq<Step>, states: seq<State>, k: nat, e: Terminal)
    requires Run(n, steps, states) && k < |states| && e in states[k].events && e.kind.Cancelled?
    ensures Tripped(states[k], e.serial) || e.serial in states[k].silent
  {
    hide SlotShape, RouteShape, TripShape, OneEnding, Run, Tripped;
    InvRun(n, steps, states, k);
  }

  lemma RunOn(n: nat, steps: seq<Step>, states: seq<State>, step: Step, next: State)
    requires Run(n, steps, states) && Enabled(states[|steps|], step) && next == Apply(states[|steps|], step)
    ensures Run(n, steps + [step], states + [next])
  {
    hide Enabled, Apply, Init;
  }

  /** One slot with one request "a", somewhere in its life. */
  function Lone(
    phase: Phase, active: Option<nat>, routes: map<string, nat>, cancelled: set<nat>, events: seq<Terminal>): State
  {
    State([Slot(phase, active)], ["a"], routes, cancelled, {}, cancelled, None, [], events)
  }

  lemma SilentAccept()
    ensures Enabled(Init(1), Accept("a", 0)) && Apply(Init(1), Accept("a", 0)) == Lone(Queued(0), None, map[], {}, [])
  {
    hide JoinPhase, ChannelFor;
  }

  lemma SilentStart()
    ensures var s := Lone(Queued(0), None, map[], {}, []);
            Enabled(s, Open(0)) && Apply(s, Open(0)) == Lone(Opened(0), Some(0), map[], {}, [])
    ensures var s := Lone(Opened(0), Some(0), map[], {}, []);
            Enabled(s, Register(0)) && Apply(s, Register(0)) == Lone(Running(0), Some(0), map["a" := 0], {}, [])
  {
    hide JoinPhase, ChannelFor;
  }

  lemma SilentEnd()
    ensures var s := Lone(Running(0), Some(0), map["a" := 0], {}, []);
            && Enabled(s, DecodeFails(0, true))
            && Apply(s, DecodeFails(0, true)) == Lone(Running(0), Some(0), map["a" := 0], {0}, [])
    ensures var s := Lone(Running(0), Some(0), map["a" := 0], {0}, []);
            Enabled(s, Join(0)) && Apply(s, Join(0)) ==
              Lone(Ended(0), Some(0), map["a" := 0], {0}, [Terminal(0, Cancelled)])
  {
    hide ChannelFor;
  }

  /** The second case is real: a decode that throws with an empty message ends as cancelled, and nobody asked. */
  lemma SilentFailureLooksCancelled() returns (steps: seq<Step>, states: seq<State>)
    ensures Run(1, steps, states)
    ensures var last := states[|steps|]; last.events == [Terminal(0, Cancelled)] && last.trips == []
  {
    steps, states := [], [Init(1)];
    assert Run(1, steps, states);
    SilentAccept();
    SilentStart();
    SilentEnd();
    hide Enabled, Apply, Init, Run, Lone;
    RunOn(1, steps, states, Accept("a", 0), Lone(Queued(0), None, map[], {}, []));
    steps, states := steps + [Accept("a", 0)], states + [Lone(Queued(0), None, map[], {}, [])];
    RunOn(1, steps, states, Open(0), Lone(Opened(0), Some(0), map[], {}, []));
    steps, states := steps + [Open(0)], states + [Lone(Opened(0), Some(0), map[], {}, [])];
    RunOn(1, steps, states, Register(0), Lone(Running(0), Some(0), map["a" := 0], {}, []));
    steps, states := steps + [Register(0)], states + [Lone(Running(0), Some(0), map["a" := 0], {}, [])];
    RunOn(1, steps, states, DecodeFails(0, true), Lone(Running(0), Some(0), map["a" := 0], {0}, []));
    steps, states := steps + [DecodeFails(0, true)], states + [Lone(Running(0), Some(0), map["a" := 0], {0}, [])];
    var last := Lone(Ended(0), Some(0), map["a" := 0], {0}, [Terminal(0, Cancelled)]);
    RunOn(1, steps, states, Join(0), last);
    steps, states := steps + [Join(0)], states + [last];
    LoneEvents();
  }

  lemma LoneEvents()
    ensures var last := Lone(Ended(0), Some(0), map["a" := 0], {0}, [Terminal(0, Cancelled)]);
            last.events == [Terminal(0, Cancelled)] && last.trips == []
  {}

  /** A request that no slot is still working on has had exactly one of done, cancelled and error; others none. */
  lemma ExactlyOneEnding(n: nat, steps: seq<Step>, states: seq<State>, k: nat, r: nat)
    requires Run(n, steps, states) && k < |states|
    ensures Count(states[k].events, r) == if r < |states[k].ids| && !Owed(states[k].slots, r) then 1 else 0
  {
    hide SlotShape, RouteShape, TripShape, CauseShape, Run, Owed, Count;
    InvRun(n, steps, states, k);
  }

  // ---- which ending, and why ----

  /** Step j is the end of request r's flush, without a throw. */
  ghost predicate CompletedAt(steps: seq<Step>, states: seq<State>, j: int, r: nat) {
    && 0 <= j < |steps| < |states| && steps[j].Complete?
    && steps[j].slot < |states[j].slots| && states[j].slots[steps[j].slot].phase == Flushing(r)
  }

  /** Step j refuses request r, since no slot is idle. */
  ghost predicate RefusedAt(steps: seq<Step>, states: seq<State>, j: int, r: nat) {
    && 0 <= j < |steps| < |states| && steps[j].Reject? && |states[j].ids| == r
    && forall i | 0 <= i < |states[j].slots| :: !states[j].slots[i].phase.Idle?
  }

  /** Step j is a throw out of request r's decode or flush. */
  ghost predicate ThrewAt(steps: seq<Step>, states: seq<State>, j: int, r: nat) {
    && 0 <= j < |steps| < |states| && steps[j].Throw? && steps[j].slot < |states[j].slots|
    && (states[j].slots[steps[j].slot].phase == Running(r) || states[j].slots[steps[j].slot].phase == Flushing(r))
  }

  /** Step j joins request r's decode. */
  ghost predicate JoinedAt(steps: seq<Step>, states: seq<State>, j: int, r: nat) {
    && 0 <= j < |steps| < |states| && steps[j].Join?
    && steps[j].slot < |states[j].slots| && states[j].slots[steps[j].slot].phase == Running(r)
  }

  /** What step j makes of request r, if it ends it. */
  ghost predicate EndsAs(steps: seq<Step>, states: seq<State>, j: int, r: nat, kind: Kind) {
    match kind
    case Done => CompletedAt(steps, states, j, r)
    case Error =>
      || RefusedAt(steps, states, j, r) || ThrewAt(steps, states, j, r)
      || (JoinedAt(steps, states, j, r) && r in states[j].failed)
    case Cancelled => JoinedAt(steps, states, j, r) && r !in states[j].failed && r in states[j].cancelled
  }

  lemma EventsGrow(s: State, step: Step)
    requires Enabled(s, step)
    ensures s.events <= NextEvents(s, step)
  {}

  /** A step that ends a request says so, with that kind. */
  lemma EndingIsTold(n: nat, steps: seq<Step>, states: seq<State>, j: int, r: nat, kind: Kind)
    requires Run(n, steps, states) && EndsAs(steps, states, j, r, kind)
    ensures Terminal(r, kind) in states[j + 1].events
  {
    hide NextSlot, NextRoutes, NewlyCancelled, ChannelFor;
    assert Enabled(states[j], steps[j]) && states[j + 1] == Apply(states[j], steps[j]);
    var t := states[j + 1];
    assert t.events[|t.events| - 1] == Terminal(r, kind);
  }

  lemma {:induction false} EventsStay(n: nat, steps: seq<Step>, states: seq<State>, j: nat, k: nat, e: Terminal)
    requires Run(n, steps, states) && j <= k < |states| && e in states[j].events
    ensures e in states[k].events
    decreases k
  {
    hide NextSlot, NextRoutes, NewlyCancelled, NextEvents, Enabled;
    if j < k {
      EventsStay(n, steps, states, j, k - 1, e);
      EventsGrow(states[k - 1], steps[k - 1]);
    }
  }

  /** Every ending told is that of some step. */
  lemma {:induction false} EndingHasStep(n: nat, steps: seq<Step>, states: seq<State>, k: nat, e: Terminal)
    returns (j: int)
    requires Run(n, steps, states) && k < |states| && e in states[k].events
    ensures 0 <= j < k && EndsAs(steps, states, j, e.serial, e.kind)
  {
    hide NextSlot, NextRoutes, NewlyCancelled, ChannelFor;
    if e in states[k - 1].events {
      j := EndingHasStep(n, steps, states, k - 1, e);
    } else {
      j := k - 1;
      assert Enabled(states[j], steps[j]) && states[k] == Apply(states[j], steps[j]);
    }
  }

  lemma {:induction false} TwoEndings(events: seq<Terminal>, e: Terminal, f: Terminal)
    requires e in events && f in events && e != f && e.serial == f.serial
    ensures Count(events, e.serial) >= 2
  {
    var last := |events| - 1;
    if e in events[..last] && f in events[..last] {
      TwoEndings(events[..last], e, f);
    } else if e in events[..last] {
      CountSeen(events[..last], e);
    } else {
      CountSeen(events[..last], f);
    }
  }

  /**
   Which ending comes when, in every run: request r is told done exactly if its flush came to an end
   without a throw; error exactly if it was refused, it threw, or its decode had failed with a message
   when it was joined; cancelled exactly if its channel was cancelled then and there was no such message.
   */
  lemma EndingSaysWhy(n: nat, steps: seq<Step>, states: seq<State>, k: nat, r: nat, kind: Kind)
    requires Run(n, steps, states) && k < |states|
    ensures Terminal(r, kind) in states[k].events <==> exists j :: 0 <= j < k && EndsAs(steps, states, j, r, kind)
  {
    hide Run, EndsAs;
    if Terminal(r, kind) in states[k].events {
      var j := EndingHasStep(n, steps, states, k, Terminal(r, kind));
    }
    if j :| 0 <= j < k && EndsAs(steps, states, j, r, kind) {
      EndingIsTold(n, steps, states, j, r, kind);
      RunLength(n, steps, states);
      EventsStay(n, steps, states, j + 1, k, Terminal(r, kind));
    }
  }

  lemma RunLength(n: nat, steps: seq<Step>, states: seq<State>)
    requires Run(n, steps, states)
    ensures |states| == |steps| + 1
  {}

  /** And no request is told two things. */
  lemma OneKind(n: nat, steps: seq<Step>, states: seq<State>, k: nat, e: Terminal, f: Terminal)
    requires Run(n, steps, states) && k < |states| && e in states[k].events && f in states[k].events
    requires e.serial == f.serial
    ensures e == f
  {
    hide Run, Count;
    ExactlyOneEnding(n, steps, states, k, e.serial);
    if e != f { TwoEndings(states[k].events, e, f); }
  }

  /** The step that carries slot i's request on, when nothing goes wrong. */
  function NextOf(p: Phase, i: nat): Step
    requires !p.Idle?
  {
    match p
    case Queued(_) => Open(i)
    case Opened(_) => Register(i)
    case Running(_) => Join(i)
    case Flushing(_) => Complete(i)
    case Ended(_) => Unregister(i)
    case Unregistered(_) => Clear(i)
    case Cleared(_) => Free(i)
  }

  /**
   Nothing blocks: a request in a slot can always take its next step and comes one phase nearer to the
   idle slot; one that decodes or flushes can throw, which ends it with an error; a new request is taken
   by any idle slot and refused only without one; a cancel line is looked up and delivered.
   */
  lemma NothingBlocks(s: State, i: nat, id: string)
    requires i < |s.slots|
    ensures var p := s.slots[i].phase;
            && (!p.Idle? ==> Enabled(s, NextOf(p, i)) &&
                             ToGo(Apply(s, NextOf(p, i)).slots[i].phase) < ToGo(p))
            && (p.Running? || p.Flushing? ==>
                  && Enabled(s, Throw(i)) && Apply(s, Throw(i)).slots[i].phase == Ended(p.r)
                  && Apply(s, Throw(i)).events == s.events + [Terminal(p.r, Error)])
            && (p.Running? ==> Enabled(s, DecodeFails(i, true)) && Enabled(s, DecodeFails(i, false)))
            && (p.Idle? && s.pending.None? ==> Enabled(s, Accept(id, i)) && !Enabled(s, Reject(id)))
    ensures if s.pending.Some? then Enabled(s, Trip) else Enabled(s, FindChannel(id))
    ensures (forall k | 0 <= k < |s.slots| :: !s.slots[k].phase.Idle?) && s.pending.None? ==> Enabled(s, Reject(id))
  {
    hide NextRoutes, NewlyCancelled, ChannelFor;
  }

  /** How many phases are left until the slot is free. */
  function ToGo(p: Phase): nat {
    match p
    case Idle => 0
    case Queued(_) => 7
    case Opened(_) => 6
    case Running(_) => 5
    case Flushing(_) => 4
    case Ended(_) => 3
    case Unregistered(_) => 2
    case Cleared(_) => 1
  }

  // ---- with unique ids every cancel arrives ----

  /** In the system and not yet unregistered. */
  predicate Present(p: Phase) {
    Unfinished(p) || p.Ended?
  }

  /** No request with this id is present in any slot. */
  ghost predicate FreshId(s: State, id: string) {
    id == "" || forall i | 0 <= i < |s.slots| && Present(s.slots[i].phase) :: IdOf(s, s.slots[i].phase.r) != id
  }

  ghost predicate Unique(steps: seq<Step>, states: seq<State>) {
    |states| == |steps| + 1 && forall k | 0 <= k < |steps| && steps[k].Accept? :: FreshId(states[k], steps[k].id)
  }

  ghost predicate DistinctIds(s: State) {
    forall i, j | 0 <= i < j < |s.slots| :: IdsApart(s, s.slots[i].phase, s.slots[j].phase)
  }

  predicate IdsApart(s: State, p: Phase, q: Phase) {
    Present(p) && Present(q) && IdOf(s, p.r) != "" ==> IdOf(s, p.r) != IdOf(s, q.r)
  }

  ghost predicate AllRouted(s: State) {
    forall i | 0 <= i < |s.slots| :: Routed(s, i)
  }

  predicate Routed(s: State, i: nat) {
    i < |s.slots| && Routable(s.slots[i].phase) ==>
      var id := IdOf(s, s.slots[i].phase.r); id == "" || (id in s.routes && s.routes[id] == i)
  }

  lemma DistinctIdsStep(s: State, step: Step)
    requires Enabled(s, step) && SlotShape(s.slots, |s.ids|) && DistinctIds(s)
    requires step.Accept? ==> FreshId(s, step.id)
    ensures DistinctIds(Apply(s, step))
  {
    hide NextRoutes, NextEvents, NewlyCancelled, ChannelFor;
    var t := Apply(s, step);
    forall i, j | 0 <= i < j < |t.slots| ensures IdsApart(t, t.slots[i].phase, t.slots[j].phase) {
      assert IdsApart(s, s.slots[i].phase, s.slots[j].phase);
      assert SlotOk(s.slots[i], |s.ids|) && SlotOk(s.slots[j], |s.ids|);
    }
  }

  lemma AllRoutedStep(s: State, step: Step)
    requires Enabled(s, step) && SlotShape(s.slots, |s.ids|) && DistinctIds(s) && AllRouted(s)
    ensures AllRouted(Apply(s, step))
  {
    hide NextEvents, NewlyCancelled, ChannelFor;
    var t := Apply(s, step);
    forall i | 0 <= i < |t.slots| ensures Routed(t, i) {
      assert Routed(s, i) && SlotOk(s.slots[i], |s.ids|);
      if step.Unregister? || step.Register? {
        var k := step.slot;
        assert SlotOk(s.slots[k], |s.ids|);
        if k < i { assert IdsApart(s, s.slots[k].phase, s.slots[i].phase); }
        if i < k { assert IdsApart(s, s.slots[i].phase, s.slots[k].phase); }
      }
    }
  }

  lemma {:induction false} RoutedRun(n: nat, steps: seq<Step>, states: seq<State>, k: nat)
    requires Run(n, steps, states) && Unique(steps, states) && k < |states|
    ensures DistinctIds(states[k]) && AllRouted(states[k]) && SlotShape(states[k].slots, |states[k].ids|)
  {
    hide DistinctIds, AllRouted, SlotShape, Apply, Enabled, FreshId, Init;
    if k == 0 {
      RoutedInit(n);
    } else {
      RoutedRun(n, steps, states, k - 1);
      DistinctIdsStep(states[k - 1], steps[k - 1]);
      AllRoutedStep(states[k - 1], steps[k - 1]);
      SlotShapeStep(states[k - 1], steps[k - 1]);
    }
  }

  lemma RoutedInit(n: nat)
    ensures var s := Init(n); DistinctIds(s) && AllRouted(s) && SlotShape(s.slots, |s.ids|)
  {}

  /** With ids unique among present requests, a cancel finds the one running request of its id. */
  lemma CancelFindsRequest(n: nat, steps: seq<Step>, states: seq<State>, k: nat, i: nat)
    requires Run(n, steps, states) && Unique(steps, states) && k < |states|
    requires i < |states[k].slots| && Routable(states[k].slots[i].phase)
    requires IdOf(states[k], states[k].slots[i].phase.r) != ""
    ensures var s := states[k]; var r := s.slots[i].phase.r; ChannelFor(s, IdOf(s, r)) == Some(r)
  {
    hide Run, DistinctIds;
    RoutedRun(n, steps, states, k);
    assert Routed(states[k], i) && SlotOk(states[k].slots[i], |states[k].ids|);
  }
}

/** Events as the timeline, the sessions and the observer see them. */
module Events {

  datatype EventType =
    | RealtimeSessionStarted | InputSpeechStarted | InputSpeechEnded | AsrEndOfUtterance
    | TranscriptPartial | TranscriptFinal | TurnStarted | ModelStarted | FirstToken | ModelTextDelta
    | ModelCompleted | ToolStarted | ToolCompleted | SpeechStarted | TtsChunkStarted | FirstAudio
    | AudioOutput | PlaybackStarted | PlaybackProgress | BargeInDetected | OutputCancelled
    | SpeechCompleted | ConversationTurnCompleted | TurnCompleted | TurnCancelled
    | RealtimeSessionClosed | Error | SessionStarted | SessionStopped | SessionFailed
    | ResponseCancelRequested | TurnFailed | ConversationTurnCancelled | ConversationTurnFailed

  /** Times are clock readings; 0 is the unset time point, and generation 0 is unspecified. */
  datatype Event = Event(
    kind: EventType,
    sessionId: string,
    turnId: string,
    name: string,
    data: string,
    traceId: string,
    sequence: nat,
    timestamp: int,
    receivedAt: int,
    generation: nat)
}

/** The bounded journal with one lossy, ordered delivery lane. */
module TimelineModel {
  import opened Common
  import opened Events

  datatype Config = Config(maxEvents: nat, maxPending: nat, maxEventBytes: nat, sessionId: string, generation: nat)

  predicate ValidConfig(c: Config) {
    c.maxEvents > 0 && c.maxPending > 0 && c.maxEventBytes > 0 && c.generation > 0
  }

  datatype Status = Accepted | Closed | WrongSession | StaleGeneration | EventTooLarge

  datatype Appended = Appended(status: Status, sequence: nat, enqueued: bool)

  datatype Dispatcher = Waiting | Delivering(event: Event) | Exited

  datatype Counters = Counters(
    accepted: nat, evicted: nat, rejected: nat, dropped: nat, observerFailures: nat, allocationFailures: nat,
    firstDropped: nat, lastDropped: nat, highWatermark: nat)

  /** `log`, `queued` and `delivered` are histories: every accepted event, every event put into the
      delivery lane, and every event whose delivery completed. */
  datatype State = State(
    events: seq<Event>,
    pending: seq<Event>,
    counters: Counters,
    enqueued: nat,
    completed: nat,
    closed: bool,
    dispatcher: Dispatcher,
    log: seq<Event>,
    queued: seq<Event>,
    delivered: seq<Event>)

  function Init(): State {
    State([], [], Counters(0, 0, 0, 0, 0, 0, 0, 0, 0), 0, 0, false, Waiting, [], [], [])
  }

  // ---------------------------------------------------------------- admission

  function Sizes(e: Event): seq<nat> {
    [|e.sessionId|, |e.turnId|, |e.name|, |e.data|, |e.traceId|]
  }

  /** The size loop: each field must fit into what the earlier ones left of the limit. */
  function FitsFrom(sizes: seq<nat>, i: nat, left: nat): bool
    requires i <= |sizes|
    decreases |sizes| - i
  {
    i == |sizes| || (sizes[i] <= left && FitsFrom(sizes, i + 1, left - sizes[i]))
  }

  predicate Fits(e: Event, limit: nat) { FitsFrom(Sizes(e), 0, limit) }

  function Sum(sizes: seq<nat>, i: nat): nat
    requires i <= |sizes|
    decreases |sizes| - i
  {
    if i == |sizes| then 0 else sizes[i] + Sum(sizes, i + 1)
  }

  /** The check without subtraction below zero is a bound on the total. */
  lemma {:induction false} FitsIsTotalBound(sizes: seq<nat>, i: nat, left: nat)
    requires i <= |sizes|
    ensures FitsFrom(sizes, i, left) <==> Sum(sizes, i) <= left
    decreases |sizes| - i
  {
    if i < |sizes| && sizes[i] <= left {
      FitsIsTotalBound(sizes, i + 1, left - sizes[i]);
    }
  }

  /** Identity fields as the timeline fixes them before the size check. */
  function Scoped(c: Config, e: Event): Event {
    var e1 := if c.sessionId != "" then e.(sessionId := c.sessionId) else e;
    var e2 := e1.(generation := c.generation);
    if e2.traceId == "" && e2.sessionId != "" && e2.turnId != "" then e2.(traceId := e2.sessionId + ":" + e2.turnId) else e2
  }

  function Check(c: Config, closed: bool, e: Event): Status {
    if closed then Closed
    else if c.sessionId != "" && e.sessionId != "" && e.sessionId != c.sessionId then WrongSession
    else if e.generation != 0 && e.generation != c.generation then StaleGeneration
    else if !Fits(Scoped(c, e), c.maxEventBytes) then EventTooLarge
    else Accepted
  }

  function Stamped(c: Config, accepted: nat, e: Event, now: int): Event {
    var e1 := Scoped(c, e).(receivedAt := now, sequence := accepted + 1);
    if e1.timestamp == 0 then e1.(timestamp := now) else e1
  }

  function Max(a: nat, b: nat): nat { if a < b then b else a }

  /** The accepted event enters the journal, which may evict its oldest. */
  function Record(c: Config, s: State, admitted: Event): State {
    var journal := s.events + [admitted];
    var full := |journal| > c.maxEvents;
    s.(events := if full then journal[1..] else journal,
       log := s.log + [admitted],
       counters := s.counters.(accepted := s.counters.accepted + 1,
                               evicted := s.counters.evicted + (if full then 1 else 0)))
  }

  /** ... and then the delivery lane, or the gap is counted; `memory` is false when the lane
      cannot allocate. */
  function Enlist(c: Config, s: State, admitted: Event, memory: bool): State {
    var k := s.counters;
    var room := |s.pending| < c.maxPending;
    if room && memory then
      s.(pending := s.pending + [admitted], queued := s.queued + [admitted], enqueued := s.enqueued + 1,
         counters := k.(highWatermark := Max(k.highWatermark, |s.pending| + 1)))
    else
      s.(counters := k.(dropped := k.dropped + 1,
                        allocationFailures := k.allocationFailures + (if room then 1 else 0),
                        firstDropped := if k.firstDropped == 0 then admitted.sequence else k.firstDropped,
                        lastDropped := admitted.sequence))
  }

  function Admit(c: Config, s: State, e: Event, now: int, memory: bool): (State, Appended) {
    var status := Check(c, s.closed, e);
    if !status.Accepted? then
      (s.(counters := s.counters.(rejected := s.counters.rejected + 1)), Appended(status, 0, false))
    else
      var admitted := Stamped(c, s.counters.accepted, e, now);
      (Enlist(c, Record(c, s, admitted), admitted, memory),
       Appended(Accepted, admitted.sequence, |s.pending| < c.maxPending && memory))
  }

  function Close(s: State): State { s.(closed := true) }

  // ---------------------------------------------------------------- delivery

  function Take(s: State): State
    requires s.pending != []
  {
    s.(dispatcher := Delivering(s.pending[0]), pending := s.pending[1..])
  }

  function Complete(s: State, failures: nat): State
    requires s.dispatcher.Delivering?
  {
    s.(dispatcher := Waiting, completed := s.completed + 1, delivered := s.delivered + [s.dispatcher.event],
       counters := s.counters.(observerFailures := s.counters.observerFailures + failures))
  }

  function Exit(s: State): State { s.(dispatcher := Exited) }

  datatype Action = DoAdmit(event: Event, now: int, memory: bool) | DoClose | DoTake | DoComplete(failures: nat) | DoExit

  predicate Enabled(s: State, a: Action) {
    match a
    case DoAdmit(_, _, _) => true
    case DoClose => true
    case DoTake => s.dispatcher.Waiting? && s.pending != []
    case DoComplete(_) => s.dispatcher.Delivering?
    case DoExit => s.dispatcher.Waiting? && s.closed && s.pending == []
  }

  function Next(c: Config, s: State, a: Action): State
    requires Enabled(s, a)
  {
    match a
    case DoAdmit(event, now, memory) => Admit(c, s, event, now, memory).0
    case DoClose => Close(s)
    case DoTake => Take(s)
    case DoComplete(failures) => Complete(s, failures)
    case DoExit => Exit(s)
  }

  // ---------------------------------------------------------------- the invariant

  /** The journal is the last `min(accepted, maxEvents)` accepted events, numbered without gaps. */
  ghost predicate JournalOk(c: Config, s: State) {
    && |s.events| == (if |s.log| < c.maxEvents then |s.log| else c.maxEvents)
    && s.events == s.log[|s.log| - |s.events|..]
    && (forall i {:trigger Numbered(s.log, i)} :: 0 <= i < |s.log| ==> Numbered(s.log, i))
  }

  predicate Numbered(log: seq<Event>, i: nat)
    requires i < |log|
  {
    log[i].sequence == i + 1
  }

  function InFlight(s: State): seq<Event> {
    if s.dispatcher.Delivering? then [s.dispatcher.event] else []
  }

  /** The lane is first in, first out: delivered, then in flight, then pending. */
  ghost predicate LaneOk(c: Config, s: State) {
    && s.queued == s.delivered + InFlight(s) + s.pending
    && |s.pending| <= c.maxPending
    && (forall i {:trigger FromLog(s.log, s.queued[i])} :: 0 <= i < |s.queued| ==> FromLog(s.log, s.queued[i]))
    && (forall i, j {:trigger Precedes(s.queued[i], s.queued[j])} :: 0 <= i < j < |s.queued| ==> Precedes(s.queued[i], s.queued[j]))
    && (s.dispatcher.Exited? ==> s.closed && s.pending == [])
  }

  predicate FromLog(log: seq<Event>, e: Event) { 1 <= e.sequence <= |log| && log[e.sequence - 1] == e }

  predicate Precedes(a: Event, b: Event) { a.sequence < b.sequence }

  ghost predicate CountersOk(c: Config, s: State) {
    var k := s.counters;
    && k.accepted == |s.log| == k.evicted + |s.events|
    && k.accepted == s.enqueued + k.dropped
    && s.enqueued == |s.queued| == s.completed + |InFlight(s)| + |s.pending|
    && s.completed == |s.delivered|
    && (k.dropped == 0 <==> k.firstDropped == 0)
    && k.firstDropped <= k.lastDropped <= k.accepted
    && |s.pending| <= k.highWatermark <= c.maxPending
  }

  ghost predicate Inv(c: Config, s: State) {
    ValidConfig(c) && JournalOk(c, s) && LaneOk(c, s) && CountersOk(c, s)
  }

  lemma AdmitInv(c: Config, s: State, e: Event, now: int, memory: bool)
    requires Inv(c, s)
    ensures Inv(c, Admit(c, s, e, now, memory).0)
  {
    if Check(c, s.closed, e).Accepted? {
      var admitted := Stamped(c, s.counters.accepted, e, now);
      AdmitJournal(c, s, admitted, memory);
      AdmitLane(c, s, admitted, memory);
      AdmitCounters(c, s, admitted, memory);
    }
  }

  lemma AdmitJournal(c: Config, s: State, admitted: Event, memory: bool)
    requires ValidConfig(c) && JournalOk(c, s) && admitted.sequence == |s.log| + 1
    ensures JournalOk(c, Enlist(c, Record(c, s, admitted), admitted, memory))
  {
    var s' := Record(c, s, admitted);
    var n := |s.log| - |s.events|;
    assert s.events + [admitted] == s'.log[n..];
    assert s'.log[n..][1..] == s'.log[n + 1..];
    forall i | 0 <= i < |s'.log| ensures Numbered(s'.log, i) {
      if i < |s.log| { assert Numbered(s.log, i); }
    }
  }

  lemma AdmitLane(c: Config, s: State, admitted: Event, memory: bool)
    requires LaneOk(c, s) && admitted.sequence == |s.log| + 1 && !s.closed
    ensures LaneOk(c, Enlist(c, Record(c, s, admitted), admitted, memory))
  {
    assert s.delivered + InFlight(s) + (s.pending + [admitted]) == s.queued + [admitted];
    var log' := s.log + [admitted];
    var queued' := s.queued + [admitted];
    forall i | 0 <= i < |s.queued| ensures FromLog(log', s.queued[i]) {
      assert FromLog(s.log, s.queued[i]);
    }
    forall i | 0 <= i < |queued'| ensures FromLog(log', queued'[i]) {
      if i < |s.queued| { assert FromLog(log', s.queued[i]); }
    }
    forall i, j | 0 <= i < j < |queued'| ensures Precedes(queued'[i], queued'[j]) {
      assert FromLog(s.log, s.queued[i]);
      if j < |s.queued| { assert Precedes(s.queued[i], s.queued[j]); }
    }
  }

  lemma AdmitCounters(c: Config, s: State, admitted: Event, memory: bool)
    requires CountersOk(c, s) && admitted.sequence == |s.log| + 1
    ensures CountersOk(c, Enlist(c, Record(c, s, admitted), admitted, memory))
  {
  }

  /** Taking an event off the lane and completing its delivery keep the lane's order. */
  lemma TakeInv(c: Config, s: State)
    requires Inv(c, s) && Enabled(s, DoTake)
    ensures Inv(c, Take(s))
  {
    MoveFirst(s.delivered, s.pending);
  }

  lemma MoveFirst(done: seq<Event>, waiting: seq<Event>)
    requires waiting != []
    ensures done + [] + waiting == done + [waiting[0]] + waiting[1..]
  {
    assert waiting == [waiting[0]] + waiting[1..];
  }

  lemma CompleteInv(c: Config, s: State, failures: nat)
    requires Inv(c, s) && s.dispatcher.Delivering?
    ensures Inv(c, Complete(s, failures))
  {
    assert s.delivered + InFlight(s) + s.pending == s.delivered + [s.dispatcher.event] + [] + s.pending;
  }

  lemma NextInv(c: Config, s: State, a: Action, s': State)
    requires Inv(c, s) && Enabled(s, a) && s' == Next(c, s, a)
    ensures Inv(c, s')
  {
    match a
    case DoAdmit(event, now, memory) => AdmitInv(c, s, event, now, memory);
    case DoClose =>
    case DoTake => TakeInv(c, s);
    case DoComplete(failures) => CompleteInv(c, s, failures);
    case DoExit =>
      assert InFlight(Exit(s)) == InFlight(s);
  }

  // ---------------------------------------------------------------- whole runs

  ghost predicate StepAt(c: Config, run: seq<State>, i: nat)
    requires i + 1 < |run|
  {
    exists a :: Enabled(run[i], a) && run[i + 1] == Next(c, run[i], a)
  }

  /** Any interleaving of producers and the dispatcher. */
  ghost predicate IsRun(c: Config, run: seq<State>) {
    && ValidConfig(c)
    && |run| > 0 && run[0] == Init()
    && forall i :: 0 <= i < |run| - 1 ==> StepAt(c, run, i)
  }

  lemma InitInv(c: Config, s: State)
    requires ValidConfig(c) && s == Init()
    ensures Inv(c, s)
  {
    assert |s.log| == 0 && |s.queued| == 0 && |s.events| == 0 && |s.pending| == 0 && |s.delivered| == 0;
    assert s.log[0..] == [] && s.delivered + InFlight(s) + s.pending == [];
  }

  lemma StepKeeps(c: Config, run: seq<State>, i: nat)
    requires IsRun(c, run) && 0 < i < |run| && Inv(c, run[i - 1])
    ensures Inv(c, run[i])
  {
    assert StepAt(c, run, i - 1);
    var a :| Enabled(run[i - 1], a) && run[i] == Next(c, run[i - 1], a);
    NextInv(c, run[i - 1], a, run[i]);
  }

  lemma {:induction false} RunsKeepJournalAndLane(c: Config, run: seq<State>, i: nat)
    requires IsRun(c, run) && i < |run|
    ensures Inv(c, run[i])
  {
    if i == 0 {
      InitInv(c, run[0]);
    } else {
      RunsKeepJournalAndLane(c, run, i - 1);
      StepKeeps(c, run, i);
    }
  }

  /** Histories only grow, nothing is enqueued once closed, and closing is for good. */
  ghost predicate Grows(s: State, s': State) {
    && s.log <= s'.log && s.queued <= s'.queued && s.delivered <= s'.delivered
    && (s.closed ==> s'.closed && s'.log == s.log && s'.queued == s.queued)
  }

  lemma StepGrows(c: Config, s: State, a: Action)
    requires Enabled(s, a)
    ensures Grows(s, Next(c, s, a))
  {
  }

  lemma {:induction false} RunGrows(c: Config, run: seq<State>, i: nat, j: nat)
    requires IsRun(c, run) && i <= j < |run|
    ensures Grows(run[i], run[j])
    decreases j
  {
    if i < j {
      RunGrows(c, run, i, j - 1);
      assert StepAt(c, run, j - 1);
      var a :| Enabled(run[j - 1], a) && run[j] == Next(c, run[j - 1], a);
      StepGrows(c, run[j - 1], a);
    }
  }

  /** A flush that was called at `i` and found its target reached at `j`: everything enqueued before
      the call has been delivered, in order. */
  lemma FlushDeliversEverythingBefore(c: Config, run: seq<State>, i: nat, j: nat)
    requires IsRun(c, run) && i <= j < |run| && run[j].completed >= run[i].enqueued
    ensures run[i].queued <= run[j].delivered
  {
    RunsKeepJournalAndLane(c, run, i);
    RunsKeepJournalAndLane(c, run, j);
    RunGrows(c, run, i, j);
    assert run[j].delivered <= run[j].queued;
  }

  /** The dispatcher's exit means that the timeline is closed and everything was delivered, for good. */
  lemma ExitMeansDelivered(c: Config, run: seq<State>, i: nat, j: nat)
    requires IsRun(c, run) && i <= j < |run| && run[i].dispatcher.Exited?
    ensures run[j].delivered == run[j].queued == run[i].queued && run[j].closed
  {
    RunsKeepJournalAndLane(c, run, i);
    RunsKeepJournalAndLane(c, run, j);
    RunGrows(c, run, i, j);
    assert run[i].delivered == run[i].queued;
    assert run[j].delivered <= run[j].queued;
  }

  /** Delivery is a strictly increasing subsequence of acceptance. */
  lemma DeliveryFollowsAcceptance(c: Config, run: seq<State>, i: nat, a: nat, b: nat)
    requires IsRun(c, run) && i < |run| && a < b < |run[i].delivered|
    ensures 1 <= run[i].delivered[a].sequence < run[i].delivered[b].sequence <= |run[i].log|
    ensures run[i].log[run[i].delivered[a].sequence - 1] == run[i].delivered[a]
  {
    RunsKeepJournalAndLane(c, run, i);
    var s := run[i];
    assert s.delivered <= s.queued;
    assert s.queued[a] == s.delivered[a] && s.queued[b] == s.delivered[b];
    assert FromLog(s.log, s.queued[a]) && FromLog(s.log, s.queued[b]) && Precedes(s.queued[a], s.queued[b]);
  }
}

/** The timeline as the program has it. */
module EventTimelines {
  import opened Common
  import opened Events
  import opened TimelineModel

  /** The size check with the program's running total, which never exceeds the limit. */
  method FitsLimit(e: Event, limit: nat) returns (fits: bool)
    ensures fits <==> |e.sessionId| + |e.turnId| + |e.name| + |e.data| + |e.traceId| <= limit
    ensures fits <==> Fits(e, limit)
  {
    var sizes := Sizes(e);
    FitsIsTotalBound(sizes, 0, limit);
    assert Sum(sizes, 5) == 0 && Sum(sizes, 4) == sizes[4] && Sum(sizes, 3) == sizes[3] + sizes[4];
    assert Sum(sizes, 2) == sizes[2] + sizes[3] + sizes[4] && Sum(sizes, 1) == sizes[1] + Sum(sizes, 2);
    var total := 0;
    for i := 0 to |sizes|
      invariant total <= limit
      invariant FitsFrom(sizes, i, limit - total) == FitsFrom(sizes, 0, limit)
    {
      if sizes[i] > limit - total { return false; }
      total := total + sizes[i];
    }
    return true;
  }

  class EventTimeline {
    const config: Config
    var events: seq<Event>
    var pending: seq<Event>
    var counters: Counters
    var enqueued: nat
    var completed: nat
    var closed: bool
    var dispatcher: Dispatcher
    ghost var log: seq<Event>
    ghost var queued: seq<Event>
    ghost var delivered: seq<Event>

    ghost function Model(): State
      reads this
    {
      State(events, pending, counters, enqueued, completed, closed, dispatcher, log, queued, delivered)
    }

    ghost predicate Valid()
      reads this
    {
      Inv(config, Model())
    }

    constructor Build(config: Config)
      requires ValidConfig(config)
      ensures Valid() && this.config == config && Model() == Init()
    {
      this.config := config;
      events, pending, counters := [], [], Counters(0, 0, 0, 0, 0, 0, 0, 0, 0);
      enqueued, completed, closed, dispatcher := 0, 0, false, Waiting;
      log, queued, delivered := [], [], [];
    }

    method RecordEvent(e: Event)
      modifies this`events, this`log, this`counters
      ensures Model() == Record(config, old(Model()), e)
    {
      events := events + [e];
      log := log + [e];
      counters := counters.(accepted := counters.accepted + 1);
      if |events| > config.maxEvents {
        events := events[1..];
        counters := counters.(evicted := counters.evicted + 1);
      }
    }

    method EnlistEvent(e: Event, memory: bool) returns (lane: bool)
      modifies this`pending, this`queued, this`enqueued, this`counters
      ensures Model() == Enlist(config, old(Model()), e, memory)
      ensures lane <==> |old(pending)| < config.maxPending && memory
    {
      lane := false;
      if |pending| < config.maxPending {
        if memory {
          pending := pending + [e];
          queued := queued + [e];
          enqueued := enqueued + 1;
          counters := counters.(highWatermark := Max(counters.highWatermark, |pending|));
          lane := true;
        } else {
          counters := counters.(allocationFailures := counters.allocationFailures + 1);
        }
      }
      if !lane {
        counters := counters.(dropped := counters.dropped + 1);
        if counters.firstDropped == 0 { counters := counters.(firstDropped := e.sequence); }
        counters := counters.(lastDropped := e.sequence);
      }
    }

    method Append(event: Event, now: int, memory: bool) returns (r: Appended)
      modifies this
      ensures (Model(), r) == Admit(config, old(Model()), event, now, memory)
    {
      var status := Check(config, closed, event);
      if !status.Accepted? {
        counters := counters.(rejected := counters.rejected + 1);
        return Appended(status, 0, false);
      }
      var e := Stamped(config, counters.accepted, event, now);
      RecordEvent(e);
      var lane := EnlistEvent(e, memory);
      return Appended(Accepted, e.sequence, lane);
    }

    method CloseAdmission()
      modifies this`closed
      ensures Model() == Close(old(Model()))
    {
      closed := true;
    }

    /** The dispatcher's first region; None is its exit. */
    method TakeNext() returns (event: Option<Event>)
      requires dispatcher.Waiting? && (closed || pending != [])
      modifies this`pending, this`dispatcher
      ensures event.Some? <==> old(pending) != []
      ensures Model() == if event.Some? then Take(old(Model())) else Exit(old(Model()))
      ensures event.Some? ==> event.value == old(pending)[0]
    {
      if pending == [] {
        dispatcher := Exited;
        return None;
      }
      var first := pending[0];
      pending := pending[1..];
      dispatcher := Delivering(first);
      return Some(first);
    }

    method FinishDelivery(failures: nat)
      requires dispatcher.Delivering?
      modifies this
      ensures Model() == Complete(old(Model()), failures)
    {
      counters := counters.(observerFailures := counters.observerFailures + failures);
      completed := completed + 1;
      delivered := delivered + [dispatcher.event];
      dispatcher := Waiting;
    }

    /** The flush predicate against a target read earlier; true only after delivery. */
    method Reached(target: nat) returns (done: bool)
      requires Valid()
      ensures done <==> completed >= target
      ensures done && target <= |queued| ==> queued[..target] <= delivered
    {
      done := completed >= target;
      assert delivered <= queued;
    }

    /** What callers may observe of the journal. */
    method Snapshot() returns (copy: seq<Event>, oldest: nat, newest: nat)
      requires Valid()
      ensures copy == log[counters.evicted..]
      ensures copy != [] ==> oldest == counters.evicted + 1 && newest == counters.accepted
    {
      copy := events;
      oldest, newest := 0, 0;
      if events != [] {
        assert events[0] == log[counters.evicted] && events[|events| - 1] == log[|log| - 1];
        assert Numbered(log, counters.evicted) && Numbered(log, |log| - 1);
        oldest, newest := events[0].sequence, events[|events| - 1].sequence;
      }
    }

    /** Any region, whoever enters it. */
    method Perform(a: Action)
      requires Valid() && Enabled(Model(), a)
      modifies this
      ensures Valid() && Model() == Next(config, old(Model()), a)
    {
      NextInv(config, Model(), a, Next(config, Model(), a));
      match a
      case DoAdmit(event, now, memory) => var _ := Append(event, now, memory);
      case DoClose => CloseAdmission();
      case DoTake => var _ := TakeNext();
      case DoComplete(failures) => FinishDelivery(failures);
      case DoExit => var _ := TakeNext();
    }
  }
}

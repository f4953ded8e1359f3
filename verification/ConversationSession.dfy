/** What a session promises the runtime manager that owns it. */
module SessionContract {

  datatype Lifecycle = Created | Starting | Running | Stopping | Stopped | Failed

  predicate Terminal(l: Lifecycle) { l.Stopped? || l.Failed? }

  function Rank(l: Lifecycle): nat {
    match l
    case Created => 0
    case Starting => 1
    case Running => 2
    case Stopping => 3
    case Stopped => 4
    case Failed => 4
  }

  /** What can be seen of a session from outside: its lifecycle and its timeline's delivery lane. */
  datatype View = View(lifecycle: Lifecycle, closed: bool, enqueued: nat, completed: nat)

  predicate ViewOk(v: View) {
    (Terminal(v.lifecycle) ==> v.closed) && v.completed <= v.enqueued
  }

  const FRESH := View(Created, false, 0, 0)

  /** Any number of steps of the session and its environment: the lifecycle never moves back and
      terminal states are final, a closed timeline takes nothing more, deliveries only proceed. */
  predicate Moves(v: View, v': View) {
    && Rank(v.lifecycle) <= Rank(v'.lifecycle)
    && (Terminal(v.lifecycle) ==> v'.lifecycle == v.lifecycle)
    && (v.closed ==> v'.closed && v'.enqueued == v.enqueued)
    && v.enqueued <= v'.enqueued && v.completed <= v'.completed
    && ViewOk(v')
  }

  function RequestStop(v: View): View {
    if Terminal(v.lifecycle) then v else v.(lifecycle := Stopping)
  }
}

/** One session: a lifecycle lane, operation leases and a timeline. */
module SessionModel {
  import opened Common
  import opened Events
  import opened SessionContract
  import T = TimelineModel

  datatype EngineCall = CallStart | CallStop

  /** The lifecycle thread between its mutex regions. `failed` says that an exception is held. */
  datatype Lane =
    | AwaitRequest
    | AskCapabilities
    | StartEngine
    | AnnounceStart
    | EnterRunning
    | RecordFailure
    | AwaitStop(failed: bool)
    | StopEngine(failed: bool)
    | AnnounceEnd(failed: bool)
    | CloseTimeline(failed: bool)
    | Finish(failed: bool)
    | Ended

  /** `attempted` is the lane's decision to start the engine; `engine` the calls made to it, and `threw`
      whether any call to it has thrown. */
  datatype State = State(
    lifecycle: Lifecycle,
    startRequested: bool,
    stopRequested: bool,
    operations: nat,
    failure: bool,
    lane: Lane,
    attempted: bool,
    engine: seq<EngineCall>,
    threw: bool,
    timeline: T.State)

  function Init(): State {
    State(Created, false, false, 0, false, AwaitRequest, false, [], false, T.Init())
  }

  // ---------------------------------------------------------------- callers

  datatype StartReply = AlreadyRunning | RefusedInCallback | CannotRestart | Waits

  /** The region of `start` before its wait. */
  function Start(s: State, inCallback: bool): (State, StartReply) {
    if s.lifecycle.Running? then (s, AlreadyRunning)
    else if inCallback then (s, RefusedInCallback)
    else if s.lifecycle.Created? then (s.(lifecycle := Starting, startRequested := true), Waits)
    else if s.lifecycle.Starting? then (s, Waits)
    else (s, CannotRestart)
  }

  function Stop(s: State): State {
    if Terminal(s.lifecycle) then s else s.(stopRequested := true, lifecycle := Stopping)
  }

  function Acquire(s: State): (State, bool) {
    if s.lifecycle.Running? then (s.(operations := s.operations + 1), true) else (s, false)
  }

  function Release(s: State): State
    requires s.operations > 0
  {
    s.(operations := s.operations - 1)
  }

  // ---------------------------------------------------------------- the lifecycle lane

  predicate LaneEnabled(s: State) {
    match s.lane
    case AwaitRequest => s.startRequested || s.stopRequested
    case AwaitStop(_) => s.stopRequested && s.operations == 0
    case Ended => false
    case _ => true
  }

  /** The lane's next step; `throws` is what the engine does when it is called, and `note` how the
      timeline takes a lifecycle announcement (its allocation may fail). */
  function LaneStep(c: T.Config, s: State, throws: bool, note: T.Action): State
    requires LaneEnabled(s) && note.DoAdmit?
  {
    match s.lane
    case AwaitRequest =>
      var attempt := s.startRequested && !s.stopRequested;
      s.(attempted := attempt, lane := if attempt then AskCapabilities else AwaitStop(false))
    case AskCapabilities => s.(lane := if throws then RecordFailure else StartEngine)
    case StartEngine => s.(engine := s.engine + [CallStart], lane := if throws then RecordFailure else AnnounceStart)
    case AnnounceStart => s.(timeline := T.Next(c, s.timeline, note), lane := EnterRunning)
    case EnterRunning => s.(lifecycle := if s.stopRequested then s.lifecycle else Running, lane := AwaitStop(false))
    case RecordFailure => s.(stopRequested := true, lifecycle := Stopping, lane := AwaitStop(true))
    case AwaitStop(failed) => s.(lane := if s.attempted then StopEngine(failed) else AnnounceEnd(failed))
    case StopEngine(failed) => s.(engine := s.engine + [CallStop], lane := AnnounceEnd(failed || throws))
    case AnnounceEnd(failed) => s.(timeline := T.Next(c, s.timeline, note), lane := CloseTimeline(failed))
    case CloseTimeline(failed) => s.(timeline := T.Close(s.timeline), lane := Finish(failed))
    case Finish(failed) => s.(failure := failed, lifecycle := if failed then Failed else Stopped, lane := Ended)
  }

  /** The steps in which the lane calls the engine. */
  predicate CallsEngine(l: Lane) { l.AskCapabilities? || l.StartEngine? || l.StopEngine? }

  /** A step of the lane, with the record of what the engine did in it. */
  function LaneMove(c: T.Config, s: State, throws: bool, note: T.Action): State
    requires LaneEnabled(s) && note.DoAdmit?
  {
    LaneStep(c, s, throws, note).(threw := s.threw || (throws && CallsEngine(s.lane)))
  }

  lemma MoveRecorded(c: T.Config, s: State, throws: bool, note: T.Action, t: State)
    requires LaneEnabled(s) && note.DoAdmit? && t == LaneStep(c, s, throws, note)
    ensures t.(threw := s.threw || (throws && CallsEngine(s.lane))) == LaneMove(c, s, throws, note)
  {
  }

  /** The kind of event that the lane announces. */
  predicate NoteFits(l: Lane, kind: EventType) {
    && (l.AnnounceStart? ==> kind.SessionStarted?)
    && (l.AnnounceEnd? ==> if l.failed then kind.SessionFailed? else kind.SessionStopped?)
  }

  datatype Action =
    | DoStart(inCallback: bool)
    | DoStop
    | DoAcquire
    | DoRelease
    | DoTimeline(act: T.Action)
    | DoLane(throws: bool, note: T.Action)

  predicate Enabled(s: State, a: Action) {
    match a
    case DoStart(_) => true
    case DoStop => true
    case DoAcquire => true
    case DoRelease => s.operations > 0
    case DoTimeline(act) => !act.DoClose? && T.Enabled(s.timeline, act)
    case DoLane(_, note) => LaneEnabled(s) && note.DoAdmit? && NoteFits(s.lane, note.event.kind)
  }

  function Next(c: T.Config, s: State, a: Action): State
    requires Enabled(s, a)
  {
    match a
    case DoStart(inCallback) => Start(s, inCallback).0
    case DoStop => Stop(s)
    case DoAcquire => Acquire(s).0
    case DoRelease => Release(s)
    case DoTimeline(act) => s.(timeline := T.Next(c, s.timeline, act))
    case DoLane(throws, note) => LaneMove(c, s, throws, note)
  }

  // ---------------------------------------------------------------- the invariant

  /** The lane has passed the drain of admitted operations. */
  predicate Drained(l: Lane) {
    l.StopEngine? || l.AnnounceEnd? || l.CloseTimeline? || l.Finish? || l.Ended?
  }

  ghost predicate LifecycleOk(s: State) {
    && (s.stopRequested <==> s.lifecycle.Stopping? || Terminal(s.lifecycle))
    && (s.lifecycle.Created? ==> !s.startRequested)
    && (s.lifecycle.Starting? || s.lifecycle.Running? ==> s.startRequested)
    && (s.attempted ==> s.startRequested)
    && (s.lifecycle.Running? ==> s.lane.AwaitStop? && s.attempted && !s.lane.failed)
    && (Terminal(s.lifecycle) <==> s.lane.Ended?)
    && (s.lifecycle.Failed? ==> s.failure)
    && (s.operations > 0 ==> s.lane.AwaitStop? && s.attempted)
    && (Drained(s.lane) ==> s.stopRequested && s.operations == 0)
  }

  /** The engine is started at most once and stopped at most once, the stop being owed exactly for
      an attempted start. */
  ghost predicate EngineOk(s: State) {
    match s.lane
    case AwaitRequest => s.engine == [] && !s.attempted
    case AskCapabilities => s.engine == [] && s.attempted
    case StartEngine => s.engine == [] && s.attempted
    case AnnounceStart => s.engine == [CallStart] && s.attempted
    case EnterRunning => s.engine == [CallStart] && s.attempted
    case RecordFailure => (s.engine == [] || s.engine == [CallStart]) && s.attempted
    case AwaitStop(failed) => if s.attempted then s.engine == [CallStart] || (failed && s.engine == []) else s.engine == []
    case StopEngine(failed) => s.attempted && (s.engine == [CallStart] || (failed && s.engine == []))
    case _ => if s.attempted then s.engine == [CallStart, CallStop] || s.engine == [CallStop] else s.engine == []
  }

  ghost predicate ClosedOk(s: State) {
    s.lane.Finish? || s.lane.Ended? <==> s.timeline.closed
  }

  /** What the engine threw decides how the session ends, and nothing else does; without that, a
      started session is running until it is asked to stop. */
  ghost predicate ThrewOk(s: State) {
    && (s.lane.RecordFailure? ==> s.threw)
    && (s.lane.AwaitRequest? || s.lane.AskCapabilities? || s.lane.StartEngine? || s.lane.AnnounceStart? || s.lane.EnterRunning? ==>
          !s.threw)
    && (s.lane.AwaitStop? || s.lane.StopEngine? || s.lane.AnnounceEnd? || s.lane.CloseTimeline? || s.lane.Finish? ==>
          s.threw == s.lane.failed)
    && (s.lane.Ended? ==> (s.threw <==> s.lifecycle.Failed?) && s.failure == s.threw)
    && (!s.lane.Ended? ==> !s.failure)
    && (s.lane.AwaitStop? && s.attempted && !s.threw && !s.stopRequested ==> s.lifecycle.Running?)
  }

  ghost predicate Inv(c: T.Config, s: State) {
    LifecycleOk(s) && EngineOk(s) && ThrewOk(s) && ClosedOk(s) && T.Inv(c, s.timeline)
  }

  lemma NextInv(c: T.Config, s: State, a: Action)
    requires Inv(c, s) && Enabled(s, a)
    ensures Inv(c, Next(c, s, a))
  {
    LifecycleKept(c, s, a);
    ThrewKept(c, s, a);
    TimelineKept(c, s, a);
    ClosedTracksLane(c, s, a);
  }

  lemma ThrewKept(c: T.Config, s: State, a: Action)
    requires LifecycleOk(s) && ThrewOk(s) && Enabled(s, a)
    ensures ThrewOk(Next(c, s, a))
  {
  }

  lemma LifecycleKept(c: T.Config, s: State, a: Action)
    requires LifecycleOk(s) && EngineOk(s) && Enabled(s, a)
    ensures LifecycleOk(Next(c, s, a)) && EngineOk(Next(c, s, a))
  {
    if a.DoLane? { LaneKeepsLifecycle(c, s, a.throws, a.note); }
  }

  lemma LaneKeepsLifecycle(c: T.Config, s: State, throws: bool, note: T.Action)
    requires LifecycleOk(s) && EngineOk(s) && LaneEnabled(s) && note.DoAdmit?
    ensures LifecycleOk(LaneMove(c, s, throws, note)) && EngineOk(LaneMove(c, s, throws, note))
  {
    if s.lane.AwaitStop? || Drained(s.lane) { LaneKeepsEnd(c, s, throws, note); } else { LaneKeepsStart(c, s, throws, note); }
  }

  lemma LaneKeepsStart(c: T.Config, s: State, throws: bool, note: T.Action)
    requires LifecycleOk(s) && EngineOk(s) && LaneEnabled(s) && note.DoAdmit? && !s.lane.AwaitStop? && !Drained(s.lane)
    ensures LifecycleOk(LaneStep(c, s, throws, note)) && EngineOk(LaneStep(c, s, throws, note))
  {
  }

  lemma LaneKeepsEnd(c: T.Config, s: State, throws: bool, note: T.Action)
    requires LifecycleOk(s) && EngineOk(s) && LaneEnabled(s) && note.DoAdmit? && (s.lane.AwaitStop? || Drained(s.lane))
    ensures LifecycleOk(LaneStep(c, s, throws, note)) && EngineOk(LaneStep(c, s, throws, note))
  {
  }

  lemma TimelineKept(c: T.Config, s: State, a: Action)
    requires T.Inv(c, s.timeline) && Enabled(s, a)
    ensures T.Inv(c, Next(c, s, a).timeline)
  {
    if TimelineAct(s, a).Some? {
      ActEnabled(c, s, a);
      T.NextInv(c, s.timeline, TimelineAct(s, a).value, Next(c, s, a).timeline);
    } else {
      TimelineUntouched(c, s, a);
    }
  }

  /** Only the lane closes the timeline, on its way to the end. */
  lemma ClosedTracksLane(c: T.Config, s: State, a: Action)
    requires ClosedOk(s) && Enabled(s, a)
    ensures ClosedOk(Next(c, s, a))
  {
    if TimelineAct(s, a).Some? {
      ActEnabled(c, s, a);
    }
  }

  /** What a session step does to the timeline, if anything. */
  function TimelineAct(s: State, a: Action): Option<T.Action> {
    if a.DoTimeline? then Some(a.act)
    else if a.DoLane? && (s.lane.AnnounceStart? || s.lane.AnnounceEnd?) then Some(a.note)
    else if a.DoLane? && s.lane.CloseTimeline? then Some(T.DoClose)
    else None
  }

  lemma ActEnabled(c: T.Config, s: State, a: Action)
    requires Enabled(s, a) && TimelineAct(s, a).Some?
    ensures T.Enabled(s.timeline, TimelineAct(s, a).value)
    ensures Next(c, s, a).timeline == T.Next(c, s.timeline, TimelineAct(s, a).value)
  {
  }

  // ---------------------------------------------------------------- the contract is kept

  function ViewOf(s: State): View {
    View(s.lifecycle, s.timeline.closed, s.timeline.enqueued, s.timeline.completed)
  }

  /** Refinement: every step of a session is a move its owner allows. */
  lemma StepsRefineContract(c: T.Config, s: State, a: Action)
    requires Inv(c, s) && Enabled(s, a)
    ensures Moves(ViewOf(s), ViewOf(Next(c, s, a)))
  {
    NextInv(c, s, a);
    LifecycleAdvances(c, s, a);
    TimelineAdvances(c, s, a, Next(c, s, a));
  }

  /** What the owner does by asking for a stop, and what it owns at first. */
  lemma StopIsTheOwnersRequest(s: State)
    ensures ViewOf(Stop(s)) == RequestStop(ViewOf(s))
    ensures ViewOf(Init()) == FRESH
  {
  }

  lemma LifecycleAdvances(c: T.Config, s: State, a: Action)
    requires LifecycleOk(s) && EngineOk(s) && Enabled(s, a)
    ensures var s' := Next(c, s, a);
            Rank(s.lifecycle) <= Rank(s'.lifecycle) && (Terminal(s.lifecycle) ==> s'.lifecycle == s.lifecycle)
  {
  }

  /** The timeline's part of a move. */
  predicate Advanced(t: T.State, t': T.State) {
    && t.enqueued <= t'.enqueued && t.completed <= t'.completed <= t'.enqueued
    && (t.closed ==> t'.closed && t'.enqueued == t.enqueued && t'.log == t.log)
  }

  lemma TimelineAdvances(c: T.Config, s: State, a: Action, s': State)
    requires T.Inv(c, s.timeline) && Enabled(s, a) && s' == Next(c, s, a)
    ensures Advanced(s.timeline, s'.timeline)
  {
    if TimelineAct(s, a).Some? {
      ActEnabled(c, s, a);
      ActMoves(c, s.timeline, TimelineAct(s, a).value);
    } else {
      CompletedWithin(c, s.timeline);
      TimelineUntouched(c, s, a);
    }
  }

  lemma TimelineUntouched(c: T.Config, s: State, a: Action)
    requires Enabled(s, a) && TimelineAct(s, a).None?
    ensures Next(c, s, a).timeline == s.timeline
  {
    if a.DoLane? { LaneKeepsTimeline(c, s, a.throws, a.note); }
  }

  lemma LaneKeepsTimeline(c: T.Config, s: State, throws: bool, note: T.Action)
    requires LaneEnabled(s) && note.DoAdmit?
    requires !s.lane.AnnounceStart? && !s.lane.AnnounceEnd? && !s.lane.CloseTimeline?
    ensures LaneMove(c, s, throws, note).timeline == s.timeline
  {
  }

  lemma CompletedWithin(c: T.Config, t: T.State)
    requires T.Inv(c, t)
    ensures t.completed <= t.enqueued
  {
  }

  lemma ActMoves(c: T.Config, t: T.State, act: T.Action)
    requires T.Inv(c, t) && T.Enabled(t, act)
    ensures Advanced(t, T.Next(c, t, act))
  {
    T.NextInv(c, t, act, T.Next(c, t, act));
    CompletedWithin(c, T.Next(c, t, act));
  }

  // ---------------------------------------------------------------- whole runs

  ghost predicate StepAt(c: T.Config, run: seq<State>, i: nat)
    requires i + 1 < |run|
  {
    exists a :: Enabled(run[i], a) && run[i + 1] == Next(c, run[i], a)
  }

  /** Any interleaving of callers, the lifecycle lane, producers and the timeline's dispatcher. */
  ghost predicate IsRun(c: T.Config, run: seq<State>) {
    && T.ValidConfig(c)
    && |run| > 0 && run[0] == Init()
    && forall i :: 0 <= i < |run| - 1 ==> StepAt(c, run, i)
  }

  lemma InitInv(c: T.Config)
    requires T.ValidConfig(c)
    ensures Inv(c, Init())
  {
  }

  lemma StepKeeps(c: T.Config, run: seq<State>, i: nat)
    requires IsRun(c, run) && 0 < i < |run| && Inv(c, run[i - 1])
    ensures Inv(c, run[i])
  {
    assert StepAt(c, run, i - 1);
    var a :| Enabled(run[i - 1], a) && run[i] == Next(c, run[i - 1], a);
    NextInv(c, run[i - 1], a);
  }

  lemma {:induction false} RunsKeepLifecycle(c: T.Config, run: seq<State>, i: nat)
    requires IsRun(c, run) && i < |run|
    ensures Inv(c, run[i])
  {
    if i == 0 {
      InitInv(c);
    } else {
      RunsKeepLifecycle(c, run, i - 1);
      StepKeeps(c, run, i);
    }
  }

  /** What later states owe to earlier ones. */
  ghost predicate Follows(s: State, s': State) {
    && Moves(ViewOf(s), ViewOf(s'))
    && s.engine <= s'.engine
    && (Drained(s.lane) ==> Drained(s'.lane) && s'.attempted == s.attempted)
    && (Terminal(s.lifecycle) ==> s'.timeline.log == s.timeline.log)
  }

  lemma OneStepFollows(c: T.Config, run: seq<State>, i: nat)
    requires IsRun(c, run) && i + 1 < |run|
    ensures Follows(run[i], run[i + 1])
  {
    RunsKeepLifecycle(c, run, i);
    assert StepAt(c, run, i);
    var a :| Enabled(run[i], a) && run[i + 1] == Next(c, run[i], a);
    StepsRefineContract(c, run[i], a);
    TimelineAdvances(c, run[i], a, run[i + 1]);
  }

  /** The lifecycle never moves backwards, terminal states are final and take no more events, and
      the engine's call history only grows. */
  lemma {:induction false} LifecycleMovesForward(c: T.Config, run: seq<State>, i: nat, j: nat)
    requires IsRun(c, run) && i <= j < |run|
    ensures Follows(run[i], run[j])
    decreases j
  {
    if i < j {
      LifecycleMovesForward(c, run, i, j - 1);
      OneStepFollows(c, run, j - 1);
    } else {
      ViewHolds(c, run, i);
    }
  }

  lemma ViewHolds(c: T.Config, run: seq<State>, i: nat)
    requires IsRun(c, run) && i < |run|
    ensures ViewOk(ViewOf(run[i]))
  {
    RunsKeepLifecycle(c, run, i);
  }

  function Count(calls: seq<EngineCall>, call: EngineCall): nat {
    if calls == [] then 0 else (if calls[0] == call then 1 else 0) + Count(calls[1..], call)
  }

  /** In every run the engine is started at most once and stopped at most once; a stop follows an
      attempted start and comes after it; a terminal session that attempted a start has stopped the
      engine, one that did not never touched it. */
  lemma EngineCalledAtMostOnce(c: T.Config, run: seq<State>, i: nat)
    requires IsRun(c, run) && i < |run|
    ensures Count(run[i].engine, CallStart) <= 1 && Count(run[i].engine, CallStop) <= 1
    ensures Count(run[i].engine, CallStop) == 1 ==> run[i].attempted && run[i].engine[|run[i].engine| - 1] == CallStop
    ensures Terminal(run[i].lifecycle) ==> (Count(run[i].engine, CallStop) == 1 <==> run[i].attempted)
    ensures !run[i].attempted ==> run[i].engine == []
  {
    RunsKeepLifecycle(c, run, i);
    var e := run[i].engine;
    assert e == [] || e == [CallStart] || e == [CallStop] || e == [CallStart, CallStop];
    assert [CallStart, CallStop][1..] == [CallStop] && [CallStart][1..] == [] && [CallStop][1..] == [];
  }

  /** How a session ends: Failed if and only if a call to the engine threw, be it the question for its
      capabilities, its start or its stop; otherwise Stopped. Its failure says the same. */
  lemma FailedIffEngineThrew(c: T.Config, run: seq<State>, i: nat)
    requires IsRun(c, run) && i < |run|
    ensures Terminal(run[i].lifecycle) ==> (run[i].lifecycle.Failed? <==> run[i].threw) && (run[i].lifecycle.Stopped? <==> !run[i].threw)
    ensures run[i].failure <==> run[i].lifecycle.Failed?
  {
    RunsKeepLifecycle(c, run, i);
  }

  lemma StartLeaves(c: T.Config, s: State, a: Action)
    requires Enabled(s, a) && s.lane.EnterRunning? && !Next(c, s, a).lane.EnterRunning?
    ensures Next(c, s, a).lane == AwaitStop(false)
    ensures if s.stopRequested then Next(c, s, a).lifecycle == s.lifecycle else Next(c, s, a).lifecycle.Running?
  {
  }

  /** A start that returned makes the session Running, exactly if no stop has been requested by then. */
  lemma ReturnedStartRuns(c: T.Config, run: seq<State>, i: nat)
    requires IsRun(c, run) && 0 < i < |run| && run[i - 1].lane.EnterRunning? && !run[i].lane.EnterRunning?
    ensures run[i - 1].engine == [CallStart] && !run[i - 1].threw
    ensures run[i].lifecycle.Running? <==> !run[i - 1].stopRequested
  {
    RunsKeepLifecycle(c, run, i - 1);
    assert StepAt(c, run, i - 1);
    var a :| Enabled(run[i - 1], a) && run[i] == Next(c, run[i - 1], a);
    StartLeaves(c, run[i - 1], a);
  }

  /** And it stays so: a session whose start returned, that is waiting and that nobody asked to stop, is
      Running. */
  lemma WaitingMeansRunning(c: T.Config, run: seq<State>, i: nat)
    requires IsRun(c, run) && i < |run| && run[i].lane.AwaitStop?
    ensures run[i].lifecycle.Running? <==> run[i].attempted && !run[i].threw && !run[i].stopRequested
  {
    RunsKeepLifecycle(c, run, i);
  }

  /** The engine is stopped with no operation inside, and none is ever admitted afterwards. */
  lemma StopIsQuiescent(c: T.Config, run: seq<State>, i: nat, j: nat)
    requires IsRun(c, run) && i <= j < |run| && run[i].lane.StopEngine?
    ensures run[i].operations == 0 && run[j].operations == 0 && !run[j].lifecycle.Running?
    ensures Acquire(run[j]).1 == false
  {
    RunsKeepLifecycle(c, run, i);
    RunsKeepLifecycle(c, run, j);
    LifecycleMovesForward(c, run, i, j);
  }

  /** A terminal session's timeline rejects every later event. */
  lemma TerminalRejectsEvents(c: T.Config, run: seq<State>, i: nat, j: nat, e: Event, now: int, memory: bool)
    requires IsRun(c, run) && i <= j < |run| && Terminal(run[i].lifecycle)
    ensures T.Admit(c, run[j].timeline, e, now, memory).1 == T.Appended(T.Closed, 0, false)
    ensures run[j].timeline.log == run[i].timeline.log
  {
    RunsKeepLifecycle(c, run, i);
    LifecycleMovesForward(c, run, i, j);
  }
}

/** The session object: its fields, and the mutex regions of its methods and of its lifecycle lane. */
module ConversationSessions {
  import opened SessionContract
  import opened SessionModel
  import T = TimelineModel
  import EventTimelines

  class ConversationSession {
    const timeline: EventTimelines.EventTimeline
    var lifecycle: Lifecycle
    var startRequested: bool
    var stopRequested: bool
    var operations: nat
    var failure: bool
    var lane: Lane
    var attempted: bool
    ghost var engine: seq<EngineCall>
    ghost var threw: bool

    ghost function Model(): State
      reads this, timeline
    {
      State(lifecycle, startRequested, stopRequested, operations, failure, lane, attempted, engine, threw, timeline.Model())
    }

    ghost predicate Valid()
      reads this, timeline
    {
      Inv(timeline.config, Model())
    }

    constructor (config: T.Config)
      requires T.ValidConfig(config)
      ensures fresh(timeline) && timeline.config == config && Model() == Init() && Valid()
    {
      timeline := new EventTimelines.EventTimeline.Build(config);
      lifecycle, startRequested, stopRequested, operations, failure := Created, false, false, 0, false;
      lane, attempted, engine, threw := AwaitRequest, false, [], false;
    }

    /** Inside one of the session's own callbacks a start cannot wait. */
    method RequestStart(inCallback: bool) returns (r: StartReply)
      modifies this
      ensures (Model(), r) == Start(old(Model()), inCallback)
    {
      if lifecycle.Running? { return AlreadyRunning; }
      if inCallback { return RefusedInCallback; }
      if !lifecycle.Created? && !lifecycle.Starting? { return CannotRestart; }
      if lifecycle.Created? {
        lifecycle := Starting;
        startRequested := true;
      }
      return Waits;
    }

    method RequestStopping()
      modifies this
      ensures Model() == Stop(old(Model()))
    {
      if Terminal(lifecycle) { return; }
      stopRequested := true;
      lifecycle := Stopping;
    }

    method AcquireOperation() returns (admitted: bool)
      modifies this`operations
      ensures (Model(), admitted) == Acquire(old(Model()))
    {
      if !lifecycle.Running? { return false; }
      operations := operations + 1;
      return true;
    }

    method ReleaseOperation()
      requires operations > 0
      modifies this`operations
      ensures Model() == Release(old(Model()))
    {
      operations := operations - 1;
    }

    /** The lane up to the point where it waits to be stopped. */
    method AdvanceStart(throws: bool, note: T.Action)
      requires LaneEnabled(Model()) && note.DoAdmit? && !lane.AwaitStop? && !Drained(lane)
      modifies this, timeline
      ensures Model() == LaneStep(timeline.config, old(Model()), throws, note)
    {
      match lane
      case AwaitRequest =>
        attempted := startRequested && !stopRequested;
        lane := if attempted then AskCapabilities else AwaitStop(false);
      case AskCapabilities =>
        lane := if throws then RecordFailure else StartEngine;
      case StartEngine =>
        engine := engine + [CallStart];
        lane := if throws then RecordFailure else AnnounceStart;
      case AnnounceStart =>
        var _ := timeline.Append(note.event, note.now, note.memory);
        lane := EnterRunning;
      case EnterRunning =>
        if !stopRequested { lifecycle := Running; }
        lane := AwaitStop(false);
      case RecordFailure =>
        stopRequested := true;
        lifecycle := Stopping;
        lane := AwaitStop(true);
    }

    /** The lane from its wait for a stop to the terminal state. */
    method AdvanceStop(throws: bool, note: T.Action)
      requires LaneEnabled(Model()) && note.DoAdmit? && (lane.AwaitStop? || Drained(lane))
      modifies this, timeline
      ensures Model() == LaneStep(timeline.config, old(Model()), throws, note)
    {
      match lane
      case AwaitStop(failed) =>
        lane := if attempted then StopEngine(failed) else AnnounceEnd(failed);
      case StopEngine(failed) =>
        engine := engine + [CallStop];
        lane := AnnounceEnd(failed || throws);
      case AnnounceEnd(failed) =>
        var _ := timeline.Append(note.event, note.now, note.memory);
        lane := CloseTimeline(failed);
      case CloseTimeline(failed) =>
        timeline.CloseAdmission();
        lane := Finish(failed);
      case Finish(failed) =>
        failure := failed;
        lifecycle := if failed then Failed else Stopped;
        lane := Ended;
    }

    /** One step of the lane. */
    method AdvanceLane(throws: bool, note: T.Action)
      requires LaneEnabled(Model()) && note.DoAdmit?
      modifies this, timeline
      ensures Model() == LaneMove(timeline.config, old(Model()), throws, note)
    {
      ghost var s := Model();
      if lane.AwaitStop? || Drained(lane) { AdvanceStop(throws, note); } else { AdvanceStart(throws, note); }
      MoveRecorded(timeline.config, s, throws, note, Model());
      threw := s.threw || (throws && CallsEngine(s.lane));
    }

    /** Any region, whoever enters it, and any step of the timeline in between. */
    method Perform(a: Action)
      requires Valid() && Enabled(Model(), a) && (a.DoLane? ==> a.note.DoAdmit?)
      modifies this, timeline
      ensures Valid() && Model() == Next(timeline.config, old(Model()), a)
    {
      NextInv(timeline.config, Model(), a);
      match a
      case DoStart(inCallback) => var _ := RequestStart(inCallback);
      case DoStop => RequestStopping();
      case DoAcquire => var _ := AcquireOperation();
      case DoRelease => ReleaseOperation();
      case DoTimeline(act) => timeline.Perform(act);
      case DoLane(throws, note) =>
        AdvanceLane(throws, note);
    }
  }
}

/** The runtime manager: a registry of session incarnations, a bounded startup queue served by
    workers, one reaper that retires sessions and one dispatcher that delivers notifications.
    Every mutex region is one transition; factories, engines and observers act in between. */
module RuntimeModel {
  import opened Common
  import S = SessionContract

  datatype Lifecycle = Running | Draining | Stopped

  datatype Phase = Reserved | Starting | Running | StopRequested | Retiring

  datatype Outcome =
    | NoOutcome
    | Started
    | Removed
    | RuntimeShutdown
    | StartupFailed
    | EngineFailure
    | ReportedFailure
    | LifecycleFailure
    | UnexpectedStop

  predicate Fatal(o: Outcome) {
    o.StartupFailed? || o.EngineFailure? || o.ReportedFailure? || o.LifecycleFailure? || o.UnexpectedStop?
  }

  datatype Admission =
    | Accepted
    | InvalidRequest
    | DuplicateId
    | CapacityReached
    | StartupQueueFull
    | RuntimeDraining

  datatype Removal = Requested | AlreadyRequested | NotFound | StaleHandle

  datatype Handle = Handle(runtime: nat, id: string, generation: nat)

  datatype Kind = ReservedNote | StartedNote | StopNote | RetiredNote

  datatype Notice = Notice(kind: Kind, outcome: Outcome)

  datatype Notification = Notification(sequence: nat, handle: Handle, notice: Notice)

  /** `interval` is how long the reaper sleeps between scans; `observed` says that a sink is installed; `room` whether the allocation for the notification
      with a given sequence number succeeds. */
  datatype Config = Config(
    runtime: nat,
    maxSessions: nat,
    maxPending: nat,
    workers: nat,
    maxNotifications: nat,
    maxIdBytes: nat,
    interval: int,
    observed: bool,
    room: nat -> bool)

  predicate ValidConfig(c: Config) {
    c.maxSessions > 0 && c.maxPending > 0 && c.workers > 0 && c.maxNotifications > 0 && c.maxIdBytes > 0 && c.interval > 0
  }

  /** The session an incarnation owns: held by its entry, taken out by the reaper, destroyed. */
  datatype Session =
    | Absent
    | Held(view: S.View)
    | Taken(view: S.View)
    | Destroyed(view: S.View)

  /** Which thread is responsible for an incarnation's next step. */
  datatype Place = Queued | AtWorker(worker: nat) | Idle | AtReaper | Gone

  /** How an incarnation's startup went: not attempted yet, the factory or the session's start threw,
      the session came too late to be started, or its start returned. */
  datatype Launch = Unlaunched | FactoryThrew | StartThrew | Preempted | StartReturned

  /** What the worker found when it caught an exception: whether a stop had been requested, whether a
      session had been installed, and whether that session reports a failure of its own. */
  datatype Caught = Caught(stopped: bool, installed: bool, failure: bool)

  /** One incarnation. Its two tickets are the values their promises were given, `trace` what was
      published about it before any drop, and `reasons` the outcomes assigned to it so far. */
  datatype Entry = Entry(
    id: string,
    phase: Phase,
    outcome: Outcome,
    operations: nat,
    stopRequested: bool,
    startupDone: bool,
    cancelled: bool,
    session: Session,
    started: seq<Outcome>,
    retired: seq<Outcome>,
    trace: seq<Notice>,
    reasons: seq<Outcome>,
    place: Place,
    launch: Launch,
    caught: Option<Caught>)

  datatype Worker =
    | Waiting
    | Calling(entry: nat)
    | Launching(entry: nat)
    | Catching(entry: nat)
    | Finishing(entry: nat, failed: bool)
    | Exited

  datatype Reaper =
    | Resting
    | Scanning
    | Looking(entry: nat)
    | Reporting(entry: nat, lifecycle: S.Lifecycle)
    | Flushing(entry: nat)
    | Claiming(entry: nat)
    | TearingDown(entry: nat)
    | Erasing(entry: nat)
    | Ended

  /** The notification queue and its dispatcher. `log` is everything ever enqueued. */
  datatype Mail = Mail(
    queue: seq<Notification>,
    sequence: nat,
    enqueued: nat,
    delivered: nat,
    dropped: nat,
    firstDropped: nat,
    lastDropped: nat,
    watermark: nat,
    observerFailures: nat,
    inFlight: Option<Notification>,
    ended: bool,
    log: seq<Notification>)

  datatype Counters = Counters(admitted: nat, retired: nat, failures: nat, rejected: map<Admission, nat>)

  /** `entries` is the heap of incarnations; the one at index `e` has generation `e + 1`. */
  datatype State = State(
    lifecycle: Lifecycle,
    registry: map<string, nat>,
    entries: seq<Entry>,
    pending: seq<nat>,
    counters: Counters,
    mail: Mail,
    workers: seq<Worker>,
    workersDone: nat,
    reaper: Reaper,
    todo: set<nat>)

  function Init(c: Config): State {
    State(Lifecycle.Running, map[], [], [], Counters(0, 0, 0, map[]),
          Mail([], 1, 0, 0, 0, 0, 0, 0, 0, None, false, []),
          seq(c.workers, i => Waiting), 0, Resting, {})
  }

  function HandleOf(c: Config, entries: seq<Entry>, e: nat): Handle
    requires e < |entries|
  {
    Handle(c.runtime, entries[e].id, e + 1)
  }

  function Matching(c: Config, s: State, h: Handle): Option<nat> {
    if h.runtime != c.runtime || h.id !in s.registry || s.registry[h.id] + 1 != h.generation then None
    else Some(s.registry[h.id])
  }

  // ---------------------------------------------------------------- notifications

  /** Observations are expendable: a full queue or a failed allocation only counts the loss. */
  function Publish(c: Config, m: Mail, h: Handle, n: Notice): Mail {
    if !c.observed then m
    else if |m.queue| < c.maxNotifications && c.room(m.sequence) then
      var item := Notification(m.sequence, h, n);
      m.(queue := m.queue + [item], log := m.log + [item],
         sequence := m.sequence + 1, enqueued := m.enqueued + 1,
         watermark := if m.watermark < |m.queue| + 1 then |m.queue| + 1 else m.watermark)
    else
      m.(sequence := m.sequence + 1, dropped := m.dropped + 1,
         firstDropped := if m.firstDropped == 0 then m.sequence else m.firstDropped,
         lastDropped := m.sequence)
  }

  function Collect(m: Mail): Mail
    requires m.queue != []
  {
    m.(queue := m.queue[1..], inFlight := Some(m.queue[0]))
  }

  function Delivered(m: Mail, error: bool): Mail {
    m.(inFlight := None, delivered := m.delivered + 1,
       observerFailures := m.observerFailures + if error then 1 else 0)
  }

  // ---------------------------------------------------------------- stopping an incarnation

  /** A first request always counts; a later one only where a fatal cause replaces a normal one. */
  predicate TakesEffect(e: Entry, reason: Outcome) {
    !e.phase.Retiring? && (!e.stopRequested || (Fatal(reason) && !Fatal(e.outcome)))
  }

  function AskSession(x: Session): Session {
    if x.Held? then Held(S.RequestStop(x.view)) else x
  }

  function StopChange(e: Entry, reason: Outcome): Entry {
    if !TakesEffect(e, reason) then e
    else
      var cancels := !e.stopRequested && e.phase.Reserved?;
      e.(outcome := reason, reasons := e.reasons + [reason], stopRequested := true, phase := StopRequested,
         cancelled := e.cancelled || cancels, startupDone := e.startupDone || cancels,
         place := if cancels then Idle else e.place, session := AskSession(e.session),
         trace := if e.stopRequested then e.trace else e.trace + [Notice(StopNote, reason)])
  }

  function StopEntry(c: Config, s: State, e: nat, reason: Outcome): State
    requires e < |s.entries|
  {
    var x := s.entries[e];
    if !TakesEffect(x, reason) then s
    else
      s.(entries := s.entries[e := StopChange(x, reason)],
         pending := if !x.stopRequested && x.phase.Reserved? then RemoveFirst(s.pending, e) else s.pending,
         mail := if x.stopRequested then s.mail
                 else Publish(c, s.mail, HandleOf(c, s.entries, e), Notice(StopNote, reason)))
  }

  // ---------------------------------------------------------------- clients

  function Reserve(id: string): Entry {
    Entry(id, Reserved, NoOutcome, 0, false, false, false, Absent, [], [], [Notice(ReservedNote, NoOutcome)], [], Queued,
          Unlaunched, None)
  }

  /** The admission decision, in the order in which the source tests its conditions. */
  function Admit(c: Config, s: State, id: string, callable: bool): Admission {
    if id == "" || |id| > c.maxIdBytes || !callable then InvalidRequest
    else if !s.lifecycle.Running? then RuntimeDraining
    else if id in s.registry then DuplicateId
    else if |s.registry| >= c.maxSessions then CapacityReached
    else if |s.pending| >= c.maxPending then StartupQueueFull
    else Accepted
  }

  function Reject(k: Counters, a: Admission): Counters {
    k.(rejected := k.rejected[a := if a in k.rejected then k.rejected[a] + 1 else 1])
  }

  function Add(c: Config, s: State, id: string, callable: bool): State {
    var a := Admit(c, s, id, callable);
    if !a.Accepted? then s.(counters := Reject(s.counters, a))
    else
      var e := |s.entries|;
      s.(entries := s.entries + [Reserve(id)],
         registry := s.registry[id := e],
         pending := s.pending + [e],
         counters := s.counters.(admitted := s.counters.admitted + 1),
         mail := Publish(c, s.mail, Handle(c.runtime, id, e + 1), Notice(ReservedNote, NoOutcome)))
  }

  function RemovalReply(c: Config, s: State, h: Handle): Removal {
    if h.runtime != c.runtime then StaleHandle
    else if h.id !in s.registry then NotFound
    else if s.registry[h.id] + 1 != h.generation then StaleHandle
    else if s.registry[h.id] < |s.entries| && s.entries[s.registry[h.id]].stopRequested then AlreadyRequested
    else Requested
  }

  function Remove(c: Config, s: State, h: Handle, reason: Outcome): State {
    var e := Matching(c, s, h);
    if e.Some? && e.value < |s.entries| then StopEntry(c, s, e.value, reason) else s
  }

  /** The incarnation on which a handle may start an operation now. */
  function Admissible(c: Config, s: State, h: Handle): Option<nat> {
    var e := Matching(c, s, h);
    if && s.lifecycle.Running? && e.Some? && e.value < |s.entries|
       && s.entries[e.value].phase.Running? && !s.entries[e.value].stopRequested then e
    else None
  }

  function OpBegin(c: Config, s: State, h: Handle): State {
    var e := Admissible(c, s, h);
    if e.None? || e.value >= |s.entries| then s
    else SetEntry(s, e.value, s.entries[e.value].(operations := s.entries[e.value].operations + 1))
  }

  function OpEnd(s: State, e: nat): State
    requires e < |s.entries| && s.entries[e].operations > 0
  {
    SetEntry(s, e, s.entries[e].(operations := s.entries[e].operations - 1))
  }

  function StopAll(c: Config, s: State, order: seq<nat>): (r: State)
    requires forall k :: 0 <= k < |order| ==> order[k] < |s.entries|
    ensures |r.entries| == |s.entries|
    decreases |order|
  {
    if order == [] then s
    else StopEntry(c, StopAll(c, s, order[..|order| - 1]), order[|order| - 1], RuntimeShutdown)
  }

  /** `order` is the order in which the registry is walked. */
  function RequestShutdown(c: Config, s: State, order: seq<nat>): State
    requires forall k :: 0 <= k < |order| ==> order[k] < |s.entries|
  {
    if !s.lifecycle.Running? then s
    else StopAll(c, s.(lifecycle := Draining), order)
  }

  // ---------------------------------------------------------------- startup workers

  function SetWorker(s: State, w: nat, pc: Worker): State
    requires w < |s.workers|
  {
    s.(workers := s.workers[w := pc])
  }

  function SetEntry(s: State, e: nat, x: Entry): State
    requires e < |s.entries|
  {
    s.(entries := s.entries[e := x])
  }

  function Take(s: State, w: nat): State
    requires w < |s.workers| && s.pending != [] && s.pending[0] < |s.entries|
  {
    var e := s.pending[0];
    var x := s.entries[e];
    SetWorker(SetEntry(s.(pending := s.pending[1..]), e,
                       if x.stopRequested then x.(place := AtWorker(w)) else x.(phase := Starting, place := AtWorker(w))),
              w, if x.stopRequested then Finishing(e, false) else Calling(e))
  }

  function Install(s: State, w: nat): State
    requires w < |s.workers| && s.workers[w].Calling? && s.workers[w].entry < |s.entries|
  {
    var e := s.workers[w].entry;
    var x := s.entries[e];
    SetWorker(SetEntry(s, e, InstallChange(x)), w, if x.stopRequested then Finishing(e, false) else Launching(e))
  }

  function InstallChange(x: Entry): Entry {
    if x.stopRequested then x.(session := Held(S.RequestStop(S.FRESH)), launch := Preempted) else x.(session := Held(S.FRESH))
  }

  /** What the factory, or the start of the session, did to the worker that waits for it. */
  function Launched(s: State, w: nat, how: Launch): State
    requires w < |s.workers| && !s.workers[w].Waiting? && !s.workers[w].Exited? && s.workers[w].entry < |s.entries|
  {
    var e := s.workers[w].entry;
    SetWorker(SetEntry(s, e, s.entries[e].(launch := how)),
              w, if how.StartReturned? then Finishing(e, false) else Catching(e))
  }

  /** A session's own failure, which it reports exactly when it has ended as Failed. */
  predicate ReportsFailure(x: Session) { x.Held? && x.view.lifecycle.Failed? }

  /** Cancellation racing the start is not itself a startup failure. */
  function Catch(s: State, w: nat): State
    requires w < |s.workers| && s.workers[w].Catching? && s.workers[w].entry < |s.entries|
  {
    var e := s.workers[w].entry;
    var x := s.entries[e];
    SetWorker(SetEntry(s, e, x.(caught := Some(Caught(x.stopRequested, x.session.Held?, ReportsFailure(x.session))))),
              w, Finishing(e, !x.stopRequested || !x.session.Held? || ReportsFailure(x.session)))
  }

  function FinishChange(x: Entry): Entry {
    if x.stopRequested then x.(startupDone := true, started := x.started + [x.outcome], place := Idle)
    else x.(startupDone := true, phase := Phase.Running, started := x.started + [Started], place := Idle,
            trace := x.trace + [Notice(StartedNote, Started)])
  }

  /** The ticket is given, and the incarnation handed back. */
  function HandBack(c: Config, s: State, w: nat, e: nat): State
    requires w < |s.workers| && e < |s.entries|
  {
    var x := s.entries[e];
    var t := SetWorker(SetEntry(s, e, FinishChange(x)), w, Waiting);
    if x.stopRequested then t
    else t.(mail := Publish(c, t.mail, HandleOf(c, t.entries, e), Notice(StartedNote, Started)))
  }

  function Finish(c: Config, s: State, w: nat): State
    requires w < |s.workers| && s.workers[w].Finishing? && s.workers[w].entry < |s.entries|
  {
    var e := s.workers[w].entry;
    HandBack(c, if s.workers[w].failed then StopEntry(c, s, e, StartupFailed) else s, w, e)
  }

  function Exit(s: State, w: nat): State
    requires w < |s.workers|
  {
    SetWorker(s, w, Exited).(workersDone := s.workersDone + 1)
  }

  // ---------------------------------------------------------------- the reaper

  function ScanBegin(c: Config, s: State): State {
    if s.registry == map[] && !s.lifecycle.Running? && s.workersDone == c.workers then s.(reaper := Reaper.Ended)
    else s.(reaper := Scanning, todo := s.registry.Values)
  }

  function Visit(s: State, e: nat): State
    requires e < |s.entries|
  {
    var x := s.entries[e];
    s.(todo := s.todo - {e},
       reaper := if !x.startupDone then Scanning else if x.session.Held? then Looking(e) else Claiming(e))
  }

  function Read(s: State): State
    requires s.reaper.Looking? && s.reaper.entry < |s.entries| && s.entries[s.reaper.entry].session.Held?
  {
    var l := s.entries[s.reaper.entry].session.view.lifecycle;
    s.(reaper := if S.Terminal(l) then Reporting(s.reaper.entry, l) else Scanning)
  }

  function Report(c: Config, s: State): State
    requires s.reaper.Reporting? && s.reaper.entry < |s.entries|
  {
    var e := s.reaper.entry;
    var t :=
      if s.reaper.lifecycle.Failed? then StopEntry(c, s, e, LifecycleFailure)
      else if !s.entries[e].stopRequested then StopEntry(c, s, e, UnexpectedStop)
      else s;
    t.(reaper := Flushing(e))
  }

  function ClaimChange(x: Entry): Entry {
    x.(phase := Retiring, place := AtReaper, session := if x.session.Held? then Taken(x.session.view) else x.session)
  }

  function Claim(s: State): State
    requires s.reaper.Claiming? && s.reaper.entry < |s.entries|
  {
    var e := s.reaper.entry;
    var x := s.entries[e];
    if x.operations > 0 then s.(reaper := Scanning)
    else SetEntry(s, e, ClaimChange(x)).(reaper := TearingDown(e))
  }

  /** Engine and session are destroyed before what they depend on. */
  function TearChange(x: Entry): Entry {
    x.(session := if x.session.Taken? then Destroyed(x.session.view) else x.session)
  }

  function Teardown(s: State): State
    requires s.reaper.TearingDown? && s.reaper.entry < |s.entries|
  {
    var e := s.reaper.entry;
    SetEntry(s, e, TearChange(s.entries[e])).(reaper := Erasing(e))
  }

  function EraseChange(x: Entry): Entry {
    x.(place := Gone, retired := x.retired + [x.outcome],
       started := if x.cancelled then x.started + [x.outcome] else x.started,
       trace := x.trace + [Notice(RetiredNote, x.outcome)])
  }

  function Erase(c: Config, s: State): State
    requires s.reaper.Erasing? && s.reaper.entry < |s.entries|
  {
    var e := s.reaper.entry;
    var x := s.entries[e];
    SetEntry(s, e, EraseChange(x))
    .(reaper := Scanning,
      registry := s.registry - {x.id},
      counters := s.counters.(retired := s.counters.retired + 1,
                              failures := s.counters.failures + if Fatal(x.outcome) then 1 else 0),
      mail := Publish(c, s.mail, HandleOf(c, s.entries, e), Notice(RetiredNote, x.outcome)))
  }

  // ---------------------------------------------------------------- the whole system

  datatype Action =
    | DoAdd(id: string, callable: bool)
    | DoRemove(handle: Handle, reason: Outcome)
    | DoOpBegin(handle: Handle)
    | DoOpEnd(entry: nat)
    | DoShutdown(order: seq<nat>)
    | DoTake(worker: nat)
    | DoFactoryThrows(worker: nat)
    | DoInstall(worker: nat)
    | DoStartReturns(worker: nat)
    | DoStartThrows(worker: nat)
    | DoCatch(worker: nat)
    | DoFinish(worker: nat)
    | DoExit(worker: nat)
    | DoScanBegin
    | DoVisit(entry: nat)
    | DoRead
    | DoReport
    | DoFlush(flushed: bool)
    | DoClaim
    | DoTeardown
    | DoErase
    | DoScanEnd
    | DoCollect
    | DoDeliver(error: bool)
    | DoDispatchEnd
    | DoSession(entry: nat, view: S.View)

  predicate WorkerAt(s: State, w: nat) {
    w < |s.workers| && !s.workers[w].Waiting? && !s.workers[w].Exited? && s.workers[w].entry < |s.entries|
  }

  predicate ReaperAt(s: State) {
    !s.reaper.Resting? && !s.reaper.Scanning? && !s.reaper.Ended? && s.reaper.entry < |s.entries|
  }

  /** A flush reports success only when all that the timeline had enqueued has been delivered. */
  predicate FlushedAll(x: Session) { x.Held? && x.view.completed >= x.view.enqueued }

  predicate Alive(x: Session) { x.Held? || x.Taken? }

  predicate IsReason(o: Outcome) { !o.NoOutcome? && !o.Started? }

  predicate Enabled(s: State, a: Action) {
    match a
    case DoAdd(_, _) => true
    case DoRemove(_, reason) => IsReason(reason)
    case DoOpBegin(_) => true
    case DoOpEnd(e) => e < |s.entries| && s.entries[e].operations > 0
    case DoShutdown(order) =>
      (forall k :: 0 <= k < |order| ==> order[k] < |s.entries|) && (set e | e in order) == s.registry.Values
    case DoTake(w) => w < |s.workers| && s.workers[w].Waiting? && s.pending != [] && s.pending[0] < |s.entries|
    case DoFactoryThrows(w) => WorkerAt(s, w) && s.workers[w].Calling?
    case DoInstall(w) => WorkerAt(s, w) && s.workers[w].Calling?
    case DoStartReturns(w) => WorkerAt(s, w) && s.workers[w].Launching?
    case DoStartThrows(w) => WorkerAt(s, w) && s.workers[w].Launching?
    case DoCatch(w) => WorkerAt(s, w) && s.workers[w].Catching?
    case DoFinish(w) => WorkerAt(s, w) && s.workers[w].Finishing?
    case DoExit(w) => w < |s.workers| && s.workers[w].Waiting? && s.pending == [] && !s.lifecycle.Running?
    case DoScanBegin => s.reaper.Resting?
    case DoVisit(e) => s.reaper.Scanning? && e in s.todo && e < |s.entries|
    case DoRead => ReaperAt(s) && s.reaper.Looking? && s.entries[s.reaper.entry].session.Held?
    case DoReport => ReaperAt(s) && s.reaper.Reporting?
    case DoFlush(flushed) =>
      ReaperAt(s) && s.reaper.Flushing? && (flushed ==> FlushedAll(s.entries[s.reaper.entry].session))
    case DoClaim => ReaperAt(s) && s.reaper.Claiming?
    case DoTeardown => ReaperAt(s) && s.reaper.TearingDown?
    case DoErase => ReaperAt(s) && s.reaper.Erasing?
    case DoScanEnd => s.reaper.Scanning? && s.todo == {}
    case DoCollect => s.mail.inFlight.None? && !s.mail.ended && s.mail.queue != []
    case DoDeliver(_) => s.mail.inFlight.Some?
    case DoDispatchEnd => s.mail.inFlight.None? && !s.mail.ended && s.mail.queue == [] && s.reaper.Ended?
    case DoSession(e, view) => e < |s.entries| && Alive(s.entries[e].session) && S.Moves(s.entries[e].session.view, view)
  }

  function Next(c: Config, s: State, a: Action): State
    requires Enabled(s, a)
  {
    match a
    case DoAdd(id, callable) => Add(c, s, id, callable)
    case DoRemove(handle, reason) => Remove(c, s, handle, reason)
    case DoOpBegin(handle) => OpBegin(c, s, handle)
    case DoOpEnd(e) => OpEnd(s, e)
    case DoShutdown(order) => RequestShutdown(c, s, order)
    case DoTake(w) => Take(s, w)
    case DoFactoryThrows(w) => Launched(s, w, FactoryThrew)
    case DoInstall(w) => Install(s, w)
    case DoStartReturns(w) => Launched(s, w, StartReturned)
    case DoStartThrows(w) => Launched(s, w, StartThrew)
    case DoCatch(w) => Catch(s, w)
    case DoFinish(w) => Finish(c, s, w)
    case DoExit(w) => Exit(s, w)
    case DoScanBegin => ScanBegin(c, s)
    case DoVisit(e) => Visit(s, e)
    case DoRead => Read(s)
    case DoReport => Report(c, s)
    case DoFlush(flushed) => s.(reaper := if flushed then Claiming(s.reaper.entry) else Scanning)
    case DoClaim => Claim(s)
    case DoTeardown => Teardown(s)
    case DoErase => Erase(c, s)
    case DoScanEnd => s.(reaper := Resting)
    case DoCollect => s.(mail := Collect(s.mail))
    case DoDeliver(error) => s.(mail := Delivered(s.mail, error))
    case DoDispatchEnd => s.(mail := s.mail.(ended := true), lifecycle := Lifecycle.Stopped)
    case DoSession(e, view) =>
      SetEntry(s, e, s.entries[e].(session := if s.entries[e].session.Held? then Held(view) else Taken(view)))
  }
}

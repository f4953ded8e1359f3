/** What every mutex region of the runtime manager keeps. */
module RuntimeInvariant {
  import opened Common
  import opened RuntimeModel
  import S = SessionContract

  // ---------------------------------------------------------------- one incarnation

  /** The outcome moves from none to a normal reason to a fatal one, or from none to a fatal one. */
  ghost predicate ReasonsOk(e: Entry) {
    && (e.reasons == [] <==> !e.stopRequested)
    && e.outcome == (if e.reasons == [] then NoOutcome else e.reasons[|e.reasons| - 1])
    && |e.reasons| <= 2
    && (e.reasons != [] ==> IsReason(e.reasons[0]))
    && (|e.reasons| == 2 ==> !Fatal(e.reasons[0]) && Fatal(e.reasons[1]))
  }

  /** What has to be published about an incarnation by now. */
  ghost function Published(e: Entry): seq<Notice> {
    [Notice(ReservedNote, NoOutcome)]
    + (if e.started == [Started] then [Notice(StartedNote, Started)] else [])
    + (if e.reasons != [] then [Notice(StopNote, e.reasons[0])] else [])
    + (if e.place.Gone? then [Notice(RetiredNote, e.outcome)] else [])
  }

  /** The startup ticket is given by the worker that finishes the startup, or for a reservation
      cancelled in the queue when it is retired; the retirement ticket when it leaves. */
  ghost predicate TicketsOk(e: Entry) {
    && (e.started == [] <==> e.place.Queued? || e.place.AtWorker? || (e.cancelled && !e.place.Gone?))
    && |e.started| <= 1
    && (|e.started| == 1 ==> e.started[0] == Started || GivenReason(e, e.started[0]))
    && e.retired == (if e.place.Gone? then [e.outcome] else [])
  }

  /** A reason reported early is final if it is fatal. */
  ghost predicate GivenReason(e: Entry, o: Outcome) {
    e.stopRequested && IsReason(o) && (Fatal(o) ==> o == e.outcome)
  }

  ghost predicate SessionOk(x: Session) { x.Absent? || S.ViewOk(x.view) }

  /** The timeline is closed and all that it ever enqueued has been delivered. */
  ghost predicate Quiesced(x: Session) {
    !x.Absent? ==> x.view.closed && x.view.completed == x.view.enqueued
  }

  ghost predicate StageOk(e: Entry) {
    match e.place
    case Queued =>
      e.phase.Reserved? && !e.stopRequested && !e.startupDone && !e.cancelled && e.session.Absent? && e.operations == 0
    case AtWorker(_) =>
      && e.phase == (if e.stopRequested then StopRequested else Starting)
      && !e.startupDone && !e.cancelled && e.operations == 0
      && (e.session.Absent? || e.session.Held?)
    case Idle =>
      && e.phase == (if e.stopRequested then StopRequested else Phase.Running)
      && e.startupDone
      && (if e.session.Absent? then e.stopRequested && e.operations == 0 else e.session.Held? && !e.cancelled)
      && (!e.stopRequested || e.operations > 0 ==> e.started == [Started])
    case AtReaper =>
      e.phase.Retiring? && e.stopRequested && e.startupDone && e.operations == 0 && !e.session.Held? && Quiesced(e.session)
    case Gone =>
      && e.phase.Retiring? && e.stopRequested && e.startupDone && e.operations == 0
      && !Alive(e.session) && Quiesced(e.session)
  }

  predicate Threw(l: Launch) { l.FactoryThrew? || l.StartThrew? }

  /** A throw is a startup failure, unless it raced a stop after a session was installed that has not
      failed itself. */
  predicate IsFailure(k: Caught) { !k.stopped || !k.installed || k.failure }

  /** What the startup ticket may say, given how the startup went. */
  ghost predicate LaunchOk(e: Entry) {
    && (e.place.Queued? || e.cancelled ==> e.launch.Unlaunched?)
    && (e.launch.Unlaunched? ==> e.caught.None?)
    && (e.launch.Preempted? ==> e.stopRequested)
    && (e.caught.Some? ==> Threw(e.launch) && (e.caught.value.stopped ==> e.stopRequested))
    && (e.started != [] && !e.cancelled ==> TicketFits(e, e.started[0]))
  }

  ghost predicate TicketFits(e: Entry, ticket: Outcome) {
    && !e.launch.Unlaunched?
    && (ticket.Started? ==> e.launch.StartReturned?)
    && (Threw(e.launch) ==> e.caught.Some? && (IsFailure(e.caught.value) ==> Fatal(ticket)))
  }

  /** A session whose incarnation is to stop has been told so. */
  ghost predicate ToldOk(e: Entry) {
    e.stopRequested && e.session.Held? ==> S.Rank(e.session.view.lifecycle) >= S.Rank(S.Stopping)
  }

  ghost predicate EntryOk(e: Entry) {
    && ReasonsOk(e) && TicketsOk(e) && SessionOk(e.session) && StageOk(e) && LaunchOk(e) && ToldOk(e)
    && e.trace == Published(e)
  }

  ghost predicate EntriesOk(entries: seq<Entry>) {
    forall e {:trigger EntryOk(entries[e])} :: 0 <= e < |entries| ==> EntryOk(entries[e])
  }

  // ---------------------------------------------------------------- who holds what

  /** The startup queue is exactly the reservations nobody has stopped or taken up. */
  ghost predicate PendingOk(entries: seq<Entry>, pending: seq<nat>) {
    && NoDuplicates(pending)
    && (forall k :: 0 <= k < |pending| ==> pending[k] < |entries| && entries[pending[k]].place.Queued?)
    && (forall e :: 0 <= e < |entries| && entries[e].place.Queued? ==> e in pending)
  }

  /** The registry holds exactly the incarnations that have not left. */
  ghost predicate RegistryOk(entries: seq<Entry>, registry: map<string, nat>) {
    && (forall id :: id in registry ==>
                       registry[id] < |entries| && entries[registry[id]].id == id && !entries[registry[id]].place.Gone?)
    && (forall e :: 0 <= e < |entries| && !entries[e].place.Gone? ==>
                      entries[e].id in registry && registry[entries[e].id] == e)
  }

  ghost predicate Holds(pc: Worker, e: nat) { !pc.Waiting? && !pc.Exited? && pc.entry == e }

  ghost predicate WorkerOk(entries: seq<Entry>, w: nat, pc: Worker) {
    pc.Waiting? || pc.Exited? ||
    (&& pc.entry < |entries| && entries[pc.entry].place == AtWorker(w)
     && PhaseFits(pc, entries[pc.entry]))
  }

  /** What a worker knows about the incarnation it is busy with. */
  ghost predicate PhaseFits(pc: Worker, x: Entry) {
    match pc
    case Calling(_) => x.session.Absent? && x.launch.Unlaunched?
    case Launching(_) => x.session.Held? && x.launch.Unlaunched?
    case Catching(_) => Threw(x.launch) && x.caught.None?
    case Finishing(_, failed) =>
      && (if Threw(x.launch) then x.caught.Some? && failed == IsFailure(x.caught.value) else !failed && !x.launch.Unlaunched?)
      && (!failed ==> x.session.Held?)
    case _ => true
  }

  ghost predicate WorkersOk(entries: seq<Entry>, workers: seq<Worker>) {
    && (forall w {:trigger WorkerOk(entries, w, workers[w])} :: 0 <= w < |workers| ==> WorkerOk(entries, w, workers[w]))
    && (forall e :: 0 <= e < |entries| && entries[e].place.AtWorker? ==>
                      entries[e].place.worker < |workers| && Holds(workers[entries[e].place.worker], e))
  }

  ghost predicate Tends(r: Reaper, e: nat) { (r.TearingDown? || r.Erasing?) && r.entry == e }

  /** What the reaper has established about the incarnation at hand. */
  ghost predicate AtHandOk(entries: seq<Entry>, r: Reaper) {
    r.Resting? || r.Scanning? || r.Ended? ||
    (&& r.entry < |entries|
     && var x := entries[r.entry];
        match r
        case Looking(_) => x.place.Idle? && x.session.Held?
        case Reporting(_, l) => x.place.Idle? && x.session.Held? && S.Terminal(l) && x.session.view.lifecycle == l
        case Flushing(_) => x.place.Idle? && x.session.Held? && S.Terminal(x.session.view.lifecycle) && x.stopRequested
        case Claiming(_) => x.place.Idle? && x.stopRequested && Quiesced(x.session)
        case TearingDown(_) => x.place.AtReaper? && !x.session.Destroyed?
        case Erasing(_) => x.place.AtReaper? && !x.session.Taken?
        case _ => true)
  }

  predicate Leaving(p: Place) { p.AtReaper? || p.Gone? }

  ghost predicate ReaperOk(entries: seq<Entry>, r: Reaper, todo: set<nat>) {
    && AtHandOk(entries, r)
    && (forall e :: e in todo ==> e < |entries| && !Leaving(entries[e].place))
    && (AtHand(r).Some? ==> AtHand(r).value !in todo)
    && (forall e :: 0 <= e < |entries| && entries[e].place.AtReaper? ==> Tends(r, e))
  }

  function AtHand(r: Reaper): Option<nat> {
    if r.Resting? || r.Scanning? || r.Ended? then None else Some(r.entry)
  }

  // ---------------------------------------------------------------- totals and the way down

  ghost function Leavers(entries: seq<Entry>): set<nat> {
    set e | 0 <= e < |entries| && entries[e].place.Gone?
  }

  ghost function Casualties(entries: seq<Entry>): set<nat> {
    set e | 0 <= e < |entries| && entries[e].place.Gone? && Fatal(entries[e].outcome)
  }

  ghost predicate CountsOk(c: Config, s: State) {
    && s.counters.admitted == |s.entries|
    && s.counters.admitted == s.counters.retired + |s.registry|
    && s.counters.retired == |Leavers(s.entries)|
    && s.counters.failures == |Casualties(s.entries)|
    && |s.registry| <= c.maxSessions && |s.pending| <= c.maxPending
  }

  ghost predicate InOrder(log: seq<Notification>, bound: nat) {
    && (forall i :: 0 <= i < |log| ==> 0 < log[i].sequence < bound)
    && (forall i, j :: 0 <= i < j < |log| ==> log[i].sequence < log[j].sequence)
  }

  function InFlight(m: Mail): seq<Notification> {
    if m.inFlight.Some? then [m.inFlight.value] else []
  }

  /** What was enqueued is delivered in order: first the delivered part, then the one with the
      observer, then the queue. */
  ghost predicate MailOk(c: Config, m: Mail) {
    && |m.queue| <= m.watermark <= c.maxNotifications
    && |m.log| == m.enqueued && m.delivered <= m.enqueued
    && m.log[m.delivered..] == InFlight(m) + m.queue
    && m.sequence == 1 + m.enqueued + m.dropped
    && InOrder(m.log, m.sequence)
    && (m.dropped == 0 <==> m.firstDropped == 0) && m.firstDropped <= m.lastDropped < m.sequence
  }

  function ExitedCount(workers: seq<Worker>): nat {
    if workers == [] then 0
    else ExitedCount(workers[..|workers| - 1]) + if workers[|workers| - 1].Exited? then 1 else 0
  }

  /** Once draining, nothing waits for a worker and every incarnation left has been told to stop. */
  ghost predicate DrainOk(lifecycle: Lifecycle, entries: seq<Entry>, pending: seq<nat>) {
    !lifecycle.Running? ==>
      pending == [] && forall e :: 0 <= e < |entries| ==> entries[e].stopRequested
  }

  ghost predicate EndOk(c: Config, s: State) {
    && |s.workers| == c.workers && s.workersDone == ExitedCount(s.workers)
    && (s.workersDone > 0 ==> !s.lifecycle.Running?)
    && (s.reaper.Ended? ==> s.registry == map[] && !s.lifecycle.Running? && s.workersDone == c.workers)
    && (s.lifecycle.Stopped? <==> s.mail.ended)
    && (s.mail.ended ==> s.reaper.Ended? && s.mail.queue == [] && s.mail.inFlight.None?)
  }

  /** Everything but the drain condition, which shutdown establishes step by step. */
  ghost predicate Core(c: Config, s: State) {
    && EntriesOk(s.entries)
    && PendingOk(s.entries, s.pending)
    && RegistryOk(s.entries, s.registry)
    && WorkersOk(s.entries, s.workers)
    && ReaperOk(s.entries, s.reaper, s.todo)
    && CountsOk(c, s)
    && MailOk(c, s.mail)
    && EndOk(c, s)
  }

  ghost predicate Inv(c: Config, s: State) {
    Core(c, s) && DrainOk(s.lifecycle, s.entries, s.pending)
  }

  // ---------------------------------------------------------------- changes of one incarnation

  lemma StopEntryOk(e: Entry, reason: Outcome)
    requires EntryOk(e) && IsReason(reason)
    ensures EntryOk(StopChange(e, reason)) && StopChange(e, reason).stopRequested
  {
  }

  /** What the end of a startup needs: the startup is over, and its failure has been recorded. */
  ghost predicate ReadyToFinish(e: Entry) {
    && e.place.AtWorker? && (e.stopRequested || e.session.Held?) && !e.launch.Unlaunched?
    && (Threw(e.launch) ==> e.caught.Some? && (IsFailure(e.caught.value) ==> Fatal(e.outcome)))
  }

  lemma FinishEntryOk(e: Entry)
    requires EntryOk(e) && ReadyToFinish(e)
    ensures EntryOk(FinishChange(e))
  {
  }

  lemma EraseEntryOk(e: Entry)
    requires EntryOk(e) && e.place.AtReaper? && !e.session.Taken?
    ensures EntryOk(EraseChange(e))
  {
  }

  /** Changes that leave the responsible thread and what it relies on alone. */
  ghost predicate Advances(e: Entry, e': Entry) {
    && e'.place == e.place && e'.id == e.id && (e.stopRequested ==> e'.stopRequested)
    && e'.launch == e.launch && e'.caught == e.caught
    && match e.session
       case Absent => e'.session.Absent?
       case Held(v) => e'.session.Held? && S.Moves(v, e'.session.view)
       case Taken(v) => e'.session.Taken? && S.Moves(v, e'.session.view)
       case Destroyed(_) => e'.session == e.session
  }

  lemma StopAdvances(e: Entry, reason: Outcome)
    requires EntryOk(e) && !e.place.Queued?
    ensures Advances(e, StopChange(e, reason))
  {
  }

  lemma SessionEntryOk(e: Entry, view: S.View)
    requires EntryOk(e) && Alive(e.session) && S.Moves(e.session.view, view)
    ensures var e' := e.(session := if e.session.Held? then Held(view) else Taken(view)); EntryOk(e') && Advances(e, e')
  {
  }

  lemma TailGrows<T>(log: seq<T>, k: nat, item: T)
    requires k <= |log|
    ensures (log + [item])[k..] == log[k..] + [item]
  {
  }

  lemma OrderGrows(log: seq<Notification>, bound: nat, item: Notification)
    requires InOrder(log, bound) && item.sequence == bound && bound > 0
    ensures InOrder(log + [item], bound + 1)
  {
  }

  lemma PublishOk(c: Config, m: Mail, h: Handle, n: Notice)
    requires MailOk(c, m)
    ensures MailOk(c, Publish(c, m, h, n))
  {
    var item := Notification(m.sequence, h, n);
    TailGrows(m.log, m.delivered, item);
    OrderGrows(m.log, m.sequence, item);
    assert InFlight(m) + m.queue + [item] == InFlight(m) + (m.queue + [item]);
  }

  lemma CollectOk(c: Config, m: Mail)
    requires MailOk(c, m) && m.inFlight.None? && m.queue != []
    ensures MailOk(c, Collect(m))
  {
    assert m.queue == [m.queue[0]] + m.queue[1..];
    assert InFlight(m) + m.queue == m.queue;
  }

  lemma DeliveredOk(c: Config, m: Mail, error: bool)
    requires MailOk(c, m) && m.inFlight.Some?
    ensures MailOk(c, Delivered(m, error))
  {
    var rest := m.log[m.delivered..];
    assert rest[1..] == m.queue && rest[1..] == m.log[m.delivered + 1..];
    assert InFlight(Delivered(m, error)) + m.queue == m.queue;
  }

  // ---------------------------------------------------------------- the links under such changes

  /** Entries that keep their place and identity. */
  ghost predicate SamePlaces(entries: seq<Entry>, entries': seq<Entry>) {
    && |entries'| == |entries|
    && forall e :: 0 <= e < |entries| ==> entries'[e].place == entries[e].place && entries'[e].id == entries[e].id
  }

  lemma PlacesKept(entries: seq<Entry>, entries': seq<Entry>, pending: seq<nat>, registry: map<string, nat>)
    requires SamePlaces(entries, entries') && PendingOk(entries, pending) && RegistryOk(entries, registry)
    ensures PendingOk(entries', pending) && RegistryOk(entries', registry)
  {
  }

  /** What the workers rely on. */
  ghost predicate KeptForWorkers(e: Entry, e': Entry) {
    (e.place.AtWorker? || e'.place.AtWorker?) ==> Advances(e, e')
  }

  lemma WorkersKept(entries: seq<Entry>, entries': seq<Entry>, workers: seq<Worker>)
    requires WorkersOk(entries, workers) && |entries| <= |entries'|
    requires forall e :: 0 <= e < |entries| ==> KeptForWorkers(entries[e], entries'[e])
    requires forall e :: |entries| <= e < |entries'| ==> !entries'[e].place.AtWorker?
    ensures WorkersOk(entries', workers)
  {
    forall w | 0 <= w < |workers| ensures WorkerOk(entries', w, workers[w]) {
      assert WorkerOk(entries, w, workers[w]);
    }
  }

  /** A worker moves on, changing at most the incarnation it takes up, holds or gives back. */
  lemma WorkerMoved(entries: seq<Entry>, workers: seq<Worker>, w: nat, e: nat, x: Entry, pc: Worker)
    requires WorkersOk(entries, workers) && w < |workers| && e < |entries|
    requires Holds(workers[w], e) || (workers[w].Waiting? && !entries[e].place.AtWorker?)
    requires WorkerOk(entries[e := x], w, pc)
    requires if x.place.AtWorker? then x.place.worker == w && Holds(pc, e) else pc.Waiting?
    ensures WorkersOk(entries[e := x], workers[w := pc])
  {
    var workers' := workers[w := pc];
    forall v | 0 <= v < |workers'| ensures WorkerOk(entries[e := x], v, workers'[v]) {
      assert WorkerOk(entries, v, workers[v]);
      assert WorkerOk(entries, w, workers[w]);
    }
  }

  /** What the reaper relies on: nobody else takes incarnations away from it or to it. */
  ghost predicate KeptForReaper(e: Entry, e': Entry) {
    && (Leaving(e.place) <==> Leaving(e'.place))
    && (e.place.Idle? || e.place.AtReaper? || e'.place.AtReaper? ==> Advances(e, e'))
  }

  lemma QuiescedStays(e: Entry, e': Entry)
    requires Advances(e, e') && Quiesced(e.session)
    ensures Quiesced(e'.session)
  {
  }

  lemma ReaperKept(entries: seq<Entry>, entries': seq<Entry>, r: Reaper, todo: set<nat>)
    requires ReaperOk(entries, r, todo) && |entries| <= |entries'|
    requires forall e :: 0 <= e < |entries| ==> KeptForReaper(entries[e], entries'[e])
    requires forall e :: |entries| <= e < |entries'| ==> !entries'[e].place.AtReaper?
    ensures ReaperOk(entries', r, todo)
  {
    if AtHand(r).Some? {
      var e := r.entry;
      assert KeptForReaper(entries[e], entries'[e]);
      if Quiesced(entries[e].session) && entries[e].place.Idle? { QuiescedStays(entries[e], entries'[e]); }
    }
  }

  lemma DrainKept(lifecycle: Lifecycle, entries: seq<Entry>, entries': seq<Entry>, pending: seq<nat>, pending': seq<nat>)
    requires DrainOk(lifecycle, entries, pending)
    requires |entries'| == |entries| && forall e :: 0 <= e < |entries| && entries[e].stopRequested ==> entries'[e].stopRequested
    requires pending == [] ==> pending' == []
    ensures DrainOk(lifecycle, entries', pending')
  {
  }

  lemma LeaversKept(entries: seq<Entry>, entries': seq<Entry>)
    requires |entries| <= |entries'|
    requires forall e :: 0 <= e < |entries| ==>
      if entries[e].place.Gone? then entries'[e] == entries[e] else !entries'[e].place.Gone?
    requires forall e :: |entries| <= e < |entries'| ==> !entries'[e].place.Gone?
    ensures Leavers(entries') == Leavers(entries) && Casualties(entries') == Casualties(entries)
  {
  }
}

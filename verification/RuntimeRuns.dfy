/** What holds over whole runs of the runtime manager: tickets, notification traces, leases,
    draining and shutdown. */
module RuntimeRuns {
  import opened Common
  import opened RuntimeModel
  import opened RuntimeInvariant
  import opened RuntimeSteps
  import S = SessionContract

  ghost predicate StepAt(c: Config, run: seq<State>, i: nat)
    requires i + 1 < |run|
  {
    exists a :: Enabled(run[i], a) && run[i + 1] == Next(c, run[i], a)
  }

  /** Any interleaving of clients, workers, reaper, dispatcher and sessions. */
  ghost predicate IsRun(c: Config, run: seq<State>) {
    && |run| > 0 && run[0] == Init(c)
    && forall i :: 0 <= i < |run| - 1 ==> StepAt(c, run, i)
  }

  lemma StepKeeps(c: Config, run: seq<State>, i: nat)
    requires IsRun(c, run) && 0 < i < |run| && Inv(c, run[i - 1])
    ensures Inv(c, run[i])
  {
    assert StepAt(c, run, i - 1);
    var a :| Enabled(run[i - 1], a) && run[i] == Next(c, run[i - 1], a);
    NextInv(c, run[i - 1], a);
  }

  lemma RunsStartSound(c: Config, run: seq<State>)
    requires IsRun(c, run)
    ensures Inv(c, run[0])
  {
    InitInv(c);
  }

  lemma {:induction false} RunsKeepInvariant(c: Config, run: seq<State>, i: nat)
    requires IsRun(c, run) && i < |run|
    ensures Inv(c, run[i])
  {
    if i == 0 {
      RunsStartSound(c, run);
    } else {
      RunsKeepInvariant(c, run, i - 1);
      StepKeeps(c, run, i);
    }
  }

  // ---------------------------------------------------------------- incarnations only grow

  function Stage(p: Place): nat {
    match p
    case Queued => 0
    case AtWorker(_) => 1
    case Idle => 2
    case AtReaper => 3
    case Gone => 4
  }

  /** Tickets, traces and reasons are only appended to, responsibility only moves forward, how the
      startup went is recorded once, a destroyed session stays destroyed, and one that has left never
      changes. */
  ghost predicate Grows(e: Entry, e': Entry) {
    && e'.id == e.id
    && e.started <= e'.started && e.retired <= e'.retired && e.trace <= e'.trace && e.reasons <= e'.reasons
    && Stage(e.place) <= Stage(e'.place)
    && (!e.launch.Unlaunched? ==> e'.launch == e.launch) && (e.caught.Some? ==> e'.caught == e.caught)
    && (e.session.Destroyed? ==> e'.session == e.session)
    && (e.place.Gone? ==> e' == e)
  }

  ghost predicate AllGrow(entries: seq<Entry>, entries': seq<Entry>) {
    && |entries| <= |entries'|
    && forall e {:trigger Grows(entries[e], entries'[e])} :: 0 <= e < |entries| ==> Grows(entries[e], entries'[e])
  }

  lemma GrowsTrans(e1: Entry, e2: Entry, e3: Entry)
    requires Grows(e1, e2) && Grows(e2, e3)
    ensures Grows(e1, e3)
  {
  }

  lemma AllGrowTrans(s1: seq<Entry>, s2: seq<Entry>, s3: seq<Entry>)
    requires AllGrow(s1, s2) && AllGrow(s2, s3)
    ensures AllGrow(s1, s3)
  {
    forall e | 0 <= e < |s1| ensures Grows(s1[e], s3[e]) {
      assert Grows(s1[e], s2[e]) && Grows(s2[e], s3[e]);
      GrowsTrans(s1[e], s2[e], s3[e]);
    }
  }

  lemma OneGrows(entries: seq<Entry>, e: nat, x: Entry)
    requires e < |entries| && Grows(entries[e], x)
    ensures AllGrow(entries, entries[e := x])
  {
  }

  lemma StopGrows(e: Entry, reason: Outcome)
    requires EntryOk(e)
    ensures Grows(e, StopChange(e, reason))
  {
  }

  lemma StopEntryGrows(c: Config, s: State, e: nat, reason: Outcome)
    requires EntriesOk(s.entries) && e < |s.entries|
    ensures AllGrow(s.entries, StopEntry(c, s, e, reason).entries)
  {
    assert EntryOk(s.entries[e]);
    StopGrows(s.entries[e], reason);
    OneGrows(s.entries, e, StopChange(s.entries[e], reason));
    OneGrows(s.entries, e, s.entries[e]);
    assert s.entries[e := s.entries[e]] == s.entries;
  }

  lemma {:induction false} StopAllGrows(c: Config, s: State, order: seq<nat>)
    requires EntriesOk(s.entries) && forall k :: 0 <= k < |order| ==> order[k] < |s.entries|
    ensures AllGrow(s.entries, StopAll(c, s, order).entries)
    decreases |order|
  {
    if order != [] {
      var u := StopAll(c, s, order[..|order| - 1]);
      StopAllGrows(c, s, order[..|order| - 1]);
      StopAllEntries(c, s, order[..|order| - 1]);
      StopEntryGrows(c, u, order[|order| - 1], RuntimeShutdown);
      AllGrowTrans(s.entries, u.entries, StopAll(c, s, order).entries);
    }
  }

  lemma FinishGrows(c: Config, s: State, w: nat)
    requires EntriesOk(s.entries) && WorkersOk(s.entries, s.workers) && Enabled(s, DoFinish(w))
    ensures AllGrow(s.entries, Finish(c, s, w).entries)
  {
    var e := s.workers[w].entry;
    assert WorkerOk(s.entries, w, s.workers[w]) && EntryOk(s.entries[e]);
    var t := if s.workers[w].failed then StopEntry(c, s, e, StartupFailed) else s;
    if s.workers[w].failed {
      StopEntryGrows(c, s, e, StartupFailed);
      StopEntryEffect(c, s, e, StartupFailed);
    } else {
      OneGrows(s.entries, e, s.entries[e]);
      assert s.entries[e := s.entries[e]] == s.entries;
    }
    assert EntryOk(t.entries[e]);
    OneGrows(t.entries, e, FinishChange(t.entries[e]));
    AllGrowTrans(s.entries, t.entries, t.entries[e := FinishChange(t.entries[e])]);
  }

  lemma TakeGrows(c: Config, s: State, w: nat)
    requires EntriesOk(s.entries) && PendingOk(s.entries, s.pending) && Enabled(s, DoTake(w))
    ensures AllGrow(s.entries, Take(s, w).entries)
  {
    var e := s.pending[0];
    OneGrows(s.entries, e, Take(s, w).entries[e]);
  }

  lemma InstallGrows(c: Config, s: State, w: nat)
    requires WorkersOk(s.entries, s.workers) && Enabled(s, DoInstall(w))
    ensures AllGrow(s.entries, Install(s, w).entries)
  {
    assert WorkerOk(s.entries, w, s.workers[w]);
    OneGrows(s.entries, s.workers[w].entry, Install(s, w).entries[s.workers[w].entry]);
  }

  /** How the startup went is recorded while it is open. */
  lemma RecordGrows(c: Config, s: State, a: Action)
    requires WorkersOk(s.entries, s.workers) && Enabled(s, a)
    requires a.DoFactoryThrows? || a.DoStartReturns? || a.DoStartThrows? || a.DoCatch?
    ensures AllGrow(s.entries, Next(c, s, a).entries)
  {
    assert WorkerOk(s.entries, a.worker, s.workers[a.worker]);
    OneGrows(s.entries, s.workers[a.worker].entry, Next(c, s, a).entries[s.workers[a.worker].entry]);
  }

  lemma ReapGrows(c: Config, s: State, a: Action)
    requires AtHandOk(s.entries, s.reaper) && Enabled(s, a) && (a.DoClaim? || a.DoTeardown? || a.DoErase?)
    ensures AllGrow(s.entries, Next(c, s, a).entries)
  {
    var e := s.reaper.entry;
    var x := if a.DoClaim? then ClaimChange(s.entries[e]) else if a.DoTeardown? then TearChange(s.entries[e]) else EraseChange(s.entries[e]);
    OneGrows(s.entries, e, x);
    SameGrows(s.entries);
  }

  lemma ReportGrows(c: Config, s: State)
    requires EntriesOk(s.entries) && Enabled(s, DoReport)
    ensures AllGrow(s.entries, Report(c, s).entries)
  {
    StopEntryGrows(c, s, s.reaper.entry, LifecycleFailure);
    StopEntryGrows(c, s, s.reaper.entry, UnexpectedStop);
    OneGrows(s.entries, s.reaper.entry, s.entries[s.reaper.entry]);
    assert s.entries[s.reaper.entry := s.entries[s.reaper.entry]] == s.entries;
  }

  lemma RemoveGrows(c: Config, s: State, h: Handle, reason: Outcome)
    requires EntriesOk(s.entries)
    ensures AllGrow(s.entries, Remove(c, s, h, reason).entries)
  {
    var e := Matching(c, s, h);
    SameGrows(s.entries);
    if e.Some? && e.value < |s.entries| { StopEntryGrows(c, s, e.value, reason); }
  }

  lemma LeaseGrows(c: Config, s: State, a: Action)
    requires EntriesOk(s.entries) && Enabled(s, a) && (a.DoOpBegin? || a.DoOpEnd? || a.DoSession?)
    ensures AllGrow(s.entries, Next(c, s, a).entries)
  {
    SameGrows(s.entries);
    var e := if a.DoOpBegin? then Admissible(c, s, a.handle) else Some(a.entry);
    if e.Some? {
      assert EntryOk(s.entries[e.value]);
      OneGrows(s.entries, e.value, Next(c, s, a).entries[e.value]);
    }
  }

  lemma StepGrows(c: Config, run: seq<State>, i: nat)
    requires IsRun(c, run) && i + 1 < |run|
    ensures AllGrow(run[i].entries, run[i + 1].entries)
  {
    RunsKeepInvariant(c, run, i);
    assert StepAt(c, run, i);
    var a :| Enabled(run[i], a) && run[i + 1] == Next(c, run[i], a);
    ActionGrows(c, run[i], a);
  }

  lemma ActionGrows(c: Config, s: State, a: Action)
    requires EntriesOk(s.entries) && PendingOk(s.entries, s.pending) && WorkersOk(s.entries, s.workers)
    requires AtHandOk(s.entries, s.reaper) && Enabled(s, a)
    ensures AllGrow(s.entries, Next(c, s, a).entries)
  {
    SameGrows(s.entries);
    match a
    case DoAdd(_, _) =>
    case DoRemove(h, reason) => RemoveGrows(c, s, h, reason);
    case DoOpBegin(h) => LeaseGrows(c, s, a);
    case DoOpEnd(e) => LeaseGrows(c, s, a);
    case DoSession(e, _) => LeaseGrows(c, s, a);
    case DoShutdown(order) => StopAllGrows(c, s.(lifecycle := Draining), order);
    case DoTake(w) => TakeGrows(c, s, w);
    case DoInstall(w) => InstallGrows(c, s, w);
    case DoFactoryThrows(_) => RecordGrows(c, s, a);
    case DoStartReturns(_) => RecordGrows(c, s, a);
    case DoStartThrows(_) => RecordGrows(c, s, a);
    case DoCatch(_) => RecordGrows(c, s, a);
    case DoFinish(w) => FinishGrows(c, s, w);
    case DoReport => ReportGrows(c, s);
    case DoClaim => ReapGrows(c, s, a);
    case DoTeardown => ReapGrows(c, s, a);
    case DoErase => ReapGrows(c, s, a);
    case _ =>
  }

  lemma SameGrows(entries: seq<Entry>)
    ensures AllGrow(entries, entries)
  {
  }

  lemma {:induction false} RunGrows(c: Config, run: seq<State>, i: nat, j: nat)
    requires IsRun(c, run) && i <= j < |run|
    ensures AllGrow(run[i].entries, run[j].entries)
    decreases j
  {
    if i == j {
      SameGrows(run[i].entries);
    } else {
      RunGrows(c, run, i, j - 1);
      StepGrows(c, run, j - 1);
      AllGrowTrans(run[i].entries, run[j - 1].entries, run[j].entries);
    }
  }

  // ---------------------------------------------------------------- tickets

  lemma EntrySound(c: Config, run: seq<State>, i: nat, e: nat)
    requires IsRun(c, run) && i < |run| && e < |run[i].entries|
    ensures EntryOk(run[i].entries[e])
  {
    RunsKeepInvariant(c, run, i);
  }

  lemma EntryGrows(c: Config, run: seq<State>, i: nat, j: nat, e: nat)
    requires IsRun(c, run) && i <= j < |run| && e < |run[i].entries|
    ensures e < |run[j].entries| && Grows(run[i].entries[e], run[j].entries[e])
  {
    RunGrows(c, run, i, j);
  }

  /** Every promise is set at most once and never changed, and the startup ticket no later than the
      retirement ticket. */
  lemma TicketsSetOnce(c: Config, run: seq<State>, i: nat, j: nat, e: nat)
    requires IsRun(c, run) && i <= j < |run| && e < |run[i].entries|
    ensures e < |run[j].entries|
    ensures var x := run[i].entries[e]; var y := run[j].entries[e];
            && |y.started| <= 1 && |y.retired| <= 1
            && (x.started != [] ==> y.started == x.started) && (x.retired != [] ==> y.retired == x.retired)
            && (y.retired != [] ==> y.started != [])
  {
    EntryGrows(c, run, i, j, e);
    EntrySound(c, run, j, e);
  }

  /** A stopped runtime owes nothing: both tickets of every incarnation are set, nothing is
      registered, queued or undelivered, and all threads have ended. */
  lemma StoppedOwesNothing(c: Config, run: seq<State>, i: nat)
    requires IsRun(c, run) && i < |run| && run[i].lifecycle.Stopped?
    ensures run[i].registry == map[] && run[i].pending == [] && run[i].mail.queue == []
    ensures run[i].mail.delivered == run[i].mail.enqueued && run[i].counters.admitted == run[i].counters.retired
    ensures run[i].counters.admitted == |run[i].entries|
    ensures forall e :: 0 <= e < |run[i].entries| ==> |run[i].entries[e].started| == 1 && |run[i].entries[e].retired| == 1
    ensures forall w :: 0 <= w < |run[i].workers| ==> run[i].workers[w].Exited?
  {
    RunsKeepInvariant(c, run, i);
    StoppedTickets(c, run[i]);
    ExitedBound(run[i].workers);
    assert InFlight(run[i].mail) + run[i].mail.queue == [];
  }

  lemma StoppedTickets(c: Config, s: State)
    requires EntriesOk(s.entries) && RegistryOk(s.entries, s.registry) && s.registry == map[]
    ensures forall e :: 0 <= e < |s.entries| ==> |s.entries[e].started| == 1 && |s.entries[e].retired| == 1
  {
    forall e | 0 <= e < |s.entries| ensures |s.entries[e].started| == 1 && |s.entries[e].retired| == 1 {
      assert EntryOk(s.entries[e]);
    }
  }

  // ---------------------------------------------------------------- notifications and outcomes

  function Kinds(trace: seq<Notice>): (r: seq<Kind>)
    ensures |r| == |trace|
  {
    seq(|trace|, i requires 0 <= i < |trace| => trace[i].kind)
  }

  const WITH_START := [ReservedNote, StartedNote, StopNote, RetiredNote]
  const WITHOUT_START := [ReservedNote, StopNote, RetiredNote]

  /** What is published about an incarnation is a prefix of Reserved, Started, StopRequested, Retired
      with Started left out unless the startup ticket says so; it is only ever appended to. */
  lemma TraceShape(c: Config, run: seq<State>, i: nat, j: nat, e: nat)
    requires IsRun(c, run) && i <= j < |run| && e < |run[i].entries|
    ensures e < |run[j].entries| && run[i].entries[e].trace <= run[j].entries[e].trace
    ensures var y := run[j].entries[e];
            && 1 <= |y.trace|
            && Kinds(y.trace) <= (if y.started == [Started] then WITH_START else WITHOUT_START)
            && (y.retired != [] <==> y.trace[|y.trace| - 1].kind.RetiredNote?)
  {
    EntryGrows(c, run, i, j, e);
    EntrySound(c, run, j, e);
    KindsOf(run[j].entries[e]);
  }

  lemma KindsOf(y: Entry)
    requires EntryOk(y)
    ensures 1 <= |y.trace| && Kinds(y.trace) <= (if y.started == [Started] then WITH_START else WITHOUT_START)
    ensures y.retired != [] <==> y.trace[|y.trace| - 1].kind.RetiredNote?
  {
  }

  /** 0 for none, 1 for a normal reason, 2 for a fatal one. */
  function Severity(o: Outcome): nat {
    if o.NoOutcome? then 0 else if Fatal(o) then 2 else 1
  }

  /** Outcomes only escalate: a change always goes to a higher severity, so a fatal one is final. A
      retirement reports neither none nor Started, and repeats a fatal startup outcome. */
  lemma OutcomesEscalate(c: Config, run: seq<State>, i: nat, j: nat, e: nat)
    requires IsRun(c, run) && i <= j < |run| && e < |run[i].entries|
    ensures e < |run[j].entries|
    ensures var x := run[i].entries[e]; var y := run[j].entries[e];
            && !x.outcome.Started?
            && (x.outcome == y.outcome || Severity(x.outcome) < Severity(y.outcome))
            && (y.retired != [] ==> y.retired == [y.outcome] && IsReason(y.outcome))
            && (y.started != [] && Fatal(y.started[0]) && y.retired != [] ==> y.retired[0] == y.started[0])
  {
    EntryGrows(c, run, i, j, e);
    EntrySound(c, run, i, e);
    EntrySound(c, run, j, e);
    EscalatesTo(run[i].entries[e], run[j].entries[e]);
  }

  lemma EscalatesTo(x: Entry, y: Entry)
    requires EntryOk(x) && EntryOk(y) && x.reasons <= y.reasons
    ensures !x.outcome.Started? && (x.outcome == y.outcome || Severity(x.outcome) < Severity(y.outcome))
  {
  }

  // ---------------------------------------------------------------- leases and destruction

  /** From the claim on, and so when its session is destroyed, an incarnation has no lease and can
      never get one, and its closed timeline has delivered all that it enqueued. */
  lemma ClaimedIsQuiet(c: Config, run: seq<State>, i: nat, j: nat, e: nat)
    requires IsRun(c, run) && i <= j < |run| && e < |run[i].entries|
    requires Leaving(run[i].entries[e].place) || run[i].entries[e].session.Destroyed?
    ensures e < |run[j].entries| && run[j].entries[e].operations == 0 && Quiesced(run[j].entries[e].session)
    ensures Admissible(c, run[j], HandleOf(c, run[j].entries, e)) == None
  {
    EntryGrows(c, run, i, j, e);
    EntrySound(c, run, i, e);
    EntrySound(c, run, j, e);
  }

  /** A lease is only ever held on a living session that its entry owns. */
  lemma LeasesHoldSessions(c: Config, run: seq<State>, i: nat, e: nat)
    requires IsRun(c, run) && i < |run| && e < |run[i].entries| && run[i].entries[e].operations > 0
    ensures run[i].entries[e].session.Held? && run[i].entries[e].started == [Started]
  {
    EntrySound(c, run, i, e);
  }

  /** Once draining, nothing is running and nothing ever starts to run. */
  lemma NothingRunsAfterDraining(c: Config, run: seq<State>, i: nat, j: nat, e: nat)
    requires IsRun(c, run) && i <= j < |run| && !run[i].lifecycle.Running? && e < |run[j].entries|
    ensures !run[j].lifecycle.Running? && |run[j].entries| == |run[i].entries|
    ensures !run[j].entries[e].phase.Running? && run[j].pending == []
  {
    DrainingIsFinal(c, run, i, j);
    RunsKeepInvariant(c, run, j);
    EntrySound(c, run, j, e);
  }

  lemma DrainingStep(c: Config, s: State, a: Action)
    requires Enabled(s, a) && !s.lifecycle.Running?
    ensures !Next(c, s, a).lifecycle.Running? && |Next(c, s, a).entries| == |s.entries|
  {
  }

  lemma DrainingStepAt(c: Config, run: seq<State>, i: nat)
    requires IsRun(c, run) && 0 < i < |run| && !run[i - 1].lifecycle.Running?
    ensures !run[i].lifecycle.Running? && |run[i].entries| == |run[i - 1].entries|
  {
    assert StepAt(c, run, i - 1);
    var a :| Enabled(run[i - 1], a) && run[i] == Next(c, run[i - 1], a);
    DrainingStep(c, run[i - 1], a);
  }

  lemma {:induction false} DrainingIsFinal(c: Config, run: seq<State>, i: nat, j: nat)
    requires IsRun(c, run) && i <= j < |run| && !run[i].lifecycle.Running?
    ensures !run[j].lifecycle.Running? && |run[j].entries| == |run[i].entries|
    decreases j
  {
    if i < j {
      DrainingIsFinal(c, run, i, j - 1);
      DrainingStepAt(c, run, j);
    }
  }

  // ---------------------------------------------------------------- registry accounting

  /** Admitted is retired plus registered, the startup queue is exactly the reservations that nobody
      has stopped, and both stay within their limits. */
  lemma Accounting(c: Config, run: seq<State>, i: nat)
    requires IsRun(c, run) && i < |run|
    ensures run[i].counters.admitted == run[i].counters.retired + |run[i].registry|
    ensures |run[i].registry| <= c.maxSessions && |run[i].pending| <= c.maxPending
    ensures NoDuplicates(run[i].pending)
    ensures forall e :: 0 <= e < |run[i].entries| ==>
              (e in run[i].pending <==> run[i].entries[e].phase.Reserved? && !run[i].entries[e].stopRequested)
  {
    RunsKeepInvariant(c, run, i);
    PendingAreReserved(run[i].entries, run[i].pending);
  }

  lemma PendingAreReserved(entries: seq<Entry>, pending: seq<nat>)
    requires EntriesOk(entries) && PendingOk(entries, pending)
    ensures forall e :: 0 <= e < |entries| ==> (e in pending <==> entries[e].phase.Reserved? && !entries[e].stopRequested)
  {
    forall e | 0 <= e < |entries| ensures e in pending <==> entries[e].phase.Reserved? && !entries[e].stopRequested {
      assert EntryOk(entries[e]);
    }
  }

  /** A worker never takes up a reservation that was stopped: `attempt` is always true. */
  lemma TakenMeansAttempted(c: Config, run: seq<State>, i: nat, w: nat)
    requires IsRun(c, run) && i < |run| && Enabled(run[i], DoTake(w))
    ensures Take(run[i], w).workers[w] == Calling(run[i].pending[0])
  {
    RunsKeepInvariant(c, run, i);
    EntrySound(c, run, i, run[i].pending[0]);
  }

  /** A handle finds its own incarnation as long as that is registered, and nothing afterwards. */
  lemma HandlesFindTheirOwn(c: Config, run: seq<State>, i: nat, e: nat)
    requires IsRun(c, run) && i < |run| && e < |run[i].entries|
    ensures Matching(c, run[i], HandleOf(c, run[i].entries, e)) == if run[i].entries[e].retired != [] then None else Some(e)
  {
    RunsKeepInvariant(c, run, i);
    EntrySound(c, run, i, e);
  }

  /** A retired handle never matches a later incarnation, whatever its id. */
  lemma RetiredNeverMatches(c: Config, run: seq<State>, i: nat, j: nat, e: nat)
    requires IsRun(c, run) && i <= j < |run| && e < |run[i].entries| && run[i].entries[e].retired != []
    ensures Matching(c, run[j], HandleOf(c, run[i].entries, e)) == None
  {
    EntryGrows(c, run, i, j, e);
    HandlesFindTheirOwn(c, run, j, e);
  }

  // ---------------------------------------------------------------- notification delivery

  lemma StopEntryLogs(c: Config, s: State, e: nat, reason: Outcome)
    requires e < |s.entries|
    ensures s.mail.log <= StopEntry(c, s, e, reason).mail.log
  {
  }

  lemma RemoveLogs(c: Config, s: State, h: Handle, reason: Outcome)
    ensures s.mail.log <= Remove(c, s, h, reason).mail.log
  {
  }

  lemma ReportLogs(c: Config, s: State)
    requires s.reaper.Reporting? && s.reaper.entry < |s.entries|
    ensures s.mail.log <= Report(c, s).mail.log
  {
  }

  lemma {:induction false} StopAllLogs(c: Config, s: State, order: seq<nat>)
    requires forall k :: 0 <= k < |order| ==> order[k] < |s.entries|
    ensures s.mail.log <= StopAll(c, s, order).mail.log
    decreases |order|
  {
    if order != [] { StopAllLogs(c, s, order[..|order| - 1]); }
  }

  lemma StepLogs(c: Config, s: State, a: Action)
    requires Enabled(s, a)
    ensures s.mail.log <= Next(c, s, a).mail.log
  {
    match a
    case DoShutdown(order) => StopAllLogs(c, s.(lifecycle := Draining), order);
    case DoFinish(w) => StopEntryLogs(c, s, s.workers[w].entry, StartupFailed);
    case DoRemove(h, reason) => RemoveLogs(c, s, h, reason);
    case DoReport => ReportLogs(c, s);
    case _ =>
  }

  lemma StepLogsAt(c: Config, run: seq<State>, i: nat)
    requires IsRun(c, run) && 0 < i < |run|
    ensures run[i - 1].mail.log <= run[i].mail.log
  {
    assert StepAt(c, run, i - 1);
    var a :| Enabled(run[i - 1], a) && run[i] == Next(c, run[i - 1], a);
    StepLogs(c, run[i - 1], a);
  }

  lemma {:induction false} LogsGrow(c: Config, run: seq<State>, i: nat, j: nat)
    requires IsRun(c, run) && i <= j < |run|
    ensures run[i].mail.log <= run[j].mail.log
    decreases j
  {
    if i < j {
      LogsGrow(c, run, i, j - 1);
      StepLogsAt(c, run, j);
    }
  }

  /** `flush_notifications`: once as many are delivered as were enqueued when it was called, exactly
      those enqueued before the call are among the delivered ones, in order. */
  lemma FlushDeliversEverythingBefore(c: Config, run: seq<State>, i: nat, j: nat)
    requires IsRun(c, run) && i <= j < |run| && run[j].mail.delivered >= run[i].mail.enqueued
    ensures run[j].mail.delivered <= |run[j].mail.log|
    ensures run[i].mail.log <= run[j].mail.log[..run[j].mail.delivered]
    ensures InOrder(run[j].mail.log, run[j].mail.sequence)
  {
    RunsKeepInvariant(c, run, i);
    RunsKeepInvariant(c, run, j);
    LogsGrow(c, run, i, j);
  }

  /** Every number given out belongs to a notification enqueued or counted as dropped. */
  lemma NotificationsAccounted(c: Config, run: seq<State>, i: nat)
    requires IsRun(c, run) && i < |run|
    ensures var m := run[i].mail;
            && m.sequence == 1 + m.enqueued + m.dropped
            && m.enqueued == m.delivered + |InFlight(m)| + |m.queue|
            && |m.queue| <= m.watermark <= c.maxNotifications
  {
    RunsKeepInvariant(c, run, i);
    var m := run[i].mail;
    assert |m.log[m.delivered..]| == |InFlight(m)| + |m.queue|;
  }
}

/** Which startups fail, and what the startup ticket then says. */
module RuntimeStartup {
  import opened Common
  import opened RuntimeModel
  import opened RuntimeInvariant
  import opened RuntimeSteps
  import opened RuntimeRuns
  import S = SessionContract

  // ---------------------------------------------------------------- one step

  /** No step ends a startup but the worker's last one. */
  ghost predicate EndsStartup(e: Entry, e': Entry) { e.place.AtWorker? && !e'.place.AtWorker? }

  /** What the ticket has to say when a startup ends: a failure that counts gives a fatal ticket, the
      stop's own cause if that was fatal already; otherwise a stop gives its cause, and a startup that
      nobody stopped was started. */
  function Verdict(e: Entry): Outcome
    requires Threw(e.launch) ==> e.caught.Some?
  {
    if Threw(e.launch) && IsFailure(e.caught.value) then (if Fatal(e.outcome) then e.outcome else StartupFailed)
    else if e.stopRequested then e.outcome
    else Started
  }

  ghost predicate VerdictGiven(e: Entry, e': Entry) {
    && !e.launch.Unlaunched? && (Threw(e.launch) ==> e.caught.Some?)
    && e'.started == [Verdict(e)] && e'.launch == e.launch && e'.caught == e.caught
  }

  /** Exceptions are caught once, with what held then. */
  ghost predicate CatchFits(e: Entry, e': Entry) {
    e.caught.None? && e'.caught.Some? ==>
      Threw(e.launch) && e'.caught.value == Caught(e.stopRequested, e.session.Held?, ReportsFailure(e.session))
  }

  ghost predicate StepFits(e: Entry, e': Entry) {
    (EndsStartup(e, e') ==> VerdictGiven(e, e')) && CatchFits(e, e')
  }

  ghost predicate AllFit(entries: seq<Entry>, entries': seq<Entry>) {
    && |entries| <= |entries'|
    && forall e {:trigger StepFits(entries[e], entries'[e])} :: 0 <= e < |entries| ==> StepFits(entries[e], entries'[e])
  }

  lemma SameFits(entries: seq<Entry>, entries': seq<Entry>)
    requires |entries| <= |entries'|
    requires forall e :: 0 <= e < |entries| ==> entries'[e].caught == entries[e].caught
    requires forall e :: 0 <= e < |entries| && entries[e].place.AtWorker? ==> entries'[e].place.AtWorker?
    ensures AllFit(entries, entries')
  {
  }

  lemma OneFits(entries: seq<Entry>, e: nat, x: Entry)
    requires e < |entries| && StepFits(entries[e], x)
    ensures AllFit(entries, entries[e := x])
  {
  }

  lemma FinishFits(c: Config, s: State, w: nat)
    requires EntriesOk(s.entries) && WorkersOk(s.entries, s.workers) && Enabled(s, DoFinish(w))
    ensures AllFit(s.entries, Finish(c, s, w).entries)
  {
    var e := s.workers[w].entry;
    assert EntryOk(s.entries[e]) && WorkerOk(s.entries, w, s.workers[w]);
    var x := Finish(c, s, w).entries[e];
    FinishedEntry(c, s, w);
    OneFits(s.entries, e, x);
  }

  lemma FinishedEntry(c: Config, s: State, w: nat)
    requires EntriesOk(s.entries) && WorkersOk(s.entries, s.workers) && Enabled(s, DoFinish(w))
    ensures var e := s.workers[w].entry;
            var t := Finish(c, s, w).entries;
            e < |s.entries| == |t| && t == s.entries[e := t[e]] && StepFits(s.entries[e], t[e])
  {
    var e := s.workers[w].entry;
    assert EntryOk(s.entries[e]) && WorkerOk(s.entries, w, s.workers[w]);
    FinishVerdict(s.entries[e], s.workers[w].failed);
  }

  lemma FinishVerdict(x: Entry, failed: bool)
    requires EntryOk(x) && x.place.AtWorker? && PhaseFits(Finishing(0, failed), x)
    ensures StepFits(x, FinishChange(if failed then StopChange(x, StartupFailed) else x))
  {
  }

  lemma WorkerFits(c: Config, s: State, a: Action)
    requires EntriesOk(s.entries) && WorkersOk(s.entries, s.workers) && PendingOk(s.entries, s.pending)
    requires Enabled(s, a) && WorkerAction(a) && !a.DoFinish?
    ensures AllFit(s.entries, Next(c, s, a).entries)
  {
    assert WorkerOk(s.entries, a.worker, s.workers[a.worker]);
    if a.DoCatch? {
      OneFits(s.entries, s.workers[a.worker].entry, Next(c, s, a).entries[s.workers[a.worker].entry]);
    } else {
      SameFits(s.entries, Next(c, s, a).entries);
    }
  }

  lemma StopFits(c: Config, s: State, e: nat, reason: Outcome)
    requires EntriesOk(s.entries) && e < |s.entries|
    ensures AllFit(s.entries, StopEntry(c, s, e, reason).entries)
  {
    assert EntryOk(s.entries[e]);
    SameFits(s.entries, StopEntry(c, s, e, reason).entries);
  }

  lemma {:induction false} StopAllSame(c: Config, s: State, order: seq<nat>, e: nat)
    requires EntriesOk(s.entries) && (forall k :: 0 <= k < |order| ==> order[k] < |s.entries|) && e < |s.entries|
    ensures var x := StopAll(c, s, order).entries[e];
            x.caught == s.entries[e].caught && (s.entries[e].place.AtWorker? ==> x.place.AtWorker?)
    decreases |order|
  {
    if order != [] {
      StopAllSame(c, s, order[..|order| - 1], e);
      StopAllEntries(c, s, order[..|order| - 1]);
      var u := StopAll(c, s, order[..|order| - 1]);
      assert EntryOk(u.entries[order[|order| - 1]]);
    }
  }

  lemma ReaperFits(c: Config, s: State, a: Action)
    requires EntriesOk(s.entries) && AtHandOk(s.entries, s.reaper) && Enabled(s, a) && ReaperAction(a)
    ensures AllFit(s.entries, Next(c, s, a).entries)
  {
    if a.DoReport? {
      StopFits(c, s, s.reaper.entry, LifecycleFailure);
      StopFits(c, s, s.reaper.entry, UnexpectedStop);
      SameFits(s.entries, s.entries);
    } else {
      SameFits(s.entries, Next(c, s, a).entries);
    }
  }

  lemma ShutdownFits(c: Config, s: State, order: seq<nat>)
    requires EntriesOk(s.entries) && Enabled(s, DoShutdown(order))
    ensures AllFit(s.entries, RequestShutdown(c, s, order).entries)
  {
    if s.lifecycle.Running? {
      forall e: nat | e < |s.entries|
        ensures var x := RequestShutdown(c, s, order).entries[e];
                x.caught == s.entries[e].caught && (s.entries[e].place.AtWorker? ==> x.place.AtWorker?)
      {
        StopAllSame(c, s.(lifecycle := Draining), order, e);
      }
    }
    SameFits(s.entries, RequestShutdown(c, s, order).entries);
  }

  lemma ClientFits(c: Config, s: State, a: Action)
    requires EntriesOk(s.entries) && Enabled(s, a) && !WorkerAction(a) && !ReaperAction(a)
    ensures AllFit(s.entries, Next(c, s, a).entries)
  {
    if a.DoShutdown? {
      ShutdownFits(c, s, a.order);
    } else if a.DoRemove? && Matching(c, s, a.handle).Some? && Matching(c, s, a.handle).value < |s.entries| {
      StopFits(c, s, Matching(c, s, a.handle).value, a.reason);
    } else {
      SameFits(s.entries, Next(c, s, a).entries);
    }
  }

  lemma PartsSound(c: Config, run: seq<State>, i: nat)
    requires IsRun(c, run) && i < |run|
    ensures EntriesOk(run[i].entries) && WorkersOk(run[i].entries, run[i].workers)
    ensures PendingOk(run[i].entries, run[i].pending) && AtHandOk(run[i].entries, run[i].reaper)
  {
    RunsKeepInvariant(c, run, i);
  }

  lemma StepAllFit(c: Config, run: seq<State>, i: nat)
    requires IsRun(c, run) && 0 < i < |run|
    ensures AllFit(run[i - 1].entries, run[i].entries)
  {
    PartsSound(c, run, i - 1);
    assert StepAt(c, run, i - 1);
    var a :| Enabled(run[i - 1], a) && run[i] == Next(c, run[i - 1], a);
    ActionFits(c, run[i - 1], a);
  }

  lemma ActionFits(c: Config, s: State, a: Action)
    requires EntriesOk(s.entries) && WorkersOk(s.entries, s.workers) && PendingOk(s.entries, s.pending)
    requires AtHandOk(s.entries, s.reaper) && Enabled(s, a)
    ensures AllFit(s.entries, Next(c, s, a).entries)
  {
    if a.DoFinish? {
      FinishFits(c, s, a.worker);
    } else if WorkerAction(a) {
      WorkerFits(c, s, a);
    } else if ReaperAction(a) {
      ReaperFits(c, s, a);
    } else {
      ClientFits(c, s, a);
    }
  }

  // ---------------------------------------------------------------- over runs

  /** The startup ticket, whenever a startup ends: it says Started if and only if the session's start
      returned and no stop had been requested by then; a throw that counts as a failure gives
      StartupFailed, or the fatal cause that a stop had given before; any other end gives the cause of
      the stop. */
  lemma StartupTicket(c: Config, run: seq<State>, i: nat, e: nat)
    requires IsRun(c, run) && 0 < i < |run| && e < |run[i - 1].entries| && e < |run[i].entries|
    requires run[i - 1].entries[e].place.AtWorker? && !run[i].entries[e].place.AtWorker?
    ensures var x, y := run[i - 1].entries[e], run[i].entries[e];
            && !x.launch.Unlaunched? && |y.started| == 1
            && (y.started == [Started] <==> x.launch.StartReturned? && !x.stopRequested)
            && (Threw(x.launch) ==> x.caught.Some?)
            && (Threw(x.launch) && IsFailure(x.caught.value) ==>
                  y.started == [if Fatal(x.outcome) then x.outcome else StartupFailed])
            && (y.started != [Started] && !(Threw(x.launch) && IsFailure(x.caught.value)) ==>
                  x.stopRequested && y.started == [x.outcome])
  {
    StepAllFit(c, run, i);
    EntrySound(c, run, i - 1, e);
    assert StepFits(run[i - 1].entries[e], run[i].entries[e]);
  }

  /** When an exception is caught, what is noted is what holds then. */
  lemma CaughtAsItWas(c: Config, run: seq<State>, i: nat, e: nat)
    requires IsRun(c, run) && 0 < i < |run| && e < |run[i - 1].entries| && e < |run[i].entries|
    requires run[i - 1].entries[e].caught.None? && run[i].entries[e].caught.Some?
    ensures var x, k := run[i - 1].entries[e], run[i].entries[e].caught.value;
            && Threw(x.launch)
            && k.stopped == x.stopRequested && k.installed == x.session.Held?
            && (k.failure <==> x.session.Held? && x.session.view.lifecycle.Failed?)
  {
    StepAllFit(c, run, i);
    assert StepFits(run[i - 1].entries[e], run[i].entries[e]);
  }

  /** A startup whose factory or start threw never runs: not then, not later, and no start is ever
      published for it. */
  lemma ThrownNeverRuns(c: Config, run: seq<State>, i: nat, j: nat, e: nat)
    requires IsRun(c, run) && i <= j < |run| && e < |run[i].entries| && Threw(run[i].entries[e].launch)
    ensures e < |run[j].entries|
    ensures var y := run[j].entries[e];
            && !y.phase.Running? && y.started != [Started]
            && forall k :: 0 <= k < |y.trace| ==> !y.trace[k].kind.StartedNote?
  {
    EntryGrows(c, run, i, j, e);
    EntrySound(c, run, j, e);
  }

  /** A throw that races a stop stays a normal cancellation if and only if a session had been installed
      that reports no failure of its own, provided that the stop itself was a normal one. */
  lemma RacingStop(c: Config, run: seq<State>, i: nat, e: nat)
    requires IsRun(c, run) && 0 < i < |run| && e < |run[i - 1].entries| && e < |run[i].entries|
    requires run[i - 1].entries[e].place.AtWorker? && !run[i].entries[e].place.AtWorker?
    requires var x := run[i - 1].entries[e];
             Threw(x.launch) && x.caught.Some? && x.caught.value.stopped && !Fatal(x.outcome)
    ensures var x, y := run[i - 1].entries[e], run[i].entries[e];
            && |y.started| == 1
            && (y.started == [x.outcome] <==> x.caught.value.installed && !x.caught.value.failure)
            && (y.started == [StartupFailed] <==> !x.caught.value.installed || x.caught.value.failure)
  {
    StartupTicket(c, run, i, e);
  }

  /** A session whose incarnation has been stopped has been told so, whoever stopped it and whenever. */
  lemma StoppedSessionsAreTold(c: Config, run: seq<State>, i: nat, e: nat)
    requires IsRun(c, run) && i < |run| && e < |run[i].entries|
    requires run[i].entries[e].stopRequested && run[i].entries[e].session.Held?
    ensures var l := run[i].entries[e].session.view.lifecycle; l.Stopping? || S.Terminal(l)
  {
    EntrySound(c, run, i, e);
  }

  lemma ReportedCause(c: Config, s: State, a: Action)
    requires EntriesOk(s.entries) && AtHandOk(s.entries, s.reaper) && Enabled(s, a) && s.reaper.Reporting?
    requires Next(c, s, a).reaper != s.reaper
    ensures var x := s.entries[s.reaper.entry];
            |Next(c, s, a).entries| == |s.entries| && Next(c, s, a).entries[s.reaper.entry].outcome
            == if s.reaper.lifecycle.Failed? then (if Fatal(x.outcome) then x.outcome else LifecycleFailure)
               else if x.stopRequested then x.outcome else UnexpectedStop
  {
    assert EntryOk(s.entries[s.reaper.entry]);
    if a.DoShutdown? { StopAllReaper(c, s.(lifecycle := Draining), a.order); }
  }

  lemma {:induction false} StopAllReaper(c: Config, s: State, order: seq<nat>)
    requires forall k :: 0 <= k < |order| ==> order[k] < |s.entries|
    ensures StopAll(c, s, order).reaper == s.reaper
    decreases |order|
  {
    if order != [] { StopAllReaper(c, s, order[..|order| - 1]); }
  }

  /** When the reaper reports a session that has come to its end, the cause it leaves is the session's:
      a failure of its lifecycle, unless a fatal cause is known already, or else that nobody had asked it
      to stop, unless somebody had. */
  lemma ReaperNamesCause(c: Config, run: seq<State>, i: nat)
    requires IsRun(c, run) && 0 < i < |run| && run[i - 1].reaper.Reporting? && run[i].reaper != run[i - 1].reaper
    ensures var e := run[i - 1].reaper.entry;
            && e < |run[i - 1].entries| && e < |run[i].entries|
            && var x := run[i - 1].entries[e];
               && x.session.Held? && S.Terminal(x.session.view.lifecycle)
               && run[i].entries[e].outcome
                  == if x.session.view.lifecycle.Failed? then (if Fatal(x.outcome) then x.outcome else LifecycleFailure)
                     else if x.stopRequested then x.outcome else UnexpectedStop
  {
    PartsSound(c, run, i - 1);
    assert StepAt(c, run, i - 1);
    var a :| Enabled(run[i - 1], a) && run[i] == Next(c, run[i - 1], a);
    ReportedCause(c, run[i - 1], a);
  }
}

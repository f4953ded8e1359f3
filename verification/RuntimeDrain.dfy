/** The way down: once draining, with sessions terminal, flushed and free of leases, the runtime is
    never stuck short of Stopped, and gets there in a bounded number of steps. */
module RuntimeDrain {
  import opened Common
  import opened RuntimeModel
  import opened RuntimeInvariant
  import opened RuntimeSteps
  import S = SessionContract

  /** What the environment owes: no lease is held, and every session still owned has come to its end
      with everything delivered. */
  ghost predicate Released(e: Entry) {
    !e.place.Gone? ==>
      e.operations == 0 && (e.session.Held? ==> S.Terminal(e.session.view.lifecycle) && e.session.view.completed >= e.session.view.enqueued)
  }

  ghost predicate Settled(entries: seq<Entry>) {
    forall e {:trigger Released(entries[e])} :: 0 <= e < |entries| ==> Released(entries[e])
  }

  predicate AllExited(workers: seq<Worker>) {
    forall w :: 0 <= w < |workers| ==> workers[w].Exited?
  }

  /** The runtime's own steps, except for scans while workers are still busy, which may find nothing to
      do and be repeated. */
  predicate Advances(s: State, a: Action) {
    || WorkerAction(a) || a.DoCollect? || a.DoDeliver? || a.DoDispatchEnd?
    || (ReaperAction(a) && AllExited(s.workers) && (a.DoFlush? ==> a.flushed))
  }

  // ---------------------------------------------------------------- never stuck

  lemma WorkerMoves(c: Config, s: State, w: nat) returns (a: Action)
    requires Inv(c, s) && !s.lifecycle.Running? && w < |s.workers| && !s.workers[w].Exited?
    ensures Enabled(s, a) && WorkerAction(a)
  {
    assert WorkerOk(s.entries, w, s.workers[w]);
    match s.workers[w]
    case Waiting => a := DoExit(w);
    case Calling(_) => a := DoInstall(w);
    case Launching(_) => a := DoStartReturns(w);
    case Catching(_) => a := DoCatch(w);
    case Finishing(_, _) => a := DoFinish(w);
  }

  lemma ReaperMoves(c: Config, s: State) returns (a: Action)
    requires Inv(c, s) && Settled(s.entries) && !s.reaper.Ended?
    ensures Enabled(s, a) && ReaperAction(a) && (a.DoFlush? ==> a.flushed)
  {
    if AtHand(s.reaper).Some? { assert Released(s.entries[s.reaper.entry]); }
    match s.reaper
    case Resting => a := DoScanBegin;
    case Scanning =>
      if s.todo == {} {
        a := DoScanEnd;
      } else {
        var e :| e in s.todo;
        a := DoVisit(e);
      }
    case Looking(_) => a := DoRead;
    case Reporting(_, _) => a := DoReport;
    case Flushing(_) => a := DoFlush(true);
    case Claiming(_) => a := DoClaim;
    case TearingDown(_) => a := DoTeardown;
    case Erasing(_) => a := DoErase;
  }

  lemma DispatcherMoves(c: Config, s: State) returns (a: Action)
    requires Inv(c, s) && s.reaper.Ended? && !s.lifecycle.Stopped?
    ensures Enabled(s, a) && (a.DoCollect? || a.DoDeliver? || a.DoDispatchEnd?)
  {
    a := if s.mail.inFlight.Some? then DoDeliver(false) else if s.mail.queue != [] then DoCollect else DoDispatchEnd;
  }

  /** No deadlock on the way down: a draining runtime whose environment is settled has stopped, or can
      take a step that advances it. */
  lemma DrainNeverStuck(c: Config, s: State)
    requires Inv(c, s) && !s.lifecycle.Running? && Settled(s.entries)
    ensures s.lifecycle.Stopped? || CanAdvance(s)
  {
    if !AllExited(s.workers) {
      var w :| 0 <= w < |s.workers| && !s.workers[w].Exited?;
      var a := WorkerMoves(c, s, w);
      assert CanTake(s, a);
    } else if !s.reaper.Ended? {
      var a := ReaperMoves(c, s);
      assert CanTake(s, a);
    } else if !s.lifecycle.Stopped? {
      var a := DispatcherMoves(c, s);
      assert CanTake(s, a);
    }
  }

  predicate CanTake(s: State, a: Action) { Enabled(s, a) && Advances(s, a) }

  ghost predicate CanAdvance(s: State) { exists a :: CanTake(s, a) }

  // ---------------------------------------------------------------- the measure

  function Load(pc: Worker): nat {
    match pc
    case Exited => 0
    case Waiting => 1
    case Finishing(_, _) => 2
    case Catching(_) => 3
    case Launching(_) => 4
    case Calling(_) => 5
  }

  function Loads(workers: seq<Worker>): nat {
    if workers == [] then 0 else Loads(workers[..|workers| - 1]) + Load(workers[|workers| - 1])
  }

  lemma {:induction false} LoadsUpdate(workers: seq<Worker>, w: nat, pc: Worker)
    requires w < |workers|
    ensures Loads(workers[w := pc]) == Loads(workers) - Load(workers[w]) + Load(pc)
    decreases |workers|
  {
    var n := |workers| - 1;
    if w < n {
      LoadsUpdate(workers[..n], w, pc);
      assert workers[w := pc][..n] == workers[..n][w := pc];
    } else {
      assert workers[w := pc][..n] == workers[..n];
    }
  }

  /** How far the reaper is from the next incarnation, or from its end. */
  function Stage(r: Reaper, todo: set<nat>): nat {
    match r
    case Ended => 0
    case Erasing(_) => 1
    case TearingDown(_) => 2
    case Claiming(_) => 3
    case Flushing(_) => 4
    case Reporting(_, _) => 5
    case Looking(_) => 6
    case Scanning => if todo == {} then 9 else 7
    case Resting => 8
  }

  function Backlog(m: Mail): nat {
    2 * |m.queue| + (if m.inFlight.Some? then 1 else 0) + if m.ended then 0 else 1
  }

  /** What is left to do: steps of workers, incarnations to retire, notifications to deliver. */
  function Left(s: State): nat {
    Loads(s.workers) + 12 * |s.registry| + Stage(s.reaper, s.todo) + Backlog(s.mail)
  }

  /** A worker's step while draining publishes nothing. */
  lemma WorkerStepSilent(c: Config, s: State, a: Action)
    requires Inv(c, s) && !s.lifecycle.Running? && Enabled(s, a) && WorkerAction(a)
    ensures var s' := Next(c, s, a);
            && s'.registry == s.registry && s'.reaper == s.reaper && s'.todo == s.todo && s'.mail == s.mail
            && s'.workers == s.workers[a.worker := s'.workers[a.worker]]
            && Load(s'.workers[a.worker]) < Load(s.workers[a.worker])
  {
    assert WorkerOk(s.entries, a.worker, s.workers[a.worker]);
    if a.DoFinish? { FinishSilent(c, s, a.worker); }
  }

  lemma FinishSilent(c: Config, s: State, w: nat)
    requires Inv(c, s) && !s.lifecycle.Running? && Enabled(s, DoFinish(w))
    ensures var t := Finish(c, s, w);
            && t.mail == s.mail && t.registry == s.registry && t.reaper == s.reaper && t.todo == s.todo
            && t.workers == s.workers[w := Waiting]
  {
    var e := s.workers[w].entry;
    assert s.entries[e].stopRequested;
    StopEntryEffect(c, s, e, StartupFailed);
  }

  lemma WorkerLowers(c: Config, s: State, a: Action)
    requires Inv(c, s) && !s.lifecycle.Running? && Enabled(s, a) && WorkerAction(a)
    ensures Left(Next(c, s, a)) < Left(s)
  {
    WorkerStepSilent(c, s, a);
    LoadsUpdate(s.workers, a.worker, Next(c, s, a).workers[a.worker]);
  }

  lemma {:induction false} AllExitedCount(workers: seq<Worker>)
    requires AllExited(workers)
    ensures ExitedCount(workers) == |workers|
  {
    if workers != [] { AllExitedCount(workers[..|workers| - 1]); }
  }

  /** With no worker left, every incarnation that has not left is the reaper's to retire. */
  lemma OnlyIdleLeft(c: Config, s: State, e: nat)
    requires Inv(c, s) && !s.lifecycle.Running? && AllExited(s.workers)
    requires e < |s.entries| && !Leaving(s.entries[e].place)
    ensures s.entries[e].place.Idle? && s.entries[e].startupDone
  {
    assert EntryOk(s.entries[e]);
  }

  lemma ScanBeginLowers(c: Config, s: State)
    requires Inv(c, s) && !s.lifecycle.Running? && AllExited(s.workers) && s.reaper.Resting?
    ensures Left(ScanBegin(c, s)) < Left(s)
  {
    AllExitedCount(s.workers);
    if s.registry != map[] {
      var id :| id in s.registry;
      assert s.registry[id] in s.registry.Values;
    }
  }

  lemma VisitLowers(c: Config, s: State, e: nat)
    requires Inv(c, s) && !s.lifecycle.Running? && AllExited(s.workers) && Enabled(s, DoVisit(e))
    ensures Left(Visit(s, e)) < Left(s)
  {
    OnlyIdleLeft(c, s, e);
  }

  lemma ReadLowers(s: State)
    requires Enabled(s, DoRead) && S.Terminal(s.entries[s.reaper.entry].session.view.lifecycle)
    ensures Left(Read(s)) < Left(s)
  {
  }

  lemma ReportLowers(c: Config, s: State)
    requires EntriesOk(s.entries) && Enabled(s, DoReport) && s.entries[s.reaper.entry].stopRequested
    ensures Left(Report(c, s)) < Left(s)
  {
    StopEntryEffect(c, s, s.reaper.entry, LifecycleFailure);
  }

  lemma RetireLowers(c: Config, s: State, a: Action)
    requires Enabled(s, a) && (a == DoFlush(true) || a.DoTeardown? || (a.DoClaim? && s.entries[s.reaper.entry].operations == 0))
    ensures Left(Next(c, s, a)) < Left(s)
  {
  }

  lemma EraseLowers(c: Config, s: State)
    requires Inv(c, s) && Enabled(s, DoErase)
    ensures Left(Erase(c, s)) < Left(s)
  {
    var e := s.reaper.entry;
    EraseRegistry(s.entries, e, EraseChange(s.entries[e]), s.pending, s.registry);
  }

  lemma DispatchLowers(c: Config, s: State, a: Action)
    requires Enabled(s, a) && (a.DoCollect? || a.DoDeliver? || a.DoDispatchEnd?)
    ensures Left(Next(c, s, a)) < Left(s)
  {
  }

  lemma ReaperLowers(c: Config, s: State, a: Action)
    requires Inv(c, s) && !s.lifecycle.Running? && Settled(s.entries) && AllExited(s.workers)
    requires Enabled(s, a) && ReaperAction(a) && (a.DoFlush? ==> a.flushed)
    ensures Left(Next(c, s, a)) < Left(s)
  {
    if AtHand(s.reaper).Some? { assert Released(s.entries[s.reaper.entry]); }
    match a
    case DoScanBegin => ScanBeginLowers(c, s);
    case DoVisit(e) => VisitLowers(c, s, e);
    case DoRead => ReadLowers(s);
    case DoReport => ReportLowers(c, s);
    case DoErase => EraseLowers(c, s);
    case DoScanEnd =>
    case _ => RetireLowers(c, s, a);
  }

  /** Every advancing step lowers what is left to do. */
  lemma AdvanceLowers(c: Config, s: State, a: Action)
    requires Inv(c, s) && !s.lifecycle.Running? && Settled(s.entries) && Enabled(s, a) && Advances(s, a)
    ensures Left(Next(c, s, a)) < Left(s)
  {
    if WorkerAction(a) {
      WorkerLowers(c, s, a);
    } else if ReaperAction(a) {
      ReaperLowers(c, s, a);
    } else {
      DispatchLowers(c, s, a);
    }
  }

  // ---------------------------------------------------------------- the drain comes to its end

  ghost predicate AdvanceAt(c: Config, run: seq<State>, i: nat)
    requires i + 1 < |run|
  {
    exists a :: CanTake(run[i], a) && run[i + 1] == Next(c, run[i], a)
  }

  /** A drain that is left alone: settled all along, and every step advances it. */
  ghost predicate IsDrain(c: Config, run: seq<State>) {
    && |run| > 0 && Inv(c, run[0]) && !run[0].lifecycle.Running?
    && (forall i {:trigger Settled(run[i].entries)} :: 0 <= i < |run| ==> Settled(run[i].entries))
    && (forall i :: 0 <= i < |run| - 1 ==> AdvanceAt(c, run, i))
  }

  lemma DrainStep(c: Config, run: seq<State>, i: nat)
    requires IsDrain(c, run) && 0 < i < |run| && Inv(c, run[i - 1]) && !run[i - 1].lifecycle.Running?
    ensures Inv(c, run[i]) && !run[i].lifecycle.Running? && Left(run[i]) < Left(run[i - 1])
  {
    assert AdvanceAt(c, run, i - 1) && Settled(run[i - 1].entries);
    var a :| CanTake(run[i - 1], a) && run[i] == Next(c, run[i - 1], a);
    NextInv(c, run[i - 1], a);
    AdvanceLowers(c, run[i - 1], a);
    StillDraining(c, run[i - 1], a);
  }

  lemma StillDraining(c: Config, s: State, a: Action)
    requires Enabled(s, a) && !s.lifecycle.Running? && (WorkerAction(a) || ReaperAction(a) || a.DoCollect? || a.DoDeliver? || a.DoDispatchEnd?)
    ensures !Next(c, s, a).lifecycle.Running?
  {
  }

  lemma {:induction false} DrainIsBounded(c: Config, run: seq<State>, i: nat)
    requires IsDrain(c, run) && i < |run|
    ensures Inv(c, run[i]) && !run[i].lifecycle.Running? && i + Left(run[i]) <= Left(run[0])
  {
    if i > 0 {
      DrainIsBounded(c, run, i - 1);
      DrainStep(c, run, i);
    }
  }

  /** Left alone, a drain takes no more steps than there was left to do, and when it can go no further
      the runtime has stopped. */
  lemma DrainEndsStopped(c: Config, run: seq<State>, last: nat)
    requires IsDrain(c, run) && |run| == last + 1 && !CanAdvance(run[last])
    ensures last <= Left(run[0]) && run[last].lifecycle.Stopped?
  {
    DrainIsBounded(c, run, last);
    LastIsStopped(c, run[last]);
  }

  lemma LastIsStopped(c: Config, s: State)
    requires Inv(c, s) && !s.lifecycle.Running? && Settled(s.entries) && !CanAdvance(s)
    ensures s.lifecycle.Stopped?
  {
    DrainNeverStuck(c, s);
  }
}

/** The runtime manager object: its fields, and one method for each of its mutex regions. */
module RuntimeManagers {
  import opened Common
  import opened RuntimeModel
  import opened RuntimeInvariant
  import opened RuntimeSteps
  import S = SessionContract

  lemma WalkStep(c: Config, s: State, order: seq<nat>, e: nat)
    requires (forall k :: 0 <= k < |order| ==> order[k] < |s.entries|) && e < |s.entries|
    ensures StopAll(c, s, order + [e]) == StopEntry(c, StopAll(c, s, order), e, RuntimeShutdown)
    ensures (set x | x in order + [e]) == (set x | x in order) + {e}
  {
    assert (order + [e])[..|order|] == order;
  }

  class RuntimeManager {
    const config: Config
    var lifecycle: Lifecycle
    var registry: map<string, nat>
    var entries: seq<Entry>
    var pending: seq<nat>
    var counters: Counters
    var mail: Mail
    var workers: seq<Worker>
    var workersDone: nat
    var reaper: Reaper
    var todo: set<nat>

    ghost function Model(): State
      reads this
    {
      State(lifecycle, registry, entries, pending, counters, mail, workers, workersDone, reaper, todo)
    }

    ghost predicate Valid()
      reads this
    {
      Inv(config, Model())
    }

    constructor (c: Config)
      requires ValidConfig(c)
      ensures config == c && Model() == Init(c) && Valid()
    {
      config := c;
      lifecycle, registry, entries, pending := Lifecycle.Running, map[], [], [];
      counters := Counters(0, 0, 0, map[]);
      mail := Mail([], 1, 0, 0, 0, 0, 0, 0, 0, None, false, []);
      workers, workersDone := seq(c.workers, i => Waiting), 0;
      reaper, todo := Resting, {};
      new;
      InitInv(c);
    }

    /** A limit of zero is refused, and so is an interval that is not positive. */
    static method Create(c: Config) returns (r: Result<RuntimeManager>)
      ensures ValidConfig(c) <==> r.Done?
      ensures r.Done? ==> fresh(r.value) && r.value.config == c && r.value.Model() == Init(c)
      ensures r.Throws? ==> r.reason == "runtime limits must be positive"
    {
      if c.maxSessions == 0 || c.maxPending == 0 || c.workers == 0 || c.maxNotifications == 0 || c.maxIdBytes == 0
         || c.interval <= 0
      {
        return Throws("runtime limits must be positive");
      }
      var manager := new RuntimeManager(c);
      return Result.Done(manager);
    }

    method PublishNotice(h: Handle, n: Notice)
      modifies this`mail
      ensures mail == Publish(config, old(mail), h, n)
    {
      if !config.observed { return; }
      var number := mail.sequence;
      mail := mail.(sequence := number + 1);
      if |mail.queue| < config.maxNotifications && config.room(number) {
        var item := Notification(number, h, n);
        mail := mail.(queue := mail.queue + [item], log := mail.log + [item], enqueued := mail.enqueued + 1);
        if mail.watermark < |mail.queue| { mail := mail.(watermark := |mail.queue|); }
        return;
      }
      mail := mail.(dropped := mail.dropped + 1, lastDropped := number);
      if mail.firstDropped == 0 { mail := mail.(firstDropped := number); }
    }

    method Stop(e: nat, reason: Outcome)
      requires e < |entries|
      modifies this`entries, this`pending, this`mail
      ensures Model() == StopEntry(config, old(Model()), e, reason)
    {
      var x := entries[e];
      if x.phase.Retiring? { return; }
      var first := !x.stopRequested;
      var escalation := Fatal(reason) && !Fatal(x.outcome);
      if !first && !escalation { return; }
      x := x.(outcome := reason, reasons := x.reasons + [reason]);
      if first && x.phase.Reserved? {
        pending := RemoveFirst(pending, e);
        x := x.(cancelled := true, startupDone := true, place := Idle);
      }
      x := x.(stopRequested := true, phase := StopRequested);
      if x.session.Held? { x := x.(session := Held(S.RequestStop(x.session.view))); }
      if first {
        x := x.(trace := x.trace + [Notice(StopNote, reason)]);
        PublishNotice(HandleOf(config, entries, e), Notice(StopNote, reason));
      }
      entries := entries[e := x];
    }

    method AddSession(id: string, callable: bool) returns (status: Admission, handle: Option<Handle>)
      modifies this
      ensures Model() == Add(config, old(Model()), id, callable)
      ensures status == Admit(config, old(Model()), id, callable)
      ensures handle == if status.Accepted? then Some(HandleOf(config, entries, |entries| - 1)) else None
    {
      handle := None;
      if id == "" || |id| > config.maxIdBytes || !callable { status := InvalidRequest; }
      else if !lifecycle.Running? { status := RuntimeDraining; }
      else if id in registry { status := DuplicateId; }
      else if |registry| >= config.maxSessions { status := CapacityReached; }
      else if |pending| >= config.maxPending { status := StartupQueueFull; }
      else {
        status := Accepted;
        var e := |entries|;
        handle := Some(Handle(config.runtime, id, e + 1));
        entries := entries + [Reserve(id)];
        registry := registry[id := e];
        pending := pending + [e];
        counters := counters.(admitted := counters.admitted + 1);
        PublishNotice(handle.value, Notice(ReservedNote, NoOutcome));
        return;
      }
      counters := Reject(counters, status);
    }

    method RemoveSession(h: Handle, reason: Outcome) returns (reply: Removal)
      requires forall id :: id in registry ==> registry[id] < |entries|
      modifies this`entries, this`pending, this`mail
      ensures Model() == Remove(config, old(Model()), h, reason)
      ensures reply == RemovalReply(config, old(Model()), h)
    {
      if h.runtime != config.runtime { return StaleHandle; }
      if h.id !in registry { return NotFound; }
      var e := registry[h.id];
      if h.generation != e + 1 { return StaleHandle; }
      var already := entries[e].stopRequested;
      Stop(e, reason);
      return if already then AlreadyRequested else Requested;
    }

    /** The lease every operation on a session starts with. */
    method BeginOperation(h: Handle) returns (entry: Option<nat>)
      requires forall id :: id in registry ==> registry[id] < |entries|
      modifies this`entries
      ensures Model() == OpBegin(config, old(Model()), h) && entry == Admissible(config, old(Model()), h)
    {
      if h.runtime != config.runtime || h.id !in registry || registry[h.id] + 1 != h.generation { return None; }
      var e := registry[h.id];
      if !lifecycle.Running? || !entries[e].phase.Running? || entries[e].stopRequested { return None; }
      entries := entries[e := entries[e].(operations := entries[e].operations + 1)];
      return Some(e);
    }

    method EndOperation(e: nat)
      requires e < |entries| && entries[e].operations > 0
      modifies this`entries
      ensures Model() == OpEnd(old(Model()), e)
    {
      entries := entries[e := entries[e].(operations := entries[e].operations - 1)];
    }

    /** One step of the walk below; `s0` is the state before it and `order` what it has met. */
    method ShutdownNext(e: nat, ghost s0: State, ghost order: seq<nat>)
      requires (forall k :: 0 <= k < |order| ==> order[k] < |s0.entries|) && e < |s0.entries|
      requires Model() == StopAll(config, s0, order)
      modifies this`entries, this`pending, this`mail
      ensures Model() == StopAll(config, s0, order + [e])
      ensures (set x | x in order + [e]) == (set x | x in order) + {e}
    {
      WalkStep(config, s0, order, e);
      Stop(e, RuntimeShutdown);
    }

    /** Walks the registry, in some order; only the first request does anything. */
    method BeginShutdown() returns (ghost order: seq<nat>)
      requires forall id :: id in registry ==> registry[id] < |entries|
      modifies this`lifecycle, this`entries, this`pending, this`mail
      ensures !old(lifecycle.Running?) ==> Model() == old(Model())
      ensures old(lifecycle.Running?) ==> Enabled(old(Model()), DoShutdown(order)) && Model() == RequestShutdown(config, old(Model()), order)
    {
      order := [];
      if !lifecycle.Running? { return; }
      lifecycle := Draining;
      ghost var s0 := Model();
      var rest := registry.Values;
      ghost var met: set<nat> := {};
      while rest != {}
        invariant met + rest == registry.Values && (set e | e in order) == met
        invariant forall k :: 0 <= k < |order| ==> order[k] < |s0.entries|
        invariant Model() == StopAll(config, s0, order)
        decreases rest
      {
        var e :| e in rest;
        ShutdownNext(e, s0, order);
        rest, order, met := rest - {e}, order + [e], met + {e};
      }
    }

    // -------------------------------------------------------------- startup workers

    method WorkerTake(w: nat)
      requires Enabled(Model(), DoTake(w))
      modifies this`entries, this`pending, this`workers
      ensures Model() == Take(old(Model()), w)
    {
      var e := pending[0];
      pending := pending[1..];
      var attempt := !entries[e].stopRequested;
      entries := entries[e := entries[e].(place := AtWorker(w))];
      if attempt { entries := entries[e := entries[e].(phase := Starting)]; }
      workers := workers[w := if attempt then Calling(e) else Finishing(e, false)];
    }

    method WorkerInstall(w: nat)
      requires Enabled(Model(), DoInstall(w))
      modifies this`entries, this`workers
      ensures Model() == Install(old(Model()), w)
    {
      var e := workers[w].entry;
      var start := !entries[e].stopRequested;
      var x := entries[e].(session := Held(S.FRESH));
      if !start { x := x.(session := Held(S.RequestStop(x.session.view)), launch := Preempted); }
      entries := entries[e := x];
      workers := workers[w := if start then Launching(e) else Finishing(e, false)];
    }

    method WorkerReturned(w: nat)
      requires Enabled(Model(), DoStartReturns(w))
      modifies this`entries, this`workers
      ensures Model() == Next(config, old(Model()), DoStartReturns(w))
    {
      var e := workers[w].entry;
      entries := entries[e := entries[e].(launch := StartReturned)];
      workers := workers[w := Finishing(e, false)];
    }

    /** The factory or the start threw. */
    method WorkerThrew(w: nat)
      requires Enabled(Model(), DoFactoryThrows(w)) || Enabled(Model(), DoStartThrows(w))
      modifies this`entries, this`workers
      ensures Model() == Launched(old(Model()), w, if old(workers[w]).Calling? then FactoryThrew else StartThrew)
    {
      var e := workers[w].entry;
      entries := entries[e := entries[e].(launch := if workers[w].Calling? then FactoryThrew else StartThrew)];
      workers := workers[w := Catching(e)];
    }

    method WorkerCatch(w: nat)
      requires Enabled(Model(), DoCatch(w))
      modifies this`entries, this`workers
      ensures Model() == Catch(old(Model()), w)
    {
      var e := workers[w].entry;
      var installed := entries[e].session.Held?;
      var failure := installed && entries[e].session.view.lifecycle.Failed?;
      var failed := !entries[e].stopRequested || !installed || failure;
      entries := entries[e := entries[e].(caught := Some(Caught(entries[e].stopRequested, installed, failure)))];
      workers := workers[w := Finishing(e, failed)];
    }

    method WorkerFinish(w: nat)
      requires Enabled(Model(), DoFinish(w))
      modifies this`entries, this`pending, this`mail, this`workers
      ensures Model() == Finish(config, old(Model()), w)
    {
      var e := workers[w].entry;
      if workers[w].failed { Stop(e, StartupFailed); }
      var x := entries[e].(startupDone := true, place := Idle);
      if !x.stopRequested {
        x := x.(phase := Phase.Running, started := x.started + [Started], trace := x.trace + [Notice(StartedNote, Started)]);
        PublishNotice(HandleOf(config, entries, e), Notice(StartedNote, Started));
      } else {
        x := x.(started := x.started + [x.outcome]);
      }
      entries := entries[e := x];
      workers := workers[w := Waiting];
    }

    method WorkerExit(w: nat)
      requires Enabled(Model(), DoExit(w))
      modifies this`workers, this`workersDone
      ensures Model() == Exit(old(Model()), w)
    {
      workersDone := workersDone + 1;
      workers := workers[w := Exited];
    }

    // -------------------------------------------------------------- the reaper

    method ReaperBegin()
      requires reaper.Resting?
      modifies this`reaper, this`todo
      ensures Model() == ScanBegin(config, old(Model()))
    {
      if registry == map[] && !lifecycle.Running? && workersDone == config.workers {
        reaper := Reaper.Ended;
      } else {
        reaper, todo := Scanning, registry.Values;
      }
    }

    method ReaperVisit(e: nat)
      requires Enabled(Model(), DoVisit(e))
      modifies this`reaper, this`todo
      ensures Model() == Visit(old(Model()), e)
    {
      todo := todo - {e};
      if entries[e].startupDone {
        reaper := if entries[e].session.Held? then Looking(e) else Claiming(e);
      }
    }

    method ReaperRead()
      requires Enabled(Model(), DoRead)
      modifies this`reaper
      ensures Model() == Read(old(Model()))
    {
      var l := entries[reaper.entry].session.view.lifecycle;
      reaper := if S.Terminal(l) then Reporting(reaper.entry, l) else Scanning;
    }

    method ReaperReport()
      requires Enabled(Model(), DoReport)
      modifies this`entries, this`pending, this`mail, this`reaper
      ensures Model() == Report(config, old(Model()))
    {
      var e := reaper.entry;
      if reaper.lifecycle.Failed? { Stop(e, LifecycleFailure); }
      else if !entries[e].stopRequested { Stop(e, UnexpectedStop); }
      reaper := Flushing(e);
    }

    method ReaperFlush(flushed: bool)
      requires Enabled(Model(), DoFlush(flushed))
      modifies this`reaper
      ensures Model() == Next(config, old(Model()), DoFlush(flushed))
    {
      reaper := if flushed then Claiming(reaper.entry) else Scanning;
    }

    method ReaperClaim()
      requires Enabled(Model(), DoClaim)
      modifies this`entries, this`reaper
      ensures Model() == Claim(old(Model()))
    {
      var e := reaper.entry;
      if entries[e].operations > 0 {
        reaper := Scanning;
        return;
      }
      var x := entries[e].(phase := Retiring, place := AtReaper);
      if x.session.Held? { x := x.(session := Taken(x.session.view)); }
      entries := entries[e := x];
      reaper := TearingDown(e);
    }

    method ReaperTeardown()
      requires Enabled(Model(), DoTeardown)
      modifies this`entries, this`reaper
      ensures Model() == Teardown(old(Model()))
    {
      var e := reaper.entry;
      if entries[e].session.Taken? {
        entries := entries[e := entries[e].(session := Destroyed(entries[e].session.view))];
      }
      reaper := Erasing(e);
    }

    method ReaperErase()
      requires Enabled(Model(), DoErase)
      modifies this`entries, this`registry, this`counters, this`mail, this`reaper
      ensures Model() == Erase(config, old(Model()))
    {
      var e := reaper.entry;
      var x := entries[e];
      counters := counters.(retired := counters.retired + 1);
      if Fatal(x.outcome) { counters := counters.(failures := counters.failures + 1); }
      registry := registry - {x.id};
      if x.cancelled { x := x.(started := x.started + [x.outcome]); }
      PublishNotice(HandleOf(config, entries, e), Notice(RetiredNote, x.outcome));
      entries := entries[e := x.(trace := x.trace + [Notice(RetiredNote, x.outcome)], retired := x.retired + [x.outcome], place := Gone)];
      reaper := Scanning;
    }

    method ReaperRest()
      requires Enabled(Model(), DoScanEnd)
      modifies this`reaper
      ensures Model() == Next(config, old(Model()), DoScanEnd)
    {
      reaper := Resting;
    }

    // -------------------------------------------------------------- the dispatcher

    method DispatcherCollect()
      requires Enabled(Model(), DoCollect)
      modifies this`mail
      ensures Model() == Next(config, old(Model()), DoCollect)
    {
      mail := mail.(inFlight := Some(mail.queue[0]), queue := mail.queue[1..]);
    }

    method DispatcherDelivered(error: bool)
      requires Enabled(Model(), DoDeliver(error))
      modifies this`mail
      ensures Model() == Next(config, old(Model()), DoDeliver(error))
    {
      if error { mail := mail.(observerFailures := mail.observerFailures + 1); }
      mail := mail.(delivered := mail.delivered + 1, inFlight := None);
    }

    method DispatcherEnd()
      requires Enabled(Model(), DoDispatchEnd)
      modifies this`mail, this`lifecycle
      ensures Model() == Next(config, old(Model()), DoDispatchEnd)
    {
      lifecycle := Lifecycle.Stopped;
      mail := mail.(ended := true);
    }

    // -------------------------------------------------------------- every region keeps the invariant

    method PerformWorker(a: Action)
      requires Valid() && Enabled(Model(), a) && (a.DoTake? || a.DoInstall? || a.DoFinish? || a.DoExit?)
      modifies this
      ensures Valid() && Model() == Next(config, old(Model()), a)
    {
      NextInv(config, Model(), a);
      match a
      case DoTake(w) => WorkerTake(w);
      case DoInstall(w) => WorkerInstall(w);
      case DoFinish(w) => WorkerFinish(w);
      case DoExit(w) => WorkerExit(w);
    }

    method PerformLaunch(a: Action)
      requires Valid() && Enabled(Model(), a) && (a.DoFactoryThrows? || a.DoStartReturns? || a.DoStartThrows? || a.DoCatch?)
      modifies this
      ensures Valid() && Model() == Next(config, old(Model()), a)
    {
      NextInv(config, Model(), a);
      match a
      case DoFactoryThrows(w) => WorkerThrew(w);
      case DoStartReturns(w) => WorkerReturned(w);
      case DoStartThrows(w) => WorkerThrew(w);
      case DoCatch(w) => WorkerCatch(w);
    }

    method PerformScan(a: Action)
      requires Valid() && Enabled(Model(), a) && (a.DoScanBegin? || a.DoVisit? || a.DoRead? || a.DoFlush? || a.DoScanEnd?)
      modifies this
      ensures Valid() && Model() == Next(config, old(Model()), a)
    {
      NextInv(config, Model(), a);
      match a
      case DoScanBegin => ReaperBegin();
      case DoVisit(e) => ReaperVisit(e);
      case DoRead => ReaperRead();
      case DoFlush(flushed) => ReaperFlush(flushed);
      case DoScanEnd => ReaperRest();
    }

    method PerformRetirement(a: Action)
      requires Valid() && Enabled(Model(), a) && (a.DoReport? || a.DoClaim? || a.DoTeardown?)
      modifies this
      ensures Valid() && Model() == Next(config, old(Model()), a)
    {
      NextInv(config, Model(), a);
      match a
      case DoReport => ReaperReport();
      case DoClaim => ReaperClaim();
      case DoTeardown => ReaperTeardown();
    }

    method PerformErase()
      requires Valid() && Enabled(Model(), DoErase)
      modifies this
      ensures Valid() && Model() == Next(config, old(Model()), DoErase)
    {
      NextInv(config, Model(), DoErase);
      ReaperErase();
    }

    method PerformClient(a: Action)
      requires Valid() && Enabled(Model(), a) && (a.DoAdd? || a.DoRemove? || a.DoOpBegin? || a.DoOpEnd?)
      modifies this
      ensures Valid() && Model() == Next(config, old(Model()), a)
    {
      NextInv(config, Model(), a);
      match a
      case DoAdd(id, callable) => var _, _ := AddSession(id, callable);
      case DoRemove(handle, reason) => var _ := RemoveSession(handle, reason);
      case DoOpBegin(handle) => var _ := BeginOperation(handle);
      case DoOpEnd(e) => EndOperation(e);
    }

    method PerformShutdown() returns (ghost order: seq<nat>)
      requires Valid()
      modifies this
      ensures Valid() && !lifecycle.Running?
    {
      ghost var s := Model();
      order := BeginShutdown();
      if s.lifecycle.Running? {
        NextInv(config, s, DoShutdown(order));
        DrainingAtOnce(config, s, order);
      }
    }
  }

  lemma DrainingAtOnce(c: Config, s: State, order: seq<nat>)
    requires Inv(c, s) && Enabled(s, DoShutdown(order))
    ensures !RequestShutdown(c, s, order).lifecycle.Running?
  {
    if s.lifecycle.Running? {
      ShutdownStart(c, s, order);
      StopAllSweeps(c, s.(lifecycle := Draining), order);
    }
  }
}

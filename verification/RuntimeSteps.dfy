/** Every step of the runtime manager keeps the invariant. */
module RuntimeSteps {
  import opened Common
  import opened RuntimeModel
  import opened RuntimeInvariant
  import S = SessionContract

  // ---------------------------------------------------------------- building blocks

  /** A change of one incarnation that leaves its thread's assumptions alone. */
  lemma AdvanceCore(c: Config, s: State, e: nat, x: Entry)
    requires Core(c, s) && e < |s.entries|
    requires EntryOk(x) && Advances(s.entries[e], x) && !s.entries[e].place.Gone?
    ensures Core(c, SetEntry(s, e, x))
  {
    var entries' := s.entries[e := x];
    PlacesKept(s.entries, entries', s.pending, s.registry);
    AdvanceThreads(s.entries, e, x, s.workers, s.reaper, s.todo);
    LeaversKept(s.entries, entries');
  }

  lemma AdvanceThreads(entries: seq<Entry>, e: nat, x: Entry, workers: seq<Worker>, r: Reaper, todo: set<nat>)
    requires e < |entries| && Advances(entries[e], x) && EntriesOk(entries)
    requires WorkersOk(entries, workers) && ReaperOk(entries, r, todo)
    ensures WorkersOk(entries[e := x], workers) && ReaperOk(entries[e := x], r, todo)
  {
    var entries' := entries[e := x];
    forall i | 0 <= i < |entries|
      ensures KeptForWorkers(entries[i], entries'[i]) && KeptForReaper(entries[i], entries'[i])
    {
      assert EntryOk(entries[i]);
      if i != e { UnchangedAdvances(entries[i]); }
    }
    WorkersKept(entries, entries', workers);
    ReaperKept(entries, entries', r, todo);
  }

  lemma UnchangedAdvances(e: Entry)
    requires SessionOk(e.session)
    ensures Advances(e, e)
  {
  }

  /** Publishing is possible as long as an incarnation is registered. */
  lemma PublishCore(c: Config, s: State, e: nat, n: Notice)
    requires Core(c, s) && e < |s.entries| && !s.entries[e].place.Gone?
    ensures !s.reaper.Ended? && !s.mail.ended
    ensures Core(c, s.(mail := Publish(c, s.mail, HandleOf(c, s.entries, e), n)))
  {
    PublishOk(c, s.mail, HandleOf(c, s.entries, e), n);
    assert s.entries[e].id in s.registry;
  }

  /** Cancelling a reservation takes it out of the startup queue. */
  lemma CancelCore(c: Config, s: State, e: nat, reason: Outcome)
    requires Core(c, s) && e < |s.entries| && s.entries[e].place.Queued? && IsReason(reason)
    ensures Core(c, s.(entries := s.entries[e := StopChange(s.entries[e], reason)], pending := RemoveFirst(s.pending, e)))
  {
    var x := StopChange(s.entries[e], reason);
    var entries' := s.entries[e := x];
    assert EntryOk(s.entries[e]);
    StopEntryOk(s.entries[e], reason);
    CancelThreads(s.entries, e, x, s.workers, s.reaper, s.todo);
    CancelQueue(s.entries, e, x, s.pending, s.registry);
    LeaversKept(s.entries, entries');
  }

  lemma CancelThreads(entries: seq<Entry>, e: nat, x: Entry, workers: seq<Worker>, r: Reaper, todo: set<nat>)
    requires e < |entries| && entries[e].place.Queued? && x.place.Idle? && EntriesOk(entries)
    requires WorkersOk(entries, workers) && ReaperOk(entries, r, todo)
    ensures WorkersOk(entries[e := x], workers) && ReaperOk(entries[e := x], r, todo)
  {
    var entries' := entries[e := x];
    forall i | 0 <= i < |entries|
      ensures KeptForWorkers(entries[i], entries'[i]) && KeptForReaper(entries[i], entries'[i])
    {
      assert EntryOk(entries[i]);
      if i != e { UnchangedAdvances(entries[i]); }
    }
    WorkersKept(entries, entries', workers);
    ReaperKept(entries, entries', r, todo);
  }

  lemma CancelQueue(entries: seq<Entry>, e: nat, x: Entry, pending: seq<nat>, registry: map<string, nat>)
    requires e < |entries| && entries[e].place.Queued? && x.place.Idle? && x.id == entries[e].id
    requires PendingOk(entries, pending) && RegistryOk(entries, registry)
    ensures PendingOk(entries[e := x], RemoveFirst(pending, e)) && RegistryOk(entries[e := x], registry)
  {
    var rest := RemoveFirst(pending, e);
    forall k | 0 <= k < |rest| ensures rest[k] < |entries| && rest[k] != e && entries[rest[k]].place.Queued? {
      assert rest[k] in pending;
    }
  }

  /** Requesting a stop, first or again, keeps everything but the drain condition. */
  lemma StopEntryCore(c: Config, s: State, e: nat, reason: Outcome)
    requires Core(c, s) && e < |s.entries| && !s.entries[e].place.Gone? && IsReason(reason)
    ensures Core(c, StopEntry(c, s, e, reason))
  {
    var x := s.entries[e];
    assert EntryOk(x);
    if TakesEffect(x, reason) {
      StopEntryOk(x, reason);
      var t := s.(entries := s.entries[e := StopChange(x, reason)],
                  pending := if x.place.Queued? then RemoveFirst(s.pending, e) else s.pending);
      if x.place.Queued? {
        CancelCore(c, s, e, reason);
      } else {
        StopAdvances(x, reason);
        AdvanceCore(c, s, e, StopChange(x, reason));
      }
      PublishCore(c, t, e, Notice(StopNote, reason));
    }
  }

  /** A stop leaves the other incarnations alone and is remembered. */
  lemma StopEntryEffect(c: Config, s: State, e: nat, reason: Outcome)
    requires EntriesOk(s.entries) && e < |s.entries| && IsReason(reason)
    ensures var t := StopEntry(c, s, e, reason);
            && t == s.(entries := t.entries, pending := t.pending, mail := t.mail)
            && EntriesOk(t.entries) && |t.entries| == |s.entries| && t.entries[e] == StopChange(s.entries[e], reason) && t.entries[e].stopRequested
            && (forall i :: 0 <= i < |s.entries| && i != e ==> t.entries[i] == s.entries[i])
            && (forall i :: 0 <= i < |s.entries| && s.entries[i].stopRequested ==> t.entries[i].stopRequested)
            && (s.pending == [] ==> t.pending == [])
  {
    assert EntryOk(s.entries[e]);
    StopEntryOk(s.entries[e], reason);
  }

  lemma StopEntryInv(c: Config, s: State, e: nat, reason: Outcome)
    requires Inv(c, s) && e < |s.entries| && !s.entries[e].place.Gone? && IsReason(reason)
    ensures Inv(c, StopEntry(c, s, e, reason))
  {
    StopEntryCore(c, s, e, reason);
    StopEntryEffect(c, s, e, reason);
    var t := StopEntry(c, s, e, reason);
    DrainKept(s.lifecycle, s.entries, t.entries, s.pending, t.pending);
  }

  // ---------------------------------------------------------------- clients

  lemma AddQueues(entries: seq<Entry>, id: string, pending: seq<nat>, registry: map<string, nat>)
    requires PendingOk(entries, pending) && RegistryOk(entries, registry) && id !in registry
    ensures PendingOk(entries + [Reserve(id)], pending + [|entries|])
    ensures RegistryOk(entries + [Reserve(id)], registry[id := |entries|])
  {
  }

  lemma AddThreads(entries: seq<Entry>, id: string, workers: seq<Worker>, r: Reaper, todo: set<nat>)
    requires EntriesOk(entries) && WorkersOk(entries, workers) && ReaperOk(entries, r, todo)
    ensures var entries' := entries + [Reserve(id)];
            WorkersOk(entries', workers) && ReaperOk(entries', r, todo)
  {
    var entries' := entries + [Reserve(id)];
    forall i | 0 <= i < |entries|
      ensures KeptForWorkers(entries[i], entries'[i]) && KeptForReaper(entries[i], entries'[i])
    {
      assert EntryOk(entries[i]);
      UnchangedAdvances(entries[i]);
    }
    WorkersKept(entries, entries', workers);
    ReaperKept(entries, entries', r, todo);
  }

  lemma AcceptInv(c: Config, s: State, id: string, m: Mail)
    requires Inv(c, s) && s.lifecycle.Running? && id !in s.registry && |s.registry| < c.maxSessions && |s.pending| < c.maxPending
    requires MailOk(c, m) && !m.ended
    ensures Inv(c, s.(entries := s.entries + [Reserve(id)], registry := s.registry[id := |s.entries|],
                      pending := s.pending + [|s.entries|], mail := m,
                      counters := s.counters.(admitted := s.counters.admitted + 1)))
  {
    AddQueues(s.entries, id, s.pending, s.registry);
    AddThreads(s.entries, id, s.workers, s.reaper, s.todo);
    LeaversKept(s.entries, s.entries + [Reserve(id)]);
  }

  lemma AddInv(c: Config, s: State, id: string, callable: bool)
    requires Inv(c, s)
    ensures Inv(c, Add(c, s, id, callable))
  {
    if Admit(c, s, id, callable).Accepted? {
      var h := Handle(c.runtime, id, |s.entries| + 1);
      PublishOk(c, s.mail, h, Notice(ReservedNote, NoOutcome));
      AcceptInv(c, s, id, Publish(c, s.mail, h, Notice(ReservedNote, NoOutcome)));
    }
  }

  lemma RemoveInv(c: Config, s: State, h: Handle, reason: Outcome)
    requires Inv(c, s) && IsReason(reason)
    ensures Inv(c, Remove(c, s, h, reason))
  {
    if Matching(c, s, h).Some? {
      StopEntryInv(c, s, Matching(c, s, h).value, reason);
    }
  }

  /** Leases are taken only on a running incarnation that nobody has stopped. */
  lemma LeaseOk(e: Entry)
    requires EntryOk(e) && e.phase.Running?
    ensures !e.place.Gone? && EntryOk(e.(operations := e.operations + 1)) && Advances(e, e.(operations := e.operations + 1))
  {
  }

  lemma ReleaseOk(e: Entry)
    requires EntryOk(e) && e.operations > 0
    ensures !e.place.Gone? && EntryOk(e.(operations := e.operations - 1)) && Advances(e, e.(operations := e.operations - 1))
  {
  }

  lemma AdvanceInv(c: Config, s: State, e: nat, x: Entry)
    requires Inv(c, s) && e < |s.entries|
    requires EntryOk(x) && Advances(s.entries[e], x) && !s.entries[e].place.Gone?
    ensures Inv(c, SetEntry(s, e, x))
  {
    AdvanceCore(c, s, e, x);
    DrainKept(s.lifecycle, s.entries, s.entries[e := x], s.pending, s.pending);
  }

  lemma LeaseInv(c: Config, s: State, e: nat)
    requires Inv(c, s) && e < |s.entries| && s.entries[e].phase.Running?
    ensures Inv(c, SetEntry(s, e, s.entries[e].(operations := s.entries[e].operations + 1)))
  {
    assert EntryOk(s.entries[e]);
    LeaseOk(s.entries[e]);
    AdvanceInv(c, s, e, s.entries[e].(operations := s.entries[e].operations + 1));
  }

  lemma OpBeginInv(c: Config, s: State, h: Handle)
    requires Inv(c, s)
    ensures Inv(c, OpBegin(c, s, h))
  {
    var e := Admissible(c, s, h);
    if e.Some? {
      LeaseInv(c, s, e.value);
      assert OpBegin(c, s, h) == SetEntry(s, e.value, s.entries[e.value].(operations := s.entries[e.value].operations + 1));
    } else {
      assert OpBegin(c, s, h) == s;
    }
  }

  lemma OpEndInv(c: Config, s: State, e: nat)
    requires Inv(c, s) && e < |s.entries| && s.entries[e].operations > 0
    ensures Inv(c, OpEnd(s, e))
  {
    assert EntryOk(s.entries[e]);
    ReleaseOk(s.entries[e]);
    AdvanceInv(c, s, e, s.entries[e].(operations := s.entries[e].operations - 1));
  }

  lemma SessionInv(c: Config, s: State, e: nat, view: S.View)
    requires Inv(c, s) && Enabled(s, DoSession(e, view))
    ensures Inv(c, Next(c, s, DoSession(e, view)))
  {
    assert EntryOk(s.entries[e]);
    SessionEntryOk(s.entries[e], view);
    AdvanceInv(c, s, e, s.entries[e].(session := if s.entries[e].session.Held? then Held(view) else Taken(view)));
  }

  ghost predicate AllPresent(s: State, order: seq<nat>) {
    forall k :: 0 <= k < |order| ==> order[k] < |s.entries| && !s.entries[order[k]].place.Gone?
  }

  /** Stops change nothing but incarnations, the queue and the notifications; they make nobody leave
      and are never taken back. */
  ghost predicate Swept(s: State, t: State) {
    && t == s.(entries := t.entries, pending := t.pending, mail := t.mail)
    && |t.entries| == |s.entries|
    && forall i :: 0 <= i < |s.entries| ==>
         (t.entries[i].place.Gone? <==> s.entries[i].place.Gone?) && (s.entries[i].stopRequested ==> t.entries[i].stopRequested)
  }

  lemma SweepOne(c: Config, s: State, u: State, e: nat)
    requires Core(c, u) && Swept(s, u) && e < |s.entries| && !s.entries[e].place.Gone?
    ensures var t := StopEntry(c, u, e, RuntimeShutdown);
            Core(c, t) && Swept(s, t) && Swept(u, t) && t.entries[e].stopRequested
  {
    StopEntryCore(c, u, e, RuntimeShutdown);
    StopEntryEffect(c, u, e, RuntimeShutdown);
  }

  lemma {:induction false} StopAllSweeps(c: Config, s: State, order: seq<nat>)
    requires Core(c, s) && AllPresent(s, order)
    ensures Core(c, StopAll(c, s, order)) && Swept(s, StopAll(c, s, order))
    decreases |order|
  {
    if order != [] {
      StopAllSweeps(c, s, order[..|order| - 1]);
      SweepOne(c, s, StopAll(c, s, order[..|order| - 1]), order[|order| - 1]);
    }
  }

  lemma {:induction false} StopAllEntries(c: Config, s: State, order: seq<nat>)
    requires EntriesOk(s.entries) && forall k :: 0 <= k < |order| ==> order[k] < |s.entries|
    ensures EntriesOk(StopAll(c, s, order).entries)
    decreases |order|
  {
    if order != [] {
      StopAllEntries(c, s, order[..|order| - 1]);
      StopEntryEffect(c, StopAll(c, s, order[..|order| - 1]), order[|order| - 1], RuntimeShutdown);
    }
  }

  /** The walk of shutdown: each incarnation met is stopped, and stays stopped. */
  lemma {:induction false} StopAllStops(c: Config, s: State, order: seq<nat>, k: nat)
    requires EntriesOk(s.entries) && forall i :: 0 <= i < |order| ==> order[i] < |s.entries|
    requires k < |order|
    ensures StopAll(c, s, order).entries[order[k]].stopRequested
    decreases |order|
  {
    var before := order[..|order| - 1];
    StopAllEntries(c, s, before);
    StopEntryEffect(c, StopAll(c, s, before), order[|order| - 1], RuntimeShutdown);
    if k < |order| - 1 { StopAllStops(c, s, before, k); }
  }

  lemma RequestShutdownInv(c: Config, s: State, order: seq<nat>)
    requires Inv(c, s) && Enabled(s, DoShutdown(order))
    ensures Inv(c, RequestShutdown(c, s, order))
  {
    if s.lifecycle.Running? {
      var s0 := s.(lifecycle := Draining);
      ShutdownStart(c, s, order);
      StopAllSweeps(c, s0, order);
      ShutdownDrained(c, s0, order);
    }
  }

  lemma ShutdownStart(c: Config, s: State, order: seq<nat>)
    requires Core(c, s) && Enabled(s, DoShutdown(order)) && s.lifecycle.Running?
    ensures Core(c, s.(lifecycle := Draining))
    ensures AllPresent(s, order)
  {
    forall k | 0 <= k < |order| ensures !s.entries[order[k]].place.Gone? {
      assert order[k] in (set e | e in order);
      assert order[k] in s.registry.Values;
    }
  }

  lemma PendingNotStopped(entries: seq<Entry>, pending: seq<nat>)
    requires EntriesOk(entries) && PendingOk(entries, pending)
    ensures pending != [] ==> pending[0] < |entries| && !entries[pending[0]].stopRequested
  {
    if pending != [] { assert EntryOk(entries[pending[0]]); }
  }

  /** Whoever is stopped has left the startup queue. */
  lemma StoppedNotPending(entries: seq<Entry>, pending: seq<nat>)
    requires EntriesOk(entries) && PendingOk(entries, pending)
    requires forall e :: 0 <= e < |entries| ==> entries[e].stopRequested
    ensures pending == []
  {
    PendingNotStopped(entries, pending);
  }

  lemma ShutdownReaches(s: State, order: seq<nat>, e: nat)
    requires RegistryOk(s.entries, s.registry) && Enabled(s, DoShutdown(order))
    requires e < |s.entries| && !s.entries[e].place.Gone?
    ensures e in order
  {
    assert s.registry[s.entries[e].id] == e;
    assert e in s.registry.Values;
    assert e in (set i | i in order);
  }

  lemma ShutdownDrained(c: Config, s: State, order: seq<nat>)
    requires Core(c, s) && Enabled(s, DoShutdown(order))
    requires AllPresent(s, order)
    ensures var t := StopAll(c, s, order); DrainOk(t.lifecycle, t.entries, t.pending)
  {
    StopAllSweeps(c, s, order);
    var t := StopAll(c, s, order);
    forall e | 0 <= e < |t.entries| ensures t.entries[e].stopRequested {
      assert EntryOk(s.entries[e]);
      if !s.entries[e].place.Gone? {
        ShutdownReaches(s, order, e);
        var k :| 0 <= k < |order| && order[k] == e;
        StopAllStops(c, s, order, k);
      }
    }
    StoppedNotPending(t.entries, t.pending);
  }

  // ---------------------------------------------------------------- workers

  /** A worker moves on without touching the queue, the registry or the reaper's incarnations. */
  lemma WorkerInv(c: Config, s: State, w: nat, x: Entry, pc: Worker)
    requires Inv(c, s) && w < |s.workers| && WorkerAt(s, w) && !pc.Exited? && !pc.Waiting?
    requires var e := s.workers[w].entry;
             && pc.entry == e && EntryOk(x) && x.place == s.entries[e].place && x.id == s.entries[e].id
             && x.stopRequested == s.entries[e].stopRequested
             && WorkerOk(s.entries[e := x], w, pc)
    ensures Inv(c, SetWorker(SetEntry(s, s.workers[w].entry, x), w, pc))
  {
    var e := s.workers[w].entry;
    var entries' := s.entries[e := x];
    assert WorkerOk(s.entries, w, s.workers[w]);
    PlacesKept(s.entries, entries', s.pending, s.registry);
    WorkerMoved(s.entries, s.workers, w, e, x, pc);
    ReaperUnaffected(s.entries, e, x, s.reaper, s.todo);
    LeaversKept(s.entries, entries');
    DrainKept(s.lifecycle, s.entries, entries', s.pending, s.pending);
    ExitedKept(s.workers, w, pc);
  }

  lemma ReaperUnaffected(entries: seq<Entry>, e: nat, x: Entry, r: Reaper, todo: set<nat>)
    requires e < |entries| && EntriesOk(entries) && ReaperOk(entries, r, todo)
    requires !Leaving(entries[e].place) && !entries[e].place.Idle? && !Leaving(x.place)
    ensures ReaperOk(entries[e := x], r, todo)
  {
    var entries' := entries[e := x];
    forall i | 0 <= i < |entries| ensures KeptForReaper(entries[i], entries'[i]) {
      assert EntryOk(entries[i]);
      if i != e { UnchangedAdvances(entries[i]); }
    }
    ReaperKept(entries, entries', r, todo);
  }

  lemma {:induction false} ExitedKept(workers: seq<Worker>, w: nat, pc: Worker)
    requires w < |workers|
    ensures ExitedCount(workers[w := pc])
            == ExitedCount(workers) - (if workers[w].Exited? then 1 else 0) + (if pc.Exited? then 1 else 0)
    decreases |workers|
  {
    var n := |workers| - 1;
    if w < n {
      ExitedKept(workers[..n], w, pc);
      assert workers[w := pc][..n] == workers[..n][w := pc];
    } else {
      assert workers[w := pc][..n] == workers[..n];
    }
  }

  lemma TakeThreads(entries: seq<Entry>, e: nat, x: Entry, workers: seq<Worker>, w: nat, r: Reaper, todo: set<nat>)
    requires EntriesOk(entries) && WorkersOk(entries, workers) && ReaperOk(entries, r, todo)
    requires e < |entries| && w < |workers| && workers[w].Waiting?
    requires entries[e].place.Queued? && x.place == AtWorker(w) && x.session.Absent? && x.launch.Unlaunched?
    ensures WorkersOk(entries[e := x], workers[w := Calling(e)]) && ReaperOk(entries[e := x], r, todo)
  {
    WorkerMoved(entries, workers, w, e, x, Calling(e));
    ReaperUnaffected(entries, e, x, r, todo);
  }

  lemma TakeEntryOk(e: Entry, w: nat)
    requires EntryOk(e) && e.place.Queued?
    ensures EntryOk(e.(phase := Starting, place := AtWorker(w)))
    ensures !e.stopRequested && e.session.Absent? && e.launch.Unlaunched?
  {
  }

  lemma TakeInv(c: Config, s: State, w: nat)
    requires Inv(c, s) && Enabled(s, DoTake(w))
    ensures Inv(c, Take(s, w))
  {
    var e := s.pending[0];
    assert EntryOk(s.entries[e]);
    TakeEntryOk(s.entries[e], w);
    var x := s.entries[e].(phase := Starting, place := AtWorker(w));
    TakeQueue(s.entries, x, s.pending, s.registry);
    TakeThreads(s.entries, e, x, s.workers, w, s.reaper, s.todo);
    LeaversKept(s.entries, s.entries[e := x]);
    ExitedKept(s.workers, w, Calling(e));
  }

  lemma TakeQueue(entries: seq<Entry>, x: Entry, pending: seq<nat>, registry: map<string, nat>)
    requires PendingOk(entries, pending) && RegistryOk(entries, registry)
    requires pending != [] && x.place.AtWorker? && x.id == entries[pending[0]].id
    ensures PendingOk(entries[pending[0] := x], pending[1..]) && RegistryOk(entries[pending[0] := x], registry)
  {
  }

  lemma InstallOk(e: Entry)
    requires EntryOk(e) && e.place.AtWorker? && e.launch.Unlaunched? && e.session.Absent?
    ensures EntryOk(InstallChange(e))
  {
  }

  lemma InstallInv(c: Config, s: State, w: nat)
    requires Inv(c, s) && Enabled(s, DoInstall(w))
    ensures Inv(c, Install(s, w))
  {
    var e := s.workers[w].entry;
    var t := Install(s, w);
    assert EntryOk(s.entries[e]) && WorkerOk(s.entries, w, s.workers[w]);
    InstallOk(s.entries[e]);
    WorkerInv(c, s, w, t.entries[e], t.workers[w]);
  }

  lemma ExitInv(c: Config, s: State, w: nat)
    requires Inv(c, s) && Enabled(s, DoExit(w))
    ensures Inv(c, Exit(s, w))
  {
    var workers' := s.workers[w := Exited];
    ExitedKept(s.workers, w, Exited);
    ExitedBound(workers');
    forall v | 0 <= v < |workers'| ensures WorkerOk(s.entries, v, workers'[v]) {
      assert WorkerOk(s.entries, v, s.workers[v]);
    }
  }

  lemma {:induction false} ExitedBound(workers: seq<Worker>)
    ensures ExitedCount(workers) <= |workers|
    ensures ExitedCount(workers) == |workers| ==> forall w :: 0 <= w < |workers| ==> workers[w].Exited?
  {
    if workers != [] {
      ExitedBound(workers[..|workers| - 1]);
    }
  }

  lemma HandBackThreads(entries: seq<Entry>, e: nat, x: Entry, workers: seq<Worker>, w: nat, r: Reaper, todo: set<nat>)
    requires EntriesOk(entries) && WorkersOk(entries, workers) && ReaperOk(entries, r, todo)
    requires w < |workers| && Holds(workers[w], e) && e < |entries| && entries[e].place.AtWorker? && x.place.Idle?
    ensures WorkersOk(entries[e := x], workers[w := Waiting]) && ReaperOk(entries[e := x], r, todo)
  {
    WorkerMoved(entries, workers, w, e, x, Waiting);
    ReaperUnaffected(entries, e, x, r, todo);
  }

  /** The end of a startup: the ticket is given and the incarnation is handed back. */
  lemma HandBackInv(c: Config, s: State, w: nat, e: nat, x: Entry)
    requires Inv(c, s) && w < |s.workers| && Holds(s.workers[w], e) && e < |s.entries|
    requires s.entries[e].place.AtWorker? && x.place.Idle? && x.id == s.entries[e].id && EntryOk(x)
    requires s.entries[e].stopRequested ==> x.stopRequested
    ensures Inv(c, SetWorker(SetEntry(s, e, x), w, Waiting))
  {
    HandBackQueue(s.entries, e, x, s.pending, s.registry);
    HandBackThreads(s.entries, e, x, s.workers, w, s.reaper, s.todo);
    LeaversKept(s.entries, s.entries[e := x]);
    ExitedKept(s.workers, w, Waiting);
  }

  lemma HandBackQueue(entries: seq<Entry>, e: nat, x: Entry, pending: seq<nat>, registry: map<string, nat>)
    requires e < |entries| && entries[e].place.AtWorker? && x.place.Idle? && x.id == entries[e].id
    requires PendingOk(entries, pending) && RegistryOk(entries, registry)
    ensures PendingOk(entries[e := x], pending) && RegistryOk(entries[e := x], registry)
  {
  }

  lemma HandBackPublishInv(c: Config, s: State, w: nat, e: nat)
    requires Inv(c, s) && w < |s.workers| && Holds(s.workers[w], e) && e < |s.entries|
    requires ReadyToFinish(s.entries[e])
    ensures Inv(c, HandBack(c, s, w, e))
  {
    assert EntryOk(s.entries[e]);
    FinishEntryOk(s.entries[e]);
    HandBackInv(c, s, w, e, FinishChange(s.entries[e]));
    if !s.entries[e].stopRequested {
      PublishCore(c, SetWorker(SetEntry(s, e, FinishChange(s.entries[e])), w, Waiting), e, Notice(StartedNote, Started));
    }
  }

  lemma FailedReady(c: Config, s: State, w: nat)
    requires EntriesOk(s.entries) && WorkersOk(s.entries, s.workers) && Enabled(s, DoFinish(w)) && s.workers[w].failed
    ensures var e := s.workers[w].entry;
            var t := StopEntry(c, s, e, StartupFailed);
            t.workers == s.workers && e < |t.entries| && ReadyToFinish(t.entries[e])
  {
    var e := s.workers[w].entry;
    assert EntryOk(s.entries[e]) && WorkerOk(s.entries, w, s.workers[w]);
    StopEntryEffect(c, s, e, StartupFailed);
  }

  lemma FinishInv(c: Config, s: State, w: nat)
    requires Inv(c, s) && Enabled(s, DoFinish(w))
    ensures Inv(c, Finish(c, s, w))
  {
    var e := s.workers[w].entry;
    assert WorkerOk(s.entries, w, s.workers[w]);
    if s.workers[w].failed {
      StopEntryInv(c, s, e, StartupFailed);
      FailedReady(c, s, w);
      HandBackPublishInv(c, StopEntry(c, s, e, StartupFailed), w, e);
    } else {
      HandBackPublishInv(c, s, w, e);
    }
  }

  // ---------------------------------------------------------------- the reaper

  /** The reaper moves on without changing any incarnation. */
  lemma ReaperInv(c: Config, s: State, r: Reaper, todo: set<nat>)
    requires Inv(c, s) && ReaperOk(s.entries, r, todo) && !s.reaper.Ended?
    requires r.Ended? ==> s.registry == map[] && !s.lifecycle.Running? && s.workersDone == c.workers
    ensures Inv(c, s.(reaper := r, todo := todo))
  {
  }

  lemma ScanBeginInv(c: Config, s: State)
    requires Inv(c, s) && s.reaper.Resting?
    ensures Inv(c, ScanBegin(c, s))
  {
    if s.registry == map[] && !s.lifecycle.Running? && s.workersDone == c.workers {
      ReaperInv(c, s, Reaper.Ended, s.todo);
    } else {
      ScanListOk(s.entries, s.registry, s.reaper, s.todo);
      ReaperInv(c, s, Scanning, s.registry.Values);
    }
  }

  lemma ScanListOk(entries: seq<Entry>, registry: map<string, nat>, r: Reaper, todo: set<nat>)
    requires RegistryOk(entries, registry) && ReaperOk(entries, r, todo) && r.Resting?
    ensures ReaperOk(entries, Scanning, registry.Values)
  {
  }

  lemma VisitInv(c: Config, s: State, e: nat)
    requires Inv(c, s) && Enabled(s, DoVisit(e))
    ensures Inv(c, Visit(s, e))
  {
    assert EntryOk(s.entries[e]);
    var t := Visit(s, e);
    VisitOk(s.entries, e, s.todo);
    ReaperInv(c, s, t.reaper, t.todo);
  }

  /** An incarnation whose startup is over and that has no session was told to stop. */
  lemma VisitOk(entries: seq<Entry>, e: nat, todo: set<nat>)
    requires ReaperOk(entries, Scanning, todo) && e in todo && EntryOk(entries[e])
    ensures var x := entries[e];
            ReaperOk(entries, if !x.startupDone then Scanning else if x.session.Held? then Looking(e) else Claiming(e), todo - {e})
  {
  }

  lemma ReadInv(c: Config, s: State)
    requires Inv(c, s) && Enabled(s, DoRead)
    ensures Inv(c, Read(s))
  {
    ReaperInv(c, s, Read(s).reaper, s.todo);
  }

  lemma FlushInv(c: Config, s: State, flushed: bool)
    requires Inv(c, s) && Enabled(s, DoFlush(flushed))
    ensures Inv(c, Next(c, s, DoFlush(flushed)))
  {
    var e := s.reaper.entry;
    assert EntryOk(s.entries[e]);
    ReaperInv(c, s, if flushed then Claiming(e) else Scanning, s.todo);
  }

  lemma ReportInv(c: Config, s: State)
    requires Inv(c, s) && Enabled(s, DoReport)
    ensures Inv(c, Report(c, s))
  {
    var e := s.reaper.entry;
    assert EntryOk(s.entries[e]);
    if s.reaper.lifecycle.Failed? {
      StopEntryInv(c, s, e, LifecycleFailure);
      StopEntryEffect(c, s, e, LifecycleFailure);
      ReportedInv(c, StopEntry(c, s, e, LifecycleFailure));
    } else if !s.entries[e].stopRequested {
      StopEntryInv(c, s, e, UnexpectedStop);
      StopEntryEffect(c, s, e, UnexpectedStop);
      ReportedInv(c, StopEntry(c, s, e, UnexpectedStop));
    } else {
      ReportedInv(c, s);
    }
  }

  lemma ReportedInv(c: Config, s: State)
    requires Inv(c, s) && s.reaper.Reporting? && s.reaper.entry < |s.entries| && s.entries[s.reaper.entry].stopRequested
    ensures Inv(c, s.(reaper := Flushing(s.reaper.entry)))
  {
    ReaperInv(c, s, Flushing(s.reaper.entry), s.todo);
  }

  lemma ClaimEntryOk(e: Entry)
    requires EntryOk(e) && e.place.Idle? && e.stopRequested && Quiesced(e.session) && e.operations == 0
    ensures EntryOk(ClaimChange(e))
  {
  }

  lemma TearEntryOk(e: Entry)
    requires EntryOk(e) && e.place.AtReaper?
    ensures EntryOk(TearChange(e)) && e.stopRequested
  {
  }

  /** The reaper takes an incarnation, changes it, or lets it go. */
  lemma ReaperMoved(entries: seq<Entry>, e: nat, x: Entry, r: Reaper, r': Reaper, todo: set<nat>)
    requires ReaperOk(entries, r, todo) && AtHand(r) == Some(e) && e < |entries|
    requires AtHandOk(entries[e := x], r') && (AtHand(r').None? || AtHand(r') == Some(e))
    requires x.place.AtReaper? ==> Tends(r', e)
    requires entries[e].place.AtReaper? || r.Claiming?
    ensures ReaperOk(entries[e := x], r', todo)
  {
  }

  lemma WorkersUnaffected(entries: seq<Entry>, e: nat, x: Entry, workers: seq<Worker>)
    requires e < |entries| && EntriesOk(entries) && WorkersOk(entries, workers)
    requires !entries[e].place.AtWorker? && !x.place.AtWorker?
    ensures WorkersOk(entries[e := x], workers)
  {
    var entries' := entries[e := x];
    forall i | 0 <= i < |entries| ensures KeptForWorkers(entries[i], entries'[i]) {
      assert EntryOk(entries[i]);
      if i != e { UnchangedAdvances(entries[i]); }
    }
    WorkersKept(entries, entries', workers);
  }

  lemma ReaperQueue(entries: seq<Entry>, e: nat, x: Entry, pending: seq<nat>, registry: map<string, nat>)
    requires e < |entries| && !entries[e].place.Queued? && !entries[e].place.Gone? && x.place.AtReaper? && x.id == entries[e].id
    requires PendingOk(entries, pending) && RegistryOk(entries, registry)
    ensures PendingOk(entries[e := x], pending) && RegistryOk(entries[e := x], registry)
  {
  }

  lemma TendInv(c: Config, s: State, e: nat, x: Entry, r: Reaper)
    requires Inv(c, s) && AtHand(s.reaper) == Some(e) && e < |s.entries| && AtHand(r) == Some(e)
    requires s.entries[e].place.AtReaper? || s.reaper.Claiming?
    requires EntryOk(x) && x.place.AtReaper? && x.id == s.entries[e].id && x.stopRequested
    requires AtHandOk(s.entries[e := x], r) && Tends(r, e)
    ensures Inv(c, SetEntry(s, e, x).(reaper := r))
  {
    ReaperMoved(s.entries, e, x, s.reaper, r, s.todo);
    WorkersUnaffected(s.entries, e, x, s.workers);
    ReaperQueue(s.entries, e, x, s.pending, s.registry);
    LeaversKept(s.entries, s.entries[e := x]);
  }

  lemma ClaimInv(c: Config, s: State)
    requires Inv(c, s) && Enabled(s, DoClaim)
    ensures Inv(c, Claim(s))
  {
    var e := s.reaper.entry;
    var x := s.entries[e];
    assert EntryOk(x);
    if x.operations > 0 {
      ReaperInv(c, s, Scanning, s.todo);
    } else {
      ClaimEntryOk(x);
      TendInv(c, s, e, ClaimChange(x), TearingDown(e));
    }
  }

  lemma TeardownInv(c: Config, s: State)
    requires Inv(c, s) && Enabled(s, DoTeardown)
    ensures Inv(c, Teardown(s))
  {
    var e := s.reaper.entry;
    assert EntryOk(s.entries[e]);
    TearEntryOk(s.entries[e]);
    TendInv(c, s, e, TearChange(s.entries[e]), Erasing(e));
  }

  lemma EraseRegistry(entries: seq<Entry>, e: nat, x: Entry, pending: seq<nat>, registry: map<string, nat>)
    requires PendingOk(entries, pending) && RegistryOk(entries, registry)
    requires e < |entries| && entries[e].place.AtReaper? && x.place.Gone? && x.id == entries[e].id
    ensures PendingOk(entries[e := x], pending) && RegistryOk(entries[e := x], registry - {x.id})
    ensures |registry - {x.id}| == |registry| - 1
  {
    assert (registry - {x.id})[x.id := e] == registry;
  }

  lemma LeaverAdded(entries: seq<Entry>, e: nat, x: Entry)
    requires e < |entries| && !entries[e].place.Gone? && x.place.Gone?
    ensures |Leavers(entries[e := x])| == |Leavers(entries)| + 1
    ensures |Casualties(entries[e := x])| == |Casualties(entries)| + if Fatal(x.outcome) then 1 else 0
  {
    var entries' := entries[e := x];
    assert Leavers(entries') == Leavers(entries) + {e};
    assert Casualties(entries') == Casualties(entries) + if Fatal(x.outcome) then {e} else {};
  }

  lemma EraseThreads(entries: seq<Entry>, e: nat, x: Entry, workers: seq<Worker>, r: Reaper, todo: set<nat>)
    requires EntriesOk(entries) && WorkersOk(entries, workers) && ReaperOk(entries, r, todo)
    requires AtHand(r) == Some(e) && e < |entries| && entries[e].place.AtReaper? && x.place.Gone?
    ensures WorkersOk(entries[e := x], workers) && ReaperOk(entries[e := x], Scanning, todo)
  {
    ReaperMoved(entries, e, x, r, Scanning, todo);
    WorkersUnaffected(entries, e, x, workers);
  }

  /** The state after an incarnation has left. */
  function Left(s: State, e: nat, x: Entry, m: Mail): State
    requires e < |s.entries|
  {
    SetEntry(s, e, x)
    .(reaper := Scanning, registry := s.registry - {x.id}, mail := m,
      counters := s.counters.(retired := s.counters.retired + 1,
                              failures := s.counters.failures + if Fatal(x.outcome) then 1 else 0))
  }

  lemma LeaveInv(c: Config, s: State, e: nat, x: Entry, m: Mail)
    requires Inv(c, s) && AtHand(s.reaper) == Some(e) && e < |s.entries| && s.entries[e].place.AtReaper?
    requires EntryOk(x) && x.place.Gone? && x.id == s.entries[e].id && x.stopRequested
    requires MailOk(c, m) && !m.ended && !s.mail.ended
    ensures Inv(c, Left(s, e, x, m))
  {
    EraseThreads(s.entries, e, x, s.workers, s.reaper, s.todo);
    EraseRegistry(s.entries, e, x, s.pending, s.registry);
    LeaverAdded(s.entries, e, x);
  }

  lemma PublishMail(c: Config, s: State, e: nat, n: Notice)
    requires Core(c, s) && e < |s.entries| && !s.entries[e].place.Gone?
    ensures MailOk(c, Publish(c, s.mail, HandleOf(c, s.entries, e), n))
    ensures !s.mail.ended && !Publish(c, s.mail, HandleOf(c, s.entries, e), n).ended
  {
    PublishCore(c, s, e, n);
  }

  lemma EraseLeaves(c: Config, s: State)
    requires s.reaper.Erasing? && s.reaper.entry < |s.entries|
    ensures var e := s.reaper.entry;
            var n := Notice(RetiredNote, s.entries[e].outcome);
            Erase(c, s) == Left(s, e, EraseChange(s.entries[e]), Publish(c, s.mail, HandleOf(c, s.entries, e), n))
  {
  }

  lemma EraseInv(c: Config, s: State)
    requires Inv(c, s) && Enabled(s, DoErase)
    ensures Inv(c, Erase(c, s))
  {
    EraseLeaves(c, s);
    var e := s.reaper.entry;
    var x := EraseChange(s.entries[e]);
    EraseReady(c, s);
    PublishMail(c, s, e, Notice(RetiredNote, x.outcome));
    LeaveInv(c, s, e, x, Publish(c, s.mail, HandleOf(c, s.entries, e), Notice(RetiredNote, x.outcome)));
  }

  lemma EraseReady(c: Config, s: State)
    requires EntriesOk(s.entries) && AtHandOk(s.entries, s.reaper) && Enabled(s, DoErase)
    ensures var e := s.reaper.entry;
            && e < |s.entries| && AtHand(s.reaper) == Some(e) && s.entries[e].place.AtReaper?
            && var x := EraseChange(s.entries[e]);
               EntryOk(x) && x.place.Gone? && x.id == s.entries[e].id && x.stopRequested
  {
    assert EntryOk(s.entries[s.reaper.entry]);
    EraseEntryOk(s.entries[s.reaper.entry]);
  }

  // ---------------------------------------------------------------- the dispatcher

  lemma MailInv(c: Config, s: State, m: Mail)
    requires Inv(c, s) && MailOk(c, m) && !s.mail.ended && !m.ended
    ensures Inv(c, s.(mail := m))
  {
  }

  lemma DispatchEndInv(c: Config, s: State)
    requires Inv(c, s) && Enabled(s, DoDispatchEnd)
    ensures Inv(c, Next(c, s, DoDispatchEnd))
  {
  }

  lemma InitInv(c: Config)
    ensures Inv(c, Init(c))
  {
    ExitedNone(Init(c).workers);
  }

  lemma {:induction false} ExitedNone(workers: seq<Worker>)
    requires forall w :: 0 <= w < |workers| ==> !workers[w].Exited?
    ensures ExitedCount(workers) == 0
  {
    if workers != [] { ExitedNone(workers[..|workers| - 1]); }
  }

  // ---------------------------------------------------------------- every step

  predicate WorkerAction(a: Action) {
    a.DoTake? || a.DoFactoryThrows? || a.DoInstall? || a.DoStartReturns? || a.DoStartThrows? || a.DoCatch? || a.DoFinish? || a.DoExit?
  }

  predicate ReaperAction(a: Action) {
    || a.DoScanBegin? || a.DoVisit? || a.DoRead? || a.DoReport? || a.DoFlush? || a.DoClaim? || a.DoTeardown? || a.DoErase?
    || a.DoScanEnd?
  }

  /** What the factory or the start did leaves the incarnation as it was, but for the record of it. */
  lemma LaunchedInv(c: Config, s: State, w: nat, how: Launch)
    requires Inv(c, s) && WorkerAt(s, w)
    requires if how.FactoryThrew? then s.workers[w].Calling? else s.workers[w].Launching? && (how.StartThrew? || how.StartReturned?)
    ensures Inv(c, Launched(s, w, how))
  {
    var e := s.workers[w].entry;
    var t := Launched(s, w, how);
    assert EntryOk(s.entries[e]) && WorkerOk(s.entries, w, s.workers[w]);
    LaunchRecorded(s.entries[e], how);
    WorkerInv(c, s, w, t.entries[e], t.workers[w]);
  }

  lemma LaunchRecorded(e: Entry, how: Launch)
    requires EntryOk(e) && e.place.AtWorker? && e.launch.Unlaunched? && !how.Preempted?
    ensures EntryOk(e.(launch := how))
  {
  }

  lemma CatchInv(c: Config, s: State, w: nat)
    requires Inv(c, s) && Enabled(s, DoCatch(w))
    ensures Inv(c, Catch(s, w))
  {
    var e := s.workers[w].entry;
    var t := Catch(s, w);
    assert EntryOk(s.entries[e]) && WorkerOk(s.entries, w, s.workers[w]);
    CatchRecorded(s.entries[e], t.entries[e].caught.value);
    WorkerInv(c, s, w, t.entries[e], t.workers[w]);
  }

  lemma CatchRecorded(e: Entry, k: Caught)
    requires EntryOk(e) && e.place.AtWorker? && Threw(e.launch) && k.stopped == e.stopRequested
    ensures EntryOk(e.(caught := Some(k)))
  {
  }

  lemma WorkerActionInv(c: Config, s: State, a: Action)
    requires Inv(c, s) && Enabled(s, a) && WorkerAction(a)
    ensures Inv(c, Next(c, s, a))
  {
    match a
    case DoTake(w) => TakeInv(c, s, w);
    case DoFactoryThrows(w) => LaunchedInv(c, s, w, FactoryThrew);
    case DoInstall(w) => InstallInv(c, s, w);
    case DoStartReturns(w) => LaunchedInv(c, s, w, StartReturned);
    case DoStartThrows(w) => LaunchedInv(c, s, w, StartThrew);
    case DoCatch(w) => CatchInv(c, s, w);
    case DoFinish(w) => FinishInv(c, s, w);
    case DoExit(w) => ExitInv(c, s, w);
  }

  lemma ScanEndInv(c: Config, s: State)
    requires Inv(c, s) && s.reaper.Scanning?
    ensures Inv(c, s.(reaper := Resting))
  {
    ReaperInv(c, s, Resting, s.todo);
  }

  lemma ReaperActionInv(c: Config, s: State, a: Action)
    requires Inv(c, s) && Enabled(s, a) && ReaperAction(a)
    ensures Inv(c, Next(c, s, a))
  {
    match a
    case DoScanBegin => ScanBeginInv(c, s);
    case DoVisit(e) => VisitInv(c, s, e);
    case DoRead => ReadInv(c, s);
    case DoReport => ReportInv(c, s);
    case DoFlush(flushed) => FlushInv(c, s, flushed);
    case DoClaim => ClaimInv(c, s);
    case DoTeardown => TeardownInv(c, s);
    case DoErase => EraseInv(c, s);
    case DoScanEnd => ScanEndInv(c, s);
  }

  lemma NextInv(c: Config, s: State, a: Action)
    requires Inv(c, s) && Enabled(s, a)
    ensures Inv(c, Next(c, s, a))
  {
    if WorkerAction(a) {
      WorkerActionInv(c, s, a);
    } else if ReaperAction(a) {
      ReaperActionInv(c, s, a);
    } else {
      match a
      case DoAdd(id, callable) => AddInv(c, s, id, callable);
      case DoRemove(handle, reason) => RemoveInv(c, s, handle, reason);
      case DoOpBegin(handle) => OpBeginInv(c, s, handle);
      case DoOpEnd(e) => OpEndInv(c, s, e);
      case DoShutdown(order) => RequestShutdownInv(c, s, order);
      case DoCollect => CollectOk(c, s.mail); MailInv(c, s, Collect(s.mail));
      case DoDeliver(error) => DeliveredOk(c, s.mail, error); MailInv(c, s, Delivered(s.mail, error));
      case DoDispatchEnd => DispatchEndInv(c, s);
      case DoSession(e, view) => SessionInv(c, s, e, view);
    }
  }
}

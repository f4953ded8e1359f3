/** What is enqueued for the observer, incarnation by incarnation: a subsequence of what was published
    about it, and all of it if nothing was dropped. */
module RuntimeLog {
  import opened Common
  import opened RuntimeModel
  import opened RuntimeInvariant
  import opened RuntimeSteps
  import opened RuntimeRuns

  /** The notices among the enqueued notifications that carry a handle, in order. */
  function NoticesOf(log: seq<Notification>, h: Handle): seq<Notice> {
    if log == [] then []
    else
      var last := log[|log| - 1];
      NoticesOf(log[..|log| - 1], h) + if last.handle == h then [last.notice] else []
  }

  predicate Subsequence(a: seq<Notice>, b: seq<Notice>)
    decreases |b|
  {
    || a == []
    || (b != [] && (Subsequence(a, b[..|b| - 1])
                    || (a[|a| - 1] == b[|b| - 1] && Subsequence(a[..|a| - 1], b[..|b| - 1]))))
  }

  lemma SubsequenceGrows(a: seq<Notice>, b: seq<Notice>, n: Notice)
    requires Subsequence(a, b)
    ensures Subsequence(a, b + [n]) && Subsequence(a + [n], b + [n])
  {
    assert (b + [n])[..|b|] == b && (a + [n])[..|a|] == a;
  }

  lemma LogGrows(log: seq<Notification>, item: Notification, h: Handle)
    ensures NoticesOf(log + [item], h) == if item.handle == h then NoticesOf(log, h) + [item.notice] else NoticesOf(log, h)
  {
    assert (log + [item])[..|log|] == log;
    assert NoticesOf(log, h) + [] == NoticesOf(log, h);
  }

  /** Every notification carries the handle of an incarnation. */
  ghost predicate Named(c: Config, entries: seq<Entry>, n: Notification) {
    1 <= n.handle.generation <= |entries| && n.handle == HandleOf(c, entries, n.handle.generation - 1)
  }

  ghost predicate Traced(c: Config, m: Mail, entries: seq<Entry>, e: nat)
    requires e < |entries|
  {
    var notices := NoticesOf(m.log, HandleOf(c, entries, e));
    Subsequence(notices, entries[e].trace) && (c.observed && m.dropped == 0 ==> notices == entries[e].trace)
  }

  ghost predicate LogOk(c: Config, m: Mail, entries: seq<Entry>) {
    && (forall k {:trigger Named(c, entries, m.log[k])} :: 0 <= k < |m.log| ==> Named(c, entries, m.log[k]))
    && (forall e {:trigger Traced(c, m, entries, e)} :: 0 <= e < |entries| ==> Traced(c, m, entries, e))
  }

  // ---------------------------------------------------------------- steps

  /** Nothing was published. */
  ghost predicate Silent(m: Mail, entries: seq<Entry>, m': Mail, entries': seq<Entry>) {
    && m'.log == m.log && m'.dropped == m.dropped && |entries'| == |entries|
    && forall e {:trigger entries'[e]} :: 0 <= e < |entries| ==>
         entries'[e].id == entries[e].id && entries'[e].trace == entries[e].trace
  }

  lemma SilentKeeps(c: Config, m: Mail, entries: seq<Entry>, m': Mail, entries': seq<Entry>)
    requires LogOk(c, m, entries) && Silent(m, entries, m', entries')
    ensures LogOk(c, m', entries')
  {
    forall k | 0 <= k < |m'.log| ensures Named(c, entries', m'.log[k]) { assert Named(c, entries, m.log[k]); }
    forall e | 0 <= e < |entries'| ensures Traced(c, m', entries', e) { assert Traced(c, m, entries, e); }
  }

  /** One incarnation's notice was published, that is enqueued, dropped, or not observed at all. */
  lemma AnnouncedKeeps(c: Config, m: Mail, entries: seq<Entry>, e: nat, n: Notice, x: Entry)
    requires LogOk(c, m, entries) && e < |entries| && x.id == entries[e].id && x.trace == entries[e].trace + [n]
    ensures LogOk(c, Publish(c, m, HandleOf(c, entries, e), n), entries[e := x])
  {
    var h := HandleOf(c, entries, e);
    var m', entries' := Publish(c, m, h, n), entries[e := x];
    forall k | 0 <= k < |m'.log| ensures Named(c, entries', m'.log[k]) {
      if k < |m.log| { assert Named(c, entries, m.log[k]); }
    }
    forall i | 0 <= i < |entries'| ensures Traced(c, m', entries', i) {
      assert Traced(c, m, entries, i);
      OneAnnounced(c, m, entries, i, h, n);
    }
  }

  /** Publishing a notice adds it to its own incarnation's part of the log, or nothing to any. */
  lemma OneAnnounced(c: Config, m: Mail, entries: seq<Entry>, i: nat, h: Handle, n: Notice)
    requires i < |entries| && Traced(c, m, entries, i)
    ensures var notices := NoticesOf(Publish(c, m, h, n).log, HandleOf(c, entries, i));
            var trace := if HandleOf(c, entries, i) == h then entries[i].trace + [n] else entries[i].trace;
            Subsequence(notices, trace) && (c.observed && Publish(c, m, h, n).dropped == 0 ==> notices == trace)
  {
    LogGrows(m.log, Notification(m.sequence, h, n), HandleOf(c, entries, i));
    SubsequenceGrows(NoticesOf(m.log, HandleOf(c, entries, i)), entries[i].trace, n);
  }

  lemma {:induction false} NothingNamed(c: Config, log: seq<Notification>, h: Handle)
    requires forall k :: 0 <= k < |log| ==> log[k].handle.generation < h.generation
    ensures NoticesOf(log, h) == []
  {
    if log != [] { NothingNamed(c, log[..|log| - 1], h); }
  }

  lemma AddedKeeps(c: Config, m: Mail, entries: seq<Entry>, id: string)
    requires LogOk(c, m, entries)
    ensures LogOk(c, Publish(c, m, Handle(c.runtime, id, |entries| + 1), Notice(ReservedNote, NoOutcome)), entries + [Reserve(id)])
  {
    var h, n := Handle(c.runtime, id, |entries| + 1), Notice(ReservedNote, NoOutcome);
    var x := Reserve(id);
    var blank := entries + [x.(trace := [])];
    forall k | 0 <= k < |m.log| ensures m.log[k].handle.generation < h.generation && Named(c, blank, m.log[k]) {
      assert Named(c, entries, m.log[k]);
    }
    NothingNamed(c, m.log, h);
    forall e | 0 <= e < |blank| ensures Traced(c, m, blank, e) {
      if e < |entries| { assert Traced(c, m, entries, e); }
    }
    AnnouncedKeeps(c, m, blank, |entries|, n, x);
    assert blank[|entries| := x] == entries + [x];
  }

  lemma StopEntryLogged(c: Config, s: State, e: nat, reason: Outcome)
    requires LogOk(c, s.mail, s.entries) && e < |s.entries|
    ensures LogOk(c, StopEntry(c, s, e, reason).mail, StopEntry(c, s, e, reason).entries)
  {
    var x := s.entries[e];
    var t := StopEntry(c, s, e, reason);
    if TakesEffect(x, reason) && !x.stopRequested {
      AnnouncedKeeps(c, s.mail, s.entries, e, Notice(StopNote, reason), StopChange(x, reason));
    } else {
      SilentKeeps(c, s.mail, s.entries, t.mail, t.entries);
    }
  }

  lemma {:induction false} StopAllLogged(c: Config, s: State, order: seq<nat>)
    requires LogOk(c, s.mail, s.entries) && forall k :: 0 <= k < |order| ==> order[k] < |s.entries|
    ensures LogOk(c, StopAll(c, s, order).mail, StopAll(c, s, order).entries)
    decreases |order|
  {
    if order != [] {
      StopAllLogged(c, s, order[..|order| - 1]);
      StopEntryLogged(c, StopAll(c, s, order[..|order| - 1]), order[|order| - 1], RuntimeShutdown);
    }
  }

  lemma FinishLogged(c: Config, s: State, w: nat)
    requires LogOk(c, s.mail, s.entries) && Enabled(s, DoFinish(w))
    ensures LogOk(c, Finish(c, s, w).mail, Finish(c, s, w).entries)
  {
    var e := s.workers[w].entry;
    StopEntryLogged(c, s, e, StartupFailed);
    HandBackLogged(c, if s.workers[w].failed then StopEntry(c, s, e, StartupFailed) else s, w, e);
  }

  lemma HandBackLogged(c: Config, s: State, w: nat, e: nat)
    requires LogOk(c, s.mail, s.entries) && w < |s.workers| && e < |s.entries|
    ensures LogOk(c, HandBack(c, s, w, e).mail, HandBack(c, s, w, e).entries)
  {
    var x := FinishChange(s.entries[e]);
    if s.entries[e].stopRequested {
      SilentKeeps(c, s.mail, s.entries, s.mail, s.entries[e := x]);
    } else {
      assert HandleOf(c, s.entries[e := x], e) == HandleOf(c, s.entries, e);
      AnnouncedKeeps(c, s.mail, s.entries, e, Notice(StartedNote, Started), x);
    }
  }

  lemma ReportLogged(c: Config, s: State)
    requires LogOk(c, s.mail, s.entries) && Enabled(s, DoReport)
    ensures LogOk(c, Report(c, s).mail, Report(c, s).entries)
  {
    StopEntryLogged(c, s, s.reaper.entry, LifecycleFailure);
    StopEntryLogged(c, s, s.reaper.entry, UnexpectedStop);
  }

  predicate Publishes(a: Action) {
    a.DoAdd? || a.DoRemove? || a.DoShutdown? || a.DoFinish? || a.DoReport? || a.DoErase?
  }

  lemma WorkersAreSilent(c: Config, s: State, a: Action)
    requires Enabled(s, a) && WorkerAction(a) && !Publishes(a)
    ensures Silent(s.mail, s.entries, Next(c, s, a).mail, Next(c, s, a).entries)
  {
  }

  lemma ReapersAreSilent(c: Config, s: State, a: Action)
    requires Enabled(s, a) && ReaperAction(a) && !Publishes(a)
    ensures Silent(s.mail, s.entries, Next(c, s, a).mail, Next(c, s, a).entries)
  {
  }

  lemma OthersAreSilent(c: Config, s: State, a: Action)
    requires Enabled(s, a) && !Publishes(a)
    ensures Silent(s.mail, s.entries, Next(c, s, a).mail, Next(c, s, a).entries)
  {
    if WorkerAction(a) { WorkersAreSilent(c, s, a); } else if ReaperAction(a) { ReapersAreSilent(c, s, a); }
  }

  lemma AddLogged(c: Config, s: State, id: string, callable: bool)
    requires LogOk(c, s.mail, s.entries)
    ensures LogOk(c, Add(c, s, id, callable).mail, Add(c, s, id, callable).entries)
  {
    if Admit(c, s, id, callable).Accepted? { AddedKeeps(c, s.mail, s.entries, id); }
  }

  lemma RemoveLogged(c: Config, s: State, h: Handle, reason: Outcome)
    requires LogOk(c, s.mail, s.entries)
    ensures LogOk(c, Remove(c, s, h, reason).mail, Remove(c, s, h, reason).entries)
  {
    var e := Matching(c, s, h);
    if e.Some? && e.value < |s.entries| { StopEntryLogged(c, s, e.value, reason); }
  }

  lemma EraseLogged(c: Config, s: State)
    requires LogOk(c, s.mail, s.entries) && Enabled(s, DoErase)
    ensures LogOk(c, Erase(c, s).mail, Erase(c, s).entries)
  {
    var x := s.entries[s.reaper.entry];
    AnnouncedKeeps(c, s.mail, s.entries, s.reaper.entry, Notice(RetiredNote, x.outcome), EraseChange(x));
  }

  lemma PublishingLogged(c: Config, s: State, a: Action)
    requires LogOk(c, s.mail, s.entries) && Enabled(s, a) && Publishes(a)
    ensures LogOk(c, Next(c, s, a).mail, Next(c, s, a).entries)
  {
    match a
    case DoAdd(id, callable) => AddLogged(c, s, id, callable);
    case DoRemove(h, reason) => RemoveLogged(c, s, h, reason);
    case DoShutdown(order) => StopAllLogged(c, s.(lifecycle := Draining), order);
    case DoFinish(w) => FinishLogged(c, s, w);
    case DoReport => ReportLogged(c, s);
    case DoErase => EraseLogged(c, s);
  }

  lemma StepLogged(c: Config, s: State, a: Action)
    requires LogOk(c, s.mail, s.entries) && Enabled(s, a)
    ensures LogOk(c, Next(c, s, a).mail, Next(c, s, a).entries)
  {
    if Publishes(a) {
      PublishingLogged(c, s, a);
    } else {
      OthersAreSilent(c, s, a);
      SilentKeeps(c, s.mail, s.entries, Next(c, s, a).mail, Next(c, s, a).entries);
    }
  }

  lemma StepLoggedAt(c: Config, run: seq<State>, i: nat)
    requires IsRun(c, run) && 0 < i < |run| && LogOk(c, run[i - 1].mail, run[i - 1].entries)
    ensures LogOk(c, run[i].mail, run[i].entries)
  {
    assert StepAt(c, run, i - 1);
    var a :| Enabled(run[i - 1], a) && run[i] == Next(c, run[i - 1], a);
    StepLogged(c, run[i - 1], a);
  }

  lemma {:induction false} RunsAreLogged(c: Config, run: seq<State>, i: nat)
    requires IsRun(c, run) && i < |run|
    ensures LogOk(c, run[i].mail, run[i].entries)
  {
    if i > 0 {
      RunsAreLogged(c, run, i - 1);
      StepLoggedAt(c, run, i);
    }
  }

  /** In every run the notifications enqueued for an incarnation are, in order, a subsequence of what
      was published about it; with an observer and nothing dropped they are all of it. Those delivered
      so far are the front of the log. */
  lemma EnqueuedFollowsPublished(c: Config, run: seq<State>, i: nat, e: nat)
    requires IsRun(c, run) && i < |run| && e < |run[i].entries|
    ensures var m := run[i].mail;
            var notices := NoticesOf(m.log, HandleOf(c, run[i].entries, e));
            && Subsequence(notices, run[i].entries[e].trace)
            && (c.observed && m.dropped == 0 ==> notices == run[i].entries[e].trace)
            && m.delivered <= |m.log| && m.log[m.delivered..] == InFlight(m) + m.queue
  {
    RunsAreLogged(c, run, i);
    RunsKeepInvariant(c, run, i);
    assert Traced(c, run[i].mail, run[i].entries, e);
  }

  /** Every enqueued notification is about an incarnation that was admitted. */
  lemma EnqueuedIsNamed(c: Config, run: seq<State>, i: nat, k: nat)
    requires IsRun(c, run) && i < |run| && k < |run[i].mail.log|
    ensures Named(c, run[i].entries, run[i].mail.log[k])
  {
    RunsAreLogged(c, run, i);
  }
}

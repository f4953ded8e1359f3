/** Subscribe, deliver and unsubscribe with re-entrant handlers: the removing call returns only when
    no other thread is inside the handler, and none can enter it again. */
module EventBusModel {
  import opened Common

  /** The part of a handler entry that its own mutex protects. */
  datatype Entry = Entry(active: nat, enabled: bool)

  /** A thread's call stack, innermost call last. A delivery is between handlers or inside one; a
      removal has erased the subscription, or has disabled the entry and waits. */
  datatype Frame =
    | Deliver(rest: seq<nat>, inside: Option<nat>)
    | Erased(entry: nat)
    | Draining(entry: nat, local: nat)

  /** `entries` is the heap of handler entries; `handlers` maps subscriptions to them. */
  datatype State = State(
    handlers: map<nat, nat>,
    entries: seq<Entry>,
    nextSubscription: nat,
    threads: map<nat, seq<Frame>>)

  function Init(): State { State(map[], [], 1, map[]) }

  function Stack(s: State, t: nat): seq<Frame> {
    if t in s.threads then s.threads[t] else []
  }

  function Top(stack: seq<Frame>): Frame
    requires stack != []
  {
    stack[|stack| - 1]
  }

  function Below(stack: seq<Frame>): seq<Frame>
    requires stack != []
  {
    stack[..|stack| - 1]
  }

  predicate InHandler(f: Frame) { f.Deliver? && f.inside.Some? }

  /** User code runs on a thread outside the bus or inside a handler. */
  predicate CanCall(stack: seq<Frame>) { stack == [] || InHandler(Top(stack)) }

  /** `calls_on_this_thread`: the frames inside the entry's handler. */
  function Calls(stack: seq<Frame>, e: nat): nat {
    if stack == [] then 0
    else Calls(Below(stack), e) + (if InHandler(Top(stack)) && Top(stack).inside.value == e then 1 else 0)
  }

  // ---------------------------------------------------------------- transitions

  function Subscribe(s: State): State {
    s.(handlers := s.handlers[s.nextSubscription := |s.entries|],
       entries := s.entries + [Entry(0, true)],
       nextSubscription := s.nextSubscription + 1)
  }

  function Push(s: State, t: nat, f: Frame): State { s.(threads := s.threads[t := Stack(s, t) + [f]]) }

  /** Replaces the innermost call. */
  function Swap(s: State, t: nat, f: Frame): State
    requires Stack(s, t) != []
  {
    s.(threads := s.threads[t := Below(Stack(s, t)) + [f]])
  }

  function Pop(s: State, t: nat): State
    requires Stack(s, t) != []
  {
    s.(threads := s.threads[t := Below(Stack(s, t))])
  }

  function Enter(s: State, t: nat): State
    requires Stack(s, t) != [] && Top(Stack(s, t)).Deliver? && Top(Stack(s, t)).rest != []
    requires Top(Stack(s, t)).rest[0] < |s.entries|
  {
    var rest := Top(Stack(s, t)).rest;
    var e := rest[0];
    if !s.entries[e].enabled then Swap(s, t, Deliver(rest[1..], None))
    else
      Swap(s.(entries := s.entries[e := s.entries[e].(active := s.entries[e].active + 1)]), t, Deliver(rest[1..], Some(e)))
  }

  function Leave(s: State, t: nat): State
    requires Stack(s, t) != [] && InHandler(Top(Stack(s, t)))
    requires Top(Stack(s, t)).inside.value < |s.entries| && s.entries[Top(Stack(s, t)).inside.value].active > 0
  {
    var f := Top(Stack(s, t));
    var e := f.inside.value;
    Swap(s.(entries := s.entries[e := s.entries[e].(active := s.entries[e].active - 1)]), t, Deliver(f.rest, None))
  }

  function Erase(s: State, t: nat, subscription: nat): State {
    if subscription !in s.handlers then s
    else Push(s.(handlers := s.handlers - {subscription}), t, Erased(s.handlers[subscription]))
  }

  function Disable(s: State, t: nat): State
    requires Stack(s, t) != [] && Top(Stack(s, t)).Erased? && Top(Stack(s, t)).entry < |s.entries|
  {
    var e := Top(Stack(s, t)).entry;
    Swap(s.(entries := s.entries[e := s.entries[e].(enabled := false)]), t, Draining(e, Calls(Stack(s, t), e)))
  }

  datatype Action =
    | DoSubscribe(thread: nat)
    | DoBegin(thread: nat, order: seq<nat>)
    | DoEnter(thread: nat)
    | DoLeave(thread: nat)
    | DoEnd(thread: nat)
    | DoErase(thread: nat, subscription: nat)
    | DoDisable(thread: nat)
    | DoReturn(thread: nat)

  /** The guards; a delivery's snapshot lists the subscribed entries in any order. */
  predicate Enabled(s: State, a: Action) {
    var stack := Stack(s, a.thread);
    match a
    case DoSubscribe(_) => CanCall(stack)
    case DoBegin(_, order) => CanCall(stack) && NoDuplicates(order) && (set e | e in order) == s.handlers.Values
    case DoEnter(_) =>
      stack != [] && Top(stack).Deliver? && Top(stack).inside.None? && Top(stack).rest != [] && Top(stack).rest[0] < |s.entries|
    case DoLeave(_) =>
      stack != [] && InHandler(Top(stack)) && Top(stack).inside.value < |s.entries| && s.entries[Top(stack).inside.value].active > 0
    case DoEnd(_) => stack != [] && Top(stack) == Deliver([], None)
    case DoErase(_, _) => CanCall(stack)
    case DoDisable(_) => stack != [] && Top(stack).Erased? && Top(stack).entry < |s.entries|
    case DoReturn(_) =>
      stack != [] && Top(stack).Draining? && Top(stack).entry < |s.entries| && s.entries[Top(stack).entry].active <= Top(stack).local
  }

  function Next(s: State, a: Action): State
    requires Enabled(s, a)
  {
    match a
    case DoSubscribe(_) => Subscribe(s)
    case DoBegin(t, order) => Push(s, t, Deliver(order, None))
    case DoEnter(t) => Enter(s, t)
    case DoLeave(t) => Leave(s, t)
    case DoEnd(t) => Pop(s, t)
    case DoErase(t, subscription) => Erase(s, t, subscription)
    case DoDisable(t) => Disable(s, t)
    case DoReturn(t) => Pop(s, t)
  }

  // ---------------------------------------------------------------- the invariant

  ghost function CallCounts(threads: map<nat, seq<Frame>>, e: nat): map<nat, nat> {
    map t | t in threads :: Calls(threads[t], e)
  }

  /** The frames inside an entry's handler, over all threads. */
  ghost function AllCalls(threads: map<nat, seq<Frame>>, e: nat): nat { MapSum(CallCounts(threads, e)) }

  ghost predicate CountsOk(s: State) {
    forall e :: 0 <= e < |s.entries| ==> s.entries[e].active == AllCalls(s.threads, e)
  }

  ghost predicate FrameOk(s: State, f: Frame) {
    match f
    case Deliver(rest, inside) => (forall k :: 0 <= k < |rest| ==> rest[k] < |s.entries|) && (inside.Some? ==> inside.value < |s.entries|)
    case Erased(e) => e < |s.entries|
    case Draining(e, _) => e < |s.entries| && !s.entries[e].enabled
  }

  /** A removal is always the innermost call, and remembers its own thread's calls exactly. */
  ghost predicate StackOk(s: State, stack: seq<Frame>) {
    && (forall i :: 0 <= i < |stack| ==> FrameOk(s, stack[i]))
    && (forall i :: 0 <= i < |stack| - 1 ==> InHandler(stack[i]))
    && (stack != [] && Top(stack).Draining? ==> Top(stack).local == Calls(stack, Top(stack).entry))
  }

  ghost predicate Inv(s: State) {
    && CountsOk(s)
    && (forall t :: t in s.threads ==> StackOk(s, s.threads[t]))
    && s.nextSubscription == |s.entries| + 1
    && TableOk(s.handlers, |s.entries|)
  }

  /** The entry a subscription was given: one for each number, and for good. */
  function EntryOf(subscription: nat): nat
    requires subscription > 0
  {
    subscription - 1
  }

  ghost predicate TableOk(handlers: map<nat, nat>, count: nat) {
    forall id :: id in handlers ==> 0 < id <= count && handlers[id] == EntryOf(id)
  }

  lemma CallsPush(stack: seq<Frame>, f: Frame, e: nat)
    ensures Calls(stack + [f], e) == Calls(stack, e) + (if InHandler(f) && f.inside.value == e then 1 else 0)
  {
    assert Below(stack + [f]) == stack;
  }

  /** Replacing a thread's stack changes the total by that thread's difference. */
  lemma AllCallsUpdate(threads: map<nat, seq<Frame>>, t: nat, stack: seq<Frame>, e: nat)
    ensures AllCalls(threads[t := stack], e)
            == AllCalls(threads, e) - (if t in threads then Calls(threads[t], e) else 0) + Calls(stack, e)
  {
    assert CallCounts(threads[t := stack], e) == CallCounts(threads, e)[t := Calls(stack, e)];
    MapSumUpdate(CallCounts(threads, e), t, Calls(stack, e));
  }

  lemma AllCallsKept(s: State, t: nat, stack: seq<Frame>, e: nat)
    requires Calls(stack, e) == Calls(Stack(s, t), e)
    ensures AllCalls(s.threads[t := stack], e) == AllCalls(s.threads, e)
  {
    AllCallsUpdate(s.threads, t, stack, e);
  }

  /** Frames survive changes that keep entries and never re-enable one. */
  ghost predicate EntriesEvolve(s: State, s': State) {
    |s.entries| <= |s'.entries| && forall e :: 0 <= e < |s.entries| ==> (!s.entries[e].enabled ==> !s'.entries[e].enabled)
  }

  lemma StackKept(s: State, s': State, stack: seq<Frame>)
    requires StackOk(s, stack) && EntriesEvolve(s, s')
    ensures StackOk(s', stack)
  {
    forall i | 0 <= i < |stack| ensures FrameOk(s', stack[i]) {
      assert FrameOk(s, stack[i]);
    }
  }

  lemma StacksKept(s: State, s': State, t: nat)
    requires (forall u :: u in s.threads ==> StackOk(s, s.threads[u])) && EntriesEvolve(s, s')
    requires s'.threads == s.threads || (t in s'.threads && s'.threads == s.threads[t := s'.threads[t]] && StackOk(s', s'.threads[t]))
    ensures forall u :: u in s'.threads ==> StackOk(s', s'.threads[u])
  {
    forall u | u in s'.threads ensures StackOk(s', s'.threads[u]) {
      if s'.threads == s.threads || u != t { StackKept(s, s', s.threads[u]); }
    }
  }

  /** The innermost frame may be replaced or removed, or a new one put on a frame in a handler. */
  lemma TopReplaced(s: State, s': State, stack: seq<Frame>, f: Frame)
    requires stack != [] && StackOk(s, stack) && EntriesEvolve(s, s') && FrameOk(s', f)
    requires f.Draining? ==> f.local == Calls(Below(stack), f.entry)
    ensures StackOk(s', Below(stack) + [f]) && StackOk(s', Below(stack))
  {
    var lower := Below(stack);
    forall i | 0 <= i < |lower| ensures FrameOk(s', lower[i]) && InHandler(lower[i]) {
      assert FrameOk(s, stack[i]) && InHandler(stack[i]);
    }
    CallsPush(lower, f, if f.Draining? then f.entry else 0);
  }

  lemma TopPushed(s: State, s': State, stack: seq<Frame>, f: Frame)
    requires StackOk(s, stack) && CanCall(stack) && EntriesEvolve(s, s') && FrameOk(s', f) && !f.Draining?
    ensures StackOk(s', stack + [f])
  {
    forall i | 0 <= i < |stack| ensures FrameOk(s', stack[i]) {
      assert FrameOk(s, stack[i]);
    }
  }

  lemma EnterStacks(s: State, t: nat)
    requires Inv(s) && Enabled(s, DoEnter(t))
    ensures forall u :: u in Enter(s, t).threads ==> StackOk(Enter(s, t), Enter(s, t).threads[u])
  {
    var s' := Enter(s, t);
    var stack := Stack(s, t);
    assert StackOk(s, stack);
    assert FrameOk(s, Top(stack));
    TopReplaced(s, s', stack, Top(s'.threads[t]));
    StacksKept(s, s', t);
  }

  lemma EnterCounts(s: State, t: nat, e: nat)
    requires Enabled(s, DoEnter(t)) && e < |s.entries| && s.entries[e].active == AllCalls(s.threads, e)
    ensures Enter(s, t).entries[e].active == AllCalls(Enter(s, t).threads, e)
  {
    var s' := Enter(s, t);
    CallsPush(Below(Stack(s, t)), Top(s'.threads[t]), e);
    AllCallsUpdate(s.threads, t, s'.threads[t], e);
  }

  lemma EnterInv(s: State, t: nat)
    requires Inv(s) && Enabled(s, DoEnter(t))
    ensures Inv(Enter(s, t))
  {
    EnterStacks(s, t);
    var s' := Enter(s, t);
    forall e | 0 <= e < |s'.entries| ensures s'.entries[e].active == AllCalls(s'.threads, e) {
      EnterCounts(s, t, e);
    }
  }

  lemma LeaveInv(s: State, t: nat)
    requires Inv(s) && Enabled(s, DoLeave(t))
    ensures Inv(Leave(s, t))
  {
    var s' := Leave(s, t);
    var stack := Stack(s, t);
    var f := Deliver(Top(stack).rest, None);
    assert StackOk(s, stack);
    assert FrameOk(s, Top(stack));
    TopReplaced(s, s', stack, f);
    StacksKept(s, s', t);
    forall e | 0 <= e < |s.entries| ensures s'.entries[e].active == AllCalls(s'.threads, e) {
      CallsPush(Below(stack), f, e);
      AllCallsUpdate(s.threads, t, s'.threads[t], e);
    }
  }

  lemma DisableStacks(s: State, t: nat)
    requires Inv(s) && Enabled(s, DoDisable(t))
    ensures forall u :: u in Disable(s, t).threads ==> StackOk(Disable(s, t), Disable(s, t).threads[u])
  {
    var s' := Disable(s, t);
    var stack := Stack(s, t);
    var e := Top(stack).entry;
    assert StackOk(s, stack) && Calls(stack, e) == Calls(Below(stack), e);
    NeverEnabledAgain(s, DoDisable(t));
    TopReplaced(s, s', stack, Draining(e, Calls(stack, e)));
    StacksKept(s, s', t);
  }

  lemma SwapCounts(s: State, t: nat, f: Frame, e: nat)
    requires Stack(s, t) != [] && !InHandler(Top(Stack(s, t))) && !InHandler(f)
    ensures AllCalls(s.threads[t := Below(Stack(s, t)) + [f]], e) == AllCalls(s.threads, e)
  {
    CallsPush(Below(Stack(s, t)), f, e);
    AllCallsKept(s, t, Below(Stack(s, t)) + [f], e);
  }

  lemma DisableInv(s: State, t: nat)
    requires Inv(s) && Enabled(s, DoDisable(t))
    ensures Inv(Disable(s, t))
  {
    DisableStacks(s, t);
    var s' := Disable(s, t);
    var e := Top(Stack(s, t)).entry;
    forall d | 0 <= d < |s.entries| ensures s'.entries[d].active == AllCalls(s'.threads, d) {
      SwapCounts(s, t, Draining(e, Calls(Stack(s, t), e)), d);
    }
  }

  /** Frames that are not inside a handler come and go without changing any count. */
  lemma PushInv(s: State, s': State, t: nat, f: Frame)
    requires Inv(s) && CanCall(Stack(s, t)) && FrameOk(s, f) && !InHandler(f) && !f.Draining?
    requires s'.entries == s.entries && s'.threads == s.threads[t := Stack(s, t) + [f]]
    requires s'.nextSubscription == s.nextSubscription && TableOk(s'.handlers, |s.entries|)
    ensures Inv(s')
  {
    TopPushed(s, s', Stack(s, t), f);
    StacksKept(s, s', t);
    forall e | 0 <= e < |s.entries| ensures s'.entries[e].active == AllCalls(s'.threads, e) {
      CallsPush(Stack(s, t), f, e);
      AllCallsKept(s, t, s'.threads[t], e);
    }
  }

  lemma PopInv(s: State, t: nat)
    requires Inv(s) && Stack(s, t) != [] && !InHandler(Top(Stack(s, t)))
    ensures Inv(Pop(s, t))
  {
    var s' := Pop(s, t);
    var stack := Stack(s, t);
    assert StackOk(s, stack);
    TopReplaced(s, s', stack, Deliver([], None));
    StacksKept(s, s', t);
    forall e | 0 <= e < |s.entries| ensures s'.entries[e].active == AllCalls(s'.threads, e) {
      AllCallsKept(s, t, s'.threads[t], e);
    }
  }

  lemma SubscribeInv(s: State)
    requires Inv(s)
    ensures Inv(Subscribe(s))
  {
    var s' := Subscribe(s);
    StacksKept(s, s', 0);
    NoCallsBeyond(s, |s.entries|);
  }

  /** Nobody is inside a handler that does not exist yet. */
  lemma NoCallsBeyond(s: State, e: nat)
    requires (forall t :: t in s.threads ==> StackOk(s, s.threads[t])) && e >= |s.entries|
    ensures AllCalls(s.threads, e) == 0
  {
    forall t | t in s.threads ensures CallCounts(s.threads, e)[t] == 0 {
      NoCallsInStack(s, s.threads[t], e);
    }
    MapSumZero(CallCounts(s.threads, e));
  }

  lemma {:induction false} NoCallsInStack(s: State, stack: seq<Frame>, e: nat)
    requires (forall i :: 0 <= i < |stack| ==> FrameOk(s, stack[i])) && e >= |s.entries|
    ensures Calls(stack, e) == 0
  {
    if stack != [] {
      NoCallsInStack(s, Below(stack), e);
      assert FrameOk(s, stack[|stack| - 1]);
    }
  }

  lemma NextInv(s: State, a: Action)
    requires Inv(s) && Enabled(s, a)
    ensures Inv(Next(s, a))
  {
    match a
    case DoSubscribe(_) => SubscribeInv(s);
    case DoBegin(t, order) => BeginInv(s, t, order);
    case DoEnter(t) => EnterInv(s, t);
    case DoLeave(t) => LeaveInv(s, t);
    case DoEnd(t) => PopInv(s, t);
    case DoErase(t, subscription) => EraseInv(s, t, subscription);
    case DoDisable(t) => DisableInv(s, t);
    case DoReturn(t) => PopInv(s, t);
  }

  lemma BeginInv(s: State, t: nat, order: seq<nat>)
    requires Inv(s) && Enabled(s, DoBegin(t, order))
    ensures Inv(Push(s, t, Deliver(order, None)))
  {
    forall k | 0 <= k < |order| ensures order[k] < |s.entries| {
      assert order[k] in (set e | e in order);
      assert order[k] in s.handlers.Values;
    }
    PushInv(s, Push(s, t, Deliver(order, None)), t, Deliver(order, None));
  }

  lemma EraseInv(s: State, t: nat, subscription: nat)
    requires Inv(s) && Enabled(s, DoErase(t, subscription))
    ensures Inv(Erase(s, t, subscription))
  {
    if subscription in s.handlers {
      PushInv(s, Erase(s, t, subscription), t, Erased(s.handlers[subscription]));
    }
  }

  // ---------------------------------------------------------------- quiescence

  /** No thread but `t` is inside the handler of `e`, which is disabled. */
  ghost predicate QuietExcept(s: State, e: nat, t: nat) {
    && e < |s.entries| && !s.entries[e].enabled
    && forall u :: u in s.threads && u != t ==> Calls(s.threads[u], e) == 0
  }

  /** When the removing call may return, no other thread is inside the handler, and what is active
      are exactly the caller's own enclosing calls. */
  lemma ReturnMeansQuiet(s: State, t: nat)
    requires Inv(s) && Enabled(s, DoReturn(t))
    ensures var e := Top(Stack(s, t)).entry; QuietExcept(s, e, t) && s.entries[e].active == Calls(Stack(s, t), e)
  {
    var e := Top(Stack(s, t)).entry;
    assert StackOk(s, s.threads[t]) && FrameOk(s, Top(Stack(s, t)));
    var counts := CallCounts(s.threads, e);
    MapSumTake(counts, t);
    MapSumZero(counts - {t});
    forall u | u in s.threads && u != t ensures Calls(s.threads[u], e) == 0 {
      assert u in counts - {t};
    }
  }

  /** A disabled entry's handler is never entered again: no step adds a call to it. */
  lemma DisabledNeverEntered(s: State, a: Action, e: nat)
    requires Enabled(s, a) && e < |s.entries| && !s.entries[e].enabled
    ensures Calls(Stack(Next(s, a), a.thread), e) <= Calls(Stack(s, a.thread), e)
  {
    var s' := Next(s, a);
    var stack := Stack(s, a.thread);
    match a
    case DoSubscribe(_) =>
    case DoBegin(_, order) => CallsPush(stack, Deliver(order, None), e);
    case DoEnter(_) => CallsPush(Below(stack), Top(s'.threads[a.thread]), e);
    case DoLeave(_) => CallsPush(Below(stack), Deliver(Top(stack).rest, None), e);
    case DoEnd(_) =>
    case DoErase(_, subscription) =>
      if subscription in s.handlers { CallsPush(stack, Erased(s.handlers[subscription]), e); }
    case DoDisable(_) => CallsPush(Below(stack), Top(s'.threads[a.thread]), e);
    case DoReturn(_) =>
  }

  lemma StepsAreLocal(s: State, a: Action, u: nat)
    requires Enabled(s, a) && u != a.thread
    ensures Stack(Next(s, a), u) == Stack(s, u)
  {
  }

  lemma NeverEnabledAgain(s: State, a: Action)
    requires Enabled(s, a)
    ensures EntriesEvolve(s, Next(s, a))
  {
  }

  /** Quiet threads stay quiet, and the remover's own calls only unwind. */
  lemma QuietStaysQuiet(s: State, a: Action, e: nat, t: nat)
    requires Enabled(s, a) && QuietExcept(s, e, t)
    ensures QuietExcept(Next(s, a), e, t) && Calls(Stack(Next(s, a), t), e) <= Calls(Stack(s, t), e)
  {
    DisabledNeverEntered(s, a, e);
    NeverEnabledAgain(s, a);
    forall u | u != a.thread ensures Stack(Next(s, a), u) == Stack(s, u) {
      StepsAreLocal(s, a, u);
    }
    forall u | u in Next(s, a).threads && u != t ensures Calls(Next(s, a).threads[u], e) == 0 {
      assert Calls(Stack(s, u), e) == 0;
    }
  }

  ghost predicate StepAt(run: seq<State>, i: nat)
    requires i + 1 < |run|
  {
    exists a :: Enabled(run[i], a) && run[i + 1] == Next(run[i], a)
  }

  /** Any interleaving of any number of threads, nested deliveries and removals included. */
  ghost predicate IsRun(run: seq<State>) {
    && |run| > 0 && run[0] == Init()
    && forall i :: 0 <= i < |run| - 1 ==> StepAt(run, i)
  }

  lemma StepKeeps(run: seq<State>, i: nat)
    requires IsRun(run) && 0 < i < |run| && Inv(run[i - 1])
    ensures Inv(run[i])
  {
    assert StepAt(run, i - 1);
    var a :| Enabled(run[i - 1], a) && run[i] == Next(run[i - 1], a);
    NextInv(run[i - 1], a);
  }

  /** `active_calls` always counts the frames of all threads. */
  lemma {:induction false} RunsCountCalls(run: seq<State>, i: nat)
    requires IsRun(run) && i < |run|
    ensures Inv(run[i])
  {
    if i > 0 {
      RunsCountCalls(run, i - 1);
      StepKeeps(run, i);
    }
  }

  lemma StepStaysQuiet(run: seq<State>, i: nat, e: nat, t: nat)
    requires IsRun(run) && i + 1 < |run| && QuietExcept(run[i], e, t)
    ensures QuietExcept(run[i + 1], e, t) && Calls(Stack(run[i + 1], t), e) <= Calls(Stack(run[i], t), e)
  {
    assert StepAt(run, i);
    var a :| Enabled(run[i], a) && run[i + 1] == Next(run[i], a);
    QuietStaysQuiet(run[i], a, e, t);
  }

  /** Quiescence over whole runs: from the moment the removing call can return, at `i`, no other
      thread is ever inside the handler again, and the remover itself starts no new call. */
  lemma {:induction false} UnsubscribeQuiesces(run: seq<State>, i: nat, j: nat, t: nat)
    requires IsRun(run) && i <= j < |run| && Enabled(run[i], DoReturn(t))
    ensures var e := Top(Stack(run[i], t)).entry;
            QuietExcept(run[j], e, t) && Calls(Stack(run[j], t), e) <= Calls(Stack(run[i], t), e)
    decreases j
  {
    if i == j {
      RunsCountCalls(run, i);
      ReturnMeansQuiet(run[i], t);
    } else {
      UnsubscribeQuiesces(run, i, j - 1, t);
      StepStaysQuiet(run, j - 1, Top(Stack(run[i], t)).entry, t);
    }
  }

  // ---------------------------------------------------------------- which removals quiesce

  /** Thread `t` calls for the removal of a subscription in state `i`, and the call is about to return
      in state `j`: at once where there is nothing to erase, otherwise when its wait is over. */
  ghost predicate RemovalReturns(run: seq<State>, i: nat, j: nat, t: nat, subscription: nat)
    requires i <= j < |run|
  {
    && Enabled(run[i], DoErase(t, subscription))
    && if subscription !in run[i].handlers then j == i
       else
         && i < j && run[i + 1] == Next(run[i], DoErase(t, subscription)) && Enabled(run[j], DoReturn(t))
         && forall k {:trigger run[k]} :: i < k <= j ==> |Stack(run[k], t)| == |Stack(run[i], t)| + 1
  }

  predicate Removing(stack: seq<Frame>, e: nat) {
    stack != [] && (Top(stack).Erased? || Top(stack).Draining?) && Top(stack).entry == e
  }

  lemma RemovalStep(run: seq<State>, k: nat, t: nat, e: nat)
    requires IsRun(run) && 0 < k < |run| && Removing(Stack(run[k - 1], t), e)
    requires |Stack(run[k], t)| == |Stack(run[k - 1], t)|
    ensures Removing(Stack(run[k], t), e)
  {
    assert StepAt(run, k - 1);
    var a :| Enabled(run[k - 1], a) && run[k] == Next(run[k - 1], a);
    if a.thread != t { StepsAreLocal(run[k - 1], a, t); }
  }

  lemma {:induction false} RemovalGoesOn(run: seq<State>, i: nat, j: nat, k: nat, t: nat, subscription: nat)
    requires IsRun(run) && i < k <= j < |run| && subscription in run[i].handlers && subscription > 0
    requires RemovalReturns(run, i, j, t, subscription) && run[i].handlers[subscription] == EntryOf(subscription)
    ensures Removing(Stack(run[k], t), EntryOf(subscription))
    decreases k
  {
    if k == i + 1 {
      assert Stack(run[k], t) == Stack(run[i], t) + [Erased(EntryOf(subscription))];
    } else {
      RemovalGoesOn(run, i, j, k - 1, t, subscription);
      assert |Stack(run[k], t)| == |Stack(run[k - 1], t)|;
      RemovalStep(run, k, t, EntryOf(subscription));
    }
  }

  /** Quiet now is quiet for the rest of the run. */
  lemma {:induction false} QuietForGood(run: seq<State>, i: nat, j: nat, e: nat, t: nat)
    requires IsRun(run) && i <= j < |run| && QuietExcept(run[i], e, t)
    ensures QuietExcept(run[j], e, t)
    decreases j
  {
    if i < j {
      QuietForGood(run, i, j - 1, e, t);
      StepStaysQuiet(run, j - 1, e, t);
    }
  }

  /** The exact condition: a removal that returns leaves its entry quiet, now and in every later
      state, if and only if it found the subscription in the table, or the entry had already been
      disabled with no other thread inside. */
  lemma RemovalQuiescesIff(run: seq<State>, i: nat, j: nat, t: nat, subscription: nat)
    requires IsRun(run) && i <= j < |run| && RemovalReturns(run, i, j, t, subscription)
    requires 0 < subscription < run[i].nextSubscription
    ensures (forall k :: j <= k < |run| ==> QuietExcept(run[k], EntryOf(subscription), t)) <==>
            subscription in run[i].handlers || QuietExcept(run[i], EntryOf(subscription), t)
  {
    var e := EntryOf(subscription);
    RunsCountCalls(run, i);
    RunsCountCalls(run, j);
    if subscription in run[i].handlers {
      RemovalGoesOn(run, i, j, j, t, subscription);
      ReturnMeansQuiet(run[j], t);
    }
    if QuietExcept(run[j], e, t) {
      forall k | j <= k < |run| ensures QuietExcept(run[k], e, t) { QuietForGood(run, j, k, e, t); }
    }
  }

  lemma RunExtended(run: seq<State>, a: Action)
    requires IsRun(run) && Enabled(run[|run| - 1], a)
    ensures IsRun(run + [Next(run[|run| - 1], a)])
  {
    var longer := run + [Next(run[|run| - 1], a)];
    forall i | 0 <= i < |longer| - 1 ensures StepAt(longer, i) {
      if i < |run| - 1 {
        assert StepAt(run, i);
        var b :| Enabled(run[i], b) && run[i + 1] == Next(run[i], b);
        assert Enabled(longer[i], b) && longer[i + 1] == Next(longer[i], b);
      } else {
        assert Enabled(longer[i], a) && longer[i + 1] == Next(longer[i], a);
      }
    }
  }

  /** One subscription, a delivery by `d` that has listed it, and a removal by `t` that has erased it. */
  lemma ErasedWhileListed(t: nat, d: nat) returns (run: seq<State>)
    requires t != d
    ensures IsRun(run) && |run| == 4
    ensures run[3] == State(map[], [Entry(0, true)], 2, map[d := [Deliver([0], None)], t := [Erased(0)]])
  {
    var s0, s1 := Init(), State(map[1 := 0], [Entry(0, true)], 2, map[]);
    var s2 := s1.(threads := map[d := [Deliver([0], None)]]);
    run := [s0];
    assert s1 == Next(s0, DoSubscribe(t));
    RunExtended(run, DoSubscribe(t));
    run := run + [s1];
    assert 1 in s1.handlers && s1.handlers[1] == 0;
    assert [0][0] == 0 && (set e | e in [0]) == {0} == s1.handlers.Values;
    assert Stack(s1, d) + [Deliver([0], None)] == [Deliver([0], None)];
    assert s2 == Next(s1, DoBegin(d, [0]));
    RunExtended(run, DoBegin(d, [0]));
    run := run + [s2];
    assert Stack(s2, t) + [Erased(0)] == [Erased(0)] && s2.handlers - {1} == map[];
    RunExtended(run, DoErase(t, 1));
    run := run + [Next(s2, DoErase(t, 1))];
  }

  /** The failing half is reached: a second removal, by `u`, returns at once in a run in which nobody
      is inside the handler, and then the delivery enters it. */
  lemma SecondRemovalDoesNotQuiesce(t: nat, d: nat, u: nat) returns (run: seq<State>)
    requires t != d && u != t && u != d
    ensures IsRun(run) && |run| == 5 && RemovalReturns(run, 3, 3, u, 1) && 1 < run[3].nextSubscription
    ensures !QuietExcept(run[3], EntryOf(1), u)
    ensures run[3].entries == [Entry(0, true)] && Calls(Stack(run[4], d), EntryOf(1)) == 1
  {
    var before := ErasedWhileListed(t, d);
    var s := before[3];
    assert Stack(s, d) == [Deliver([0], None)] && Stack(s, u) == [];
    RunExtended(before, DoEnter(d));
    run := before + [Next(s, DoEnter(d))];
    EnteredOnce(s, d);
  }

  lemma EnteredOnce(s: State, d: nat)
    requires Stack(s, d) == [Deliver([0], None)] && s.entries == [Entry(0, true)]
    ensures Enabled(s, DoEnter(d)) && Calls(Stack(Next(s, DoEnter(d)), d), 0) == 1
  {
    var stack := Stack(Next(s, DoEnter(d)), d);
    assert Below(Stack(s, d)) == [];
    assert [0][1..] == [];
    assert stack == [] + [Deliver([], Some(0))];
    CallsPush([], Deliver([], Some(0)), 0);
  }

  // ---------------------------------------------------------------- a delivery reaches its handlers

  /** Thread `t` is in a delivery at depth `d` of its stack. */
  predicate Delivering(s: State, t: nat, d: nat) { d < |Stack(s, t)| && Stack(s, t)[d].Deliver? }

  /** The delivery is between two handlers, innermost, and `e` is next. */
  predicate TurnOf(s: State, t: nat, d: nat, e: nat) {
    Delivering(s, t, d) && |Stack(s, t)| == d + 1 && Stack(s, t)[d].inside.None? && Stack(s, t)[d].rest != [] && Stack(s, t)[d].rest[0] == e
  }

  /** What a step can do to a delivery that goes on: nothing; leave the handler it is in; or take the
      next entry of its list, and enter it exactly if it is enabled. */
  ghost predicate DeliveryMoves(s: State, s': State, t: nat, d: nat)
    requires Delivering(s, t, d) && Delivering(s', t, d)
  {
    var f, f' := Stack(s, t)[d], Stack(s', t)[d];
    || f' == f
    || (f.inside.Some? && f' == f.(inside := None))
    || (f.rest != [] && TurnOf(s, t, d, f.rest[0]) && f.rest[0] < |s.entries|
        && f' == Deliver(f.rest[1..], if s.entries[f.rest[0]].enabled then Some(f.rest[0]) else None))
  }

  lemma DeliveryStep(s: State, a: Action, t: nat, d: nat)
    requires Enabled(s, a) && Delivering(s, t, d) && d < |Stack(Next(s, a), t)|
    ensures Delivering(Next(s, a), t, d) && DeliveryMoves(s, Next(s, a), t, d)
  {
    if a.thread != t {
      StepsAreLocal(s, a, t);
    } else {
      OwnStep(s, a, d);
    }
  }

  lemma OwnStep(s: State, a: Action, d: nat)
    requires Enabled(s, a) && Delivering(s, a.thread, d) && d < |Stack(Next(s, a), a.thread)|
    ensures Delivering(Next(s, a), a.thread, d) && DeliveryMoves(s, Next(s, a), a.thread, d)
  {
    var stack, stack' := Stack(s, a.thread), Stack(Next(s, a), a.thread);
    if d + 1 < |stack| { assert stack'[d] == stack[d]; }
  }

  /** The delivery that begins with the step after `i` is still there in state `j`. */
  ghost predicate InDelivery(run: seq<State>, i: nat, j: nat, t: nat, order: seq<nat>)
    requires i < j < |run|
  {
    && Enabled(run[i], DoBegin(t, order)) && run[i + 1] == Next(run[i], DoBegin(t, order))
    && forall k {:trigger run[k]} :: i < k <= j ==> |Stack(run[k], t)| > |Stack(run[i], t)|
  }

  /** The entry whose handler the delivery at depth `d` enters with the step that leads to state `k`. */
  function EnteredBy(run: seq<State>, k: nat, t: nat, d: nat): seq<nat>
    requires 0 < k < |run|
  {
    if Delivering(run[k - 1], t, d) && Delivering(run[k], t, d) && Stack(run[k - 1], t)[d].inside.None? && Stack(run[k], t)[d].inside.Some?
    then [Stack(run[k], t)[d].inside.value]
    else []
  }

  /** The handlers entered between two states, in order. */
  function EnteredBetween(run: seq<State>, i: nat, j: nat, t: nat, d: nat): seq<nat>
    requires i <= j < |run|
    decreases j
  {
    if i == j then [] else EnteredBetween(run, i, j - 1, t, d) + EnteredBy(run, j, t, d)
  }

  /** An entry is entered if it is enabled. */
  function Entered(s: State, e: nat): seq<nat> {
    if e < |s.entries| && s.entries[e].enabled then [e] else []
  }

  /** The entries that are enabled in the state in which their turn comes. */
  function EnabledAt(run: seq<State>, order: seq<nat>, turns: seq<nat>): seq<nat>
    requires |turns| <= |order| && forall m :: 0 <= m < |turns| ==> turns[m] < |run|
    decreases |turns|
  {
    if turns == [] then []
    else
      var m := |turns| - 1;
      EnabledAt(run, order, turns[..m]) + Entered(run[turns[m]], order[m])
  }

  /** The turns so far: one for each entry taken from the list, in its order. */
  ghost predicate TurnsOk(run: seq<State>, i: nat, j: nat, t: nat, d: nat, order: seq<nat>, turns: seq<nat>)
    requires i < j < |run|
  {
    && |turns| <= |order| && Increasing(turns)
    && forall m {:trigger turns[m]} :: 0 <= m < |turns| ==> i < turns[m] < j && TurnOf(run[turns[m]], t, d, order[m])
  }

  /** How far a delivery has come: its turns, the rest of the list, and what it has entered. */
  ghost predicate SoFar(run: seq<State>, i: nat, j: nat, t: nat, d: nat, order: seq<nat>, turns: seq<nat>)
    requires i < j < |run|
  {
    && TurnsOk(run, i, j, t, d, order, turns) && Delivering(run[j], t, d)
    && order[|turns|..] == Stack(run[j], t)[d].rest
    && EnteredBetween(run, i + 1, j, t, d) == EnabledAt(run, order, turns)
  }

  lemma DeliveryGoesOn(run: seq<State>, i: nat, j: nat, t: nat, d: nat, order: seq<nat>, before: seq<nat>) returns (turns: seq<nat>)
    requires IsRun(run) && i + 1 < j < |run| && SoFar(run, i, j - 1, t, d, order, before) && d < |Stack(run[j], t)|
    ensures SoFar(run, i, j, t, d, order, turns)
  {
    DeliveryStepAt(run, j, t, d);
    TakesNext(run, j, t, d, order, |before|);
    if Took(run, j, t, d) {
      TurnsGrow(run, i, j, t, d, order, before);
      EnabledGrows(run, j - 1, order, before);
      turns := before + [j - 1];
    } else {
      turns := before;
    }
  }

  /** A delivery after any number of steps: what it has entered are the entries that were enabled at
      their turn, and the rest of the list is still before it. */
  lemma {:induction false} DeliverySoFar(run: seq<State>, i: nat, j: nat, t: nat, order: seq<nat>) returns (turns: seq<nat>)
    requires IsRun(run) && i < j < |run| && InDelivery(run, i, j, t, order)
    ensures SoFar(run, i, j, t, |Stack(run[i], t)|, order, turns)
    decreases j
  {
    var d := |Stack(run[i], t)|;
    if j == i + 1 {
      turns := [];
      assert Stack(run[j], t)[d] == Deliver(order, None);
    } else {
      var before := DeliverySoFar(run, i, j - 1, t, order);
      turns := DeliveryGoesOn(run, i, j, t, d, order, before);
    }
  }

  lemma DeliveryStepAt(run: seq<State>, j: nat, t: nat, d: nat)
    requires IsRun(run) && 0 < j < |run| && Delivering(run[j - 1], t, d) && d < |Stack(run[j], t)|
    ensures Delivering(run[j], t, d) && DeliveryMoves(run[j - 1], run[j], t, d)
  {
    assert StepAt(run, j - 1);
    var a :| Enabled(run[j - 1], a) && run[j] == Next(run[j - 1], a);
    DeliveryStep(run[j - 1], a, t, d);
  }

  /** Whether the delivery takes the next entry of its list in the step to state `j`. */
  predicate Took(run: seq<State>, j: nat, t: nat, d: nat)
    requires 0 < j < |run| && Delivering(run[j - 1], t, d) && Delivering(run[j], t, d)
  {
    Stack(run[j - 1], t)[d].rest != Stack(run[j], t)[d].rest
  }

  lemma TakesNext(run: seq<State>, j: nat, t: nat, d: nat, order: seq<nat>, n: nat)
    requires 0 < j < |run| && Delivering(run[j - 1], t, d) && Delivering(run[j], t, d)
    requires DeliveryMoves(run[j - 1], run[j], t, d) && n <= |order| && order[n..] == Stack(run[j - 1], t)[d].rest
    ensures Took(run, j, t, d) ==>
              n < |order| && order[n + 1..] == Stack(run[j], t)[d].rest && TurnOf(run[j - 1], t, d, order[n])
              && EnteredBy(run, j, t, d) == Entered(run[j - 1], order[n])
    ensures !Took(run, j, t, d) ==> order[n..] == Stack(run[j], t)[d].rest && EnteredBy(run, j, t, d) == []
  {
    var f := Stack(run[j - 1], t)[d];
    if Took(run, j, t, d) { assert order[n] == f.rest[0] && order[n + 1..] == f.rest[1..]; }
  }

  lemma TurnsGrow(run: seq<State>, i: nat, j: nat, t: nat, d: nat, order: seq<nat>, before: seq<nat>)
    requires i + 1 < j < |run| && TurnsOk(run, i, j - 1, t, d, order, before)
    requires |before| < |order| && TurnOf(run[j - 1], t, d, order[|before|])
    ensures TurnsOk(run, i, j, t, d, order, before + [j - 1])
  {
    var turns := before + [j - 1];
    forall m: nat | m < |turns| ensures i < turns[m] < j && TurnOf(run[turns[m]], t, d, order[m]) {
      if m < |before| { assert turns[m] == before[m]; }
    }
  }

  lemma EnabledGrows(run: seq<State>, i: nat, order: seq<nat>, before: seq<nat>)
    requires i < |run| && |before| < |order| && forall m :: 0 <= m < |before| ==> before[m] < |run|
    ensures EnabledAt(run, order, before + [i]) == EnabledAt(run, order, before) + Entered(run[i], order[|before|])
  {
    var turns := before + [i];
    assert |turns| == |before| + 1 && turns[..|before|] == before && turns[|before|] == i;
  }

  /** A delivery reaches its handlers: when it ends, every entry of its list has had its turn, in order,
      and the handlers it has entered are exactly those enabled at their turn, in that order. */
  lemma DeliveryIsComplete(run: seq<State>, i: nat, j: nat, t: nat, order: seq<nat>) returns (turns: seq<nat>)
    requires IsRun(run) && i < j < |run| && InDelivery(run, i, j, t, order)
    requires Enabled(run[j], DoEnd(t)) && |Stack(run[j], t)| == |Stack(run[i], t)| + 1
    ensures |turns| == |order| && TurnsOk(run, i, j, t, |Stack(run[i], t)|, order, turns)
    ensures EnteredBetween(run, i + 1, j, t, |Stack(run[i], t)|) == EnabledAt(run, order, turns)
  {
    turns := DeliverySoFar(run, i, j, t, order);
    assert order[|turns|..] == [];
  }

  function Occurrences(s: seq<nat>, e: nat): nat {
    if s == [] then 0 else Occurrences(s[..|s| - 1], e) + if s[|s| - 1] == e then 1 else 0
  }

  lemma OccurrencesAppend(s: seq<nat>, x: seq<nat>, e: nat)
    requires |x| <= 1
    ensures Occurrences(s + x, e) == Occurrences(s, e) + if x == [e] then 1 else 0
  {
    if x == [] { assert s + x == s; } else { assert (s + x)[..|s|] == s; }
  }

  lemma {:induction false} OccurrencesOf(run: seq<State>, order: seq<nat>, turns: seq<nat>, e: nat, k: nat)
    requires |turns| <= |order| && (forall m :: 0 <= m < |turns| ==> turns[m] < |run|) && NoDuplicates(order)
    requires k < |order| && order[k] == e
    requires k < |turns| ==> Entered(run[turns[k]], e) == [e]
    ensures Occurrences(EnabledAt(run, order, turns), e) == if k < |turns| then 1 else 0
    decreases |turns|
  {
    if turns != [] {
      var m := |turns| - 1;
      OccurrencesOf(run, order, turns[..m], e, k);
      OccurrencesAppend(EnabledAt(run, order, turns[..m]), Entered(run[turns[m]], order[m]), e);
    }
  }

  /** So a subscriber that stays subscribed during a delivery is called by it exactly once. */
  lemma SubscribersAreCalledOnce(run: seq<State>, i: nat, j: nat, t: nat, order: seq<nat>, e: nat)
    requires IsRun(run) && i < j < |run| && InDelivery(run, i, j, t, order)
    requires Enabled(run[j], DoEnd(t)) && |Stack(run[j], t)| == |Stack(run[i], t)| + 1
    requires e in run[i].handlers.Values && forall k :: i < k < j ==> e < |run[k].entries| && run[k].entries[e].enabled
    ensures Occurrences(EnteredBetween(run, i + 1, j, t, |Stack(run[i], t)|), e) == 1
  {
    var turns := DeliveryIsComplete(run, i, j, t, order);
    assert e in (set x | x in order);
    var k :| 0 <= k < |order| && order[k] == e;
    OccurrencesOf(run, order, turns, e, k);
  }

  lemma InitInv()
    ensures Inv(Init())
  {
  }
}

/** The bus object: its subscription table, the heap of handler entries and the threads' calls. */
module EventBuses {
  import opened Common
  import opened EventBusModel

  /** `calls_on_this_thread`: the walk over the frames from the innermost one outwards. */
  method CallsOnThread(stack: seq<Frame>, e: nat) returns (count: nat)
    ensures count == Calls(stack, e)
  {
    count := 0;
    var i := |stack|;
    assert stack[..i] == stack;
    while i > 0
      invariant 0 <= i <= |stack| && count + Calls(stack[..i], e) == Calls(stack, e)
    {
      assert Below(stack[..i]) == stack[..i - 1] && Top(stack[..i]) == stack[i - 1];
      i := i - 1;
      if InHandler(stack[i]) && stack[i].inside.value == e { count := count + 1; }
    }
  }

  class EventBus {
    var handlers: map<nat, nat>
    var entries: seq<Entry>
    var nextSubscription: nat
    var threads: map<nat, seq<Frame>>

    ghost function Model(): State
      reads this
    {
      State(handlers, entries, nextSubscription, threads)
    }

    ghost predicate Valid()
      reads this
    {
      Inv(Model())
    }

    constructor ()
      ensures Valid() && Model() == Init()
    {
      handlers, entries, nextSubscription, threads := map[], [], 1, map[];
      new;
      InitInv();
    }

    /** An empty handler is refused before anything changes. */
    method SubscribeHandler(thread: nat, callable: bool) returns (r: Result<nat>)
      requires Enabled(Model(), DoSubscribe(thread))
      modifies this
      ensures !callable ==> r == Throws("event handler is required") && Model() == old(Model())
      ensures callable ==> r == Done(old(nextSubscription)) && Model() == Subscribe(old(Model()))
    {
      if !callable { return Throws("event handler is required"); }
      var id := nextSubscription;
      nextSubscription := nextSubscription + 1;
      handlers := handlers[id := |entries|];
      entries := entries + [Entry(0, true)];
      return Done(id);
    }

    method BeginDelivery(thread: nat, order: seq<nat>)
      requires Enabled(Model(), DoBegin(thread, order))
      modifies this`threads
      ensures Model() == Next(old(Model()), DoBegin(thread, order))
    {
      var stack := if thread in threads then threads[thread] else [];
      threads := threads[thread := stack + [Deliver(order, None)]];
    }

    /** One turn of the delivery loop, up to the handler. */
    method EnterHandler(thread: nat) returns (entered: bool)
      requires Enabled(Model(), DoEnter(thread))
      modifies this
      ensures Model() == Next(old(Model()), DoEnter(thread))
      ensures entered == InHandler(Top(Stack(Model(), thread)))
    {
      var stack := threads[thread];
      var rest := Top(stack).rest;
      var e := rest[0];
      entered := entries[e].enabled;
      if entered {
        entries := entries[e := entries[e].(active := entries[e].active + 1)];
      }
      threads := threads[thread := Below(stack) + [Deliver(rest[1..], if entered then Some(e) else None)]];
    }

    /** The handler returned or threw; the call is taken off the entry's count. */
    method LeaveHandler(thread: nat)
      requires Enabled(Model(), DoLeave(thread))
      modifies this
      ensures Model() == Next(old(Model()), DoLeave(thread))
    {
      var stack := threads[thread];
      var e := Top(stack).inside.value;
      entries := entries[e := entries[e].(active := entries[e].active - 1)];
      threads := threads[thread := Below(stack) + [Deliver(Top(stack).rest, None)]];
    }

    method EndDelivery(thread: nat)
      requires Enabled(Model(), DoEnd(thread))
      modifies this`threads
      ensures Model() == Next(old(Model()), DoEnd(thread))
    {
      threads := threads[thread := Below(threads[thread])];
    }

    /** The first region of a removal; false means that there was nothing to remove. */
    method EraseSubscription(thread: nat, subscription: nat) returns (removed: bool)
      requires Enabled(Model(), DoErase(thread, subscription))
      modifies this
      ensures Model() == Next(old(Model()), DoErase(thread, subscription))
      ensures removed == (subscription in old(handlers)) && subscription !in handlers
    {
      removed := subscription in handlers;
      if removed {
        var stack := if thread in threads then threads[thread] else [];
        threads := threads[thread := stack + [Erased(handlers[subscription])]];
        handlers := handlers - {subscription};
      }
    }

    /** The second region of a removal, up to its wait. */
    method DisableEntry(thread: nat)
      requires Enabled(Model(), DoDisable(thread))
      modifies this
      ensures Model() == Next(old(Model()), DoDisable(thread))
    {
      var stack := threads[thread];
      var e := Top(stack).entry;
      entries := entries[e := entries[e].(enabled := false)];
      var local := CallsOnThread(stack, e);
      threads := threads[thread := Below(stack) + [Draining(e, local)]];
    }

    /** The wait is over: no other thread is inside the handler any more. */
    method ReturnFromRemoval(thread: nat)
      requires Valid() && Enabled(Model(), DoReturn(thread))
      modifies this`threads
      ensures Model() == Next(old(Model()), DoReturn(thread))
      ensures QuietExcept(Model(), Top(old(Stack(Model(), thread))).entry, thread)
    {
      ReturnMeansQuiet(Model(), thread);
      QuietStaysQuiet(Model(), DoReturn(thread), Top(threads[thread]).entry, thread);
      threads := threads[thread := Below(threads[thread])];
    }

    /** Any region on any thread restores the counts. */
    method Perform(a: Action)
      requires Valid() && Enabled(Model(), a)
      modifies this
      ensures Valid() && Model() == Next(old(Model()), a)
      ensures a.DoSubscribe? ==> old(nextSubscription) !in old(handlers)
    {
      NextInv(Model(), a);
      match a
      case DoSubscribe(t) => var _ := SubscribeHandler(t, true);
      case DoBegin(t, order) => BeginDelivery(t, order);
      case DoEnter(t) => var _ := EnterHandler(t);
      case DoLeave(t) => LeaveHandler(t);
      case DoEnd(t) => EndDelivery(t);
      case DoErase(t, subscription) => var _ := EraseSubscription(t, subscription);
      case DoDisable(t) => DisableEntry(t);
      case DoReturn(t) => ReturnFromRemoval(t);
    }
  }
}

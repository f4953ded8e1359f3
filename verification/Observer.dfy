/** The runtime observer: spans opened and closed by events, reduced to counters and samples.
    Events of different session incarnations do not interfere. */
module ObserverModel {
  import opened Common
  import opened Events

  /** A session incarnation. */
  datatype Pair = Pair(session: string, generation: nat)

  datatype Phase =
    | Turn | Model | FirstTokenOut | Tool | AsrFinal | S2sFirstAudio | WholeTurn
    | DuplexFirstAudio | DuplexFirstAudible | TtsFirstAudio | TtsTotal | BargeInStop

  datatype Key = Key(pair: Pair, turn: string, phase: Phase, name: string)

  /** The counters, one for each name that the source uses. */
  datatype Counter =
    | Seen(kind: EventType)
    | DuplicateStarts | SpanLimitRejections | UnmatchedEndpoints | InvalidIntervals | DiscardedSpans
    | TurnsCancelled | TurnsFailed | Errors

  datatype Metric =
    | AsrFinalLatency | TimeToFirstToken | ModelDuration | ToolDuration | TurnDuration
    | TtsFirstAudioLatency | S2sFirstAudioLatency | S2sFirstAudibleLatency | BargeInStopLatency
    | TtsTotalDuration | ConversationTurnDuration

  datatype Sample = Sample(metric: Metric, elapsed: int)

  /** The open spans, how often each counter was counted up, and the samples observed. */
  datatype Obs = Obs(starts: map<Key, int>, counters: multiset<Counter>, samples: multiset<Sample>)

  function Init(): Obs { Obs(map[], multiset{}, multiset{}) }

  // ---------------------------------------------------------------- primitive steps

  /** What an event asks for, step by step. */
  datatype Op =
    | Count(counter: Counter)
    | Open(key: Key, at: int)
    | OpenUnless(guard: Key, first: Key, at: int)
    | Close(key: Key, metric: Metric, at: int, required: bool)
    | CloseEither(key: Key, fallback: Option<Key>, metric: Metric, at: int)
    | Forget(key: Key)
    | Sweep(pair: Pair, turn: Option<string>, agentOnly: bool)

  function Tick(o: Obs, c: Counter): Obs { o.(counters := o.counters + multiset{c}) }

  /** An ambiguous second start voids the span; a start beyond the limit is refused. */
  function Begin(limit: Option<nat>, o: Obs, key: Key, at: int): Obs {
    if key in o.starts then Tick(o.(starts := o.starts[key := 0]), DuplicateStarts)
    else if limit.Some? && |o.starts| >= limit.value then Tick(o, SpanLimitRejections)
    else o.(starts := o.starts[key := at])
  }

  function Finish(o: Obs, key: Key, metric: Metric, at: int, required: bool): Obs {
    if key !in o.starts then (if required then Tick(o, UnmatchedEndpoints) else o)
    else
      var start := o.starts[key];
      var rest := o.(starts := o.starts - {key});
      if start == 0 || at == 0 || at < start then Tick(rest, InvalidIntervals)
      else rest.(samples := rest.samples + multiset{Sample(metric, at - start)})
  }

  predicate AgentPhase(p: Phase) { p.Turn? || p.Model? || p.FirstTokenOut? || p.Tool? }

  predicate Swept(k: Key, pair: Pair, turn: Option<string>, agentOnly: bool) {
    k.pair == pair && (turn.None? || k.turn == turn.value) && (!agentOnly || AgentPhase(k.phase))
  }

  function SweptKeys(starts: map<Key, int>, pair: Pair, turn: Option<string>, agentOnly: bool): set<Key> {
    set k | k in starts && Swept(k, pair, turn, agentOnly)
  }

  function Discard(o: Obs, pair: Pair, turn: Option<string>, agentOnly: bool): Obs {
    var keys := SweptKeys(o.starts, pair, turn, agentOnly);
    o.(starts := o.starts - keys, counters := o.counters + multiset{}[DiscardedSpans := |keys|])
  }

  function Apply(limit: Option<nat>, o: Obs, op: Op): Obs {
    match op
    case Count(c) => Tick(o, c)
    case Open(key, at) => Begin(limit, o, key, at)
    case OpenUnless(guard, first, at) =>
      if guard in o.starts then o else Begin(limit, Begin(limit, o, first, at), guard, at)
    case Close(key, metric, at, required) => Finish(o, key, metric, at, required)
    case CloseEither(key, fallback, metric, at) =>
      if key !in o.starts && fallback.Some? then Finish(o, fallback.value, metric, at, false)
      else Finish(o, key, metric, at, false)
    case Forget(key) => o.(starts := o.starts - {key})
    case Sweep(pair, turn, agentOnly) => Discard(o, pair, turn, agentOnly)
  }

  function Run(limit: Option<nat>, o: Obs, ops: seq<Op>): Obs
    decreases |ops|
  {
    if ops == [] then o else Apply(limit, Run(limit, o, ops[..|ops| - 1]), ops[|ops| - 1])
  }

  // ---------------------------------------------------------------- events

  function PairOf(e: Event): Pair { Pair(e.sessionId, e.generation) }

  /** `operation` spans are told apart by the event's name. */
  function KeyOf(e: Event, phase: Phase, operation: bool): Key {
    Key(PairOf(e), e.turnId, phase, if operation then e.name else "")
  }

  /** The native path has no link between input and response: its spans carry no turn. */
  function Unlinked(e: Event, phase: Phase): Option<Key> {
    if e.turnId == "" then None else Some(Key(PairOf(e), "", phase, ""))
  }

  function Script(e: Event): seq<Op> {
    var at := e.timestamp;
    match e.kind
    case TurnStarted => [Open(KeyOf(e, Turn, false), at)]
    case ModelStarted => [Open(KeyOf(e, Model, true), at), Open(KeyOf(e, FirstTokenOut, true), at)]
    case ToolStarted => [Open(KeyOf(e, Tool, true), at)]
    case AsrEndOfUtterance =>
      [Open(KeyOf(e, AsrFinal, false), at), Open(KeyOf(e, S2sFirstAudio, false), at), Open(KeyOf(e, WholeTurn, false), at)]
    case InputSpeechEnded =>
      [Open(KeyOf(e, DuplexFirstAudio, false), at), Open(KeyOf(e, DuplexFirstAudible, false), at),
       Open(KeyOf(e, WholeTurn, false), at)]
    case TranscriptFinal => [Close(KeyOf(e, AsrFinal, false), AsrFinalLatency, at, false)]
    case FirstToken => [Close(KeyOf(e, FirstTokenOut, true), TimeToFirstToken, at, true)]
    case ModelCompleted => [Close(KeyOf(e, Model, true), ModelDuration, at, true), Forget(KeyOf(e, FirstTokenOut, true))]
    case ToolCompleted => [Close(KeyOf(e, Tool, true), ToolDuration, at, true)]
    case TurnCompleted => [Close(KeyOf(e, Turn, false), TurnDuration, at, true), Sweep(PairOf(e), Some(e.turnId), true)]
    case TurnCancelled => [Count(TurnsCancelled), Sweep(PairOf(e), Some(e.turnId), true)]
    case TurnFailed => [Count(TurnsFailed), Sweep(PairOf(e), Some(e.turnId), true)]
    case TtsChunkStarted => [OpenUnless(KeyOf(e, TtsTotal, false), KeyOf(e, TtsFirstAudio, false), at)]
    case FirstAudio =>
      [Close(KeyOf(e, TtsFirstAudio, false), TtsFirstAudioLatency, at, true),
       Close(KeyOf(e, S2sFirstAudio, false), S2sFirstAudioLatency, at, false)]
    case AudioOutput =>
      [CloseEither(KeyOf(e, DuplexFirstAudio, false), Unlinked(e, DuplexFirstAudio), S2sFirstAudioLatency, at)]
    case PlaybackStarted =>
      [CloseEither(KeyOf(e, DuplexFirstAudible, false), Unlinked(e, DuplexFirstAudible), S2sFirstAudibleLatency, at)]
    case BargeInDetected => [Open(KeyOf(e, BargeInStop, false), at)]
    case OutputCancelled =>
      [Close(KeyOf(e, BargeInStop, false), BargeInStopLatency, at, false), Sweep(PairOf(e), Some(e.turnId), false)]
    case SpeechCompleted => [Close(KeyOf(e, TtsTotal, false), TtsTotalDuration, at, false)]
    case ConversationTurnCompleted =>
      [CloseEither(KeyOf(e, WholeTurn, false), Unlinked(e, WholeTurn), ConversationTurnDuration, at),
       Sweep(PairOf(e), Some(e.turnId), false)]
    case ConversationTurnCancelled => [Sweep(PairOf(e), Some(e.turnId), false)]
    case ConversationTurnFailed => [Sweep(PairOf(e), Some(e.turnId), false)]
    case SessionStopped => [Sweep(PairOf(e), None, false)]
    case SessionFailed => [Sweep(PairOf(e), None, false)]
    case RealtimeSessionClosed => [Sweep(PairOf(e), None, false)]
    case Error => [Count(Errors)]
    case _ => []
  }

  function Observe(limit: Option<nat>, o: Obs, e: Event): Obs {
    Run(limit, Tick(o, Seen(e.kind)), Script(e))
  }

  function ObserveAll(limit: Option<nat>, o: Obs, events: seq<Event>): Obs
    decreases |events|
  {
    if events == [] then o else ObserveAll(limit, Observe(limit, o, events[0]), events[1..])
  }

  // ---------------------------------------------------------------- the span limit

  lemma BeginBounded(limit: nat, o: Obs, key: Key, at: int)
    requires |o.starts| <= limit
    ensures |Begin(Some(limit), o, key, at).starts| <= limit
  {
    if key in o.starts {
      assert o.starts[key := 0].Keys == o.starts.Keys;
      assert |o.starts[key := 0].Keys| == |o.starts[key := 0]|;
    }
  }

  lemma SmallerMap(a: map<Key, int>, b: map<Key, int>)
    requires a.Keys <= b.Keys
    ensures |a| <= |b|
  {
    SmallerSet(a.Keys, b.Keys);
    assert |a| == |a.Keys| && |b| == |b.Keys|;
  }

  lemma SmallerSet(a: set<Key>, b: set<Key>)
    requires a <= b
    ensures |a| <= |b|
  {
    assert b == a + (b - a);
  }

  lemma ApplyBounded(limit: nat, o: Obs, op: Op)
    requires |o.starts| <= limit
    ensures |Apply(Some(limit), o, op).starts| <= limit
  {
    match op
    case Open(key, at) => BeginBounded(limit, o, key, at);
    case OpenUnless(guard, first, at) =>
      BeginBounded(limit, o, first, at);
      BeginBounded(limit, Begin(Some(limit), o, first, at), guard, at);
    case _ => SmallerMap(Apply(Some(limit), o, op).starts, o.starts);
  }

  lemma {:induction false} RunBounded(limit: nat, o: Obs, ops: seq<Op>)
    requires |o.starts| <= limit
    ensures |Run(Some(limit), o, ops).starts| <= limit
    decreases |ops|
  {
    if ops != [] {
      RunBounded(limit, o, ops[..|ops| - 1]);
      ApplyBounded(limit, Run(Some(limit), o, ops[..|ops| - 1]), ops[|ops| - 1]);
    }
  }

  /** However many events come, no more spans are pending than the limit allows. */
  lemma {:induction false} SpansWithinLimit(limit: nat, o: Obs, events: seq<Event>)
    requires |o.starts| <= limit
    ensures |ObserveAll(Some(limit), o, events).starts| <= limit
    decreases |events|
  {
    if events != [] {
      RunBounded(limit, Tick(o, Seen(events[0].kind)), Script(events[0]));
      SpansWithinLimit(limit, Observe(Some(limit), o, events[0]), events[1..]);
    }
  }

  /** A run under a limit that leaves the counters without a rejection. */
  predicate Rejected(o: Obs) { SpanLimitRejections in o.counters }

  lemma BeginWithin(limit: nat, o: Obs, key: Key, at: int)
    ensures Rejected(o) ==> Rejected(Begin(Some(limit), o, key, at))
    ensures !Rejected(Begin(Some(limit), o, key, at)) ==> Begin(Some(limit), o, key, at) == Begin(None, o, key, at)
  {
  }

  lemma FinishWithin(o: Obs, key: Key, metric: Metric, at: int, required: bool)
    ensures Rejected(o) ==> Rejected(Finish(o, key, metric, at, required))
  {
  }

  lemma ApplyWithin(limit: nat, o: Obs, op: Op)
    ensures Rejected(o) ==> Rejected(Apply(Some(limit), o, op))
    ensures !Rejected(Apply(Some(limit), o, op)) ==> Apply(Some(limit), o, op) == Apply(None, o, op)
  {
    match op
    case Count(_) =>
    case Open(key, at) => BeginWithin(limit, o, key, at);
    case OpenUnless(guard, first, at) =>
      BeginWithin(limit, o, first, at);
      BeginWithin(limit, Begin(Some(limit), o, first, at), guard, at);
    case Close(key, metric, at, required) => FinishWithin(o, key, metric, at, required);
    case CloseEither(key, fallback, metric, at) =>
      FinishWithin(o, key, metric, at, false);
      if fallback.Some? { FinishWithin(o, fallback.value, metric, at, false); }
    case Forget(_) =>
    case Sweep(_, _, _) =>
  }

  lemma {:induction false} RunWithin(limit: nat, o: Obs, ops: seq<Op>)
    ensures Rejected(o) ==> Rejected(Run(Some(limit), o, ops))
    ensures !Rejected(Run(Some(limit), o, ops)) ==> Run(Some(limit), o, ops) == Run(None, o, ops)
    decreases |ops|
  {
    if ops != [] {
      RunWithin(limit, o, ops[..|ops| - 1]);
      ApplyWithin(limit, Run(Some(limit), o, ops[..|ops| - 1]), ops[|ops| - 1]);
    }
  }

  /** While the limit rejects nothing, it makes no difference. */
  lemma {:induction false} LimitInvisible(limit: nat, o: Obs, events: seq<Event>)
    ensures Rejected(o) ==> Rejected(ObserveAll(Some(limit), o, events))
    ensures !Rejected(ObserveAll(Some(limit), o, events)) ==>
              ObserveAll(Some(limit), o, events) == ObserveAll(None, o, events)
    decreases |events|
  {
    if events != [] {
      RunWithin(limit, Tick(o, Seen(events[0].kind)), Script(events[0]));
      LimitInvisible(limit, Observe(Some(limit), o, events[0]), events[1..]);
    }
  }

  // ---------------------------------------------------------------- non-interference

  ghost predicate OnlyOf(starts: map<Key, int>, p: Pair) { forall k :: k in starts ==> k.pair == p }

  ghost predicate NoneOf(starts: map<Key, int>, p: Pair) { forall k :: k in starts ==> k.pair != p }

  ghost predicate Within(op: Op, p: Pair) {
    match op
    case Count(_) => true
    case Open(key, _) => key.pair == p
    case OpenUnless(guard, first, _) => guard.pair == p && first.pair == p
    case Close(key, _, _, _) => key.pair == p
    case CloseEither(key, fallback, _, _) => key.pair == p && (fallback.Some? ==> fallback.value.pair == p)
    case Forget(key) => key.pair == p
    case Sweep(pair, _, _) => pair == p
  }

  /** A part of the observer, in the surroundings of the rest. */
  function Embed(rest: Obs, o: Obs): Obs {
    Obs(rest.starts + o.starts, rest.counters + o.counters, rest.samples + o.samples)
  }

  lemma TickEmbedded(rest: Obs, o: Obs, c: Counter)
    ensures Tick(Embed(rest, o), c) == Embed(rest, Tick(o, c))
  {
  }

  lemma BeginEmbedded(rest: Obs, o: Obs, p: Pair, key: Key, at: int)
    requires NoneOf(rest.starts, p) && OnlyOf(o.starts, p) && key.pair == p
    ensures Begin(None, Embed(rest, o), key, at) == Embed(rest, Begin(None, o, key, at))
    ensures OnlyOf(Begin(None, o, key, at).starts, p)
  {
    assert (rest.starts + o.starts)[key := at] == rest.starts + o.starts[key := at];
    assert (rest.starts + o.starts)[key := 0] == rest.starts + o.starts[key := 0];
  }

  lemma FinishEmbedded(rest: Obs, o: Obs, p: Pair, key: Key, metric: Metric, at: int, required: bool)
    requires NoneOf(rest.starts, p) && OnlyOf(o.starts, p) && key.pair == p
    ensures Finish(Embed(rest, o), key, metric, at, required) == Embed(rest, Finish(o, key, metric, at, required))
    ensures OnlyOf(Finish(o, key, metric, at, required).starts, p)
  {
    if key !in o.starts {
      TickEmbedded(rest, o, UnmatchedEndpoints);
    } else {
      EndEmbedded(rest, o, p, key, metric, at);
    }
  }

  lemma EndEmbedded(rest: Obs, o: Obs, p: Pair, key: Key, metric: Metric, at: int)
    requires NoneOf(rest.starts, p) && key.pair == p && key in o.starts
    ensures Finish(Embed(rest, o), key, metric, at, true) == Embed(rest, Finish(o, key, metric, at, true))
    ensures Finish(Embed(rest, o), key, metric, at, false) == Embed(rest, Finish(o, key, metric, at, false))
  {
    var o' := o.(starts := o.starts - {key});
    var e := Embed(rest, o);
    assert e.starts - {key} == rest.starts + o'.starts;
    assert e.(starts := e.starts - {key}) == Embed(rest, o');
    TickEmbedded(rest, o', InvalidIntervals);
    AddEmbedded(rest.samples, o.samples, Sample(metric, at - o.starts[key]));
  }

  lemma AddEmbedded(a: multiset<Sample>, b: multiset<Sample>, x: Sample)
    ensures a + b + multiset{x} == a + (b + multiset{x})
  {
  }

  lemma DiscardEmbedded(rest: Obs, o: Obs, p: Pair, turn: Option<string>, agentOnly: bool)
    requires NoneOf(rest.starts, p) && OnlyOf(o.starts, p)
    ensures Discard(Embed(rest, o), p, turn, agentOnly) == Embed(rest, Discard(o, p, turn, agentOnly))
    ensures OnlyOf(Discard(o, p, turn, agentOnly).starts, p)
  {
    var keys := SweptKeys(o.starts, p, turn, agentOnly);
    var extra := multiset{}[DiscardedSpans := |keys|];
    assert SweptKeys(rest.starts + o.starts, p, turn, agentOnly) == keys;
    assert (rest.starts + o.starts) - keys == rest.starts + (o.starts - keys);
    assert rest.counters + o.counters + extra == rest.counters + (o.counters + extra);
  }

  lemma ApplyEmbedded(rest: Obs, o: Obs, p: Pair, op: Op)
    requires NoneOf(rest.starts, p) && OnlyOf(o.starts, p) && Within(op, p)
    ensures Apply(None, Embed(rest, o), op) == Embed(rest, Apply(None, o, op))
    ensures OnlyOf(Apply(None, o, op).starts, p)
  {
    match op
    case Count(c) => TickEmbedded(rest, o, c);
    case Open(key, at) => BeginEmbedded(rest, o, p, key, at);
    case OpenUnless(guard, first, at) =>
      BeginEmbedded(rest, o, p, first, at);
      BeginEmbedded(rest, Begin(None, o, first, at), p, guard, at);
    case Close(key, metric, at, required) => FinishEmbedded(rest, o, p, key, metric, at, required);
    case CloseEither(key, fallback, metric, at) =>
      FinishEmbedded(rest, o, p, key, metric, at, false);
      if fallback.Some? { FinishEmbedded(rest, o, p, fallback.value, metric, at, false); }
    case Forget(key) => assert (rest.starts + o.starts) - {key} == rest.starts + (o.starts - {key});
    case Sweep(_, turn, agentOnly) => DiscardEmbedded(rest, o, p, turn, agentOnly);
  }

  lemma {:induction false} RunEmbedded(rest: Obs, o: Obs, p: Pair, ops: seq<Op>)
    requires NoneOf(rest.starts, p) && OnlyOf(o.starts, p) && forall k :: 0 <= k < |ops| ==> Within(ops[k], p)
    ensures Run(None, Embed(rest, o), ops) == Embed(rest, Run(None, o, ops))
    ensures OnlyOf(Run(None, o, ops).starts, p)
    decreases |ops|
  {
    if ops != [] {
      RunEmbedded(rest, o, p, ops[..|ops| - 1]);
      ApplyEmbedded(rest, Run(None, o, ops[..|ops| - 1]), p, ops[|ops| - 1]);
    }
  }

  lemma ScriptsStayWithin(e: Event)
    ensures forall k :: 0 <= k < |Script(e)| ==> Within(Script(e)[k], PairOf(e))
  {
  }

  /** An event sees and touches only the spans of its own incarnation. */
  lemma ObserveEmbedded(rest: Obs, o: Obs, e: Event)
    requires NoneOf(rest.starts, PairOf(e)) && OnlyOf(o.starts, PairOf(e))
    ensures Observe(None, Embed(rest, o), e) == Embed(rest, Observe(None, o, e))
    ensures OnlyOf(Observe(None, o, e).starts, PairOf(e))
  {
    ScriptsStayWithin(e);
    TickEmbedded(rest, o, Seen(e.kind));
    RunEmbedded(rest, Tick(o, Seen(e.kind)), PairOf(e), Script(e));
  }

  ghost function Mine(starts: map<Key, int>, p: Pair): Obs {
    Obs(map k | k in starts && k.pair == p :: starts[k], multiset{}, multiset{})
  }

  ghost function Rest(o: Obs, p: Pair, q: Pair): Obs {
    o.(starts := map k | k in o.starts && k.pair != p && k.pair != q :: o.starts[k])
  }

  /** Parts of different incarnations may be put together in either order. */
  lemma EmbedSwaps(rest: Obs, a: Obs, b: Obs, p: Pair, q: Pair)
    requires p != q && OnlyOf(a.starts, p) && OnlyOf(b.starts, q)
    ensures Embed(Embed(rest, a), b) == Embed(Embed(rest, b), a)
  {
    assert rest.starts + a.starts + b.starts == rest.starts + b.starts + a.starts;
    assert rest.counters + a.counters + b.counters == rest.counters + b.counters + a.counters;
    assert rest.samples + a.samples + b.samples == rest.samples + b.samples + a.samples;
  }

  lemma Decompose(o: Obs, p: Pair, q: Pair)
    requires p != q
    ensures o == Embed(Embed(Rest(o, p, q), Mine(o.starts, p)), Mine(o.starts, q))
  {
    var r := Embed(Embed(Rest(o, p, q), Mine(o.starts, p)), Mine(o.starts, q));
    assert forall k :: k in o.starts <==> k in r.starts;
    assert o.starts == r.starts;
  }

  /** With nothing rejected, events of different incarnations commute. */
  lemma Commute(o: Obs, a: Event, b: Event)
    requires PairOf(a) != PairOf(b)
    ensures Observe(None, Observe(None, o, a), b) == Observe(None, Observe(None, o, b), a)
  {
    var p, q := PairOf(a), PairOf(b);
    var rest, x, y := Rest(o, p, q), Mine(o.starts, p), Mine(o.starts, q);
    Decompose(o, p, q);
    EmbedSwaps(rest, x, y, p, q);
    var x' := Observe(None, x, a);
    var y' := Observe(None, y, b);
    ObserveEmbedded(Embed(rest, y), x, a);
    ObserveEmbedded(Embed(rest, x), y, b);
    EmbedSwaps(rest, x', y, p, q);
    EmbedSwaps(rest, x, y', p, q);
    ObserveEmbedded(Embed(rest, x'), y, b);
    ObserveEmbedded(Embed(rest, y'), x, a);
    EmbedSwaps(rest, x', y', p, q);
  }

  // ---------------------------------------------------------------- reordering whole streams

  function Of(events: seq<Event>, p: Pair): seq<Event> {
    if events == [] then []
    else (if PairOf(events[0]) == p then [events[0]] else []) + Of(events[1..], p)
  }

  /** The same events, with the order within each incarnation kept. */
  ghost predicate Reordered(xs: seq<Event>, ys: seq<Event>) {
    forall p {:trigger Of(xs, p)} {:trigger Of(ys, p)} :: Of(xs, p) == Of(ys, p)
  }

  lemma {:induction false} OfConcat(a: seq<Event>, b: seq<Event>, p: Pair)
    ensures Of(a + b, p) == Of(a, p) + Of(b, p)
  {
    if a == [] {
      assert a + b == b;
    } else {
      OfConcat(a[1..], b, p);
      assert (a + b)[1..] == a[1..] + b;
      var head := if PairOf(a[0]) == p then [a[0]] else [];
      assert head + (Of(a[1..], p) + Of(b, p)) == head + Of(a[1..], p) + Of(b, p);
    }
  }

  lemma WithoutOne(events: seq<Event>, k: nat)
    requires 0 < k < |events|
    ensures (events[..k] + events[k + 1..])[0] == events[0]
    ensures (events[..k] + events[k + 1..])[1..] == events[1..][..k - 1] + events[1..][k..]
  {
  }

  /** An incarnation's first event may be taken first. */
  lemma {:induction false} MoveToFront(o: Obs, events: seq<Event>, k: nat)
    requires k < |events| && forall i :: 0 <= i < k ==> PairOf(events[i]) != PairOf(events[k])
    ensures ObserveAll(None, o, events) == ObserveAll(None, Observe(None, o, events[k]), events[..k] + events[k + 1..])
    decreases k
  {
    if k == 0 {
      assert events[..0] + events[1..] == events[1..];
    } else {
      var tail := events[1..];
      MoveToFront(Observe(None, o, events[0]), tail, k - 1);
      Commute(o, events[0], events[k]);
      WithoutOne(events, k);
    }
  }

  lemma {:induction false} FirstOf(events: seq<Event>, p: Pair) returns (k: nat)
    requires Of(events, p) != []
    ensures k < |events| && PairOf(events[k]) == p && events[k] == Of(events, p)[0]
    ensures forall i :: 0 <= i < k ==> PairOf(events[i]) != p
  {
    k := 0;
    if PairOf(events[0]) != p {
      var j := FirstOf(events[1..], p);
      k := j + 1;
    }
  }

  lemma RestReordered(xs: seq<Event>, ys: seq<Event>, k: nat)
    requires Reordered(xs, ys) && xs != [] && k < |ys| && ys[k] == xs[0]
    requires forall i :: 0 <= i < k ==> PairOf(ys[i]) != PairOf(xs[0])
    ensures Reordered(xs[1..], ys[..k] + ys[k + 1..])
  {
    var rest := ys[..k] + ys[k + 1..];
    forall p ensures Of(xs[1..], p) == Of(rest, p) {
      assert ys == ys[..k] + ys[k..] && ys[k..][0] == xs[0] && ys[k..][1..] == ys[k + 1..];
      OfConcat(ys[..k], ys[k..], p);
      OfConcat(ys[..k], ys[k + 1..], p);
      assert Of(xs, p) == Of(ys, p) == Of(ys[..k], p) + Of(ys[k..], p);
      if p == PairOf(xs[0]) {
        NoneBefore(ys, k, p);
        assert Of(xs, p)[1..] == Of(xs[1..], p);
        assert Of(ys[k..], p)[1..] == Of(ys[k + 1..], p);
      } else {
        assert Of(xs, p) == Of(xs[1..], p) && Of(ys[k..], p) == Of(ys[k + 1..], p);
      }
    }
  }

  lemma {:induction false} NoneBefore(events: seq<Event>, k: nat, p: Pair)
    requires k <= |events| && forall i :: 0 <= i < k ==> PairOf(events[i]) != p
    ensures Of(events[..k], p) == []
    decreases k
  {
    if k > 0 {
      NoneBefore(events[1..], k - 1, p);
      assert events[..k][1..] == events[1..][..k - 1];
    }
  }

  lemma {:induction false} ReorderUnlimited(o: Obs, xs: seq<Event>, ys: seq<Event>)
    requires Reordered(xs, ys)
    ensures ObserveAll(None, o, xs) == ObserveAll(None, o, ys)
    decreases |xs|
  {
    if xs == [] {
      assert ys == [] || Of(xs, PairOf(ys[0])) == Of(ys, PairOf(ys[0]));
    } else {
      var p := PairOf(xs[0]);
      assert Of(xs, p) == Of(ys, p);
      var k := FirstOf(ys, p);
      MoveToFront(o, ys, k);
      RestReordered(xs, ys, k);
      ReorderUnlimited(Observe(None, o, xs[0]), xs[1..], ys[..k] + ys[k + 1..]);
    }
  }

  /** Non-interference: two streams that differ only in how they interleave the incarnations, and in
      which the limit rejects nothing, leave the same spans, counters and samples. */
  lemma InterleavingInvisible(limit: nat, o: Obs, xs: seq<Event>, ys: seq<Event>)
    requires Reordered(xs, ys)
    requires !Rejected(ObserveAll(Some(limit), o, xs)) && !Rejected(ObserveAll(Some(limit), o, ys))
    ensures ObserveAll(Some(limit), o, xs) == ObserveAll(Some(limit), o, ys)
  {
    LimitInvisible(limit, o, xs);
    LimitInvisible(limit, o, ys);
    ReorderUnlimited(o, xs, ys);
  }
}

/** The observer object. Its counters and samples stand for the metrics registry it reports to. */
module RuntimeObservers {
  import opened Common
  import opened Events
  import opened ObserverModel

  /** One step of the walk over the pending spans. */
  lemma SweepStep(all: map<Key, int>, pair: Pair, turn: Option<string>, agentOnly: bool, rest: set<Key>, k: Key)
    requires k in rest && rest <= all.Keys
    ensures var done := SweptKeys(all, pair, turn, agentOnly) - rest;
            var here := if Swept(k, pair, turn, agentOnly) then {k} else {};
            && SweptKeys(all, pair, turn, agentOnly) - (rest - {k}) == done + here
            && all - (done + here) == all - done - here && |done + here| == |done| + |here|
  {
    var done := SweptKeys(all, pair, turn, agentOnly) - rest;
    assert k !in done;
  }

  class RuntimeObserver {
    const limit: nat
    var starts: map<Key, int>
    var counters: multiset<Counter>
    var samples: multiset<Sample>

    ghost function Model(): Obs
      reads this
    {
      Obs(starts, counters, samples)
    }

    ghost predicate Valid()
      reads this
    {
      |starts| <= limit
    }

    constructor (maxPendingSpans: nat)
      requires maxPendingSpans > 0
      ensures limit == maxPendingSpans && Valid() && Model() == Init()
    {
      limit := maxPendingSpans;
      starts, counters, samples := map[], multiset{}, multiset{};
    }

    method Increment(c: Counter)
      modifies this`counters
      ensures Model() == Tick(old(Model()), c)
    {
      counters := counters + multiset{c};
    }

    method BeginSpan(key: Key, at: int)
      modifies this`starts, this`counters
      ensures Model() == Begin(Some(limit), old(Model()), key, at)
    {
      if key in starts {
        starts := starts[key := 0];
        Increment(DuplicateStarts);
      } else if |starts| >= limit {
        Increment(SpanLimitRejections);
      } else {
        starts := starts[key := at];
      }
    }

    method FinishSpan(key: Key, metric: Metric, at: int, required: bool) returns (found: bool)
      modifies this
      ensures Model() == Finish(old(Model()), key, metric, at, required) && found == (key in old(starts))
    {
      if key !in starts {
        if required { Increment(UnmatchedEndpoints); }
        return false;
      }
      var start := starts[key];
      starts := starts - {key};
      if start == 0 || at == 0 || at < start {
        Increment(InvalidIntervals);
      } else {
        samples := samples + multiset{Sample(metric, at - start)};
      }
      return true;
    }

    /** Walks all pending spans and erases the matching ones. */
    method EraseMatching(pair: Pair, turn: Option<string>, agentOnly: bool) returns (count: nat)
      modifies this`starts
      ensures starts == old(starts) - SweptKeys(old(starts), pair, turn, agentOnly)
      ensures count == |SweptKeys(old(starts), pair, turn, agentOnly)|
    {
      count := 0;
      var rest := starts.Keys;
      ghost var all := starts;
      ghost var wanted := SweptKeys(all, pair, turn, agentOnly);
      assert wanted - rest == {};
      while rest != {}
        invariant rest <= all.Keys && count == |wanted - rest| && starts == all - (wanted - rest)
        decreases rest
      {
        var k :| k in rest;
        SweepStep(all, pair, turn, agentOnly, rest, k);
        rest := rest - {k};
        if Swept(k, pair, turn, agentOnly) {
          starts := starts - {k};
          count := count + 1;
        }
      }
      assert wanted - rest == wanted;
    }

    method DiscardSpans(pair: Pair, turn: Option<string>, agentOnly: bool)
      modifies this`starts, this`counters
      ensures Model() == Discard(old(Model()), pair, turn, agentOnly)
    {
      var count := EraseMatching(pair, turn, agentOnly);
      ghost var more: multiset<Counter> := multiset{}[DiscardedSpans := count];
      assert count == 0 ==> more == multiset{};
      if count > 0 { counters := counters + multiset{}[DiscardedSpans := count]; }
    }

    /** The endpoint of a span that may carry the turn or, on the native path, none. */
    method FinishEither(key: Key, fallback: Option<Key>, metric: Metric, at: int)
      modifies this
      ensures Model() == Apply(Some(limit), old(Model()), CloseEither(key, fallback, metric, at))
    {
      var found := FinishSpan(key, metric, at, false);
      if !found && fallback.Some? {
        var _ := FinishSpan(fallback.value, metric, at, false);
      }
    }

    method Perform(op: Op)
      modifies this
      ensures Model() == Apply(Some(limit), old(Model()), op)
    {
      match op
      case Count(c) => Increment(c);
      case Open(key, at) => BeginSpan(key, at);
      case OpenUnless(guard, first, at) =>
        if guard !in starts {
          BeginSpan(first, at);
          BeginSpan(guard, at);
        }
      case Close(key, metric, at, required) => var _ := FinishSpan(key, metric, at, required);
      case CloseEither(key, fallback, metric, at) => FinishEither(key, fallback, metric, at);
      case Forget(key) => starts := starts - {key};
      case Sweep(pair, turn, agentOnly) => DiscardSpans(pair, turn, agentOnly);
    }

    /** One event: it is counted, then spans are opened, closed or dropped as its kind demands. */
    method ObserveEvent(e: Event)
      requires Valid()
      modifies this
      ensures Valid() && Model() == Observe(Some(limit), old(Model()), e)
    {
      Increment(Seen(e.kind));
      ghost var o := Model();
      var ops := Script(e);
      RunBounded(limit, o, ops);
      for i := 0 to |ops|
        invariant Model() == Run(Some(limit), o, ops[..i])
      {
        assert ops[..i + 1][..i] == ops[..i];
        Perform(ops[i]);
      }
      assert ops[..|ops|] == ops;
    }
  }
}

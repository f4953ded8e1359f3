/** What the observer measures: which events open and close which span, and the sample that a matched
    pair yields. */
module ObserverSpans {
  import opened Common
  import opened Events
  import opened ObserverModel

  /** A measured interval: the kinds of event it starts and ends with, whether it is told apart by the
      operation's name, and the metric it feeds. */
  datatype Interval = Interval(start: EventType, end: EventType, phase: Phase, operation: bool, metric: Metric)

  const INTERVALS := [
    Interval(TurnStarted, TurnCompleted, Turn, false, TurnDuration),
    Interval(ModelStarted, FirstToken, FirstTokenOut, true, TimeToFirstToken),
    Interval(ModelStarted, ModelCompleted, Phase.Model, true, ModelDuration),
    Interval(ToolStarted, ToolCompleted, Tool, true, ToolDuration),
    Interval(AsrEndOfUtterance, TranscriptFinal, AsrFinal, false, AsrFinalLatency),
    Interval(AsrEndOfUtterance, FirstAudio, S2sFirstAudio, false, S2sFirstAudioLatency),
    Interval(AsrEndOfUtterance, ConversationTurnCompleted, WholeTurn, false, ConversationTurnDuration),
    Interval(InputSpeechEnded, AudioOutput, DuplexFirstAudio, false, S2sFirstAudioLatency),
    Interval(InputSpeechEnded, PlaybackStarted, DuplexFirstAudible, false, S2sFirstAudibleLatency),
    Interval(InputSpeechEnded, ConversationTurnCompleted, WholeTurn, false, ConversationTurnDuration),
    Interval(TtsChunkStarted, FirstAudio, TtsFirstAudio, false, TtsFirstAudioLatency),
    Interval(TtsChunkStarted, SpeechCompleted, TtsTotal, false, TtsTotalDuration),
    Interval(BargeInDetected, OutputCancelled, BargeInStop, false, BargeInStopLatency)]

  /** The key of an interval, as its start or its end names it. */
  function SpanKey(v: Interval, e: Event): Key {
    Key(Pair(e.sessionId, e.generation), e.turnId, v.phase, if v.operation then e.name else "")
  }

  // ---------------------------------------------------------------- which events concern a span

  /** The kinds after which spans are dropped: those of a turn's agent part, of a turn, of a session. */
  predicate EndsAgentTurn(k: EventType) { k.TurnCompleted? || k.TurnCancelled? || k.TurnFailed? }

  predicate EndsSpokenTurn(k: EventType) {
    k.OutputCancelled? || k.ConversationTurnCompleted? || k.ConversationTurnCancelled? || k.ConversationTurnFailed?
  }

  predicate EndsSession(k: EventType) { k.SessionStopped? || k.SessionFailed? || k.RealtimeSessionClosed? }

  /** The kinds that may open, close or drop spans of a phase. */
  predicate Concerns(k: EventType, phase: Phase) {
    || EndsSession(k) || EndsSpokenTurn(k) || (EndsAgentTurn(k) && AgentPhase(phase))
    || match phase
       case Turn => k.TurnStarted?
       case Model => k.ModelStarted? || k.ModelCompleted?
       case FirstTokenOut => k.ModelStarted? || k.FirstToken? || k.ModelCompleted?
       case Tool => k.ToolStarted? || k.ToolCompleted?
       case AsrFinal => k.AsrEndOfUtterance? || k.TranscriptFinal?
       case S2sFirstAudio => k.AsrEndOfUtterance? || k.FirstAudio?
       case WholeTurn => k.AsrEndOfUtterance? || k.InputSpeechEnded?
       case DuplexFirstAudio => k.InputSpeechEnded? || k.AudioOutput?
       case DuplexFirstAudible => k.InputSpeechEnded? || k.PlaybackStarted?
       case TtsFirstAudio => k.TtsChunkStarted? || k.FirstAudio?
       case TtsTotal => k.TtsChunkStarted? || k.SpeechCompleted?
       case BargeInStop => k.BargeInDetected?
  }

  /** An event that has nothing to do with a span: another incarnation's, or of a kind that does not
      concern the span's phase. */
  predicate Apart(e: Event, key: Key) { PairOf(e) != key.pair || !Concerns(e.kind, key.phase) }

  // ---------------------------------------------------------------- single steps

  predicate SameSpan(o: Obs, o': Obs, key: Key) {
    (key in o.starts <==> key in o'.starts) && (key in o.starts ==> o'.starts[key] == o.starts[key])
  }

  predicate OpApart(op: Op, key: Key) {
    match op
    case Count(_) => true
    case Open(k, _) => k != key
    case OpenUnless(guard, first, _) => guard != key && first != key
    case Close(k, _, _, _) => k != key
    case CloseEither(k, fallback, _, _) => k != key && fallback != Some(key)
    case Forget(k) => k != key
    case Sweep(pair, turn, agentOnly) => !Swept(key, pair, turn, agentOnly)
  }

  lemma BeginKeepsSpan(limit: Option<nat>, o: Obs, k: Key, at: int, key: Key)
    requires k != key
    ensures SameSpan(o, Begin(limit, o, k, at), key)
  {
  }

  lemma FinishKeepsSpan(o: Obs, k: Key, metric: Metric, at: int, required: bool, key: Key)
    requires k != key
    ensures SameSpan(o, Finish(o, k, metric, at, required), key)
  {
  }

  lemma OpKeepsSpan(limit: Option<nat>, o: Obs, op: Op, key: Key)
    requires OpApart(op, key)
    ensures SameSpan(o, Apply(limit, o, op), key)
  {
    match op
    case Count(_) =>
    case Open(k, at) => BeginKeepsSpan(limit, o, k, at, key);
    case OpenUnless(guard, first, at) =>
      BeginKeepsSpan(limit, o, first, at, key);
      BeginKeepsSpan(limit, Begin(limit, o, first, at), guard, at, key);
    case Close(k, metric, at, required) => FinishKeepsSpan(o, k, metric, at, required, key);
    case CloseEither(k, fallback, metric, at) =>
      FinishKeepsSpan(o, k, metric, at, false, key);
      if fallback.Some? { FinishKeepsSpan(o, fallback.value, metric, at, false, key); }
    case Forget(_) =>
    case Sweep(_, _, _) =>
  }

  lemma {:induction false} RunKeepsSpan(limit: Option<nat>, o: Obs, ops: seq<Op>, key: Key)
    requires forall k :: 0 <= k < |ops| ==> OpApart(ops[k], key)
    ensures SameSpan(o, Run(limit, o, ops), key)
    decreases |ops|
  {
    if ops != [] {
      RunKeepsSpan(limit, o, ops[..|ops| - 1], key);
      OpKeepsSpan(limit, Run(limit, o, ops[..|ops| - 1]), ops[|ops| - 1], key);
    }
  }

  lemma ScriptApart(e: Event, key: Key)
    requires Apart(e, key)
    ensures forall k :: 0 <= k < |Script(e)| ==> OpApart(Script(e)[k], key)
  {
  }

  /** Events that have nothing to do with a span leave it alone. */
  lemma {:induction false} ApartKeepsSpan(limit: Option<nat>, o: Obs, events: seq<Event>, key: Key)
    requires forall k :: 0 <= k < |events| ==> Apart(events[k], key)
    ensures SameSpan(o, ObserveAll(limit, o, events), key)
    decreases |events|
  {
    if events != [] {
      ScriptApart(events[0], key);
      RunKeepsSpan(limit, Tick(o, Seen(events[0].kind)), Script(events[0]), key);
      ApartKeepsSpan(limit, Observe(limit, o, events[0]), events[1..], key);
    }
  }

  // ---------------------------------------------------------------- where a span starts

  /** A span is open from its start on, with the start's time. The two spans of synthesised speech are
      opened together, by the first piece of an utterance only. */
  lemma StartOpensSpan(o: Obs, a: Event, i: nat)
    requires i < |INTERVALS| && a.kind == INTERVALS[i].start && SpanKey(INTERVALS[i], a) !in o.starts
    requires a.kind.TtsChunkStarted? ==>
               forall v: Interval :: v in INTERVALS && v.start.TtsChunkStarted? ==> SpanKey(v, a) !in o.starts
    ensures var key := SpanKey(INTERVALS[i], a);
            key in Observe(None, o, a).starts && Observe(None, o, a).starts[key] == a.timestamp
  {
    var key := SpanKey(INTERVALS[i], a);
    var s := Tick(o, Seen(a.kind));
    var ops := Script(a);
    if a.kind.TtsChunkStarted? {
      assert INTERVALS[10] in INTERVALS && INTERVALS[11] in INTERVALS;
      RunOne(None, s, ops);
    } else {
      var m := if i == 6 || i == 9 then 2 else if i == 1 || i == 5 || i == 8 then 1 else 0;
      assert m < |ops| && ops[m] == Open(key, a.timestamp);
      assert forall k :: 0 <= k < |ops| && k != m ==> OpApart(ops[k], key);
      OpenedAt(s, ops, m, key, a.timestamp);
    }
  }

  lemma RunOne(limit: Option<nat>, o: Obs, ops: seq<Op>)
    requires |ops| == 1
    ensures Run(limit, o, ops) == Apply(limit, o, ops[0])
  {
    assert ops[..0] == [];
  }

  lemma {:induction false} OpenedAt(o: Obs, ops: seq<Op>, m: nat, key: Key, at: int)
    requires m < |ops| && ops[m] == Open(key, at) && key !in o.starts
    requires forall k :: 0 <= k < |ops| && k != m ==> OpApart(ops[k], key)
    ensures var r := Run(None, o, ops); key in r.starts && r.starts[key] == at
    decreases |ops|
  {
    var n := |ops| - 1;
    if m == n {
      RunKeepsSpan(None, o, ops[..n], key);
    } else {
      OpenedAt(o, ops[..n], m, key, at);
      OpKeepsSpan(None, Run(None, o, ops[..n]), ops[n], key);
    }
  }

  // ---------------------------------------------------------------- where a span ends

  /** How often a metric has been observed with a value. */
  function Times(o: Obs, metric: Metric, elapsed: int): nat { o.samples[Sample(metric, elapsed)] }

  /** A step after which a closed span is still closed, and its metric unchanged. */
  predicate Harmless(op: Op, key: Key, metric: Metric) {
    match op
    case Close(k, other, _, _) => k != key && other != metric
    case Forget(_) => true
    case Sweep(_, _, _) => true
    case _ => false
  }

  lemma HarmlessStep(o: Obs, op: Op, key: Key, metric: Metric)
    requires Harmless(op, key, metric)
    ensures var r := Apply(None, o, op);
            && (key !in o.starts ==> key !in r.starts)
            && (op.Close? ==> SameSpan(o, r, key))
            && forall d :: Times(r, metric, d) == Times(o, metric, d)
  {
    if op.Close? { FinishKeepsSpan(o, op.key, op.metric, op.at, op.required, key); }
  }

  predicate Valid(start: int, end: int) { start != 0 && end != 0 && end >= start }

  predicate Closes(op: Op, key: Key, metric: Metric, at: int) {
    (op.Close? || op.CloseEither?) && op.key == key && op.metric == metric && op.at == at
  }

  lemma CloseStep(o: Obs, op: Op, key: Key, metric: Metric, at: int)
    requires key in o.starts && Closes(op, key, metric, at)
    ensures var r := Apply(None, o, op);
            && key !in r.starts
            && forall d :: Times(r, metric, d) == Times(o, metric, d) + if Valid(o.starts[key], at) && d == at - o.starts[key] then 1 else 0
  {
  }

  lemma RunTwo(o: Obs, ops: seq<Op>)
    requires |ops| == 2
    ensures Run(None, o, ops) == Apply(None, Apply(None, o, ops[0]), ops[1])
  {
    RunOne(None, o, ops[..1]);
  }

  /** The end of an interval closes its span, and yields exactly one sample of its metric, the time
      between start and end, if both times are set and in order; otherwise none. */
  lemma EndClosesSpan(o: Obs, b: Event, i: nat)
    requires i < |INTERVALS| && b.kind == INTERVALS[i].end && SpanKey(INTERVALS[i], b) in o.starts
    ensures var v := INTERVALS[i];
            var start := o.starts[SpanKey(v, b)];
            var r := Observe(None, o, b);
            && SpanKey(v, b) !in r.starts
            && forall d :: Times(r, v.metric, d)
                           == Times(o, v.metric, d) + if Valid(start, b.timestamp) && d == b.timestamp - start then 1 else 0
  {
    var v := INTERVALS[i];
    var key := SpanKey(v, b);
    var s := Tick(o, Seen(b.kind));
    var ops := Script(b);
    var m := if i == 5 then 1 else 0;
    EndScript(b, i);
    if |ops| == 1 {
      RunOne(None, s, ops);
      CloseStep(s, ops[0], key, v.metric, b.timestamp);
    } else {
      RunTwo(s, ops);
      var u := Apply(None, s, ops[0]);
      if m == 0 {
        CloseStep(s, ops[0], key, v.metric, b.timestamp);
        HarmlessStep(u, ops[1], key, v.metric);
      } else {
        HarmlessStep(s, ops[0], key, v.metric);
        CloseStep(u, ops[1], key, v.metric, b.timestamp);
      }
    }
  }

  lemma EndScript(b: Event, i: nat)
    requires i < |INTERVALS| && b.kind == INTERVALS[i].end
    ensures var v := INTERVALS[i];
            var ops := Script(b);
            var m := if i == 5 then 1 else 0;
            && 1 <= |ops| <= 2 && m < |ops| && Closes(ops[m], SpanKey(v, b), v.metric, b.timestamp)
            && (|ops| == 2 ==> Harmless(ops[1 - m], SpanKey(v, b), v.metric) && (m == 1 ==> ops[0].Close?))
  {
  }

  /** On the native path a span that carries no turn is closed by an end that names one, unless the
      turn has a span of its own. */
  lemma UnlinkedEndCloses(o: Obs, b: Event, i: nat)
    requires 6 <= i < 10 && b.kind == INTERVALS[i].end && b.turnId != ""
    requires SpanKey(INTERVALS[i], b) !in o.starts && SpanKey(INTERVALS[i], b).(turn := "") in o.starts
    ensures var v := INTERVALS[i];
            var key := SpanKey(v, b).(turn := "");
            var start := o.starts[key];
            var r := Observe(None, o, b);
            && key !in r.starts
            && forall d :: Times(r, v.metric, d)
                           == Times(o, v.metric, d) + if Valid(start, b.timestamp) && d == b.timestamp - start then 1 else 0
  {
    var s := Tick(o, Seen(b.kind));
    var ops := Script(b);
    var key := SpanKey(INTERVALS[i], b).(turn := "");
    UnlinkedScript(s, b, i);
    UnlinkedFinish(s, key, INTERVALS[i].metric, b.timestamp);
    if |ops| == 1 {
      RunOne(None, s, ops);
    } else {
      RunTwo(s, ops);
      HarmlessStep(Apply(None, s, ops[0]), ops[1], key, INTERVALS[i].metric);
    }
  }

  lemma UnlinkedScript(s: Obs, b: Event, i: nat)
    requires 6 <= i < 10 && b.kind == INTERVALS[i].end && b.turnId != "" && SpanKey(INTERVALS[i], b) !in s.starts
    ensures var ops := Script(b);
            var key := SpanKey(INTERVALS[i], b).(turn := "");
            && 1 <= |ops| <= 2 && (|ops| == 2 ==> ops[1].Sweep?)
            && Apply(None, s, ops[0]) == Finish(s, key, INTERVALS[i].metric, b.timestamp, false)
  {
  }

  lemma UnlinkedFinish(o: Obs, key: Key, metric: Metric, at: int)
    requires key in o.starts
    ensures var r := Finish(o, key, metric, at, false);
            && key !in r.starts
            && forall d :: Times(r, metric, d) == Times(o, metric, d) + if Valid(o.starts[key], at) && d == at - o.starts[key] then 1 else 0
  {
  }

  // ---------------------------------------------------------------- matched pairs

  lemma {:induction false} ObserveAllAppend(limit: Option<nat>, o: Obs, a: seq<Event>, b: seq<Event>)
    ensures ObserveAll(limit, o, a + b) == ObserveAll(limit, ObserveAll(limit, o, a), b)
    decreases |a|
  {
    if a == [] {
      assert a + b == b;
    } else {
      assert (a + b)[1..] == a[1..] + b;
      ObserveAllAppend(limit, Observe(limit, o, a[0]), a[1..], b);
    }
  }

  /** A start and a matching end, with nothing in between that concerns their span, yield exactly one
      sample of the interval's metric: the difference of their times, if these are set and in order. */
  lemma MatchedPairIsMeasured(o: Obs, a: Event, between: seq<Event>, b: Event, i: nat)
    requires i < |INTERVALS| && a.kind == INTERVALS[i].start && b.kind == INTERVALS[i].end
    requires SpanKey(INTERVALS[i], a) == SpanKey(INTERVALS[i], b) && SpanKey(INTERVALS[i], a) !in o.starts
    requires a.kind.TtsChunkStarted? ==>
               forall v: Interval :: v in INTERVALS && v.start.TtsChunkStarted? ==> SpanKey(v, a) !in o.starts
    requires forall k :: 0 <= k < |between| ==> Apart(between[k], SpanKey(INTERVALS[i], a))
    ensures var v := INTERVALS[i];
            var before := ObserveAll(None, o, [a] + between);
            var after := ObserveAll(None, o, [a] + between + [b]);
            && SpanKey(v, a) in before.starts && SpanKey(v, a) !in after.starts
            && forall d :: Times(after, v.metric, d)
                           == Times(before, v.metric, d)
                              + if Valid(a.timestamp, b.timestamp) && d == b.timestamp - a.timestamp then 1 else 0
  {
    var key := SpanKey(INTERVALS[i], a);
    StartOpensSpan(o, a, i);
    var first := Observe(None, o, a);
    assert ([a] + between)[1..] == between;
    ApartKeepsSpan(None, first, between, key);
    var before := ObserveAll(None, o, [a] + between);
    assert before == ObserveAll(None, first, between);
    ObserveAllAppend(None, o, [a] + between, [b]);
    assert ObserveAll(None, before, [b]) == Observe(None, before, b) by { assert [b][1..] == []; }
    EndClosesSpan(before, b, i);
  }
}

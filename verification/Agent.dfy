/** The agent's tool loop: model calls and tool calls in turn, over a history that only a turn that
    ends normally may extend. */
module AgentModel {
  import opened Common
  import opened Events
  import opened JsonMessages

  /** What one streaming model call does: the deltas it hands to the sink, and how it ends. */
  datatype Ending =
    | Answers(text: string, calls: seq<ToolCall>, complete: bool)
    | Fails(what: string)
    | FailsOddly

  /** `catches` says that the provider catches what the sink throws, and goes on. */
  datatype Stream = Stream(deltas: seq<string>, ending: Ending, catches: bool)

  datatype Handled = Returns(value: string) | Throws(what: string) | ThrowsOddly

  /** The caller's answer to the question whether the turn is cancelled; it may throw as well. */
  datatype Reply = Says(stop: bool) | Objects(standard: bool, what: string)

  /** The world a turn runs in: the reply to the n-th question whether it is cancelled, what the n-th
      model call and the n-th tool execution do, and which tools there are. `Oddly` marks exceptions
      that are not standard ones. */
  datatype World = World(
    cancellable: bool,
    cancelled: nat -> Reply,
    model: nat -> Stream,
    registered: set<string>,
    tool: nat -> Handled)

  datatype Emitted = Emitted(kind: EventType, name: string, data: string)

  /** The course of a turn: how much of the world has been used, the history, the events emitted, and
      the histories that the model was given. */
  datatype Course = Course(
    clock: nat,
    models: nat,
    tools: nat,
    history: seq<Message>,
    events: seq<Emitted>,
    given: seq<seq<Message>>)

  datatype Flow<A> = Go(course: Course, value: A) | Raise(course: Course, standard: bool, what: string)

  datatype Outcome = Answer(text: string) | Failure(what: string)

  datatype Received = Received(text: string, calls: seq<ToolCall>, complete: bool)

  const LIMIT_TEXT := "I stopped because the tool-step limit was reached."

  function Digits(n: nat): string {
    var last := [('0' as int + n % 10) as char];
    if n < 10 then last else Digits(n / 10) + last
  }

  // ---------------------------------------------------------------- the loop, piece by piece

  function Emit(t: Course, kind: EventType, name: string, data: string): Course {
    t.(events := t.events + [Emitted(kind, name, data)])
  }

  function Remember(t: Course, m: Message): Course { t.(history := t.history + [m]) }

  function Ask(w: World, t: Course): Flow<bool> {
    if !w.cancellable then Go(t, false)
    else
      var u := t.(clock := t.clock + 1);
      match w.cancelled(t.clock)
      case Says(stop) => Go(u, stop)
      case Objects(standard, what) => Raise(u, standard, what)
  }

  /** The sink for text deltas; `received` says that a first token was announced. */
  function Sink(w: World, t: Course, step: nat, received: bool, delta: string): Flow<bool> {
    match Ask(w, t)
    case Raise(u, standard, what) => Raise(u, standard, what)
    case Go(u, stop) =>
      if stop || delta == "" then Go(u, received)
      else
        var v := if received then u else Emit(u, FirstToken, Digits(step), "");
        Go(Emit(v, ModelTextDelta, Digits(step), delta), true)
  }

  function SinkAll(w: World, t: Course, step: nat, received: bool, deltas: seq<string>, catches: bool): Flow<bool>
    decreases |deltas|
  {
    if deltas == [] then Go(t, received)
    else
      match Sink(w, t, step, received, deltas[0])
      case Go(u, now) => SinkAll(w, u, step, now, deltas[1..], catches)
      case Raise(u, standard, what) =>
        if catches then SinkAll(w, u, step, received, deltas[1..], catches) else Raise(u, standard, what)
  }

  function CallModel(w: World, t: Course, step: nat): Flow<Received> {
    var stream := w.model(t.models);
    var u := Emit(t, ModelStarted, Digits(step), "").(models := t.models + 1, given := t.given + [t.history]);
    match SinkAll(w, u, step, false, stream.deltas, stream.catches)
    case Raise(v, standard, what) => Raise(if standard then Emit(v, Error, "llm", what) else v, standard, what)
    case Go(v, _) =>
      match stream.ending
      case Answers(text, calls, complete) => Go(v, Received(text, calls, complete))
      case Fails(what) => Raise(Emit(v, Error, "llm", what), true, what)
      case FailsOddly => Raise(v, false, "")
  }

  const CANCELLED_BEFORE := "tool cancelled before execution"
  const CANCELLED_DURING := "tool cancelled during execution"

  /** A standard exception inside becomes the tool's result, unless the turn is cancelled. */
  function Recover(w: World, t: Course, what: string): Flow<string> {
    match Ask(w, t)
    case Raise(u, standard, other) => Raise(u, standard, other)
    case Go(u, stop) => if stop then Raise(u, true, what) else Go(u, "error: tool failed: " + what)
  }

  /** What happens once the handler has returned: the question is asked inside the `try`. */
  function Conclude(w: World, t: Course, value: string): Flow<string> {
    match Ask(w, t)
    case Raise(u, standard, what) => if standard then Recover(w, u, what) else Raise(u, false, what)
    case Go(u, late) => if late then Recover(w, u, CANCELLED_DURING) else Go(u, value)
  }

  function Execute(w: World, t: Course): Flow<string> {
    var v := t.(tools := t.tools + 1);
    match w.tool(t.tools)
    case Throws(what) => Recover(w, v, what)
    case ThrowsOddly => Raise(v, false, "")
    case Returns(value) => Conclude(w, v, value)
  }

  function Invoke(w: World, t: Course, call: ToolCall): Flow<string> {
    if call.name !in w.registered then Go(t, "error: unknown tool: " + call.name)
    else
      match Ask(w, t)
      case Raise(u, standard, what) => Raise(u, standard, what)
      case Go(u, early) => if early then Raise(u, true, CANCELLED_BEFORE) else Execute(w, u)
  }

  function Answered(call: ToolCall, result: string): Message { Message(Tool, result, call.name, [], call.id) }

  function CallTool(w: World, t: Course, call: ToolCall): Flow<string> {
    match Invoke(w, Emit(t, ToolStarted, call.name, call.arguments), call)
    case Raise(u, standard, what) => Raise(if standard then Emit(u, Error, "tool", what) else u, standard, what)
    case Go(u, result) => Go(Remember(Emit(u, ToolCompleted, call.name, result), Answered(call, result)), result)
  }

  function CallTools(w: World, t: Course, calls: seq<ToolCall>): Flow<string>
    decreases |calls|
  {
    if calls == [] then Go(t, "")
    else
      match CallTool(w, t, calls[0])
      case Raise(u, standard, what) => Raise(u, standard, what)
      case Go(u, _) => CallTools(w, u, calls[1..])
  }

  /** The model's answer is checked and remembered. */
  function Accept(w: World, t: Course, step: nat, turn: Received): Flow<Received> {
    match Ask(w, t)
    case Raise(u, standard, what) => Raise(u, standard, what)
    case Go(u, late) =>
      if late then Raise(u, true, "turn cancelled")
      else if !turn.complete then Raise(u, true, "incomplete LLM stream")
      else Go(Remember(Emit(u, ModelCompleted, Digits(step), turn.text), Message(Assistant, turn.text, "", turn.calls, "")), turn)
  }

  /** One model call up to the assistant's message in the history. */
  function ModelStep(w: World, t: Course, step: nat): Flow<Received> {
    match Ask(w, t)
    case Raise(u, standard, what) => Raise(u, standard, what)
    case Go(u, stop) =>
      if stop then Raise(u, true, "turn cancelled")
      else
        match CallModel(w, u, step)
        case Raise(v, standard, what) => Raise(v, standard, what)
        case Go(v, turn) => Accept(w, v, step, turn)
  }

  function GiveUp(t: Course): Flow<string> {
    var u := Remember(t, Message(Assistant, LIMIT_TEXT, "", [], ""));
    Go(Emit(Emit(u, Error, "step_limit", LIMIT_TEXT), TurnFailed, "step_limit", ""), LIMIT_TEXT)
  }

  function Steps(w: World, max: nat, t: Course, step: nat): Flow<string>
    decreases max - step
  {
    if step >= max then GiveUp(t)
    else
      match ModelStep(w, t, step)
      case Raise(u, standard, what) => Raise(u, standard, what)
      case Go(u, turn) =>
        if turn.calls == [] then Go(Emit(u, TurnCompleted, "", turn.text), turn.text)
        else
          match CallTools(w, u, turn.calls)
          case Raise(v, standard, what) => Raise(v, standard, what)
          case Go(v, _) => Steps(w, max, v, step + 1)
  }

  function Attempt(w: World, max: nat, t: Course, user: string): Flow<string> {
    match Ask(w, t)
    case Raise(u, standard, what) => Raise(u, standard, what)
    case Go(u, stop) =>
      if stop then Raise(u, true, "turn cancelled")
      else Steps(w, max, Remember(u, Message(User, user, "", [], "")), 0)
  }

  function Opening(history: seq<Message>): Course { Course(0, 0, 0, history, [Emitted(TurnStarted, "", "")], []) }

  /** The history is cut back to the checkpoint. */
  function RollBack(t: Course, checkpoint: nat): Course {
    t.(history := if checkpoint <= |t.history| then t.history[..checkpoint] else t.history)
  }

  /** A turn; an exception, of whatever kind, rolls the history back and is passed on. The question
      asked for the terminal event may throw in its turn: then that exception is passed on instead, and
      there is no terminal event. */
  function RunTurn(w: World, max: nat, history: seq<Message>, user: string): (Course, Outcome) {
    match Attempt(w, max, Opening(history), user)
    case Go(u, text) => (u, Answer(text))
    case Raise(u, _, what) =>
      match Ask(w, RollBack(u, |history|))
      case Go(v, stop) => (Emit(v, if stop then TurnCancelled else TurnFailed, "", ""), Failure(what))
      case Raise(v, _, other) => (v, Failure(other))
  }

  /** The last question asked, if any, was answered. */
  predicate LastAnswered(w: World, t: Course) {
    t.clock == 0 || w.cancelled(t.clock - 1).Says?
  }

  // ---------------------------------------------------------------- paired histories

  predicate Replies(m: Message, call: ToolCall) { m.role == Tool && m.toolCallId == call.id && m.name == call.name }

  /** The messages at the front answer the calls, one for one and in order. */
  predicate AnswersAll(messages: seq<Message>, calls: seq<ToolCall>) {
    && |calls| <= |messages|
    && forall k {:trigger Replies(messages[k], calls[k])} :: 0 <= k < |calls| ==> Replies(messages[k], calls[k])
  }

  /** The tool calls that the messages after this one have to answer. */
  function Owed(m: Message): seq<ToolCall> { if m.role == Assistant then m.toolCalls else [] }

  /** Every assistant message with tool calls is followed at once by one tool message per call, in
      order and with matching ids, and no other tool message occurs. */
  predicate Paired(history: seq<Message>)
    decreases |history|
  {
    history == [] ||
    (history[0].role != Tool && AnswersAll(history[1..], Owed(history[0])) && Paired(history[1 + |Owed(history[0])|..]))
  }

  lemma AnswersPrefix(a: seq<Message>, b: seq<Message>, calls: seq<ToolCall>)
    requires AnswersAll(a, calls)
    ensures AnswersAll(a + b, calls)
  {
    forall k | 0 <= k < |calls| ensures Replies((a + b)[k], calls[k]) {
      assert Replies(a[k], calls[k]);
    }
  }

  lemma DropFront(a: seq<Message>, b: seq<Message>, n: nat)
    requires n <= |a|
    ensures (a + b)[n..] == a[n..] + b
  {
  }

  lemma {:induction false} PairedConcat(a: seq<Message>, b: seq<Message>)
    requires Paired(a) && Paired(b)
    ensures Paired(a + b)
    decreases |a|
  {
    if a == [] {
      assert a + b == b;
    } else {
      var n := 1 + |Owed(a[0])|;
      PairedConcat(a[n..], b);
      AnswersPrefix(a[1..], b, Owed(a[0]));
      DropFront(a, b, n);
      DropFront(a, b, 1);
    }
  }

  lemma PairedPlain(m: Message)
    requires m.role != Tool && (m.role == Assistant ==> m.toolCalls == [])
    ensures Paired([m])
  {
  }

  lemma PairedExchange(m: Message, answers: seq<Message>)
    requires m.role == Assistant && AnswersAll(answers, m.toolCalls) && |answers| == |m.toolCalls|
    ensures Paired([m] + answers)
  {
    var h := [m] + answers;
    assert h[1..] == answers && h[1 + |m.toolCalls|..] == [];
  }

  // ---------------------------------------------------------------- what the pieces keep

  predicate Terminal(k: EventType) { k.TurnCompleted? || k.TurnFailed? || k.TurnCancelled? }

  predicate Opened(events: seq<Emitted>) { events != [] && events[0].kind.TurnStarted? }

  /** The turn has started once and not ended. */
  ghost predicate Underway(events: seq<Emitted>) {
    && Opened(events)
    && forall k {:trigger events[k]} :: 0 < k < |events| ==> !Terminal(events[k].kind) && !events[k].kind.TurnStarted?
  }

  function ModelStarts(events: seq<Emitted>): nat {
    if events == [] then 0
    else ModelStarts(events[..|events| - 1]) + if events[|events| - 1].kind.ModelStarted? then 1 else 0
  }

  ghost predicate GivenPaired(given: seq<seq<Message>>) {
    forall k {:trigger Paired(given[k])} :: 0 <= k < |given| ==> Paired(given[k])
  }

  /** What holds throughout a turn: it is under way, its model calls are the announced ones, what was
      there before is still there, and if that was paired the model was only given paired histories. */
  ghost predicate Sound(t: Course, base: seq<Message>) {
    && Underway(t.events) && t.models == ModelStarts(t.events) && base <= t.history
    && (Paired(base) ==> GivenPaired(t.given))
  }

  lemma EmitSound(t: Course, base: seq<Message>, kind: EventType, name: string, data: string)
    requires Sound(t, base) && !Terminal(kind) && !kind.TurnStarted? && !kind.ModelStarted?
    ensures Sound(Emit(t, kind, name, data), base)
  {
    var e := t.events + [Emitted(kind, name, data)];
    assert e[..|e| - 1] == t.events;
  }

  lemma SinkSound(w: World, t: Course, base: seq<Message>, step: nat, received: bool, delta: string)
    requires Sound(t, base)
    ensures var u := Sink(w, t, step, received, delta).course; Sound(u, base) && u.history == t.history && u.models == t.models
  {
    var u := Ask(w, t).course;
    EmitSound(u, base, FirstToken, Digits(step), "");
    EmitSound(if received then u else Emit(u, FirstToken, Digits(step), ""), base, ModelTextDelta, Digits(step), delta);
  }

  lemma {:induction false} SinkAllSound(w: World, t: Course, base: seq<Message>, step: nat, received: bool, deltas: seq<string>, catches: bool)
    requires Sound(t, base)
    ensures var u := SinkAll(w, t, step, received, deltas, catches).course;
            Sound(u, base) && u.history == t.history && u.models == t.models
    decreases |deltas|
  {
    if deltas != [] {
      SinkSound(w, t, base, step, received, deltas[0]);
      var s := Sink(w, t, step, received, deltas[0]);
      SinkAllSound(w, s.course, base, step, if s.Go? then s.value else received, deltas[1..], catches);
    }
  }

  lemma ModelStartSound(t: Course, base: seq<Message>, step: nat)
    requires Sound(t, base) && (Paired(base) ==> Paired(t.history))
    ensures Sound(Emit(t, ModelStarted, Digits(step), "").(models := t.models + 1, given := t.given + [t.history]), base)
  {
    var e := t.events + [Emitted(ModelStarted, Digits(step), "")];
    assert e[..|e| - 1] == t.events;
  }

  lemma CallModelSound(w: World, t: Course, base: seq<Message>, step: nat)
    requires Sound(t, base) && (Paired(base) ==> Paired(t.history))
    ensures var f := CallModel(w, t, step);
            Sound(f.course, base) && f.course.history == t.history && f.course.models == t.models + 1
  {
    var u := Emit(t, ModelStarted, Digits(step), "").(models := t.models + 1, given := t.given + [t.history]);
    ModelStartSound(t, base, step);
    var stream := w.model(t.models);
    SinkAllSound(w, u, base, step, false, stream.deltas, stream.catches);
    match SinkAll(w, u, step, false, stream.deltas, stream.catches)
    case Raise(v, _, what) => EmitSound(v, base, Error, "llm", what);
    case Go(v, _) => if stream.ending.Fails? { EmitSound(v, base, Error, "llm", stream.ending.what); }
  }

  /** Nothing but questions and tool executions. */
  predicate Quiet(t: Course, u: Course) {
    u == t.(clock := u.clock, tools := u.tools)
  }

  lemma InvokeQuiet(w: World, t: Course, call: ToolCall)
    ensures Quiet(t, Invoke(w, t, call).course)
  {
  }

  lemma InvokeSound(w: World, t: Course, base: seq<Message>, call: ToolCall)
    requires Sound(t, base)
    ensures var f := Invoke(w, t, call);
            Sound(f.course, base) && f.course.history == t.history && f.course.models == t.models
  {
    InvokeQuiet(w, t, call);
  }

  lemma CallToolSound(w: World, t: Course, base: seq<Message>, call: ToolCall)
    requires Sound(t, base)
    ensures var f := CallTool(w, t, call);
            && Sound(f.course, base) && f.course.models == t.models
            && (f.Go? ==> f.course.history == t.history + [Answered(call, f.value)])
  {
    var u := Emit(t, ToolStarted, call.name, call.arguments);
    EmitSound(t, base, ToolStarted, call.name, call.arguments);
    InvokeSound(w, u, base, call);
    match Invoke(w, u, call)
    case Raise(v, _, what) => EmitSound(v, base, Error, "tool", what);
    case Go(v, result) => EmitSound(v, base, ToolCompleted, call.name, result);
  }

  /** The tool loop answers the calls one for one. */
  lemma {:induction false} CallToolsSound(w: World, t: Course, base: seq<Message>, calls: seq<ToolCall>)
    requires Sound(t, base)
    ensures var f := CallTools(w, t, calls);
            && Sound(f.course, base) && f.course.models == t.models
            && (f.Go? ==> |f.course.history| == |t.history| + |calls| && t.history <= f.course.history
                          && AnswersAll(f.course.history[|t.history|..], calls))
    decreases |calls|
  {
    if calls != [] {
      CallToolSound(w, t, base, calls[0]);
      match CallTool(w, t, calls[0])
      case Raise(_, _, _) =>
      case Go(u, result) =>
        CallToolsSound(w, u, base, calls[1..]);
        var f := CallTools(w, u, calls[1..]);
        if f.Go? {
          var tail := f.course.history[|t.history|..];
          assert tail[0] == u.history[|t.history|] && tail[1..] == f.course.history[|u.history|..];
          forall k | 0 <= k < |calls| ensures Replies(tail[k], calls[k]) {
            if k > 0 { assert Replies(tail[1..][k - 1], calls[1..][k - 1]); }
          }
        }
    }
  }

  lemma AcceptSound(w: World, t: Course, base: seq<Message>, step: nat, turn: Received)
    requires Sound(t, base)
    ensures var f := Accept(w, t, step, turn);
            && Sound(f.course, base) && f.course.models == t.models
            && (f.Go? ==> f.value == turn && f.course.history == t.history + [Message(Assistant, turn.text, "", turn.calls, "")])
  {
    EmitSound(Ask(w, t).course, base, ModelCompleted, Digits(step), turn.text);
  }

  lemma ModelStepSound(w: World, t: Course, base: seq<Message>, step: nat)
    requires Sound(t, base) && (Paired(base) ==> Paired(t.history))
    ensures var f := ModelStep(w, t, step);
            && Sound(f.course, base) && f.course.models <= t.models + 1
            && (f.Go? ==> f.course.history == t.history + [Message(Assistant, f.value.text, "", f.value.calls, "")])
  {
    var u := Ask(w, t).course;
    CallModelSound(w, u, base, step);
    match CallModel(w, u, step)
    case Raise(_, _, _) =>
    case Go(v, turn) => AcceptSound(w, v, base, step, turn);
  }

  /** A turn that has ended: exactly one terminal event, the last one. */
  ghost predicate Finished(events: seq<Emitted>) {
    |events| > 1 && Underway(events[..|events| - 1]) && Terminal(events[|events| - 1].kind)
  }

  ghost predicate EndsWell(f: Flow<string>, base: seq<Message>, max: nat) {
    match f
    case Raise(u, _, _) => Sound(u, base) && u.models <= max
    case Go(u, _) =>
      && Finished(u.events) && u.models <= max && u.models == ModelStarts(u.events) && base <= u.history
      && (Paired(base) ==> GivenPaired(u.given) && Paired(u.history))
      && (u.events[|u.events| - 1].kind.TurnCompleted? || u.events[|u.events| - 1].kind.TurnFailed?)
  }

  lemma FinishEvents(t: Course, base: seq<Message>, kind: EventType, name: string, data: string)
    requires Sound(t, base) && Terminal(kind)
    ensures var u := Emit(t, kind, name, data);
            Finished(u.events) && u.models == ModelStarts(u.events) && u.events[|u.events| - 1].kind == kind
  {
    var e := t.events + [Emitted(kind, name, data)];
    assert e[..|e| - 1] == t.events;
  }

  lemma GiveUpEnds(t: Course, base: seq<Message>, max: nat)
    requires Sound(t, base) && (Paired(base) ==> Paired(t.history)) && t.models <= max
    ensures EndsWell(GiveUp(t), base, max)
  {
    var m := Message(Assistant, LIMIT_TEXT, "", [], "");
    PairedPlain(m);
    if Paired(base) { PairedConcat(t.history, [m]); }
    EmitSound(Remember(t, m), base, Error, "step_limit", LIMIT_TEXT);
    FinishEvents(Emit(Remember(t, m), Error, "step_limit", LIMIT_TEXT), base, TurnFailed, "step_limit", "");
  }

  /** The model's answer and the tools' answers together leave the history paired. */
  lemma ExchangePaired(before: seq<Message>, m: Message, after: seq<Message>)
    requires Paired(before) && m.role == Assistant && before + [m] <= after
    requires |after| == |before| + 1 + |m.toolCalls| && AnswersAll(after[|before| + 1..], m.toolCalls)
    ensures Paired(after)
  {
    var answers := after[|before| + 1..];
    PairedExchange(m, answers);
    JoinExchange(before, m, answers, after);
    PairedConcat(before, [m] + answers);
  }

  lemma JoinExchange(before: seq<Message>, m: Message, answers: seq<Message>, after: seq<Message>)
    requires before + [m] <= after && answers == after[|before| + 1..]
    ensures after == before + ([m] + answers)
  {
    assert after == after[..|before| + 1] + answers;
  }

  lemma {:induction false} StepsEnd(w: World, max: nat, t: Course, base: seq<Message>, step: nat)
    requires Sound(t, base) && (Paired(base) ==> Paired(t.history)) && t.models <= step <= max
    ensures EndsWell(Steps(w, max, t, step), base, max)
    decreases max - step
  {
    if step >= max {
      GiveUpEnds(t, base, max);
    } else {
      ModelStepSound(w, t, base, step);
      match ModelStep(w, t, step)
      case Raise(_, _, _) =>
      case Go(u, turn) =>
        var m := Message(Assistant, turn.text, "", turn.calls, "");
        if turn.calls == [] {
          PairedPlain(m);
          if Paired(base) { PairedConcat(t.history, [m]); }
          FinishEvents(u, base, TurnCompleted, "", turn.text);
        } else {
          CallToolsSound(w, u, base, turn.calls);
          match CallTools(w, u, turn.calls)
          case Raise(_, _, _) =>
          case Go(v, _) =>
            if Paired(base) { ExchangePaired(t.history, m, v.history); }
            StepsEnd(w, max, v, base, step + 1);
        }
    }
  }

  // ---------------------------------------------------------------- which question was answered last

  lemma AskHeard(w: World, t: Course)
    ensures Ask(w, t).Raise? ==> !LastAnswered(w, Ask(w, t).course)
    ensures Ask(w, t).Go? && (w.cancellable || LastAnswered(w, t)) ==> LastAnswered(w, Ask(w, t).course)
  {
  }

  /** A tool call that goes through ends with an answered question, whatever was caught on the way. */
  lemma CallToolHeard(w: World, t: Course, call: ToolCall)
    requires LastAnswered(w, t)
    ensures CallTool(w, t, call).Go? ==> LastAnswered(w, CallTool(w, t, call).course)
  {
  }

  lemma {:induction false} CallToolsHeard(w: World, t: Course, calls: seq<ToolCall>)
    requires LastAnswered(w, t)
    ensures CallTools(w, t, calls).Go? ==> LastAnswered(w, CallTools(w, t, calls).course)
    decreases |calls|
  {
    if calls != [] {
      CallToolHeard(w, t, calls[0]);
      if CallTool(w, t, calls[0]).Go? { CallToolsHeard(w, CallTool(w, t, calls[0]).course, calls[1..]); }
    }
  }

  /** Without a callback nothing is ever asked. */
  ghost predicate Unasked(w: World, t: Course) { !w.cancellable ==> t.clock == 0 }

  lemma {:induction false} SinkAllUnasked(w: World, t: Course, step: nat, received: bool, deltas: seq<string>, catches: bool)
    requires Unasked(w, t)
    ensures Unasked(w, SinkAll(w, t, step, received, deltas, catches).course)
    decreases |deltas|
  {
    if deltas != [] {
      var s := Sink(w, t, step, received, deltas[0]);
      SinkAllUnasked(w, s.course, step, if s.Go? then s.value else received, deltas[1..], catches);
    }
  }

  lemma ModelStepHeard(w: World, t: Course, step: nat)
    requires Unasked(w, t)
    ensures var f := ModelStep(w, t, step); Unasked(w, f.course) && (f.Go? ==> LastAnswered(w, f.course))
  {
    var u := Ask(w, t).course;
    var v := Emit(u, ModelStarted, Digits(step), "").(models := u.models + 1, given := u.given + [u.history]);
    SinkAllUnasked(w, v, step, false, w.model(u.models).deltas, w.model(u.models).catches);
  }

  lemma CallToolUnasked(w: World, t: Course, call: ToolCall)
    requires Unasked(w, t)
    ensures Unasked(w, CallTool(w, t, call).course)
  {
  }

  lemma {:induction false} CallToolsUnasked(w: World, t: Course, calls: seq<ToolCall>)
    requires Unasked(w, t)
    ensures Unasked(w, CallTools(w, t, calls).course)
    decreases |calls|
  {
    if calls != [] {
      CallToolUnasked(w, t, calls[0]);
      CallToolsUnasked(w, CallTool(w, t, calls[0]).course, calls[1..]);
    }
  }

  lemma {:induction false} StepsHeard(w: World, max: nat, t: Course, step: nat)
    requires Unasked(w, t) && LastAnswered(w, t)
    ensures var f := Steps(w, max, t, step); Unasked(w, f.course) && (f.Go? ==> LastAnswered(w, f.course))
    decreases max - step
  {
    if step < max {
      ModelStepHeard(w, t, step);
      match ModelStep(w, t, step)
      case Raise(_, _, _) =>
      case Go(u, turn) =>
        CallToolsHeard(w, u, turn.calls);
        CallToolsUnasked(w, u, turn.calls);
        if turn.calls != [] && CallTools(w, u, turn.calls).Go? {
          StepsHeard(w, max, CallTools(w, u, turn.calls).course, step + 1);
        }
    }
  }

  lemma AttemptHeard(w: World, max: nat, history: seq<Message>, user: string)
    ensures var f := Attempt(w, max, Opening(history), user); Unasked(w, f.course) && (f.Go? ==> LastAnswered(w, f.course))
  {
    AskHeard(w, Opening(history));
    var t := Ask(w, Opening(history)).course;
    if Ask(w, Opening(history)).Go? { StepsHeard(w, max, Remember(t, Message(User, user, "", [], "")), 0); }
  }

  // ---------------------------------------------------------------- whole turns

  lemma AttemptEnds(w: World, max: nat, history: seq<Message>, user: string)
    ensures EndsWell(Attempt(w, max, Opening(history), user), history, max)
  {
    var t := Ask(w, Opening(history)).course;
    var m := Message(User, user, "", [], "");
    PairedPlain(m);
    if Paired(history) { PairedConcat(history, [m]); }
    assert Opening(history).events[..0] == [];
    StepsEnd(w, max, Remember(t, m), history, 0);
  }

  /** A turn that throws leaves the history exactly as it was. */
  lemma FailureRestoresHistory(w: World, max: nat, history: seq<Message>, user: string)
    ensures var (t, outcome) := RunTurn(w, max, history, user);
            && (outcome.Failure? ==> t.history == history)
            && (outcome.Answer? ==> history <= t.history)
  {
    AttemptEnds(w, max, history, user);
  }

  /** A paired history stays paired, and paired is what every model call is given. */
  lemma HistoryStaysPaired(w: World, max: nat, history: seq<Message>, user: string)
    requires Paired(history)
    ensures var t := RunTurn(w, max, history, user).0;
            Paired(t.history) && forall k :: 0 <= k < |t.given| ==> Paired(t.given[k])
  {
    AttemptEnds(w, max, history, user);
    FailureRestoresHistory(w, max, history, user);
  }

  /** How a turn ends: with its terminal event, or, if the question asked for it throws, without one. */
  lemma TurnEvents(w: World, max: nat, history: seq<Message>, user: string)
    ensures var (t, outcome) := RunTurn(w, max, history, user);
            && t.models == ModelStarts(t.events) && t.models <= max
            && (if LastAnswered(w, t) then Finished(t.events) else Underway(t.events) && outcome.Failure?)
            && (LastAnswered(w, t) ==>
                  var last := t.events[|t.events| - 1].kind;
                  if outcome.Answer? then last.TurnCompleted? || last.TurnFailed? else last.TurnCancelled? || last.TurnFailed?)
  {
    AttemptEnds(w, max, history, user);
    AttemptHeard(w, max, history, user);
    var f := Attempt(w, max, Opening(history), user);
    if f.Raise? { ThrownEnds(w, f.course, history); }
  }

  lemma ThrownEnds(w: World, u: Course, base: seq<Message>)
    requires Sound(u, base) && Unasked(w, u)
    ensures var f := Ask(w, RollBack(u, |base|));
            && Sound(f.course, base) && f.course.models == u.models && (f.Go? <==> LastAnswered(w, f.course))
            && (forall kind :: f.Go? && Terminal(kind) ==>
                  var v := Emit(f.course, kind, "", "");
                  Finished(v.events) && v.models == ModelStarts(v.events) && v.events[|v.events| - 1].kind == kind)
  {
    var f := Ask(w, RollBack(u, |base|));
    forall kind | f.Go? && Terminal(kind)
      ensures var v := Emit(f.course, kind, "", "");
              Finished(v.events) && v.models == ModelStarts(v.events) && v.events[|v.events| - 1].kind == kind
    {
      FinishEvents(f.course, base, kind, "", "");
    }
  }

  /** No more model calls than steps are allowed, each announced once. */
  lemma ModelCallsBounded(w: World, max: nat, history: seq<Message>, user: string)
    ensures var t := RunTurn(w, max, history, user).0; t.models == ModelStarts(t.events) && t.models <= max
  {
    TurnEvents(w, max, history, user);
  }

  function Terminals(events: seq<Emitted>): nat {
    if events == [] then 0
    else Terminals(events[..|events| - 1]) + if Terminal(events[|events| - 1].kind) then 1 else 0
  }

  lemma {:induction false} UnderwayHasNone(events: seq<Emitted>)
    requires Underway(events)
    ensures Terminals(events) == 0
  {
    if |events| > 1 {
      UnderwayHasNone(events[..|events| - 1]);
    } else {
      assert events[..0] == [];
    }
  }

  /** Exactly one terminal event is emitted if and only if the last question whether the turn is
      cancelled was answered rather than thrown at; otherwise none is. */
  lemma TerminalEventIff(w: World, max: nat, history: seq<Message>, user: string)
    ensures var t := RunTurn(w, max, history, user).0;
            && (Terminals(t.events) == 1 <==> LastAnswered(w, t))
            && (Terminals(t.events) == 0 <==> !LastAnswered(w, t))
  {
    TurnEvents(w, max, history, user);
    var t := RunTurn(w, max, history, user).0;
    if LastAnswered(w, t) { UnderwayHasNone(t.events[..|t.events| - 1]); } else { UnderwayHasNone(t.events); }
  }

  /** A turn starts once, with its first event; a terminal event is the last one. */
  lemma OneTerminalEvent(w: World, max: nat, history: seq<Message>, user: string, k: nat)
    requires k < |RunTurn(w, max, history, user).0.events|
    ensures var t := RunTurn(w, max, history, user).0;
            && (t.events[k].kind.TurnStarted? <==> k == 0)
            && (Terminal(t.events[k].kind) <==> k == |t.events| - 1 && LastAnswered(w, t))
  {
    TurnEvents(w, max, history, user);
    var t := RunTurn(w, max, history, user).0;
    var events := t.events;
    if LastAnswered(w, t) {
      var before := events[..|events| - 1];
      assert Underway(before) && before[0] == events[0];
      if k < |before| { assert before[k] == events[k]; }
    }
  }

  /** A callback that throws whenever it is asked leaves TurnStarted alone, with nothing after it. */
  lemma ThrowingCallbackEndsNothing(w: World, max: nat, history: seq<Message>, user: string)
    requires w.cancellable && forall n: nat :: w.cancelled(n).Objects?
    ensures var t := RunTurn(w, max, history, user).0; t.events == [Emitted(TurnStarted, "", "")] && t.history == history
  {
    FailureRestoresHistory(w, max, history, user);
    assert w.cancelled(0).Objects? && w.cancelled(1).Objects?;
  }
}

/** The agent object: nested loops over steps and tool calls. */
module Agents {
  import opened Common
  import opened Events
  import opened JsonMessages
  import opened AgentModel

  /** What a call delivers to its caller. */
  datatype Caught<A> = Value(value: A) | Thrown(standard: bool, what: string)

  /** A call took the course that the flow says, and delivered what the flow says. */
  ghost predicate Took<A>(f: Flow<A>, t: Course, r: Caught<A>) {
    t == f.course && r == match f case Go(_, value) => Value(value) case Raise(_, standard, what) => Thrown(standard, what)
  }

  /** A turn in progress. Its fields are the locals of the call and the event stream. */
  class Agent {
    const world: World
    const maxSteps: nat
    var history: seq<Message>
    var clock: nat
    var models: nat
    var tools: nat
    var events: seq<Emitted>
    ghost var given: seq<seq<Message>>

    ghost function Model(): Course
      reads this
    {
      Course(clock, models, tools, history, events, given)
    }

    constructor (w: World, steps: nat, system: string)
      ensures world == w && maxSteps == steps && Paired(history) && Model().history == [Message(System, system, "", [], "")]
    {
      world, maxSteps := w, steps;
      history := [Message(System, system, "", [], "")];
      clock, models, tools, events, given := 0, 0, 0, [], [];
      new;
      PairedPlain(history[0]);
    }

    method Cancelled() returns (r: Caught<bool>)
      modifies this`clock
      ensures Took(Ask(world, old(Model())), Model(), r)
    {
      if !world.cancellable { return Value(false); }
      var reply := world.cancelled(clock);
      clock := clock + 1;
      return match reply case Says(stop) => Value(stop) case Objects(standard, what) => Thrown(standard, what);
    }

    method Publish(kind: EventType, name: string, data: string)
      modifies this`events
      ensures Model() == Emit(old(Model()), kind, name, data)
    {
      events := events + [Emitted(kind, name, data)];
    }

    method OnDelta(step: nat, received: bool, delta: string) returns (r: Caught<bool>)
      modifies this`events, this`clock
      ensures Took(Sink(world, old(Model()), step, received, delta), Model(), r)
    {
      r := Cancelled();
      if r.Thrown? { return; }
      if r.value || delta == "" { return Value(received); }
      if !received { Publish(FirstToken, Digits(step), ""); }
      Publish(ModelTextDelta, Digits(step), delta);
      return Value(true);
    }

    /** The provider hands its deltas to the sink. */
    method HandOver(step: nat, stream: Stream) returns (r: Caught<bool>)
      modifies this`events, this`clock
      ensures Took(SinkAll(world, old(Model()), step, false, stream.deltas, stream.catches), Model(), r)
    {
      var received := false;
      var i := 0;
      while i < |stream.deltas|
        invariant 0 <= i <= |stream.deltas|
        invariant SinkAll(world, old(Model()), step, false, stream.deltas, stream.catches)
                  == SinkAll(world, Model(), step, received, stream.deltas[i..], stream.catches)
      {
        assert stream.deltas[i..][1..] == stream.deltas[i + 1..];
        r := OnDelta(step, received, stream.deltas[i]);
        if r.Value? {
          received := r.value;
        } else if !stream.catches {
          return;
        }
        i := i + 1;
      }
      return Value(received);
    }

    method Stream(step: nat) returns (r: Caught<Received>)
      modifies this
      ensures Took(CallModel(world, old(Model()), step), Model(), r)
    {
      Publish(ModelStarted, Digits(step), "");
      var stream := world.model(models);
      models, given := models + 1, given + [history];
      var handed := HandOver(step, stream);
      if handed.Thrown? {
        r := Thrown(handed.standard, handed.what);
      } else {
        match stream.ending
        case Answers(text, calls, complete) => return Value(Received(text, calls, complete));
        case Fails(what) => r := Thrown(true, what);
        case FailsOddly => r := Thrown(false, "");
      }
      if r.standard { Publish(Error, "llm", r.what); }
    }

    /** The `catch` of a tool call. */
    method RecoverTool(what: string) returns (r: Caught<string>)
      modifies this`clock
      ensures Took(Recover(world, old(Model()), what), Model(), r)
    {
      var stop := Cancelled();
      if stop.Thrown? { return Thrown(stop.standard, stop.what); }
      return if stop.value then Thrown(true, what) else Value("error: tool failed: " + what);
    }

    /** The `try` of a tool call. */
    method RunTool() returns (r: Caught<string>)
      modifies this`clock, this`tools
      ensures Took(Execute(world, old(Model())), Model(), r)
    {
      var handled := world.tool(tools);
      tools := tools + 1;
      match handled
      case Throws(what) => r := RecoverTool(what);
      case ThrowsOddly => r := Thrown(false, "");
      case Returns(value) =>
        var late := Cancelled();
        if late.Value? && !late.value {
          r := Value(value);
        } else if late.Value? {
          r := RecoverTool(CANCELLED_DURING);
        } else if late.standard {
          r := RecoverTool(late.what);
        } else {
          r := Thrown(false, late.what);
        }
    }

    method InvokeTool(call: ToolCall) returns (r: Caught<string>)
      modifies this`clock, this`tools
      ensures Took(Invoke(world, old(Model()), call), Model(), r)
    {
      if call.name !in world.registered { return Value("error: unknown tool: " + call.name); }
      var early := Cancelled();
      if early.Thrown? { return Thrown(early.standard, early.what); }
      if early.value { return Thrown(true, CANCELLED_BEFORE); }
      r := RunTool();
    }

    method UseTool(call: ToolCall) returns (r: Caught<string>)
      modifies this
      ensures Took(CallTool(world, old(Model()), call), Model(), r)
    {
      Publish(ToolStarted, call.name, call.arguments);
      r := InvokeTool(call);
      if r.Thrown? {
        if r.standard { Publish(Error, "tool", r.what); }
        return;
      }
      Publish(ToolCompleted, call.name, r.value);
      history := history + [Message(Tool, r.value, call.name, [], call.id)];
    }

    method UseTools(calls: seq<ToolCall>) returns (r: Caught<string>)
      modifies this
      ensures Took(CallTools(world, old(Model()), calls), Model(), r)
    {
      var i := 0;
      while i < |calls|
        invariant 0 <= i <= |calls|
        invariant CallTools(world, old(Model()), calls) == CallTools(world, Model(), calls[i..])
      {
        assert calls[i..][1..] == calls[i + 1..];
        r := UseTool(calls[i]);
        if r.Thrown? { return; }
        i := i + 1;
      }
      return Value("");
    }

    /** One round up to the assistant's message. */
    method AskModel(step: nat) returns (r: Caught<Received>)
      modifies this
      ensures Took(ModelStep(world, old(Model()), step), Model(), r)
    {
      var stop := Cancelled();
      if stop.Thrown? { return Thrown(stop.standard, stop.what); }
      if stop.value { return Thrown(true, "turn cancelled"); }
      r := Stream(step);
      if r.Value? { r := TakeAnswer(step, r.value); }
    }

    method TakeAnswer(step: nat, turn: Received) returns (r: Caught<Received>)
      modifies this`clock, this`events, this`history
      ensures Took(Accept(world, old(Model()), step, turn), Model(), r)
    {
      var late := Cancelled();
      if late.Thrown? { return Thrown(late.standard, late.what); }
      if late.value { return Thrown(true, "turn cancelled"); }
      if !turn.complete { return Thrown(true, "incomplete LLM stream"); }
      Publish(ModelCompleted, Digits(step), turn.text);
      history := history + [Message(Assistant, turn.text, "", turn.calls, "")];
      return Value(turn);
    }

    /** The loop over the steps. */
    method Converse() returns (r: Caught<string>)
      modifies this
      ensures Took(Steps(world, maxSteps, old(Model()), 0), Model(), r)
    {
      var step := 0;
      while step < maxSteps
        invariant 0 <= step <= maxSteps
        invariant Steps(world, maxSteps, old(Model()), 0) == Steps(world, maxSteps, Model(), step)
      {
        var turn := AskModel(step);
        if turn.Thrown? { return Thrown(turn.standard, turn.what); }
        if turn.value.calls == [] {
          Publish(TurnCompleted, "", turn.value.text);
          return Value(turn.value.text);
        }
        r := UseTools(turn.value.calls);
        if r.Thrown? { return; }
        step := step + 1;
      }
      history := history + [Message(Assistant, LIMIT_TEXT, "", [], "")];
      Publish(Error, "step_limit", LIMIT_TEXT);
      Publish(TurnFailed, "step_limit", "");
      return Value(LIMIT_TEXT);
    }

    /** The body of the turn's `try`. */
    method TryTurn(user: string) returns (r: Caught<string>)
      modifies this
      ensures Took(Attempt(world, maxSteps, old(Model()), user), Model(), r)
    {
      var stop := Cancelled();
      if stop.Thrown? { return Thrown(stop.standard, stop.what); }
      if stop.value { return Thrown(true, "turn cancelled"); }
      history := history + [Message(User, user, "", [], "")];
      r := Converse();
    }

    /** A turn, against a world that starts anew: a failure of any kind rolls the history back, and
        the question for the terminal event may fail in its turn. */
    method RunStreaming(user: string) returns (outcome: Outcome)
      modifies this
      ensures (Model(), outcome) == RunTurn(world, maxSteps, old(history), user)
      ensures outcome.Failure? ==> history == old(history)
      ensures Paired(old(history)) ==> Paired(history)
    {
      FailureRestoresHistory(world, maxSteps, history, user);
      if Paired(history) { HistoryStaysPaired(world, maxSteps, history, user); }
      var checkpoint := |history|;
      clock, models, tools, events, given := 0, 0, 0, [Emitted(TurnStarted, "", "")], [];
      var r := TryTurn(user);
      if r.Value? { return Answer(r.value); }
      if checkpoint <= |history| { history := history[..checkpoint]; }
      var cancelled := Cancelled();
      if cancelled.Thrown? { return Failure(cancelled.what); }
      Publish(if cancelled.value then TurnCancelled else TurnFailed, "", "");
      return Failure(r.what);
    }
  }
}

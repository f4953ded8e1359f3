/** The streamed completion: what the event sink accumulates, and how tool calls that arrive in
    fragments are put together. */
module LlmStream {
  import opened Common
  import opened Json
  import opened JsonMessages
  import Sse

  /** The consumer of text deltas decides from what it was given so far. */
  type Consumer = seq<string> -> bool

  datatype Fragment = Fragment(index: nat, id: string, name: string, arguments: string)

  /** `deltas` is what the consumer was given. */
  datatype Turn = Turn(text: string, deltas: seq<string>, calls: seq<ToolCall>, done: bool)

  datatype Progress = Live(turn: Turn) | Broken(deltas: seq<string>, reason: string)

  // ---------------------------------------------------------------- tool-call fragments

  function IndexOrZero(j: Option<Json>): nat {
    if j.Some? && j.value.JNum? && j.value.number >= 0.0 then j.value.number.Floor else 0
  }

  function TextOf(j: Option<Json>): string {
    if j.Some? then StringOrEmpty(j.value) else ""
  }

  function FragmentOf(item: Json): Fragment {
    var call := Find(item, "function");
    Fragment(IndexOrZero(Find(item, "index")), TextOf(Find(item, "id")),
             if call.Some? then TextOf(Find(call.value, "name")) else "",
             if call.Some? then TextOf(Find(call.value, "arguments")) else "")
  }

  function FragmentsOf(items: seq<Json>): (r: seq<Fragment>)
    ensures |r| == |items|
  {
    seq(|items|, i requires 0 <= i < |items| => FragmentOf(items[i]))
  }

  function Glue(call: ToolCall, f: Fragment): ToolCall {
    ToolCall(call.id + f.id, call.name + f.name, call.arguments + f.arguments)
  }

  const NO_CALL := ToolCall("", "", "")

  /** Grows the call list to the fragment's index and appends the fragment there. */
  function AddFragment(calls: seq<ToolCall>, f: Fragment): (r: seq<ToolCall>)
    ensures |r| == if f.index < |calls| then |calls| else f.index + 1
    ensures forall i :: 0 <= i < |r| ==>
      r[i] == (if i == f.index then Glue(CallAt(calls, i), f) else CallAt(calls, i))
  {
    var grown := if |calls| <= f.index then calls + seq(f.index + 1 - |calls|, i => NO_CALL) else calls;
    grown[f.index := Glue(grown[f.index], f)]
  }

  /** Calls beyond the list are still empty. */
  function CallAt(calls: seq<ToolCall>, i: nat): ToolCall {
    if i < |calls| then calls[i] else NO_CALL
  }

  function AddAll(calls: seq<ToolCall>, fs: seq<Fragment>): seq<ToolCall>
    decreases |fs|
  {
    if fs == [] then calls else AddAll(AddFragment(calls, fs[0]), fs[1..])
  }

  /** Reference: everything the fragments say about call `i`, in order of arrival. */
  function Gathered(fs: seq<Fragment>, i: nat): ToolCall {
    if fs == [] then NO_CALL
    else
      var before := Gathered(fs[..|fs| - 1], i);
      var last := fs[|fs| - 1];
      if last.index == i then Glue(before, last) else before
  }

  function CallCount(fs: seq<Fragment>): nat {
    if fs == [] then 0
    else
      var before := CallCount(fs[..|fs| - 1]);
      if fs[|fs| - 1].index < before then before else fs[|fs| - 1].index + 1
  }

  lemma {:induction false} AddAllAppend(calls: seq<ToolCall>, a: seq<Fragment>, b: seq<Fragment>)
    ensures AddAll(calls, a + b) == AddAll(AddAll(calls, a), b)
    decreases |a|
  {
    if a == [] {
      assert a + b == b;
    } else {
      assert (a + b)[1..] == a[1..] + b;
      AddAllAppend(AddFragment(calls, a[0]), a[1..], b);
    }
  }

  /** Reassembly: call `i` is the concatenation of the fragments with index `i`, and the list is
      just long enough for the largest index. */
  lemma {:induction false} ReassembledPerIndex(fs: seq<Fragment>, i: nat)
    ensures |AddAll([], fs)| == CallCount(fs)
    ensures CallAt(AddAll([], fs), i) == Gathered(fs, i)
    decreases |fs|
  {
    if fs != [] {
      var init, last := fs[..|fs| - 1], fs[|fs| - 1];
      assert fs == init + [last];
      ReassembledPerIndex(init, i);
      AddAllAppend([], init, [last]);
      assert AddAll(AddAll([], init), [last]) == AddFragment(AddAll([], init), last);
    }
  }

  // ---------------------------------------------------------------- the event sink

  /** `choices[0].delta` of an event, if it has one; a non-array `choices` throws. */
  function DeltaOf(root: Json): Result<Option<Json>> {
    var choices := Find(root, "choices");
    if choices.None? then Done(None)
    else if !choices.value.JArr? then Throws("expected JSON array")
    else if choices.value.items == [] then Done(None)
    else Done(Find(choices.value.items[0], "delta"))
  }

  function Sink(stod: Stod, accept: Consumer, turn: Turn, event: string): Progress {
    if turn.done then Live(turn)
    else if event == "[DONE]" then Live(turn.(done := true))
    else
      var root := Parse(stod, event);
      if root.Err? then Broken(turn.deltas, root.reason)
      else
        var delta := DeltaOf(root.value);
        if delta.Throws? then Broken(turn.deltas, delta.reason)
        else if delta.value.None? then Live(turn)
        else TakeCalls(TakeText(accept, turn, delta.value.value), delta.value.value)
  }

  function TakeText(accept: Consumer, turn: Turn, delta: Json): Progress {
    var text := TextOf(Find(delta, "content"));
    if text == "" then Live(turn)
    else
      var deltas := turn.deltas + [text];
      if accept(deltas) then Live(turn.(text := turn.text + text, deltas := deltas))
      else Broken(deltas, "LLM stream consumer stopped")
  }

  function TakeCalls(p: Progress, delta: Json): Progress {
    var calls := Find(delta, "tool_calls");
    if p.Broken? || calls.None? then p
    else if !calls.value.JArr? then Broken(p.turn.deltas, "expected JSON array")
    else Live(p.turn.(calls := AddAll(p.turn.calls, FragmentsOf(calls.value.items))))
  }

  function SinkAll(stod: Stod, accept: Consumer, p: Progress, events: seq<string>): Progress
    decreases |events|
  {
    if events == [] || p.Broken? then p
    else SinkAll(stod, accept, Sink(stod, accept, p.turn, events[0]), events[1..])
  }

  const NEW_TURN := Turn("", [], [], false)

  /** The whole call: events dispatched while the body arrives, then the status check, then the
      events dispatched at the end of input. */
  function Stream(stod: Stod, accept: Consumer, status: int, chunks: seq<string>): Progress {
    var parser := Sse.FeedAll(Sse.Fresh(), chunks);
    var during := SinkAll(stod, accept, Live(NEW_TURN), parser.feed.events);
    if during.Broken? then during
    else if status < 200 || status >= 300 then Broken(during.turn.deltas, "LLM HTTP status")
    else SinkAll(stod, accept, during, Sse.Close(parser.feed.(events := []), parser.buffer))
  }

  // ---------------------------------------------------------------- properties

  lemma {:induction false} SinkAppend(stod: Stod, accept: Consumer, p: Progress, a: seq<string>, b: seq<string>)
    ensures SinkAll(stod, accept, p, a + b) == SinkAll(stod, accept, SinkAll(stod, accept, p, a), b)
    decreases |a|
  {
    if a == [] {
      assert a + b == b;
    } else if p.Live? {
      assert (a + b)[1..] == a[1..] + b;
      SinkAppend(stod, accept, Sink(stod, accept, p.turn, a[0]), a[1..], b);
    }
  }

  /** The stream's outcome (deltas, completion flag, text, calls or error) depends only on the bytes
      of the response, not on how they were cut. */
  lemma StreamIgnoresFragmentation(stod: Stod, accept: Consumer, status: int, a: seq<string>, b: seq<string>)
    requires Sse.Concat(a) == Sse.Concat(b)
    ensures Stream(stod, accept, status, a) == Stream(stod, accept, status, b)
  {
    Sse.FeedAllIsOneFeed(Sse.Fresh(), a);
    Sse.FeedAllIsOneFeed(Sse.Fresh(), b);
  }

  /** With a success status it is the sink folded over the one-shot event sequence. */
  lemma StreamIsSinkOverBatch(stod: Stod, accept: Consumer, status: int, chunks: seq<string>)
    requires 200 <= status < 300
    ensures Stream(stod, accept, status, chunks) == SinkAll(stod, accept, Live(NEW_TURN), Sse.Batch(Sse.Concat(chunks)))
  {
    var parser := Sse.FeedAll(Sse.Fresh(), chunks);
    Sse.FragmentationInvariance(chunks);
    CloseExtends(parser.feed, parser.buffer);
    SinkAppend(stod, accept, Live(NEW_TURN), parser.feed.events, Sse.Close(parser.feed.(events := []), parser.buffer));
  }

  lemma CloseExtends(f: Sse.Feed, tail: string)
    ensures Sse.Close(f, tail) == f.events + Sse.Close(f.(events := []), tail)
  {
  }

  /** Nothing after the terminal marker has any effect, be it text, calls or malformed data. */
  lemma {:induction false} DoneFencesTheRest(stod: Stod, accept: Consumer, turn: Turn, events: seq<string>)
    requires turn.done
    ensures SinkAll(stod, accept, Live(turn), events) == Live(turn)
    decreases |events|
  {
    if events != [] {
      DoneFencesTheRest(stod, accept, turn, events[1..]);
    }
  }

  lemma MarkerEndsTheTurn(stod: Stod, accept: Consumer, before: seq<string>, after: seq<string>)
    ensures SinkAll(stod, accept, Live(NEW_TURN), before + (["[DONE]"] + after))
            == SinkAll(stod, accept, Live(NEW_TURN), before + ["[DONE]"])
  {
    var p := SinkAll(stod, accept, Live(NEW_TURN), before);
    SinkAppend(stod, accept, Live(NEW_TURN), before, ["[DONE]"] + after);
    SinkAppend(stod, accept, Live(NEW_TURN), before, ["[DONE]"]);
    SinkAppend(stod, accept, p, ["[DONE]"], after);
    if p.Live? {
      var closed := Sink(stod, accept, p.turn, "[DONE]").turn;
      assert SinkAll(stod, accept, p, ["[DONE]"]) == Live(closed);
      DoneFencesTheRest(stod, accept, closed, after);
    }
  }

  /** Reference: the fragments carried by an event. */
  function EventFragments(stod: Stod, event: string): seq<Fragment> {
    var root := Parse(stod, event);
    if root.Err? || DeltaOf(root.value).Throws? || DeltaOf(root.value).value.None? then []
    else
      var calls := Find(DeltaOf(root.value).value.value, "tool_calls");
      if calls.Some? && calls.value.JArr? then FragmentsOf(calls.value.items) else []
  }

  /** Reference: the delta text carried by an event, unless it is empty. */
  function EventTexts(stod: Stod, event: string): seq<string> {
    var root := Parse(stod, event);
    if root.Err? || DeltaOf(root.value).Throws? || DeltaOf(root.value).value.None? then []
    else
      var text := TextOf(Find(DeltaOf(root.value).value.value, "content"));
      if text == "" then [] else [text]
  }

  /** Reference: the non-empty delta texts of all events before the terminal marker. */
  function TextsUntilDone(stod: Stod, events: seq<string>): seq<string> {
    if events == [] || events[0] == "[DONE]" then []
    else EventTexts(stod, events[0]) + TextsUntilDone(stod, events[1..])
  }

  /** Reference: the fragments of all events before the terminal marker. */
  function FragmentsUntilDone(stod: Stod, events: seq<string>): seq<Fragment> {
    if events == [] || events[0] == "[DONE]" then []
    else EventFragments(stod, events[0]) + FragmentsUntilDone(stod, events[1..])
  }

  lemma SinkStep(stod: Stod, accept: Consumer, turn: Turn, event: string)
    requires !turn.done && turn.text == Sse.Concat(turn.deltas) && Sink(stod, accept, turn, event).Live?
    ensures var next := Sink(stod, accept, turn, event).turn;
            && next.text == Sse.Concat(next.deltas)
            && next.deltas == (if event == "[DONE]" then turn.deltas else turn.deltas + EventTexts(stod, event))
            && next.done == (event == "[DONE]")
            && next.calls == (if event == "[DONE]" then turn.calls else AddAll(turn.calls, EventFragments(stod, event)))
  {
    var next := Sink(stod, accept, turn, event).turn;
    assert turn.deltas + [] == turn.deltas;
    if next.deltas != turn.deltas {
      ConcatLast(turn.deltas, next.deltas[|turn.deltas|]);
    }
  }

  lemma {:induction false} ConcatLast(chunks: seq<string>, last: string)
    ensures Sse.Concat(chunks + [last]) == Sse.Concat(chunks) + last
  {
    if chunks == [] {
      assert chunks + [last] == [last];
    } else {
      assert (chunks + [last])[1..] == chunks[1..] + [last];
      ConcatLast(chunks[1..], last);
    }
  }

  /** A finished stream holds exactly what its events say: the deltas are the texts before the marker,
      the text is their concatenation, the calls come from all fragments before the marker, and it is
      complete iff the marker was among the events. */
  lemma {:induction false} TurnFromEvents(stod: Stod, accept: Consumer, turn: Turn, events: seq<string>)
    requires !turn.done && turn.text == Sse.Concat(turn.deltas)
    requires SinkAll(stod, accept, Live(turn), events).Live?
    ensures var end := SinkAll(stod, accept, Live(turn), events).turn;
            && end.text == Sse.Concat(end.deltas) && end.deltas == turn.deltas + TextsUntilDone(stod, events)
            && end.calls == AddAll(turn.calls, FragmentsUntilDone(stod, events))
            && (end.done <==> "[DONE]" in events)
    decreases |events|
  {
    if events != [] {
      assert events == [events[0]] + events[1..];
      var next := Sink(stod, accept, turn, events[0]);
      if next.Live? {
        SinkStep(stod, accept, turn, events[0]);
        if next.turn.done {
          DoneFencesTheRest(stod, accept, next.turn, events[1..]);
        } else {
          TurnFromEvents(stod, accept, next.turn, events[1..]);
          AddAllAppend(turn.calls, EventFragments(stod, events[0]), FragmentsUntilDone(stod, events[1..]));
          Regroup(turn.deltas, EventTexts(stod, events[0]), TextsUntilDone(stod, events[1..]));
        }
      }
    }
  }

  /** End to end, for every partition of the body: the consumer was given exactly the non-empty content
      texts that precede the marker, each tool call is the per-index concatenation of the fragments that
      precede it, and the turn is complete iff it arrived. */
  lemma StreamedCalls(stod: Stod, accept: Consumer, status: int, chunks: seq<string>, i: nat)
    requires 200 <= status < 300 && Stream(stod, accept, status, chunks).Live?
    ensures var turn := Stream(stod, accept, status, chunks).turn;
            var events := Sse.Batch(Sse.Concat(chunks));
            && |turn.calls| == CallCount(FragmentsUntilDone(stod, events))
            && CallAt(turn.calls, i) == Gathered(FragmentsUntilDone(stod, events), i)
            && turn.deltas == TextsUntilDone(stod, events) && turn.text == Sse.Concat(turn.deltas)
            && (turn.done <==> "[DONE]" in events)
  {
    StreamIsSinkOverBatch(stod, accept, status, chunks);
    var events := Sse.Batch(Sse.Concat(chunks));
    TurnFromEvents(stod, accept, NEW_TURN, events);
    ReassembledPerIndex(FragmentsUntilDone(stod, events), i);
  }

  // ---------------------------------------------------------------- what an event says, field by field

  /** A string field of an object; a missing field, or one that is no string, is empty. */
  function FieldText(j: Json, key: string): string {
    if j.JObj? && key in j.fields && j.fields[key].JStr? then j.fields[key].text else ""
  }

  /** A field of an object that is an object itself. */
  function FieldObject(j: Json, key: string): Json {
    if j.JObj? && key in j.fields then j.fields[key] else JNull
  }

  /** The index of an entry of `tool_calls`: a number that is not negative, cut to a whole one, or 0. */
  function IndexField(item: Json): nat {
    if item.JObj? && "index" in item.fields && item.fields["index"].JNum? && item.fields["index"].number >= 0.0
    then item.fields["index"].number.Floor
    else 0
  }

  /** A call as it is spelled out by the entries of `tool_calls` that carry its index. */
  function Spelled(call: ToolCall, items: seq<Json>, i: nat): ToolCall
    decreases |items|
  {
    if items == [] then call
    else
      var last := items[|items| - 1];
      var so := Spelled(call, items[..|items| - 1], i);
      if IndexField(last) != i then so
      else
        ToolCall(so.id + FieldText(last, "id"),
                 so.name + FieldText(FieldObject(last, "function"), "name"),
                 so.arguments + FieldText(FieldObject(last, "function"), "arguments"))
  }

  /** The `delta` of the first choice of an event, written out. */
  predicate HasDelta(root: Json, delta: Json) {
    && root.JObj? && "choices" in root.fields && root.fields["choices"].JArr? && root.fields["choices"].items != []
    && root.fields["choices"].items[0].JObj? && "delta" in root.fields["choices"].items[0].fields
    && delta == root.fields["choices"].items[0].fields["delta"]
  }

  lemma {:induction false} FragmentsSpell(calls: seq<ToolCall>, items: seq<Json>, i: nat)
    ensures CallAt(AddAll(calls, FragmentsOf(items)), i) == Spelled(CallAt(calls, i), items, i)
    decreases |items|
  {
    var fs := FragmentsOf(items);
    if items != [] {
      var init, last := items[..|items| - 1], items[|items| - 1];
      FragmentsSpell(calls, init, i);
      assert fs == FragmentsOf(init) + [FragmentOf(last)];
      AddAllAppend(calls, FragmentsOf(init), [FragmentOf(last)]);
      assert AddAll(AddAll(calls, FragmentsOf(init)), [FragmentOf(last)]) == AddFragment(AddAll(calls, FragmentsOf(init)), FragmentOf(last));
      OneSpelled(AddAll(calls, FragmentsOf(init)), last, i);
    }
  }

  lemma OneSpelled(calls: seq<ToolCall>, item: Json, i: nat)
    ensures var call := CallAt(calls, i);
            CallAt(AddFragment(calls, FragmentOf(item)), i)
            == if IndexField(item) != i then call
               else ToolCall(call.id + FieldText(item, "id"),
                             call.name + FieldText(FieldObject(item, "function"), "name"),
                             call.arguments + FieldText(FieldObject(item, "function"), "arguments"))
  {
  }

  /** What one event does, in terms of its JSON fields: a non-empty `content` of the delta is handed on
      and appended to the text, and each entry of `tool_calls` appends its `id`, its function's `name`
      and its function's `arguments` to the call with its `index`; what is missing or no string appends
      nothing. */
  lemma EventIsRead(stod: Stod, accept: Consumer, turn: Turn, event: string, delta: Json)
    requires !turn.done && event != "[DONE]" && Parse(stod, event).Ok? && HasDelta(Parse(stod, event).value, delta)
    requires Sink(stod, accept, turn, event).Live?
    ensures var next := Sink(stod, accept, turn, event).turn;
            var text := FieldText(delta, "content");
            && !next.done && next.text == turn.text + text
            && next.deltas == (if text == "" then turn.deltas else turn.deltas + [text])
            && (forall i: nat :: CallAt(next.calls, i)
                  == if FieldObject(delta, "tool_calls").JArr? then Spelled(CallAt(turn.calls, i), FieldObject(delta, "tool_calls").items, i)
                     else CallAt(turn.calls, i))
  {
    var next := Sink(stod, accept, turn, event).turn;
    var calls := FieldObject(delta, "tool_calls");
    assert turn.text + "" == turn.text;
    forall i: nat
      ensures CallAt(next.calls, i) == if calls.JArr? then Spelled(CallAt(turn.calls, i), calls.items, i) else CallAt(turn.calls, i)
    {
      if calls.JArr? { FragmentsSpell(turn.calls, calls.items, i); }
    }
  }

  /** An event without a delta says nothing. */
  lemma EventWithoutDelta(stod: Stod, accept: Consumer, turn: Turn, event: string)
    requires !turn.done && event != "[DONE]" && Parse(stod, event).Ok? && Sink(stod, accept, turn, event).Live?
    requires forall delta :: !HasDelta(Parse(stod, event).value, delta)
    ensures Sink(stod, accept, turn, event).turn == turn
  {
    var root := Parse(stod, event).value;
    if root.JObj? && "choices" in root.fields && root.fields["choices"].JArr? && root.fields["choices"].items != []
       && root.fields["choices"].items[0].JObj? && "delta" in root.fields["choices"].items[0].fields
    {
      assert HasDelta(root, root.fields["choices"].items[0].fields["delta"]);
    }
  }

  /** A single call that comes whole is read as it is. */
  lemma WholeCallIsRead(stod: Stod, accept: Consumer, turn: Turn, event: string, delta: Json, item: Json, call: ToolCall)
    requires !turn.done && event != "[DONE]" && Parse(stod, event).Ok? && HasDelta(Parse(stod, event).value, delta)
    requires Sink(stod, accept, turn, event).Live? && IndexField(item) >= |turn.calls|
    requires FieldObject(delta, "tool_calls") == JArr([item]) && FieldText(item, "id") == call.id
    requires FieldText(FieldObject(item, "function"), "name") == call.name
    requires FieldText(FieldObject(item, "function"), "arguments") == call.arguments
    ensures CallAt(Sink(stod, accept, turn, event).turn.calls, IndexField(item)) == call
  {
    EventIsRead(stod, accept, turn, event, delta);
    SpelledWhole(turn.calls, item, call);
  }

  lemma SpelledWhole(calls: seq<ToolCall>, item: Json, call: ToolCall)
    requires IndexField(item) >= |calls| && FieldText(item, "id") == call.id
    requires FieldText(FieldObject(item, "function"), "name") == call.name
    requires FieldText(FieldObject(item, "function"), "arguments") == call.arguments
    ensures Spelled(CallAt(calls, IndexField(item)), [item], IndexField(item)) == call
  {
    assert [item][..0] == [];
    assert Spelled(NO_CALL, [], IndexField(item)) == NO_CALL;
  }

  // ---------------------------------------------------------------- the sink object

  /** The variables the sink closure captures. */
  class TurnBuilder {
    var text: string
    var deltas: seq<string>
    var calls: seq<ToolCall>
    var done: bool

    ghost function Model(): Turn
      reads this
    {
      Turn(text, deltas, calls, done)
    }

    constructor ()
      ensures Model() == NEW_TURN
    {
      text, deltas, calls, done := "", [], [], false;
    }

    method AddCalls(items: seq<Json>)
      modifies this`calls
      ensures calls == AddAll(old(calls), FragmentsOf(items))
    {
      var fs := FragmentsOf(items);
      var k := 0;
      while k < |items|
        invariant 0 <= k <= |items|
        invariant AddAll(calls, fs[k..]) == AddAll(old(calls), fs)
      {
        assert fs[k..][1..] == fs[k + 1..];
        var f := FragmentOf(items[k]);
        ghost var added := AddFragment(calls, f);
        if |calls| <= f.index {
          calls := calls + seq(f.index + 1 - |calls|, i => NO_CALL);
        }
        var call := calls[f.index];
        calls := calls[f.index := ToolCall(call.id + f.id, call.name + f.name, call.arguments + f.arguments)];
        assert calls == added;
        k := k + 1;
      }
      assert fs[k..] == [];
    }

    /** Handles one event; a refusal leaves the deltas already given to the consumer. */
    method OnEvent(stod: Stod, accept: Consumer, event: string) returns (r: Result<bool>)
      modifies this
      ensures match Sink(stod, accept, old(Model()), event)
              case Live(turn) => r.Done? && Model() == turn
              case Broken(given, reason) => r == Throws(reason) && deltas == given
    {
      if done { return Done(true); }
      if event == "[DONE]" {
        done := true;
        return Done(true);
      }
      var root := Parse(stod, event);
      if root.Err? { return Throws(root.reason); }
      var delta := DeltaOf(root.value);
      if delta.Throws? { return Throws(delta.reason); }
      if delta.value.None? { return Done(true); }
      var piece := TextOf(Find(delta.value.value, "content"));
      if piece != "" {
        text := text + piece;
        deltas := deltas + [piece];
        if !accept(deltas) { return Throws("LLM stream consumer stopped"); }
      }
      var listed := Find(delta.value.value, "tool_calls");
      if listed.Some? {
        if !listed.value.JArr? { return Throws("expected JSON array"); }
        AddCalls(listed.value.items);
      }
      return Done(true);
    }
  }
}

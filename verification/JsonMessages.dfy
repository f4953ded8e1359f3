/** Compact documents, the request printer for chat messages, and the proof that the reader
    inverts both. */
module JsonMessages {
  import opened Common
  import opened Json

  /** The documents the program prints: strings, arrays and objects without blanks. */
  datatype Doc = DStr(text: string) | DArr(items: seq<Doc>) | DObj(members: seq<Member>)
  datatype Member = Member(key: string, value: Doc)

  function ToJson(d: Doc): Json {
    match d
    case DStr(text) => JStr(text)
    case DArr(items) => JArr(ItemsJson(items))
    case DObj(members) => JObj(FieldsJson(members, map[]))
  }

  function ItemsJson(items: seq<Doc>): (r: seq<Json>)
    ensures |r| == |items|
  {
    if items == [] then [] else [ToJson(items[0])] + ItemsJson(items[1..])
  }

  function FieldsJson(members: seq<Member>, fields: map<string, Json>): map<string, Json> {
    if members == [] then fields
    else FieldsJson(members[1..], Emplace(fields, members[0].key, ToJson(members[0].value)))
  }

  // ---------------------------------------------------------------- printing

  function Quote(s: string): string { "\"" + LogEscape(s) + "\"" }

  function Print(d: Doc): string {
    match d
    case DStr(text) => Quote(text)
    case DArr(items) => "[" + PrintItems(items) + "]"
    case DObj(members) => "{" + PrintMembers(members) + "}"
  }

  function PrintItems(items: seq<Doc>): string {
    if items == [] then ""
    else if |items| == 1 then Print(items[0])
    else Print(items[0]) + "," + PrintItems(items[1..])
  }

  function PrintMember(m: Member): string { Quote(m.key) + ":" + Print(m.value) }

  function PrintMembers(members: seq<Member>): string {
    if members == [] then ""
    else if |members| == 1 then PrintMember(members[0])
    else PrintMember(members[0]) + "," + PrintMembers(members[1..])
  }

  /** Printing in front of a continuation: the same text, grouped as the reader consumes it. */
  function PrintTo(d: Doc, rest: string): string {
    match d
    case DStr(text) => "\"" + LogQuoted(text, rest)
    case DArr(items) => "[" + ItemsTo(items, rest)
    case DObj(members) => "{" + MembersTo(members, rest)
  }

  function ItemsTo(items: seq<Doc>, rest: string): string {
    if items == [] then "]" + rest
    else PrintTo(items[0], if |items| == 1 then "]" + rest else "," + ItemsTo(items[1..], rest))
  }

  function MembersTo(members: seq<Member>, rest: string): string {
    if members == [] then "}" + rest
    else
      "\"" + LogQuoted(members[0].key,
        ":" + PrintTo(members[0].value, if |members| == 1 then "}" + rest else "," + MembersTo(members[1..], rest)))
  }

  lemma {:induction false} PrintToText(d: Doc, rest: string)
    ensures PrintTo(d, rest) == Print(d) + rest
    decreases d, 1
  {
    match d
    case DStr(text) => LogQuotedText(text, rest);
    case DArr(items) =>
      ItemsToText(items, rest);
      assert "[" + (PrintItems(items) + "]" + rest) == Print(d) + rest;
    case DObj(members) =>
      MembersToText(members, rest);
      assert "{" + (PrintMembers(members) + "}" + rest) == Print(d) + rest;
  }

  lemma {:induction false} ItemsToText(items: seq<Doc>, rest: string)
    ensures ItemsTo(items, rest) == PrintItems(items) + "]" + rest
    decreases items, 0
  {
    if items != [] {
      var after := if |items| == 1 then "]" + rest else "," + ItemsTo(items[1..], rest);
      PrintToText(items[0], after);
      if |items| > 1 {
        ItemsToText(items[1..], rest);
        RegroupFour(Print(items[0]), ",", PrintItems(items[1..]), "]" + rest);
      }
    }
  }

  lemma {:induction false} MembersToText(members: seq<Member>, rest: string)
    ensures MembersTo(members, rest) == PrintMembers(members) + "}" + rest
    decreases members, 0
  {
    if members != [] {
      var after := if |members| == 1 then "}" + rest else "," + MembersTo(members[1..], rest);
      PrintToText(members[0].value, after);
      MemberText(members[0], after);
      if |members| > 1 {
        MembersToText(members[1..], rest);
        RegroupFour(PrintMember(members[0]), ",", PrintMembers(members[1..]), "}" + rest);
      }
    }
  }

  lemma MemberText(m: Member, after: string)
    ensures "\"" + LogQuoted(m.key, ":" + (Print(m.value) + after)) == PrintMember(m) + after
  {
    LogQuotedText(m.key, ":" + (Print(m.value) + after));
    MemberGlue("\"", LogEscape(m.key), ":", Print(m.value), after);
  }

  lemma MemberGlue(quote: string, key: string, colon: string, value: string, after: string)
    ensures quote + (key + quote + (colon + (value + after))) == quote + key + quote + colon + value + after
  {
  }

  lemma RegroupFour(a: string, b: string, c: string, d: string)
    ensures a + (b + (c + d)) == a + b + c + d
  {
  }

  // ---------------------------------------------------------------- the reader inverts the printer

  /** Every document is read back exactly, leaving exactly what follows it. */
  lemma {:induction false} DocReadsBack(stod: Stod, d: Doc, rest: string)
    ensures Value(stod, PrintTo(d, rest)) == Ok(ToJson(d), rest)
    decreases d, 1
  {
    var s := PrintTo(d, rest);
    assert DropSpaces(s) == s;
    match d
    case DStr(text) =>
      assert s[1..] == LogQuoted(text, rest);
      LogQuotedReadsBack(text, rest, "");
      assert "" + text == text;
    case DArr(items) =>
      assert s[1..] == ItemsTo(items, rest);
      if items == [] {
        assert ("]" + rest)[1..] == rest;
      } else {
        ItemsReadBack(stod, items, rest, []);
        ItemsStart(items, rest);
        assert [] + ItemsJson(items) == ItemsJson(items);
      }
    case DObj(members) =>
      assert s[1..] == MembersTo(members, rest);
      if members == [] {
        assert ("}" + rest)[1..] == rest;
      } else {
        MembersReadBack(stod, members, rest, map[]);
      }
  }

  lemma ItemsStart(items: seq<Doc>, rest: string)
    requires items != []
    ensures ItemsTo(items, rest) != "" && !IsSpace(ItemsTo(items, rest)[0]) && ItemsTo(items, rest)[0] != ']'
  {
  }

  lemma {:induction false} ItemsReadBack(stod: Stod, items: seq<Doc>, rest: string, acc: seq<Json>)
    requires items != []
    ensures Items(stod, ItemsTo(items, rest), acc) == Ok(JArr(acc + ItemsJson(items)), rest)
    decreases items, 0
  {
    var after := if |items| == 1 then "]" + rest else "," + ItemsTo(items[1..], rest);
    DocReadsBack(stod, items[0], after);
    assert DropSpaces(after) == after;
    if |items| == 1 {
      assert after[1..] == rest;
      assert ItemsJson(items) == [ToJson(items[0])];
    } else {
      assert after[1..] == ItemsTo(items[1..], rest);
      ItemsReadBack(stod, items[1..], rest, acc + [ToJson(items[0])]);
      assert acc + [ToJson(items[0])] + ItemsJson(items[1..]) == acc + ItemsJson(items);
    }
  }

  lemma {:induction false} MembersReadBack(stod: Stod, members: seq<Member>, rest: string, fields: map<string, Json>)
    requires members != []
    ensures Members(stod, MembersTo(members, rest), fields) == Ok(JObj(FieldsJson(members, fields)), rest)
    decreases members, 0
  {
    var after := if |members| == 1 then "}" + rest else "," + MembersTo(members[1..], rest);
    KeyReadsBack(members[0].key, PrintTo(members[0].value, after));
    DocReadsBack(stod, members[0].value, after);
    assert DropSpaces(after) == after;
    if |members| == 1 {
      assert after[1..] == rest;
    } else {
      assert after[1..] == MembersTo(members[1..], rest);
      MembersReadBack(stod, members[1..], rest, Emplace(fields, members[0].key, ToJson(members[0].value)));
    }
  }

  lemma KeyReadsBack(key: string, rest: string)
    ensures Key("\"" + LogQuoted(key, ":" + rest)) == Ok(key, rest)
  {
    var s := "\"" + LogQuoted(key, ":" + rest);
    assert DropSpaces(s) == s && s[1..] == LogQuoted(key, ":" + rest);
    LogQuotedReadsBack(key, ":" + rest, "");
    assert "" + key == key && DropSpaces(":" + rest) == ":" + rest && (":" + rest)[1..] == rest;
  }

  /** The whole reader inverts the printer: it succeeds and consumes all input. */
  lemma ParsePrint(stod: Stod, d: Doc)
    ensures Parse(stod, Print(d)) == Ok(ToJson(d), "")
  {
    DocReadsBack(stod, d, "");
    PrintToText(d, "");
    assert Print(d) + "" == Print(d);
  }

  // ---------------------------------------------------------------- chat messages

  datatype Role = System | User | Assistant | Tool
  datatype ToolCall = ToolCall(id: string, name: string, arguments: string)
  datatype Message = Message(role: Role, content: string, name: string, toolCalls: seq<ToolCall>, toolCallId: string)

  function RoleName(role: Role): string {
    match role
    case System => "system"
    case User => "user"
    case Assistant => "assistant"
    case Tool => "tool"
  }

  function Then(a: Option<string>, b: Option<string>): Option<string> {
    if a.Some? && b.Some? then Some(a.value + b.value) else None
  }

  /** `"key":body` with a key that needs no escape. */
  function Raw(key: string, body: string): string { "\"" + key + "\":" + body }

  /** `"key":"escaped text"`; the escape may throw. */
  function Field(key: string, text: string): Option<string> {
    var e := Escape(text);
    if e.Some? then Some(Raw(key, "\"" + e.value + "\"")) else None
  }

  function CallJson(call: ToolCall): Option<string> {
    var id, name, arguments := Field("id", call.id), Field("name", call.name), Field("arguments", call.arguments);
    if id.None? || name.None? || arguments.None? then None
    else
      var inner := Raw("function", "{" + (name.value + "," + arguments.value) + "}");
      Some("{" + (id.value + "," + Raw("type", "\"" + "function" + "\"") + "," + inner) + "}")
  }

  function CallsJson(calls: seq<ToolCall>): Option<string> {
    if calls == [] then Some("")
    else if |calls| == 1 then CallJson(calls[0])
    else Then(Then(CallJson(calls[0]), Some(",")), CallsJson(calls[1..]))
  }

  /** The members of a printed message, without its braces. */
  function MessageFields(m: Message): Option<string> {
    var s0 := Some(Raw("role", "\"" + RoleName(m.role) + "\""));
    var s1 := if m.role.Tool? then Then(Then(s0, Some(",")), Field("tool_call_id", m.toolCallId)) else s0;
    var s2 := Then(Then(s1, Some(",")), Field("content", m.content));
    var calls := CallsJson(m.toolCalls);
    if m.toolCalls == [] then s2
    else if calls.None? then None
    else Then(Then(s2, Some(",")), Some(Raw("tool_calls", "[" + calls.value + "]")))
  }

  function MessageJson(m: Message): Option<string> {
    var fields := MessageFields(m);
    if fields.Some? then Some("{" + fields.value + "}") else None
  }

  /** The document a message denotes. */
  function CallDoc(call: ToolCall): Doc {
    DObj([Member("id", DStr(call.id)), Member("type", DStr("function")),
          Member("function", DObj([Member("name", DStr(call.name)), Member("arguments", DStr(call.arguments))]))])
  }

  function CallDocs(calls: seq<ToolCall>): (r: seq<Doc>)
    ensures |r| == |calls|
  {
    if calls == [] then [] else [CallDoc(calls[0])] + CallDocs(calls[1..])
  }

  function MessageDoc(m: Message): Doc {
    var ms0 := [Member("role", DStr(RoleName(m.role)))];
    var ms1 := if m.role.Tool? then ms0 + [Member("tool_call_id", DStr(m.toolCallId))] else ms0;
    var ms2 := ms1 + [Member("content", DStr(m.content))];
    DObj(if m.toolCalls == [] then ms2 else ms2 + [Member("tool_calls", DArr(CallDocs(m.toolCalls)))])
  }

  /** The strings that reach the printed text; a tool call id is printed for tool messages only. */
  predicate PrintableCall(call: ToolCall) {
    Printable(call.id) && Printable(call.name) && Printable(call.arguments)
  }

  predicate PrintableMessage(m: Message) {
    && Printable(m.content)
    && (m.role.Tool? ==> Printable(m.toolCallId))
    && forall i :: 0 <= i < |m.toolCalls| ==> PrintableCall(m.toolCalls[i])
  }

  predicate Plain(s: string) {
    forall i :: 0 <= i < |s| ==> s[i] as int >= 0x20 && s[i] != '"' && s[i] != '\\'
  }

  lemma {:induction false} PlainEscapes(s: string)
    requires Plain(s)
    ensures LogEscape(s) == s
  {
    if s != "" {
      PlainEscapes(s[1..]);
    }
  }

  lemma RawText(m: Member)
    requires Plain(m.key)
    ensures PrintMember(m) == Raw(m.key, Print(m.value))
  {
    PlainEscapes(m.key);
    RawGlue(m.key, Print(m.value));
  }

  lemma RawGlue(key: string, body: string)
    ensures "\"" + key + "\"" + ":" + body == "\"" + key + "\":" + body
  {
    assert "\":" == "\"" + ":";
  }

  lemma FieldText(key: string, text: string)
    requires Plain(key)
    ensures Field(key, text).Some? <==> Printable(text)
    ensures Field(key, text).Some? ==> Field(key, text).value == PrintMember(Member(key, DStr(text)))
  {
    EscapeAgrees(text);
    RawText(Member(key, DStr(text)));
  }

  lemma {:induction false} MembersSnoc(members: seq<Member>, m: Member)
    ensures PrintMembers(members + [m])
            == if members == [] then PrintMember(m) else PrintMembers(members) + "," + PrintMember(m)
  {
    if |members| > 0 {
      MembersSnoc(members[1..], m);
      assert (members + [m])[1..] == members[1..] + [m];
      if |members| > 1 {
        RegroupFour(PrintMember(members[0]), ",", PrintMembers(members[1..]), "," + PrintMember(m));
        RegroupFour(PrintMembers(members), ",", PrintMember(m), "");
      }
    }
  }

  lemma PrintTwo(a: Member, b: Member)
    ensures PrintMembers([a, b]) == PrintMember(a) + "," + PrintMember(b)
  {
    MembersSnoc([a], b);
    assert [a] + [b] == [a, b];
  }

  lemma PrintThree(a: Member, b: Member, c: Member)
    ensures PrintMembers([a, b, c]) == PrintMember(a) + "," + PrintMember(b) + "," + PrintMember(c)
  {
    PrintTwo(a, b);
    MembersSnoc([a, b], c);
    assert [a, b] + [c] == [a, b, c];
  }

  lemma WordText(key: string, word: string)
    requires Plain(key) && Plain(word)
    ensures PrintMember(Member(key, DStr(word))) == Raw(key, "\"" + word + "\"")
  {
    RawText(Member(key, DStr(word)));
    PlainEscapes(word);
  }

  lemma KeysArePlain()
    ensures Plain("id") && Plain("type") && Plain("function") && Plain("name") && Plain("arguments")
    ensures Plain("role") && Plain("tool_call_id") && Plain("content") && Plain("tool_calls")
    ensures forall role :: Plain(RoleName(role))
  {
  }

  lemma CallText(call: ToolCall)
    ensures CallJson(call).Some? <==> PrintableCall(call)
    ensures CallJson(call).Some? ==> CallJson(call).value == Print(CallDoc(call))
  {
    KeysArePlain();
    CallTextFor("id", "type", "function", "name", "arguments", call);
  }

  lemma CallTextFor(kId: string, kType: string, kFunction: string, kName: string, kArguments: string, call: ToolCall)
    requires Plain(kId) && Plain(kType) && Plain(kFunction) && Plain(kName) && Plain(kArguments)
    ensures Field(kId, call.id).Some? <==> Printable(call.id)
    ensures Field(kName, call.name).Some? <==> Printable(call.name)
    ensures Field(kArguments, call.arguments).Some? <==> Printable(call.arguments)
    ensures PrintableCall(call) ==>
      Print(DObj([Member(kId, DStr(call.id)), Member(kType, DStr(kFunction)),
                  Member(kFunction, DObj([Member(kName, DStr(call.name)), Member(kArguments, DStr(call.arguments))]))]))
      == "{" + (Field(kId, call.id).value + "," + Raw(kType, "\"" + kFunction + "\"") + ","
                + Raw(kFunction, "{" + (Field(kName, call.name).value + "," + Field(kArguments, call.arguments).value) + "}")) + "}"
  {
    FieldText(kId, call.id);
    FieldText(kName, call.name);
    FieldText(kArguments, call.arguments);
    var name, arguments := Member(kName, DStr(call.name)), Member(kArguments, DStr(call.arguments));
    var inner := Member(kFunction, DObj([name, arguments]));
    PrintTwo(name, arguments);
    RawText(inner);
    WordText(kType, kFunction);
    PrintThree(Member(kId, DStr(call.id)), Member(kType, DStr(kFunction)), inner);
  }

  lemma CallsText(calls: seq<ToolCall>)
    ensures CallsJson(calls).Some? <==> forall i :: 0 <= i < |calls| ==> PrintableCall(calls[i])
    ensures CallsJson(calls).Some? ==> CallsJson(calls).value == PrintItems(CallDocs(calls))
  {
    CallsPrinted(calls);
    if CallsJson(calls).Some? { CallsTextPrinted(calls); }
  }

  lemma {:induction false} CallsPrinted(calls: seq<ToolCall>)
    ensures CallsJson(calls).Some? <==> forall i :: 0 <= i < |calls| ==> PrintableCall(calls[i])
  {
    if calls != [] {
      CallText(calls[0]);
      FirstAndRest(calls);
      if |calls| > 1 { CallsPrinted(calls[1..]); }
    }
  }

  lemma {:induction false} CallsTextPrinted(calls: seq<ToolCall>)
    requires CallsJson(calls).Some?
    ensures CallsJson(calls).value == PrintItems(CallDocs(calls))
  {
    if calls != [] {
      CallText(calls[0]);
      if |calls| == 1 {
        assert CallDocs(calls) == [CallDoc(calls[0])];
      } else {
        CallsTextPrinted(calls[1..]);
        assert CallDocs(calls)[1..] == CallDocs(calls[1..]);
      }
    }
  }

  lemma FirstAndRest(calls: seq<ToolCall>)
    requires calls != []
    ensures (forall i :: 0 <= i < |calls| ==> PrintableCall(calls[i])) <==>
            PrintableCall(calls[0]) && forall i :: 0 <= i < |calls[1..]| ==> PrintableCall(calls[1..][i])
  {
    assert calls == [calls[0]] + calls[1..];
  }

  /** Appending one more string field keeps the text in step with the document. */
  lemma AppendField(text: Option<string>, members: seq<Member>, key: string, value: string)
    requires Plain(key) && members != [] && (text.Some? ==> text.value == PrintMembers(members))
    ensures Then(Then(text, Some(",")), Field(key, value)).Some? <==> text.Some? && Printable(value)
    ensures Then(Then(text, Some(",")), Field(key, value)).Some? ==>
              Then(Then(text, Some(",")), Field(key, value)).value == PrintMembers(members + [Member(key, DStr(value))])
  {
    FieldText(key, value);
    MembersSnoc(members, Member(key, DStr(value)));
  }

  lemma AppendCalls(text: Option<string>, members: seq<Member>, key: string, calls: seq<ToolCall>)
    requires Plain(key) && members != [] && (text.Some? ==> text.value == PrintMembers(members))
    requires CallsJson(calls).Some?
    ensures var all := Then(Then(text, Some(",")), Some(Raw(key, "[" + CallsJson(calls).value + "]")));
            all.Some? == text.Some? && (all.Some? ==> all.value == PrintMembers(members + [Member(key, DArr(CallDocs(calls)))]))
  {
    CallsText(calls);
    RawText(Member(key, DArr(CallDocs(calls))));
    MembersSnoc(members, Member(key, DArr(CallDocs(calls))));
  }

  /** The request printer refuses exactly the messages with an unprintable string, and otherwise
      prints the message's document. */
  lemma MessageText(m: Message)
    ensures MessageJson(m).Some? <==> PrintableMessage(m)
    ensures MessageJson(m).Some? ==> MessageJson(m).value == Print(MessageDoc(m))
  {
    KeysArePlain();
    MessageTextFor("role", "tool_call_id", "content", "tool_calls", m);
  }

  lemma MessageTextFor(kRole: string, kId: string, kContent: string, kCalls: string, m: Message)
    requires Plain(kRole) && Plain(kId) && Plain(kContent) && Plain(kCalls) && Plain(RoleName(m.role))
    ensures var s0 := Some(Raw(kRole, "\"" + RoleName(m.role) + "\""));
            var s1 := if m.role.Tool? then Then(Then(s0, Some(",")), Field(kId, m.toolCallId)) else s0;
            var s2 := Then(Then(s1, Some(",")), Field(kContent, m.content));
            var calls := CallsJson(m.toolCalls);
            var s3 := if m.toolCalls == [] then s2 else if calls.None? then None
                      else Then(Then(s2, Some(",")), Some(Raw(kCalls, "[" + calls.value + "]")));
            var ms0 := [Member(kRole, DStr(RoleName(m.role)))];
            var ms1 := if m.role.Tool? then ms0 + [Member(kId, DStr(m.toolCallId))] else ms0;
            var ms2 := ms1 + [Member(kContent, DStr(m.content))];
            var ms3 := if m.toolCalls == [] then ms2 else ms2 + [Member(kCalls, DArr(CallDocs(m.toolCalls)))];
            (s3.Some? <==> PrintableMessage(m)) && (s3.Some? ==> s3.value == PrintMembers(ms3))
  {
    var ms0 := [Member(kRole, DStr(RoleName(m.role)))];
    var s0 := Some(Raw(kRole, "\"" + RoleName(m.role) + "\""));
    WordText(kRole, RoleName(m.role));
    AppendField(s0, ms0, kId, m.toolCallId);
    var ms1 := if m.role.Tool? then ms0 + [Member(kId, DStr(m.toolCallId))] else ms0;
    var s1 := if m.role.Tool? then Then(Then(s0, Some(",")), Field(kId, m.toolCallId)) else s0;
    AppendField(s1, ms1, kContent, m.content);
    CallsText(m.toolCalls);
    if CallsJson(m.toolCalls).Some? {
      AppendCalls(Then(Then(s1, Some(",")), Field(kContent, m.content)), ms1 + [Member(kContent, DStr(m.content))], kCalls, m.toolCalls);
    }
  }

  // ---------------------------------------------------------------- reading a message

  function Find(j: Json, key: string): Option<Json> {
    if j.JObj? && key in j.fields then Some(j.fields[key]) else None
  }

  function StringOrEmpty(j: Json): string {
    if j.JStr? then j.text else ""
  }

  function At(j: Json, key: string): Result<Json> {
    if !j.JObj? then Throws("expected JSON object")
    else if key in j.fields then Done(j.fields[key])
    else Throws("missing JSON field: " + key)
  }

  /** One entry of a `tool_calls` array. */
  function ReadCall(j: Json): Result<ToolCall> {
    var function_ := At(j, "function");
    if function_.Throws? then Throws(function_.reason)
    else
      var id, name, arguments := At(j, "id"), At(function_.value, "name"), At(function_.value, "arguments");
      if id.Throws? then Throws(id.reason)
      else if name.Throws? then Throws(name.reason)
      else if arguments.Throws? then Throws(arguments.reason)
      else Done(ToolCall(StringOrEmpty(id.value), StringOrEmpty(name.value), StringOrEmpty(arguments.value)))
  }

  function ReadCalls(items: seq<Json>): Result<seq<ToolCall>> {
    if items == [] then Done([])
    else
      var first := ReadCall(items[0]);
      if first.Throws? then Throws(first.reason)
      else
        var tail := ReadCalls(items[1..]);
        if tail.Throws? then tail else Done([first.value] + tail.value)
  }

  datatype Reply = Reply(text: string, toolCalls: seq<ToolCall>)

  /** `choices[0].message` of a non-streaming response; only a missing `tool_calls` is forgiven. */
  function ReadReply(message: Json): Result<Reply> {
    var content := At(message, "content");
    if content.Throws? then Throws(content.reason)
    else
      var calls := At(message, "tool_calls");
      if calls.Throws? then Done(Reply(StringOrEmpty(content.value), []))
      else if !calls.value.JArr? then Throws("expected JSON array")
      else
        var read := ReadCalls(calls.value.items);
        if read.Throws? then Throws(read.reason) else Done(Reply(StringOrEmpty(content.value), read.value))
  }

  function ParseResponse(stod: Stod, status: int, body: string): Result<Reply> {
    if status < 200 || status >= 300 then Throws("LLM HTTP status")
    else
      var root := Parse(stod, body);
      if root.Err? then Throws(root.reason)
      else
        var choices := At(root.value, "choices");
        if choices.Throws? then Throws(choices.reason)
        else if !choices.value.JArr? then Throws("expected JSON array")
        else if choices.value.items == [] then Throws("LLM response has no choices")
        else
          var message := At(choices.value.items[0], "message");
          if message.Throws? then Throws(message.reason) else ReadReply(message.value)
  }

  /** The first member with a key decides its field. */
  lemma {:induction false} FieldAt(members: seq<Member>, fields: map<string, Json>, i: nat)
    requires i < |members| && members[i].key !in fields
    requires forall k :: 0 <= k < i ==> members[k].key != members[i].key
    ensures members[i].key in FieldsJson(members, fields)
    ensures FieldsJson(members, fields)[members[i].key] == ToJson(members[i].value)
  {
    var next := Emplace(fields, members[0].key, ToJson(members[0].value));
    if i == 0 {
      FieldKept(members[1..], next, members[0].key);
    } else {
      FieldAt(members[1..], next, i - 1);
    }
  }

  lemma {:induction false} FieldKept(members: seq<Member>, fields: map<string, Json>, key: string)
    requires key in fields
    ensures key in FieldsJson(members, fields) && FieldsJson(members, fields)[key] == fields[key]
  {
    if members != [] {
      FieldKept(members[1..], Emplace(fields, members[0].key, ToJson(members[0].value)), key);
    }
  }

  lemma {:induction false} FieldAbsent(members: seq<Member>, fields: map<string, Json>, key: string)
    requires key !in fields && forall k :: 0 <= k < |members| ==> members[k].key != key
    ensures key !in FieldsJson(members, fields)
  {
    if members != [] {
      FieldAbsent(members[1..], Emplace(fields, members[0].key, ToJson(members[0].value)), key);
    }
  }

  lemma CallDocReads(call: ToolCall)
    ensures ReadCall(ToJson(CallDoc(call))) == Done(call)
  {
    var outer := CallDoc(call).members;
    var inner := outer[2].value.members;
    FieldAt(outer, map[], 0);
    FieldAt(outer, map[], 2);
    FieldAt(inner, map[], 0);
    FieldAt(inner, map[], 1);
  }

  lemma {:induction false} CallDocsRead(calls: seq<ToolCall>)
    ensures ReadCalls(ItemsJson(CallDocs(calls))) == Done(calls)
  {
    if calls != [] {
      CallDocReads(calls[0]);
      CallDocsRead(calls[1..]);
      assert CallDocs(calls)[1..] == CallDocs(calls[1..]);
      assert ItemsJson(CallDocs(calls))[1..] == ItemsJson(CallDocs(calls[1..]));
      assert [calls[0]] + calls[1..] == calls;
    }
  }

  /** The fields of a message document. */
  lemma MessageDocFields(m: Message)
    ensures var j := ToJson(MessageDoc(m));
            && Find(j, "role") == Some(JStr(RoleName(m.role)))
            && Find(j, "content") == Some(JStr(m.content))
            && Find(j, "tool_call_id") == (if m.role.Tool? then Some(JStr(m.toolCallId)) else None)
            && Find(j, "tool_calls") == (if m.toolCalls == [] then None else Some(JArr(ItemsJson(CallDocs(m.toolCalls)))))
  {
    var ms := MessageDoc(m).members;
    var n := if m.role.Tool? then 2 else 1;
    FieldAt(ms, map[], 0);
    FieldAt(ms, map[], n);
    if m.role.Tool? { FieldAt(ms, map[], 1); } else { FieldAbsent(ms, map[], "tool_call_id"); }
    if m.toolCalls == [] { FieldAbsent(ms, map[], "tool_calls"); } else { FieldAt(ms, map[], n + 1); }
  }

  /** Printer and reader round trip: a message is printed exactly when it is printable, and then the
      printed text parses, is consumed entirely, and carries the message's role, content, tool call
      id (for tool messages) and tool calls. */
  lemma MessageRoundTrip(stod: Stod, m: Message)
    ensures MessageJson(m).Some? <==> PrintableMessage(m)
    ensures MessageJson(m).Some? ==>
      var parsed := Parse(stod, MessageJson(m).value);
      && parsed.Ok? && parsed.rest == ""
      && Find(parsed.value, "role") == Some(JStr(RoleName(m.role)))
      && Find(parsed.value, "tool_call_id") == (if m.role.Tool? then Some(JStr(m.toolCallId)) else None)
      && ReadReply(parsed.value) == Done(Reply(m.content, m.toolCalls))
  {
    MessageText(m);
    ParsePrint(stod, MessageDoc(m));
    MessageDocFields(m);
    CallDocsRead(m.toolCalls);
  }

  function ResponseDoc(m: Message): Doc {
    DObj([Member("choices", DArr([DObj([Member("message", MessageDoc(m))])]))])
  }

  /** A response that carries any message document is understood as that message. */
  lemma ResponseRoundTrip(stod: Stod, status: int, m: Message)
    requires 200 <= status < 300
    ensures ParseResponse(stod, status, Print(ResponseDoc(m))) == Done(Reply(m.content, m.toolCalls))
  {
    var d := ResponseDoc(m);
    ParsePrint(stod, d);
    FieldAt(d.members, map[], 0);
    var choice := d.members[0].value.items[0];
    FieldAt(choice.members, map[], 0);
    assert ItemsJson(d.members[0].value.items) == [ToJson(choice)];
    MessageDocFields(m);
    CallDocsRead(m.toolCalls);
  }
}

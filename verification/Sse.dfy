/** The incremental server-sent-event parser, and the proof that how the response bytes are cut
    into chunks does not matter. */
module Sse {
  import opened Common

  // ---------------------------------------------------------------- lines

  /** A text taken apart at its newlines: the terminated lines, and the tail after the last one. */
  datatype Lines = Lines(complete: seq<string>, tail: string)

  predicate OneLine(s: string) {
    forall k :: 0 <= k < |s| ==> s[k] != '\n'
  }

  /** Puts one character in front of a text already taken apart. */
  function Push(c: char, l: Lines): Lines {
    if c == '\n' then Lines([""] + l.complete, l.tail)
    else if l.complete == [] then Lines([], [c] + l.tail)
    else Lines([[c] + l.complete[0]] + l.complete[1..], l.tail)
  }

  function Split(s: string): Lines {
    if s == "" then Lines([], "") else Push(s[0], Split(s[1..]))
  }

  function Join(lines: seq<string>): string {
    if lines == [] then "" else lines[0] + "\n" + Join(lines[1..])
  }

  lemma PushJoins(c: char, l: Lines)
    ensures Join(Push(c, l).complete) + Push(c, l).tail == [c] + (Join(l.complete) + l.tail)
  {
    if c == '\n' {
      assert ([""] + l.complete)[1..] == l.complete;
      assert "" + "\n" + Join(l.complete) + l.tail == "\n" + (Join(l.complete) + l.tail);
    } else if l.complete == [] {
      assert Join([]) + ([c] + l.tail) == [c] + (Join([]) + l.tail);
    } else {
      var p := Push(c, l).complete;
      assert p[1..] == l.complete[1..];
      var more := Join(l.complete[1..]);
      assert ([c] + l.complete[0]) + "\n" + more + l.tail == [c] + (l.complete[0] + "\n" + more + l.tail);
    }
  }

  /** `Split` loses nothing and leaves no newline inside a line. */
  lemma {:induction false} SplitCutsAtNewlines(s: string)
    ensures Join(Split(s).complete) + Split(s).tail == s
    ensures OneLine(Split(s).tail)
    ensures forall i :: 0 <= i < |Split(s).complete| ==> OneLine(Split(s).complete[i])
  {
    if s != "" {
      SplitCutsAtNewlines(s[1..]);
      PushJoins(s[0], Split(s[1..]));
    }
  }

  lemma {:induction false} SplitOneLine(s: string)
    requires OneLine(s)
    ensures Split(s) == Lines([], s)
  {
    if s != "" {
      SplitOneLine(s[1..]);
    }
  }

  /** A text that starts with a terminated line splits into that line and the rest. */
  lemma {:induction false} SplitFirst(line: string, rest: string)
    requires OneLine(line)
    ensures Split(line + ("\n" + rest)) == Lines([line] + Split(rest).complete, Split(rest).tail)
  {
    var s := line + ("\n" + rest);
    if line == "" {
      assert s == "\n" + rest && s[1..] == rest;
    } else {
      assert s[1..] == line[1..] + ("\n" + rest);
      SplitFirst(line[1..], rest);
      assert [line[0]] + line[1..] == line;
    }
  }

  /** No other way to cut a text leaves lines without newlines. */
  lemma {:induction false} SplitIsUnique(lines: seq<string>, tail: string)
    requires OneLine(tail) && forall i :: 0 <= i < |lines| ==> OneLine(lines[i])
    ensures Split(Join(lines) + tail) == Lines(lines, tail)
    decreases |lines|
  {
    if lines == [] {
      SplitOneLine(tail);
      assert Join(lines) + tail == tail;
    } else {
      SplitIsUnique(lines[1..], tail);
      SplitFirst(lines[0], Join(lines[1..]) + tail);
      assert lines[0] + "\n" + Join(lines[1..]) + tail == lines[0] + ("\n" + (Join(lines[1..]) + tail));
      assert [lines[0]] + lines[1..] == lines;
    }
  }

  function Prepend(lines: seq<string>, l: Lines): Lines { Lines(lines + l.complete, l.tail) }

  lemma PushPrepend(c: char, l: Lines, m: Lines)
    requires c == '\n' || l.complete != []
    ensures Push(c, Prepend(l.complete, m)) == Prepend(Push(c, l).complete, m)
    ensures Push(c, l).tail == l.tail
  {
  }

  /** Splitting goes on from the tail when more text arrives. */
  lemma {:induction false} SplitAppend(a: string, b: string)
    ensures Split(a + b) == Prepend(Split(a).complete, Split(Split(a).tail + b))
  {
    if a == "" {
      assert a + b == b;
    } else {
      assert (a + b)[1..] == a[1..] + b;
      SplitAppend(a[1..], b);
      var l := Split(a[1..]);
      if a[0] == '\n' || l.complete != [] {
        PushPrepend(a[0], l, Split(l.tail + b));
      } else {
        PushOpen(a[0], l.tail, b);
      }
    }
  }

  lemma PushOpen(c: char, tail: string, b: string)
    requires c != '\n'
    ensures Split([c] + tail + b) == Push(c, Split(tail + b))
  {
    assert ([c] + tail + b)[1..] == tail + b;
  }

  function IndexOf(s: string, c: char): (n: nat)
    ensures n <= |s| && (n < |s| ==> s[n] == c)
  {
    if s == "" || s[0] == c then 0 else 1 + IndexOf(s[1..], c)
  }

  lemma {:induction false} BeforeNewline(s: string)
    ensures OneLine(s[..IndexOf(s, '\n')])
  {
    if s != "" && s[0] != '\n' {
      BeforeNewline(s[1..]);
      assert s[..IndexOf(s, '\n')] == [s[0]] + s[1..][..IndexOf(s[1..], '\n')];
    }
  }

  lemma SplitCut(s: string, n: nat)
    requires n < |s| && s[n] == '\n' && OneLine(s[..n])
    ensures Split(s) == Prepend([s[..n]], Split(s[n + 1..]))
  {
    SplitFirst(s[..n], s[n + 1..]);
    assert s == s[..n] + ("\n" + s[n + 1..]);
  }

  /** What one round of the line loop takes off the buffer. */
  lemma SplitAtIndex(s: string, n: nat)
    requires n == IndexOf(s, '\n')
    ensures Split(s) == if n == |s| then Lines([], s) else Prepend([s[..n]], Split(s[n + 1..]))
  {
    BeforeNewline(s);
    if n == |s| {
      assert s[..n] == s;
      SplitOneLine(s);
    } else {
      SplitCut(s, n);
    }
  }

  // ---------------------------------------------------------------- events

  /** The data collected for the next event, and the events dispatched so far. */
  datatype Feed = Feed(data: string, events: seq<string>)

  function StripReturn(line: string): string {
    if line != "" && line[|line| - 1] == '\r' then line[..|line| - 1] else line
  }

  function Dispatch(f: Feed): Feed {
    if f.data == "" then f else Feed("", f.events + [f.data])
  }

  function ProcessLine(f: Feed, line: string): Feed {
    if line == "" then Dispatch(f)
    else if !("data:" <= line) then f
    else
      var value := if |line| > 5 && line[5] == ' ' then line[6..] else line[5..];
      f.(data := (if f.data == "" then "" else f.data + "\n") + value)
  }

  function ProcessLines(f: Feed, lines: seq<string>): Feed
    decreases |lines|
  {
    if lines == [] then f else ProcessLines(ProcessLine(f, StripReturn(lines[0])), lines[1..])
  }

  lemma {:induction false} ProcessAppend(f: Feed, a: seq<string>, b: seq<string>)
    ensures ProcessLines(f, a + b) == ProcessLines(ProcessLines(f, a), b)
    decreases |a|
  {
    if a == [] {
      assert a + b == b;
    } else {
      assert (a + b)[1..] == a[1..] + b;
      ProcessAppend(ProcessLine(f, StripReturn(a[0])), a[1..], b);
    }
  }

  /** End of input processes an unterminated last line and dispatches what is collected. */
  function Close(f: Feed, tail: string): seq<string> {
    Dispatch(if tail == "" then f else ProcessLine(f, StripReturn(tail))).events
  }

  /** The one-shot parser: cut the whole body, process its lines, close. */
  function Batch(body: string): seq<string> {
    Close(ProcessLines(Feed("", []), Split(body).complete), Split(body).tail)
  }

  // ---------------------------------------------------------------- the incremental parser

  datatype Parser = Parser(buffer: string, feed: Feed)

  function Fresh(): Parser { Parser("", Feed("", [])) }

  function FeedBytes(p: Parser, bytes: string): Parser {
    var lines := Split(p.buffer + bytes);
    Parser(lines.tail, ProcessLines(p.feed, lines.complete))
  }

  function FeedAll(p: Parser, chunks: seq<string>): Parser
    decreases |chunks|
  {
    if chunks == [] then p else FeedAll(FeedBytes(p, chunks[0]), chunks[1..])
  }

  function Concat(chunks: seq<string>): string {
    if chunks == [] then "" else chunks[0] + Concat(chunks[1..])
  }

  /** Events dispatched for a response that arrives as `chunks`. */
  function Events(chunks: seq<string>): seq<string> {
    var p := FeedAll(Fresh(), chunks);
    Close(p.feed, p.buffer)
  }

  lemma {:induction false} FeedAllIsOneFeed(p: Parser, chunks: seq<string>)
    requires OneLine(p.buffer)
    ensures FeedAll(p, chunks) == FeedBytes(p, Concat(chunks))
    decreases |chunks|
  {
    if chunks == [] {
      assert p.buffer + "" == p.buffer;
      SplitOneLine(p.buffer);
    } else {
      var q := FeedBytes(p, chunks[0]);
      SplitCutsAtNewlines(p.buffer + chunks[0]);
      FeedAllIsOneFeed(q, chunks[1..]);
      SplitAppend(p.buffer + chunks[0], Concat(chunks[1..]));
      assert p.buffer + chunks[0] + Concat(chunks[1..]) == p.buffer + Concat(chunks);
      ProcessAppend(p.feed, Split(p.buffer + chunks[0]).complete, Split(q.buffer + Concat(chunks[1..])).complete);
    }
  }

  /** Fragmentation invariance: any partition of a body dispatches the one-shot event sequence. */
  lemma FragmentationInvariance(chunks: seq<string>)
    ensures Events(chunks) == Batch(Concat(chunks))
  {
    FeedAllIsOneFeed(Fresh(), chunks);
    assert "" + Concat(chunks) == Concat(chunks);
  }

  /** No event is empty: leading empty data lines vanish. */
  lemma {:induction false} EventsNotEmpty(f: Feed, lines: seq<string>)
    requires forall i :: 0 <= i < |f.events| ==> f.events[i] != ""
    ensures forall i :: 0 <= i < |ProcessLines(f, lines).events| ==> ProcessLines(f, lines).events[i] != ""
    decreases |lines|
  {
    if lines != [] {
      EventsNotEmpty(ProcessLine(f, StripReturn(lines[0])), lines[1..]);
    }
  }

  // ---------------------------------------------------------------- what a body means

  /** The lines of a body, carriage returns at their ends dropped; an unterminated last one counts. */
  function BodyLines(body: string): seq<string> {
    Stripped(Split(body).complete) + if Split(body).tail == "" then [] else [StripReturn(Split(body).tail)]
  }

  function Stripped(lines: seq<string>): seq<string> {
    if lines == [] then [] else [StripReturn(lines[0])] + Stripped(lines[1..])
  }

  /** What a data line carries: everything behind the colon, one blank in front dropped. */
  function DataOf(line: string): seq<string> {
    if |line| < 5 || line[..5] != "data:" then []
    else if |line| > 5 && line[5] == ' ' then [line[6..]]
    else [line[5..]]
  }

  function Values(lines: seq<string>): seq<string> {
    if lines == [] then [] else Values(lines[..|lines| - 1]) + DataOf(lines[|lines| - 1])
  }

  /** Without the empty values in front. */
  function FromFirst(values: seq<string>): seq<string> {
    if values != [] && values[0] == "" then FromFirst(values[1..]) else values
  }

  function JoinValues(values: seq<string>): string
    decreases |values|
  {
    if values == [] then ""
    else if |values| == 1 then values[0]
    else JoinValues(values[..|values| - 1]) + "\n" + values[|values| - 1]
  }

  /** The event of a block of lines, if it has one: its values, from the first that is not empty on,
      joined by newlines. */
  function BlockEvent(values: seq<string>): seq<string> {
    if FromFirst(values) == [] then [] else [JoinValues(FromFirst(values))]
  }

  /** How many lines come before the first empty one. */
  function UpToBlank(lines: seq<string>): (n: nat)
    ensures n <= |lines|
  {
    if lines == [] || lines[0] == "" then 0 else 1 + UpToBlank(lines[1..])
  }

  /** The events of a body: one for each block between empty lines that has data. */
  function BlockEvents(lines: seq<string>): seq<string>
    decreases |lines|
  {
    var n := UpToBlank(lines);
    BlockEvent(Values(lines[..n])) + if n < |lines| then BlockEvents(lines[n + 1..]) else []
  }

  function Run(f: Feed, lines: seq<string>): Feed
    decreases |lines|
  {
    if lines == [] then f else Run(ProcessLine(f, lines[0]), lines[1..])
  }

  lemma RunFirst(f: Feed, first: string, lines: seq<string>, more: seq<string>)
    ensures Run(f, [first] + lines + more) == Run(ProcessLine(f, first), lines + more)
  {
    assert ([first] + lines + more)[1..] == lines + more;
  }

  lemma {:induction false} ProcessIsRun(f: Feed, lines: seq<string>, more: seq<string>)
    ensures Run(f, Stripped(lines) + more) == Run(ProcessLines(f, lines), more)
    decreases |lines|
  {
    if lines == [] {
      assert [] + more == more;
    } else {
      var first := StripReturn(lines[0]);
      ProcessIsRun(ProcessLine(f, first), lines[1..], more);
      RunFirst(f, first, Stripped(lines[1..]), more);
    }
  }

  lemma {:induction false} FromFirstStarts(values: seq<string>)
    ensures FromFirst(values) != [] ==> FromFirst(values)[0] != ""
    ensures FromFirst(values) == [] <==> forall i :: 0 <= i < |values| ==> values[i] == ""
  {
    if values != [] && values[0] == "" {
      FromFirstStarts(values[1..]);
      assert forall i :: 0 < i < |values| ==> values[i] == values[1..][i - 1];
    }
  }

  lemma {:induction false} FromFirstGrows(values: seq<string>, v: string)
    ensures FromFirst(values + [v]) == if FromFirst(values) == [] then (if v == "" then [] else [v]) else FromFirst(values) + [v]
  {
    if values == [] {
      assert [] + [v] == [v] && [v][1..] == [];
    } else if values[0] == "" {
      FromFirstGrows(values[1..], v);
      assert (values + [v])[1..] == values[1..] + [v];
    }
  }

  lemma {:induction false} JoinNotEmpty(values: seq<string>)
    requires values != [] && values[0] != ""
    ensures JoinValues(values) != ""
    decreases |values|
  {
  }

  /** One more value keeps the collected data the join of the values so far. */
  lemma DataGrows(values: seq<string>, v: string)
    ensures var data := JoinValues(FromFirst(values));
            (if data == "" then "" else data + "\n") + v == JoinValues(FromFirst(values + [v]))
  {
    FromFirstStarts(values);
    FromFirstGrows(values, v);
    var vs := FromFirst(values);
    if vs == [] {
      assert "" + v == v;
    } else {
      JoinNotEmpty(vs);
      assert (vs + [v])[..|vs|] == vs;
    }
  }

  lemma ValuesGrow(lines: seq<string>, line: string)
    ensures Values(lines + [line]) == Values(lines) + DataOf(line)
  {
    assert (lines + [line])[..|lines|] == lines;
  }

  lemma LineCollected(f: Feed, values: seq<string>, line: string)
    requires f.data == JoinValues(FromFirst(values)) && line != ""
    ensures ProcessLine(f, line) == Feed(JoinValues(FromFirst(values + DataOf(line))), f.events)
  {
    assert "data:" <= line <==> |line| >= 5 && line[..5] == "data:";
    if DataOf(line) == [] {
      assert values + [] == values;
    } else {
      DataGrows(values, DataOf(line)[0]);
    }
  }

  lemma BlockDispatched(f: Feed, values: seq<string>)
    requires f.data == JoinValues(FromFirst(values))
    ensures Dispatch(f) == Feed("", f.events + BlockEvent(values))
  {
    FromFirstStarts(values);
    if FromFirst(values) == [] {
      assert f.events + [] == f.events;
    } else {
      JoinNotEmpty(FromFirst(values));
    }
  }

  /** The events still to come in the middle of a block whose lines so far are `got`. */
  function EventsAfter(got: seq<string>, lines: seq<string>): seq<string> {
    var n := UpToBlank(lines);
    BlockEvent(Values(got + lines[..n])) + if n < |lines| then BlockEvents(lines[n + 1..]) else []
  }

  lemma AfterNothing(lines: seq<string>)
    ensures EventsAfter([], lines) == BlockEvents(lines)
  {
    assert [] + lines[..UpToBlank(lines)] == lines[..UpToBlank(lines)];
  }

  lemma AfterBlank(got: seq<string>, lines: seq<string>)
    requires lines != [] && lines[0] == ""
    ensures EventsAfter(got, lines) == BlockEvent(Values(got)) + BlockEvents(lines[1..])
  {
    assert got + lines[..0] == got;
  }

  lemma AfterData(got: seq<string>, lines: seq<string>)
    requires lines != [] && lines[0] != ""
    ensures EventsAfter(got, lines) == EventsAfter(got + [lines[0]], lines[1..])
  {
    var m := UpToBlank(lines[1..]);
    assert got + [lines[0]] + lines[1..][..m] == got + lines[..m + 1];
    if m + 1 < |lines| { assert lines[1..][m + 1..] == lines[m + 2..]; }
  }

  lemma {:induction false} RunMeans(f: Feed, got: seq<string>, lines: seq<string>)
    requires f.data == JoinValues(FromFirst(Values(got)))
    ensures Dispatch(Run(f, lines)).events == f.events + EventsAfter(got, lines)
    decreases |lines|
  {
    if lines == [] {
      BlockDispatched(f, Values(got));
      assert got + lines[..0] == got;
      assert BlockEvent(Values(got)) + [] == BlockEvent(Values(got));
    } else if lines[0] == "" {
      BlockDispatched(f, Values(got));
      RunMeans(Dispatch(f), [], lines[1..]);
      AfterBlank(got, lines);
      AfterNothing(lines[1..]);
      Regroup(f.events, BlockEvent(Values(got)), BlockEvents(lines[1..]));
    } else {
      LineCollected(f, Values(got), lines[0]);
      ValuesGrow(got, lines[0]);
      RunMeans(ProcessLine(f, lines[0]), got + [lines[0]], lines[1..]);
      AfterData(got, lines);
    }
  }

  /** What a body means: its lines fall into blocks at the empty ones, and each block with data gives
      one event, its data lines' values joined by newlines. */
  lemma BatchMeansBlocks(body: string)
    ensures Batch(body) == BlockEvents(BodyLines(body))
  {
    var start := Feed("", []);
    var lines := Split(body);
    var last := if lines.tail == "" then [] else [StripReturn(lines.tail)];
    ProcessIsRun(start, lines.complete, last);
    var f := ProcessLines(start, lines.complete);
    if lines.tail != "" { assert last[1..] == [] && Run(f, last) == ProcessLine(f, StripReturn(lines.tail)); }
    RunMeans(start, [], BodyLines(body));
    AfterNothing(BodyLines(body));
  }

  // ---------------------------------------------------------------- the parser object

  /** `buffer` holds bytes without a newline between calls; `events` is what the sink was given. */
  class SseParser {
    var buffer: string
    var data: string
    var events: seq<string>

    ghost function Model(): Parser
      reads this
    {
      Parser(buffer, Feed(data, events))
    }

    constructor ()
      ensures Model() == Fresh()
    {
      buffer, data, events := "", "", [];
    }

    method DispatchEvent()
      modifies this`data, this`events
      ensures Model().feed == Dispatch(old(Model().feed))
    {
      if data == "" { return; }
      var event := data;
      data := "";
      events := events + [event];
    }

    method TakeLine(line: string)
      modifies this`data, this`events
      ensures Model().feed == ProcessLine(old(Model().feed), line)
    {
      if line == "" {
        DispatchEvent();
        return;
      }
      if !("data:" <= line) { return; }
      var value := line[5..];
      if value != "" && value[0] == ' ' { value := value[1..]; }
      if data != "" { data := data + "\n"; }
      data := data + value;
    }

    method FeedChunk(bytes: string)
      modifies this
      ensures Model() == FeedBytes(old(Model()), bytes)
    {
      buffer := buffer + bytes;
      ghost var whole := buffer;
      ghost var done: seq<string> := [];
      while true
        invariant done + Split(buffer).complete == Split(whole).complete
        invariant Split(buffer).tail == Split(whole).tail
        invariant Model().feed == ProcessLines(old(Model().feed), done)
        decreases |buffer|
      {
        var newline := IndexOf(buffer, '\n');
        SplitAtIndex(buffer, newline);
        if newline == |buffer| { break; }
        var line := buffer[..newline];
        ghost var more := Split(buffer[newline + 1..]);
        assert done + ([line] + more.complete) == done + [line] + more.complete;
        ProcessAppend(old(Model().feed), done, [line]);
        buffer := buffer[newline + 1..];
        done := done + [line];
        if line != "" && line[|line| - 1] == '\r' { line := line[..|line| - 1]; }
        TakeLine(line);
      }
      assert done + [] == done;
    }

    method Finish()
      modifies this
      ensures buffer == "" && data == ""
      ensures events == Close(old(Model().feed), old(buffer))
    {
      if buffer != "" {
        if buffer[|buffer| - 1] == '\r' { buffer := buffer[..|buffer| - 1]; }
        TakeLine(buffer);
        buffer := "";
      }
      DispatchEvent();
    }
  }

  /** Driving the object over any chunks delivers the one-shot event sequence. */
  method ParseStream(chunks: seq<string>) returns (events: seq<string>)
    ensures events == Batch(Concat(chunks))
  {
    var parser := new SseParser();
    var i := 0;
    while i < |chunks|
      invariant 0 <= i <= |chunks|
      invariant FeedAll(parser.Model(), chunks[i..]) == FeedAll(Fresh(), chunks)
    {
      assert chunks[i..][1..] == chunks[i + 1..];
      parser.FeedChunk(chunks[i]);
      i := i + 1;
    }
    FragmentationInvariance(chunks);
    parser.Finish();
    events := parser.events;
  }
}

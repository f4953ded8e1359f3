/** The hand-written JSON reader of the chat-completions adapter, and the two printers whose
    output it must read back. A `char` stands for one byte. */
module Json {
  import opened Common

  datatype Json =
    | JNull
    | JBool(flag: bool)
    | JNum(number: real)
    | JStr(text: string)
    | JArr(items: seq<Json>)
    | JObj(fields: map<string, Json>)

  /** `std::stod` on a run of number characters; it may refuse. */
  type Stod = string -> Option<real>

  datatype Parsed<+T> = Ok(value: T, rest: string) | Err(reason: string)

  // ---------------------------------------------------------------- the grammar, on suffixes

  predicate IsNumberChar(c: char) {
    '0' <= c <= '9' || c == '-' || c == '+' || c == '.' || c == 'e' || c == 'E'
  }

  function NumberRun(s: string): (n: nat)
    ensures n <= |s|
  {
    if s != "" && IsNumberChar(s[0]) then 1 + NumberRun(s[1..]) else 0
  }

  function HexValue(c: char): Option<nat> {
    if '0' <= c <= '9' then Some(c as int - '0' as int)
    else if 'a' <= c <= 'f' then Some(c as int - 'a' as int + 10)
    else if 'A' <= c <= 'F' then Some(c as int - 'A' as int + 10)
    else None
  }

  /** The value of the `count` hexadecimal digits in front, on top of `value`. */
  function Hex(s: string, count: nat, value: nat): (r: Parsed<nat>)
    requires count <= |s|
    ensures r.Ok? ==> r.rest == s[count..]
    decreases count
  {
    if count == 0 then Ok(value, s)
    else if HexValue(s[0]).None? then Err("invalid unicode escape")
    else Hex(s[1..], count - 1, 16 * value + HexValue(s[0]).value)
  }

  function Hex4(s: string): (r: Parsed<nat>)
    ensures r.Ok? ==> |s| >= 4 && r.rest == s[4..]
  {
    if |s| < 4 then Err("short unicode escape") else Hex(s, 4, 0)
  }

  predicate High(codepoint: nat) { 0xd800 <= codepoint <= 0xdbff }

  predicate Low(codepoint: nat) { 0xdc00 <= codepoint <= 0xdfff }

  function Combine(high: nat, low: nat): nat
    requires High(high) && Low(low)
  {
    0x10000 + (high - 0xd800) * 0x400 + (low - 0xdc00)
  }

  /** A `\u` escape after its `u`, pairing surrogates. */
  function Escaped(s: string): (r: Parsed<nat>)
    ensures r.Ok? ==> |r.rest| < |s|
  {
    var first := Hex4(s);
    if first.Err? then first
    else if High(first.value) then
      if |first.rest| < 2 || first.rest[0] != '\\' || first.rest[1] != 'u' then Err("missing low surrogate")
      else
        var second := Hex4(first.rest[2..]);
        if second.Err? then second
        else if !Low(second.value) then Err("invalid low surrogate")
        else Ok(Combine(first.value, second.value), second.rest)
    else if Low(first.value) then Err("unexpected low surrogate")
    else first
  }

  function Byte(n: nat): char { (n % 256) as char }

  function Utf8(codepoint: nat): string {
    if codepoint <= 0x7f then [Byte(codepoint)]
    else if codepoint <= 0x7ff then [Byte(0xc0 + codepoint / 0x40), Byte(0x80 + codepoint % 0x40)]
    else if codepoint <= 0xffff then
      [Byte(0xe0 + codepoint / 0x1000), Byte(0x80 + codepoint / 0x40 % 0x40), Byte(0x80 + codepoint % 0x40)]
    else
      [Byte(0xf0 + codepoint / 0x40000), Byte(0x80 + codepoint / 0x1000 % 0x40),
       Byte(0x80 + codepoint / 0x40 % 0x40), Byte(0x80 + codepoint % 0x40)]
  }

  function SimpleEscape(c: char): Option<char> {
    match c
    case '"' => Some('"')
    case '\\' => Some('\\')
    case '/' => Some('/')
    case 'b' => Some(8 as char)
    case 'f' => Some(12 as char)
    case 'n' => Some('\n')
    case 'r' => Some('\r')
    case 't' => Some('\t')
    case _ => None
  }

  /** What follows a backslash. */
  function EscapeSequence(s: string): (r: Parsed<string>)
    ensures r.Ok? ==> |r.rest| < |s|
  {
    if s == "" then Err("escape")
    else if s[0] == 'u' then
      var e := Escaped(s[1..]);
      if e.Err? then Err(e.reason) else Ok(Utf8(e.value), e.rest)
    else if SimpleEscape(s[0]).None? then Err("unsupported escape")
    else Ok([SimpleEscape(s[0]).value], s[1..])
  }

  /** The inside of a string, after its opening quote; `acc` is what was read so far. */
  function Str(s: string, acc: string): (r: Parsed<string>)
    ensures r.Ok? ==> |r.rest| < |s|
    decreases |s|
  {
    if s == "" then Err("unterminated string")
    else if s[0] == '"' then Ok(acc, s[1..])
    else if s[0] != '\\' then Str(s[1..], acc + [s[0]])
    else
      var e := EscapeSequence(s[1..]);
      if e.Err? then e else Str(e.rest, acc + e.value)
  }

  predicate StartsWith(s: string, c: char) { s != "" && s[0] == c }

  function Literal(s: string, word: string, value: Json): Parsed<Json> {
    if word <= s then Ok(value, s[|word|..]) else Err("literal")
  }

  function Number(stod: Stod, s: string): Parsed<Json> {
    var n := NumberRun(s);
    if n == 0 then Err("value")
    else if stod(s[..n]).None? then Err("stod")
    else Ok(JNum(stod(s[..n]).value), s[n..])
  }

  function Value(stod: Stod, s: string): (r: Parsed<Json>)
    ensures r.Ok? ==> |r.rest| < |s|
    decreases |s|, 1
  {
    var t := DropSpaces(s);
    if t == "" then Err("unexpected end")
    else if t[0] == '{' then
      var u := DropSpaces(t[1..]);
      if StartsWith(u, '}') then Ok(JObj(map[]), u[1..]) else Members(stod, u, map[])
    else if t[0] == '[' then
      var u := DropSpaces(t[1..]);
      if StartsWith(u, ']') then Ok(JArr([]), u[1..]) else Items(stod, u, [])
    else if t[0] == '"' then
      var text := Str(t[1..], "");
      if text.Err? then Err(text.reason) else Ok(JStr(text.value), text.rest)
    else if t[0] == 't' then Literal(t, "true", JBool(true))
    else if t[0] == 'f' then Literal(t, "false", JBool(false))
    else if t[0] == 'n' then Literal(t, "null", JNull)
    else Number(stod, t)
  }

  /** A repeated key keeps its first value. */
  function Emplace(fields: map<string, Json>, key: string, value: Json): map<string, Json> {
    if key in fields then fields else fields[key := value]
  }

  /** A key and its colon. */
  function Key(s: string): (r: Parsed<string>)
    ensures r.Ok? ==> |r.rest| < |s|
  {
    var t := DropSpaces(s);
    if !StartsWith(t, '"') then Err("object key")
    else
      var key := Str(t[1..], "");
      if key.Err? then key
      else
        var u := DropSpaces(key.rest);
        if StartsWith(u, ':') then Ok(key.value, u[1..]) else Err("colon")
  }

  function Members(stod: Stod, s: string, fields: map<string, Json>): (r: Parsed<Json>)
    ensures r.Ok? ==> |r.rest| < |s|
    decreases |s|, 0
  {
    var key := Key(s);
    if key.Err? then Err(key.reason)
    else
      var value := Value(stod, key.rest);
      if value.Err? then value
      else
        var all := Emplace(fields, key.value, value.value);
        var v := DropSpaces(value.rest);
        if StartsWith(v, '}') then Ok(JObj(all), v[1..])
        else if StartsWith(v, ',') then Members(stod, v[1..], all)
        else Err("comma")
  }

  function Items(stod: Stod, s: string, items: seq<Json>): (r: Parsed<Json>)
    ensures r.Ok? ==> |r.rest| < |s|
    decreases |s|, 2
  {
    var value := Value(stod, s);
    if value.Err? then value
    else
      var v := DropSpaces(value.rest);
      if StartsWith(v, ']') then Ok(JArr(items + [value.value]), v[1..])
      else if StartsWith(v, ',') then Items(stod, v[1..], items + [value.value])
      else Err("comma")
  }

  function Parse(stod: Stod, s: string): Parsed<Json> {
    var r := Value(stod, s);
    if r.Err? then r
    else if DropSpaces(r.rest) != "" then Err("trailing data")
    else Ok(r.value, "")
  }

  // ---------------------------------------------------------------- the printers

  /** The request printer's escapes; every other control byte makes it throw. */
  function Escape(s: string): Option<string> {
    if s == "" then Some("")
    else
      var tail := Escape(s[1..]);
      if tail.None? || EscapeChar(s[0]).None? then None
      else Some(EscapeChar(s[0]).value + tail.value)
  }

  function EscapeChar(c: char): Option<string> {
    match c
    case '"' => Some("\\\"")
    case '\\' => Some("\\\\")
    case '\n' => Some("\\n")
    case '\r' => Some("\\r")
    case '\t' => Some("\\t")
    case _ => if c as int < 0x20 then None else Some([c])
  }

  function HexDigit(n: nat): char
    requires n < 16
  {
    "0123456789abcdef"[n]
  }

  /** The event logger's escapes: total, with `\u00xx` for the remaining control bytes. */
  function LogEscape(s: string): string {
    if s == "" then "" else LogEscapeChar(s[0]) + LogEscape(s[1..])
  }

  function LogEscapeChar(c: char): string {
    if EscapeChar(c).Some? then EscapeChar(c).value
    else "\\u00" + [HexDigit(c as int / 16), HexDigit(c as int % 16)]
  }

  // ---------------------------------------------------------------- strings read back

  /** One escaped character is read back as itself, by either printer. */
  lemma CharReadsBack(c: char, rest: string, acc: string)
    ensures Str(LogEscapeChar(c) + rest, acc) == Str(rest, acc + [c])
  {
    var e := LogEscapeChar(c);
    if |e| == 1 {
      assert (e + rest)[1..] == rest;
    } else {
      assert (e + rest)[1..] == e[1..] + rest;
      SequenceReadsBack(c, rest);
    }
  }

  lemma SequenceReadsBack(c: char, rest: string)
    requires |LogEscapeChar(c)| > 1
    ensures EscapeSequence(LogEscapeChar(c)[1..] + rest) == Ok([c], rest)
  {
    if EscapeChar(c).Some? {
      assert (LogEscapeChar(c)[1..] + rest)[1..] == rest;
    } else {
      ControlReadsBack(c, rest);
    }
  }

  lemma ControlReadsBack(c: char, rest: string)
    requires EscapeChar(c).None?
    ensures EscapeSequence(LogEscapeChar(c)[1..] + rest) == Ok([c], rest)
  {
    var n := c as int;
    var digits := "00" + [HexDigit(n / 16), HexDigit(n % 16)];
    var e := LogEscapeChar(c)[1..] + rest;
    assert e[0] == 'u' && e[1..] == digits + rest;
    HexReadsBack(n, rest);
    assert Utf8(n) == [c];
  }

  lemma HexReadsBack(n: nat, rest: string)
    requires n < 0x20
    ensures Escaped("00" + [HexDigit(n / 16), HexDigit(n % 16)] + rest) == Ok(n, rest)
  {
    var s := "00" + [HexDigit(n / 16), HexDigit(n % 16)] + rest;
    assert HexValue(HexDigit(n / 16)) == Some(n / 16);
    assert HexValue(HexDigit(n % 16)) == Some(n % 16);
    var s1, s2, s3 := s[1..], s[2..], s[3..];
    assert s1[1..] == s2 && s2[1..] == s3 && s3[1..] == s[4..] == rest;
    assert Hex(s3, 1, n / 16) == Hex(rest, 0, n);
    assert Hex(s2, 2, 0) == Hex(s3, 1, n / 16);
    assert Hex(s1, 3, 0) == Hex(s2, 2, 0);
  }

  /** The escaped string, its closing quote and what follows. */
  function LogQuoted(s: string, rest: string): (r: string) {
    if s == "" then "\"" + rest else LogEscapeChar(s[0]) + LogQuoted(s[1..], rest)
  }

  lemma {:induction false} LogQuotedText(s: string, rest: string)
    ensures LogQuoted(s, rest) == LogEscape(s) + "\"" + rest
  {
    if s != "" {
      LogQuotedText(s[1..], rest);
    }
  }

  lemma HeadMoves(acc: string, s: string)
    requires s != ""
    ensures acc + [s[0]] + s[1..] == acc + s
  {
  }

  lemma {:induction false} LogQuotedReadsBack(s: string, rest: string, acc: string)
    ensures Str(LogQuoted(s, rest), acc) == Ok(acc + s, rest)
  {
    if s == "" {
      assert acc + s == acc;
    } else {
      CharReadsBack(s[0], LogQuoted(s[1..], rest), acc);
      LogQuotedReadsBack(s[1..], rest, acc + [s[0]]);
      HeadMoves(acc, s);
    }
  }

  /** For every byte string, a quoted log escape parses back to the string, whatever follows. */
  lemma LogEscapeReadsBack(s: string, rest: string)
    ensures Str(LogEscape(s) + "\"" + rest, "") == Ok(s, rest)
  {
    LogQuotedText(s, rest);
    LogQuotedReadsBack(s, rest, "");
    assert "" + s == s;
  }

  /** What the request printer accepts: no control byte except newline, return and tab. */
  predicate Printable(s: string) {
    forall i :: 0 <= i < |s| ==> s[i] as int >= 0x20 || s[i] == '\n' || s[i] == '\r' || s[i] == '\t'
  }

  /** The request printer accepts exactly the printable strings, and then agrees with the logger. */
  lemma {:induction false} EscapeAgrees(s: string)
    ensures Escape(s).Some? <==> Printable(s)
    ensures Escape(s).Some? ==> Escape(s).value == LogEscape(s)
  {
    if s != "" {
      EscapeAgrees(s[1..]);
      assert Printable(s) <==> EscapeChar(s[0]).Some? && Printable(s[1..]) by {
        assert s == [s[0]] + s[1..];
      }
    }
  }
}

/** The reader as the program has it: an object with a position into its input, proved to follow
    the grammar functions step by step. It terminates on every input. */
module JsonParsers {
  import opened Common
  import opened Json

  /** A method's result and the remaining input agree with the grammar. */
  predicate Agrees<T(==)>(r: Result<T>, spec: Parsed<T>, rest: string) {
    match spec
    case Ok(value, suffix) => r == Done(value) && rest == suffix
    case Err(reason) => r == Throws(reason)
  }

  class JsonParser {
    const input: string
    const stod: Stod
    var position: nat

    ghost predicate Valid()
      reads this
    {
      position <= |input|
    }

    ghost function Rest(): string
      requires Valid()
      reads this
    {
      input[position..]
    }

    constructor (stod: Stod, input: string)
      ensures Valid() && this.stod == stod && this.input == input && Rest() == input
    {
      this.stod, this.input, position := stod, input, 0;
    }

    method SkipSpace()
      requires Valid()
      modifies this
      ensures Valid() && position >= old(position)
      ensures Rest() == DropSpaces(old(Rest()))
    {
      while position < |input| && IsSpace(input[position])
        invariant old(position) <= position <= |input|
        invariant DropSpaces(Rest()) == DropSpaces(old(Rest()))
      {
        assert Rest()[1..] == input[position + 1..];
        position := position + 1;
      }
    }

    method Consume(c: char) returns (found: bool)
      requires Valid()
      modifies this
      ensures Valid() && position == old(position) + (if found then 1 else 0)
      ensures found <==> StartsWith(old(Rest()), c)
      ensures Rest() == if found then old(Rest())[1..] else old(Rest())
    {
      found := position < |input| && input[position] == c;
      if found {
        position := position + 1;
      }
    }

    method ReadHex4() returns (r: Result<nat>)
      requires Valid()
      modifies this
      ensures Valid() && position >= old(position)
      ensures Agrees(r, Hex4(old(Rest())), Rest())
    {
      if position + 4 > |input| { return Throws("short unicode escape"); }
      r := ReadDigits();
    }

    /** The four digits. */
    method ReadDigits() returns (r: Result<nat>)
      requires Valid() && position + 4 <= |input|
      modifies this
      ensures Valid() && position >= old(position)
      ensures Agrees(r, Hex(old(Rest()), 4, 0), Rest())
    {
      var value := 0;
      var i := 0;
      while i < 4
        invariant 0 <= i <= 4 && position == old(position) + i && position + (4 - i) <= |input|
        invariant Hex(input[position..], 4 - i, value) == Hex(input[old(position)..], 4, 0)
      {
        var digit := HexValue(input[position]);
        assert input[position..][1..] == input[position + 1..];
        position := position + 1;
        if digit.None? { return Throws("invalid unicode escape"); }
        value := 16 * value + digit.value;
        i := i + 1;
      }
      return Done(value);
    }

    method ReadEscaped() returns (r: Result<nat>)
      requires Valid()
      modifies this
      ensures Valid() && position >= old(position)
      ensures Agrees(r, Escaped(old(Rest())), Rest())
    {
      var first := ReadHex4();
      if first.Throws? { return first; }
      if High(first.value) {
        if position + 2 > |input| || input[position] != '\\' || input[position + 1] != 'u' {
          return Throws("missing low surrogate");
        }
        assert Rest()[2..] == input[position + 2..];
        position := position + 2;
        var second := ReadHex4();
        if second.Throws? { return second; }
        if !Low(second.value) { return Throws("invalid low surrogate"); }
        return Done(Combine(first.value, second.value));
      }
      if Low(first.value) { return Throws("unexpected low surrogate"); }
      return first;
    }

    method ReadEscapeSequence() returns (r: Result<string>)
      requires Valid()
      modifies this
      ensures Valid() && position >= old(position)
      ensures Agrees(r, EscapeSequence(old(Rest())), Rest())
    {
      if position == |input| { return Throws("escape"); }
      var escaped := input[position];
      assert Rest()[1..] == input[position + 1..];
      position := position + 1;
      if escaped == 'u' {
        var codepoint := ReadEscaped();
        if codepoint.Throws? { return Throws(codepoint.reason); }
        return Done(Utf8(codepoint.value));
      }
      var simple := SimpleEscape(escaped);
      if simple.None? { return Throws("unsupported escape"); }
      return Done([simple.value]);
    }

    /** One round of the string loop: the string is closed, goes on with one more piece, or throws. */
    method ReadPiece(result: string) returns (closed: bool, piece: Result<string>)
      requires Valid() && position < |input|
      modifies this
      ensures Valid() && position > old(position)
      ensures closed ==> Str(old(Rest()), result) == Ok(result, Rest())
      ensures !closed && piece.Done? ==> Str(old(Rest()), result) == Str(Rest(), result + piece.value)
      ensures !closed && piece.Throws? ==> Str(old(Rest()), result) == Err(piece.reason)
    {
      var c := input[position];
      assert Rest()[1..] == input[position + 1..];
      position := position + 1;
      if c == '"' { return true, Done(""); }
      if c != '\\' { return false, Done([c]); }
      piece := ReadEscapeSequence();
      closed := false;
    }

    method ReadString() returns (r: Result<string>)
      requires Valid() && position < |input|
      modifies this
      ensures Valid() && position > old(position)
      ensures Agrees(r, Str(old(Rest())[1..], ""), Rest())
    {
      assert Rest()[1..] == input[position + 1..];
      position := position + 1;
      ghost var spec := Str(Rest(), "");
      var result := "";
      while position < |input|
        invariant old(position) < position <= |input|
        invariant Str(Rest(), result) == spec
        decreases |input| - position
      {
        var closed, piece := ReadPiece(result);
        if closed { return Done(result); }
        if piece.Throws? { return piece; }
        result := result + piece.value;
      }
      return Throws("unterminated string");
    }

    method ReadNumber() returns (r: Result<Json>)
      requires Valid()
      modifies this
      ensures Valid() && position >= old(position)
      ensures Agrees(r, Number(stod, old(Rest())), Rest())
    {
      var begin := position;
      while position < |input| && IsNumberChar(input[position])
        invariant begin <= position <= |input|
        invariant NumberRun(input[begin..]) == position - begin + NumberRun(Rest())
      {
        assert Rest()[1..] == input[position + 1..];
        position := position + 1;
      }
      assert input[begin..][..position - begin] == input[begin..position];
      if begin == position { return Throws("value"); }
      var number := stod(input[begin..position]);
      if number.None? { return Throws("stod"); }
      return Done(JNum(number.value));
    }

    method ReadLiteral(word: string, value: Json) returns (r: Result<Json>)
      requires Valid()
      modifies this
      ensures Valid() && position >= old(position)
      ensures Agrees(r, Literal(old(Rest()), word, value), Rest())
    {
      if position + |word| > |input| || input[position..position + |word|] != word {
        assert position + |word| <= |input| ==> Rest()[..|word|] == input[position..position + |word|];
        return Throws("literal");
      }
      assert Rest()[..|word|] == word;
      position := position + |word|;
      return Done(value);
    }

    method ReadValue() returns (r: Result<Json>)
      requires Valid()
      modifies this
      ensures Valid() && position >= old(position)
      ensures r.Done? ==> position > old(position)
      ensures Agrees(r, Value(stod, old(Rest())), Rest())
      decreases |input| - position, 2
    {
      SkipSpace();
      if position == |input| { return Throws("unexpected end"); }
      var c := input[position];
      if c == '{' {
        r := ReadObject();
      } else if c == '[' {
        r := ReadArray();
      } else if c == '"' {
        var text := ReadString();
        r := if text.Done? then Done(JStr(text.value)) else Throws(text.reason);
      } else if c == 't' {
        r := ReadLiteral("true", JBool(true));
      } else if c == 'f' {
        r := ReadLiteral("false", JBool(false));
      } else if c == 'n' {
        r := ReadLiteral("null", JNull);
      } else {
        r := ReadNumber();
      }
    }

    method ReadKey() returns (r: Result<string>)
      requires Valid()
      modifies this
      ensures Valid() && position >= old(position)
      ensures Agrees(r, Key(old(Rest())), Rest())
    {
      SkipSpace();
      if position == |input| || input[position] != '"' { return Throws("object key"); }
      r := ReadString();
      if r.Throws? { return; }
      SkipSpace();
      var colon := Consume(':');
      if !colon { return Throws("colon"); }
    }

    method ReadObject() returns (r: Result<Json>)
      requires Valid() && position < |input|
      modifies this
      ensures Valid() && position > old(position)
      ensures var u := DropSpaces(old(Rest())[1..]);
              Agrees(r, if StartsWith(u, '}') then Ok(JObj(map[]), u[1..]) else Members(stod, u, map[]), Rest())
      decreases |input| - position, 1
    {
      assert old(Rest())[1..] == input[position + 1..];
      position := position + 1;
      var fields: map<string, Json> := map[];
      SkipSpace();
      ghost var spec := Members(stod, Rest(), map[]);
      var closed := Consume('}');
      if closed { return Done(JObj(fields)); }
      while true
        invariant old(position) < position <= |input|
        invariant Members(stod, Rest(), fields) == spec
        decreases |input| - position
      {
        var key := ReadKey();
        if key.Throws? { return Throws(key.reason); }
        var value := ReadValue();
        if value.Throws? { return value; }
        fields := Emplace(fields, key.value, value.value);
        SkipSpace();
        closed := Consume('}');
        if closed { return Done(JObj(fields)); }
        var comma := Consume(',');
        if !comma { return Throws("comma"); }
      }
    }

    method ReadArray() returns (r: Result<Json>)
      requires Valid() && position < |input|
      modifies this
      ensures Valid() && position > old(position)
      ensures var u := DropSpaces(old(Rest())[1..]);
              Agrees(r, if StartsWith(u, ']') then Ok(JArr([]), u[1..]) else Items(stod, u, []), Rest())
      decreases |input| - position, 1
    {
      assert old(Rest())[1..] == input[position + 1..];
      position := position + 1;
      var items: seq<Json> := [];
      SkipSpace();
      ghost var spec := Items(stod, Rest(), []);
      var closed := Consume(']');
      if closed { return Done(JArr(items)); }
      while true
        invariant old(position) < position <= |input|
        invariant Items(stod, Rest(), items) == spec
        decreases |input| - position
      {
        var value := ReadValue();
        if value.Throws? { return value; }
        items := items + [value.value];
        SkipSpace();
        closed := Consume(']');
        if closed { return Done(JArr(items)); }
        var comma := Consume(',');
        if !comma { return Throws("comma"); }
      }
    }
  }

  /** The reader object computes `Parse`, on every input. */
  method ParseText(stod: Stod, input: string) returns (r: Result<Json>)
    ensures Agrees(r, Parse(stod, input), "")
  {
    var parser := new JsonParser(stod, input);
    r := parser.ReadValue();
    if r.Throws? { return; }
    parser.SkipSpace();
    if parser.position != |input| { return Throws("trailing data"); }
  }
}

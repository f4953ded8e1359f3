/** What escapes and literals mean, whoever wrote them: the parser reads more than the printers emit. */
module JsonEscapes {
  import opened Common
  import opened Json
  import U = Utf8

  // ---------------------------------------------------------------- hexadecimal digits

  /** Four hexadecimal digits, in either case, that spell a number. */
  predicate Spells(d: string, n: nat) {
    && |d| == 4 && (forall k :: 0 <= k < 4 ==> HexValue(d[k]).Some?)
    && n == 0x1000 * HexValue(d[0]).value + 0x100 * HexValue(d[1]).value + 0x10 * HexValue(d[2]).value + HexValue(d[3]).value
  }

  /** The digits have the values of their places, in both cases. */
  lemma DigitValues(k: nat)
    requires k < 16
    ensures HexValue("0123456789abcdef"[k]) == Some(k) && HexValue("0123456789ABCDEF"[k]) == Some(k)
  {
  }

  lemma DigitsRead(d: string, n: nat, rest: string)
    requires Spells(d, n)
    ensures Hex4(d + rest) == Ok(n, rest)
  {
    var s := d + rest;
    var s1, s2, s3 := s[1..], s[2..], s[3..];
    assert s1[1..] == s2 && s2[1..] == s3 && s3[1..] == s[4..] == rest;
    var v0, v1, v2 := HexValue(d[0]).value, HexValue(d[1]).value, HexValue(d[2]).value;
    assert Hex(s3, 1, 16 * (16 * v0 + v1) + v2) == Hex(rest, 0, n);
    assert Hex(s2, 2, 16 * v0 + v1) == Hex(s3, 1, 16 * (16 * v0 + v1) + v2);
    assert Hex(s1, 3, v0) == Hex(s2, 2, 16 * v0 + v1);
  }

  // ---------------------------------------------------------------- scalar values

  /** The Unicode scalar values: every code point that is no surrogate. */
  predicate Scalar(n: nat) { n <= 0x10ffff && !(0xd800 <= n <= 0xdfff) }

  /** The two halves of a code point beyond the basic plane. */
  function HighHalf(n: nat): nat
    requires 0x10000 <= n <= 0x10ffff
  {
    0xd800 + (n - 0x10000) / 0x400
  }

  function LowHalf(n: nat): nat
    requires 0x10000 <= n <= 0x10ffff
  {
    0xdc00 + (n - 0x10000) % 0x400
  }

  lemma HalvesCombine(n: nat)
    requires 0x10000 <= n <= 0x10ffff
    ensures High(HighHalf(n)) && Low(LowHalf(n)) && Combine(HighHalf(n), LowHalf(n)) == n
  {
  }

  /** The number that a UTF-8 sequence of one to four bytes encodes. */
  function Decoded(s: string): nat
    requires 1 <= |s| <= 4
  {
    if |s| == 1 then s[0] as int
    else if |s| == 2 then (s[0] as int % 0x20) * 0x40 + s[1] as int % 0x40
    else if |s| == 3 then ((s[0] as int % 0x10) * 0x40 + s[1] as int % 0x40) * 0x40 + s[2] as int % 0x40
    else (((s[0] as int % 8) * 0x40 + s[1] as int % 0x40) * 0x40 + s[2] as int % 0x40) * 0x40 + s[3] as int % 0x40
  }

  lemma OneByte(n: nat)
    requires n <= 0x7f
    ensures |Utf8(n)| == 1 && Decoded(Utf8(n)) == n && U.Head(Utf8(n)) == 1
  {
  }

  lemma TwoBytes(n: nat)
    requires 0x80 <= n <= 0x7ff
    ensures |Utf8(n)| == 2 && Decoded(Utf8(n)) == n && U.Head(Utf8(n)) == 2
  {
    var hi, lo := n / 0x40, n % 0x40;
    assert 2 <= hi <= 0x1f && n == hi * 0x40 + lo;
  }

  lemma Sextets(n: nat)
    ensures n / 0x40 / 0x40 == n / 0x1000 && n / 0x1000 / 0x40 == n / 0x40000
  {
  }

  lemma ThreeHead(a: nat, b: nat, c: nat)
    requires a <= 0xf && b < 0x40 && c < 0x40 && (a == 0 ==> b >= 0x20) && (a == 0xd ==> b < 0x20)
    ensures var s := [Byte(0xe0 + a), Byte(0x80 + b), Byte(0x80 + c)];
            U.Head(s) == 3 && Decoded(s) == (a * 0x40 + b) * 0x40 + c
  {
  }

  lemma ThreeBytes(n: nat)
    requires 0x800 <= n <= 0xffff && Scalar(n)
    ensures |Utf8(n)| == 3 && Decoded(Utf8(n)) == n && U.Head(Utf8(n)) == 3
  {
    Sextets(n);
    var q := n / 0x40;
    var a, b, c := n / 0x1000, q % 0x40, n % 0x40;
    assert q == a * 0x40 + b && n == q * 0x40 + c;
    ThreeHead(a, b, c);
  }

  lemma FourHead(a: nat, b: nat, c: nat, d: nat)
    requires a <= 4 && b < 0x40 && c < 0x40 && d < 0x40 && (a == 0 ==> b >= 0x10) && (a == 4 ==> b < 0x10)
    ensures var s := [Byte(0xf0 + a), Byte(0x80 + b), Byte(0x80 + c), Byte(0x80 + d)];
            U.Head(s) == 4 && Decoded(s) == ((a * 0x40 + b) * 0x40 + c) * 0x40 + d
  {
    var s := [Byte(0xf0 + a), Byte(0x80 + b), Byte(0x80 + c), Byte(0x80 + d)];
    FourInRange(s, a, b, c, d);
    FourDecoded(s, a, b, c, d);
  }

  lemma FourInRange(s: string, a: nat, b: nat, c: nat, d: nat)
    requires a <= 4 && b < 0x40 && c < 0x40 && d < 0x40 && (a == 0 ==> b >= 0x10) && (a == 4 ==> b < 0x10)
    requires |s| == 4 && s[0] as int == 0xf0 + a && s[1] as int == 0x80 + b && s[2] as int == 0x80 + c && s[3] as int == 0x80 + d
    ensures U.Head(s) == 4
  {
  }

  lemma FourDecoded(s: string, a: nat, b: nat, c: nat, d: nat)
    requires a <= 4 && b < 0x40 && c < 0x40 && d < 0x40
    requires |s| == 4 && s[0] as int == 0xf0 + a && s[1] as int == 0x80 + b && s[2] as int == 0x80 + c && s[3] as int == 0x80 + d
    ensures Decoded(s) == ((a * 0x40 + b) * 0x40 + c) * 0x40 + d
  {
  }

  lemma FourBytes(n: nat)
    requires 0x10000 <= n <= 0x10ffff
    ensures |Utf8(n)| == 4 && Decoded(Utf8(n)) == n && U.Head(Utf8(n)) == 4
  {
    Sextets(n);
    var q := n / 0x40;
    var r := n / 0x1000;
    var a, b, c, d := n / 0x40000, r % 0x40, q % 0x40, n % 0x40;
    assert r == a * 0x40 + b && q == r * 0x40 + c && n == q * 0x40 + d;
    FourHead(a, b, c, d);
  }

  /** Every scalar value is encoded as one well-formed sequence, which decodes to it. */
  lemma EncodedWell(n: nat)
    requires Scalar(n)
    ensures 1 <= |Utf8(n)| <= 4 && Decoded(Utf8(n)) == n && U.Head(Utf8(n)) == |Utf8(n)| && U.WellFormed(Utf8(n))
  {
    if n <= 0x7f { OneByte(n); } else if n <= 0x7ff { TwoBytes(n); } else if n <= 0xffff { ThreeBytes(n); } else { FourBytes(n); }
    assert Utf8(n)[|Utf8(n)|..] == "";
  }

  // ---------------------------------------------------------------- escapes

  lemma EscapedReads(n: nat, d: string, rest: string)
    requires Scalar(n) && n <= 0xffff && Spells(d, n)
    ensures Escaped(d + rest) == Ok(n, rest)
  {
    DigitsRead(d, n, rest);
  }

  lemma PairReads(n: nat, high: string, low: string, rest: string)
    requires 0x10000 <= n <= 0x10ffff && Spells(high, HighHalf(n)) && Spells(low, LowHalf(n))
    ensures Escaped(high + ("\\u" + (low + rest))) == Ok(n, rest)
  {
    var more := "\\u" + (low + rest);
    assert more[2..] == low + rest;
    DigitsRead(high, HighHalf(n), more);
    DigitsRead(low, LowHalf(n), rest);
    HalvesCombine(n);
  }

  /** A `\u` escape is read as the one well-formed UTF-8 sequence of its scalar value, be it written with
      four digits or, beyond the basic plane, as a surrogate pair. */
  lemma UnicodeEscapeReads(n: nat, d: string, low: string, rest: string)
    requires Scalar(n)
    requires if n <= 0xffff then Spells(d, n) else Spells(d, HighHalf(n)) && Spells(low, LowHalf(n))
    ensures var escape := if n <= 0xffff then d + rest else d + ("\\u" + (low + rest));
            EscapeSequence(['u'] + escape) == Ok(Utf8(n), rest)
    ensures U.WellFormed(Utf8(n)) && 1 <= |Utf8(n)| <= 4 && Decoded(Utf8(n)) == n
  {
    var escape := if n <= 0xffff then d + rest else d + ("\\u" + (low + rest));
    assert (['u'] + escape)[1..] == escape;
    if n <= 0xffff { EscapedReads(n, d, rest); } else { PairReads(n, d, low, rest); }
    EncodedWell(n);
  }

  /** Halves that do not form a pair are refused. */
  lemma LoneHalvesFail(n: nat, d: string, rest: string)
    requires Spells(d, n) && 0xd800 <= n <= 0xdfff
    requires n <= 0xdbff ==> |rest| < 2 || rest[0] != '\\' || rest[1] != 'u'
    ensures Escaped(d + rest).Err?
  {
    DigitsRead(d, n, rest);
  }

  /** The short escapes, each read as its character, and no others. */
  lemma ShortEscapes(c: char, rest: string)
    requires c != 'u'
    ensures EscapeSequence([c] + rest)
            == if c == '"' || c == '\\' || c == '/' then Ok([c], rest)
               else if c == 'b' then Ok([8 as char], rest)
               else if c == 'f' then Ok([12 as char], rest)
               else if c == 'n' then Ok([10 as char], rest)
               else if c == 'r' then Ok([13 as char], rest)
               else if c == 't' then Ok([9 as char], rest)
               else Err("unsupported escape")
  {
    assert ([c] + rest)[1..] == rest;
  }

  // ---------------------------------------------------------------- literals

  lemma WordReads(word: string, rest: string, value: Json)
    ensures Literal(word + rest, word, value) == Ok(value, rest)
  {
    assert (word + rest)[|word|..] == rest;
  }

  /** The three words are read as what they say. */
  lemma LiteralsRead(stod: Stod, rest: string)
    ensures Value(stod, "true" + rest) == Ok(JBool(true), rest)
    ensures Value(stod, "false" + rest) == Ok(JBool(false), rest)
    ensures Value(stod, "null" + rest) == Ok(JNull, rest)
  {
    WordReads("true", rest, JBool(true));
    WordReads("false", rest, JBool(false));
    WordReads("null", rest, JNull);
  }
}

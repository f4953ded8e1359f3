/** The streaming sentence splitter. */
module SegmenterModel {
  import opened Common
  import opened Utf8

  datatype Config = Config(minCharacters: nat, targetCharacters: nat, hardMaxCharacters: nat)

  predicate ValidConfig(c: Config) {
    0 < c.minCharacters <= c.targetCharacters <= c.hardMaxCharacters
  }

  // ---------------------------------------------------------------- trimming

  function DropLastSpaces(s: string): (r: string)
    ensures |r| <= |s|
  {
    if s != "" && IsSpace(s[|s| - 1]) then DropLastSpaces(s[..|s| - 1]) else s
  }

  lemma {:induction false} DropSpacesSuffix(s: string)
    ensures DropSpaces(s) == s[|s| - |DropSpaces(s)|..]
  {
    if s != "" && IsSpace(s[0]) {
      DropSpacesSuffix(s[1..]);
    }
  }

  /** What is left after a cut is a suffix. */
  lemma RestIsSuffix(s: string, k: nat)
    requires k <= |s|
    ensures DropSpaces(s[k..]) == s[|s| - |DropSpaces(s[k..])|..]
  {
    DropSpacesSuffix(s[k..]);
    SuffixOfSuffix(s, k, |s| - k - |DropSpaces(s[k..])|);
  }

  lemma SuffixOfSuffix(s: string, k: nat, m: nat)
    requires k + m <= |s|
    ensures s[k..][m..] == s[k + m..]
  {
  }

  function Trim(s: string): string { DropLastSpaces(DropSpaces(s)) }

  // ---------------------------------------------------------------- counting and completeness

  function Characters(s: string): (n: nat)
    ensures n <= |s|
  {
    if s == "" then 0
    else Characters(s[..|s| - 1]) + (if IsCont(s[|s| - 1]) then 0 else 1)
  }

  function LeadIndex(s: string, i: nat): (r: nat)
    requires i < |s|
    ensures r <= i && (r > 0 ==> !IsCont(s[r]))
    ensures forall k :: r < k <= i ==> IsCont(s[k])
  {
    if i > 0 && IsCont(s[i]) then LeadIndex(s, i - 1) else i
  }

  /** The length a leading byte announces, as the mask tests of the program decide it. */
  function Width(c: char): nat {
    var b := c as int;
    if b < 0x80 then 1
    else if 0xc0 <= b < 0xe0 then 2
    else if 0xe0 <= b < 0xf0 then 3
    else if 0xf0 <= b < 0xf8 then 4
    else 1
  }

  /** How much of the text ends with a complete character. */
  function CompletePrefix(s: string): (n: nat)
    ensures n <= |s|
  {
    if s == "" then 0
    else
      var start := LeadIndex(s, |s| - 1);
      if |s| - start < Width(s[start]) then start else |s|
  }

  // ---------------------------------------------------------------- boundaries

  predicate TokenAt(s: string, i: nat, token: string) {
    i + |token| <= |s| && s[i..i + |token|] == token
  }

  /** Full-width full stop, exclamation and question mark; semicolon and comma. */
  predicate WideStop(s: string, i: nat) {
    TokenAt(s, i, "\U{e3}\U{80}\U{82}") || TokenAt(s, i, "\U{ef}\U{bc}\U{81}") || TokenAt(s, i, "\U{ef}\U{bc}\U{9f}")
  }

  predicate WideComma(s: string, i: nat) {
    TokenAt(s, i, "\U{ef}\U{bc}\U{9b}") || TokenAt(s, i, "\U{ef}\U{bc}\U{8c}")
  }

  datatype Punctuation = Punctuation(bytes: nat, strong: bool)

  function PunctuationAt(s: string, i: nat): (p: Punctuation)
    requires i < |s|
    ensures i + p.bytes <= |s|
  {
    if s[i] == '!' || s[i] == '?' || s[i] == '\n' then Punctuation(1, true)
    else if WideStop(s, i) then Punctuation(3, true)
    else if s[i] == ';' || s[i] == ',' then Punctuation(1, false)
    else if WideComma(s, i) then Punctuation(3, false)
    else if s[i] == '.' && i + 1 < |s| && IsSpace(s[i + 1]) then Punctuation(1, true)
    else Punctuation(0, false)
  }

  /** Punctuation at `i` that ends a sentence outright. */
  predicate EndsSentence(c: Config, s: string, i: nat)
    requires i < |s|
  {
    var p := PunctuationAt(s, i);
    p.bytes > 0 && p.strong && Characters(s[..i + p.bytes]) >= c.minCharacters
  }

  /** Punctuation at `i` that may end a sentence for want of anything better. */
  predicate MayEnd(c: Config, s: string, i: nat)
    requires i < |s|
  {
    var p := PunctuationAt(s, i);
    p.bytes > 0 && Characters(s[..i + p.bytes]) >= c.targetCharacters
  }

  /** The punctuation loop from `i` on, with the soft boundary found so far. */
  function Scan(c: Config, s: string, complete: nat, i: nat, soft: Option<nat>): Option<nat>
    requires complete <= |s|
    decreases complete - i
  {
    if i >= complete then soft
    else
      var end := i + PunctuationAt(s, i).bytes;
      if EndsSentence(c, s, i) then Some(end)
      else Scan(c, s, complete, i + 1, if MayEnd(c, s, i) then Some(end) else soft)
  }

  function SkipCont(s: string, complete: nat, i: nat): (r: nat)
    requires complete <= |s|
    ensures i <= r && (i <= complete ==> r <= complete)
    ensures r < complete ==> !IsCont(s[r])
    decreases complete - i
  {
    if i < complete && IsCont(s[i]) then SkipCont(s, complete, i + 1) else i
  }

  /** The hard split: after the last blank before the target, else at the target. */
  function HardSplit(c: Config, s: string, complete: nat, i: nat, lastSpace: Option<nat>): Option<nat>
    requires complete <= |s|
    decreases complete - i
  {
    if i >= complete then None
    else
      var space := if IsSpace(s[i]) then Some(i + 1) else lastSpace;
      if Characters(s[..i + 1]) >= c.targetCharacters then
        Some(SkipCont(s, complete, if space.Some? then space.value else i + 1))
      else HardSplit(c, s, complete, i + 1, space)
  }

  function Boundary(c: Config, s: string): Option<nat> {
    var complete := CompletePrefix(s);
    var found := Scan(c, s, complete, 0, None);
    if found.Some? then found
    else if Characters(s[..complete]) >= c.hardMaxCharacters then HardSplit(c, s, complete, 0, None)
    else None
  }

  // ---------------------------------------------------------------- boundaries are positive and inside

  lemma {:induction false} ScanInside(c: Config, s: string, complete: nat, i: nat, soft: Option<nat>)
    requires complete == CompletePrefix(s)
    requires soft.Some? ==> 0 < soft.value <= complete
    ensures Scan(c, s, complete, i, soft).Some? ==> 0 < Scan(c, s, complete, i, soft).value <= complete
    decreases complete - i
  {
    if i < complete {
      PunctuationInside(s, i);
      ScanInside(c, s, complete, i + 1, if MayEnd(c, s, i) then Some(i + PunctuationAt(s, i).bytes) else soft);
    }
  }

  /** Wide punctuation never straddles the complete part. */
  lemma PunctuationInside(s: string, i: nat)
    requires i < CompletePrefix(s)
    ensures i + PunctuationAt(s, i).bytes <= CompletePrefix(s)
  {
    var p := PunctuationAt(s, i);
    if p.bytes == 3 {
      var start := LeadIndex(s, |s| - 1);
      assert IsCont(s[i + 1]) && IsCont(s[i + 2]) by { WideBytes(s, i); }
      if CompletePrefix(s) == start {
        assert start > 0;
        assert start != i + 1 && start != i + 2;
      }
    }
  }

  lemma WideBytes(s: string, i: nat)
    requires WideStop(s, i) || WideComma(s, i)
    ensures i + 3 <= |s| && IsCont(s[i + 1]) && IsCont(s[i + 2])
    ensures s[i] as int == 0xe3 || s[i] as int == 0xef
  {
    var t := s[i..i + 3];
    assert t[0] == s[i] && t[1] == s[i + 1] && t[2] == s[i + 2];
  }

  lemma {:induction false} HardSplitInside(c: Config, s: string, complete: nat, i: nat, lastSpace: Option<nat>)
    requires complete <= |s| && (lastSpace.Some? ==> 0 < lastSpace.value <= complete)
    ensures HardSplit(c, s, complete, i, lastSpace).Some? ==> 0 < HardSplit(c, s, complete, i, lastSpace).value <= complete
    decreases complete - i
  {
    if i < complete {
      HardSplitInside(c, s, complete, i + 1, if IsSpace(s[i]) then Some(i + 1) else lastSpace);
    }
  }

  /** Every boundary is positive and lies within the complete part. */
  lemma BoundaryInside(c: Config, s: string)
    ensures Boundary(c, s).Some? ==> 0 < Boundary(c, s).value <= CompletePrefix(s)
  {
    ScanInside(c, s, CompletePrefix(s), 0, None);
    HardSplitInside(c, s, CompletePrefix(s), 0, None);
  }

  /** A long enough complete part always has a hard split. */
  lemma {:induction false} HardSplitExists(c: Config, s: string, complete: nat, i: nat, lastSpace: Option<nat>)
    requires i < complete <= |s| && Characters(s[..complete]) >= c.targetCharacters
    ensures HardSplit(c, s, complete, i, lastSpace).Some?
    decreases complete - i
  {
    if i + 1 < complete {
      HardSplitExists(c, s, complete, i + 1, if IsSpace(s[i]) then Some(i + 1) else lastSpace);
    } else {
      assert s[..i + 1] == s[..complete];
    }
  }

  /** Without a boundary the complete part is shorter than the hard maximum. */
  lemma NoBoundaryMeansShort(c: Config, s: string)
    requires ValidConfig(c) && Boundary(c, s).None?
    ensures Characters(s[..CompletePrefix(s)]) < c.hardMaxCharacters
  {
    var complete := CompletePrefix(s);
    if Characters(s[..complete]) >= c.hardMaxCharacters {
      assert complete > 0;
      HardSplitExists(c, s, complete, 0, None);
    }
  }

  // ---------------------------------------------------------------- which boundary is chosen

  /** The first outright end from `i` on, or else the last possible one, or else what was found before. */
  ghost predicate ChoiceOk(c: Config, s: string, complete: nat, i: nat, soft: Option<nat>, r: Option<nat>)
    requires i <= complete <= |s|
  {
    || (exists k :: i <= k < complete && IsFirstEnd(c, s, i, k) && r == Some(k + PunctuationAt(s, k).bytes))
    || (NoEnd(c, s, i, complete) && exists k :: i <= k < complete && IsLastSoft(c, s, k, complete) && r == Some(k + PunctuationAt(s, k).bytes))
    || (NoEnd(c, s, i, complete) && NoSoft(c, s, i, complete) && r == soft)
  }

  /** The scan answers with the first outright end, or else with the last possible one. */
  lemma {:induction false} ScanChoice(c: Config, s: string, complete: nat, i: nat, soft: Option<nat>)
    requires i <= complete <= |s|
    ensures ChoiceOk(c, s, complete, i, soft, Scan(c, s, complete, i, soft))
    decreases complete - i
  {
    if i < complete {
      if EndsSentence(c, s, i) {
        assert IsFirstEnd(c, s, i, i);
      } else {
        var soft' := if MayEnd(c, s, i) then Some(i + PunctuationAt(s, i).bytes) else soft;
        ScanChoice(c, s, complete, i + 1, soft');
        ChoiceGoesOn(c, s, complete, i, soft, Scan(c, s, complete, i + 1, soft'));
      }
    }
  }

  lemma ChoiceGoesOn(c: Config, s: string, complete: nat, i: nat, soft: Option<nat>, r: Option<nat>)
    requires i < complete <= |s| && !EndsSentence(c, s, i)
    requires ChoiceOk(c, s, complete, i + 1, if MayEnd(c, s, i) then Some(i + PunctuationAt(s, i).bytes) else soft, r)
    ensures ChoiceOk(c, s, complete, i, soft, r)
  {
    if k :| i + 1 <= k < complete && IsFirstEnd(c, s, i + 1, k) && r == Some(k + PunctuationAt(s, k).bytes) {
      assert IsFirstEnd(c, s, i, k);
    } else if NoSoft(c, s, i + 1, complete) && MayEnd(c, s, i) {
      assert IsLastSoft(c, s, i, complete);
    }
  }

  ghost predicate NoEnd(c: Config, s: string, i: nat, complete: nat)
    requires complete <= |s|
  {
    forall k :: i <= k < complete ==> !EndsSentence(c, s, k)
  }

  ghost predicate NoSoft(c: Config, s: string, i: nat, complete: nat)
    requires complete <= |s|
  {
    forall k :: i <= k < complete ==> !MayEnd(c, s, k)
  }

  ghost predicate IsFirstEnd(c: Config, s: string, i: nat, k: nat)
    requires i <= k < |s|
  {
    EndsSentence(c, s, k) && NoEnd(c, s, i, k)
  }

  ghost predicate IsLastSoft(c: Config, s: string, k: nat, complete: nat)
    requires k < complete <= |s|
  {
    MayEnd(c, s, k) && NoSoft(c, s, k + 1, complete)
  }

  // ---------------------------------------------------------------- extraction

  /** `failed` is the exception for incomplete UTF-8; the sentences found before it are lost. */
  datatype Extraction = Extraction(sentences: seq<string>, buffer: string, failed: bool)

  /** Where the next sentence is cut off; 0 when nothing is. */
  function CutAt(c: Config, buffer: string, flushing: bool): (k: nat)
    ensures k <= |buffer| && (flushing && buffer != "" ==> k > 0)
  {
    BoundaryInside(c, buffer);
    if Boundary(c, buffer).Some? then Boundary(c, buffer).value else if flushing then |buffer| else 0
  }

  function Extract(c: Config, buffer: string, flushing: bool): Extraction
    decreases |buffer|
  {
    var k := CutAt(c, buffer, flushing);
    if flushing && CompletePrefix(buffer) != |buffer| then Extraction([], buffer, true)
    else if k == 0 then Extraction([], buffer, false)
    else
      var sentence := Trim(buffer[..k]);
      var rest := Extract(c, DropSpaces(buffer[k..]), flushing);
      if rest.failed then rest
      else rest.(sentences := (if sentence == "" then [] else [sentence]) + rest.sentences)
  }

  /** The cuts an extraction makes, one after the other. */
  function Cuts(c: Config, s: string, flushing: bool): seq<nat>
    decreases |s|
  {
    var k := CutAt(c, s, flushing);
    if k == 0 then [] else [k] + Cuts(c, DropSpaces(s[k..]), flushing)
  }

  /** Cutting a text, whoever chose the cuts. */
  function Apply(s: string, cuts: seq<nat>): Extraction
    decreases |cuts|
  {
    if cuts == [] || cuts[0] > |s| then Extraction([], s, false)
    else
      var sentence := Trim(s[..cuts[0]]);
      var rest := Apply(DropSpaces(s[cuts[0]..]), cuts[1..]);
      rest.(sentences := (if sentence == "" then [] else [sentence]) + rest.sentences)
  }

  lemma {:induction false} ExtractApplies(c: Config, s: string, flushing: bool)
    requires !Extract(c, s, flushing).failed
    ensures Extract(c, s, flushing) == Apply(s, Cuts(c, s, flushing))
    decreases |s|
  {
    var k := CutAt(c, s, flushing);
    if k > 0 {
      var rest := DropSpaces(s[k..]);
      ExtractApplies(c, rest, flushing);
      assert ([k] + Cuts(c, rest, flushing))[1..] == Cuts(c, rest, flushing);
    }
  }

  function Push(c: Config, buffer: string, delta: string): Extraction { Extract(c, buffer + delta, false) }

  function Flush(c: Config, buffer: string): Extraction { Extract(c, buffer, true) }

  // ---------------------------------------------------------------- content is conserved

  function Content(s: string): string {
    if s == "" then ""
    else if IsSpace(s[0]) then Content(s[1..]) else [s[0]] + Content(s[1..])
  }

  function Contents(sentences: seq<string>): string {
    if sentences == [] then "" else Content(sentences[0]) + Contents(sentences[1..])
  }

  lemma {:induction false} ContentAppend(a: string, b: string)
    ensures Content(a + b) == Content(a) + Content(b)
  {
    if a == "" {
      assert a + b == b;
    } else {
      assert (a + b)[1..] == a[1..] + b;
      ContentAppend(a[1..], b);
    }
  }

  lemma {:induction false} DropSpacesContent(s: string)
    ensures Content(DropSpaces(s)) == Content(s)
  {
    if s != "" && IsSpace(s[0]) {
      DropSpacesContent(s[1..]);
    }
  }

  lemma {:induction false} DropLastSpacesContent(s: string)
    ensures Content(DropLastSpaces(s)) == Content(s)
  {
    if s != "" && IsSpace(s[|s| - 1]) {
      DropLastSpacesContent(s[..|s| - 1]);
      ContentAppend(s[..|s| - 1], [s[|s| - 1]]);
      assert s == s[..|s| - 1] + [s[|s| - 1]];
    }
  }

  lemma TrimContent(s: string)
    ensures Content(Trim(s)) == Content(s)
  {
    DropSpacesContent(s);
    DropLastSpacesContent(DropSpaces(s));
  }

  lemma {:induction false} ApplyConserves(s: string, cuts: seq<nat>)
    ensures Contents(Apply(s, cuts).sentences) + Content(Apply(s, cuts).buffer) == Content(s)
    decreases |cuts|
  {
    if cuts != [] && cuts[0] <= |s| {
      var rest := DropSpaces(s[cuts[0]..]);
      var more := Apply(rest, cuts[1..]);
      ApplyConserves(rest, cuts[1..]);
      CutContent(s, cuts[0]);
      ContentsFirst(Trim(s[..cuts[0]]), more.sentences);
      Regroup(Content(Trim(s[..cuts[0]])), Contents(more.sentences), Content(more.buffer));
    }
  }

  /** Sentences followed by the retained buffer are the input, up to whitespace. */
  lemma ExtractConserves(c: Config, buffer: string, flushing: bool)
    requires !Extract(c, buffer, flushing).failed
    ensures var e := Extract(c, buffer, flushing);
            Contents(e.sentences) + Content(e.buffer) == Content(buffer)
  {
    ExtractApplies(c, buffer, flushing);
    ApplyConserves(buffer, Cuts(c, buffer, flushing));
  }

  lemma CutContent(buffer: string, k: nat)
    requires k <= |buffer|
    ensures Content(Trim(buffer[..k])) + Content(DropSpaces(buffer[k..])) == Content(buffer)
  {
    TrimContent(buffer[..k]);
    DropSpacesContent(buffer[k..]);
    ContentCut(buffer, k);
  }

  lemma ContentCut(s: string, k: nat)
    requires k <= |s|
    ensures Content(s[..k]) + Content(s[k..]) == Content(s)
  {
    Rejoined(s, k);
    ContentWhole(s[..k], s[k..], s);
  }

  lemma Rejoined(s: string, k: nat)
    requires k <= |s|
    ensures s[..k] + s[k..] == s
  {
  }

  lemma ContentWhole(a: string, b: string, s: string)
    requires a + b == s
    ensures Content(a) + Content(b) == Content(s)
  {
    ContentAppend(a, b);
  }

  lemma ContentsFirst(sentence: string, rest: seq<string>)
    ensures Contents((if sentence == "" then [] else [sentence]) + rest) == Content(sentence) + Contents(rest)
  {
    if sentence == "" {
      assert [] + rest == rest;
    } else {
      assert ([sentence] + rest)[1..] == rest;
    }
  }

  // ---------------------------------------------------------------- whole runs of pushes

  /** Everything emitted and retained after a sequence of pushes on an empty segmenter. */
  function PushAll(c: Config, deltas: seq<string>): Extraction {
    if deltas == [] then Extraction([], "", false)
    else
      var before := PushAll(c, deltas[..|deltas| - 1]);
      var now := Push(c, before.buffer, deltas[|deltas| - 1]);
      Extraction(before.sentences + now.sentences, now.buffer, false)
  }

  function Concat(deltas: seq<string>): string {
    if deltas == [] then "" else Concat(deltas[..|deltas| - 1]) + deltas[|deltas| - 1]
  }

  lemma {:induction false} ContentsAppend(a: seq<string>, b: seq<string>)
    ensures Contents(a + b) == Contents(a) + Contents(b)
  {
    if a == [] {
      assert a + b == b;
    } else {
      assert (a + b)[1..] == a[1..] + b;
      ContentsAppend(a[1..], b);
    }
  }

  lemma {:induction false} PushNeverFails(c: Config, buffer: string)
    ensures !Extract(c, buffer, false).failed
    decreases |buffer|
  {
    var k := CutAt(c, buffer, false);
    if k > 0 {
      PushNeverFails(c, DropSpaces(buffer[k..]));
    }
  }

  lemma PushConserves(c: Config, buffer: string, delta: string)
    ensures Contents(Push(c, buffer, delta).sentences) + Content(Push(c, buffer, delta).buffer) == Content(buffer) + Content(delta)
  {
    PushNeverFails(c, buffer + delta);
    ExtractConserves(c, buffer + delta, false);
    ContentAppend(buffer, delta);
  }

  /** For every sequence of pushes nothing but whitespace is lost, duplicated or reordered. */
  lemma {:induction false} PushesConserveContent(c: Config, deltas: seq<string>)
    ensures Contents(PushAll(c, deltas).sentences) + Content(PushAll(c, deltas).buffer) == Content(Concat(deltas))
    decreases |deltas|
  {
    if deltas != [] {
      var init, last := deltas[..|deltas| - 1], deltas[|deltas| - 1];
      PushesConserveContent(c, init);
      var before := PushAll(c, init);
      var now := Push(c, before.buffer, last);
      PushConserves(c, before.buffer, last);
      ContentAppend(Concat(init), last);
      ContentsAppend(before.sentences, now.sentences);
      Regroup(Contents(before.sentences), Contents(now.sentences), Content(now.buffer));
      Regroup(Contents(before.sentences), Content(before.buffer), Content(last));
    }
  }

  // ---------------------------------------------------------------- flushing

  /** A complete text stays complete when its front is taken off. */
  lemma CompleteSuffix(s: string, k: nat)
    requires CompletePrefix(s) == |s| && k <= |s|
    ensures CompletePrefix(s[k..]) == |s| - k
  {
    var t := s[k..];
    if t != "" {
      var start, start' := LeadIndex(s, |s| - 1), LeadIndex(t, |t| - 1);
      if start >= k {
        assert t[start - k] == s[start];
        assert start' == start - k by {
          assert forall i :: start' < i < |t| ==> t[i] == s[i + k];
          assert start' > 0 ==> !IsCont(t[start']) && t[start'] == s[start' + k];
          assert start > k ==> !IsCont(t[start - k]);
        }
      } else {
        assert IsCont(t[start']) by { assert t[start'] == s[start' + k]; }
      }
    }
  }

  /** Flushing fails exactly when the buffer ends inside a character, and then loses nothing;
      otherwise it empties the buffer and emits all of its content. */
  lemma {:induction false} FlushOutcome(c: Config, buffer: string)
    ensures Flush(c, buffer).failed <==> CompletePrefix(buffer) != |buffer|
    ensures Flush(c, buffer).failed ==> Flush(c, buffer).buffer == buffer
    ensures !Flush(c, buffer).failed ==>
              Flush(c, buffer).buffer == "" && Contents(Flush(c, buffer).sentences) == Content(buffer)
    decreases |buffer|
  {
    if buffer != "" && CompletePrefix(buffer) == |buffer| {
      RestComplete(buffer, CutAt(c, buffer, true));
      FlushOutcome(c, DropSpaces(buffer[CutAt(c, buffer, true)..]));
    }
    if !Flush(c, buffer).failed {
      ExtractConserves(c, buffer, true);
    }
  }

  // ---------------------------------------------------------------- lengths

  lemma {:induction false} CharactersAppend(a: string, b: string)
    ensures Characters(a + b) == Characters(a) + Characters(b)
  {
    if b == "" {
      assert a + b == a;
    } else {
      assert (a + b)[..|a + b| - 1] == a + b[..|b| - 1];
      CharactersAppend(a, b[..|b| - 1]);
    }
  }

  lemma {:induction false} DropSpacesFits(s: string)
    ensures Characters(DropSpaces(s)) <= Characters(s)
  {
    if s != "" && IsSpace(s[0]) {
      DropSpacesFits(s[1..]);
      CharactersCut(s, 1);
    }
  }

  lemma {:induction false} DropLastSpacesFits(s: string)
    ensures Characters(DropLastSpaces(s)) <= Characters(s)
  {
    if s != "" && IsSpace(s[|s| - 1]) {
      DropLastSpacesFits(s[..|s| - 1]);
    }
  }

  lemma CharactersWhole(a: string, b: string, s: string)
    requires a + b == s
    ensures Characters(s) == Characters(a) + Characters(b)
  {
    CharactersAppend(a, b);
  }

  lemma CharactersCut(s: string, k: nat)
    requires k <= |s|
    ensures Characters(s) == Characters(s[..k]) + Characters(s[k..])
  {
    Rejoined(s, k);
    CharactersWhole(s[..k], s[k..], s);
  }

  /** Neither a sentence nor the rest has more characters than the text they are cut from. */
  lemma CutFits(s: string, k: nat)
    requires k <= |s|
    ensures Characters(Trim(s[..k])) <= Characters(s) && Characters(DropSpaces(s[k..])) <= Characters(s)
  {
    CharactersCut(s, k);
    DropSpacesFits(s[k..]);
    DropSpacesFits(s[..k]);
    DropLastSpacesFits(DropSpaces(s[..k]));
  }

  lemma {:induction false} ApplyFits(s: string, cuts: seq<nat>, i: nat)
    requires i < |Apply(s, cuts).sentences|
    ensures Characters(Apply(s, cuts).sentences[i]) <= Characters(s)
    decreases |cuts|
  {
    var k := cuts[0];
    CutFits(s, k);
    var first := if Trim(s[..k]) == "" then 0 else 1;
    if i >= first {
      ApplyFits(DropSpaces(s[k..]), cuts[1..], i - first);
    }
  }

  lemma SentencesFit(c: Config, buffer: string, flushing: bool, i: nat)
    requires i < |Extract(c, buffer, flushing).sentences| && !Extract(c, buffer, flushing).failed
    ensures Characters(Extract(c, buffer, flushing).sentences[i]) <= Characters(buffer)
  {
    ExtractApplies(c, buffer, flushing);
    ApplyFits(buffer, Cuts(c, buffer, flushing), i);
  }

  /** What is retained by a push is short: its complete part is below the hard maximum. */
  lemma {:induction false} RetainedIsShort(c: Config, buffer: string)
    requires ValidConfig(c)
    ensures var kept := Extract(c, buffer, false).buffer; Characters(kept[..CompletePrefix(kept)]) < c.hardMaxCharacters
    decreases |buffer|
  {
    var k := CutAt(c, buffer, false);
    if k > 0 {
      RetainedIsShort(c, DropSpaces(buffer[k..]));
      PushNeverFails(c, DropSpaces(buffer[k..]));
    } else {
      BoundaryInside(c, buffer);
      NoBoundaryMeansShort(c, buffer);
    }
  }

  /** The incomplete tail counts as one character at most. */
  lemma IncompleteTail(s: string)
    ensures Characters(s) <= Characters(s[..CompletePrefix(s)]) + 1
  {
    var n := CompletePrefix(s);
    if n < |s| {
      CharactersAppend(s[..n], s[n..]);
      assert s == s[..n] + s[n..];
      OnlyConts(s[n..]);
    } else {
      assert s[..n] == s;
    }
  }

  lemma {:induction false} OnlyConts(s: string)
    requires forall k :: 1 <= k < |s| ==> IsCont(s[k])
    ensures Characters(s) <= 1
  {
    if |s| > 1 {
      OnlyConts(s[..|s| - 1]);
    }
  }

  /** After any pushes, one more push emits sentences of at most `hardMax` plus the delta's length. */
  lemma SentenceLengthBound(c: Config, deltas: seq<string>, delta: string, k: nat)
    requires ValidConfig(c)
    requires k < |Push(c, PushAll(c, deltas).buffer, delta).sentences|
    ensures Characters(Push(c, PushAll(c, deltas).buffer, delta).sentences[k]) <= c.hardMaxCharacters + |delta|
  {
    var kept := PushAll(c, deltas).buffer;
    PushNeverFails(c, kept + delta);
    SentencesFit(c, kept + delta, false, k);
    CharactersAppend(kept, delta);
    IncompleteTail(kept);
    if deltas == [] {
      assert kept == "";
    } else {
      RetainedIsShort(c, PushAll(c, deltas[..|deltas| - 1]).buffer + deltas[|deltas| - 1]);
    }
  }

  /** A flush after any pushes emits only sentences shorter than the hard maximum. */
  lemma FlushedSentencesAreShort(c: Config, deltas: seq<string>, k: nat)
    requires ValidConfig(c) && k < |Flush(c, PushAll(c, deltas).buffer).sentences|
    ensures Characters(Flush(c, PushAll(c, deltas).buffer).sentences[k]) < c.hardMaxCharacters
  {
    var kept := PushAll(c, deltas).buffer;
    FlushOutcome(c, kept);
    FlushFailsEmpty(c, kept);
    SentencesFit(c, kept, true, k);
    assert kept[..|kept|] == kept;
    if deltas == [] {
      assert kept == "";
    } else {
      RetainedIsShort(c, PushAll(c, deltas[..|deltas| - 1]).buffer + deltas[|deltas| - 1]);
    }
  }

  lemma {:induction false} FlushFailsEmpty(c: Config, buffer: string)
    ensures Flush(c, buffer).failed ==> Flush(c, buffer).sentences == []
    decreases |buffer|
  {
    var k := CutAt(c, buffer, true);
    if k > 0 { FlushFailsEmpty(c, DropSpaces(buffer[k..])); }
  }

  // ---------------------------------------------------------------- exactly when a sentence is too long

  lemma PrefixFits(s: string, i: nat, j: nat)
    requires i <= j <= |s|
    ensures Characters(s[..i]) <= Characters(s[..j])
  {
    CharactersCut(s[..j], i);
    PrefixOfPrefix(s, i, j);
  }

  lemma PrefixOfPrefix(s: string, i: nat, j: nat)
    requires i <= j <= |s|
    ensures s[..j][..i] == s[..i]
  {
  }

  lemma PrefixGrows(s: string, i: nat)
    requires i < |s|
    ensures Characters(s[..i + 1]) == Characters(s[..i]) + if IsCont(s[i]) then 0 else 1
  {
    PrefixOfPrefix(s, i, i + 1);
  }

  lemma {:induction false} ContsAddNothing(s: string, complete: nat, i: nat)
    requires i <= complete <= |s|
    ensures Characters(s[..SkipCont(s, complete, i)]) == Characters(s[..i])
    decreases complete - i
  {
    if i < complete && IsCont(s[i]) {
      ContsAddNothing(s, complete, i + 1);
      PrefixGrows(s, i);
    }
  }

  /** A hard split never exceeds the target. */
  lemma {:induction false} HardSplitFits(c: Config, s: string, complete: nat, i: nat, lastSpace: Option<nat>)
    requires complete <= |s| && i <= complete && Characters(s[..i]) < c.targetCharacters
    requires lastSpace.Some? ==> lastSpace.value <= i
    ensures var r := HardSplit(c, s, complete, i, lastSpace);
            r.Some? ==> r.value <= |s| && Characters(s[..r.value]) <= c.targetCharacters
    decreases complete - i
  {
    if i < complete {
      PrefixGrows(s, i);
      var space := if IsSpace(s[i]) then Some(i + 1) else lastSpace;
      if Characters(s[..i + 1]) >= c.targetCharacters {
        var from := if space.Some? then space.value else i + 1;
        ContsAddNothing(s, complete, from);
        PrefixFits(s, from, i + 1);
      } else {
        HardSplitFits(c, s, complete, i + 1, space);
      }
    }
  }

  /** The punctuation that is chosen: the first that ends a sentence outright, or else the last that
      may end one. */
  ghost predicate Chosen(c: Config, s: string, k: nat) {
    && k < CompletePrefix(s) && k + PunctuationAt(s, k).bytes <= |s|
    && (IsFirstEnd(c, s, 0, k) || (NoEnd(c, s, 0, CompletePrefix(s)) && IsLastSoft(c, s, k, CompletePrefix(s))))
  }

  lemma ChosenOnce(c: Config, s: string, j: nat, k: nat)
    requires Chosen(c, s, j) && Chosen(c, s, k)
    ensures j == k
  {
  }

  lemma ScannedIsChosen(c: Config, s: string) returns (k: nat)
    requires Scan(c, s, CompletePrefix(s), 0, None).Some?
    ensures Chosen(c, s, k) && Scan(c, s, CompletePrefix(s), 0, None) == Some(k + PunctuationAt(s, k).bytes)
  {
    ScanChoice(c, s, CompletePrefix(s), 0, None);
    ScanInside(c, s, CompletePrefix(s), 0, None);
    k :| 0 <= k < CompletePrefix(s) && Scan(c, s, CompletePrefix(s), 0, None) == Some(k + PunctuationAt(s, k).bytes)
         && (IsFirstEnd(c, s, 0, k) || (NoEnd(c, s, 0, CompletePrefix(s)) && IsLastSoft(c, s, k, CompletePrefix(s))));
  }

  lemma NothingScanned(c: Config, s: string, k: nat)
    requires Scan(c, s, CompletePrefix(s), 0, None).None?
    ensures !Chosen(c, s, k)
  {
    ScanChoice(c, s, CompletePrefix(s), 0, None);
  }

  /** The text up to and including a punctuation. */
  function Until(s: string, k: nat): string
    requires k < |s| && k + PunctuationAt(s, k).bytes <= |s|
  {
    s[..k + PunctuationAt(s, k).bytes]
  }

  /** The chosen punctuation lies beyond the hard maximum. */
  ghost predicate LateStop(c: Config, s: string) {
    exists k: nat :: Chosen(c, s, k) && Characters(Until(s, k)) > c.hardMaxCharacters
  }

  /** The text up to the chosen punctuation is longer than the hard maximum even when trimmed. */
  ghost predicate LongStop(c: Config, s: string) {
    exists k: nat :: Chosen(c, s, k) && Characters(Trim(Until(s, k))) > c.hardMaxCharacters
  }

  /** Any other cut stays within the hard maximum. */
  lemma OtherCutsFit(c: Config, s: string, flushing: bool)
    requires ValidConfig(c) && CutAt(c, s, flushing) > 0 && (flushing ==> CompletePrefix(s) == |s|)
    requires Scan(c, s, CompletePrefix(s), 0, None).None?
    ensures Characters(s[..CutAt(c, s, flushing)]) <= c.hardMaxCharacters
  {
    assert s[..0] == "";
    HardSplitFits(c, s, CompletePrefix(s), 0, None);
    if Boundary(c, s).None? { NoBoundaryMeansShort(c, s); }
  }

  /** Where punctuation is chosen, the cut is made behind it. */
  lemma StopsAtChosen(c: Config, s: string, flushing: bool, k: nat)
    requires Chosen(c, s, k) && Scan(c, s, CompletePrefix(s), 0, None) == Some(k + PunctuationAt(s, k).bytes)
    ensures s[..CutAt(c, s, flushing)] == Until(s, k)
    ensures LateStop(c, s) <==> Characters(Until(s, k)) > c.hardMaxCharacters
    ensures LongStop(c, s) <==> Characters(Trim(Until(s, k))) > c.hardMaxCharacters
  {
    forall j: nat | Chosen(c, s, j) ensures j == k { ChosenOnce(c, s, j, k); }
  }

  /** Per cut, the exact condition: it is longer than the hard maximum if and only if the punctuation
      chosen, the first outright end or else the last possible one, lies beyond the hard maximum. */
  lemma CutTooLongIff(c: Config, s: string, flushing: bool)
    requires ValidConfig(c) && CutAt(c, s, flushing) > 0 && (flushing ==> CompletePrefix(s) == |s|)
    ensures Characters(s[..CutAt(c, s, flushing)]) > c.hardMaxCharacters <==> LateStop(c, s)
  {
    if Scan(c, s, CompletePrefix(s), 0, None).Some? {
      var k := ScannedIsChosen(c, s);
      StopsAtChosen(c, s, flushing, k);
    } else {
      forall j: nat ensures !Chosen(c, s, j) { NothingScanned(c, s, j); }
      OtherCutsFit(c, s, flushing);
    }
  }

  /** The same for the sentence that is made of the cut. */
  lemma SentenceTooLongIff(c: Config, s: string, flushing: bool)
    requires ValidConfig(c) && CutAt(c, s, flushing) > 0 && (flushing ==> CompletePrefix(s) == |s|)
    ensures Characters(Trim(s[..CutAt(c, s, flushing)])) > c.hardMaxCharacters <==> LongStop(c, s)
  {
    if Scan(c, s, CompletePrefix(s), 0, None).Some? {
      var k := ScannedIsChosen(c, s);
      StopsAtChosen(c, s, flushing, k);
    } else {
      forall j: nat ensures !Chosen(c, s, j) { NothingScanned(c, s, j); }
      OtherCutsFit(c, s, flushing);
      var cut := s[..CutAt(c, s, flushing)];
      DropSpacesFits(cut);
      DropLastSpacesFits(DropSpaces(cut));
    }
  }

  /** Somewhere among the texts that are cut one after the other there is such a punctuation. */
  ghost predicate SomeLongStop(c: Config, s: string, flushing: bool)
    decreases |s|
  {
    var k := CutAt(c, s, flushing);
    k > 0 && (LongStop(c, s) || SomeLongStop(c, DropSpaces(s[k..]), flushing))
  }

  ghost predicate AnyTooLong(c: Config, sentences: seq<string>) {
    exists i :: 0 <= i < |sentences| && Characters(sentences[i]) > c.hardMaxCharacters
  }

  lemma TooLongFirst(c: Config, first: string, rest: seq<string>)
    ensures AnyTooLong(c, (if first == "" then [] else [first]) + rest) <==>
            Characters(first) > c.hardMaxCharacters || AnyTooLong(c, rest)
  {
    var all := (if first == "" then [] else [first]) + rest;
    if AnyTooLong(c, rest) {
      var i :| 0 <= i < |rest| && Characters(rest[i]) > c.hardMaxCharacters;
      assert all[|all| - |rest| + i] == rest[i];
    }
    if first != "" { assert all[0] == first; }
  }

  /** Exactly when a push or a flush emits a sentence longer than the hard maximum. */
  lemma {:induction false} TooLongIff(c: Config, s: string, flushing: bool)
    requires ValidConfig(c) && !Extract(c, s, flushing).failed
    ensures AnyTooLong(c, Extract(c, s, flushing).sentences) <==> SomeLongStop(c, s, flushing)
    decreases |s|
  {
    var k := CutAt(c, s, flushing);
    if k > 0 {
      var rest := DropSpaces(s[k..]);
      TooLongIff(c, rest, flushing);
      SentenceTooLongIff(c, s, flushing);
      TooLongFirst(c, Trim(s[..k]), Extract(c, rest, flushing).sentences);
    }
  }

  /** For a push: the only way past the hard maximum is through late punctuation. */
  lemma PushExceedsIff(c: Config, buffer: string, delta: string)
    requires ValidConfig(c)
    ensures AnyTooLong(c, Push(c, buffer, delta).sentences) <==> SomeLongStop(c, buffer + delta, false)
  {
    PushNeverFails(c, buffer + delta);
    TooLongIff(c, buffer + delta, false);
  }

  /** The hard maximum alone is no bound: punctuation is tried first, so one large delta can yield a
      longer sentence. */
  lemma HardMaxIsNoBound(c: Config, s: string)
    requires c == Config(1, 1, 1) && s == "ab!"
    ensures ValidConfig(c) && Push(c, "", s).sentences == [s] && Characters(s) > c.hardMaxCharacters
  {
    assert "" + s == s;
    LongSentence(c, s);
    BoundaryInside(c, s);
    assert CutAt(c, s, false) == 3;
    assert s[..3] == s && s[3..] == "";
    EmptyExtracts(c, false);
  }

  lemma LongSentence(c: Config, s: string)
    requires c == Config(1, 1, 1) && s == "ab!"
    ensures Boundary(c, s) == Some(3) && Characters(s) == 3 && Trim(s) == s && DropSpaces("") == ""
  {
    assert s[..3] == s && s[..2][..1] == s[..1] && s[..1][..0] == "";
    assert Characters(s[..1]) == 1;
    assert Characters(s[..2]) == 2;
    assert LeadIndex(s, 2) == 2;
    assert PunctuationAt(s, 0).bytes == 0 && PunctuationAt(s, 1).bytes == 0 && PunctuationAt(s, 2) == Punctuation(1, true);
    assert Scan(c, s, 3, 2, None) == Some(3);
    assert Scan(c, s, 3, 1, None) == Some(3);
  }

  lemma EmptyExtracts(c: Config, flushing: bool)
    ensures Extract(c, "", flushing) == Extraction([], "", false)
  {
    BoundaryInside(c, "");
  }

  // ---------------------------------------------------------------- UTF-8 alignment

  /** In a text that some continuation completes to well-formed UTF-8, a cut point that is a boundary
      of the completed text leaves a well-formed front and a rest that can still be completed. */
  lemma CutPrefix(s: string, t: string, k: nat)
    requires WellFormed(s + t) && k <= |s| && AtBoundary(s + t, k)
    ensures WellFormed(s[..k]) && WellFormed(s[k..] + t)
  {
    CutAtBoundary(s + t, k);
    assert (s + t)[..k] == s[..k] && (s + t)[k..] == s[k..] + t;
  }

  /** The complete part ends at a boundary of every completion. */
  lemma CompleteIsBoundary(s: string, t: string)
    requires WellFormed(s + t)
    ensures AtBoundary(s + t, CompletePrefix(s))
  {
    if s == "" {
      StartsAtBoundary(s + t);
    } else {
      var start := LeadIndex(s, |s| - 1);
      StartsAtBoundary(s + t);
      assert (s + t)[start] == s[start];
      if CompletePrefix(s) == |s| {
        BoundaryHead(s + t, start);
        WidthIsHead((s + t)[start..]);
        assert (s + t)[start..][0] == s[start];
      }
    }
  }

  lemma StartsAtBoundary(s: string)
    requires WellFormed(s)
    ensures AtBoundary(s, 0)
  {
  }

  lemma WidthIsHead(s: string)
    requires Head(s) > 0
    ensures Width(s[0]) == Head(s)
  {
  }

  lemma AsciiBoundary(s: string, i: nat)
    requires WellFormed(s) && i < |s| && s[i] as int < 0x80
    ensures AtBoundary(s, i + 1)
  {
    BoundaryHead(s, i);
    assert s[i..][0] == s[i];
  }

  lemma PunctuationBoundary(s: string, t: string, i: nat)
    requires WellFormed(s + t) && i < |s|
    ensures PunctuationAt(s, i).bytes > 0 ==> AtBoundary(s + t, i + PunctuationAt(s, i).bytes)
  {
    var p := PunctuationAt(s, i);
    assert (s + t)[i] == s[i];
    if p.bytes == 1 {
      AsciiBoundary(s + t, i);
    } else if p.bytes == 3 {
      WideBytes(s, i);
      BoundaryHead(s + t, i);
      WidthIsHead((s + t)[i..]);
      assert (s + t)[i..][0] == s[i];
    }
  }

  lemma {:induction false} ScanAligned(c: Config, s: string, t: string, complete: nat, i: nat, soft: Option<nat>)
    requires WellFormed(s + t) && complete <= |s| && (soft.Some? ==> AtBoundary(s + t, soft.value))
    ensures Scan(c, s, complete, i, soft).Some? ==> AtBoundary(s + t, Scan(c, s, complete, i, soft).value)
    decreases complete - i
  {
    if i < complete {
      PunctuationBoundary(s, t, i);
      ScanAligned(c, s, t, complete, i + 1, if MayEnd(c, s, i) then Some(i + PunctuationAt(s, i).bytes) else soft);
    }
  }

  lemma {:induction false} HardSplitAligned(c: Config, s: string, t: string, complete: nat, i: nat, space: Option<nat>)
    requires complete <= |s| && AtBoundary(s + t, complete) && (space.Some? ==> 0 < space.value <= complete)
    ensures HardSplit(c, s, complete, i, space).Some? ==> AtBoundary(s + t, HardSplit(c, s, complete, i, space).value)
    decreases complete - i
  {
    if i < complete {
      var now := if IsSpace(s[i]) then Some(i + 1) else space;
      var cut := SkipCont(s, complete, if now.Some? then now.value else i + 1);
      assert cut < |s| ==> (s + t)[cut] == s[cut];
      HardSplitAligned(c, s, t, complete, i + 1, now);
    }
  }

  lemma BoundaryAligned(c: Config, s: string, t: string)
    requires WellFormed(s + t)
    ensures Boundary(c, s).Some? ==> AtBoundary(s + t, Boundary(c, s).value)
  {
    CompleteIsBoundary(s, t);
    ScanAligned(c, s, t, CompletePrefix(s), 0, None);
    HardSplitAligned(c, s, t, CompletePrefix(s), 0, None);
  }

  lemma {:induction false} DropSpacesAligned(s: string, t: string)
    requires WellFormed(s + t)
    ensures WellFormed(s[..|s| - |DropSpaces(s)|]) && WellFormed(DropSpaces(s) + t)
  {
    if s != "" && IsSpace(s[0]) {
      AsciiBoundary(s + t, 0);
      CutPrefix(s, t, 1);
      DropSpacesAligned(s[1..], t);
      AppendWellFormed(s[..1], s[1..][..|s| - 1 - |DropSpaces(s)|]);
      CutGlue(s, 1, |s| - |DropSpaces(s)|);
    } else {
      assert s[..0] == "";
    }
  }

  lemma {:induction false} DropLastSpacesWellFormed(s: string)
    requires WellFormed(s)
    ensures WellFormed(DropLastSpaces(s))
  {
    if s != "" && IsSpace(s[|s| - 1]) {
      CutAtBoundary(s, |s| - 1);
      DropLastSpacesWellFormed(s[..|s| - 1]);
    }
  }

  lemma TrimWellFormed(s: string)
    requires WellFormed(s)
    ensures WellFormed(Trim(s))
  {
    assert s + "" == s && DropSpaces(s) + "" == DropSpaces(s);
    DropSpacesAligned(s, "");
    DropLastSpacesWellFormed(DropSpaces(s));
  }

  lemma CutAtAligned(c: Config, s: string, t: string, flushing: bool)
    requires WellFormed(s + t) && (flushing ==> CompletePrefix(s) == |s|)
    ensures AtBoundary(s + t, CutAt(c, s, flushing))
  {
    BoundaryAligned(c, s, t);
    CompleteIsBoundary(s, t);
    StartsAtBoundary(s + t);
  }

  /** One cut at a boundary: a well-formed sentence, well-formed blanks, a rest that can still be completed. */
  lemma CutAligned(s: string, t: string, k: nat)
    requires WellFormed(s + t) && k <= |s| && AtBoundary(s + t, k)
    ensures var rest := DropSpaces(s[k..]);
            && WellFormed(s[..k]) && WellFormed(Trim(s[..k]))
            && WellFormed(s[k..][..|s| - k - |rest|]) && WellFormed(rest + t)
  {
    CutPrefix(s, t, k);
    TrimWellFormed(s[..k]);
    DropSpacesAligned(s[k..], t);
  }

  /** Every cut falls on a boundary of the completed text. */
  ghost predicate CutsAligned(s: string, t: string, cuts: seq<nat>)
    decreases |cuts|
  {
    cuts != [] ==> cuts[0] <= |s| && AtBoundary(s + t, cuts[0]) && CutsAligned(DropSpaces(s[cuts[0]..]), t, cuts[1..])
  }

  lemma {:induction false} CutsAreAligned(c: Config, s: string, t: string, flushing: bool)
    requires WellFormed(s + t) && (flushing ==> CompletePrefix(s) == |s|)
    ensures CutsAligned(s, t, Cuts(c, s, flushing))
    decreases |s|
  {
    var k := CutAt(c, s, flushing);
    if k > 0 {
      CutAtAligned(c, s, t, flushing);
      CutAligned(s, t, k);
      var rest := DropSpaces(s[k..]);
      if flushing { RestComplete(s, k); }
      CutsAreAligned(c, rest, t, flushing);
      assert ([k] + Cuts(c, rest, flushing))[1..] == Cuts(c, rest, flushing);
    }
  }

  lemma RestComplete(s: string, k: nat)
    requires CompletePrefix(s) == |s| && k <= |s|
    ensures CompletePrefix(DropSpaces(s[k..])) == |DropSpaces(s[k..])|
  {
    RestIsSuffix(s, k);
    CompleteSuffix(s, |s| - |DropSpaces(s[k..])|);
  }

  /** `kept` is `s` minus a well-formed front. */
  ghost predicate KeptAligned(s: string, kept: string) {
    |kept| <= |s| && kept == s[|s| - |kept|..] && WellFormed(s[..|s| - |kept|])
  }

  ghost predicate AllWellFormed(sentences: seq<string>) {
    forall k :: 0 <= k < |sentences| ==> WellFormed(sentences[k])
  }

  /** Every emitted sentence is well-formed. */
  lemma {:induction false} SentencesAligned(s: string, t: string, cuts: seq<nat>)
    requires WellFormed(s + t) && CutsAligned(s, t, cuts)
    ensures AllWellFormed(Apply(s, cuts).sentences)
    decreases |cuts|
  {
    if cuts != [] {
      CutAligned(s, t, cuts[0]);
      SentencesAligned(DropSpaces(s[cuts[0]..]), t, cuts[1..]);
    }
  }

  /** What is retained is the input minus a well-formed front, so it starts at a code point and can
      still be completed. */
  lemma {:induction false} RetainedAligned(s: string, t: string, cuts: seq<nat>)
    requires WellFormed(s + t) && CutsAligned(s, t, cuts)
    ensures KeptAligned(s, Apply(s, cuts).buffer)
    decreases |cuts|
  {
    if cuts == [] {
      NothingCut(s);
    } else {
      CutAligned(s, t, cuts[0]);
      RetainedAligned(DropSpaces(s[cuts[0]..]), t, cuts[1..]);
      CutKeeps(s, cuts[0], Apply(s, cuts).buffer);
    }
  }

  lemma NothingCut(s: string)
    ensures KeptAligned(s, s)
  {
    assert s[..0] == "";
  }

  lemma ExtractAligned(c: Config, s: string, t: string, flushing: bool)
    requires WellFormed(s + t) && !Extract(c, s, flushing).failed
    ensures AllWellFormed(Extract(c, s, flushing).sentences) && KeptAligned(s, Extract(c, s, flushing).buffer)
  {
    ExtractApplies(c, s, flushing);
    CutsAreAligned(c, s, t, flushing);
    SentencesAligned(s, t, Cuts(c, s, flushing));
    RetainedAligned(s, t, Cuts(c, s, flushing));
  }

  lemma ThreePieces(s: string, k: nat, rest: string, kept: string)
    requires k <= |s| && |rest| <= |s| - k && rest == s[|s| - |rest|..] && |kept| <= |rest|
    ensures s[..k] + s[k..][..|s| - k - |rest|] + rest[..|rest| - |kept|] == s[..|s| - |kept|]
  {
    var n := |s| - |rest|;
    assert s[..k] + s[k..][..n - k] == s[..n];
    assert s[..n] + s[n..][..|rest| - |kept|] == s[..|s| - |kept|];
  }

  /** Three well-formed pieces in front of what is retained. */
  lemma FrontGrows(s: string, k: nat, rest: string, kept: string)
    requires k <= |s| && |rest| <= |s| - k && rest == s[|s| - |rest|..]
    requires WellFormed(s[..k]) && WellFormed(s[k..][..|s| - k - |rest|]) && KeptAligned(rest, kept)
    ensures KeptAligned(s, kept)
  {
    var a, b, d := s[..k], s[k..][..|s| - k - |rest|], rest[..|rest| - |kept|];
    AppendWellFormed(a, b);
    AppendWellFormed(a + b, d);
    ThreePieces(s, k, rest, kept);
  }

  lemma CutKeeps(s: string, k: nat, kept: string)
    requires k <= |s| && WellFormed(s[..k]) && WellFormed(s[k..][..|s| - k - |DropSpaces(s[k..])|])
    requires KeptAligned(DropSpaces(s[k..]), kept)
    ensures KeptAligned(s, kept)
  {
    RestIsSuffix(s, k);
    FrontGrows(s, k, DropSpaces(s[k..]), kept);
  }

  lemma FrontAppends(front: string, s: string, kept: string)
    requires WellFormed(front) && KeptAligned(s, kept)
    ensures KeptAligned(front + s, kept)
  {
    AppendWellFormed(front, s[..|s| - |kept|]);
    assert front + s[..|s| - |kept|] == (front + s)[..|front + s| - |kept|];
  }

  /** What was retained, completed, is well-formed: its front can be dropped. */
  lemma KeptCompletes(all: string, kept: string, t: string)
    requires KeptAligned(all, kept) && WellFormed(all + t)
    ensures WellFormed(kept + t)
  {
    var front := all[..|all| - |kept|];
    assert front + (kept + t) == all + t;
    DropFront(front, kept + t);
  }

  /** One more push keeps the alignment with everything pushed so far. */
  lemma PushAligned(c: Config, all: string, kept: string, delta: string, t: string)
    requires KeptAligned(all, kept) && WellFormed(all + delta + t)
    ensures AllWellFormed(Push(c, kept, delta).sentences) && KeptAligned(all + delta, Push(c, kept, delta).buffer)
  {
    Regroup(all, delta, t);
    KeptCompletes(all, kept, delta + t);
    Regroup(kept, delta, t);
    PushNeverFails(c, kept + delta);
    ExtractAligned(c, kept + delta, t, false);
    KeptThroughPush(all, kept, delta, Push(c, kept, delta).buffer);
  }

  lemma KeptThroughPush(all: string, kept: string, delta: string, kept': string)
    requires KeptAligned(all, kept) && KeptAligned(kept + delta, kept')
    ensures KeptAligned(all + delta, kept')
  {
    var front := all[..|all| - |kept|];
    FrontAppends(front, kept + delta, kept');
    assert front + (kept + delta) == all + delta;
  }

  /** After any pushes that are a prefix of well-formed UTF-8. */
  lemma {:induction false} PushesStayAligned(c: Config, deltas: seq<string>, t: string)
    requires WellFormed(Concat(deltas) + t)
    ensures AllWellFormed(PushAll(c, deltas).sentences) && KeptAligned(Concat(deltas), PushAll(c, deltas).buffer)
    decreases |deltas|
  {
    if deltas == [] {
      assert Concat(deltas)[..0] == "";
    } else {
      var init, last := deltas[..|deltas| - 1], deltas[|deltas| - 1];
      Regroup(Concat(init), last, t);
      PushesStayAligned(c, init, last + t);
      PushAligned(c, Concat(init), PushAll(c, init).buffer, last, t);
    }
  }

  /** UTF-8 safety: if the deltas so far are a prefix of well-formed UTF-8, every sentence emitted is
      well-formed and the buffer is empty or starts at a code point; a successful flush then emits
      well-formed sentences too. */
  lemma Utf8Safety(c: Config, deltas: seq<string>)
    requires Prefix(Concat(deltas))
    ensures AllWellFormed(PushAll(c, deltas).sentences)
    ensures PushAll(c, deltas).buffer != "" ==> !IsCont(PushAll(c, deltas).buffer[0])
    ensures !Flush(c, PushAll(c, deltas).buffer).failed ==> AllWellFormed(Flush(c, PushAll(c, deltas).buffer).sentences)
  {
    var t :| WellFormed(Concat(deltas) + t);
    PushesStayAligned(c, deltas, t);
    var kept := PushAll(c, deltas).buffer;
    KeptCompletes(Concat(deltas), kept, t);
    StartsAtBoundary(kept + t);
    if !Flush(c, kept).failed {
      ExtractAligned(c, kept, t, true);
    }
  }
}

/** The segmenter object, with the loops of the program. */
module SentenceSegmenters {
  import opened Common
  import opened Utf8
  import opened SegmenterModel

  method CompleteUtf8Prefix(text: string) returns (n: nat)
    ensures n == CompletePrefix(text)
  {
    if text == "" { return 0; }
    var start := |text| - 1;
    while start > 0 && IsCont(text[start])
      invariant 0 <= start < |text| && LeadIndex(text, start) == LeadIndex(text, |text| - 1)
    {
      start := start - 1;
    }
    var width := Width(text[start]);
    return if |text| - start < width then start else |text|;
  }

  method TrimText(text: string) returns (r: string)
    ensures r == Trim(text)
  {
    var first := 0;
    while first < |text| && IsSpace(text[first])
      invariant first <= |text| && DropSpaces(text[first..]) == DropSpaces(text)
    {
      assert text[first..][1..] == text[first + 1..];
      first := first + 1;
    }
    r := text[first..];
    assert r == DropSpaces(text);
    while r != "" && IsSpace(r[|r| - 1])
      invariant DropLastSpaces(r) == Trim(text)
      decreases |r|
    {
      r := r[..|r| - 1];
    }
  }

  /** Sentences found earlier, unless the rest throws and loses them. */
  function Prepend(sentences: seq<string>, e: Extraction): Extraction {
    if e.failed then e else e.(sentences := sentences + e.sentences)
  }

  lemma PrependNothing(e: Extraction)
    ensures Prepend([], e) == e
  {
    assert [] + e.sentences == e.sentences;
  }

  lemma PrependTwice(a: seq<string>, b: seq<string>, e: Extraction)
    ensures Prepend(a, Prepend(b, e)) == Prepend(a + b, e)
  {
    assert a + (b + e.sentences) == a + b + e.sentences;
  }

  class SentenceSegmenter {
    const config: Config
    var buffer: string

    constructor Build(config: Config)
      requires ValidConfig(config)
      ensures this.config == config && buffer == ""
    {
      this.config, buffer := config, "";
    }

    /** Limits out of order are refused. */
    static method Create(config: Config) returns (r: Option<SentenceSegmenter>)
      ensures r.Some? <==> ValidConfig(config)
      ensures r.Some? ==> fresh(r.value) && r.value.config == config && r.value.buffer == ""
    {
      if config.minCharacters == 0 || config.targetCharacters < config.minCharacters
         || config.hardMaxCharacters < config.targetCharacters {
        return None;
      }
      var s := new SentenceSegmenter.Build(config);
      return Some(s);
    }

    method CharacterCount(bytes: nat) returns (count: nat)
      ensures count == Characters(buffer[..if bytes < |buffer| then bytes else |buffer|])
    {
      var n := if bytes < |buffer| then bytes else |buffer|;
      count := 0;
      var i := 0;
      while i < n
        invariant i <= n && count == Characters(buffer[..i])
      {
        assert buffer[..i + 1][..i] == buffer[..i];
        if !IsCont(buffer[i]) { count := count + 1; }
        i := i + 1;
      }
    }

    method ScanPunctuation(complete: nat) returns (r: Option<nat>)
      requires complete <= |buffer|
      ensures r == Scan(config, buffer, complete, 0, None)
    {
      r := None;
      var i := 0;
      while i < complete
        invariant i <= complete
        invariant Scan(config, buffer, complete, i, r) == Scan(config, buffer, complete, 0, None)
      {
        var p := PunctuationAt(buffer, i);
        if p.bytes > 0 {
          var end := i + p.bytes;
          var characters := CharacterCount(end);
          if p.strong && characters >= config.minCharacters { return Some(end); }
          if characters >= config.targetCharacters { r := Some(end); }
        }
        i := i + 1;
      }
    }

    method SplitHard(complete: nat) returns (r: Option<nat>)
      requires complete <= |buffer|
      ensures r == HardSplit(config, buffer, complete, 0, None)
    {
      var characters := 0;
      var lastSpace: Option<nat> := None;
      var i := 0;
      while i < complete
        invariant i <= complete && characters == Characters(buffer[..i])
        invariant HardSplit(config, buffer, complete, i, lastSpace) == HardSplit(config, buffer, complete, 0, None)
      {
        assert buffer[..i + 1][..i] == buffer[..i];
        if !IsCont(buffer[i]) { characters := characters + 1; }
        if IsSpace(buffer[i]) { lastSpace := Some(i + 1); }
        if characters >= config.targetCharacters {
          var boundary := if lastSpace.Some? then lastSpace.value else i + 1;
          ghost var from := boundary;
          while boundary < complete && IsCont(buffer[boundary])
            invariant SkipCont(buffer, complete, boundary) == SkipCont(buffer, complete, from)
            decreases complete - boundary
          {
            boundary := boundary + 1;
          }
          return Some(boundary);
        }
        i := i + 1;
      }
      return None;
    }

    /** Where to cut next; also reports text that ends inside a character. */
    method FindCut(flushing: bool) returns (k: nat, incomplete: bool)
      ensures incomplete <==> flushing && CompletePrefix(buffer) != |buffer|
      ensures !incomplete ==> k == CutAt(config, buffer, flushing)
    {
      var complete := CompleteUtf8Prefix(buffer);
      if flushing && complete != |buffer| { return 0, true; }
      BoundaryInside(config, buffer);
      var boundary := ScanPunctuation(complete);
      if boundary.None? {
        var characters := CharacterCount(complete);
        if characters >= config.hardMaxCharacters {
          boundary := SplitHard(complete);
        }
      }
      if boundary.None? { return if flushing then |buffer| else 0, false; }
      return boundary.value, false;
    }

    method DropLeadingSpaces()
      modifies this`buffer
      ensures buffer == DropSpaces(old(buffer))
    {
      while buffer != "" && IsSpace(buffer[0])
        invariant DropSpaces(buffer) == DropSpaces(old(buffer))
        decreases |buffer|
      {
        buffer := buffer[1..];
      }
    }

    /** One round of the extraction loop: throws, stops, or takes a sentence (if not blank) off the front. */
    method TakeSentence(flushing: bool) returns (incomplete: bool, stop: bool, taken: seq<string>)
      modifies this`buffer
      ensures incomplete ==> buffer == old(buffer) && Extract(config, old(buffer), flushing) == Extraction([], buffer, true)
      ensures !incomplete && stop ==> buffer == old(buffer) && Extract(config, old(buffer), flushing) == Extraction([], buffer, false)
      ensures !incomplete && !stop ==> |buffer| < |old(buffer)| && Extract(config, old(buffer), flushing) == Prepend(taken, Extract(config, buffer, flushing))
    {
      var k;
      k, incomplete := FindCut(flushing);
      stop, taken := k == 0, [];
      if incomplete || stop { return; }
      var sentence := TrimText(buffer[..k]);
      buffer := buffer[k..];
      DropLeadingSpaces();
      if sentence != "" { taken := [sentence]; }
    }

    method ExtractSentences(flushing: bool) returns (r: Result<seq<string>>)
      modifies this`buffer
      ensures var e := Extract(config, old(buffer), flushing);
              && buffer == e.buffer
              && r == if e.failed then Throws("incomplete UTF-8 at end of text stream") else Done(e.sentences)
    {
      var output: seq<string> := [];
      PrependNothing(Extract(config, buffer, flushing));
      while buffer != ""
        invariant Prepend(output, Extract(config, buffer, flushing)) == Extract(config, old(buffer), flushing)
        decreases |buffer|
      {
        var incomplete, stop, taken := TakeSentence(flushing);
        if incomplete { return Throws("incomplete UTF-8 at end of text stream"); }
        if stop { break; }
        PrependTwice(output, taken, Extract(config, buffer, flushing));
        output := output + taken;
      }
      EmptyExtracts(config, flushing);
      assert output + [] == output;
      return Done(output);
    }

    method PushText(delta: string) returns (r: Result<seq<string>>)
      modifies this`buffer
      ensures var e := Push(config, old(buffer), delta); buffer == e.buffer && r == Done(e.sentences)
    {
      PushNeverFails(config, buffer + delta);
      buffer := buffer + delta;
      r := ExtractSentences(false);
    }

    /** A rejected flush keeps the buffer as it was; a successful one empties it. */
    method FlushText() returns (r: Result<seq<string>>)
      modifies this`buffer
      ensures r.Throws? <==> CompletePrefix(old(buffer)) != |old(buffer)|
      ensures r.Throws? ==> buffer == old(buffer)
      ensures r.Done? ==> buffer == "" && r.value == Flush(config, old(buffer)).sentences
                          && Contents(r.value) == Content(old(buffer))
    {
      FlushOutcome(config, buffer);
      r := ExtractSentences(true);
    }

    method Reset()
      modifies this`buffer
      ensures buffer == ""
    {
      buffer := "";
    }
  }
}

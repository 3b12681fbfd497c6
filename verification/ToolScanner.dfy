/**
 * The regular expression of extractToolCalls in agent-framework/src/utils/mcp-openai.ts as a scanner: it never has to try
 * twice at one position.
 */
module ToolScanner {
  import opened Common

  /** The two fixed texts of the expression. */
  datatype Pattern = Pattern(before: string, after: string)

  const TOOL_USE := Pattern("I'll use the ", " tool with these parameters")

  /** Where a match begins, where its word ends, where its braces begin, and where it ends and the next search begins. */
  datatype Match = Match(start: nat, wordEnd: nat, braces: nat, end: nat)

  datatype ToolCall = ToolCall(name: string, args: string)

  /** \w */
  predicate IsWord(c: char) {
    'a' <= c <= 'z' || 'A' <= c <= 'Z' || '0' <= c <= '9' || c == '_'
  }

  /** \s */
  predicate IsBlank(c: char) {
    c == ' ' || '\t' <= c <= '\r' || c == '\U{00A0}' || c == '\U{1680}' || '\U{2000}' <= c <= '\U{200A}'
    || c == '\U{2028}' || c == '\U{2029}' || c == '\U{202F}' || c == '\U{205F}' || c == '\U{3000}' || c == '\U{FEFF}'
  }

  // ---------------------------------------------------------------- the scanner

  predicate At(text: string, i: nat, literal: string) {
    i + |literal| <= |text| && text[i..i + |literal|] == literal
  }

  function WordEnd(text: string, i: nat): (r: nat)
    requires i <= |text|
    ensures i <= r <= |text| && (forall k :: i <= k < r ==> IsWord(text[k])) && (r < |text| ==> !IsWord(text[r]))
    decreases |text| - i
  {
    if i < |text| && IsWord(text[i]) then WordEnd(text, i + 1) else i
  }

  function BlankEnd(text: string, i: nat): (r: nat)
    requires i <= |text|
    ensures i <= r <= |text| && (forall k :: i <= k < r ==> IsBlank(text[k])) && (r < |text| ==> !IsBlank(text[r]))
    decreases |text| - i
  {
    if i < |text| && IsBlank(text[i]) then BlankEnd(text, i + 1) else i
  }

  function BraceEnd(text: string, i: nat): (r: nat)
    requires i <= |text|
    ensures i <= r <= |text| && (forall k :: i <= k < r ==> text[k] != '}') && (r < |text| ==> text[r] == '}')
    decreases |text| - i
  {
    if i < |text| && text[i] != '}' then BraceEnd(text, i + 1) else i
  }

  /** Where the braces after a position begin and end, past a colon and blanks. */
  function Braces(text: string, c: nat): Option<(nat, nat)>
    requires c <= |text|
  {
    var e := BlankEnd(text, if c < |text| && text[c] == ':' then c + 1 else c);
    if e == |text| || text[e] != '{' then None
    else
      var f := BraceEnd(text, e);
      if f == |text| then None else Some((e, f + 1))
  }

  /** The match that begins at a position. */
  function MatchAt(text: string, p: Pattern, start: nat): Option<Match> {
    if !At(text, start, p.before) then None
    else
      var a := start + |p.before|;
      var b := WordEnd(text, a);
      if a == b || !At(text, b, p.after) then None
      else
        var braces := Braces(text, b + |p.after|);
        if braces.None? then None
        else Some(Match(start, b, braces.value.0, braces.value.1))
  }

  /** exec: the first match that begins at or after a position. */
  function Exec(text: string, p: Pattern, from: nat): (r: Option<Match>)
    ensures r.Some? ==> from <= r.value.start < r.value.end <= |text| && MatchAt(text, p, r.value.start) == r
    ensures forall k: nat :: from <= k < (if r.Some? then r.value.start else |text|) ==> MatchAt(text, p, k).None?
    decreases |text| - from
  {
    if from >= |text| then None
    else if MatchAt(text, p, from).Some? then MatchAt(text, p, from)
    else Exec(text, p, from + 1)
  }

  function Scan(text: string, p: Pattern, from: nat): seq<Match>
    decreases |text| - from
  {
    var m := Exec(text, p, from);
    if m.None? then [] else [m.value] + Scan(text, p, m.value.end)
  }

  function Part(text: string, from: nat, to: nat): string {
    if from <= to <= |text| then text[from..to] else ""
  }

  /** The groups of a match. */
  function CallOf(text: string, p: Pattern, m: Match): ToolCall {
    ToolCall(Part(text, m.start + |p.before|, m.wordEnd), Part(text, m.braces, m.end))
  }

  function CallsOf(text: string, p: Pattern, matches: seq<Match>): (r: seq<ToolCall>)
    ensures |r| == |matches|
    ensures forall i :: 0 <= i < |r| ==> r[i] == CallOf(text, p, matches[i])
  {
    if matches == [] then [] else [CallOf(text, p, matches[0])] + CallsOf(text, p, matches[1..])
  }

  /** What the matches from a position on give. */
  function CallsFrom(text: string, p: Pattern, from: nat): seq<ToolCall> {
    CallsOf(text, p, Scan(text, p, from))
  }

  /** toolRegex is TOOL_USE wherever this is called. */
  method ExtractToolCalls(text: string, toolRegex: Pattern) returns (toolCalls: seq<ToolCall>)
    ensures toolCalls == CallsFrom(text, toolRegex, 0)
  {
    toolCalls := [];
    var lastIndex := 0;
    var found := Exec(text, toolRegex, lastIndex);
    while found.Some?
      invariant found == Exec(text, toolRegex, lastIndex)
      invariant toolCalls + CallsFrom(text, toolRegex, lastIndex) == CallsFrom(text, toolRegex, 0)
      decreases |text| - lastIndex
    {
      CallsStep(text, toolRegex, lastIndex);
      toolCalls := toolCalls + [CallOf(text, toolRegex, found.value)];
      lastIndex := found.value.end;
      found := Exec(text, toolRegex, lastIndex);
    }
  }

  lemma CallsStep(text: string, p: Pattern, from: nat)
    requires Exec(text, p, from).Some?
    ensures var m := Exec(text, p, from).value;
            CallsFrom(text, p, from) == [CallOf(text, p, m)] + CallsFrom(text, p, m.end)
  {
    var m := Exec(text, p, from).value;
    assert Scan(text, p, from)[1..] == Scan(text, p, m.end);
  }

  // ---------------------------------------------------------------- the texts the expression describes

  /** What the expression says: the fixed texts at start and at b, a word before b, from d blanks up to e, from e to end text
      in braces whose only closing brace is its last character. */
  predicate Reads(text: string, p: Pattern, start: nat, b: nat, d: nat, e: nat, end: nat) {
    && start + |p.before| < b && b + |p.after| <= d <= e && e + 2 <= end <= |text|
    && At(text, start, p.before) && (forall i :: start + |p.before| <= i < b ==> IsWord(text[i]))
    && At(text, b, p.after) && (d == b + |p.after| || (d == b + |p.after| + 1 && text[d - 1] == ':'))
    && (forall i :: d <= i < e ==> IsBlank(text[i]))
    && text[e] == '{' && text[end - 1] == '}' && forall i :: e <= i < end - 1 ==> text[i] != '}'
  }

  /** The expression describes the text from the start to the end of the match, with these groups. */
  ghost predicate Describes(text: string, p: Pattern, m: Match) {
    exists d: nat :: Reads(text, p, m.start, m.wordEnd, d, m.braces, m.end)
  }

  predicate IsPattern(p: Pattern) {
    p.before != "" && p.before[0] == 'I' && p.after != "" && !IsWord(p.after[0])
  }

  lemma BracesAre(text: string, c: nat, d: nat, e: nat, end: nat)
    requires c <= d <= e && e + 2 <= end <= |text| && (d == c || (d == c + 1 && text[c] == ':'))
    requires (forall i :: d <= i < e ==> IsBlank(text[i])) && text[e] == '{' && text[end - 1] == '}'
    requires forall i :: e <= i < end - 1 ==> text[i] != '}'
    ensures Braces(text, c) == Some((e, end))
  {
    assert d == c ==> text[c] != ':';
    assert BlankEnd(text, d) == e;
    assert BraceEnd(text, e) == end - 1;
  }

  lemma WordEndsAt(text: string, a: nat, b: nat, literal: string)
    requires a <= b && (forall i :: a <= i < b ==> i < |text| && IsWord(text[i]))
    requires At(text, b, literal) && literal != "" && !IsWord(literal[0])
    ensures WordEnd(text, a) == b
  {
    assert text[b] == text[b..b + |literal|][0];
  }

  lemma ReadsMatches(text: string, p: Pattern, start: nat, b: nat, d: nat, e: nat, end: nat)
    requires IsPattern(p) && Reads(text, p, start, b, d, e, end)
    ensures MatchAt(text, p, start) == Some(Match(start, b, e, end))
  {
    BracesAre(text, b + |p.after|, d, e, end);
    WordEndsAt(text, start + |p.before|, b, p.after);
    PiecesMatch(text, p, start, b, e, end);
  }

  lemma PiecesMatch(text: string, p: Pattern, start: nat, b: nat, e: nat, end: nat)
    requires At(text, start, p.before) && WordEnd(text, start + |p.before|) == b && start + |p.before| < b
    requires At(text, b, p.after) && Braces(text, b + |p.after|) == Some((e, end))
    ensures MatchAt(text, p, start) == Some(Match(start, b, e, end))
  {
  }

  lemma BracesRead(text: string, c: nat) returns (d: nat)
    requires c <= |text| && Braces(text, c).Some?
    ensures var e, end := Braces(text, c).value.0, Braces(text, c).value.1;
            && c <= d <= e && e + 2 <= end <= |text| && (d == c || (d == c + 1 && text[d - 1] == ':'))
            && (forall i :: d <= i < e ==> IsBlank(text[i])) && text[e] == '{' && text[end - 1] == '}'
            && forall i :: e <= i < end - 1 ==> text[i] != '}'
  {
    d := if c < |text| && text[c] == ':' then c + 1 else c;
  }

  lemma MatchReads(text: string, p: Pattern, start: nat) returns (d: nat)
    requires MatchAt(text, p, start).Some?
    ensures var m := MatchAt(text, p, start).value;
            m.start == start && Reads(text, p, start, m.wordEnd, d, m.braces, m.end)
  {
    d := BracesRead(text, WordEnd(text, start + |p.before|) + |p.after|);
  }

  /** The scanner finds at a position exactly what the expression describes there. */
  lemma MatchIff(text: string, p: Pattern, m: Match)
    requires IsPattern(p)
    ensures MatchAt(text, p, m.start) == Some(m) <==> Describes(text, p, m)
  {
    if MatchAt(text, p, m.start) == Some(m) {
      var d := MatchReads(text, p, m.start);
    } else if d: nat :| Reads(text, p, m.start, m.wordEnd, d, m.braces, m.end) {
      ReadsMatches(text, p, m.start, m.wordEnd, d, m.braces, m.end);
    }
  }

  // ---------------------------------------------------------------- what a scan returns

  /** Matches found from left to right without overlap, from a position on. */
  predicate Ordered(matches: seq<Match>, from: nat) {
    && (forall i :: 0 <= i < |matches| ==> from <= matches[i].start < matches[i].end)
    && (forall i, j :: 0 <= i < j < |matches| ==> matches[i].end <= matches[j].start)
  }

  /** Every occurrence from a position on is in the list or begins inside a match of the list. */
  ghost predicate Complete(text: string, p: Pattern, matches: seq<Match>, from: nat) {
    forall m: Match :: m.start >= from && Describes(text, p, m) ==> Found(matches, m)
  }

  lemma OrderedMore(m: Match, rest: seq<Match>, from: nat)
    requires from <= m.start < m.end && Ordered(rest, m.end)
    ensures Ordered([m] + rest, from)
  {
  }

  lemma {:induction false} ScanOrdered(text: string, p: Pattern, from: nat)
    ensures Ordered(Scan(text, p, from), from)
    decreases |text| - from
  {
    var m := Exec(text, p, from);
    if m.Some? {
      ScanOrdered(text, p, m.value.end);
      OrderedMore(m.value, Scan(text, p, m.value.end), from);
    }
  }

  lemma {:induction false} ScanSound(text: string, p: Pattern, from: nat)
    requires IsPattern(p)
    ensures forall m <- Scan(text, p, from) :: Describes(text, p, m)
    decreases |text| - from
  {
    var m := Exec(text, p, from);
    if m.Some? {
      MatchIff(text, p, m.value);
      ScanSound(text, p, m.value.end);
    }
  }

  /** A match is in the list or begins inside a match of the list. */
  predicate Found(matches: seq<Match>, m: Match) {
    m in matches || exists f :: f in matches && f.start < m.start < f.end
  }

  lemma FoundLater(first: Match, rest: seq<Match>, m: Match)
    requires Found(rest, m) || m == first || first.start < m.start < first.end
    ensures Found([first] + rest, m)
  {
    var all := [first] + rest;
    assert first in all && forall f <- rest :: f in all;
  }

  lemma {:induction false} ScanFinds(text: string, p: Pattern, from: nat, m: Match)
    requires MatchAt(text, p, m.start) == Some(m) && from <= m.start < |text|
    ensures Found(Scan(text, p, from), m)
    decreases |text| - from
  {
    var first := Exec(text, p, from);
    assert first.Some? && first.value.start <= m.start;
    if m.start >= first.value.end { ScanFinds(text, p, first.value.end, m); }
    FoundLater(first.value, Scan(text, p, first.value.end), m);
  }

  /** The matches are occurrences, from left to right and disjoint, and every other occurrence begins inside one of them. */
  lemma ScanIsLeftmost(text: string, p: Pattern, from: nat)
    requires IsPattern(p)
    ensures var r := Scan(text, p, from);
            Ordered(r, from) && (forall m <- r :: Describes(text, p, m)) && Complete(text, p, r, from)
  {
    ScanOrdered(text, p, from);
    ScanSound(text, p, from);
    forall m: Match | m.start >= from && Describes(text, p, m) ensures Found(Scan(text, p, from), m) {
      MatchIff(text, p, m);
      ScanFinds(text, p, from, m);
    }
  }

  // ---------------------------------------------------------------- announced calls are found

  /** A call and the freedom there is in announcing it. */
  datatype Call = Call(name: string, args: string, colon: bool, blanks: string)

  /** The name is a word, the arguments are text in braces whose only closing brace is the last character. */
  predicate IsCall(c: Call) {
    && c.name != "" && (forall i :: 0 <= i < |c.name| ==> IsWord(c.name[i]))
    && (forall i :: 0 <= i < |c.blanks| ==> IsBlank(c.blanks[i]))
    && |c.args| >= 2 && c.args[0] == '{' && c.args[|c.args| - 1] == '}'
    && (forall i :: 0 <= i < |c.args| - 1 ==> c.args[i] != '}')
  }

  function Colon(c: Call): string {
    if c.colon then ":" else ""
  }

  /** The sentence that announces a call. */
  function Sentence(c: Call, p: Pattern): string {
    p.before + c.name + p.after + Colon(c) + c.blanks + c.args
  }

  /** A text has a part at a position. */
  predicate Has(text: string, from: nat, part: string) {
    from + |part| <= |text| && forall i :: from <= i < from + |part| ==> text[i] == part[i - from]
  }

  /** Where the parts of a sentence that begins at a position begin. */
  function WordAt(c: Call, p: Pattern, start: nat): nat { start + |p.before| }
  function AfterAt(c: Call, p: Pattern, start: nat): nat { WordAt(c, p, start) + |c.name| }
  function ColonAt(c: Call, p: Pattern, start: nat): nat { AfterAt(c, p, start) + |p.after| }
  function BlanksAt(c: Call, p: Pattern, start: nat): nat { ColonAt(c, p, start) + |Colon(c)| }
  function ArgsAt(c: Call, p: Pattern, start: nat): nat { BlanksAt(c, p, start) + |c.blanks| }

  predicate Parts(text: string, c: Call, p: Pattern, start: nat) {
    && Has(text, start, p.before) && Has(text, WordAt(c, p, start), c.name) && Has(text, AfterAt(c, p, start), p.after)
    && Has(text, ColonAt(c, p, start), Colon(c)) && Has(text, BlanksAt(c, p, start), c.blanks) && Has(text, ArgsAt(c, p, start), c.args)
  }

  lemma SentenceHasParts(c: Call, p: Pattern)
    ensures Parts(Sentence(c, p), c, p, 0)
  {
  }

  lemma HasWithin(text: string, start: nat, s: string, from: nat, part: string)
    requires Has(text, start, s) && Has(s, from, part)
    ensures Has(text, start + from, part)
  {
    forall i | start + from <= i < start + from + |part| ensures text[i] == part[i - start - from] {
      assert text[i] == s[i - start];
    }
  }

  lemma PartsWithin(text: string, start: nat, s: string, c: Call, p: Pattern)
    requires Has(text, start, s) && Parts(s, c, p, 0)
    ensures Parts(text, c, p, start)
  {
    TextsWithin(text, start, s, c, p);
    GroupsWithin(text, start, s, c, p);
  }

  lemma TextsWithin(text: string, start: nat, s: string, c: Call, p: Pattern)
    requires Has(text, start, s) && Parts(s, c, p, 0)
    ensures Has(text, start, p.before) && Has(text, AfterAt(c, p, start), p.after) && Has(text, ColonAt(c, p, start), Colon(c))
  {
    HasWithin(text, start, s, 0, p.before);
    HasWithin(text, start, s, AfterAt(c, p, 0), p.after);
    HasWithin(text, start, s, ColonAt(c, p, 0), Colon(c));
  }

  lemma GroupsWithin(text: string, start: nat, s: string, c: Call, p: Pattern)
    requires Has(text, start, s) && Parts(s, c, p, 0)
    ensures Has(text, WordAt(c, p, start), c.name) && Has(text, BlanksAt(c, p, start), c.blanks) && Has(text, ArgsAt(c, p, start), c.args)
  {
    HasWithin(text, start, s, WordAt(c, p, 0), c.name);
    HasWithin(text, start, s, BlanksAt(c, p, 0), c.blanks);
    HasWithin(text, start, s, ArgsAt(c, p, 0), c.args);
  }

  /** A text that has the parts of a sentence at their places reads as one. */
  lemma PartsRead(text: string, c: Call, p: Pattern, start: nat)
    requires IsCall(c) && Parts(text, c, p, start)
    ensures Reads(text, p, start, AfterAt(c, p, start), BlanksAt(c, p, start), ArgsAt(c, p, start), ArgsAt(c, p, start) + |c.args|)
  {
  }

  /** The match of a sentence. */
  function MatchOf(c: Call, p: Pattern, start: nat): Match {
    Match(start, AfterAt(c, p, start), ArgsAt(c, p, start), ArgsAt(c, p, start) + |c.args|)
  }

  lemma PartsCaught(text: string, c: Call, p: Pattern, start: nat)
    requires Parts(text, c, p, start)
    ensures CallOf(text, p, MatchOf(c, p, start)) == ToolCall(c.name, c.args)
  {
    HasPart(text, WordAt(c, p, start), c.name);
    HasPart(text, ArgsAt(c, p, start), c.args);
  }

  lemma HasPart(text: string, from: nat, part: string)
    requires Has(text, from, part)
    ensures Part(text, from, from + |part|) == part
  {
  }

  lemma PartsMatched(text: string, c: Call, p: Pattern, start: nat)
    requires IsPattern(p) && IsCall(c) && Parts(text, c, p, start)
    ensures MatchAt(text, p, start) == Some(MatchOf(c, p, start))
  {
    PartsRead(text, c, p, start);
    ReadsMatches(text, p, start, AfterAt(c, p, start), BlanksAt(c, p, start), ArgsAt(c, p, start), ArgsAt(c, p, start) + |c.args|);
  }

  lemma SentenceInText(prefix: string, c: Call, p: Pattern, rest: string)
    ensures Parts(prefix + Sentence(c, p) + rest, c, p, |prefix|)
  {
    SentenceHasParts(c, p);
    PartsWithin(prefix + Sentence(c, p) + rest, |prefix|, Sentence(c, p), c, p);
  }

  /** An announced call is found where its sentence begins. */
  lemma SentenceFound(prefix: string, c: Call, p: Pattern, rest: string)
    requires IsPattern(p) && IsCall(c)
    ensures var text, start := prefix + Sentence(c, p) + rest, |prefix|;
            MatchAt(text, p, start) == Some(MatchOf(c, p, start)) && CallOf(text, p, MatchOf(c, p, start)) == ToolCall(c.name, c.args)
  {
    SentenceInText(prefix, c, p, rest);
    PartsMatched(prefix + Sentence(c, p) + rest, c, p, |prefix|);
    PartsCaught(prefix + Sentence(c, p) + rest, c, p, |prefix|);
  }

  /** The calls, as the scanner reports them. */
  function Announced(calls: seq<Call>): (r: seq<ToolCall>)
    ensures |r| == |calls| && forall i :: 0 <= i < |r| ==> r[i] == ToolCall(calls[i].name, calls[i].args)
  {
    if calls == [] then [] else [ToolCall(calls[0].name, calls[0].args)] + Announced(calls[1..])
  }

  /** Sentences with fillers before, between and after them. */
  function Rendered(calls: seq<Call>, fillers: seq<string>, p: Pattern): string
    requires |fillers| == |calls| + 1
  {
    if calls == [] then fillers[0] else fillers[0] + Sentence(calls[0], p) + Rendered(calls[1..], fillers[1..], p)
  }

  predicate IsFiller(filler: string) {
    'I' !in filler
  }

  predicate NoneBetween(text: string, p: Pattern, from: nat, to: nat) {
    forall k: nat :: from <= k < to ==> MatchAt(text, p, k).None?
  }

  lemma MatchBeginsWithI(text: string, p: Pattern, k: nat)
    requires IsPattern(p) && MatchAt(text, p, k).Some?
    ensures k < |text| && text[k] == 'I'
  {
  }

  lemma NoneInFiller(prefix: string, filler: string, rest: string, p: Pattern)
    requires IsPattern(p) && IsFiller(filler)
    ensures NoneBetween(prefix + filler + rest, p, |prefix|, |prefix + filler|)
  {
  }

  lemma ExecHere(text: string, p: Pattern, to: nat)
    requires to < |text| && MatchAt(text, p, to).Some?
    ensures Exec(text, p, to) == MatchAt(text, p, to)
  {
  }

  lemma {:induction false} ExecIs(text: string, p: Pattern, from: nat, to: nat)
    requires from <= to < |text| && NoneBetween(text, p, from, to) && MatchAt(text, p, to).Some?
    ensures Exec(text, p, from) == MatchAt(text, p, to)
    decreases |text| - from
  {
    if from == to {
      ExecHere(text, p, to);
    } else {
      ExecSkips(text, p, from, to);
      ExecIs(text, p, from + 1, to);
    }
  }

  lemma ExecSkips(text: string, p: Pattern, from: nat, to: nat)
    requires from < to < |text| && NoneBetween(text, p, from, to)
    ensures Exec(text, p, from) == Exec(text, p, from + 1) && NoneBetween(text, p, from + 1, to)
  {
  }

  /** A sentence behind a filler gives the next call. */
  lemma ScanSentence(text: string, done: string, filler: string, c: Call, rest: string, p: Pattern)
    requires IsPattern(p) && IsFiller(filler) && IsCall(c)
    requires text == done + filler + (Sentence(c, p) + rest) && text == done + filler + Sentence(c, p) + rest
    ensures CallsFrom(text, p, |done|) == [ToolCall(c.name, c.args)] + CallsFrom(text, p, |done + filler + Sentence(c, p)|)
  {
    NoneInFiller(done, filler, Sentence(c, p) + rest, p);
    SentenceFound(done + filler, c, p, rest);
    MatchBeginsWithI(text, p, |done + filler|);
    ExecIs(text, p, |done|, |done + filler|);
    CallsStep(text, p, |done|);
  }

  lemma FourParts(done: string, filler: string, s: string, rest: string)
    ensures done + (filler + s + rest) == done + filler + (s + rest)
    ensures done + (filler + s + rest) == done + filler + s + rest
  {
  }

  lemma ScanNone(text: string, p: Pattern, from: nat)
    requires NoneBetween(text, p, from, |text|)
    ensures CallsFrom(text, p, from) == []
  {
  }

  lemma ScanLast(text: string, done: string, filler: string, p: Pattern)
    requires IsPattern(p) && IsFiller(filler) && text == done + filler
    ensures CallsFrom(text, p, |done|) == []
  {
    assert text == done + filler + "";
    NoneInFiller(done, filler, "", p);
    ScanNone(text, p, |done|);
  }

  /** Calls in the prescribed form with fillers free of 'I'. */
  predicate Prescribed(calls: seq<Call>, fillers: seq<string>) {
    && |fillers| == |calls| + 1 && IsFiller(fillers[0])
    && (calls == [] || (IsCall(calls[0]) && Prescribed(calls[1..], fillers[1..])))
  }

  lemma {:induction false} ScanRendered(text: string, done: string, calls: seq<Call>, fillers: seq<string>, p: Pattern)
    requires IsPattern(p) && Prescribed(calls, fillers) && text == done + Rendered(calls, fillers, p)
    ensures CallsFrom(text, p, |done|) == Announced(calls)
    decreases |calls|
  {
    if calls == [] {
      ScanLast(text, done, fillers[0], p);
    } else {
      var s, rest := Sentence(calls[0], p), Rendered(calls[1..], fillers[1..], p);
      FourParts(done, fillers[0], s, rest);
      ScanSentence(text, done, fillers[0], calls[0], rest, p);
      ScanRendered(text, done + fillers[0] + s, calls[1..], fillers[1..], p);
    }
  }

  lemma ToolUseIsPattern()
    ensures IsPattern(TOOL_USE)
  {
  }

  /** Calls announced in the prescribed sentence, with fillers free of 'I' around them, are extracted exactly and in order. */
  lemma AnnouncedCallsExtracted(calls: seq<Call>, fillers: seq<string>)
    requires Prescribed(calls, fillers)
    ensures var r := CallsFrom(Rendered(calls, fillers, TOOL_USE), TOOL_USE, 0);
            |r| == |calls| && forall i :: 0 <= i < |r| ==> r[i] == ToolCall(calls[i].name, calls[i].args)
    ensures forall c <- calls ::
              Sentence(c, TOOL_USE)
              == "I'll use the " + c.name + " tool with these parameters" + (if c.colon then ":" else "") + c.blanks + c.args
  {
    ToolUseIsPattern();
    var text := Rendered(calls, fillers, TOOL_USE);
    assert text == "" + text;
    ScanRendered(text, "", calls, fillers, TOOL_USE);
  }
}

/** Splitting mixed text into CJK and technical runs, and technical runs into parts. */
module Tokenizer {
  import opened Text

  predicate IsCjk(c: char) {
    var n := c as int;
    || 0x3400 <= n <= 0x4DBF || 0x4E00 <= n <= 0x9FFF || 0xF900 <= n <= 0xFAFF
    || 0x20000 <= n <= 0x2A6DF || 0x2A700 <= n <= 0x2B73F || 0x2B740 <= n <= 0x2B81F
    || 0x2B820 <= n <= 0x2CEAF || 0x2CEB0 <= n <= 0x2EBEF || 0x30000 <= n <= 0x323AF
  }

  predicate IsAsciiAlpha(c: char) {
    'a' <= c <= 'z' || 'A' <= c <= 'Z'
  }

  predicate IsAsciiDigit(c: char) {
    '0' <= c <= '9'
  }

  predicate IsTechnical(c: char) {
    || IsAsciiAlpha(c) || IsAsciiDigit(c)
    || c == '_' || c == '-' || c == '.' || c == '/' || c == ':' || c == '@' || c == '#' || c == '+'
  }

  datatype RunKind = Cjk | Technical

  datatype TextRun = TextRun(kind: RunKind, text: string)

  // ---- What runs must be -----------------------------------------------------------------

  /** The characters of a text that runs are made of, in order. */
  function Wanted(text: string): string {
    if text == "" then ""
    else
      var rest, last := Wanted(text[..|text| - 1]), text[|text| - 1];
      if IsCjk(last) || IsTechnical(last) then rest + [last] else rest
  }

  function WithoutBlanks(text: string): string {
    if text == "" then ""
    else
      var rest, last := WithoutBlanks(text[..|text| - 1]), text[|text| - 1];
      if last == ' ' then rest else rest + [last]
  }

  function Joined(runs: seq<TextRun>): string {
    if runs == [] then "" else Joined(runs[..|runs| - 1]) + runs[|runs| - 1].text
  }

  predicate OneKind(run: TextRun) {
    && run.text != ""
    && match run.kind
       case Cjk => forall c <- run.text :: IsCjk(c)
       case Technical => forall c <- run.text :: IsTechnical(c) || c == ' '
  }

  lemma {:induction false} WantedConcat(s: string, t: string)
    ensures Wanted(s + t) == Wanted(s) + Wanted(t)
  {
    if t == "" {
      assert s + t == s;
    } else {
      var rest, last := t[..|t| - 1], t[|t| - 1];
      assert (s + t)[..|s + t| - 1] == s + rest;
      WantedConcat(s, rest);
    }
  }

  lemma {:induction false} WithoutBlanksConcat(s: string, t: string)
    ensures WithoutBlanks(s + t) == WithoutBlanks(s) + WithoutBlanks(t)
  {
    if t == "" {
      assert s + t == s;
    } else {
      var rest, last := t[..|t| - 1], t[|t| - 1];
      assert (s + t)[..|s + t| - 1] == s + rest;
      WithoutBlanksConcat(s, rest);
    }
  }

  /** Spaces belong to no run. */
  lemma SpaceIsNeither(c: char)
    requires IsSpace(c)
    ensures !IsCjk(c) && !IsTechnical(c)
  {
  }

  lemma {:induction false} NothingWanted(s: string)
    requires forall c <- s :: IsSpace(c)
    ensures Wanted(s) == ""
  {
    if s != "" {
      NothingWanted(s[..|s| - 1]);
      SpaceIsNeither(s[|s| - 1]);
    }
  }

  lemma {:induction false} AllCjk(s: string)
    requires forall c <- s :: IsCjk(c)
    ensures Wanted(s) == s && WithoutBlanks(s) == s
  {
    if s != "" {
      assert s == s[..|s| - 1] + [s[|s| - 1]];
      AllCjk(s[..|s| - 1]);
    }
  }

  lemma WantedStep(text: string, from: nat, to: nat)
    requires from < to <= |text|
    ensures Wanted(text[..to]) == Wanted(text[..from]) + Wanted(text[from..to])
  {
    assert text[..to] == text[..from] + text[from..to];
    WantedConcat(text[..from], text[from..to]);
  }

  /** Every stretch of spaces becomes one blank. */
  function Squeezed(text: string): string {
    if text == "" then ""
    else
      var rest, last := Squeezed(text[..|text| - 1]), text[|text| - 1];
      if !IsSpace(last) then rest + [last]
      else if |text| > 1 && IsSpace(text[|text| - 2]) then rest
      else rest + " "
  }

  lemma {:induction false} SqueezedKeeps(text: string)
    requires forall c <- text :: IsTechnical(c) || IsSpace(c)
    ensures WithoutBlanks(Squeezed(text)) == Wanted(text)
    ensures forall c <- Squeezed(text) :: IsTechnical(c) || c == ' '
  {
    if text != "" {
      var init, last := text[..|text| - 1], text[|text| - 1];
      SqueezedKeeps(init);
      if IsSpace(last) {
        SpaceIsNeither(last);
        WithoutBlanksOfAppend(Squeezed(init), ' ');
      } else {
        assert IsTechnical(last);
        BlankIsSpace();
        WithoutBlanksOfAppend(Squeezed(init), last);
      }
    }
  }

  lemma BlankIsSpace()
    ensures !IsTechnical(' ')
  {
    SpaceIsNeither(' ');
  }

  lemma WithoutBlanksOfAppend(s: string, c: char)
    ensures WithoutBlanks(s + [c]) == if c == ' ' then WithoutBlanks(s) else WithoutBlanks(s) + [c]
  {
    assert (s + [c])[..|s|] == s;
  }

  lemma {:induction false} SqueezedSpaces(s: string, spaces: string)
    requires s != "" && !IsSpace(s[|s| - 1]) && spaces != "" && forall c <- spaces :: IsSpace(c)
    ensures Squeezed(s + spaces) == Squeezed(s) + " "
    decreases |spaces|
  {
    var t := s + spaces;
    assert t[|t| - 1] == spaces[|spaces| - 1];
    if |spaces| == 1 {
      assert t[..|t| - 1] == s;
    } else {
      assert t[..|t| - 1] == s + spaces[..|spaces| - 1];
      assert t[|t| - 2] == spaces[|spaces| - 2];
      SqueezedSpaces(s, spaces[..|spaces| - 1]);
    }
  }

  /** Trimming leaves a text without outer spaces alone. */
  lemma TightStrip(s: string)
    requires s != "" && Tight(s)
    ensures Strip(s) == s
  {
  }

  // ---- Scanning --------------------------------------------------------------------------

  method NextNonSpaceIndex(text: string, start: nat) returns (index: nat)
    requires start <= |text|
    ensures start <= index <= |text|
    ensures forall i :: start <= i < index ==> IsSpace(text[i])
    ensures index < |text| ==> !IsSpace(text[index])
  {
    index := start;
    while index < |text| && IsSpace(text[index])
      invariant start <= index <= |text|
      invariant forall i :: start <= i < index ==> IsSpace(text[i])
    {
      index := index + 1;
    }
  }

  /** Some technical character follows, with only spaces before it. */
  predicate TechnicalAfterSpaces(text: string, start: nat)
    requires start <= |text|
    decreases |text| - start
  {
    start < |text| && (IsTechnical(text[start]) || (IsSpace(text[start]) && TechnicalAfterSpaces(text, start + 1)))
  }

  lemma {:induction false} TechnicalAfterMeans(text: string, start: nat, index: nat)
    requires start <= index <= |text|
    requires forall i :: start <= i < index ==> IsSpace(text[i])
    requires index < |text| ==> !IsSpace(text[index])
    ensures TechnicalAfterSpaces(text, start) <==> index < |text| && IsTechnical(text[index])
    decreases index - start
  {
    if start < index {
      assert IsSpace(text[start]);
      TechnicalAfterMeans(text, start + 1, index);
    }
  }

  method NextNonSpaceIsTechnical(text: string, start: nat) returns (yes: bool)
    requires start <= |text|
    ensures yes == TechnicalAfterSpaces(text, start)
  {
    var index := NextNonSpaceIndex(text, start);
    TechnicalAfterMeans(text, start, index);
    yes := index < |text| && IsTechnical(text[index]);
  }

  /** Where a technical run stops: not before a technical character, not before spaces that lead to one. */
  predicate RunStops(text: string, end: nat)
    requires end <= |text|
  {
    end == |text| || (!IsTechnical(text[end]) && !(IsSpace(text[end]) && TechnicalAfterSpaces(text, end + 1)))
  }

  /** What has been collected between `start` and `index`. */
  predicate Collected(text: string, start: nat, index: nat, chars: string)
    requires start <= index <= |text|
  {
    && (forall i :: start <= i < index ==> IsTechnical(text[i]) || IsSpace(text[i]))
    && chars == Squeezed(text[start..index])
  }

  lemma CollectOne(text: string, start: nat, index: nat, chars: string)
    requires start <= index < |text| && Collected(text, start, index, chars) && IsTechnical(text[index])
    ensures Collected(text, start, index + 1, chars + [text[index]])
  {
    TechnicalIsNoSpace(text[index]);
    assert text[start..index + 1] == text[start..index] + [text[index]];
    assert (text[start..index] + [text[index]])[..index - start] == text[start..index];
  }

  lemma CollectBlank(text: string, start: nat, index: nat, next: nat, chars: string)
    requires start < index < next <= |text| && Collected(text, start, index, chars)
    requires IsTechnical(text[index - 1]) && forall i :: index <= i < next ==> IsSpace(text[i])
    ensures Collected(text, start, next, chars + " ")
  {
    TechnicalIsNoSpace(text[index - 1]);
    assert text[start..next] == text[start..index] + text[index..next];
    SqueezedSpaces(text[start..index], text[index..next]);
  }

  /** The span of a technical run: it starts and ends with a technical character, holds nothing but such
      characters and spaces, and could not be longer at either end. */
  ghost predicate TechnicalSpan(text: string, from: nat, to: nat) {
    && from < to <= |text| && IsTechnical(text[from]) && IsTechnical(text[to - 1])
    && (forall i :: from <= i < to ==> IsTechnical(text[i]) || IsSpace(text[i]))
    && !OpenBefore(text, from) && RunStops(text, to)
  }

  /** A technical character stands before `index`, with nothing but such characters and spaces between. */
  ghost predicate OpenBefore(text: string, index: nat)
    requires index <= |text|
  {
    exists p :: 0 <= p < index && IsTechnical(text[p]) && forall i :: p <= i < index ==> IsTechnical(text[i]) || IsSpace(text[i])
  }

  /** Consumes a technical run: technical characters, with each stretch of spaces between two of them as
      one blank, up to where neither goes on. It makes progress, and trimming removes nothing. */
  method ConsumeTechnicalRun(text: string, start: nat) returns (value: string, end: nat)
    requires start < |text| && IsTechnical(text[start])
    ensures start < end <= |text|
    ensures value != "" && Tight(value) && Collected(text, start, end, value)
    ensures IsTechnical(text[end - 1]) && RunStops(text, end)
  {
    var chars: string := "";
    var index := start;
    assert text[start..start] == "";
    while index < |text|
      invariant start <= index <= |text|
      invariant Collected(text, start, index, chars)
      invariant if index == start then chars == "" else chars != "" && IsTechnical(chars[0])
      invariant index > start ==>
                  || (index < |text| && IsTechnical(text[index]))
                  || (IsTechnical(chars[|chars| - 1]) && IsTechnical(text[index - 1]))
      decreases |text| - index
    {
      if IsTechnical(text[index]) {
        CollectOne(text, start, index, chars);
        chars := chars + [text[index]];
        index := index + 1;
        continue;
      }
      var follows := false;
      if IsSpace(text[index]) && chars != "" {
        follows := NextNonSpaceIsTechnical(text, index + 1);
      }
      if !follows {
        break;
      }
      var next := NextNonSpaceIndex(text, index + 1);
      TechnicalAfterMeans(text, index + 1, next);
      CollectBlank(text, start, index, next, chars);
      chars := chars + " ";
      index := next;
    }
    TechnicalIsNoSpace(chars[0]);
    TechnicalIsNoSpace(chars[|chars| - 1]);
    TightStrip(chars);
    return Strip(chars), index;
  }

  lemma TechnicalIsNoSpace(c: char)
    requires IsTechnical(c)
    ensures !IsSpace(c)
  {
    if IsSpace(c) {
      SpaceIsNeither(c);
    }
  }

  datatype Span = Span(from: nat, to: nat)

  /** A run and the longest possible stretch of the text it was made from. */
  ghost predicate MadeFrom(text: string, run: TextRun, span: Span) {
    match run.kind
    case Cjk =>
      && span.from < span.to <= |text| && run.text == text[span.from..span.to]
      && (forall i :: span.from <= i < span.to ==> IsCjk(text[i]))
      && (span.from > 0 ==> !IsCjk(text[span.from - 1])) && (span.to < |text| ==> !IsCjk(text[span.to]))
    case Technical =>
      TechnicalSpan(text, span.from, span.to) && run.text == Squeezed(text[span.from..span.to])
  }

  /** The runs found in the text before `index`, and where. */
  ghost predicate Scanned(text: string, index: nat, runs: seq<TextRun>, spans: seq<Span>)
    requires index <= |text|
  {
    && WithoutBlanks(Joined(runs)) == Wanted(text[..index])
    && |spans| == |runs|
    && (forall i :: 0 <= i < |runs| ==>
          MadeFrom(text, runs[i], spans[i]) && OneKind(runs[i]) && Strip(runs[i].text) == runs[i].text && spans[i].to <= index)
    && (forall i, j :: 0 <= i < j < |runs| ==> spans[i].to <= spans[j].from)
    && (index < |text| && IsCjk(text[index]) && index > 0 ==> !IsCjk(text[index - 1]))
    && (TechnicalAfterSpaces(text, index) ==> !OpenBefore(text, index))
  }

  lemma ScanRun(text: string, index: nat, end: nat, runs: seq<TextRun>, spans: seq<Span>, run: TextRun)
    requires index < end <= |text| && Scanned(text, index, runs, spans)
    requires OneKind(run) && Tight(run.text) && WithoutBlanks(run.text) == Wanted(text[index..end])
    requires MadeFrom(text, run, Span(index, end))
    requires end < |text| && IsCjk(text[end]) ==> !IsCjk(text[end - 1])
    requires TechnicalAfterSpaces(text, end) ==> !OpenBefore(text, end)
    ensures Scanned(text, end, runs + [run], spans + [Span(index, end)])
  {
    TightStrip(run.text);
    WantedStep(text, index, end);
    assert (runs + [run])[..|runs|] == runs;
    WithoutBlanksConcat(Joined(runs), run.text);
  }

  lemma ScanPast(text: string, index: nat, runs: seq<TextRun>, spans: seq<Span>)
    requires index < |text| && Scanned(text, index, runs, spans) && !IsCjk(text[index]) && !IsTechnical(text[index])
    ensures Scanned(text, index + 1, runs, spans)
  {
    assert text[..index + 1][..index] == text[..index];
    if OpenBefore(text, index + 1) {
      OpenPast(text, index);
    }
  }

  lemma OpenPast(text: string, index: nat)
    requires index < |text| && !IsTechnical(text[index]) && OpenBefore(text, index + 1)
    ensures IsSpace(text[index]) && OpenBefore(text, index)
  {
    var p :| 0 <= p < index + 1 && IsTechnical(text[p])
             && forall i :: p <= i < index + 1 ==> IsTechnical(text[i]) || IsSpace(text[i]);
  }

  lemma ScanCjk(text: string, index: nat, end: nat, runs: seq<TextRun>, spans: seq<Span>)
    requires index < end <= |text| && Scanned(text, index, runs, spans)
    requires forall i :: index <= i < end ==> IsCjk(text[i])
    requires end < |text| ==> !IsCjk(text[end])
    ensures Scanned(text, end, runs + [TextRun(Cjk, text[index..end])], spans + [Span(index, end)])
  {
    var value := text[index..end];
    AllCjk(value);
    CjkIsPlain(text[index]);
    CjkIsPlain(text[end - 1]);
    ScanRun(text, index, end, runs, spans, TextRun(Cjk, value));
  }

  lemma CjkIsPlain(c: char)
    requires IsCjk(c)
    ensures !IsSpace(c) && !IsTechnical(c)
  {
    if IsSpace(c) {
      SpaceIsNeither(c);
    }
  }

  lemma ScanTechnical(text: string, index: nat, end: nat, runs: seq<TextRun>, spans: seq<Span>, value: string)
    requires index < end <= |text| && Scanned(text, index, runs, spans)
    requires IsTechnical(text[index]) && IsTechnical(text[end - 1]) && RunStops(text, end)
    requires value != "" && Tight(value) && Collected(text, index, end, value)
    ensures Scanned(text, end, runs + [TextRun(Technical, value)], spans + [Span(index, end)])
  {
    SqueezedKeeps(text[index..end]);
    if IsCjk(text[end - 1]) {
      CjkIsPlain(text[end - 1]);
    }
    ScanRun(text, index, end, runs, spans, TextRun(Technical, value));
  }

  /** Scans the whole text. Joining the runs and dropping blanks gives back exactly the CJK and technical
      characters of the text, in order; every run is of one kind, made from a stretch of the text that
      could not be longer, and unchanged by trimming; the stretches are disjoint and in order. */
  method IterRuns(text: string) returns (runs: seq<TextRun>, ghost spans: seq<Span>)
    ensures WithoutBlanks(Joined(runs)) == Wanted(text)
    ensures |spans| == |runs|
    ensures forall i :: 0 <= i < |runs| ==>
              MadeFrom(text, runs[i], spans[i]) && OneKind(runs[i]) && Strip(runs[i].text) == runs[i].text
    ensures forall i, j :: 0 <= i < j < |runs| ==> spans[i].to <= spans[j].from
  {
    runs, spans := [], [];
    var index := 0;
    while index < |text|
      invariant 0 <= index <= |text| && Scanned(text, index, runs, spans)
      decreases |text| - index
    {
      if IsCjk(text[index]) {
        var end := index + 1;
        while end < |text| && IsCjk(text[end])
          invariant index < end <= |text|
          invariant forall i :: index <= i < end ==> IsCjk(text[i])
        {
          end := end + 1;
        }
        ScanCjk(text, index, end, runs, spans);
        runs, spans := runs + [TextRun(Cjk, text[index..end])], spans + [Span(index, end)];
        index := end;
      } else if IsTechnical(text[index]) {
        var value, end := ConsumeTechnicalRun(text, index);
        ScanTechnical(text, index, end, runs, spans, value);
        runs, spans := runs + [TextRun(Technical, value)], spans + [Span(index, end)];
        index := end;
      } else {
        ScanPast(text, index, runs, spans);
        index := index + 1;
      }
    }
    assert text[..index] == text;
  }
}

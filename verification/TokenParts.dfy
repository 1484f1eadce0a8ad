/** Splitting a technical token at separators and into its letter and digit groups. */
module TokenParts {
  import opened Text
  import opened Tokenizer

  /** Where the stretch of the kind at `from` ends, looking on from `i`. */
  function EndOf(text: string, kind: char -> nat, from: nat, i: nat): (end: nat)
    requires from < i <= |text|
    ensures i <= end <= |text|
    decreases |text| - i
  {
    if i < |text| && kind(text[i]) == kind(text[from]) then EndOf(text, kind, from, i + 1) else i
  }

  /** The stretches of equal kind, kind 0 aside, from `index` on. */
  function Stretches(text: string, kind: char -> nat, index: nat): seq<Span>
    requires index <= |text|
    decreases |text| - index
  {
    if index == |text| then []
    else if kind(text[index]) == 0 then Stretches(text, kind, index + 1)
    else
      var end := EndOf(text, kind, index, index + 1);
      [Span(index, end)] + Stretches(text, kind, end)
  }

  /** All characters of the span are of one kind other than 0, and its neighbours are not of that kind. */
  predicate Maximal(text: string, kind: char -> nat, s: Span) {
    && s.from < s.to <= |text|
    && kind(text[s.from]) != 0
    && (forall i :: s.from <= i < s.to ==> kind(text[i]) == kind(text[s.from]))
    && (s.from > 0 ==> kind(text[s.from - 1]) != kind(text[s.from]))
    && (s.to < |text| ==> kind(text[s.to]) != kind(text[s.from]))
  }

  lemma {:induction false} EndOfMeans(text: string, kind: char -> nat, from: nat, i: nat)
    requires from < i <= |text|
    requires forall k :: from <= k < i ==> kind(text[k]) == kind(text[from])
    ensures var end := EndOf(text, kind, from, i);
            && (forall k :: from <= k < end ==> kind(text[k]) == kind(text[from]))
            && (end < |text| ==> kind(text[end]) != kind(text[from]))
    decreases |text| - i
  {
    if i < |text| && kind(text[i]) == kind(text[from]) {
      EndOfMeans(text, kind, from, i + 1);
    }
  }

  /** A stretch may start here. */
  predicate CanStart(text: string, kind: char -> nat, index: nat) {
    0 < index < |text| && kind(text[index]) != 0 ==> kind(text[index - 1]) != kind(text[index])
  }

  /** The stretches found are maximal. */
  lemma {:induction false} StretchesAreMaximal(text: string, kind: char -> nat, index: nat)
    requires index <= |text| && CanStart(text, kind, index)
    ensures forall s <- Stretches(text, kind, index) :: Maximal(text, kind, s) && index <= s.from
    decreases |text| - index
  {
    if index < |text| {
      if kind(text[index]) == 0 {
        StretchesAreMaximal(text, kind, index + 1);
      } else {
        var end := EndOf(text, kind, index, index + 1);
        EndOfMeans(text, kind, index, index + 1);
        assert Maximal(text, kind, Span(index, end));
        StretchesAreMaximal(text, kind, end);
      }
    }
  }

  /** They are in order and disjoint. */
  lemma {:induction false} StretchesInOrder(text: string, kind: char -> nat, index: nat, i: nat, j: nat)
    requires index <= |text| && CanStart(text, kind, index)
    requires i < j < |Stretches(text, kind, index)|
    ensures Stretches(text, kind, index)[i].to <= Stretches(text, kind, index)[j].from
    decreases |text| - index
  {
    if kind(text[index]) == 0 {
      StretchesInOrder(text, kind, index + 1, i, j);
    } else {
      var end := EndOf(text, kind, index, index + 1);
      EndOfMeans(text, kind, index, index + 1);
      if i == 0 {
        StretchesAreMaximal(text, kind, end);
        assert Stretches(text, kind, index)[j] in Stretches(text, kind, end);
      } else {
        StretchesInOrder(text, kind, end, i - 1, j - 1);
      }
    }
  }

  /** They leave out no character of a kind other than 0. */
  lemma {:induction false} StretchesCover(text: string, kind: char -> nat, index: nat, k: nat)
    requires index <= k < |text| && kind(text[k]) != 0
    ensures exists s <- Stretches(text, kind, index) :: s.from <= k < s.to
    decreases |text| - index
  {
    if kind(text[index]) == 0 {
      StretchesCover(text, kind, index + 1, k);
    } else {
      var end := EndOf(text, kind, index, index + 1);
      if k < end {
        assert Span(index, end) in Stretches(text, kind, index);
      } else {
        StretchesCover(text, kind, end, k);
      }
    }
  }

  /** A stretch still being read: from `from` to `i`, of one kind. */
  predicate Reading(text: string, kind: char -> nat, from: nat, i: nat) {
    && from < i <= |text| && kind(text[from]) != 0
    && forall k :: from <= k < i ==> kind(text[k]) == kind(text[from])
  }

  lemma {:induction false} EndOfReading(text: string, kind: char -> nat, from: nat, i: nat, j: nat)
    requires from < j <= i && Reading(text, kind, from, i)
    ensures EndOf(text, kind, from, j) == EndOf(text, kind, from, i)
    decreases i - j
  {
    if j < i {
      EndOfReading(text, kind, from, i, j + 1);
    }
  }

  /** Reading on to a character of another kind, or the end, closes the stretch. */
  lemma ReadingEnds(text: string, kind: char -> nat, from: nat, i: nat)
    requires Reading(text, kind, from, i)
    requires i < |text| ==> kind(text[i]) != kind(text[from])
    ensures Stretches(text, kind, from) == [Span(from, i)] + Stretches(text, kind, i)
  {
    EndOfReading(text, kind, from, i, from + 1);
  }

  function Texts(text: string, spans: seq<Span>, keep: Span -> bool): seq<string>
    requires forall s <- spans :: s.from <= s.to <= |text|
  {
    if spans == [] then []
    else (if keep(spans[0]) then [text[spans[0].from..spans[0].to]] else []) + Texts(text, spans[1..], keep)
  }

  /** The kept texts of the stretches from `index` on. */
  function Parts(text: string, kind: char -> nat, keep: Span -> bool, index: nat): seq<string>
    requires index <= |text|
  {
    InBounds(text, kind, index);
    Texts(text, Stretches(text, kind, index), keep)
  }

  lemma {:induction false} InBounds(text: string, kind: char -> nat, index: nat)
    requires index <= |text|
    ensures forall s <- Stretches(text, kind, index) :: s.from <= s.to <= |text|
    decreases |text| - index
  {
    if index < |text| {
      InBounds(text, kind, if kind(text[index]) == 0 then index + 1 else EndOf(text, kind, index, index + 1));
    }
  }

  lemma PartsAfter(text: string, kind: char -> nat, keep: Span -> bool, from: nat, i: nat)
    requires Reading(text, kind, from, i)
    requires i < |text| ==> kind(text[i]) != kind(text[from])
    ensures Parts(text, kind, keep, from) == (if keep(Span(from, i)) then [text[from..i]] else []) + Parts(text, kind, keep, i)
  {
    ReadingEnds(text, kind, from, i);
    InBounds(text, kind, from);
    InBounds(text, kind, i);
    assert ([Span(from, i)] + Stretches(text, kind, i))[1..] == Stretches(text, kind, i);
  }

  /** A scan in progress: `done` holds the kept parts before `from`, `current` is the text from there. */
  ghost predicate Scanning(text: string, kind: char -> nat, keep: Span -> bool, from: nat, i: nat, current: string, done: seq<string>) {
    && from <= i <= |text| && current == text[from..i]
    && (from < i ==> Reading(text, kind, from, i))
    && Parts(text, kind, keep, 0) == done + Parts(text, kind, keep, from)
  }

  lemma ScanOn(text: string, kind: char -> nat, keep: Span -> bool, from: nat, i: nat, current: string, done: seq<string>)
    requires Scanning(text, kind, keep, from, i, current, done) && i < |text| && kind(text[i]) != 0
    requires from < i ==> kind(text[i]) == kind(text[from])
    ensures Scanning(text, kind, keep, from, i + 1, current + [text[i]], done)
  {
  }

  lemma ScanSkip(text: string, kind: char -> nat, keep: Span -> bool, i: nat, done: seq<string>)
    requires Scanning(text, kind, keep, i, i, "", done) && i < |text| && kind(text[i]) == 0
    ensures Scanning(text, kind, keep, i + 1, i + 1, "", done)
  {
    InBounds(text, kind, i);
  }

  lemma ScanClose(text: string, kind: char -> nat, keep: Span -> bool, from: nat, i: nat, current: string, done: seq<string>)
    requires Scanning(text, kind, keep, from, i, current, done) && from < i
    requires i < |text| ==> kind(text[i]) != kind(text[from])
    ensures Scanning(text, kind, keep, i, i, "", if keep(Span(from, i)) then done + [current] else done)
  {
    PartsAfter(text, kind, keep, from, i);
  }

  // ---- Separators ------------------------------------------------------------------------

  function SeparatorKind(separators: string): char -> nat {
    (c: char) => if c in separators || IsSpace(c) then 0 else 1
  }

  function Every(): Span -> bool {
    (s: Span) => true
  }

  /** The parts are the longest stretches free of separators and spaces, in order. */
  method SplitOnSeparators(value: string, separators: string) returns (parts: seq<string>)
    ensures parts == Parts(value, SeparatorKind(separators), Every(), 0)
  {
    ghost var kind, keep := SeparatorKind(separators), Every();
    ghost var from := 0;
    parts := [];
    var current: string := "";
    var i := 0;
    while i < |value|
      invariant 0 <= i <= |value| && Scanning(value, kind, keep, from, i, current, parts)
    {
      if value[i] in separators || IsSpace(value[i]) {
        if current != "" {
          ScanClose(value, kind, keep, from, i, current, parts);
          parts, current := parts + [current], "";
        }
        ScanSkip(value, kind, keep, i, parts);
        from := i + 1;
      } else {
        ScanOn(value, kind, keep, from, i, current, parts);
        current := current + [value[i]];
      }
      i := i + 1;
    }
    if current != "" {
      ScanClose(value, kind, keep, from, i, current, parts);
      parts := parts + [current];
    }
  }

  // ---- Letter and digit groups -----------------------------------------------------------

  function GroupKind(): char -> nat {
    (c: char) => if IsAsciiAlpha(c) then 1 else if IsAsciiDigit(c) then 2 else 0
  }

  /** Single letters are not groups; single digits are. */
  function IsGroup(value: string): Span -> bool {
    (s: Span) => s.from < s.to <= |value| && (GroupKind()(value[s.from]) == 2 || s.to - s.from > 1)
  }

  /** The groups are the longest stretches of letters and of digits, in order, single letters left out. */
  method EmbeddedAlphaDigitGroups(value: string) returns (groups: seq<string>)
    ensures groups == Parts(value, GroupKind(), IsGroup(value), 0)
  {
    var kindOf := GroupKind();
    ghost var keep := IsGroup(value);
    ghost var from := 0;
    groups := [];
    var current: string := "";
    var currentKind := 0;
    var i := 0;
    while i < |value|
      invariant 0 <= i <= |value| && Scanning(value, kindOf, keep, from, i, current, groups)
      invariant currentKind == if from < i then kindOf(value[from]) else 0
    {
      var kind := kindOf(value[i]);
      if kind != currentKind && current != "" {
        ScanClose(value, kindOf, keep, from, i, current, groups);
        groups, current := AppendEmbeddedGroup(groups, current, currentKind), "";
        from := i;
      }
      if kind == 0 {
        ScanSkip(value, kindOf, keep, i, groups);
        from := i + 1;
      } else {
        ScanOn(value, kindOf, keep, from, i, current, groups);
        current := current + [value[i]];
      }
      currentKind := kind;
      i := i + 1;
    }
    if current != "" {
      ScanClose(value, kindOf, keep, from, i, current, groups);
      groups := AppendEmbeddedGroup(groups, current, currentKind);
    }
  }

  function AppendEmbeddedGroup(groups: seq<string>, current: string, kind: nat): seq<string> {
    if kind == 2 || |current| > 1 then groups + [current] else groups
  }
}

/** The two escapers in front of the search engine: LIKE patterns and full-text phrase queries. */
module SearchQuery {
  import opened Common

  // ---- LIKE ------------------------------------------------------------------------------

  function Replace(s: string, c: char, with: string): string {
    if s == "" then "" else (if s[0] == c then with else [s[0]]) + Replace(s[1..], c, with)
  }

  /** Three replacements, one after the other. */
  function EscapeLike(value: string): string {
    Replace(Replace(Replace(value, '!', "!!"), '%', "!%"), '_', "!_")
  }

  predicate IsSpecial(c: char) {
    c == '!' || c == '%' || c == '_'
  }

  /** Every special character behind one escape, in one pass. */
  function Escaped(value: string): string {
    if value == "" then "" else (if IsSpecial(value[0]) then ['!', value[0]] else [value[0]]) + Escaped(value[1..])
  }

  lemma {:induction false} ReplaceConcat(s: string, t: string, c: char, with: string)
    ensures Replace(s + t, c, with) == Replace(s, c, with) + Replace(t, c, with)
  {
    if s == "" {
      assert s + t == t;
    } else {
      assert (s + t)[1..] == s[1..] + t;
      ReplaceConcat(s[1..], t, c, with);
    }
  }

  lemma ReplaceChar(a: char, c: char, with: string)
    ensures Replace([a], c, with) == if a == c then with else [a]
  {
    assert [a][1..] == "";
    assert Replace("", c, with) == "";
  }

  lemma ReplacePair(a: char, b: char, c: char, with: string)
    ensures Replace([a, b], c, with) == (if a == c then with else [a]) + (if b == c then with else [b])
  {
    assert [a, b] == [a] + [b];
    ReplaceConcat([a], [b], c, with);
    ReplaceChar(a, c, with);
    ReplaceChar(b, c, with);
  }

  /** The order of the three replacements makes them escape each character once. */
  lemma {:induction false} EscapeLikeIsOnePass(value: string)
    ensures EscapeLike(value) == Escaped(value)
  {
    if value != "" {
      var a, rest := value[0], value[1..];
      assert value == [a] + rest;
      EscapeLikeIsOnePass(rest);
      ReplaceConcat([a], rest, '!', "!!");
      var x, y := Replace([a], '!', "!!"), Replace(rest, '!', "!!");
      ReplaceConcat(x, y, '%', "!%");
      ReplaceConcat(Replace(x, '%', "!%"), Replace(y, '%', "!%"), '_', "!_");
      EscapeOne(a);
    }
  }

  lemma EscapeOne(a: char)
    ensures EscapeLike([a]) == if IsSpecial(a) then ['!', a] else [a]
  {
    ReplaceChar(a, '!', "!!");
    ReplaceChar(a, '%', "!%");
    ReplaceChar(a, '_', "!_");
    ReplacePair('!', a, '%', "!%");
    ReplacePair('!', a, '_', "!_");
    ReplacePair('!', '!', '%', "!%");
    ReplacePair('!', '!', '_', "!_");
  }

  /** The engine's LIKE with escape character `!`; `fold` is its case folding of one character. */
  predicate Like(pattern: string, text: string, fold: char -> char)
    decreases |pattern| + |text|
  {
    if pattern == "" then text == ""
    else if pattern[0] == '%' then Like(pattern[1..], text, fold) || (text != "" && Like(pattern, text[1..], fold))
    else if pattern[0] == '!' then
      |pattern| > 1 && text != "" && fold(text[0]) == fold(pattern[1]) && Like(pattern[2..], text[1..], fold)
    else
      text != "" && (pattern[0] == '_' || fold(text[0]) == fold(pattern[0])) && Like(pattern[1..], text[1..], fold)
  }

  /** `probe` stands in `text` at position `i`, case aside. */
  predicate OccursAt(probe: string, text: string, i: nat, fold: char -> char) {
    i + |probe| <= |text| && forall k :: 0 <= k < |probe| ==> fold(text[i + k]) == fold(probe[k])
  }

  lemma {:induction false} TrailingPercent(text: string, fold: char -> char)
    ensures Like("%", text, fold)
    decreases |text|
  {
    assert "%"[1..] == "";
    if text != "" {
      TrailingPercent(text[1..], fold);
    }
  }

  /** An escaped probe followed by `%` matches exactly the texts that start with the probe. */
  lemma {:induction false} PrefixMatch(probe: string, text: string, fold: char -> char)
    ensures Like(Escaped(probe) + "%", text, fold) <==> OccursAt(probe, text, 0, fold)
    decreases |probe|
  {
    if probe == "" {
      assert Escaped(probe) + "%" == "%";
      TrailingPercent(text, fold);
    } else {
      var p, rest := Escaped(probe) + "%", Escaped(probe[1..]) + "%";
      assert p == (if IsSpecial(probe[0]) then ['!', probe[0]] else [probe[0]]) + rest;
      assert p[if IsSpecial(probe[0]) then 2 else 1..] == rest;
      if text != "" {
        PrefixMatch(probe[1..], text[1..], fold);
        assert OccursAt(probe, text, 0, fold) <==>
               fold(text[0]) == fold(probe[0]) && OccursAt(probe[1..], text[1..], 0, fold) by {
          OccursStep(probe, text, fold);
        }
      }
    }
  }

  lemma OccursStep(probe: string, text: string, fold: char -> char)
    requires probe != "" && text != ""
    ensures OccursAt(probe, text, 0, fold) <==> fold(text[0]) == fold(probe[0]) && OccursAt(probe[1..], text[1..], 0, fold)
  {
    if fold(text[0]) == fold(probe[0]) && OccursAt(probe[1..], text[1..], 0, fold) {
      forall k | 0 <= k < |probe|
        ensures fold(text[0 + k]) == fold(probe[k])
      {
        if k > 0 {
          assert fold(text[1..][0 + (k - 1)]) == fold(probe[1..][k - 1]);
        }
      }
    }
    if OccursAt(probe, text, 0, fold) {
      assert fold(text[0 + 0]) == fold(probe[0]);
      forall k | 0 <= k < |probe| - 1
        ensures fold(text[1..][0 + k]) == fold(probe[1..][k])
      {
        assert fold(text[0 + (k + 1)]) == fold(probe[k + 1]);
      }
    }
  }

  /** The pattern the store builds means literal substring: it matches a text exactly when the probe
      stands somewhere in it, case aside, whatever special characters the probe holds. */
  lemma {:induction false} LikeMeansSubstring(probe: string, text: string, fold: char -> char)
    ensures Like("%" + EscapeLike(probe) + "%", text, fold) <==> exists i :: 0 <= i <= |text| && OccursAt(probe, text, i, fold)
    decreases |text|
  {
    EscapeLikeIsOnePass(probe);
    var tail := Escaped(probe) + "%";
    var pattern := "%" + EscapeLike(probe) + "%";
    assert pattern[0] == '%' && pattern[1..] == tail;
    PrefixMatch(probe, text, fold);
    if text != "" {
      LikeMeansSubstring(probe, text[1..], fold);
      if i :| 0 <= i <= |text| && OccursAt(probe, text, i, fold) {
        if i > 0 {
          OccursShift(probe, text, i - 1, fold);
        }
      }
      if i :| 0 <= i <= |text[1..]| && OccursAt(probe, text[1..], i, fold) {
        OccursShift(probe, text, i, fold);
      }
    }
  }

  lemma OccursShift(probe: string, text: string, i: nat, fold: char -> char)
    requires text != ""
    ensures OccursAt(probe, text[1..], i, fold) <==> OccursAt(probe, text, i + 1, fold)
  {
    if i + 1 + |probe| <= |text| {
      forall k | 0 <= k < |probe|
        ensures fold(text[1..][i + k]) == fold(probe[k]) <==> fold(text[i + 1 + k]) == fold(probe[k])
      {
        assert text[1..][i + k] == text[i + 1 + k];
      }
    }
  }

  // ---- Full-text phrases -----------------------------------------------------------------

  function Phrase(value: string): string {
    "\"" + Replace(value, '"', "\"\"") + "\""
  }

  function JoinPhrases(probes: seq<string>): string {
    if probes == [] then ""
    else if |probes| == 1 then Phrase(probes[0])
    else JoinPhrases(probes[..|probes| - 1]) + " OR " + Phrase(probes[|probes| - 1])
  }

  /** The probes a query is built from: normalized, long enough, first occurrences only. */
  function Probes(values: seq<string>, minLength: nat, normalize: string -> string): seq<string> {
    if values == [] then []
    else
      var rest, probe := Probes(values[..|values| - 1], minLength, normalize), normalize(values[|values| - 1]);
      if |probe| < minLength || probe in rest then rest else rest + [probe]
  }

  /** Where a normalized value first appears. */
  function FirstIndex(values: seq<string>, normalize: string -> string, probe: string): nat {
    if values == [] || normalize(values[0]) == probe then 0 else 1 + FirstIndex(values[1..], normalize, probe)
  }

  lemma {:induction false} FirstIndexInside(values: seq<string>, normalize: string -> string, probe: string, more: seq<string>)
    ensures (exists v <- values :: normalize(v) == probe) ==>
              FirstIndex(values, normalize, probe) < |values|
              && FirstIndex(values + more, normalize, probe) == FirstIndex(values, normalize, probe)
    ensures !(exists v <- values :: normalize(v) == probe) ==>
              FirstIndex(values + more, normalize, probe) == |values| + FirstIndex(more, normalize, probe)
    decreases |values|
  {
    if values == [] {
      assert values + more == more;
    } else {
      assert (values + more)[1..] == values[1..] + more;
      assert values == [values[0]] + values[1..];
      FirstIndexInside(values[1..], normalize, probe, more);
    }
  }

  /** Probes come in the order in which their values first appear. */
  lemma {:induction false} ProbesInOrder(values: seq<string>, minLength: nat, normalize: string -> string, i: nat, j: nat)
    requires i < j < |Probes(values, minLength, normalize)|
    ensures var ps := Probes(values, minLength, normalize);
            FirstIndex(values, normalize, ps[i]) < FirstIndex(values, normalize, ps[j])
    decreases |values|
  {
    var rest, last := values[..|values| - 1], values[|values| - 1];
    var ps, before := Probes(values, minLength, normalize), Probes(rest, minLength, normalize);
    assert values == rest + [last];
    ProbesExact(rest, minLength, normalize, ps[i]);
    ProbesExact(rest, minLength, normalize, ps[j]);
    FirstIndexInside(rest, normalize, ps[i], [last]);
    FirstIndexInside(rest, normalize, ps[j], [last]);
    assert before[i] == ps[i];
    if j < |before| {
      assert before[j] == ps[j];
      ProbesInOrder(rest, minLength, normalize, i, j);
    }
  }

  /** Exactly the long enough normalized values, each once. */
  lemma {:induction false} ProbesExact(values: seq<string>, minLength: nat, normalize: string -> string, probe: string)
    ensures probe in Probes(values, minLength, normalize) <==>
            |probe| >= minLength && exists v <- values :: normalize(v) == probe
    ensures var ps := Probes(values, minLength, normalize); forall i, j :: 0 <= i < j < |ps| ==> ps[i] != ps[j]
  {
    if values != [] {
      var rest, last := values[..|values| - 1], values[|values| - 1];
      assert values == rest + [last];
      ProbesExact(rest, minLength, normalize, probe);
    }
  }

  method BuildFtsPhraseQuery(values: seq<string>, minLength: nat, normalize: string -> string) returns (query: string)
    ensures query == JoinPhrases(Probes(values, minLength, normalize))
  {
    var phrases: seq<string> := [];
    var seen: set<string> := {};
    ghost var probes: seq<string> := [];
    query := "";
    var i := 0;
    while i < |values|
      invariant 0 <= i <= |values|
      invariant probes == Probes(values[..i], minLength, normalize)
      invariant seen == set p | p in probes
      invariant |phrases| == |probes| && query == JoinPhrases(probes)
    {
      assert values[..i + 1][..i] == values[..i];
      var probe := normalize(values[i]);
      if |probe| >= minLength && probe !in seen {
        seen := seen + {probe};
        query := if phrases == [] then Phrase(probe) else query + " OR " + Phrase(probe);
        phrases := phrases + [Phrase(probe)];
        assert (probes + [probe])[..|probes|] == probes;
        probes := probes + [probe];
      }
      i := i + 1;
    }
    assert values[..i] == values;
  }

  // ---- Reading a query back --------------------------------------------------------------

  /** A string after its opening quote, by the rule of section 3.1, "FTS5 Strings", of the SQLite FTS5
      documentation: it runs to the next quote that is not doubled, and a doubled quote stands for one.
      None when it never closes. */
  function ReadString(s: string): Option<(string, string)>
    decreases |s|
  {
    if s == "" then None
    else if s[0] != '"' then
      match ReadString(s[1..])
      case None => None
      case Some((text, rest)) => Some(([s[0]] + text, rest))
    else if |s| > 1 && s[1] == '"' then
      match ReadString(s[2..])
      case None => None
      case Some((text, rest)) => Some((['"'] + text, rest))
    else Some(("", s[1..]))
  }

  lemma {:induction false} ReadStringShrinks(s: string)
    ensures ReadString(s).Some? ==> |ReadString(s).value.1| < |s|
    decreases |s|
  {
    if s != "" && s[0] != '"' {
      ReadStringShrinks(s[1..]);
    } else if |s| > 1 && s[1] == '"' {
      ReadStringShrinks(s[2..]);
    }
  }

  const OR_WORD := " OR "

  /** A query of strings joined by the OR operator. */
  function ReadQuery(s: string): Option<seq<string>>
    decreases |s|
  {
    if s == "" || s[0] != '"' then None
    else
      match ReadString(s[1..])
      case None => None
      case Some((text, rest)) =>
        ReadStringShrinks(s[1..]);
        if rest == "" then Some([text])
        else if |rest| < |OR_WORD| || rest[..|OR_WORD|] != OR_WORD then None
        else
          match ReadQuery(rest[|OR_WORD|..])
          case None => None
          case Some(more) => Some([text] + more)
  }

  /** A built phrase reads back as its value, whatever follows it, unless that is another quote. */
  lemma {:induction false} PhraseReadsBack(value: string, rest: string)
    requires rest == "" || rest[0] != '"'
    ensures ReadString(Replace(value, '"', "\"\"") + "\"" + rest) == Some((value, rest))
    decreases |value|
  {
    var s := Replace(value, '"', "\"\"") + "\"" + rest;
    if value == "" {
      assert s == "\"" + rest;
      assert s[1..] == rest;
    } else {
      var s' := Replace(value[1..], '"', "\"\"") + "\"" + rest;
      PhraseReadsBack(value[1..], rest);
      if value[0] == '"' {
        assert s == "\"\"" + s';
        assert s[2..] == s';
      } else {
        assert s == [value[0]] + s';
        assert s[1..] == s';
      }
      assert value == [value[0]] + value[1..];
    }
  }

  /** The joined phrases seen from the front. */
  lemma {:induction false} JoinFromFront(probes: seq<string>)
    requires |probes| >= 2
    ensures JoinPhrases(probes) == Phrase(probes[0]) + " OR " + JoinPhrases(probes[1..])
  {
    var init, last := probes[..|probes| - 1], probes[|probes| - 1];
    if |probes| == 2 {
      assert init == [probes[0]] && probes[1..] == [last];
    } else {
      JoinFromFront(init);
      assert init[1..] == probes[1..][..|probes| - 2];
      assert JoinPhrases(probes[1..]) == JoinPhrases(init[1..]) + " OR " + Phrase(last);
      assert JoinPhrases(probes) == Phrase(probes[0]) + " OR " + JoinPhrases(init[1..]) + " OR " + Phrase(last);
    }
  }

  lemma ReadPhrase(value: string, rest: string)
    requires rest == "" || rest[0] != '"'
    ensures var q := Phrase(value) + rest; q != "" && q[0] == '"' && ReadString(q[1..]) == Some((value, rest))
  {
    var body := Replace(value, '"', "\"\"") + "\"" + rest;
    assert Phrase(value) + rest == "\"" + body;
    assert (Phrase(value) + rest)[1..] == body;
    PhraseReadsBack(value, rest);
  }

  /** Reading a phrase, then the operator and the rest of the query, if there is more. */
  lemma ReadOne(value: string)
    ensures ReadQuery(Phrase(value)) == Some([value])
  {
    ReadPhrase(value, "");
    assert Phrase(value) + "" == Phrase(value);
  }

  lemma ReadFirst(value: string, query: string)
    requires ReadQuery(query).Some?
    ensures ReadQuery(Phrase(value) + " OR " + query) == Some([value] + ReadQuery(query).value)
  {
    var rest := " OR " + query;
    ReadPhrase(value, rest);
    assert rest[|OR_WORD|..] == query && rest[..|OR_WORD|] == OR_WORD;
    assert Phrase(value) + " OR " + query == Phrase(value) + rest;
  }

  lemma {:induction false} JoinedReadsBack(probes: seq<string>)
    requires probes != []
    ensures ReadQuery(JoinPhrases(probes)) == Some(probes)
    decreases |probes|
  {
    if |probes| == 1 {
      ReadOne(probes[0]);
      assert JoinPhrases(probes) == Phrase(probes[0]);
      assert probes == [probes[0]];
    } else {
      JoinFromFront(probes);
      JoinedReadsBack(probes[1..]);
      ReadFirst(probes[0], JoinPhrases(probes[1..]));
    }
    assert probes == [probes[0]] + probes[1..];
  }

  /** A built query, read by the engine's string rule, is exactly the distinct normalized probes of at
      least the minimum length, in order of first appearance; with none there is no query. */
  lemma QueryReadsBack(values: seq<string>, minLength: nat, normalize: string -> string)
    ensures var probes := Probes(values, minLength, normalize);
            if probes == [] then JoinPhrases(probes) == "" else ReadQuery(JoinPhrases(probes)) == Some(probes)
  {
    var probes := Probes(values, minLength, normalize);
    if probes != [] {
      JoinedReadsBack(probes);
    }
  }
}

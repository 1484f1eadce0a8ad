/** The canonical text of a project descriptor, which the key of a project is hashed from. */
module ProjectDescriptors {
  import opened Common
  import opened JsonValues
  import opened Text
  import opened Contract

  function Slashed(s: string): string {
    seq(|s|, i requires 0 <= i < |s| => if s[i] == '\\' then '/' else s[i])
  }

  /** Every run of spaces becomes one blank. */
  function SqueezeSpaces(s: string): string {
    if s == "" then ""
    else if !IsSpace(s[0]) then [s[0]] + SqueezeSpaces(s[1..])
    else if |s| > 1 && IsSpace(s[1]) then SqueezeSpaces(s[1..])
    else " " + SqueezeSpaces(s[1..])
  }

  /** Every run of slashes becomes one. */
  function SqueezeSlashes(s: string): string {
    if s == "" then ""
    else if s[0] == '/' && |s| > 1 && s[1] == '/' then SqueezeSlashes(s[1..])
    else [s[0]] + SqueezeSlashes(s[1..])
  }

  function DropLastSlashes(s: string): string {
    if s != "" && s[|s| - 1] == '/' then DropLastSlashes(s[..|s| - 1]) else s
  }

  function NormalizedText(fold: string -> string, s: string): string {
    DropLastSlashes(SqueezeSlashes(SqueezeSpaces(fold(Strip(Slashed(s))))))
  }

  /** The text a document names its project by: the first of three fields that is a text and not blank. */
  function NameIn(doc: map<string, Json>): Option<string> {
    if NonBlank(doc, "name").Some? then NonBlank(doc, "name")
    else if NonBlank(doc, "repository").Some? then NonBlank(doc, "repository")
    else NonBlank(doc, "repo")
  }

  function NonBlank(doc: map<string, Json>, key: string): Option<string> {
    match Field(JObject(doc), key)
    case Some(JString(text)) => if Strip(text) != "" then Some(text) else None
    case _ => None
  }

  /** None is the value error. A document's name is not checked again after it is normalized. */
  function Normalized(fold: string -> string, dump: map<string, Json> -> string, d: Descriptor): Option<string> {
    match d
    case TextDescriptor(text) => if NormalizedText(fold, text) == "" then None else Some(NormalizedText(fold, text))
    case DocumentDescriptor(doc) =>
      if NameIn(doc).Some? then Some(NormalizedText(fold, NameIn(doc).value))
      else
        var text := NormalizedText(fold, dump(doc));
        if text == "" || text == "{}" then None else Some(text)
  }

  // ---- What case folding and the JSON text form promise ----------------------------------

  predicate OnlySlashes(s: string) {
    forall i :: 0 <= i < |s| ==> s[i] == '/'
  }

  predicate IsPlain(s: string) {
    forall i :: 0 <= i < |s| ==> 'a' <= s[i] <= 'z' || s[i] == '_' || s[i] == '/'
  }

  /** Small letters stay as they are, a quote stays a quote, and nothing else becomes a slash or vanishes. */
  ghost predicate IsCasefold(fold: string -> string) {
    && (forall s :: IsPlain(s) ==> fold(s) == s)
    && (forall s :: '"' in s ==> '"' in fold(s))
    && (forall s :: OnlySlashes(fold(s)) <==> OnlySlashes(s))
  }

  /** A document that is not empty has a quoted key. */
  ghost predicate IsDump(dump: map<string, Json> -> string) {
    forall doc :: doc != map[] ==> '"' in dump(doc)
  }

  // ---- Which descriptors normalize to nothing --------------------------------------------

  /** Nothing but path separators. */
  predicate OnlySeparators(s: string) {
    forall i :: 0 <= i < |s| ==> s[i] == '/' || s[i] == '\\'
  }

  lemma {:induction false} SlashedStripLeft(s: string)
    ensures StripLeft(Slashed(s)) == Slashed(StripLeft(s))
  {
    if s != "" && IsSpace(s[0]) {
      SlashedStripLeft(s[1..]);
      assert Slashed(s)[1..] == Slashed(s[1..]);
    }
  }

  lemma {:induction false} SlashedStripRight(s: string)
    ensures StripRight(Slashed(s)) == Slashed(StripRight(s))
  {
    if s != "" && IsSpace(s[|s| - 1]) {
      SlashedStripRight(s[..|s| - 1]);
      assert Slashed(s)[..|s| - 1] == Slashed(s[..|s| - 1]);
    }
  }

  lemma SlashedSeparators(s: string)
    ensures OnlySlashes(Slashed(s)) <==> OnlySeparators(s)
  {
    forall i | 0 <= i < |s|
      ensures Slashed(s)[i] == '/' <==> s[i] == '/' || s[i] == '\\'
    {
    }
  }

  lemma OnlySlashesHead(s: string)
    requires s != ""
    ensures OnlySlashes(s) <==> s[0] == '/' && OnlySlashes(s[1..])
  {
    assert s == [s[0]] + s[1..];
  }

  lemma OnlySlashesPrepended(c: char, rest: string)
    ensures OnlySlashes([c] + rest) <==> c == '/' && OnlySlashes(rest)
  {
    OnlySlashesHead([c] + rest);
    assert ([c] + rest)[1..] == rest;
  }

  lemma {:induction false} SqueezedSpaces(s: string)
    ensures OnlySlashes(SqueezeSpaces(s)) <==> OnlySlashes(s)
  {
    if s != "" {
      SqueezedSpaces(s[1..]);
      OnlySlashesHead(s);
      OnlySlashesPrepended(s[0], SqueezeSpaces(s[1..]));
      OnlySlashesPrepended(' ', SqueezeSpaces(s[1..]));
      if IsSpace(s[0]) && |s| > 1 && IsSpace(s[1]) {
        OnlySlashesHead(s[1..]);
      }
    }
  }

  lemma {:induction false} SqueezedSlashes(s: string)
    ensures OnlySlashes(SqueezeSlashes(s)) <==> OnlySlashes(s)
  {
    if s != "" {
      SqueezedSlashes(s[1..]);
      OnlySlashesHead(s);
      OnlySlashesPrepended(s[0], SqueezeSlashes(s[1..]));
    }
  }

  lemma {:induction false} DroppedSlashes(s: string)
    ensures DropLastSlashes(s) == "" <==> OnlySlashes(s)
  {
    if s != "" {
      assert s == s[..|s| - 1] + [s[|s| - 1]];
      if s[|s| - 1] == '/' {
        DroppedSlashes(s[..|s| - 1]);
      }
    }
  }

  /** A text fails exactly when, trimmed, it consists of path separators only. */
  lemma TextFailsIff(fold: string -> string, dump: map<string, Json> -> string, text: string)
    requires IsCasefold(fold)
    ensures Normalized(fold, dump, TextDescriptor(text)).None? <==> OnlySeparators(Strip(text))
  {
    SlashedStripLeft(text);
    SlashedStripRight(StripLeft(text));
    SlashedSeparators(Strip(text));
    var folded := fold(Strip(Slashed(text)));
    SqueezedSpaces(folded);
    SqueezedSlashes(SqueezeSpaces(folded));
    DroppedSlashes(SqueezeSlashes(SqueezeSpaces(folded)));
  }

  lemma {:induction false} StripLeftKeeps(s: string, c: char)
    requires c in s && !IsSpace(c)
    ensures c in StripLeft(s)
  {
    if IsSpace(s[0]) {
      assert s == [s[0]] + s[1..];
      StripLeftKeeps(s[1..], c);
    }
  }

  lemma {:induction false} StripRightKeeps(s: string, c: char)
    requires c in s && !IsSpace(c)
    ensures c in StripRight(s)
  {
    if IsSpace(s[|s| - 1]) {
      assert s == s[..|s| - 1] + [s[|s| - 1]];
      StripRightKeeps(s[..|s| - 1], c);
    }
  }

  lemma {:induction false} SqueezesKeep(s: string, c: char)
    requires c in s && !IsSpace(c) && c != '/'
    ensures c in SqueezeSpaces(s) && c in SqueezeSlashes(s)
  {
    assert s == [s[0]] + s[1..];
    if s[0] != c {
      SqueezesKeep(s[1..], c);
    }
  }

  lemma {:induction false} DropKeeps(s: string, c: char)
    requires c in s && c != '/'
    ensures c in DropLastSlashes(s)
  {
    if s[|s| - 1] == '/' {
      assert s == s[..|s| - 1] + [s[|s| - 1]];
      DropKeeps(s[..|s| - 1], c);
    }
  }

  /** A document the contract finds resolvable never fails. */
  lemma DocumentNeverFails(fold: string -> string, dump: map<string, Json> -> string, doc: map<string, Json>)
    requires IsCasefold(fold) && IsDump(dump) && Resolvable(DocumentDescriptor(doc))
    ensures Normalized(fold, dump, DocumentDescriptor(doc)).Some?
  {
    var text := dump(doc);
    var i :| 0 <= i < |text| && text[i] == '"';
    assert Slashed(text)[i] == '"';
    StripLeftKeeps(Slashed(text), '"');
    StripRightKeeps(StripLeft(Slashed(text)), '"');
    var folded := fold(Strip(Slashed(text)));
    SqueezesKeep(folded, '"');
    SqueezesKeep(SqueezeSpaces(folded), '"');
    DropKeeps(SqueezeSlashes(SqueezeSpaces(folded)), '"');
    assert '"' in NormalizedText(fold, text);
  }

  // ---- The canonical form ----------------------------------------------------------------

  predicate SingleSpaces(s: string) {
    && (forall i :: 0 <= i < |s| && IsSpace(s[i]) ==> s[i] == ' ')
    && forall i :: 0 <= i < |s| - 1 ==> s[i] != ' ' || s[i + 1] != ' '
  }

  predicate SingleSlashes(s: string) {
    forall i :: 0 <= i < |s| - 1 ==> s[i] != '/' || s[i + 1] != '/'
  }

  /** No run of spaces, no run of slashes, and no slash at the end. */
  predicate IsCanonical(s: string) {
    SingleSpaces(s) && SingleSlashes(s) && (s != "" ==> s[|s| - 1] != '/')
  }

  /** What is left of a text without its spaces and slashes. */
  function Essence(s: string): string {
    if s == "" then "" else (if IsSpace(s[0]) || s[0] == '/' then "" else [s[0]]) + Essence(s[1..])
  }

  lemma {:induction false} EssenceOfRest(s: string)
    requires s != "" && s[|s| - 1] == '/'
    ensures Essence(s[..|s| - 1]) == Essence(s)
    decreases |s|
  {
    if |s| > 1 {
      EssenceOfRest(s[1..]);
      assert s[..|s| - 1][1..] == s[1..][..|s| - 2];
    }
  }

  lemma {:induction false} SpacesSqueezed(s: string)
    ensures var r := SqueezeSpaces(s);
            && SingleSpaces(r) && Essence(r) == Essence(s) && (SingleSpaces(s) ==> r == s)
            && (s != "" ==> r != "" && r[0] == if IsSpace(s[0]) then ' ' else s[0])
  {
    if s != "" {
      SpacesSqueezed(s[1..]);
      var rest := SqueezeSpaces(s[1..]);
      assert SingleSpaces(s) ==> SingleSpaces(s[1..]);
      assert ([s[0]] + rest)[1..] == rest && (" " + rest)[1..] == rest;
      assert s == [s[0]] + s[1..];
    }
  }

  lemma {:induction false} SlashesSqueezed(s: string)
    requires SingleSpaces(s)
    ensures var r := SqueezeSlashes(s);
            && SingleSpaces(r) && SingleSlashes(r) && Essence(r) == Essence(s) && (SingleSlashes(s) ==> r == s)
            && (s != "" ==> r != "" && r[0] == s[0])
  {
    if s != "" {
      assert SingleSpaces(s[1..]);
      SlashesSqueezed(s[1..]);
      var rest := SqueezeSlashes(s[1..]);
      assert SingleSlashes(s) ==> SingleSlashes(s[1..]);
      assert ([s[0]] + rest)[1..] == rest;
      assert s == [s[0]] + s[1..];
    }
  }

  lemma {:induction false} SlashesDropped(s: string)
    requires SingleSpaces(s) && SingleSlashes(s)
    ensures var r := DropLastSlashes(s);
            r <= s && IsCanonical(r) && Essence(r) == Essence(s) && (IsCanonical(s) ==> r == s)
  {
    if s != "" && s[|s| - 1] == '/' {
      var rest := s[..|s| - 1];
      SlashesDropped(rest);
      EssenceOfRest(s);
    }
  }

  /** A text in canonical form keeps everything but spaces and slashes, in order. */
  lemma CanonicalText(fold: string -> string, s: string)
    ensures var r := NormalizedText(fold, s); IsCanonical(r) && Essence(r) == Essence(fold(Strip(Slashed(s))))
  {
    var folded := fold(Strip(Slashed(s)));
    SpacesSqueezed(folded);
    SlashesSqueezed(SqueezeSpaces(folded));
    SlashesDropped(SqueezeSlashes(SqueezeSpaces(folded)));
  }

  /** And a text that is canonical already, trimmed, folded and without backslashes, is its own. */
  lemma CanonicalStays(fold: string -> string, s: string)
    requires IsCanonical(s) && Strip(s) == s && fold(s) == s && '\\' !in s
    ensures NormalizedText(fold, s) == s
  {
    assert Slashed(s) == s;
    SpacesSqueezed(s);
    SlashesSqueezed(s);
    SlashesDropped(s);
  }

  /** A text and a document that names it share their canonical form: under `name`, or without a name
      under `repository`, or without either under `repo`. Only a document can have an empty one. */
  lemma NamedAlike(fold: string -> string, dump: map<string, Json> -> string, doc: map<string, Json>, key: string)
    requires key in {"name", "repository", "repo"} && key in doc && doc[key].JString? && Strip(doc[key].text) != ""
    requires key != "name" ==> "name" in doc ==> !doc["name"].JString? || Strip(doc["name"].text) == ""
    requires key == "repo" ==> "repository" in doc ==> !doc["repository"].JString? || Strip(doc["repository"].text) == ""
    ensures var named := Normalized(fold, dump, TextDescriptor(doc[key].text));
            Normalized(fold, dump, DocumentDescriptor(doc)) == if named.Some? then named else Some("")
  {
  }
}

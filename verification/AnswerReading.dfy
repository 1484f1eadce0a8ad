/** How the contract reads an answer: what its scans let through, and how it is put together from its
    parts. */
module AnswerReading {
  import opened Common
  import opened JsonValues
  import opened Text
  import opened Beliefs
  import opened Contract
  import opened ProjectDescriptors

  // ---- Keys and texts no scan objects to -------------------------------------------------

  /** A text without a character of the part does not contain it. */
  lemma Lacks(text: string, part: string, c: char)
    requires c in part && c !in text
    ensures !Contains(text, part)
  {
  }

  /** Neither a blank nor an angle bracket: no injected instruction. */
  lemma NoInjection(text: string)
    requires ' ' !in text && '<' !in text
    ensures !ContainsAny(text, INJECTION_PATTERNS)
  {
    forall part | part in INJECTION_PATTERNS
      ensures !Contains(text, part)
    {
      Lacks(text, part, if ' ' in part then ' ' else '<');
    }
  }

  /** Misses characters that every strength part needs; `score` needs an `s` three places before an `r`. */
  predicate LooksWeak(key: string) {
    && 'g' !in key && ('f' !in key || 'd' !in key || 'n' !in key) && ('y' !in key || ('b' !in key && 'c' !in key))
    && forall i :: 0 <= i < |key| - 3 ==> key[i] != 's' || key[i + 3] != 'r'
  }

  lemma NoScore(key: string)
    requires LooksWeak(key)
    ensures !Contains(key, "score")
  {
    if i :| 0 <= i <= |key| && PartAt(key, i, "score") {
      assert key[i..i + 5][0] == key[i] && key[i..i + 5][3] == key[i + 3];
    }
  }

  lemma NoStrength(key: string)
    requires LooksWeak(key)
    ensures !ContainsAny(key, STRENGTH_PARTS)
  {
    NoScore(key);
    Lacks(key, "strength", 'g');
    Lacks(key, "weight", 'g');
    Lacks(key, "confidence", if 'f' !in key then 'f' else if 'd' !in key then 'd' else 'n');
    Lacks(key, "certainty", if 'y' !in key then 'y' else 'c');
    Lacks(key, "probability", if 'y' !in key then 'y' else 'b');
  }

  /** Begins or goes on as no forbidden key does, once that is reduced to its letters. */
  predicate LooksOwn(key: string) {
    && key != "" && 'a' <= key[0] <= 'z'
    && (key[0] == 'o' || key[0] == 'r' || key[0] == 'm' || (key[0] == 'a' && 'o' in key) || (key[0] == 'p' && 'd' in key)
        || (key[0] == 's' && |key| < 7) || (key[0] == 'c' && |key| < 12))
  }

  lemma ForbiddenKeysLook()
    ensures forall key <- PROVENANCE_KEYS :: !LooksOwn(key)
    ensures forall key <- GENERATED_ID_KEYS :: !LooksOwn(key)
  {
  }

  lemma {:induction false} LettersKept(key: string, c: char)
    requires 'a' <= c <= 'z'
    ensures c in key ==> c in KeyLetters(key)
    ensures |KeyLetters(key)| <= |key|
  {
    if key != "" {
      LettersKept(key[1..], c);
      assert key == [key[0]] + key[1..];
    }
  }

  /** A key, as case folding leaves it, that no scan for keys objects to. */
  predicate IsHarmless(key: string) {
    IsPlain(key) && LooksWeak(key) && LooksOwn(key)
  }

  function IdKey(w: Words): string -> bool {
    (key: string) => KeyLetters(w.fold(key)) in GENERATED_ID_KEYS
  }

  lemma HarmlessPasses(w: Words, key: string)
    requires IsCasefold(w.fold) && IsHarmless(key)
    ensures !StrengthKey(w)(key) && !ProvenanceKey(w)(key) && !IdKey(w)(key)
  {
    NoStrength(key);
    LettersKept(key, 'o');
    LettersKept(key, 'd');
    assert LooksOwn(KeyLetters(key));
    ForbiddenKeysLook();
  }

  /** Only those keys, and only texts of small letters, at every depth. */
  predicate IsClean(v: Json, keys: set<string>) {
    match v
    case JObject(fields) => forall k <- fields :: k in keys && IsClean(fields[k], keys)
    case JList(items) => forall i | 0 <= i < |items| :: IsClean(items[i], keys)
    case JString(text) => IsPlain(text)
    case _ => true
  }

  lemma {:induction false} CleanHasNoBadKey(v: Json, keys: set<string>, bad: string -> bool)
    requires IsClean(v, keys) && forall k <- keys :: !bad(k)
    ensures !HasKey(v, bad)
  {
    match v
    case JObject(fields) =>
      forall k | k in fields
        ensures !HasKey(fields[k], bad)
      {
        CleanHasNoBadKey(fields[k], keys, bad);
      }
    case JList(items) =>
      forall i | 0 <= i < |items|
        ensures !HasKey(items[i], bad)
      {
        CleanHasNoBadKey(items[i], keys, bad);
      }
    case _ =>
  }

  lemma {:induction false} CleanHasNoBadText(w: Words, v: Json, keys: set<string>)
    requires IsCasefold(w.fold) && IsClean(v, keys)
    ensures !HasText(v, InjectionText(w))
  {
    match v
    case JObject(fields) =>
      forall k | k in fields
        ensures !HasText(fields[k], InjectionText(w))
      {
        CleanHasNoBadText(w, fields[k], keys);
      }
    case JList(items) =>
      forall i | 0 <= i < |items|
        ensures !HasText(items[i], InjectionText(w))
      {
        CleanHasNoBadText(w, items[i], keys);
      }
    case JString(text) => NoInjection(text);
    case _ =>
  }

  lemma OneMoreClean(fields: map<string, Json>, key: string, v: Json, keys: set<string>)
    requires IsClean(JObject(fields), keys) && key in keys && IsClean(v, keys)
    ensures IsClean(JObject(fields[key := v]), keys)
  {
  }

  lemma KeysPass(w: Words, keys: set<string>)
    requires IsCasefold(w.fold) && forall k <- keys :: IsHarmless(k)
    ensures forall k <- keys :: !StrengthKey(w)(k)
    ensures forall k <- keys :: !ProvenanceKey(w)(k)
    ensures forall k <- keys :: !IdKey(w)(k)
  {
    forall k | k in keys
      ensures !StrengthKey(w)(k) && !ProvenanceKey(w)(k) && !IdKey(w)(k)
    {
      HarmlessPasses(w, k);
    }
  }

  lemma NoIdInside(w: Words, d: Json)
    requires d.JObject? && !HasKey(d, IdKey(w))
    ensures NoGeneratedIds(w, d) == true
  {
    forall k | k in d.fields
      ensures KeyLetters(w.fold(k)) !in GENERATED_ID_KEYS
    {
      assert !IdKey(w)(k);
    }
  }

  /** An answer made of harmless keys and plain texts passes every scan. */
  lemma CleanScans(w: Words, v: Json, d: Json, keys: set<string>)
    requires IsCasefold(w.fold) && IsClean(v, keys) == true && IsClean(d, keys) == true && d.JObject?
    requires forall k <- keys :: IsHarmless(k)
    ensures !HasKey(v, StrengthKey(w)) && !HasKey(v, ProvenanceKey(w)) && !HasText(v, InjectionText(w))
    ensures NoGeneratedIds(w, d) == true
  {
    KeysPass(w, keys);
    CleanHasNoBadKey(v, keys, StrengthKey(w));
    CleanHasNoBadKey(v, keys, ProvenanceKey(w));
    CleanHasNoBadKey(d, keys, IdKey(w));
    NoIdInside(w, d);
    CleanHasNoBadText(w, v, keys);
  }

  // ---- From the parts to the whole -------------------------------------------------------

  /** A draft is accepted when its parts are. */
  lemma DraftFromParts(w: Words, d: Json, kind: MemoryKind, sa: ScopeAbout, draft: Draft, ctx: Context)
    requires d.JObject? && NoGeneratedIds(w, d)
    requires RequiredText(d, "memory_kind").Ok? && ParseMemoryKind(RequiredText(d, "memory_kind").value) == Some(kind)
    requires ValidateScopeAbout(d, ctx) == Ok(sa) && ValidateDraftBody(w, d, OfMemory(kind), sa, ctx) == Ok(draft)
    ensures ValidateAtomicDraft(w, Some(d), ctx) == Ok(AtomicDraft(draft))
  {
  }

  /** So is what is left of an answer after its first three fields. */
  lemma RestFromParts(w: Words, v: Json, fields: map<string, Json>, op: Operation, a: Authority, why: string, ps: seq<Payload>, ctx: Context)
    requires WithinCeiling(a, ctx.sourceKind)
    requires Field(v, "requires_confirmation") == Some(JBool(false)) && Field(v, "source_span_note").None?
    requires Field(v, "payload") == Some(JObject(fields)) && StageShapeOk(op, JObject(fields), ctx)
    requires ValidatePayloads(w, op, JObject(fields), ctx) == Ok(ps)
    ensures ValidateRest(w, v, ctx, op, a, why) == Ok(Validated(op, a, why, false, None, ps))
  {
  }

  /** And the answer. */
  lemma AnswerFromParts(w: Words, v: Json, op: Operation, a: Authority, why: string, r: Validated, ctx: Context)
    requires v.JObject? && !HasKey(v, StrengthKey(w)) && !HasKey(v, ProvenanceKey(w)) && !HasText(v, InjectionText(w))
    requires RequiredText(v, "operation").Ok? && ParseOperation(RequiredText(v, "operation").value) == Some(op)
    requires ParseAuthorityWithin(v, ctx.sourceKind) == Ok(a) && RequiredText(v, "rationale") == Ok(why)
    requires ValidateRest(w, v, ctx, op, a, why) == Ok(r)
    ensures ValidateOutput(w, v, ctx) == Ok(r)
  {
  }

  lemma PayloadFromDraft(w: Words, draft: Json, p: Payload, ctx: Context)
    requires ctx.stage == Extraction && ValidateAtomicDraft(w, Some(draft), ctx) == Ok(p)
    ensures var payload := JObject(map["atomic_belief_draft" := draft]);
            && StageShapeOk(CreateAtomicBelief, payload, ctx)
            && ValidatePayloads(w, CreateAtomicBelief, payload, ctx) == Ok([p])
  {
    var payload := JObject(map["atomic_belief_draft" := draft]);
    assert Field(payload, "atomic_belief_draft") == Some(draft);
  }
}

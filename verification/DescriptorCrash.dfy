/** An answer the contract accepts and the store cannot apply: its project is named by a lone slash. */
module DescriptorCrash {
  import opened Common
  import opened JsonValues
  import opened Text
  import opened Beliefs
  import opened Contract
  import opened ProjectDescriptors
  import opened AnswerReading
  import opened Acceptance
  import opened StateService

  const SLASH_DRAFT := JObject(map[
    "memory_kind" := JString("fact"), "scope" := JString("project"), "about" := JList([]), "content" := JString("fact"),
    "project_descriptor" := JString("/")])

  function AnswerOf(payload: Json): Json {
    JObject(map[
      "operation" := JString("create_atomic_belief"), "authority" := JString("llm_interpreted"), "rationale" := JString("fact"),
      "requires_confirmation" := JBool(false), "payload" := payload])
  }

  const SLASH_ANSWER := AnswerOf(JObject(map["atomic_belief_draft" := SLASH_DRAFT]))

  // ---- Its keys and texts are harmless ---------------------------------------------------

  predicate HasAnswerKeys(keys: set<string>) {
    && "operation" in keys && "authority" in keys && "rationale" in keys
    && "requires_confirmation" in keys && "payload" in keys && "atomic_belief_draft" in keys
  }

  predicate HasDraftKeys(keys: set<string>) {
    && "memory_kind" in keys && "scope" in keys && "about" in keys
    && "content" in keys && "project_descriptor" in keys
  }

  lemma FirstKeys() returns (keys: set<string>)
    ensures "operation" in keys && "authority" in keys && "rationale" in keys && "payload" in keys
    ensures forall k <- keys :: IsHarmless(k)
  {
    keys := {"operation", "authority", "rationale", "payload"};
  }

  lemma SecondKeys() returns (keys: set<string>)
    ensures "requires_confirmation" in keys
    ensures forall k <- keys :: IsHarmless(k)
  {
    keys := {"requires_confirmation"};
  }

  lemma ThirdKeys() returns (keys: set<string>)
    ensures "scope" in keys && "about" in keys && "content" in keys && "memory_kind" in keys
    ensures forall k <- keys :: IsHarmless(k)
  {
    keys := {"scope", "about", "content", "memory_kind"};
  }

  lemma FourthKeys() returns (keys: set<string>)
    ensures "project_descriptor" in keys
    ensures forall k <- keys :: IsHarmless(k)
  {
    keys := {"project_descriptor"};
  }

  lemma FifthKeys() returns (keys: set<string>)
    ensures "atomic_belief_draft" in keys
    ensures forall k <- keys :: IsHarmless(k)
  {
    keys := {"atomic_belief_draft"};
  }

  lemma HarmlessKeys() returns (keys: set<string>)
    ensures HasAnswerKeys(keys) && HasDraftKeys(keys) && forall k <- keys :: IsHarmless(k)
  {
    var first := FirstKeys();
    var second := SecondKeys();
    var third := ThirdKeys();
    var fourth := FourthKeys();
    var fifth := FifthKeys();
    keys := first + second + third + fourth + fifth;
  }

  lemma SlashDraftIsClean(keys: set<string>)
    requires HasDraftKeys(keys)
    ensures IsClean(SLASH_DRAFT, keys) == true
  {
    var f: map<string, Json> := map[];
    OneMoreClean(f, "memory_kind", JString("fact"), keys);
    f := f["memory_kind" := JString("fact")];
    OneMoreClean(f, "scope", JString("project"), keys);
    f := f["scope" := JString("project")];
    OneMoreClean(f, "about", JList([]), keys);
    f := f["about" := JList([])];
    OneMoreClean(f, "content", JString("fact"), keys);
    f := f["content" := JString("fact")];
    OneMoreClean(f, "project_descriptor", JString("/"), keys);
  }

  lemma AnswerIsClean(payload: Json, keys: set<string>)
    requires HasAnswerKeys(keys) && IsClean(payload, keys)
    ensures IsClean(AnswerOf(payload), keys) == true
  {
    var f: map<string, Json> := map[];
    OneMoreClean(f, "operation", JString("create_atomic_belief"), keys);
    f := f["operation" := JString("create_atomic_belief")];
    OneMoreClean(f, "authority", JString("llm_interpreted"), keys);
    f := f["authority" := JString("llm_interpreted")];
    OneMoreClean(f, "rationale", JString("fact"), keys);
    f := f["rationale" := JString("fact")];
    OneMoreClean(f, "requires_confirmation", JBool(false), keys);
    f := f["requires_confirmation" := JBool(false)];
    OneMoreClean(f, "payload", payload, keys);
  }

  lemma SlashAnswerIsClean(keys: set<string>)
    requires HasAnswerKeys(keys) && HasDraftKeys(keys)
    ensures IsClean(SLASH_DRAFT, keys) == true && IsClean(SLASH_ANSWER, keys) == true
  {
    SlashDraftIsClean(keys);
    OneMoreClean(map[], "atomic_belief_draft", SLASH_DRAFT, keys);
    AnswerIsClean(JObject(map["atomic_belief_draft" := SLASH_DRAFT]), keys);
  }

  lemma ScansFindNothing(w: Words)
    requires IsCasefold(w.fold)
    ensures !HasKey(SLASH_ANSWER, StrengthKey(w)) && !HasKey(SLASH_ANSWER, ProvenanceKey(w))
    ensures !HasText(SLASH_ANSWER, InjectionText(w)) && NoGeneratedIds(w, SLASH_DRAFT) == true
  {
    var keys := HarmlessKeys();
    SlashAnswerIsClean(keys);
    CleanScans(w, SLASH_ANSWER, SLASH_DRAFT, keys);
  }

  // ---- How the contract reads it ---------------------------------------------------------

  /** What the draft of the answer is read as. */
  const READ_DRAFT := Draft(OfMemory(Fact), ProjectScope, [], "fact", "fact", None, Some(TextDescriptor("/")))

  predicate DraftReads(d: Json) {
    && d.JObject? && Field(d, "memory_kind") == Some(JString("fact")) && Field(d, "scope") == Some(JString("project"))
    && Field(d, "about") == Some(JList([])) && Field(d, "content") == Some(JString("fact"))
    && Field(d, "project_descriptor") == Some(JString("/"))
    && Field(d, "object").None? && Field(d, "structure").None? && Field(d, "validity").None? && Field(d, "update_policy").None?
  }

  predicate AnswerReads(v: Json, draft: Json) {
    && v.JObject? && Field(v, "operation") == Some(JString("create_atomic_belief"))
    && Field(v, "authority") == Some(JString("llm_interpreted")) && Field(v, "rationale") == Some(JString("fact"))
    && Field(v, "requires_confirmation") == Some(JBool(false)) && Field(v, "source_span_note").None?
    && Field(v, "payload") == Some(JObject(map["atomic_belief_draft" := draft]))
  }

  lemma SlashDraftReads()
    ensures DraftReads(SLASH_DRAFT)
  {
  }

  lemma SlashAnswerReads()
    ensures AnswerReads(SLASH_ANSWER, SLASH_DRAFT)
  {
  }

  lemma ScopeIsAccepted(d: Json, ctx: Context)
    requires DraftReads(d)
    ensures ValidateScopeAbout(d, ctx) == Ok(ScopeAbout(ProjectScope, [], Some(TextDescriptor("/"))))
  {
    assert ParseReferences([]) == Ok([]);
  }

  lemma BodyIsAccepted(w: Words, d: Json, sa: ScopeAbout, ctx: Context)
    requires DraftReads(d) && ctx.sourceText.None?
    ensures ValidateDraftBody(w, d, OfMemory(Fact), sa, ctx) == Ok(Draft(OfMemory(Fact), sa.scope, sa.about, "fact", "fact", None, sa.project))
  {
    assert RequiredText(d, "content") == Ok("fact");
  }

  lemma SlashDraftIsAccepted(w: Words, ctx: Context)
    requires NoGeneratedIds(w, SLASH_DRAFT) && ctx.sourceText.None?
    ensures ValidateAtomicDraft(w, Some(SLASH_DRAFT), ctx) == Ok(AtomicDraft(READ_DRAFT))
  {
    SlashDraftReads();
    var sa := ScopeAbout(ProjectScope, [], Some(TextDescriptor("/")));
    ScopeIsAccepted(SLASH_DRAFT, ctx);
    BodyIsAccepted(w, SLASH_DRAFT, sa, ctx);
    DraftFromParts(w, SLASH_DRAFT, Fact, sa, READ_DRAFT, ctx);
  }

  lemma AnswerTexts(v: Json, draft: Json)
    requires AnswerReads(v, draft)
    ensures RequiredText(v, "operation") == Ok("create_atomic_belief") && RequiredText(v, "rationale") == Ok("fact")
  {
  }

  lemma AnswerAuthority(v: Json, k: SourceKind)
    requires Field(v, "authority") == Some(JString("llm_interpreted"))
    ensures ParseAuthorityWithin(v, k) == Ok(LlmInterpreted)
  {
  }

  lemma ReadAnswerIsAccepted(w: Words, v: Json, draft: Json, p: Payload, ctx: Context)
    requires AnswerReads(v, draft) && ctx.stage == Extraction
    requires !HasKey(v, StrengthKey(w)) && !HasKey(v, ProvenanceKey(w)) && !HasText(v, InjectionText(w))
    requires ValidateAtomicDraft(w, Some(draft), ctx) == Ok(p)
    ensures ValidateOutput(w, v, ctx) == Ok(Validated(CreateAtomicBelief, LlmInterpreted, "fact", false, None, [p]))
  {
    AnswerTexts(v, draft);
    AnswerAuthority(v, ctx.sourceKind);
    PayloadFromDraft(w, draft, p, ctx);
    RestFromParts(w, v, map["atomic_belief_draft" := draft], CreateAtomicBelief, LlmInterpreted, "fact", [p], ctx);
    AnswerFromParts(w, v, CreateAtomicBelief, LlmInterpreted, "fact",
                    Validated(CreateAtomicBelief, LlmInterpreted, "fact", false, None, [p]), ctx);
  }

  /** The contract accepts the answer, as one draft. */
  lemma SlashAnswerIsAccepted(w: Words, ctx: Context)
    requires IsCasefold(w.fold) && ctx.sourceText.None? && ctx.stage == Extraction
    ensures ValidateOutput(w, SLASH_ANSWER, ctx) ==
            Ok(Validated(CreateAtomicBelief, LlmInterpreted, "fact", false, None, [AtomicDraft(READ_DRAFT)]))
  {
    ScansFindNothing(w);
    SlashDraftIsAccepted(w, ctx);
    SlashAnswerReads();
    ReadAnswerIsAccepted(w, SLASH_ANSWER, SLASH_DRAFT, AtomicDraft(READ_DRAFT), ctx);
  }

  // ---- What becomes of it ----------------------------------------------------------------

  lemma ReadDraftNamesNothing()
    ensures NamesNothing(READ_DRAFT) == true
  {
  }

  /** An extraction answer with one draft that names nothing has nothing else wrong with it. */
  lemma OneNamelessDraft(env: Env, s: Tables, v: Validated, c: Call, d: Draft)
    requires c.ctx.stage == Extraction && v.payloads == [AtomicDraft(d)] && NamesNothing(d) == true
    ensures TargetsFound(env, s, v, c) == true && !DraftsResolve(v)
  {
    assert v.payloads[0] in v.payloads;
  }

  lemma CrashChangesNothing(env: Env, db: Db, raw: Raw, c: Call)
    requires Answered(env, db, raw, c).1.Crashed?
    ensures Answered(env, db, raw, c).0 == db
  {
    AllOrNothing(env, db, raw, c);
  }

  lemma DecodedAs(env: Env, output: Json, ctx: Context, v: Validated)
    requires ValidateOutput(env.words, output, ctx) == Ok(v)
    ensures Decode(env, Document(output), ctx) == Ok(v)
  {
  }

  lemma NamelessAnswerCrashes(env: Env, db: Db, raw: Raw, c: Call, v: Validated)
    requires Lawful(env) && Decode(env, raw, c.ctx) == Ok(v) && c.ctx.stage == Extraction
    requires TargetsFound(env, db.tables, v, c) == true && !DraftsResolve(v)
    ensures Answered(env, db, raw, c).1.Crashed?
  {
    CrashesIff(env, db, raw, c);
  }

  /** In any state, known window and run or not, an extraction answer whose project is named by `/` passes
      the contract and then ends the call in an error that records no failure. */
  lemma SlashDescriptorCrashes(env: Env, db: Db, c: Call)
    requires Lawful(env) && c.ctx.sourceText.None? && c.ctx.stage == Extraction
    ensures ValidateOutput(env.words, SLASH_ANSWER, c.ctx).Ok?
    ensures Answered(env, db, Document(SLASH_ANSWER), c).1.Crashed? && Answered(env, db, Document(SLASH_ANSWER), c).0 == db
  {
    SlashAnswerIsAccepted(env.words, c.ctx);
    ReadDraftNamesNothing();
    var v := Validated(CreateAtomicBelief, LlmInterpreted, "fact", false, None, [AtomicDraft(READ_DRAFT)]);
    OneNamelessDraft(env, db.tables, v, c, READ_DRAFT);
    DecodedAs(env, SLASH_ANSWER, c.ctx, v);
    NamelessAnswerCrashes(env, db, Document(SLASH_ANSWER), c, v);
    CrashChangesNothing(env, db, Document(SLASH_ANSWER), c);
  }

  /** The promises about the open functions can be kept together. */
  lemma SomeEnvIsLawful(lx: Lexer, digest: string -> string)
    ensures Lawful(Env(lx, Words(s => s, s => {}), doc => "\"", digest))
  {
    assert "\""[0] == '"';
  }
}

/** What an accepted answer says: exactly which documents are accepted, and as what. */
module AnswerMeaning {
  import opened Common
  import opened JsonValues
  import opened Text
  import opened Beliefs
  import opened Contract
  import opened AnswerReading

  // ---- Fields ----------------------------------------------------------------------------

  /** The field holds this text, trimmed, and it is not blank. */
  predicate TextIs(v: Json, key: string, text: string) {
    var f := Field(v, key);
    text != "" && f.Some? && f.value.JString? && Strip(f.value.text) == text
  }

  /** The field names this value. */
  predicate Named<T(==)>(v: Json, key: string, names: map<string, T>, x: T) {
    exists name <- names :: TextIs(v, key, name) && names[name] == x
  }

  /** The field is absent, null or a blank text. */
  predicate Empty(v: Json, key: string) {
    var f := Field(v, key);
    f.None? || f.value.JNull? || (f.value.JString? && Strip(f.value.text) == "")
  }

  const OPERATION_NAMES := map[
    "create_atomic_belief" := CreateAtomicBelief, "create_summary_belief" := CreateSummaryBelief,
    "update_belief" := UpdateBelief, "profile_summary_candidate" := ProfileSummaryCandidate,
    "create" := Create, "strengthen" := Strengthen, "supersede" := SupersedeTarget, "retract" := Retract,
    "archive" := Archive, "pending-confirmation" := CreatePending, "pending_confirmation" := CreatePending]

  const AUTHORITY_NAMES := map[
    "system_defined" := SystemDefined, "human_confirmed" := HumanConfirmed, "user_asserted" := UserAsserted,
    "background_synthesized" := BackgroundSynthesized, "llm_interpreted" := LlmInterpreted]

  const SCOPE_NAMES := map[
    "global" := GlobalScope, "counterpart" := CounterpartScope, "self" := SelfScope, "project" := ProjectScope,
    "session" := SessionScope]

  const MEMORY_KIND_NAMES := map[
    "fact" := Fact, "preference" := Preference, "constraint" := Constraint, "procedure" := Procedure,
    "value" := ValueKind, "relationship" := Relationship]

  const SUMMARY_KIND_NAMES := map[
    "counterpart_profile" := CounterpartProfile, "project_profile" := ProjectProfile,
    "domain_summary" := DomainSummary, "self_memory_summary" := SelfMemorySummary]

  lemma TextIff(v: Json, key: string, text: string)
    ensures RequiredText(v, key) == Ok(text) <==> TextIs(v, key, text)
  {
  }

  lemma OperationNamed(v: Json, x: Operation)
    ensures RequiredText(v, "operation").Ok? && ParseOperation(RequiredText(v, "operation").value) == Some(x)
            <==> Named(v, "operation", OPERATION_NAMES, x)
  {
    if RequiredText(v, "operation").Ok? {
      var name := RequiredText(v, "operation").value;
      assert TextIs(v, "operation", name);
      assert ParseOperation(name) == if name in OPERATION_NAMES then Some(OPERATION_NAMES[name]) else None;
    }
  }

  lemma AuthorityNamed(v: Json, x: Authority)
    ensures RequiredText(v, "authority").Ok? && ParseAuthority(RequiredText(v, "authority").value) == Some(x)
            <==> Named(v, "authority", AUTHORITY_NAMES, x)
  {
    if RequiredText(v, "authority").Ok? {
      var name := RequiredText(v, "authority").value;
      assert TextIs(v, "authority", name);
      assert ParseAuthority(name) == if name in AUTHORITY_NAMES then Some(AUTHORITY_NAMES[name]) else None;
    }
  }

  lemma ScopeNamed(v: Json, x: Scope)
    ensures RequiredText(v, "scope").Ok? && ParseScope(RequiredText(v, "scope").value) == Some(x)
            <==> Named(v, "scope", SCOPE_NAMES, x)
  {
    if RequiredText(v, "scope").Ok? {
      var name := RequiredText(v, "scope").value;
      assert TextIs(v, "scope", name);
      assert ParseScope(name) == if name in SCOPE_NAMES then Some(SCOPE_NAMES[name]) else None;
    }
  }

  lemma MemoryKindNamed(v: Json, x: MemoryKind)
    ensures RequiredText(v, "memory_kind").Ok? && ParseMemoryKind(RequiredText(v, "memory_kind").value) == Some(x)
            <==> Named(v, "memory_kind", MEMORY_KIND_NAMES, x)
  {
    if RequiredText(v, "memory_kind").Ok? {
      var name := RequiredText(v, "memory_kind").value;
      assert TextIs(v, "memory_kind", name);
      assert ParseMemoryKind(name) == if name in MEMORY_KIND_NAMES then Some(MEMORY_KIND_NAMES[name]) else None;
    }
  }

  lemma SummaryKindNamed(v: Json, x: SummaryKind)
    ensures RequiredText(v, "summary_kind").Ok? && ParseSummaryKind(RequiredText(v, "summary_kind").value) == Some(x)
            <==> Named(v, "summary_kind", SUMMARY_KIND_NAMES, x)
  {
    if RequiredText(v, "summary_kind").Ok? {
      var name := RequiredText(v, "summary_kind").value;
      assert TextIs(v, "summary_kind", name);
      assert ParseSummaryKind(name) == if name in SUMMARY_KIND_NAMES then Some(SUMMARY_KIND_NAMES[name]) else None;
    }
  }

  // ---- Scope and references --------------------------------------------------------------

  /** The item has this kind and this id, as they are; neither is blank. */
  predicate ReadsReference(item: Json, ref: Reference) {
    && Field(item, "kind") == Some(JString(ref.kind)) && Field(item, "id") == Some(JString(ref.id))
    && Strip(ref.kind) != "" && Strip(ref.id) != ""
  }

  predicate ReadsReferences(items: seq<Json>, refs: seq<Reference>) {
    |refs| == |items| && forall i :: 0 <= i < |items| ==> ReadsReference(items[i], refs[i])
  }

  lemma {:induction false} ReferencesIff(items: seq<Json>, refs: seq<Reference>)
    ensures ParseReferences(items) == Ok(refs) <==> ReadsReferences(items, refs)
    decreases |items|
  {
    if items != [] {
      if ParseReferences(items[1..]).Ok? {
        ReferencesIff(items[1..], ParseReferences(items[1..]).value);
      }
      if refs != [] {
        ReferencesIff(items[1..], refs[1..]);
        assert refs == [refs[0]] + refs[1..];
      }
      assert ReadsReferences(items, refs) <==> refs != [] && ReadsReference(items[0], refs[0]) && ReadsReferences(items[1..], refs[1..]);
    }
  }

  /** Every scope but the global one and the project's needs a reference of its kind. */
  predicate HasOwnReference(scope: Scope, about: seq<Reference>) {
    && (scope == CounterpartScope ==> exists ref <- about :: ref.kind == "counterpart")
    && (scope == SelfScope ==> exists ref <- about :: ref.kind == "subject" || ref.kind == "self")
    && (scope == SessionScope ==> exists ref <- about :: ref.kind == "session")
  }

  /** The descriptor field is the text or the object it is read as, or neither. */
  predicate ReadsDescriptor(v: Option<Json>, d: Option<Descriptor>) {
    match d
    case None => v.None? || v.value.JNull?
    case Some(TextDescriptor(text)) => v == Some(JString(text))
    case Some(DocumentDescriptor(doc)) => v == Some(JObject(doc))
  }

  /** Scope, references and descriptor: a project has no references and a descriptor that is not empty;
      any other scope the references listed, of which the program offered every one. */
  predicate ReadsScope(raw: Json, sa: ScopeAbout, ctx: Context) {
    && Named(raw, "scope", SCOPE_NAMES, sa.scope)
    && var about, project := Field(raw, "about"), Field(raw, "project_descriptor");
       && about.Some? && about.value.JList? && ReadsReferences(about.value.items, sa.about)
       && if sa.scope == ProjectScope then sa.about == [] && sa.project.Some? && ReadsDescriptor(project, sa.project) && Resolvable(sa.project.value)
          else && sa.project.None? && HasOwnReference(sa.scope, sa.about)
               && (project.None? || project.value.JNull? || project.value.JString? || project.value.JObject?)
               && (ctx.allowedAbout.Some? ==> forall ref <- sa.about :: ref in ctx.allowedAbout.value)
  }

  lemma DescriptorIff(v: Option<Json>, d: Option<Descriptor>)
    ensures ParseDescriptor(v) == Ok(d) <==> ReadsDescriptor(v, d)
    ensures ParseDescriptor(v).Ok? <==> v.None? || v.value.JNull? || v.value.JString? || v.value.JObject?
  {
  }

  lemma FitsIff(scope: Scope, about: seq<Reference>)
    ensures scope != ProjectScope ==> (ScopeFits(scope, about) == true <==> HasOwnReference(scope, about) == true)
  {
  }

  /** The scope check on what the three fields were read as. */
  predicate ScopeParts(scope: Scope, about: seq<Reference>, project: Option<Descriptor>, sa: ScopeAbout, ctx: Context) {
    && sa.scope == scope && sa.about == about
    && if scope == ProjectScope then about == [] && project.Some? && sa.project == project && Resolvable(project.value)
       else sa.project.None? && ScopeFits(scope, about) && (ctx.allowedAbout.Some? ==> forall ref <- about :: ref in ctx.allowedAbout.value)
  }

  lemma ScopeFromParts(raw: Json, sa: ScopeAbout, ctx: Context)
    ensures ValidateScopeAbout(raw, ctx) == Ok(sa) <==>
            var name, about, project := RequiredText(raw, "scope"), Field(raw, "about"), ParseDescriptor(Field(raw, "project_descriptor"));
            && name.Ok? && ParseScope(name.value).Some? && about.Some? && about.value.JList?
            && var refs := ParseReferences(about.value.items);
               refs.Ok? && project.Ok? && ScopeParts(ParseScope(name.value).value, refs.value, project.value, sa, ctx)
  {
  }

  lemma ScopeIff(raw: Json, sa: ScopeAbout, ctx: Context)
    ensures ValidateScopeAbout(raw, ctx) == Ok(sa) <==> ReadsScope(raw, sa, ctx)
  {
    ScopeFromParts(raw, sa, ctx);
    ScopeNamed(raw, sa.scope);
    DescriptorIff(Field(raw, "project_descriptor"), sa.project);
    FitsIff(sa.scope, sa.about);
    var about := Field(raw, "about");
    if about.Some? && about.value.JList? {
      ReferencesIff(about.value.items, sa.about);
    }
  }

  // ---- Drafts ----------------------------------------------------------------------------

  predicate ObjectOrNothing(v: Option<Json>) {
    v.None? || v.value.JNull? || v.value.JObject?
  }

  /** Content and object of a draft: the object is the content when the document gives none. */
  predicate ReadsBody(w: Words, raw: Json, d: Draft, ctx: Context) {
    && TextIs(raw, "content", d.content)
    && (ctx.sourceText.Some? ==> w.contentWords(d.content) <= w.contentWords(ctx.sourceText.value))
    && (TextIs(raw, "object", d.objectText) || (Empty(raw, "object") && d.objectText == d.content))
    && ObjectOrNothing(Field(raw, "structure")) && ObjectOrNothing(Field(raw, "validity")) && ObjectOrNothing(Field(raw, "update_policy"))
    && d.validity == (if Field(raw, "validity") == Some(JNull) then None else Field(raw, "validity"))
  }

  lemma BodyIff(w: Words, raw: Json, kind: Kind, sa: ScopeAbout, d: Draft, ctx: Context)
    ensures ValidateDraftBody(w, raw, kind, sa, ctx) == Ok(d) <==>
            ReadsBody(w, raw, d, ctx) && d.kind == kind && sa == ScopeAbout(d.scope, d.about, d.project)
  {
    TextIff(raw, "content", d.content);
  }

  /** The model invents no id. */
  predicate NamesNoId(w: Words, raw: Json) {
    raw.JObject? && forall k <- raw.fields :: KeyLetters(w.fold(k)) != "id" && KeyLetters(w.fold(k)) != "beliefid"
  }

  predicate ReadsAtomicDraft(w: Words, raw: Json, d: Draft, ctx: Context) {
    && NamesNoId(w, raw) && d.kind.OfMemory? && Named(raw, "memory_kind", MEMORY_KIND_NAMES, d.kind.memory)
    && ReadsScope(raw, ScopeAbout(d.scope, d.about, d.project), ctx) && ReadsBody(w, raw, d, ctx)
  }

  lemma AtomicDraftIff(w: Words, raw: Option<Json>, d: Draft, ctx: Context)
    ensures ValidateAtomicDraft(w, raw, ctx) == Ok(AtomicDraft(d)) <==> raw.Some? && ReadsAtomicDraft(w, raw.value, d, ctx)
  {
    if raw.Some? && raw.value.JObject? {
      AtomicFromParts(w, raw.value, d, ctx);
      ScopeIff(raw.value, ScopeAbout(d.scope, d.about, d.project), ctx);
      if d.kind.OfMemory? {
        MemoryKindNamed(raw.value, d.kind.memory);
      }
      BodyIff(w, raw.value, d.kind, ScopeAbout(d.scope, d.about, d.project), d, ctx);
    }
  }

  lemma AtomicFromParts(w: Words, raw: Json, d: Draft, ctx: Context)
    requires raw.JObject?
    ensures ValidateAtomicDraft(w, Some(raw), ctx) == Ok(AtomicDraft(d)) <==>
            var name, sa := RequiredText(raw, "memory_kind"), ScopeAbout(d.scope, d.about, d.project);
            && NoGeneratedIds(w, raw) && name.Ok? && d.kind.OfMemory? && ParseMemoryKind(name.value) == Some(d.kind.memory)
            && ValidateScopeAbout(raw, ctx) == Ok(sa) && ValidateDraftBody(w, raw, d.kind, sa, ctx) == Ok(d)
  {
    var name, scoped := RequiredText(raw, "memory_kind"), ValidateScopeAbout(raw, ctx);
    if name.Ok? && ParseMemoryKind(name.value).Some? && scoped.Ok? {
      BodyIff(w, raw, OfMemory(ParseMemoryKind(name.value).value), scoped.value, d, ctx);
    }
  }

  /** A summary draft also keeps to the kinds, the scope, the references and the domain it was asked for. */
  predicate AsAskedFor(raw: Json, d: Draft, ctx: Context)
    requires d.kind.OfSummary?
  {
    && (ctx.allowedSummaryKinds.Some? ==> d.kind.summary in ctx.allowedSummaryKinds.value)
    && (ctx.requiredSummaryScope.Some? ==> d.scope == ctx.requiredSummaryScope.value)
    && (ctx.requiredSummaryAbout.Some? ==> (set ref <- d.about) == ctx.requiredSummaryAbout.value)
    && (ctx.requiredDomain.Some? ==> && Field(raw, "structure").Some?
                                     && Field(Field(raw, "structure").value, "target_domain") == Some(JString(ctx.requiredDomain.value)))
  }

  predicate ReadsSummaryDraft(w: Words, raw: Json, d: Draft, ctx: Context) {
    && NamesNoId(w, raw) && d.kind.OfSummary? && Named(raw, "summary_kind", SUMMARY_KIND_NAMES, d.kind.summary)
    && ReadsScope(raw, ScopeAbout(d.scope, d.about, d.project), ctx) && ReadsBody(w, raw, d, ctx) && AsAskedFor(raw, d, ctx)
  }

  lemma SummaryFromParts(w: Words, raw: Json, d: Draft, ctx: Context)
    requires raw.JObject?
    ensures ValidateSummaryDraft(w, Some(raw), ctx) == Ok(SummaryDraft(d)) <==>
            var name, sa := RequiredText(raw, "summary_kind"), ScopeAbout(d.scope, d.about, d.project);
            && NoGeneratedIds(w, raw) && name.Ok? && d.kind.OfSummary? && ParseSummaryKind(name.value) == Some(d.kind.summary)
            && ValidateScopeAbout(raw, ctx) == Ok(sa) && ValidateDraftBody(w, raw, d.kind, sa, ctx) == Ok(d) && AsAskedFor(raw, d, ctx)
  {
    var name, scoped := RequiredText(raw, "summary_kind"), ValidateScopeAbout(raw, ctx);
    if name.Ok? && ParseSummaryKind(name.value).Some? && scoped.Ok? {
      BodyIff(w, raw, OfSummary(ParseSummaryKind(name.value).value), scoped.value, d, ctx);
    }
  }

  lemma SummaryDraftIff(w: Words, raw: Option<Json>, d: Draft, ctx: Context)
    ensures ValidateSummaryDraft(w, raw, ctx) == Ok(SummaryDraft(d)) <==> raw.Some? && ReadsSummaryDraft(w, raw.value, d, ctx)
  {
    if raw.Some? && raw.value.JObject? {
      SummaryFromParts(w, raw.value, d, ctx);
      ScopeIff(raw.value, ScopeAbout(d.scope, d.about, d.project), ctx);
      if d.kind.OfSummary? {
        SummaryKindNamed(raw.value, d.kind.summary);
      }
      BodyIff(w, raw.value, d.kind, ScopeAbout(d.scope, d.about, d.project), d, ctx);
    }
  }

  // ---- Updates ---------------------------------------------------------------------------

  /** An update names a target the program offered. Its kind is the operation's name, which the document
      may leave out; only a plain update names a kind of its own. */
  predicate ReadsUpdate(raw: Json, u: Update, ctx: Context, op: Operation) {
    && raw.JObject? && TextIs(raw, "target_belief_id", u.target) && u.target in ctx.allowedTargets && TextIs(raw, "rationale", u.rationale)
    && if op == UpdateBelief then TextIs(raw, "update_kind", u.updateKind)
       else u.updateKind == OperationName(op) && (Empty(raw, "update_kind") || TextIs(raw, "update_kind", u.updateKind))
  }

  lemma UpdateIff(raw: Option<Json>, u: Update, ctx: Context, op: Operation)
    ensures ValidateUpdate(raw, ctx, op) == Ok(BeliefUpdate(u)) <==> raw.Some? && ReadsUpdate(raw.value, u, ctx, op)
  {
    if raw.Some? {
      TextIff(raw.value, "target_belief_id", u.target);
      TextIff(raw.value, "rationale", u.rationale);
      TextIff(raw.value, "update_kind", u.updateKind);
    }
  }

  /** The name of an operation is read as that operation. */
  lemma NameIsRead(op: Operation)
    ensures OperationName(op) in OPERATION_NAMES && OPERATION_NAMES[OperationName(op)] == op
  {
  }

  // ---- Payloads --------------------------------------------------------------------------

  /** The fields a payload may have, stage by stage. */
  predicate Shaped(stage: WindowStage, op: Operation, keys: set<string>) {
    match stage
    case Intake => true
    case Extraction => op == CreateAtomicBelief && keys <= {"atomic_belief_draft"}
    case Summarizing =>
      || (op == CreateSummaryBelief && keys == {"summary_belief_draft"})
      || (op == ProfileSummaryCandidate && keys == {"profile_summary_candidate"})
    case _ =>
      || (op in {Create, CreatePending} && keys == {"atomic_belief_draft"})
      || (op == SupersedeTarget && keys == {"belief_update", "atomic_belief_draft"})
      || (op in {Strengthen, Retract, Archive} && keys == {"belief_update"})
  }

  lemma ShapedIff(op: Operation, payload: Json, ctx: Context)
    requires payload.JObject?
    ensures StageShapeOk(op, payload, ctx) <==> Shaped(ctx.stage, op, payload.fields.Keys)
  {
  }

  predicate HasAtomicDraft(w: Words, payload: Json, p: Payload, ctx: Context) {
    p.AtomicDraft? && Field(payload, "atomic_belief_draft").Some? && ReadsAtomicDraft(w, Field(payload, "atomic_belief_draft").value, p.draft, ctx)
  }

  predicate HasSummaryDraft(w: Words, payload: Json, key: string, p: Payload, ctx: Context) {
    p.SummaryDraft? && Field(payload, key).Some? && ReadsSummaryDraft(w, Field(payload, key).value, p.draft, ctx)
  }

  predicate HasUpdate(payload: Json, p: Payload, ctx: Context, op: Operation) {
    p.BeliefUpdate? && Field(payload, "belief_update").Some? && ReadsUpdate(Field(payload, "belief_update").value, p.update, ctx, op)
  }

  /** The payloads an operation takes from its fields. */
  predicate ReadsPayloads(w: Words, op: Operation, payload: Json, ps: seq<Payload>, ctx: Context) {
    match op
    case CreateAtomicBelief => |ps| == 1 && HasAtomicDraft(w, payload, ps[0], ctx)
    case Create => |ps| == 1 && HasAtomicDraft(w, payload, ps[0], ctx)
    case CreatePending => |ps| == 1 && HasAtomicDraft(w, payload, ps[0], ctx)
    case CreateSummaryBelief => |ps| == 1 && HasSummaryDraft(w, payload, "summary_belief_draft", ps[0], ctx)
    case ProfileSummaryCandidate => |ps| == 1 && HasSummaryDraft(w, payload, "profile_summary_candidate", ps[0], ctx)
    case SupersedeTarget => |ps| == 2 && HasUpdate(payload, ps[0], ctx, op) && HasAtomicDraft(w, payload, ps[1], ctx)
    case _ => |ps| == 1 && HasUpdate(payload, ps[0], ctx, op)
  }

  lemma AtomicPayload(w: Words, payload: Json, p: Payload, ctx: Context)
    ensures ValidateAtomicDraft(w, Field(payload, "atomic_belief_draft"), ctx) == Ok(p) <==> HasAtomicDraft(w, payload, p, ctx)
  {
    if p.AtomicDraft? {
      AtomicDraftIff(w, Field(payload, "atomic_belief_draft"), p.draft, ctx);
    }
  }

  lemma SummaryPayload(w: Words, payload: Json, key: string, p: Payload, ctx: Context)
    ensures ValidateSummaryDraft(w, Field(payload, key), ctx) == Ok(p) <==> HasSummaryDraft(w, payload, key, p, ctx)
  {
    if p.SummaryDraft? {
      SummaryDraftIff(w, Field(payload, key), p.draft, ctx);
    }
  }

  lemma UpdatePayload(payload: Json, p: Payload, ctx: Context, op: Operation)
    ensures ValidateUpdate(Field(payload, "belief_update"), ctx, op) == Ok(p) <==> HasUpdate(payload, p, ctx, op)
  {
    if p.BeliefUpdate? {
      UpdateIff(Field(payload, "belief_update"), p.update, ctx, op);
    }
  }

  lemma OneIff(r: Result<Payload, string>, ps: seq<Payload>)
    ensures One(r) == Ok(ps) <==> |ps| == 1 && r == Ok(ps[0])
  {
    if r.Ok? && |ps| == 1 && r.value == ps[0] {
      assert ps == [r.value];
    }
  }

  lemma AtomicOperation(w: Words, op: Operation, payload: Json, ps: seq<Payload>, ctx: Context)
    requires payload.JObject? && op in {CreateAtomicBelief, Create, CreatePending}
    ensures ValidatePayloads(w, op, payload, ctx) == Ok(ps) <==> |ps| == 1 && HasAtomicDraft(w, payload, ps[0], ctx)
  {
    OneIff(ValidateAtomicDraft(w, Field(payload, "atomic_belief_draft"), ctx), ps);
    if |ps| == 1 {
      AtomicPayload(w, payload, ps[0], ctx);
    }
  }

  lemma SummaryOperation(w: Words, op: Operation, payload: Json, ps: seq<Payload>, ctx: Context)
    requires payload.JObject? && op in {CreateSummaryBelief, ProfileSummaryCandidate}
    ensures ValidatePayloads(w, op, payload, ctx) == Ok(ps) <==>
            |ps| == 1 && HasSummaryDraft(w, payload, if op == CreateSummaryBelief then "summary_belief_draft" else "profile_summary_candidate", ps[0], ctx)
  {
    var key := if op == CreateSummaryBelief then "summary_belief_draft" else "profile_summary_candidate";
    OneIff(ValidateSummaryDraft(w, Field(payload, key), ctx), ps);
    if |ps| == 1 {
      SummaryPayload(w, payload, key, ps[0], ctx);
    }
  }

  lemma UpdateOperation(w: Words, op: Operation, payload: Json, ps: seq<Payload>, ctx: Context)
    requires payload.JObject? && op in {UpdateBelief, Strengthen, Retract, Archive}
    ensures ValidatePayloads(w, op, payload, ctx) == Ok(ps) <==> |ps| == 1 && HasUpdate(payload, ps[0], ctx, op)
  {
    OneIff(ValidateUpdate(Field(payload, "belief_update"), ctx, op), ps);
    if |ps| == 1 {
      UpdatePayload(payload, ps[0], ctx, op);
    }
  }

  lemma SupersedeFromParts(w: Words, payload: Json, ps: seq<Payload>, ctx: Context)
    requires payload.JObject?
    ensures ValidatePayloads(w, SupersedeTarget, payload, ctx) == Ok(ps) <==>
            && |ps| == 2 && ValidateUpdate(Field(payload, "belief_update"), ctx, SupersedeTarget) == Ok(ps[0])
            && ValidateAtomicDraft(w, Field(payload, "atomic_belief_draft"), ctx) == Ok(ps[1])
  {
    assert |ps| == 2 ==> ps == [ps[0], ps[1]];
  }

  lemma SupersedeOperation(w: Words, payload: Json, ps: seq<Payload>, ctx: Context)
    requires payload.JObject?
    ensures ValidatePayloads(w, SupersedeTarget, payload, ctx) == Ok(ps) <==>
            |ps| == 2 && HasUpdate(payload, ps[0], ctx, SupersedeTarget) && HasAtomicDraft(w, payload, ps[1], ctx)
  {
    SupersedeFromParts(w, payload, ps, ctx);
    if |ps| == 2 {
      UpdatePayload(payload, ps[0], ctx, SupersedeTarget);
      AtomicPayload(w, payload, ps[1], ctx);
    }
  }

  lemma PayloadsIff(w: Words, op: Operation, payload: Json, ps: seq<Payload>, ctx: Context)
    requires payload.JObject?
    ensures ValidatePayloads(w, op, payload, ctx) == Ok(ps) <==> ReadsPayloads(w, op, payload, ps, ctx)
  {
    if op in {CreateAtomicBelief, Create, CreatePending} {
      AtomicOperation(w, op, payload, ps, ctx);
    } else if op in {CreateSummaryBelief, ProfileSummaryCandidate} {
      SummaryOperation(w, op, payload, ps, ctx);
    } else if op == SupersedeTarget {
      SupersedeOperation(w, payload, ps, ctx);
    } else {
      UpdateOperation(w, op, payload, ps, ctx);
    }
  }

  // ---- The whole answer ------------------------------------------------------------------

  /** The authorities an answer may claim over its source. */
  function Claimable(k: SourceKind): set<Authority> {
    match k
    case LlmInterpretation => {LlmInterpreted}
    case BackgroundSynthesis => {LlmInterpreted, BackgroundSynthesized}
    case DirectUserStatement => {LlmInterpreted, BackgroundSynthesized, UserAsserted}
    case ExplicitConfirmationFlow => {LlmInterpreted, BackgroundSynthesized, UserAsserted, HumanConfirmed}
    case SystemProjectRule => {LlmInterpreted, BackgroundSynthesized, UserAsserted, HumanConfirmed, SystemDefined}
  }

  lemma ClaimableIff(a: Authority, k: SourceKind)
    ensures WithinCeiling(a, k) <==> a in Claimable(k)
  {
  }

  predicate ReadsNote(output: Json, note: Option<string>) {
    var f := Field(output, "source_span_note");
    match note
    case None => f.None? || f.value.JNull?
    case Some(text) => f == Some(JString(text))
  }

  /** No scan objects to the document, and it names the operation, an authority it may claim, and why. */
  predicate ReadsHead(w: Words, output: Json, v: Validated, ctx: Context) {
    && output.JObject? && !HasKey(output, StrengthKey(w)) && !HasKey(output, ProvenanceKey(w)) && !HasText(output, InjectionText(w))
    && Named(output, "operation", OPERATION_NAMES, v.operation)
    && Named(output, "authority", AUTHORITY_NAMES, v.authority) && v.authority in Claimable(ctx.sourceKind)
    && TextIs(output, "rationale", v.rationale)
  }

  /** And its other fields say the rest of the answer. */
  predicate ReadsRest(w: Words, output: Json, v: Validated, ctx: Context) {
    && ReadsNote(output, v.spanNote) && Field(output, "requires_confirmation") == Some(JBool(v.requiresConfirmation))
    && var payload := Field(output, "payload");
       && payload.Some? && payload.value.JObject? && Shaped(ctx.stage, v.operation, payload.value.fields.Keys)
       && ReadsPayloads(w, v.operation, payload.value, v.payloads, ctx)
  }

  lemma RestHas(w: Words, output: Json, v: Validated, ctx: Context)
    requires WithinCeiling(v.authority, ctx.sourceKind)
    requires ValidateRest(w, output, ctx, v.operation, v.authority, v.rationale) == Ok(v)
    ensures var payload := Field(output, "payload");
            && payload.Some? && payload.value.JObject? && StageShapeOk(v.operation, payload.value, ctx) == true
            && ValidatePayloads(w, v.operation, payload.value, ctx) == Ok(v.payloads)
  {
  }

  lemma RestHasFields(w: Words, output: Json, v: Validated, ctx: Context)
    requires WithinCeiling(v.authority, ctx.sourceKind)
    requires ValidateRest(w, output, ctx, v.operation, v.authority, v.rationale) == Ok(v)
    ensures ReadsNote(output, v.spanNote) && Field(output, "requires_confirmation") == Some(JBool(v.requiresConfirmation))
  {
  }

  lemma RestFrom(w: Words, output: Json, v: Validated, ctx: Context, payload: Json)
    requires WithinCeiling(v.authority, ctx.sourceKind) && ParseSpanNote(Field(output, "source_span_note")) == Ok(v.spanNote)
    requires Field(output, "requires_confirmation") == Some(JBool(v.requiresConfirmation))
    requires Field(output, "payload") == Some(payload) && payload.JObject? && StageShapeOk(v.operation, payload, ctx) == true
    requires ValidatePayloads(w, v.operation, payload, ctx) == Ok(v.payloads)
    ensures ValidateRest(w, output, ctx, v.operation, v.authority, v.rationale) == Ok(v)
  {
    assert payload == JObject(payload.fields);
  }

  lemma RestKeeps(w: Words, output: Json, v: Validated, ctx: Context, op: Operation, a: Authority, why: string)
    requires WithinCeiling(a, ctx.sourceKind) && ValidateRest(w, output, ctx, op, a, why) == Ok(v)
    ensures v.operation == op && v.authority == a && v.rationale == why
  {
  }

  lemma OutputHas(w: Words, output: Json, v: Validated, ctx: Context)
    requires ValidateOutput(w, output, ctx) == Ok(v)
    ensures RequiredText(output, "operation").Ok? && ParseOperation(RequiredText(output, "operation").value) == Some(v.operation)
    ensures ParseAuthorityWithin(output, ctx.sourceKind) == Ok(v.authority) && RequiredText(output, "rationale") == Ok(v.rationale)
    ensures WithinCeiling(v.authority, ctx.sourceKind) && ValidateRest(w, output, ctx, v.operation, v.authority, v.rationale) == Ok(v)
  {
    var name, a, why := RequiredText(output, "operation"), ParseAuthorityWithin(output, ctx.sourceKind), RequiredText(output, "rationale");
    assert name.Ok? && ParseOperation(name.value).Some? && a.Ok? && why.Ok?;
    assert ValidateRest(w, output, ctx, ParseOperation(name.value).value, a.value, why.value) == Ok(v);
    RestKeeps(w, output, v, ctx, ParseOperation(name.value).value, a.value, why.value);
  }

  lemma AuthorityWithinIff(output: Json, a: Authority, k: SourceKind)
    ensures ParseAuthorityWithin(output, k) == Ok(a) <==> Named(output, "authority", AUTHORITY_NAMES, a) && a in Claimable(k)
  {
    AuthorityNamed(output, a);
    ClaimableIff(a, k);
  }

  lemma AcceptedSaysRest(w: Words, output: Json, v: Validated, ctx: Context)
    requires WithinCeiling(v.authority, ctx.sourceKind)
    requires ValidateRest(w, output, ctx, v.operation, v.authority, v.rationale) == Ok(v)
    ensures ReadsRest(w, output, v, ctx) == true
  {
    RestHas(w, output, v, ctx);
    RestHasFields(w, output, v, ctx);
    var payload := Field(output, "payload").value;
    ShapedIff(v.operation, payload, ctx);
    PayloadsIff(w, v.operation, payload, v.payloads, ctx);
  }

  lemma AcceptedSays(w: Words, output: Json, v: Validated, ctx: Context)
    requires ValidateOutput(w, output, ctx) == Ok(v)
    ensures ReadsHead(w, output, v, ctx) == true && ReadsRest(w, output, v, ctx) == true
  {
    OutputHas(w, output, v, ctx);
    AcceptedSaysRest(w, output, v, ctx);
    OperationNamed(output, v.operation);
    AuthorityWithinIff(output, v.authority, ctx.sourceKind);
    TextIff(output, "rationale", v.rationale);
  }

  lemma NoteIff(output: Json, note: Option<string>)
    ensures ParseSpanNote(Field(output, "source_span_note")) == Ok(note) <==> ReadsNote(output, note)
  {
  }

  lemma SaidPayload(w: Words, output: Json, v: Validated, ctx: Context, payload: Json)
    requires payload.JObject? && Shaped(ctx.stage, v.operation, payload.fields.Keys) == true
    requires ReadsPayloads(w, v.operation, payload, v.payloads, ctx) == true
    ensures StageShapeOk(v.operation, payload, ctx) == true && ValidatePayloads(w, v.operation, payload, ctx) == Ok(v.payloads)
  {
    ShapedIff(v.operation, payload, ctx);
    PayloadsIff(w, v.operation, payload, v.payloads, ctx);
  }

  lemma SaidRest(w: Words, output: Json, v: Validated, ctx: Context)
    requires ReadsRest(w, output, v, ctx) == true && v.authority in Claimable(ctx.sourceKind)
    ensures WithinCeiling(v.authority, ctx.sourceKind) && ValidateRest(w, output, ctx, v.operation, v.authority, v.rationale) == Ok(v)
  {
    var payload := Field(output, "payload").value;
    ClaimableIff(v.authority, ctx.sourceKind);
    NoteIff(output, v.spanNote);
    SaidPayload(w, output, v, ctx, payload);
    RestFrom(w, output, v, ctx, payload);
  }

  lemma AcceptedFromHead(w: Words, output: Json, v: Validated, ctx: Context)
    requires ReadsHead(w, output, v, ctx) == true
    requires WithinCeiling(v.authority, ctx.sourceKind) && ValidateRest(w, output, ctx, v.operation, v.authority, v.rationale) == Ok(v)
    ensures ValidateOutput(w, output, ctx) == Ok(v)
  {
    OperationNamed(output, v.operation);
    AuthorityWithinIff(output, v.authority, ctx.sourceKind);
    TextIff(output, "rationale", v.rationale);
    AnswerFromParts(w, output, v.operation, v.authority, v.rationale, v, ctx);
  }

  lemma SaidIsAccepted(w: Words, output: Json, v: Validated, ctx: Context)
    requires ReadsHead(w, output, v, ctx) == true && ReadsRest(w, output, v, ctx) == true
    ensures ValidateOutput(w, output, ctx) == Ok(v)
  {
    SaidRest(w, output, v, ctx);
    AcceptedFromHead(w, output, v, ctx);
  }

  predicate ReadsAnswer(w: Words, output: Json, v: Validated, ctx: Context) {
    ReadsHead(w, output, v, ctx) && ReadsRest(w, output, v, ctx)
  }

  /** An answer is accepted, and as this, exactly when the document says so. */
  lemma AcceptedExactlyWhen(w: Words, output: Json, v: Validated, ctx: Context)
    ensures ValidateOutput(w, output, ctx) == Ok(v) <==> ReadsAnswer(w, output, v, ctx)
  {
    if ValidateOutput(w, output, ctx) == Ok(v) {
      AcceptedSays(w, output, v, ctx);
    }
    if ReadsAnswer(w, output, v, ctx) == true {
      SaidIsAccepted(w, output, v, ctx);
    }
  }
}

/** Validation of one structured answer of a background model call. */
module Contract {
  import opened Common
  import opened JsonValues
  import opened Text
  import opened Beliefs

  datatype WindowStage = Intake | Extraction | Consolidation | ConflictReview | Summarizing

  datatype SourceRef = SourceRef(sourceType: string, sourceId: string)

  datatype SourceKind =
    | SystemProjectRule
    | ExplicitConfirmationFlow
    | DirectUserStatement
    | BackgroundSynthesis
    | LlmInterpretation

  datatype Operation =
    | CreateAtomicBelief
    | CreateSummaryBelief
    | UpdateBelief
    | ProfileSummaryCandidate
    | Create
    | Strengthen
    | SupersedeTarget
    | Retract
    | Archive
    | CreatePending

  /** Inputs the program selects and the model must not invent. */
  datatype Context = Context(
    sourceKind: SourceKind,
    windowId: string,
    sourceRefs: seq<SourceRef>,
    stage: WindowStage,
    targetUnit: Option<string>,
    sessionId: Option<string>,
    sourceText: Option<string>,
    allowedTargets: set<Id>,
    allowedAbout: Option<set<Reference>>,
    allowedSummaryKinds: Option<set<SummaryKind>>,
    requiredSummaryScope: Option<Scope>,
    requiredSummaryAbout: Option<set<Reference>>,
    requiredDomain: Option<string>,
    derivationStage: Stage)

  /** Text functions left open: case folding and the content words of a text. */
  datatype Words = Words(fold: string -> string, contentWords: string -> set<string>)

  datatype Descriptor = TextDescriptor(text: string) | DocumentDescriptor(document: map<string, Json>)

  datatype Draft = Draft(
    kind: Kind,
    scope: Scope,
    about: seq<Reference>,
    content: string,
    objectText: string,
    validity: Option<Json>,
    project: Option<Descriptor>)

  datatype Update = Update(updateKind: string, target: Id, rationale: string)

  datatype Payload = AtomicDraft(draft: Draft) | SummaryDraft(draft: Draft) | BeliefUpdate(update: Update)

  datatype Validated = Validated(
    operation: Operation,
    authority: Authority,
    rationale: string,
    requiresConfirmation: bool,
    spanNote: Option<string>,
    payloads: seq<Payload>)

  // ---- Rejected keys and texts -----------------------------------------------------------

  const STRENGTH_PARTS := ["confidence", "strength", "certainty", "probability", "score", "weight"]

  /** The forbidden provenance keys reduced to their letters and digits. */
  const PROVENANCE_KEYS := {
    "checkpointid", "evidenceref", "evidencerefs", "extractionrunid", "idempotency", "idempotencykey",
    "auditid", "provenance", "provenanceref", "provenancerefs", "sourcebeliefid", "sourcebeliefids",
    "sourceid", "sourceids", "sourcemessageid", "sourcemessageids", "sourceref", "sourcerefs",
    "sourcetraceid", "sourcetraceids", "sourcewindowid", "sources", "summaryid"}

  const GENERATED_ID_KEYS := {"id", "beliefid"}

  const INJECTION_PATTERNS := [
    "ignore previous", "ignore all previous", "developer message", "system prompt", "<system", "</system",
    "follow these instructions", "forget the instructions", "treat audit logs as canonical",
    "audit logs are canonical"]

  /** What is left of a key without anything but small letters and digits. */
  function KeyLetters(s: string): string {
    if s == "" then ""
    else if 'a' <= s[0] <= 'z' || '0' <= s[0] <= '9' then [s[0]] + KeyLetters(s[1..])
    else KeyLetters(s[1..])
  }

  predicate PartAt(text: string, i: nat, part: string) {
    i + |part| <= |text| && text[i..i + |part|] == part
  }

  predicate Contains(text: string, part: string) {
    exists i :: 0 <= i <= |text| && PartAt(text, i, part)
  }

  predicate ContainsAny(text: string, parts: seq<string>) {
    exists part <- parts :: Contains(text, part)
  }

  predicate HasKey(v: Json, bad: string -> bool) {
    match v
    case JObject(fields) => exists k <- fields :: bad(k) || HasKey(fields[k], bad)
    case JList(items) => exists i | 0 <= i < |items| :: HasKey(items[i], bad)
    case _ => false
  }

  predicate HasText(v: Json, bad: string -> bool) {
    match v
    case JObject(fields) => exists k <- fields :: HasText(fields[k], bad)
    case JList(items) => exists i | 0 <= i < |items| :: HasText(items[i], bad)
    case JString(text) => bad(text)
    case _ => false
  }

  function StrengthKey(w: Words): string -> bool {
    (key: string) => ContainsAny(w.fold(key), STRENGTH_PARTS)
  }

  function ProvenanceKey(w: Words): string -> bool {
    (key: string) => KeyLetters(w.fold(key)) in PROVENANCE_KEYS
  }

  function InjectionText(w: Words): string -> bool {
    (text: string) => ContainsAny(w.fold(text), INJECTION_PATTERNS)
  }

  /** The key scans miss nothing: they reject exactly when some object at some depth has a bad key. */
  lemma {:induction false} HasKeyAtAnyDepth(v: Json, bad: string -> bool)
    ensures HasKey(v, bad) <==>
            exists o, k {:trigger Within(o, v), bad(k)} :: Within(o, v) && o.JObject? && k in o.fields && bad(k)
  {
    match v
    case JObject(fields) =>
      forall k | k in fields
        ensures HasKey(fields[k], bad) <==>
                exists o, key {:trigger Within(o, fields[k]), bad(key)} ::
                  Within(o, fields[k]) && o.JObject? && key in o.fields && bad(key)
      {
        HasKeyAtAnyDepth(fields[k], bad);
      }
      if k :| k in fields && bad(k) {
        assert Within(v, v);
      } else if k :| k in fields && HasKey(fields[k], bad) {
        var o, key :| Within(o, fields[k]) && o.JObject? && key in o.fields && bad(key);
        assert Within(o, v);
      }
    case JList(items) =>
      forall i | 0 <= i < |items|
        ensures HasKey(items[i], bad) <==>
                exists o, key {:trigger Within(o, items[i]), bad(key)} ::
                  Within(o, items[i]) && o.JObject? && key in o.fields && bad(key)
      {
        HasKeyAtAnyDepth(items[i], bad);
      }
      if i :| 0 <= i < |items| && HasKey(items[i], bad) {
        var o, key :| Within(o, items[i]) && o.JObject? && key in o.fields && bad(key);
        assert Within(o, v);
      }
    case _ =>
  }

  /** Likewise for texts. */
  lemma {:induction false} HasTextAtAnyDepth(v: Json, bad: string -> bool)
    ensures HasText(v, bad) <==> exists o {:trigger Within(o, v)} :: Within(o, v) && o.JString? && bad(o.text)
  {
    match v
    case JObject(fields) =>
      forall k | k in fields
        ensures HasText(fields[k], bad) <==>
                exists o {:trigger Within(o, fields[k])} :: Within(o, fields[k]) && o.JString? && bad(o.text)
      {
        HasTextAtAnyDepth(fields[k], bad);
      }
      if k :| k in fields && HasText(fields[k], bad) {
        var o :| Within(o, fields[k]) && o.JString? && bad(o.text);
        assert Within(o, v);
      }
    case JList(items) =>
      forall i | 0 <= i < |items|
        ensures HasText(items[i], bad) <==>
                exists o {:trigger Within(o, items[i])} :: Within(o, items[i]) && o.JString? && bad(o.text)
      {
        HasTextAtAnyDepth(items[i], bad);
      }
      if i :| 0 <= i < |items| && HasText(items[i], bad) {
        var o :| Within(o, items[i]) && o.JString? && bad(o.text);
        assert Within(o, v);
      }
    case JString(text) =>
      assert bad(text) ==> Within(v, v);
    case _ =>
  }

  // ---- Names -----------------------------------------------------------------------------

  function ParseOperation(name: string): Option<Operation> {
    if name == "create_atomic_belief" then Some(CreateAtomicBelief)
    else if name == "create_summary_belief" then Some(CreateSummaryBelief)
    else if name == "update_belief" then Some(UpdateBelief)
    else if name == "profile_summary_candidate" then Some(ProfileSummaryCandidate)
    else if name == "create" then Some(Create)
    else if name == "strengthen" then Some(Strengthen)
    else if name == "supersede" then Some(SupersedeTarget)
    else if name == "retract" then Some(Retract)
    else if name == "archive" then Some(Archive)
    else if name == "pending-confirmation" || name == "pending_confirmation" then Some(CreatePending)
    else None
  }

  function OperationName(op: Operation): string {
    match op
    case CreateAtomicBelief => "create_atomic_belief"
    case CreateSummaryBelief => "create_summary_belief"
    case UpdateBelief => "update_belief"
    case ProfileSummaryCandidate => "profile_summary_candidate"
    case Create => "create"
    case Strengthen => "strengthen"
    case SupersedeTarget => "supersede"
    case Retract => "retract"
    case Archive => "archive"
    case CreatePending => "pending-confirmation"
  }

  function ParseMemoryKind(name: string): Option<MemoryKind> {
    if name == "fact" then Some(Fact)
    else if name == "preference" then Some(Preference)
    else if name == "constraint" then Some(Constraint)
    else if name == "procedure" then Some(Procedure)
    else if name == "value" then Some(ValueKind)
    else if name == "relationship" then Some(Relationship)
    else None
  }

  function ParseSummaryKind(name: string): Option<SummaryKind> {
    if name == "counterpart_profile" then Some(CounterpartProfile)
    else if name == "project_profile" then Some(ProjectProfile)
    else if name == "domain_summary" then Some(DomainSummary)
    else if name == "self_memory_summary" then Some(SelfMemorySummary)
    else None
  }

  function ParseScope(name: string): Option<Scope> {
    if name == "global" then Some(GlobalScope)
    else if name == "counterpart" then Some(CounterpartScope)
    else if name == "self" then Some(SelfScope)
    else if name == "project" then Some(ProjectScope)
    else if name == "session" then Some(SessionScope)
    else None
  }

  function ParseAuthority(name: string): Option<Authority> {
    if name == "system_defined" then Some(SystemDefined)
    else if name == "human_confirmed" then Some(HumanConfirmed)
    else if name == "user_asserted" then Some(UserAsserted)
    else if name == "background_synthesized" then Some(BackgroundSynthesized)
    else if name == "llm_interpreted" then Some(LlmInterpreted)
    else None
  }

  function Rank(a: Authority): nat {
    match a
    case LlmInterpreted => 1
    case BackgroundSynthesized => 2
    case UserAsserted => 3
    case HumanConfirmed => 4
    case SystemDefined => 5
  }

  function Ceiling(k: SourceKind): Authority {
    match k
    case SystemProjectRule => SystemDefined
    case ExplicitConfirmationFlow => HumanConfirmed
    case DirectUserStatement => UserAsserted
    case BackgroundSynthesis => BackgroundSynthesized
    case LlmInterpretation => LlmInterpreted
  }

  predicate WithinCeiling(a: Authority, k: SourceKind) {
    Rank(a) <= Rank(Ceiling(k))
  }

  /** The reference kinds one of which a scope needs, if it needs any. */
  function ScopeKinds(scope: Scope): Option<set<string>> {
    match scope
    case CounterpartScope => Some({"counterpart"})
    case SelfScope => Some({"subject", "self"})
    case ProjectScope => Some({"project"})
    case SessionScope => Some({"session"})
    case GlobalScope => None
  }

  predicate ScopeFits(scope: Scope, about: seq<Reference>) {
    ScopeKinds(scope).Some? ==> exists ref <- about :: ref.kind in ScopeKinds(scope).value
  }

  // ---- Fields ----------------------------------------------------------------------------

  function RequiredText(v: Json, key: string): Result<string, string> {
    match Field(v, key)
    case Some(JString(text)) => if Strip(text) != "" then Ok(Strip(text)) else Err("required: " + key)
    case _ => Err("required: " + key)
  }

  function OptionalText(v: Option<Json>): Result<Option<string>, string> {
    match v
    case None => Ok(None)
    case Some(JNull) => Ok(None)
    case Some(JString(text)) => Ok(if Strip(text) == "" then None else Some(Strip(text)))
    case Some(_) => Err("not a string")
  }

  /** Absent, null or an object. */
  predicate OptionalObject(v: Option<Json>) {
    v.None? || v.value.JNull? || v.value.JObject?
  }

  function NonNull(v: Option<Json>): Option<Json> {
    if v.Some? && v.value.JNull? then None else v
  }

  function ParseReference(v: Json): Result<Reference, string> {
    match (Field(v, "kind"), Field(v, "id"))
    case (Some(JString(kind)), Some(JString(id))) =>
      if Strip(kind) != "" && Strip(id) != "" then Ok(Reference(kind, id)) else Err("blank reference")
    case _ => Err("malformed reference")
  }

  function ParseReferences(items: seq<Json>): (refs: Result<seq<Reference>, string>)
    ensures refs.Ok? ==> forall ref <- refs.value :: Strip(ref.kind) != "" && Strip(ref.id) != ""
  {
    if items == [] then Ok([])
    else
      match ParseReference(items[0])
      case Err(e) => Err(e)
      case Ok(ref) =>
        match ParseReferences(items[1..])
        case Err(e) => Err(e)
        case Ok(rest) => Ok([ref] + rest)
  }

  predicate Resolvable(d: Descriptor) {
    match d
    case TextDescriptor(text) => Strip(text) != ""
    case DocumentDescriptor(doc) =>
      exists k <- doc :: if doc[k].JString? then Strip(doc[k].text) != "" else !doc[k].JNull?
  }

  datatype ScopeAbout = ScopeAbout(scope: Scope, about: seq<Reference>, project: Option<Descriptor>)

  function ParseDescriptor(v: Option<Json>): Result<Option<Descriptor>, string> {
    match v
    case None => Ok(None)
    case Some(JNull) => Ok(None)
    case Some(JString(text)) => Ok(Some(TextDescriptor(text)))
    case Some(JObject(fields)) => Ok(Some(DocumentDescriptor(fields)))
    case Some(_) => Err("project_descriptor must be a string or object")
  }

  /** A project-scoped draft names its project by a descriptor and nothing else; every other scope
      carries references, one of a kind the scope needs, all of them from the program's input. */
  function ValidateScopeAbout(raw: Json, ctx: Context): (r: Result<ScopeAbout, string>)
    ensures r.Ok? && r.value.scope == ProjectScope ==>
              r.value.about == [] && r.value.project.Some? && Resolvable(r.value.project.value)
    ensures r.Ok? && r.value.scope != ProjectScope ==>
              ScopeFits(r.value.scope, r.value.about) && r.value.project.None?
    ensures r.Ok? ==> forall ref <- r.value.about :: Strip(ref.kind) != "" && Strip(ref.id) != ""
    ensures r.Ok? && ctx.allowedAbout.Some? ==> forall ref <- r.value.about :: ref in ctx.allowedAbout.value
  {
    match RequiredText(raw, "scope")
    case Err(e) => Err(e)
    case Ok(name) =>
      if ParseScope(name).None? then Err("unsupported scope")
      else
        var scope := ParseScope(name).value;
        match Field(raw, "about")
        case Some(JList(items)) =>
          (match ParseReferences(items)
           case Err(e) => Err(e)
           case Ok(about) =>
             match ParseDescriptor(Field(raw, "project_descriptor"))
             case Err(e) => Err(e)
             case Ok(project) =>
               if scope == ProjectScope then
                 if about != [] then Err("project scope takes no references")
                 else if project.None? then Err("project scope requires project_descriptor")
                 else if !Resolvable(project.value) then Err("project_descriptor is not resolvable")
                 else Ok(ScopeAbout(scope, about, project))
               else if !ScopeFits(scope, about) then Err("scope requires a reference kind")
               else if ctx.allowedAbout.Some? && exists ref <- about :: ref !in ctx.allowedAbout.value
               then Err("reference was not in the input")
               else Ok(ScopeAbout(scope, about, None)))
        case _ => Err("about must be a list")
  }

  predicate FromSourceWindow(w: Words, content: string, ctx: Context) {
    ctx.sourceText.Some? ==> w.contentWords(content) <= w.contentWords(ctx.sourceText.value)
  }

  predicate NoGeneratedIds(w: Words, raw: Json)
    requires raw.JObject?
  {
    forall k <- raw.fields :: KeyLetters(w.fold(k)) !in GENERATED_ID_KEYS
  }

  /** The part common to both kinds of draft. */
  function ValidateDraftBody(w: Words, raw: Json, kind: Kind, sa: ScopeAbout, ctx: Context): Result<Draft, string> {
    match RequiredText(raw, "content")
    case Err(e) => Err(e)
    case Ok(content) =>
      if !FromSourceWindow(w, content, ctx) then Err("outside the source window")
      else
        match OptionalText(Field(raw, "object"))
        case Err(e) => Err(e)
        case Ok(objectText) =>
          if !OptionalObject(Field(raw, "structure")) || !OptionalObject(Field(raw, "validity"))
             || !OptionalObject(Field(raw, "update_policy"))
          then Err("not an object")
          else
            Ok(Draft(kind, sa.scope, sa.about, content,
                     if objectText.Some? then objectText.value else content, NonNull(Field(raw, "validity")), sa.project))
  }

  predicate DraftFits(w: Words, d: Draft, ctx: Context) {
    && (d.scope == ProjectScope ==> d.about == [] && d.project.Some? && Resolvable(d.project.value))
    && (d.scope != ProjectScope ==> ScopeFits(d.scope, d.about) && d.project.None?)
    && (forall ref <- d.about :: Strip(ref.kind) != "" && Strip(ref.id) != "")
    && (ctx.allowedAbout.Some? ==> forall ref <- d.about :: ref in ctx.allowedAbout.value)
    && FromSourceWindow(w, d.content, ctx)
  }

  function ValidateAtomicDraft(w: Words, raw: Option<Json>, ctx: Context): (r: Result<Payload, string>)
    ensures r.Ok? ==> r.value.AtomicDraft? && r.value.draft.kind.OfMemory? && DraftFits(w, r.value.draft, ctx)
  {
    if raw.None? || !raw.value.JObject? then Err("atomic_belief_draft must be an object")
    else if !NoGeneratedIds(w, raw.value) then Err("generated id")
    else
      match RequiredText(raw.value, "memory_kind")
      case Err(e) => Err(e)
      case Ok(name) =>
        if ParseMemoryKind(name).None? then Err("unsupported memory_kind")
        else
          match ValidateScopeAbout(raw.value, ctx)
          case Err(e) => Err(e)
          case Ok(sa) =>
            match ValidateDraftBody(w, raw.value, OfMemory(ParseMemoryKind(name).value), sa, ctx)
            case Err(e) => Err(e)
            case Ok(d) => Ok(AtomicDraft(d))
  }

  function TargetDomain(raw: Json): Option<Json> {
    match Field(raw, "structure")
    case Some(s) => Field(s, "target_domain")
    case None => None
  }

  function ValidateSummaryDraft(w: Words, raw: Option<Json>, ctx: Context): (r: Result<Payload, string>)
    ensures r.Ok? ==> r.value.SummaryDraft? && r.value.draft.kind.OfSummary? && DraftFits(w, r.value.draft, ctx)
    ensures r.Ok? && ctx.allowedSummaryKinds.Some? ==> r.value.draft.kind.summary in ctx.allowedSummaryKinds.value
    ensures r.Ok? && ctx.requiredSummaryScope.Some? ==> r.value.draft.scope == ctx.requiredSummaryScope.value
    ensures r.Ok? && ctx.requiredSummaryAbout.Some? ==>
              (set ref <- r.value.draft.about) == ctx.requiredSummaryAbout.value
  {
    if raw.None? || !raw.value.JObject? then Err("summary_belief_draft must be an object")
    else if !NoGeneratedIds(w, raw.value) then Err("generated id")
    else
      match RequiredText(raw.value, "summary_kind")
      case Err(e) => Err(e)
      case Ok(name) =>
        var kind := ParseSummaryKind(name);
        if kind.None? then Err("unsupported summary_kind")
        else if ctx.allowedSummaryKinds.Some? && kind.value !in ctx.allowedSummaryKinds.value
        then Err("outside allowed summary target")
        else
          match ValidateScopeAbout(raw.value, ctx)
          case Err(e) => Err(e)
          case Ok(sa) =>
            if ctx.requiredSummaryScope.Some? && sa.scope != ctx.requiredSummaryScope.value
            then Err("summary scope does not match")
            else if ctx.requiredSummaryAbout.Some? && (set ref <- sa.about) != ctx.requiredSummaryAbout.value
            then Err("summary about refs do not match")
            else
              match ValidateDraftBody(w, raw.value, OfSummary(kind.value), sa, ctx)
              case Err(e) => Err(e)
              case Ok(d) =>
                if ctx.requiredDomain.Some? && TargetDomain(raw.value) != Some(JString(ctx.requiredDomain.value))
                then Err("summary target_domain does not match")
                else Ok(SummaryDraft(d))
  }

  function ValidateUpdate(raw: Option<Json>, ctx: Context, op: Operation): (r: Result<Payload, string>)
    ensures r.Ok? ==> r.value.BeliefUpdate? && r.value.update.target in ctx.allowedTargets
    ensures r.Ok? && op != UpdateBelief ==> r.value.update.updateKind == OperationName(op)
  {
    if raw.None? || !raw.value.JObject? then Err("belief_update must be an object")
    else
      var kind :=
        if op == UpdateBelief then RequiredText(raw.value, "update_kind")
        else
          match OptionalText(Field(raw.value, "update_kind"))
          case Err(e) => Err(e)
          case Ok(None) => Ok(OperationName(op))
          case Ok(Some(k)) => if k == OperationName(op) then Ok(k) else Err("update_kind does not match operation");
      match kind
      case Err(e) => Err(e)
      case Ok(k) =>
        match RequiredText(raw.value, "target_belief_id")
        case Err(e) => Err(e)
        case Ok(target) =>
          if target !in ctx.allowedTargets then Err("target was not in the input")
          else
            match RequiredText(raw.value, "rationale")
            case Err(e) => Err(e)
            case Ok(rationale) => Ok(BeliefUpdate(Update(k, target, rationale)))
  }

  // ---- Stage shapes ----------------------------------------------------------------------

  predicate IsConsolidating(stage: WindowStage) {
    stage == Consolidation || stage == ConflictReview
  }

  predicate IsSemantic(op: Operation) {
    op in {Create, Strengthen, SupersedeTarget, Retract, Archive, CreatePending}
  }

  function ExpectedKeys(op: Operation): set<string>
    requires IsSemantic(op)
  {
    if op in {Create, CreatePending} then {"atomic_belief_draft"}
    else if op == SupersedeTarget then {"belief_update", "atomic_belief_draft"}
    else {"belief_update"}
  }

  predicate StageShapeOk(op: Operation, payload: Json, ctx: Context)
    requires payload.JObject?
  {
    var keys := payload.fields.Keys;
    if IsConsolidating(ctx.stage) then IsSemantic(op) && keys == ExpectedKeys(op)
    else if ctx.stage == Summarizing then
      || (op == CreateSummaryBelief && keys == {"summary_belief_draft"})
      || (op == ProfileSummaryCandidate && keys == {"profile_summary_candidate"})
    else if ctx.stage == Extraction then op == CreateAtomicBelief && keys <= {"atomic_belief_draft"}
    else true
  }

  function One(r: Result<Payload, string>): Result<seq<Payload>, string> {
    match r
    case Err(e) => Err(e)
    case Ok(p) => Ok([p])
  }

  /** What an operation's payloads hold: its draft, its target, or both. */
  predicate PayloadsFit(w: Words, op: Operation, ps: seq<Payload>, ctx: Context) {
    if op in {Create, CreatePending, CreateAtomicBelief} then
      |ps| == 1 && ps[0].AtomicDraft? && ps[0].draft.kind.OfMemory? && DraftFits(w, ps[0].draft, ctx)
    else if op in {CreateSummaryBelief, ProfileSummaryCandidate} then
      |ps| == 1 && ps[0].SummaryDraft? && ps[0].draft.kind.OfSummary? && DraftFits(w, ps[0].draft, ctx)
    else if op == SupersedeTarget then
      && |ps| == 2 && ps[0].BeliefUpdate? && ps[0].update.target in ctx.allowedTargets
      && ps[1].AtomicDraft? && ps[1].draft.kind.OfMemory? && DraftFits(w, ps[1].draft, ctx)
    else
      |ps| == 1 && ps[0].BeliefUpdate? && ps[0].update.target in ctx.allowedTargets
  }

  function ValidatePayloads(w: Words, op: Operation, payload: Json, ctx: Context): (r: Result<seq<Payload>, string>)
    requires payload.JObject?
    ensures r.Ok? ==> PayloadsFit(w, op, r.value, ctx)
  {
    match op
    case CreateAtomicBelief => One(ValidateAtomicDraft(w, Field(payload, "atomic_belief_draft"), ctx))
    case CreateSummaryBelief => One(ValidateSummaryDraft(w, Field(payload, "summary_belief_draft"), ctx))
    case ProfileSummaryCandidate => One(ValidateSummaryDraft(w, Field(payload, "profile_summary_candidate"), ctx))
    case UpdateBelief => One(ValidateUpdate(Field(payload, "belief_update"), ctx, op))
    case Create => One(ValidateAtomicDraft(w, Field(payload, "atomic_belief_draft"), ctx))
    case CreatePending => One(ValidateAtomicDraft(w, Field(payload, "atomic_belief_draft"), ctx))
    case SupersedeTarget =>
      (match ValidateUpdate(Field(payload, "belief_update"), ctx, op)
       case Err(e) => Err(e)
       case Ok(u) =>
         match ValidateAtomicDraft(w, Field(payload, "atomic_belief_draft"), ctx)
         case Err(e) => Err(e)
         case Ok(d) => Ok([u, d]))
    case _ => One(ValidateUpdate(Field(payload, "belief_update"), ctx, op))
  }

  // ---- The whole answer ------------------------------------------------------------------

  function ParseSpanNote(v: Option<Json>): Result<Option<string>, string> {
    match v
    case None => Ok(None)
    case Some(JNull) => Ok(None)
    case Some(JString(text)) => Ok(Some(text))
    case Some(_) => Err("source_span_note must be a string")
  }

  function ParseAuthorityWithin(output: Json, k: SourceKind): (r: Result<Authority, string>)
    ensures r.Ok? ==> WithinCeiling(r.value, k)
  {
    match RequiredText(output, "authority")
    case Err(e) => Err(e)
    case Ok(name) =>
      if ParseAuthority(name).Some? && WithinCeiling(ParseAuthority(name).value, k)
      then Ok(ParseAuthority(name).value)
      else Err("authority overclaim")
  }

  /** Whatever is accepted is clean at the top level scans and can be applied: in a consolidation or
      conflict stage it carries the draft and the target its operation needs. */
  function ValidateOutput(w: Words, output: Json, ctx: Context): (r: Result<Validated, string>)
    ensures r.Ok? ==> output.JObject? && !HasKey(output, StrengthKey(w)) && !HasKey(output, ProvenanceKey(w))
    ensures r.Ok? ==> !HasText(output, InjectionText(w))
    ensures r.Ok? && IsConsolidating(ctx.stage) ==> Applicable(w, r.value, ctx)
    ensures r.Ok? ==> Creatable(w, r.value, ctx)
  {
    if !output.JObject? then Err("output must be an object")
    else if HasKey(output, StrengthKey(w)) then Err("numeric strength field")
    else if HasKey(output, ProvenanceKey(w)) then Err("provenance field")
    else if HasText(output, InjectionText(w)) then Err("prompt injection")
    else
      match RequiredText(output, "operation")
      case Err(e) => Err(e)
      case Ok(name) =>
        if ParseOperation(name).None? then Err("unsupported operation")
        else
          match ParseAuthorityWithin(output, ctx.sourceKind)
          case Err(e) => Err(e)
          case Ok(authority) =>
            match RequiredText(output, "rationale")
            case Err(e) => Err(e)
            case Ok(rationale) => ValidateRest(w, output, ctx, ParseOperation(name).value, authority, rationale)
  }

  function ValidateRest(w: Words, output: Json, ctx: Context, op: Operation, authority: Authority, rationale: string)
    : (r: Result<Validated, string>)
    requires WithinCeiling(authority, ctx.sourceKind)
    ensures r.Ok? && IsConsolidating(ctx.stage) ==> Applicable(w, r.value, ctx)
    ensures r.Ok? ==> Creatable(w, r.value, ctx)
  {
    match Field(output, "requires_confirmation")
    case Some(JBool(confirm)) =>
      (match ParseSpanNote(Field(output, "source_span_note"))
       case Err(e) => Err(e)
       case Ok(note) =>
         match Field(output, "payload")
         case Some(JObject(fields)) =>
           if !StageShapeOk(op, JObject(fields), ctx) then Err("payload shape")
           else
             (match ValidatePayloads(w, op, JObject(fields), ctx)
              case Err(e) => Err(e)
              case Ok(payloads) => Ok(Validated(op, authority, rationale, confirm, note, payloads)))
         case _ => Err("payload must be an object"))
    case _ => Err("requires_confirmation must be a boolean")
  }

  /** What applying an answer in a consolidation stage relies on. */
  predicate Applicable(w: Words, v: Validated, ctx: Context) {
    Creatable(w, v, ctx) && IsSemantic(v.operation)
  }

  /** What applying an answer in any stage relies on. */
  predicate Creatable(w: Words, v: Validated, ctx: Context) {
    WithinCeiling(v.authority, ctx.sourceKind) && PayloadsFit(w, v.operation, v.payloads, ctx)
  }

  lemma NoBadKeyInside(v: Json, bad: string -> bool, o: Json)
    requires !HasKey(v, bad) && Within(o, v) && o.JObject?
    ensures forall k <- o.fields :: !bad(k)
  {
    HasKeyAtAnyDepth(v, bad);
  }

  lemma NoBadTextInside(v: Json, bad: string -> bool, o: Json)
    requires !HasText(v, bad) && Within(o, v) && o.JString?
    ensures !bad(o.text)
  {
    HasTextAtAnyDepth(v, bad);
  }

  /** No accepted answer holds, at any depth, a strength key, a provenance key or an injection text. */
  lemma AcceptedIsClean(w: Words, output: Json, ctx: Context, o: Json)
    requires Within(o, output)
    ensures ValidateOutput(w, output, ctx).Ok? && o.JObject? ==> forall k <- o.fields :: !StrengthKey(w)(k) && !ProvenanceKey(w)(k)
    ensures ValidateOutput(w, output, ctx).Ok? && o.JString? ==> !InjectionText(w)(o.text)
  {
    if ValidateOutput(w, output, ctx).Ok? {
      if o.JObject? {
        NoBadKeyInside(output, StrengthKey(w), o);
        NoBadKeyInside(output, ProvenanceKey(w), o);
      } else if o.JString? {
        NoBadTextInside(output, InjectionText(w), o);
      }
    }
  }
}

/** Accepting one background model answer: what it writes, when it fails, and that it is all or nothing. */
module Acceptance {
  import opened Common
  import opened JsonValues
  import opened Text
  import opened Beliefs
  import opened BeliefIndexes
  import opened BeliefRuns
  import opened Contract
  import opened ProjectDescriptors
  import opened Ledger

  /** The error the contract raises, and every other error. Only the first is turned into a
      recorded failure. */
  datatype Failure = ContractFailure(why: string) | OtherFailure(why: string)

  /** What is left open: besides the text functions, the JSON text form of a document and the hash. */
  datatype Env = Env(lx: Lexer, words: Words, dump: map<string, Json> -> string, digest: string -> string)

  /** Case folding and the JSON text form are as promised. */
  ghost predicate Lawful(env: Env) {
    IsCasefold(env.words.fold) && IsDump(env.dump)
  }

  datatype AuditRecord = AuditRecord(kind: string, refs: seq<Reference>, at: Time)

  /** What applying an answer does, in order. */
  datatype Effects = Effects(writes: seq<Write>, audit: seq<AuditRecord>, outputs: seq<SourceRef>)

  function BeliefReference(id: Id): Reference {
    Reference("belief", id)
  }

  function SourceReferences(refs: seq<SourceRef>): seq<Reference> {
    seq(|refs|, i requires 0 <= i < |refs| => Reference(refs[i].sourceType, refs[i].sourceId))
  }

  /** The window, its sources and the run, as evidence. */
  function AttachedSources(ctx: Context, run: Option<string>): seq<Reference> {
    [Reference("background_source_window", ctx.windowId)] + SourceReferences(ctx.sourceRefs)
    + if run.Some? then [Reference("background_stage_run", run.value)] else []
  }

  function TargetUnit(ctx: Context): string {
    if ctx.targetUnit.Some? && ctx.targetUnit.value != "" then ctx.targetUnit.value
    else if ctx.sessionId.Some? && ctx.sessionId.value != "" then "session:" + ctx.sessionId.value
    else "global"
  }

  // ---- Beliefs from drafts ---------------------------------------------------------------

  /** The key of a project: the hash of its normalized descriptor. */
  function ProjectKey(env: Env, d: Descriptor): Option<string> {
    match Normalized(env.words.fold, env.dump, d)
    case None => None
    case Some(text) => Some(env.digest(text))
  }

  function MaterializedAbout(env: Env, d: Draft): Option<seq<Reference>> {
    if d.scope == ProjectScope && d.project.Some? then
      match ProjectKey(env, d.project.value)
      case None => None
      case Some(key) => Some([Reference("project", "project:" + key)])
    else Some(d.about)
  }

  function ObservedAt(d: Draft, now: Time): Option<Time> {
    match d.validity
    case None => Some(now)
    case Some(v) =>
      match Field(v, "observed_at")
      case Some(JString(text)) => Some(text)
      case _ => None
  }

  /** The checks the belief constructor and the authority ceiling make before a write. */
  predicate Constructible(b: Belief, ctx: Context) {
    && ScopeFits(b.scope, b.about)
    && (forall ref <- b.about :: Strip(ref.kind) != "" && Strip(ref.id) != "")
    && WithinCeiling(b.authority, ctx.sourceKind)
  }

  function BeliefFromDraft(
    env: Env, d: Draft, v: Validated, confirm: bool, ctx: Context, run: Option<string>, id: Id, now: Time, supersedes: Option<Id>)
    : Result<Belief, Failure>
  {
    match MaterializedAbout(env, d)
    case None => Err(OtherFailure("project descriptor must be resolvable"))
    case Some(about) =>
      var b := Belief(
                 id, d.kind, about, d.objectText, d.content, ctx.derivationStage, d.scope, v.authority,
                 if confirm then Lifecycle.PendingConfirmation else Active,
                 AttachedSources(ctx, run), ObservedAt(d, now), now, None, None, supersedes);
      if Constructible(b, ctx) then Ok(b) else Err(OtherFailure("belief rejected"))
  }

  predicate Keyed(env: Env, d: Draft) {
    d.scope == ProjectScope && d.project.Some? ==> ProjectKey(env, d.project.value).Some?
  }

  /** A project named by a text that, trimmed, is made of path separators only. The contract accepts it. */
  predicate NamesNothing(d: Draft) {
    && d.scope == ProjectScope && d.project.Some? && d.project.value.TextDescriptor?
    && OnlySeparators(Strip(d.project.value.text))
  }

  lemma KeyedIff(env: Env, d: Draft, ctx: Context)
    requires Lawful(env) && DraftFits(env.words, d, ctx)
    ensures Keyed(env, d) <==> !NamesNothing(d)
  {
    if d.scope == ProjectScope {
      match d.project.value
      case TextDescriptor(text) => TextFailsIff(env.words.fold, env.dump, text);
      case DocumentDescriptor(doc) => DocumentNeverFails(env.words.fold, env.dump, doc);
    }
  }

  lemma NotBlank(s: string, c: char)
    requires c in s && !IsSpace(c)
    ensures Strip(s) != ""
  {
    StripBlank(s);
  }

  /** A draft with a project key passes the constructor. */
  lemma KeyedDraftBuilds(
    env: Env, d: Draft, v: Validated, confirm: bool, ctx: Context, run: Option<string>, id: Id, now: Time, supersedes: Option<Id>)
    requires DraftFits(env.words, d, ctx) && WithinCeiling(v.authority, ctx.sourceKind)
    ensures var r := BeliefFromDraft(env, d, v, confirm, ctx, run, id, now, supersedes);
            && (r.Ok? <==> Keyed(env, d))
            && (r.Err? ==> r.error.OtherFailure?)
            && (r.Ok? ==> r.value.id == id && r.value.kind == d.kind && r.value.supersededBy == None
                          && r.value.lifecycle == if confirm then Lifecycle.PendingConfirmation else Active)
  {
    if Keyed(env, d) && d.scope == ProjectScope {
      var ref := Reference("project", "project:" + ProjectKey(env, d.project.value).value);
      assert ref.kind[0] == 'p' && ref.id[0] == 'p';
      NotBlank(ref.kind, 'p');
      NotBlank(ref.id, 'p');
      assert ref in [ref];
    }
  }

  /** A validated draft becomes a belief, as it says, exactly when its project is not named by a text of
      path separators only. A project named by a document, and every other scope, always builds. */
  lemma DraftBuildsIff(
    env: Env, d: Draft, v: Validated, confirm: bool, ctx: Context, run: Option<string>, id: Id, now: Time, supersedes: Option<Id>)
    requires Lawful(env) && DraftFits(env.words, d, ctx) && WithinCeiling(v.authority, ctx.sourceKind)
    ensures var r := BeliefFromDraft(env, d, v, confirm, ctx, run, id, now, supersedes);
            && (r.Ok? <==> !NamesNothing(d))
            && (r.Err? ==> r.error.OtherFailure?)
  {
    KeyedIff(env, d, ctx);
    KeyedDraftBuilds(env, d, v, confirm, ctx, run, id, now, supersedes);
  }

  // ---- Consolidation and conflict stages -------------------------------------------------

  predicate HasTarget(op: Operation) {
    op in {Strengthen, SupersedeTarget, Retract, Archive}
  }

  predicate HasDraft(op: Operation) {
    op in {Create, CreatePending, SupersedeTarget}
  }

  function TargetOf(v: Validated, ctx: Context, w: Words): Id
    requires Applicable(w, v, ctx) && HasTarget(v.operation)
  {
    v.payloads[0].update.target
  }

  function DraftOf(v: Validated, ctx: Context, w: Words): Draft
    requires Applicable(w, v, ctx) && HasDraft(v.operation)
  {
    if v.operation == SupersedeTarget then v.payloads[1].draft else v.payloads[0].draft
  }

  predicate Confirms(v: Validated) {
    v.requiresConfirmation || v.operation == CreatePending
  }

  /** Update-like operations need an Active atomic target. */
  predicate TargetActive(s: Tables, id: Id) {
    match GetById(s, id)
    case None => false
    case Some(b) => b.kind.OfMemory? && b.lifecycle == Active
  }

  function ReaffirmWrites(target: Id, sources: seq<Reference>, now: Time): seq<Write> {
    seq(|sources|, i requires 0 <= i < |sources| => Reaffirm(target, sources[i], now))
  }

  /** Writes the built belief, over its target when there is one to replace. */
  function DraftEffects(b: Belief, over: Option<Id>, now: Time): Effects {
    var refs := [BeliefReference(b.id)] + if over.Some? then [BeliefReference(over.value)] else [];
    Effects(
      if over.Some? then [Supersede([over.value], b, now)] else [Put(b)],
      [AuditRecord("background_consolidation_operation", refs, now)],
      [SourceRef("atomic_belief", b.id)])
  }

  /** Strengthens or retires the target, or only audits the wish when it needs confirmation. */
  function TargetEffects(op: Operation, confirm: bool, target: Id, sources: seq<Reference>, now: Time): Effects {
    var refs := [BeliefReference(target)] + if op == Strengthen && !confirm then sources else [];
    Effects(
      if confirm then []
      else if op == Strengthen then ReaffirmWrites(target, sources, now)
      else [Mark(target, if op == Retract then Retracted else Archived, now)],
      [AuditRecord("background_consolidation_operation", refs, now)],
      [SourceRef("atomic_belief", target)])
  }

  function SupersededTarget(v: Validated, ctx: Context, w: Words): Option<Id>
    requires Applicable(w, v, ctx)
  {
    if v.operation == SupersedeTarget then Some(TargetOf(v, ctx, w)) else None
  }

  function BuiltBelief(env: Env, v: Validated, ctx: Context, run: Option<string>, id: Id, now: Time): (r: Result<Belief, Failure>)
    requires Applicable(env.words, v, ctx) && HasDraft(v.operation)
  {
    BeliefFromDraft(env, DraftOf(v, ctx, env.words), v, Confirms(v), ctx, run, id, now, SupersededTarget(v, ctx, env.words))
  }

  function OperationEffects(
    env: Env, s: Tables, v: Validated, ctx: Context, run: Option<string>, id: Id, now: Time): Result<Effects, Failure>
    requires Applicable(env.words, v, ctx)
  {
    var op, confirm, w := v.operation, Confirms(v), env.words;
    if HasTarget(op) && !TargetActive(s, TargetOf(v, ctx, w)) then Err(ContractFailure("target is not an active atomic belief"))
    else if HasDraft(op) then
      match BuiltBelief(env, v, ctx, run, id, now)
      case Err(e) => Err(e)
      case Ok(b) => Ok(DraftEffects(b, if confirm then None else SupersededTarget(v, ctx, w), now))
    else Ok(TargetEffects(op, confirm, TargetOf(v, ctx, w), AttachedSources(ctx, run), now))
  }

  /** A source draft that consolidation used up. */
  predicate IsSpentDraft(s: Tables, ref: SourceRef, spared: Option<Id>) {
    && ref.sourceType == "atomic_belief"
    && spared != Some(ref.sourceId)
    && TargetActive(s, ref.sourceId)
    && GetById(s, ref.sourceId).value.stage == BackgroundExtracted
  }

  function ArchiveWrites(env: Env, s: Tables, refs: seq<SourceRef>, spared: Option<Id>, now: Time): seq<Write>
    decreases |refs|
  {
    if refs == [] then []
    else if IsSpentDraft(s, refs[0], spared) then
      var w := Mark(refs[0].sourceId, Archived, now);
      [w] + ArchiveWrites(env, Wrote(env.lx, s, w), refs[1..], spared, now)
    else ArchiveWrites(env, s, refs[1..], spared, now)
  }

  function ArchiveRecord(id: Id, now: Time): AuditRecord {
    AuditRecord("background_consolidation_source_archive", [BeliefReference(id)], now)
  }

  /** One audit record for every archived draft, in order. */
  function ArchiveAudit(writes: seq<Write>, now: Time): seq<AuditRecord> {
    if writes == [] then []
    else
      ArchiveAudit(writes[..|writes| - 1], now)
      + match writes[|writes| - 1] { case Mark(id, _, _) => [ArchiveRecord(id, now)] case _ => [] }
  }

  function Protected(v: Validated, ctx: Context, w: Words): Option<Id>
    requires Applicable(w, v, ctx)
  {
    if HasTarget(v.operation) then Some(TargetOf(v, ctx, w)) else None
  }

  /** After the effects, archives what consolidation used up. */
  function ThenArchive(env: Env, s: Tables, e: Effects, refs: seq<SourceRef>, spared: Option<Id>, now: Time): Effects {
    var archived := ArchiveWrites(env, WroteAll(env.lx, s, e.writes), refs, spared, now);
    Effects(e.writes + archived, e.audit + ArchiveAudit(archived, now), e.outputs)
  }

  function ConsolidationEffects(
    env: Env, s: Tables, v: Validated, ctx: Context, run: Option<string>, id: Id, now: Time): Result<Effects, Failure>
    requires Applicable(env.words, v, ctx)
  {
    match OperationEffects(env, s, v, ctx, run, id, now)
    case Err(e) => Err(e)
    case Ok(e) => Ok(ThenArchive(env, s, e, ctx.sourceRefs, Protected(v, ctx, env.words), now))
  }

  lemma BuiltBeliefIff(env: Env, v: Validated, ctx: Context, run: Option<string>, id: Id, now: Time)
    requires Lawful(env) && Applicable(env.words, v, ctx) && HasDraft(v.operation)
    ensures var r := BuiltBelief(env, v, ctx, run, id, now);
            && (r.Ok? <==> !NamesNothing(DraftOf(v, ctx, env.words)))
            && (r.Err? ==> r.error.OtherFailure?)
  {
    DraftBuildsIff(env, DraftOf(v, ctx, env.words), v, Confirms(v), ctx, run, id, now, SupersededTarget(v, ctx, env.words));
  }

  /** Exactly when an accepted consolidation answer can be applied: its target, if any, is an Active
      atomic belief now, and its draft, if any, names no project by path separators only. A missing
      target is a contract failure; such a project is not. */
  lemma ConsolidationAppliesIff(env: Env, s: Tables, v: Validated, ctx: Context, run: Option<string>, id: Id, now: Time)
    requires Lawful(env) && Applicable(env.words, v, ctx)
    ensures var r := ConsolidationEffects(env, s, v, ctx, run, id, now);
            var targetOk := HasTarget(v.operation) ==> TargetActive(s, TargetOf(v, ctx, env.words));
            var draftOk := HasDraft(v.operation) ==> !NamesNothing(DraftOf(v, ctx, env.words));
            && (r.Ok? <==> targetOk && draftOk)
            && (r.Err? ==> (r.error.ContractFailure? <==> !targetOk))
  {
    if HasDraft(v.operation) {
      BuiltBeliefIff(env, v, ctx, run, id, now);
    }
  }

  // ---- The Active beliefs afterwards -----------------------------------------------------

  lemma TargetActiveMeans(lx: Lexer, s: Tables, id: Id)
    requires RowsAgree(lx, s)
    ensures TargetActive(s, id) <==> IsActive(s, AtomicTable, id)
    ensures Stored(s, AtomicTable, id) ==> GetById(s, id) == Some(RecordOf(s, AtomicTable, id))
  {
    assert Stored(s, AtomicTable, id) ==> TableOf(RecordOf(s, AtomicTable, id)) == AtomicTable;
    assert Stored(s, SummaryTable, id) ==> TableOf(RecordOf(s, SummaryTable, id)) == SummaryTable;
  }

  /** An Active extracted atomic draft the window lists. */
  predicate ListedDraft(s: Tables, refs: seq<SourceRef>, id: Id) {
    && SourceRef("atomic_belief", id) in refs
    && IsActive(s, AtomicTable, id)
    && RecordOf(s, AtomicTable, id).stage == BackgroundExtracted
  }

  /** What one operation does to the Active beliefs. */
  predicate RetiresTarget(v: Validated) {
    !Confirms(v) && v.operation in {SupersedeTarget, Retract, Archive}
  }

  predicate AddsActive(v: Validated) {
    !Confirms(v) && HasDraft(v.operation)
  }

  lemma {:induction false} ReaffirmRun(lx: Lexer, s: Tables, target: Id, sources: seq<Reference>, now: Time)
    requires RowsAgree(lx, s)
    ensures var ws := ReaffirmWrites(target, sources, now);
            var s' := WroteAll(lx, s, ws);
            && RowsAgree(lx, s') && GuardedRun(lx, s, ws)
            && (forall t, id :: Stored(s', t, id) <==> Stored(s, t, id))
            && (forall t, id :: Stored(s, t, id) ==>
                  && RecordOf(s', t, id).lifecycle == RecordOf(s, t, id).lifecycle
                  && RecordOf(s', t, id).stage == RecordOf(s, t, id).stage)
    decreases |sources|
  {
    if sources != [] {
      var ws := ReaffirmWrites(target, sources, now);
      assert ws[1..] == ReaffirmWrites(target, sources[1..], now);
      ReaffirmRecords(lx, s, target, sources[0], now);
      var s1 := Wrote(lx, s, ws[0]);
      forall t, id | Stored(s, t, id)
        ensures Stored(s1, t, id) && RecordOf(s1, t, id).lifecycle == RecordOf(s, t, id).lifecycle
        ensures RecordOf(s1, t, id).stage == RecordOf(s, t, id).stage
      {
        assert RecordOf(s1, t, id) == RecordAfter(lx, s, ws[0], t, id);
      }
      ReaffirmRun(lx, s1, target, sources[1..], now);
    }
  }

  /** What one guarded write that is not a reaffirmation does to the Active beliefs. */
  lemma SingleWriteRun(lx: Lexer, s: Tables, w: Write)
    requires RowsAgree(lx, s) && GuardedWrite(s, w)
    requires w.Put? || (w.Supersede? && |w.olds| == 1) || (w.Mark? && Stored(s, AtomicTable, w.id))
    ensures var s' := WroteAll(lx, s, [w]);
            && RowsAgree(lx, s') && GuardedRun(lx, s, [w])
            && (forall t, id :: Stored(s, t, id) ==>
                  && Stored(s', t, id) && RecordOf(s', t, id).stage == RecordOf(s, t, id).stage
                  && (IsActive(s', t, id) <==>
                      IsActive(s, t, id) && !(t == AtomicTable && ((w.Supersede? && id == w.olds[0]) || (w.Mark? && id == w.id)))))
            && (forall t, id :: Stored(s', t, id) && !Stored(s, t, id) ==> (w.Put? || w.Supersede?) && RecordOf(s', t, id) == w.belief)
            && (w.Put? || w.Supersede? ==> Stored(s', TableOf(w.belief), w.belief.id))
  {
    var s' := Wrote(lx, s, w);
    assert [w][1..] == [];
    assert WroteAll(lx, s, [w]) == s';
    WriteRecords(lx, s, w);
    forall t, id | Stored(s, t, id)
      ensures RecordOf(s', t, id).stage == RecordOf(s, t, id).stage
      ensures IsActive(s', t, id) <==>
              IsActive(s, t, id) && !(t == AtomicTable && ((w.Supersede? && id == w.olds[0]) || (w.Mark? && id == w.id)))
    {
      assert RecordOf(s', t, id) == RecordAfter(lx, s, w, t, id);
    }
    if w.Put? || w.Supersede? {
      UpsertStores(lx, s, w.belief);
      if w.Supersede? {
        SupersedeAllRecords(lx, Upserted(lx, s, w.belief), w.olds, w.belief.id, w.at);
      }
    }
  }

  lemma ArchivedOne(lx: Lexer, s: Tables, id: Id, now: Time) returns (s1: Tables)
    requires RowsAgree(lx, s) && IsActive(s, AtomicTable, id)
    ensures s1 == Wrote(lx, s, Mark(id, Archived, now)) && RowsAgree(lx, s1) && GuardedWrite(s, Mark(id, Archived, now))
    ensures forall t, other :: IsActive(s1, t, other) <==> IsActive(s, t, other) && !(t == AtomicTable && other == id)
    ensures forall t, other :: IsActive(s1, t, other) ==> RecordOf(s1, t, other).stage == RecordOf(s, t, other).stage
  {
    SingleWriteRun(lx, s, Mark(id, Archived, now));
    WroteOne(lx, s, Mark(id, Archived, now));
    s1 := Wrote(lx, s, Mark(id, Archived, now));
  }

  /** Archiving retires exactly the listed drafts but the spared one, and is a run of guarded writes. */
  lemma {:induction false} ArchiveRetiresListed(env: Env, s: Tables, refs: seq<SourceRef>, spared: Option<Id>, now: Time)
    requires RowsAgree(env.lx, s)
    ensures var ws := ArchiveWrites(env, s, refs, spared, now);
            var s' := WroteAll(env.lx, s, ws);
            && RowsAgree(env.lx, s')
            && GuardedRun(env.lx, s, ws)
            && (forall t, id :: IsActive(s', t, id) <==>
                  IsActive(s, t, id) && !(t == AtomicTable && ListedDraft(s, refs, id) && spared != Some(id)))
    decreases |refs|
  {
    if refs != [] {
      var ref, rest := refs[0], refs[1..];
      TargetActiveMeans(env.lx, s, ref.sourceId);
      assert forall id :: SourceRef("atomic_belief", id) in refs <==>
                          SourceRef("atomic_belief", id) == ref || SourceRef("atomic_belief", id) in rest;
      if IsSpentDraft(s, ref, spared) {
        var s1 := ArchivedOne(env.lx, s, ref.sourceId, now);
        ArchiveRetiresListed(env, s1, rest, spared, now);
      } else {
        ArchiveRetiresListed(env, s, rest, spared, now);
      }
    }
  }

  /** From `s` to `s'`: of the Active beliefs only `gone` is no longer Active, the new id is Active
      exactly when `adds`, and no stored belief changes its stage. */
  ghost predicate Moves(s: Tables, s': Tables, id: Id, gone: Option<Id>, adds: bool) {
    && (forall t, other :: (t != AtomicTable || other != id) ==>
          (IsActive(s', t, other) <==> IsActive(s, t, other) && !(t == AtomicTable && gone == Some(other))))
    && (IsActive(s', AtomicTable, id) <==> adds)
    && (forall t, other :: Stored(s, t, other) ==>
          Stored(s', t, other) && RecordOf(s', t, other).stage == RecordOf(s, t, other).stage)
  }

  lemma DraftMoves(lx: Lexer, s: Tables, b: Belief, over: Option<Id>, now: Time)
    requires RowsAgree(lx, s) && NewBelief(s, b) && b.kind.OfMemory?
    requires over.Some? ==> IsActive(s, AtomicTable, over.value)
    ensures var ws := DraftEffects(b, over, now).writes;
            var s' := WroteAll(lx, s, ws);
            RowsAgree(lx, s') && GuardedRun(lx, s, ws) && Moves(s, s', b.id, over, b.lifecycle == Active)
  {
    var w := if over.Some? then Supersede([over.value], b, now) else Put(b);
    SingleWriteRun(lx, s, w);
    assert TableOf(b) == AtomicTable;
  }

  lemma MarkMoves(lx: Lexer, s: Tables, target: Id, lifecycle: Lifecycle, now: Time, id: Id)
    requires RowsAgree(lx, s) && IsActive(s, AtomicTable, target) && lifecycle in {Retracted, Archived}
    requires !Stored(s, AtomicTable, id)
    ensures var ws := [Mark(target, lifecycle, now)];
            var s' := WroteAll(lx, s, ws);
            RowsAgree(lx, s') && GuardedRun(lx, s, ws) && Moves(s, s', id, Some(target), false)
  {
    SingleWriteRun(lx, s, Mark(target, lifecycle, now));
  }

  lemma ReaffirmMoves(lx: Lexer, s: Tables, target: Id, sources: seq<Reference>, now: Time, id: Id)
    requires RowsAgree(lx, s) && !Stored(s, AtomicTable, id)
    ensures var ws := ReaffirmWrites(target, sources, now);
            var s' := WroteAll(lx, s, ws);
            RowsAgree(lx, s') && GuardedRun(lx, s, ws) && Moves(s, s', id, None, false)
  {
    ReaffirmRun(lx, s, target, sources, now);
  }

  lemma TargetMoves(lx: Lexer, s: Tables, op: Operation, confirm: bool, target: Id, sources: seq<Reference>, now: Time, id: Id)
    requires RowsAgree(lx, s) && IsActive(s, AtomicTable, target) && !Stored(s, AtomicTable, id)
    ensures var ws := TargetEffects(op, confirm, target, sources, now).writes;
            var s' := WroteAll(lx, s, ws);
            && RowsAgree(lx, s') && GuardedRun(lx, s, ws)
            && Moves(s, s', id, if confirm || op == Strengthen then None else Some(target), false)
  {
    if confirm {
      assert WroteAll(lx, s, []) == s;
    } else if op == Strengthen {
      ReaffirmMoves(lx, s, target, sources, now, id);
    } else {
      MarkMoves(lx, s, target, if op == Retract then Retracted else Archived, now, id);
    }
  }

  lemma BuiltBeliefIsNew(env: Env, s: Tables, v: Validated, ctx: Context, run: Option<string>, id: Id, now: Time)
    requires Applicable(env.words, v, ctx) && HasDraft(v.operation)
    requires !Stored(s, AtomicTable, id) && !Stored(s, SummaryTable, id)
    ensures var r := BuiltBelief(env, v, ctx, run, id, now);
            r.Ok? ==> && r.value.id == id && NewBelief(s, r.value) && r.value.kind.OfMemory?
                      && (r.value.lifecycle == Active <==> !Confirms(v))
  {
    KeyedDraftBuilds(env, DraftOf(v, ctx, env.words), v, Confirms(v), ctx, run, id, now, SupersededTarget(v, ctx, env.words));
  }

  function Gone(v: Validated, ctx: Context, w: Words): Option<Id>
    requires Applicable(w, v, ctx)
  {
    if RetiresTarget(v) then Some(TargetOf(v, ctx, w)) else None
  }

  /** The operation itself is a run of guarded writes that retires at most its target, adds at most the
      new belief, and leaves every other belief's lifecycle and stage alone. */
  lemma OperationRun(env: Env, s: Tables, v: Validated, ctx: Context, run: Option<string>, id: Id, now: Time)
    requires RowsAgree(env.lx, s) && Applicable(env.words, v, ctx)
    requires !Stored(s, AtomicTable, id) && !Stored(s, SummaryTable, id)
    requires OperationEffects(env, s, v, ctx, run, id, now).Ok?
    ensures var ws := OperationEffects(env, s, v, ctx, run, id, now).value.writes;
            var s' := WroteAll(env.lx, s, ws);
            RowsAgree(env.lx, s') && GuardedRun(env.lx, s, ws) && Moves(s, s', id, Gone(v, ctx, env.words), AddsActive(v))
  {
    if HasTarget(v.operation) {
      TargetActiveMeans(env.lx, s, TargetOf(v, ctx, env.words));
    }
    if HasDraft(v.operation) {
      BuiltBeliefIsNew(env, s, v, ctx, run, id, now);
      var over := if Confirms(v) then None else SupersededTarget(v, ctx, env.words);
      assert over == Gone(v, ctx, env.words);
      DraftMoves(env.lx, s, BuiltBelief(env, v, ctx, run, id, now).value, over, now);
    } else {
      TargetMoves(env.lx, s, v.operation, Confirms(v), TargetOf(v, ctx, env.words), AttachedSources(ctx, run), now, id);
    }
  }

  lemma WroteOne(lx: Lexer, s: Tables, w: Write)
    ensures WroteAll(lx, s, [w]) == Wrote(lx, s, w)
  {
    assert [w][1..] == [];
  }

  lemma {:induction false} RunsJoin(lx: Lexer, s: Tables, first: seq<Write>, second: seq<Write>)
    ensures WroteAll(lx, s, first + second) == WroteAll(lx, WroteAll(lx, s, first), second)
    ensures GuardedRun(lx, s, first) && GuardedRun(lx, WroteAll(lx, s, first), second) ==> GuardedRun(lx, s, first + second)
    decreases |first|
  {
    if first == [] {
      assert first + second == second;
    } else {
      assert (first + second)[1..] == first[1..] + second;
      RunsJoin(lx, Wrote(lx, s, first[0]), first[1..], second);
    }
  }

  /** The Active beliefs after an applied answer: the old ones, without the retired target, without
      every other Active extracted draft of the window, and with the new belief unless it waits for
      confirmation. Everything it wrote is a run of guarded writes with a fresh id. */
  lemma ActiveAfterConsolidation(env: Env, s: Tables, v: Validated, ctx: Context, run: Option<string>, id: Id, now: Time)
    requires RowsAgree(env.lx, s) && Applicable(env.words, v, ctx)
    requires !Stored(s, AtomicTable, id) && !Stored(s, SummaryTable, id)
    requires SourceRef("atomic_belief", id) !in ctx.sourceRefs
    ensures var r := ConsolidationEffects(env, s, v, ctx, run, id, now);
            r.Ok? ==>
              && GuardedRun(env.lx, s, r.value.writes)
              && ActiveAfter(s, WroteAll(env.lx, s, r.value.writes), v, ctx, env.words, id)
  {
    if OperationEffects(env, s, v, ctx, run, id, now).Ok? {
      var e := OperationEffects(env, s, v, ctx, run, id, now).value;
      var s1 := WroteAll(env.lx, s, e.writes);
      OperationRun(env, s, v, ctx, run, id, now);
      ArchiveRetiresListed(env, s1, ctx.sourceRefs, Protected(v, ctx, env.words), now);
      RunsJoin(env.lx, s, e.writes, ArchiveWrites(env, s1, ctx.sourceRefs, Protected(v, ctx, env.words), now));
      if HasTarget(v.operation) {
        TargetActiveMeans(env.lx, s, TargetOf(v, ctx, env.words));
      }
    }
  }

  ghost predicate ActiveAfter(s: Tables, s': Tables, v: Validated, ctx: Context, w: Words, id: Id)
    requires Applicable(w, v, ctx)
  {
    forall t, other ::
      IsActive(s', t, other) <==>
      if t == AtomicTable && other == id then AddsActive(v)
      else
        && IsActive(s, t, other)
        && !(t == AtomicTable && Gone(v, ctx, w) == Some(other))
        && !(t == AtomicTable && ListedDraft(s, ctx.sourceRefs, other) && Protected(v, ctx, w) != Some(other))
  }
}

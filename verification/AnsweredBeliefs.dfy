/** What an accepted background answer leaves stored: the beliefs it adds say what its drafts say, its
    target and the window's drafts are as the operation leaves them, and nothing else changes. */
module AnsweredBeliefs {
  import opened Common
  import opened JsonValues
  import opened Beliefs
  import opened BeliefIndexes
  import opened BeliefRuns
  import opened Contract
  import opened ProjectDescriptors
  import opened Acceptance
  import opened StateService
  import opened CognitionRuns

  // ---- What a new belief says ------------------------------------------------------------

  /** The window, one of its sources, or the run. */
  predicate IsEvidence(ref: Reference, c: Call) {
    || ref == Reference("background_source_window", c.ctx.windowId)
    || (exists r <- c.ctx.sourceRefs :: ref == Reference(r.sourceType, r.sourceId))
    || (c.run.Some? && ref == Reference("background_stage_run", c.run.value))
  }

  /** About the references of the draft, or about the one project its descriptor names. */
  predicate AboutAsDrafted(env: Env, b: Belief, d: Draft) {
    if d.scope == ProjectScope && d.project.Some? then
      && |b.about| == 1 && b.about[0].kind == "project"
      && var text := Normalized(env.words.fold, env.dump, d.project.value);
         text.Some? && b.about[0].id == "project:" + env.digest(text.value)
    else b.about == d.about
  }

  /** Observed when the draft says so; when it says nothing, now. */
  ghost predicate ObservedAsDrafted(b: Belief, d: Draft, now: Time) {
    && (d.validity.None? ==> b.observedAt == Some(now))
    && (d.validity.Some? && b.observedAt.Some? ==> Field(d.validity.value, "observed_at") == Some(JString(b.observedAt.value)))
    && (d.validity.Some? && b.observedAt.None? ==>
          forall at :: Field(d.validity.value, "observed_at") != Some(JString(at)))
  }

  ghost predicate SaysDraft(env: Env, b: Belief, d: Draft, v: Validated, confirm: bool, c: Call, supersedes: Option<Id>) {
    && b.kind == d.kind && b.content == d.content && b.objectText == d.objectText && b.scope == d.scope
    && AboutAsDrafted(env, b, d) && ObservedAsDrafted(b, d, c.now)
    && b.authority == v.authority && b.stage == c.ctx.derivationStage
    && b.lifecycle == (if confirm then Lifecycle.PendingConfirmation else Active)
    && (forall ref :: ref in b.sources <==> IsEvidence(ref, c))
    && b.heldSince == c.now && b.heldUntil.None? && b.supersededBy.None? && b.supersedes == supersedes
  }

  lemma AttachedIsEvidence(c: Call, ref: Reference)
    ensures ref in AttachedSources(c.ctx, c.run) <==> IsEvidence(ref, c)
  {
    var refs := SourceReferences(c.ctx.sourceRefs);
    if i :| 0 <= i < |refs| && refs[i] == ref {
      assert c.ctx.sourceRefs[i] in c.ctx.sourceRefs;
    }
    if r :| r in c.ctx.sourceRefs && ref == Reference(r.sourceType, r.sourceId) {
      var i :| 0 <= i < |c.ctx.sourceRefs| && c.ctx.sourceRefs[i] == r;
      assert refs[i] == ref;
    }
  }

  lemma BuiltSaysDraft(env: Env, d: Draft, v: Validated, confirm: bool, c: Call, id: Id, supersedes: Option<Id>)
    ensures var r := BeliefFromDraft(env, d, v, confirm, c.ctx, c.run, id, c.now, supersedes);
            r.Ok? ==> r.value.id == id && SaysDraft(env, r.value, d, v, confirm, c, supersedes)
  {
    forall ref
      ensures ref in AttachedSources(c.ctx, c.run) <==> IsEvidence(ref, c)
    {
      AttachedIsEvidence(c, ref);
    }
  }

  // ---- Stages that only create -----------------------------------------------------------

  /** One write, one audit record and one output per payload, in order. */
  lemma {:induction false} CreationInOrder(build: nat -> Result<Belief, Failure>, payloads: seq<Payload>, now: Time, n: nat)
    requires n <= |payloads| && forall p <- payloads :: !p.BeliefUpdate?
    requires CreateEffects(build, payloads, now, n).Ok?
    ensures var e := CreateEffects(build, payloads, now, n).value;
            && |e.writes| == |e.audit| == |e.outputs| == |payloads| - n
            && forall i :: n <= i < |payloads| ==>
                 && build(i).Ok? && e.writes[i - n] == Put(build(i).value)
                 && e.audit[i - n] == AuditRecord(AuditKind(payloads[i].draft), [BeliefReference(build(i).value.id)], now)
                 && e.outputs[i - n] == SourceRef(OutputType(payloads[i].draft), build(i).value.id)
    decreases |payloads| - n
  {
    if n < |payloads| {
      CreationInOrder(build, payloads, now, n + 1);
    }
  }

  /** New beliefs put one after the other are all stored, as they were built. */
  lemma {:induction false} PutsStore(lx: Lexer, s: Tables, ws: seq<Write>)
    requires RowsAgree(lx, s) && FreshRun(lx, s, ws) && forall w <- ws :: w.Put?
    ensures forall i :: 0 <= i < |ws| ==>
              Stored(WroteAll(lx, s, ws), TableOf(ws[i].belief), ws[i].belief.id)
              && RecordOf(WroteAll(lx, s, ws), TableOf(ws[i].belief), ws[i].belief.id) == ws[i].belief
    ensures forall t, id :: Stored(s, t, id) ==>
              Stored(WroteAll(lx, s, ws), t, id) && RecordOf(WroteAll(lx, s, ws), t, id) == RecordOf(s, t, id)
    decreases |ws|
  {
    if ws != [] {
      var s1 := Wrote(lx, s, ws[0]);
      WriteRecords(lx, s, ws[0]);
      UpsertStores(lx, s, ws[0].belief);
      PutsStore(lx, s1, ws[1..]);
      forall t, id | Stored(s, t, id)
        ensures Stored(s1, t, id) && RecordOf(s1, t, id) == RecordOf(s, t, id)
      {
        assert RecordOf(s1, t, id) == RecordAfter(lx, s, ws[0], t, id);
      }
    }
  }

  /** The belief stored for payload `n` of an accepted answer, in a stage that only creates. */
  ghost predicate StoresPayload(env: Env, s: Tables, v: Validated, c: Call, n: nat)
    requires n < |v.payloads|
  {
    && !v.payloads[n].BeliefUpdate?
    && var d := v.payloads[n].draft;
       var t := if d.kind.OfMemory? then AtomicTable else SummaryTable;
       Stored(s, t, c.ids(n)) && SaysDraft(env, RecordOf(s, t, c.ids(n)), d, v, v.requiresConfirmation, c, None)
  }

  /** The audit record and the output for payload `n`. */
  predicate ReportsPayload(db: Db, db': Db, outputs: seq<SourceRef>, v: Validated, c: Call, n: nat)
    requires n < |v.payloads|
  {
    !v.payloads[n].BeliefUpdate? &&
    var atomic := v.payloads[n].draft.kind.OfMemory?;
    && |db'.audit| == |db.audit| + |v.payloads| && |outputs| == |v.payloads|
    && db'.audit[|db.audit| + n]
       == AuditRecord(if atomic then "background_atomic_belief_write" else "background_summary_belief_write",
                      [Reference("belief", c.ids(n))], c.now)
    && outputs[n] == SourceRef(if atomic then "atomic_belief" else "summary_belief", c.ids(n))
  }

  /** The effects of a creating answer: for each payload, in order, the belief its draft describes is put,
      audited and reported. */
  ghost predicate GivesPayload(env: Env, e: Effects, v: Validated, c: Call, n: nat)
    requires n < |v.payloads| == |e.writes| == |e.audit| == |e.outputs|
  {
    && !v.payloads[n].BeliefUpdate? && e.writes[n].Put? && e.writes[n].belief.id == c.ids(n)
    && SaysDraft(env, e.writes[n].belief, v.payloads[n].draft, v, v.requiresConfirmation, c, None)
    && var atomic := v.payloads[n].draft.kind.OfMemory?;
       && e.audit[n] == AuditRecord(if atomic then "background_atomic_belief_write" else "background_summary_belief_write",
                                    [Reference("belief", c.ids(n))], c.now)
       && e.outputs[n] == SourceRef(if atomic then "atomic_belief" else "summary_belief", c.ids(n))
  }

  ghost predicate GivesPayloads(env: Env, e: Effects, v: Validated, c: Call) {
    && |v.payloads| == |e.writes| == |e.audit| == |e.outputs|
    && forall n: nat :: n < |v.payloads| ==> GivesPayload(env, e, v, c, n)
  }

  lemma CreationGives(env: Env, v: Validated, c: Call)
    requires forall p <- v.payloads :: !p.BeliefUpdate?
    ensures var r := CreateEffects(Builder(env, v, c), v.payloads, c.now, 0); r.Ok? ==> GivesPayloads(env, r.value, v, c)
  {
    var build := Builder(env, v, c);
    if CreateEffects(build, v.payloads, c.now, 0).Ok? {
      CreationInOrder(build, v.payloads, c.now, 0);
      forall n: nat | n < |v.payloads|
        ensures GivesPayload(env, CreateEffects(build, v.payloads, c.now, 0).value, v, c, n)
      {
        assert v.payloads[n] in v.payloads;
        PayloadBuilds(env, v, c, n);
      }
    }
  }

  lemma PayloadBuilds(env: Env, v: Validated, c: Call, n: nat)
    requires n < |v.payloads| && !v.payloads[n].BeliefUpdate? && Builder(env, v, c)(n).Ok?
    ensures var b := Builder(env, v, c)(n).value;
            b.id == c.ids(n) && SaysDraft(env, b, v.payloads[n].draft, v, v.requiresConfirmation, c, None)
  {
    BuiltSaysDraft(env, v.payloads[n].draft, v, v.requiresConfirmation, c, c.ids(n), None);
  }

  lemma AnswerGives(env: Env, s: Tables, v: Validated, c: Call)
    requires !IsConsolidating(c.ctx.stage) && AnswerEffects(env, s, v, c).Ok?
    ensures GivesPayloads(env, AnswerEffects(env, s, v, c).value, v, c)
  {
    CreationGives(env, v, c);
  }

  /** What was put is stored as it was put, and everything stored before is as it was. */
  lemma GivenIsStored(env: Env, s: Tables, e: Effects, v: Validated, c: Call, n: nat)
    requires RowsAgree(env.lx, s) && GuardedRun(env.lx, s, e.writes) && GivesPayloads(env, e, v, c) && n < |v.payloads|
    ensures StoresPayload(env, WroteAll(env.lx, s, e.writes), v, c, n)
  {
    GuardedKeepsRows(env.lx, s, e.writes);
    assert GivesPayload(env, e, v, c, n);
    forall w | w in e.writes
      ensures w.Put?
    {
      var i :| 0 <= i < |e.writes| && e.writes[i] == w;
      assert GivesPayload(env, e, v, c, i);
    }
    PutsStore(env.lx, s, e.writes);
  }

  lemma GivenKeeps(env: Env, s: Tables, e: Effects, v: Validated, c: Call)
    requires RowsAgree(env.lx, s) && GuardedRun(env.lx, s, e.writes) && GivesPayloads(env, e, v, c)
    ensures KeepsRecords(s, WroteAll(env.lx, s, e.writes))
  {
    GuardedKeepsRows(env.lx, s, e.writes);
    forall w | w in e.writes
      ensures w.Put?
    {
      var i :| 0 <= i < |e.writes| && e.writes[i] == w;
      assert GivesPayload(env, e, v, c, i);
    }
    PutsStore(env.lx, s, e.writes);
  }

  ghost predicate KeepsRecords(s: Tables, s': Tables) {
    forall t, id :: Stored(s, t, id) ==> Stored(s', t, id) && RecordOf(s', t, id) == RecordOf(s, t, id)
  }

  /** An accepted answer commits its effects. */
  lemma AcceptedCommits(env: Env, db: Db, raw: Raw, c: Call, v: Validated)
    requires Decode(env, raw, c.ctx) == Ok(v) && Answered(env, db, raw, c).1.Accepted?
    ensures IsConsolidating(c.ctx.stage) ==> Applicable(env.words, v, c.ctx)
    ensures var (db', out) := Answered(env, db, raw, c);
            var r := AnswerEffects(env, db.tables, v, c);
            && r.Ok? && db'.tables == WroteAll(env.lx, db.tables, r.value.writes)
            && db'.audit == db.audit + r.value.audit && out.outputs == r.value.outputs
  {
  }

  /** An accepted answer of a stage that only creates: under each id it drew stands the belief its draft
      describes, with the evidence of the window and the run; each is audited and reported once, in order;
      and every belief stored before is as it was. */
  lemma CreatedBeliefsSay(env: Env, db: Db, raw: Raw, c: Call, v: Validated)
    requires RowsAgree(env.lx, db.tables) && DrawsNewIds(db.tables, Answer(v, c))
    requires Decode(env, raw, c.ctx) == Ok(v) && !IsConsolidating(c.ctx.stage) && Answered(env, db, raw, c).1.Accepted?
    ensures var (db', out) := Answered(env, db, raw, c);
            && KeepsRecords(db.tables, db'.tables) && db.audit <= db'.audit
            && forall n: nat :: n < |v.payloads| ==>
                 StoresPayload(env, db'.tables, v, c, n) && ReportsPayload(db, db', out.outputs, v, c, n)
  {
    var (db', out) := Answered(env, db, raw, c);
    AcceptedCommits(env, db, raw, c, v);
    var e := AnswerEffects(env, db.tables, v, c).value;
    AnswerGives(env, db.tables, v, c);
    AnswerRun(env, db.tables, v, c);
    GivenKeeps(env, db.tables, e, v, c);
    forall n: nat | n < |v.payloads|
      ensures StoresPayload(env, db'.tables, v, c, n) && ReportsPayload(db, db', out.outputs, v, c, n)
    {
      GivenIsStored(env, db.tables, e, v, c, n);
      assert GivesPayload(env, e, v, c, n);
    }
  }

  // ---- Stages that consolidate -----------------------------------------------------------

  /** Archiving changes exactly the listed drafts but the spared one: to Archived, now. */
  lemma {:induction false} ArchiveRecords(env: Env, s: Tables, refs: seq<SourceRef>, spared: Option<Id>, now: Time)
    requires RowsAgree(env.lx, s)
    ensures var s' := WroteAll(env.lx, s, ArchiveWrites(env, s, refs, spared, now));
            forall t, id :: Stored(s, t, id) ==>
              && Stored(s', t, id)
              && RecordOf(s', t, id) ==
                 if t == AtomicTable && ListedDraft(s, refs, id) && spared != Some(id)
                 then RecordOf(s, t, id).(lifecycle := Archived, heldUntil := Some(now)) else RecordOf(s, t, id)
    decreases |refs|
  {
    if refs != [] {
      var ref, rest := refs[0], refs[1..];
      TargetActiveMeans(env.lx, s, ref.sourceId);
      assert forall id :: SourceRef("atomic_belief", id) in refs <==>
                          SourceRef("atomic_belief", id) == ref || SourceRef("atomic_belief", id) in rest;
      if IsSpentDraft(s, ref, spared) {
        var s1 := Wrote(env.lx, s, Mark(ref.sourceId, Archived, now));
        MarkRecords(env.lx, s, ref.sourceId, Archived, now);
        ArchiveRecords(env, s1, rest, spared, now);
        forall t, id | Stored(s, t, id)
          ensures Stored(s1, t, id)
          ensures RecordOf(s1, t, id) == if t == AtomicTable && id == ref.sourceId
                                         then RecordOf(s, t, id).(lifecycle := Archived, heldUntil := Some(now)) else RecordOf(s, t, id)
        {
          assert RecordOf(s1, t, id) == RecordAfter(env.lx, s, Mark(ref.sourceId, Archived, now), t, id);
        }
      } else {
        ArchiveRecords(env, s, rest, spared, now);
      }
    }
  }

  /** A belief that gained evidence: what it had comes first, what is added is the call's evidence, all of
      it is there, and only the time it was observed can change besides. */
  ghost predicate Strengthened(b: Belief, b': Belief, evidence: seq<Reference>, now: Time) {
    && b.sources <= b'.sources && (forall ref :: ref in b'.sources <==> ref in b.sources || ref in evidence)
    && (NoRepeats(b.sources) ==> NoRepeats(b'.sources))
    && b'.observedAt == (if now == "" || evidence == [] then b.observedAt else Some(now))
    && b'.(sources := b.sources, observedAt := b.observedAt) == b
  }

  lemma StrengthenedThen(b: Belief, b1: Belief, b': Belief, evidence: seq<Reference>, now: Time)
    requires evidence != [] && Reaffirms(b, b1, evidence[0], now) && Strengthened(b1, b', evidence[1..], now)
    ensures Strengthened(b, b', evidence, now)
  {
    assert evidence == [evidence[0]] + evidence[1..];
  }

  lemma {:induction false} ReaffirmedByAll(lx: Lexer, s: Tables, target: Id, evidence: seq<Reference>, now: Time)
    requires RowsAgree(lx, s) && Stored(s, AtomicTable, target)
    ensures var s' := WroteAll(lx, s, ReaffirmWrites(target, evidence, now));
            && RowsAgree(lx, s') && Stored(s', AtomicTable, target)
            && Strengthened(RecordOf(s, AtomicTable, target), RecordOf(s', AtomicTable, target), evidence, now)
            && OthersKept(s, s', {target})
    decreases |evidence|
  {
    var ws := ReaffirmWrites(target, evidence, now);
    if evidence != [] {
      var s1 := Wrote(lx, s, ws[0]);
      assert ws[1..] == ReaffirmWrites(target, evidence[1..], now);
      ReaffirmKeepsEvidence(lx, s, target, evidence[0], now);
      ReaffirmedByAll(lx, s1, target, evidence[1..], now);
      StrengthenedThen(RecordOf(s, AtomicTable, target), RecordOf(s1, AtomicTable, target),
                       RecordOf(WroteAll(lx, s, ws), AtomicTable, target), evidence, now);
    }
  }

  /** Every stored belief is as it was, but for these atomic ones. */
  ghost predicate OthersKept(s: Tables, s': Tables, changed: set<Id>) {
    forall t, id :: Stored(s, t, id) && !(t == AtomicTable && id in changed) ==>
      Stored(s', t, id) && RecordOf(s', t, id) == RecordOf(s, t, id)
  }

  /** What one consolidation operation leaves of its target. */
  ghost predicate TargetLeft(b: Belief, b': Belief, v: Validated, c: Call) {
    if v.requiresConfirmation then b' == b
    else
      match v.operation
      case SupersedeTarget => b' == b.(lifecycle := Superseded, heldUntil := Some(c.now), supersededBy := Some(c.ids(0)))
      case Retract => b' == b.(lifecycle := Retracted, heldUntil := Some(c.now))
      case Archive => b' == b.(lifecycle := Archived, heldUntil := Some(c.now))
      case _ =>
        && (forall ref :: ref in b'.sources <==> ref in b.sources || IsEvidence(ref, c)) && b.sources <= b'.sources
        && (NoRepeats(b.sources) ==> NoRepeats(b'.sources))
        && b'.observedAt == (if c.now == "" then b.observedAt else Some(c.now))
        && b'.(sources := b.sources, observedAt := b.observedAt) == b
  }

  lemma OneWriteRecords(lx: Lexer, s: Tables, w: Write)
    requires RowsAgree(lx, s) && FreshWrite(s, w) && (w.Put? || w.Supersede?) && w.belief.kind.OfMemory?
    ensures var s' := WroteAll(lx, s, [w]);
            && RowsAgree(lx, s') && Stored(s', AtomicTable, w.belief.id) && RecordOf(s', AtomicTable, w.belief.id) == w.belief
            && OthersKept(s, s', if w.Supersede? then set id <- w.olds else {})
            && (w.Supersede? ==> forall id <- w.olds :: Stored(s, AtomicTable, id) ==>
                  && Stored(s', AtomicTable, id)
                  && RecordOf(s', AtomicTable, id)
                     == RecordOf(s, AtomicTable, id).(lifecycle := Superseded, heldUntil := Some(w.at), supersededBy := Some(w.belief.id)))
  {
    var s' := Wrote(lx, s, w);
    WroteOne(lx, s, w);
    WriteRecords(lx, s, w);
    UpsertStores(lx, s, w.belief);
    if w.Supersede? {
      SupersedeAllRecords(lx, Upserted(lx, s, w.belief), w.olds, w.belief.id, w.at);
    }
    forall t, id | Stored(s, t, id)
      ensures RecordOf(s', t, id) == RecordAfter(lx, s, w, t, id)
    {
    }
  }

  lemma OneMarkRecords(lx: Lexer, s: Tables, target: Id, lifecycle: Lifecycle, now: Time)
    requires RowsAgree(lx, s) && Stored(s, AtomicTable, target)
    ensures var s' := WroteAll(lx, s, [Mark(target, lifecycle, now)]);
            && RowsAgree(lx, s') && OthersKept(s, s', {target}) && Stored(s', AtomicTable, target)
            && RecordOf(s', AtomicTable, target) == RecordOf(s, AtomicTable, target).(lifecycle := lifecycle, heldUntil := Some(now))
  {
    var w := Mark(target, lifecycle, now);
    WroteOne(lx, s, w);
    MarkRecords(lx, s, target, lifecycle, now);
    forall t, id | Stored(s, t, id)
      ensures RecordOf(Wrote(lx, s, w), t, id) == RecordAfter(lx, s, w, t, id)
    {
    }
  }

  // ---- One consolidation answer ----------------------------------------------------------

  predicate Waits(v: Validated) {
    v.requiresConfirmation || v.operation == CreatePending
  }

  /** The target the operation supersedes, if it is that operation. */
  function Superseding(v: Validated): Option<Id> {
    if v.operation == SupersedeTarget && v.payloads != [] && v.payloads[0].BeliefUpdate? then Some(v.payloads[0].update.target) else None
  }

  /** The belief added under the id drawn, if the operation adds one. */
  ghost predicate AddsDrafted(env: Env, s': Tables, v: Validated, c: Call) {
    forall p <- v.payloads :: p.AtomicDraft? ==>
      && Stored(s', AtomicTable, c.ids(0))
      && SaysDraft(env, RecordOf(s', AtomicTable, c.ids(0)), p.draft, v, Waits(v), c, Superseding(v))
  }

  ghost predicate LeavesTargets(s: Tables, s': Tables, v: Validated, c: Call) {
    forall p <- v.payloads :: p.BeliefUpdate? ==>
      var x := p.update.target;
      && Stored(s, AtomicTable, x) && Stored(s', AtomicTable, x)
      && TargetLeft(RecordOf(s, AtomicTable, x), RecordOf(s', AtomicTable, x), v, c)
  }

  function Targets(v: Validated): set<Id> {
    set p <- v.payloads | p.BeliefUpdate? :: p.update.target
  }

  /** The effects of an operation that builds a belief: one write of it, over the target unless it waits. */
  lemma DraftWrite(env: Env, s: Tables, v: Validated, c: Call) returns (w: Write)
    requires RowsAgree(env.lx, s) && Applicable(env.words, v, c.ctx) && HasDraft(v.operation) && NotStored(s, c.ids(0))
    requires OperationEffects(env, s, v, c.ctx, c.run, c.ids(0), c.now).Ok?
    ensures OperationEffects(env, s, v, c.ctx, c.run, c.ids(0), c.now).value.writes == [w]
    ensures FreshWrite(s, w) && (w.Put? || w.Supersede?) && w.belief.kind.OfMemory? && w.belief.id == c.ids(0)
    ensures var target := Superseding(v);
            && SaysDraft(env, w.belief, v.payloads[|v.payloads| - 1].draft, v, Waits(v), c, target)
            && (w.Supersede? <==> target.Some? && !v.requiresConfirmation)
            && (w.Supersede? ==> w.olds == [target.value] && w.at == c.now)
            && (target.Some? ==> Stored(s, AtomicTable, target.value))
  {
    var over := if Confirms(v) then None else SupersededTarget(v, c.ctx, env.words);
    var b := BuiltBelief(env, v, c.ctx, c.run, c.ids(0), c.now).value;
    BuiltSaysDraft(env, DraftOf(v, c.ctx, env.words), v, Confirms(v), c, c.ids(0), SupersededTarget(v, c.ctx, env.words));
    BuiltBeliefIsNew(env, s, v, c.ctx, c.run, c.ids(0), c.now);
    w := if over.Some? then Supersede([over.value], b, c.now) else Put(b);
    if HasTarget(v.operation) {
      TargetActiveMeans(env.lx, s, TargetOf(v, c.ctx, env.words));
    }
  }

  /** The payloads of an operation that builds a belief: its draft, after its target if it has one. */
  predicate DraftShape(v: Validated) {
    if v.operation == SupersedeTarget then |v.payloads| == 2 && v.payloads[0].BeliefUpdate? && v.payloads[1].AtomicDraft?
    else |v.payloads| == 1 && v.payloads[0].AtomicDraft?
  }

  lemma DraftOperation(env: Env, s: Tables, v: Validated, c: Call)
    requires RowsAgree(env.lx, s) && Applicable(env.words, v, c.ctx) && HasDraft(v.operation) && NotStored(s, c.ids(0))
    requires OperationEffects(env, s, v, c.ctx, c.run, c.ids(0), c.now).Ok?
    ensures var s' := WroteAll(env.lx, s, OperationEffects(env, s, v, c.ctx, c.run, c.ids(0), c.now).value.writes);
            RowsAgree(env.lx, s') && AddsDrafted(env, s', v, c) && LeavesTargets(s, s', v, c) && OthersKept(s, s', Targets(v))
  {
    var w := DraftWrite(env, s, v, c);
    DraftLeaves(env, s, v, c, w);
  }

  lemma DraftIsAdded(env: Env, s': Tables, v: Validated, c: Call, b: Belief)
    requires DraftShape(v) && Stored(s', AtomicTable, c.ids(0)) && RecordOf(s', AtomicTable, c.ids(0)) == b
    requires SaysDraft(env, b, v.payloads[|v.payloads| - 1].draft, v, Waits(v), c, Superseding(v)) == true
    ensures AddsDrafted(env, s', v, c) == true
  {
    if v.operation == SupersedeTarget {
      assert v.payloads == [v.payloads[0], v.payloads[1]];
    } else {
      assert v.payloads == [v.payloads[0]];
    }
  }

  lemma SupersededIsLeft(s: Tables, s': Tables, v: Validated, c: Call)
    requires DraftShape(v) && HasDraft(v.operation)
    requires Superseding(v).Some? ==>
               var x := Superseding(v).value;
               && Stored(s, AtomicTable, x) && Stored(s', AtomicTable, x)
               && RecordOf(s', AtomicTable, x) ==
                  if v.requiresConfirmation then RecordOf(s, AtomicTable, x)
                  else RecordOf(s, AtomicTable, x).(lifecycle := Superseded, heldUntil := Some(c.now), supersededBy := Some(c.ids(0)))
    ensures LeavesTargets(s, s', v, c) == true
    ensures Superseding(v).Some? ==> Superseding(v).value in Targets(v)
  {
    if v.operation == SupersedeTarget {
      assert v.payloads == [v.payloads[0], v.payloads[1]];
      assert v.payloads[0] in v.payloads;
    } else {
      assert v.payloads == [v.payloads[0]];
    }
  }

  lemma DraftLeaves(env: Env, s: Tables, v: Validated, c: Call, w: Write)
    requires RowsAgree(env.lx, s) && DraftShape(v) && HasDraft(v.operation)
    requires FreshWrite(s, w) && (w.Put? || w.Supersede?) && w.belief.kind.OfMemory? && w.belief.id == c.ids(0)
    requires SaysDraft(env, w.belief, v.payloads[|v.payloads| - 1].draft, v, Waits(v), c, Superseding(v)) == true
    requires var target := Superseding(v);
             && (w.Supersede? <==> target.Some? && !v.requiresConfirmation)
             && (w.Supersede? ==> w.olds == [target.value] && w.at == c.now)
             && (target.Some? ==> Stored(s, AtomicTable, target.value))
    ensures var s' := WroteAll(env.lx, s, [w]);
            && RowsAgree(env.lx, s') && AddsDrafted(env, s', v, c) == true && LeavesTargets(s, s', v, c) == true
            && OthersKept(s, s', Targets(v))
  {
    var s' := WroteAll(env.lx, s, [w]);
    OneWriteRecords(env.lx, s, w);
    DraftIsAdded(env, s', v, c, w.belief);
    SupersededIsLeft(s, s', v, c);
  }

  /** The effects of an operation on a target alone. */
  lemma TargetWrites(env: Env, s: Tables, v: Validated, c: Call)
    requires RowsAgree(env.lx, s) && Applicable(env.words, v, c.ctx) && !HasDraft(v.operation)
    requires OperationEffects(env, s, v, c.ctx, c.run, c.ids(0), c.now).Ok?
    ensures |v.payloads| == 1 && v.payloads[0].BeliefUpdate? && v.operation in {Strengthen, Retract, Archive}
    ensures var x := v.payloads[0].update.target;
            && Stored(s, AtomicTable, x)
            && OperationEffects(env, s, v, c.ctx, c.run, c.ids(0), c.now).value.writes ==
               if v.requiresConfirmation then []
               else if v.operation == Strengthen then ReaffirmWrites(x, AttachedSources(c.ctx, c.run), c.now)
               else [Mark(x, if v.operation == Retract then Retracted else Archived, c.now)]
  {
    TargetActiveMeans(env.lx, s, TargetOf(v, c.ctx, env.words));
  }

  lemma TargetIsLeft(env: Env, s: Tables, v: Validated, c: Call)
    requires RowsAgree(env.lx, s) && |v.payloads| == 1 && v.payloads[0].BeliefUpdate? && v.operation in {Strengthen, Retract, Archive}
    requires Stored(s, AtomicTable, v.payloads[0].update.target)
    ensures var x := v.payloads[0].update.target;
            var s' := WroteAll(env.lx, s, if v.requiresConfirmation then []
                                          else if v.operation == Strengthen then ReaffirmWrites(x, AttachedSources(c.ctx, c.run), c.now)
                                          else [Mark(x, if v.operation == Retract then Retracted else Archived, c.now)]);
            && RowsAgree(env.lx, s') && Stored(s', AtomicTable, x) && OthersKept(s, s', {x})
            && TargetLeft(RecordOf(s, AtomicTable, x), RecordOf(s', AtomicTable, x), v, c)
  {
    var x := v.payloads[0].update.target;
    if !v.requiresConfirmation {
      if v.operation == Strengthen {
        ReaffirmedByAll(env.lx, s, x, AttachedSources(c.ctx, c.run), c.now);
        forall ref
          ensures ref in AttachedSources(c.ctx, c.run) <==> IsEvidence(ref, c)
        {
          AttachedIsEvidence(c, ref);
        }
      } else {
        OneMarkRecords(env.lx, s, x, if v.operation == Retract then Retracted else Archived, c.now);
      }
    }
  }

  lemma TargetOperation(env: Env, s: Tables, v: Validated, c: Call)
    requires RowsAgree(env.lx, s) && Applicable(env.words, v, c.ctx) && !HasDraft(v.operation)
    requires OperationEffects(env, s, v, c.ctx, c.run, c.ids(0), c.now).Ok?
    ensures var s' := WroteAll(env.lx, s, OperationEffects(env, s, v, c.ctx, c.run, c.ids(0), c.now).value.writes);
            RowsAgree(env.lx, s') && AddsDrafted(env, s', v, c) && LeavesTargets(s, s', v, c) && OthersKept(s, s', Targets(v))
  {
    TargetWrites(env, s, v, c);
    TargetIsLeft(env, s, v, c);
    assert v.payloads == [v.payloads[0]];
    assert v.payloads[0] in v.payloads;
  }

  lemma OperationLeaves(env: Env, s: Tables, v: Validated, c: Call)
    requires RowsAgree(env.lx, s) && Applicable(env.words, v, c.ctx) && NotStored(s, c.ids(0))
    requires OperationEffects(env, s, v, c.ctx, c.run, c.ids(0), c.now).Ok?
    ensures var s' := WroteAll(env.lx, s, OperationEffects(env, s, v, c.ctx, c.run, c.ids(0), c.now).value.writes);
            RowsAgree(env.lx, s') && AddsDrafted(env, s', v, c) && LeavesTargets(s, s', v, c) && OthersKept(s, s', Targets(v))
  {
    if HasDraft(v.operation) {
      DraftOperation(env, s, v, c);
    } else {
      TargetOperation(env, s, v, c);
    }
  }

  /** Every belief stored before that is no target is as it was, but that the window's Active extracted
      drafts are Archived now. */
  ghost predicate ArchivesDrafts(s: Tables, s': Tables, v: Validated, c: Call) {
    forall t, id :: Stored(s, t, id) && !(t == AtomicTable && id in Targets(v)) ==>
      && Stored(s', t, id)
      && RecordOf(s', t, id) ==
         if t == AtomicTable && ListedDraft(s, c.ctx.sourceRefs, id)
         then RecordOf(s, t, id).(lifecycle := Archived, heldUntil := Some(c.now)) else RecordOf(s, t, id)
  }

  lemma TargetsAreProtected(v: Validated, ctx: Context, w: Words)
    requires Applicable(w, v, ctx)
    ensures Targets(v) == if Protected(v, ctx, w).Some? then {Protected(v, ctx, w).value} else {}
  {
    if HasTarget(v.operation) {
      assert v.payloads[0] in v.payloads;
      if v.operation == SupersedeTarget {
        assert v.payloads == [v.payloads[0], v.payloads[1]];
      } else {
        assert v.payloads == [v.payloads[0]];
      }
    } else {
      assert v.payloads == [v.payloads[0]];
    }
  }

  lemma ArchivingLeaves(env: Env, s: Tables, s1: Tables, v: Validated, c: Call)
    requires RowsAgree(env.lx, s) && RowsAgree(env.lx, s1) && Applicable(env.words, v, c.ctx)
    requires NotStored(s, c.ids(0)) && SourceRef("atomic_belief", c.ids(0)) !in c.ctx.sourceRefs
    requires AddsDrafted(env, s1, v, c) && LeavesTargets(s, s1, v, c) && OthersKept(s, s1, Targets(v))
    ensures var s' := WroteAll(env.lx, s1, ArchiveWrites(env, s1, c.ctx.sourceRefs, Protected(v, c.ctx, env.words), c.now));
            AddsDrafted(env, s', v, c) && LeavesTargets(s, s', v, c) && ArchivesDrafts(s, s', v, c)
  {
    ArchiveRecords(env, s1, c.ctx.sourceRefs, Protected(v, c.ctx, env.words), c.now);
    TargetsAreProtected(v, c.ctx, env.words);
  }

  /** An accepted consolidation answer: the belief it adds says what its draft says, its target is as the
      operation leaves it, the window's spent drafts are Archived, and no other belief changes. */
  lemma ConsolidatedBeliefsSay(env: Env, db: Db, raw: Raw, c: Call, v: Validated)
    requires RowsAgree(env.lx, db.tables) && DrawsNewIds(db.tables, Answer(v, c))
    requires Decode(env, raw, c.ctx) == Ok(v) && IsConsolidating(c.ctx.stage) && Answered(env, db, raw, c).1.Accepted?
    ensures var s' := Answered(env, db, raw, c).0.tables;
            AddsDrafted(env, s', v, c) && LeavesTargets(db.tables, s', v, c) && ArchivesDrafts(db.tables, s', v, c)
  {
    AcceptedCommits(env, db, raw, c, v);
    ConsolidationLeaves(env, db.tables, v, c);
  }

  lemma ConsolidationLeaves(env: Env, s: Tables, v: Validated, c: Call)
    requires RowsAgree(env.lx, s) && Applicable(env.words, v, c.ctx)
    requires NotStored(s, c.ids(0)) && SourceRef("atomic_belief", c.ids(0)) !in c.ctx.sourceRefs
    requires ConsolidationEffects(env, s, v, c.ctx, c.run, c.ids(0), c.now).Ok?
    ensures var s' := WroteAll(env.lx, s, ConsolidationEffects(env, s, v, c.ctx, c.run, c.ids(0), c.now).value.writes);
            AddsDrafted(env, s', v, c) && LeavesTargets(s, s', v, c) && ArchivesDrafts(s, s', v, c)
  {
    OperationLeaves(env, s, v, c);
    var e := OperationEffects(env, s, v, c.ctx, c.run, c.ids(0), c.now).value;
    var s1 := WroteAll(env.lx, s, e.writes);
    ArchivingLeaves(env, s, s1, v, c);
    RunsJoin(env.lx, s, e.writes, ArchiveWrites(env, s1, c.ctx.sourceRefs, Protected(v, c.ctx, env.words), c.now));
  }

  // ---- What is audited and reported ------------------------------------------------------

  function ArchivedRecord(id: Id, now: Time): AuditRecord {
    AuditRecord("background_consolidation_source_archive", [Reference("belief", id)], now)
  }

  lemma {:induction false} ArchivesAreMarks(env: Env, s: Tables, refs: seq<SourceRef>, spared: Option<Id>, now: Time, w: Write)
    requires RowsAgree(env.lx, s)
    ensures w in ArchiveWrites(env, s, refs, spared, now) <==>
            w.Mark? && w == Mark(w.id, Archived, now) && ListedDraft(s, refs, w.id) && spared != Some(w.id)
    decreases |refs|
  {
    if refs != [] {
      var ref, rest := refs[0], refs[1..];
      TargetActiveMeans(env.lx, s, ref.sourceId);
      assert forall id :: SourceRef("atomic_belief", id) in refs <==>
                          SourceRef("atomic_belief", id) == ref || SourceRef("atomic_belief", id) in rest;
      if IsSpentDraft(s, ref, spared) {
        var s1 := ArchivedOne(env.lx, s, ref.sourceId, now);
        ArchivesAreMarks(env, s1, rest, spared, now, w);
      } else {
        ArchivesAreMarks(env, s, rest, spared, now, w);
      }
    }
  }

  lemma {:induction false} ArchiveAuditsMarks(ws: seq<Write>, now: Time, r: AuditRecord)
    ensures r in ArchiveAudit(ws, now) <==> exists w <- ws :: w.Mark? && r == ArchivedRecord(w.id, now)
  {
    if ws != [] {
      var rest, last := ws[..|ws| - 1], ws[|ws| - 1];
      ArchiveAuditsMarks(rest, now, r);
      assert forall w :: w in ws <==> w in rest || w == last;
    }
  }

  /** The operation's own record and output. */
  ghost predicate ReportsOperation(first: AuditRecord, outputs: seq<SourceRef>, v: Validated, c: Call) {
    && first.kind == "background_consolidation_operation" && first.at == c.now
    && (forall p <- v.payloads :: p.AtomicDraft? ==>
          && outputs == [SourceRef("atomic_belief", c.ids(0))]
          && first.refs == [Reference("belief", c.ids(0))]
                           + if Superseding(v).Some? && !v.requiresConfirmation then [Reference("belief", Superseding(v).value)] else [])
    && (forall p <- v.payloads :: p.BeliefUpdate? && v.operation != SupersedeTarget ==>
          && outputs == [SourceRef("atomic_belief", p.update.target)]
          && first.refs != [] && first.refs[0] == Reference("belief", p.update.target)
          && if v.operation == Strengthen && !v.requiresConfirmation
             then forall ref :: ref in first.refs[1..] <==> IsEvidence(ref, c) else |first.refs| == 1)
  }

  lemma OperationReports(env: Env, s: Tables, v: Validated, c: Call)
    requires Applicable(env.words, v, c.ctx) && OperationEffects(env, s, v, c.ctx, c.run, c.ids(0), c.now).Ok?
    ensures var e := OperationEffects(env, s, v, c.ctx, c.run, c.ids(0), c.now).value;
            |e.audit| == 1 && ReportsOperation(e.audit[0], e.outputs, v, c)
  {
    forall ref
      ensures ref in AttachedSources(c.ctx, c.run) <==> IsEvidence(ref, c)
    {
      AttachedIsEvidence(c, ref);
    }
    if HasDraft(v.operation) {
      BuiltSaysDraft(env, DraftOf(v, c.ctx, env.words), v, Confirms(v), c, c.ids(0), SupersededTarget(v, c.ctx, env.words));
      if v.operation == SupersedeTarget {
        assert v.payloads == [v.payloads[0], v.payloads[1]];
      } else {
        assert v.payloads == [v.payloads[0]];
      }
    } else {
      assert v.payloads == [v.payloads[0]];
    }
  }

  lemma ArchivingReports(env: Env, s: Tables, s1: Tables, v: Validated, c: Call, r: AuditRecord)
    requires RowsAgree(env.lx, s) && RowsAgree(env.lx, s1) && Applicable(env.words, v, c.ctx)
    requires NotStored(s, c.ids(0)) && SourceRef("atomic_belief", c.ids(0)) !in c.ctx.sourceRefs
    requires OthersKept(s, s1, Targets(v)) && OnlyActivates(s, s1, c.ids(0))
    ensures r in ArchiveAudit(ArchiveWrites(env, s1, c.ctx.sourceRefs, Protected(v, c.ctx, env.words), c.now), c.now) <==>
            exists id :: r == ArchivedRecord(id, c.now) && ListedDraft(s, c.ctx.sourceRefs, id) && id !in Targets(v)
  {
    var spared := Protected(v, c.ctx, env.words);
    var ws := ArchiveWrites(env, s1, c.ctx.sourceRefs, spared, c.now);
    TargetsAreProtected(v, c.ctx, env.words);
    ArchiveAuditsMarks(ws, c.now, r);
    if w :| w in ws && w.Mark? && r == ArchivedRecord(w.id, c.now) {
      ArchivesAreMarks(env, s1, c.ctx.sourceRefs, spared, c.now, w);
    }
    if id :| r == ArchivedRecord(id, c.now) && ListedDraft(s, c.ctx.sourceRefs, id) && id !in Targets(v) {
      ArchivesAreMarks(env, s1, c.ctx.sourceRefs, spared, c.now, Mark(id, Archived, c.now));
    }
  }

  /** No stored belief becomes Active, nor any new one but under this id. */
  ghost predicate OnlyActivates(s: Tables, s': Tables, id: Id) {
    forall other :: IsActive(s', AtomicTable, other) && other != id ==> IsActive(s, AtomicTable, other)
  }

  /** What an accepted consolidation answer adds to the audit: the operation's own record first, and then
      exactly one kind of record, one for each draft it archived. */
  lemma ConsolidationReports(env: Env, db: Db, raw: Raw, c: Call, v: Validated, r: AuditRecord)
    requires RowsAgree(env.lx, db.tables) && DrawsNewIds(db.tables, Answer(v, c))
    requires Decode(env, raw, c.ctx) == Ok(v) && IsConsolidating(c.ctx.stage) && Answered(env, db, raw, c).1.Accepted?
    ensures var (db', out) := Answered(env, db, raw, c);
            && db.audit < db'.audit && ReportsOperation(db'.audit[|db.audit|], out.outputs, v, c)
            && (r in db'.audit[|db.audit| + 1..] <==>
                exists id :: r == ArchivedRecord(id, c.now) && ListedDraft(db.tables, c.ctx.sourceRefs, id) && id !in Targets(v))
  {
    AcceptedCommits(env, db, raw, c, v);
    ArchiveIsAudited(env, db.tables, v, c, r);
    var db', e := Answered(env, db, raw, c).0, ConsolidationEffects(env, db.tables, v, c.ctx, c.run, c.ids(0), c.now).value;
    assert db'.audit[|db.audit|..] == e.audit && db'.audit[|db.audit| + 1..] == e.audit[1..];
  }

  lemma ArchiveIsAudited(env: Env, s: Tables, v: Validated, c: Call, r: AuditRecord)
    requires RowsAgree(env.lx, s) && Applicable(env.words, v, c.ctx)
    requires NotStored(s, c.ids(0)) && SourceRef("atomic_belief", c.ids(0)) !in c.ctx.sourceRefs
    requires ConsolidationEffects(env, s, v, c.ctx, c.run, c.ids(0), c.now).Ok?
    ensures var e := ConsolidationEffects(env, s, v, c.ctx, c.run, c.ids(0), c.now).value;
            && e.audit != [] && ReportsOperation(e.audit[0], e.outputs, v, c)
            && (r in e.audit[1..] <==>
                exists id :: r == ArchivedRecord(id, c.now) && ListedDraft(s, c.ctx.sourceRefs, id) && id !in Targets(v))
  {
    var e := OperationEffects(env, s, v, c.ctx, c.run, c.ids(0), c.now).value;
    var s1 := WroteAll(env.lx, s, e.writes);
    OperationReports(env, s, v, c);
    OperationLeaves(env, s, v, c);
    OperationRun(env, s, v, c.ctx, c.run, c.ids(0), c.now);
    ArchivingReports(env, s, s1, v, c, r);
  }
}

/** The write boundary of cognition state: the transaction that accepts one background answer. */
module StateService {
  import opened Common
  import opened JsonValues
  import opened Beliefs
  import opened BeliefIndexes
  import opened BeliefStore
  import opened Contract
  import opened Ledger
  import opened Acceptance

  /** Everything the transaction may change. */
  datatype Db = Db(tables: Tables, audit: seq<AuditRecord>, books: Books)

  /** `Crashed` stands for every error other than the contract's: it passes through uncaught. */
  datatype Outcome = Accepted(outputs: seq<SourceRef>) | Rejected(why: string) | Crashed(why: string)

  /** The call's own arguments. `ids` are the fresh ids in the order they are drawn. */
  datatype Call = Call(
    ctx: Context, window: string, run: Option<string>, checkpoint: Option<string>, ids: nat -> Id, now: Time)

  // ---- What is written -------------------------------------------------------------------

  function AuditKind(d: Draft): string {
    if d.kind.OfMemory? then "background_atomic_belief_write" else "background_summary_belief_write"
  }

  function OutputType(d: Draft): string {
    if d.kind.OfMemory? then "atomic_belief" else "summary_belief"
  }

  function ThenRest(b: Belief, record: AuditRecord, output: SourceRef, rest: Result<Effects, Failure>): Result<Effects, Failure> {
    match rest
    case Err(e) => Err(e)
    case Ok(r) => Ok(Effects([Put(b)] + r.writes, [record] + r.audit, [output] + r.outputs))
  }

  /** How payload `n` becomes a belief. */
  function Builder(env: Env, v: Validated, c: Call): nat -> Result<Belief, Failure> {
    (n: nat) =>
      if n >= |v.payloads| || v.payloads[n].BeliefUpdate? then Err(OtherFailure("no draft"))
      else BeliefFromDraft(env, v.payloads[n].draft, v, v.requiresConfirmation, c.ctx, c.run, c.ids(n), c.now, None)
  }

  /** The writes for payloads `n` and later, in stages that only create. */
  function CreateEffects(build: nat -> Result<Belief, Failure>, payloads: seq<Payload>, now: Time, n: nat): Result<Effects, Failure>
    requires n <= |payloads| && forall p <- payloads :: !p.BeliefUpdate?
    decreases |payloads| - n
  {
    if n == |payloads| then Ok(Effects([], [], []))
    else
      match build(n)
      case Err(e) => Err(e)
      case Ok(b) =>
        var d := payloads[n].draft;
        ThenRest(b, AuditRecord(AuditKind(d), [BeliefReference(b.id)], now), SourceRef(OutputType(d), b.id),
                 CreateEffects(build, payloads, now, n + 1))
  }

  function AnswerEffects(env: Env, s: Tables, v: Validated, c: Call): Result<Effects, Failure>
    requires IsConsolidating(c.ctx.stage) ==> Applicable(env.words, v, c.ctx)
  {
    if IsConsolidating(c.ctx.stage) then ConsolidationEffects(env, s, v, c.ctx, c.run, c.ids(0), c.now)
    else if exists p <- v.payloads :: p.BeliefUpdate? then
      Err(ContractFailure("belief_update persistence is reserved for consolidation stages"))
    else CreateEffects(Builder(env, v, c), v.payloads, c.now, 0)
  }

  predicate Known(l: Books, c: Call) {
    c.window in l.windows && (c.run.Some? ==> c.run.value in l.runs)
  }

  function BooksAccepted(l: Books, c: Call, outputs: seq<SourceRef>): Books
    requires Known(l, c)
  {
    var l1 := AllProcessed(l, c.ctx.sourceRefs, c.ctx.stage, TargetUnit(c.ctx), c.checkpoint, c.now);
    AllProcessedRows(l, c.ctx.sourceRefs, c.ctx.stage, TargetUnit(c.ctx), c.checkpoint, c.now);
    var l2 := WindowEnded(l1, c.window, Processed, None, c.now);
    if c.run.Some? then RunEnded(l2, c.run.value, RunSucceeded, outputs, None, c.now) else l2
  }

  function BooksRejected(l: Books, c: Call, why: string): Books
    requires Known(l, c)
  {
    var l1 := AllFailed(l, c.ctx.sourceRefs, c.ctx.stage, TargetUnit(c.ctx), why, c.now);
    AllFailedRows(l, c.ctx.sourceRefs, c.ctx.stage, TargetUnit(c.ctx), why, c.now);
    var l2 := WindowEnded(l1, c.window, Failed, Some(why), c.now);
    if c.run.Some? then RunEnded(l2, c.run.value, RunFailed, [], Some(why), c.now) else l2
  }

  function Rejection(db: Db, c: Call, why: string): (Db, Outcome) {
    if Known(db.books, c) then (db.(books := BooksRejected(db.books, c, why)), Rejected(why))
    else (db, Crashed("unknown window or run"))
  }

  /** What decoding makes of the answer's text: no JSON, which the contract reports; JSON that cannot be
      held, as an integer of too many digits or nesting too deep, which it does not; or a document. */
  datatype Raw = NotJson | Unreadable | Document(output: Json)

  function Decode(env: Env, raw: Raw, ctx: Context): (r: Result<Validated, Failure>)
    ensures r.Ok? && IsConsolidating(ctx.stage) ==> Applicable(env.words, r.value, ctx)
    ensures r.Ok? ==> Creatable(env.words, r.value, ctx)
    ensures r.Err? ==> (r.error.OtherFailure? <==> raw.Unreadable?)
    ensures r.Ok? <==> raw.Document? && ValidateOutput(env.words, raw.output, ctx).Ok?
  {
    match raw
    case NotJson => Err(ContractFailure("malformed JSON"))
    case Unreadable => Err(OtherFailure("unreadable JSON"))
    case Document(output) =>
      match ValidateOutput(env.words, output, ctx)
      case Err(why) => Err(ContractFailure(why))
      case Ok(v) => Ok(v)
  }

  /** How the call ends once the effects of the answer, or what is wrong with it, are known. */
  function Settled(env: Env, db: Db, c: Call, effects: Result<Effects, Failure>): (Db, Outcome) {
    match effects
    case Err(ContractFailure(why)) => Rejection(db, c, why)
    case Err(OtherFailure(why)) => (db, Crashed(why))
    case Ok(e) =>
      if Known(db.books, c) then
        (Db(WroteAll(env.lx, db.tables, e.writes), db.audit + e.audit, BooksAccepted(db.books, c, e.outputs)),
         Accepted(e.outputs))
      else (db, Crashed("unknown window or run"))
  }

  /** What the answer's text comes to. */
  function RawEffects(env: Env, s: Tables, raw: Raw, c: Call): Result<Effects, Failure> {
    match Decode(env, raw, c.ctx)
    case Err(e) => Err(e)
    case Ok(v) => AnswerEffects(env, s, v, c)
  }

  /** The whole call. */
  function Answered(env: Env, db: Db, raw: Raw, c: Call): (Db, Outcome) {
    Settled(env, db, c, RawEffects(env, db.tables, raw, c))
  }

  // ---- All or nothing --------------------------------------------------------------------

  /** The unit the window names, or else its session, or else the whole. */
  predicate IsUnit(ctx: Context, unit: string) {
    if ctx.targetUnit.Some? && ctx.targetUnit.value != "" then unit == ctx.targetUnit.value
    else if ctx.sessionId.Some? && ctx.sessionId.value != "" then unit == "session:" + ctx.sessionId.value
    else unit == "global"
  }

  predicate MineSource(k: SourceKey, c: Call) {
    k.ref in c.ctx.sourceRefs && k.stage == c.ctx.stage && IsUnit(c.ctx, k.unit)
  }

  /** Ledger rows that are not the call's own sources, window and run. */
  ghost predicate OthersUntouched(l: Books, l': Books, c: Call) {
    && (forall k :: !MineSource(k, c) ==>
          (k in l'.sources <==> k in l.sources) && (k in l.sources ==> l'.sources[k] == l.sources[k]))
    && (forall id :: id != c.window ==>
          (id in l'.windows <==> id in l.windows) && (id in l.windows ==> l'.windows[id] == l.windows[id]))
    && (forall id :: Some(id) != c.run ==>
          (id in l'.runs <==> id in l.runs) && (id in l.runs ==> l'.runs[id] == l.runs[id]))
  }

  /** The call's window has ended, with this status and for this reason if any, and so has its run. */
  ghost predicate MineEnded(l: Books, l': Books, c: Call, window: Progress, run: RunStatus, outputs: seq<SourceRef>, why: Option<string>) {
    && c.window in l.windows && c.window in l'.windows
    && l'.windows[c.window] == WindowRow(window, Some(c.now), l.windows[c.window].claimedBy, why)
    && (c.run.Some? ==> c.run.value in l'.runs && l'.runs[c.run.value] == RunRow(run, Some(c.now), outputs, why))
  }

  function RowOf(l: Books, k: SourceKey): Option<SourceRow> {
    if k in l.sources then Some(l.sources[k]) else None
  }

  ghost predicate MineAccepted(l: Books, l': Books, c: Call, outputs: seq<SourceRef>) {
    && (forall k :: MineSource(k, c) ==> k in l'.sources && IsProcessed(RowOf(l, k), l'.sources[k], c.checkpoint, c.now))
    && MineEnded(l, l', c, Processed, RunSucceeded, outputs, None)
  }

  ghost predicate MineRejected(l: Books, l': Books, c: Call, why: string) {
    && (forall k :: MineSource(k, c) ==> k in l'.sources && HasFailed(RowOf(l, k), l'.sources[k], why, c.now))
    && MineEnded(l, l', c, Failed, RunFailed, [], Some(why))
  }

  lemma AcceptedBooks(l: Books, c: Call, outputs: seq<SourceRef>)
    requires Known(l, c)
    ensures MineAccepted(l, BooksAccepted(l, c, outputs), c, outputs)
    ensures OthersUntouched(l, BooksAccepted(l, c, outputs), c)
  {
    AllProcessedRows(l, c.ctx.sourceRefs, c.ctx.stage, TargetUnit(c.ctx), c.checkpoint, c.now);
  }

  lemma RejectedBooks(l: Books, c: Call, why: string)
    requires Known(l, c)
    ensures MineRejected(l, BooksRejected(l, c, why), c, why)
    ensures OthersUntouched(l, BooksRejected(l, c, why), c)
  {
    AllFailedRows(l, c.ctx.sourceRefs, c.ctx.stage, TargetUnit(c.ctx), why, c.now);
  }

  /** What an outcome promises of the state before and after. */
  ghost predicate AllOrNothingHolds(db: Db, db': Db, out: Outcome, c: Call) {
    match out
    case Accepted(outputs) =>
      MineAccepted(db.books, db'.books, c, outputs) && OthersUntouched(db.books, db'.books, c)
    case Rejected(why) =>
      && db'.tables == db.tables && db'.audit == db.audit
      && MineRejected(db.books, db'.books, c, why) && OthersUntouched(db.books, db'.books, c)
    case Crashed(_) => db' == db
  }

  lemma RejectionHolds(db: Db, c: Call, why: string)
    ensures var (db', out) := Rejection(db, c, why); AllOrNothingHolds(db, db', out, c) && !out.Accepted?
  {
    if Known(db.books, c) {
      RejectedBooks(db.books, c, why);
    }
  }

  lemma SettledHolds(env: Env, db: Db, c: Call, effects: Result<Effects, Failure>)
    ensures var (db', out) := Settled(env, db, c, effects); AllOrNothingHolds(db, db', out, c)
    ensures Settled(env, db, c, effects).1.Accepted? <==> Known(db.books, c) && effects.Ok?
    ensures Settled(env, db, c, effects).1.Crashed? <==> !Known(db.books, c) || (effects.Err? && effects.error.OtherFailure?)
  {
    if effects.Err? && effects.error.ContractFailure? {
      RejectionHolds(db, c, effects.error.why);
    } else if effects.Ok? && Known(db.books, c) {
      AcceptedBooks(db.books, c, effects.value.outputs);
    }
  }

  /** All or nothing. Accepted: every source of the window and the window are Processed and the run
      Succeeded. Rejected by the contract, at whatever point: beliefs, indexes and audit are exactly as
      before and those sources, window and run are Failed, for the reason given. Either way no other ledger row changes.
      Any other error leaves everything as it was. */
  lemma AllOrNothing(env: Env, db: Db, raw: Raw, c: Call)
    ensures var (db', out) := Answered(env, db, raw, c); AllOrNothingHolds(db, db', out, c)
  {
    SettledHolds(env, db, c, RawEffects(env, db.tables, raw, c));
  }

  lemma {:induction false} CreateAppliesIff(build: nat -> Result<Belief, Failure>, payloads: seq<Payload>, now: Time, n: nat)
    requires n <= |payloads| && forall p <- payloads :: !p.BeliefUpdate?
    requires forall i :: n <= i < |payloads| && build(i).Err? ==> build(i).error.OtherFailure?
    ensures CreateEffects(build, payloads, now, n).Ok? <==> forall i :: n <= i < |payloads| ==> build(i).Ok?
    ensures var r := CreateEffects(build, payloads, now, n); r.Err? ==> r.error.OtherFailure?
    decreases |payloads| - n
  {
    if n < |payloads| {
      CreateAppliesIff(build, payloads, now, n + 1);
    }
  }

  lemma BuilderBuildsIff(env: Env, v: Validated, c: Call, n: nat)
    requires Lawful(env) && n < |v.payloads| && Creatable(env.words, v, c.ctx) && !v.payloads[n].BeliefUpdate?
    ensures var r := Builder(env, v, c)(n);
            (r.Ok? <==> !NamesNothing(v.payloads[n].draft)) && (r.Err? ==> r.error.OtherFailure?)
  {
    var p := v.payloads[n];
    assert p in v.payloads;
    DraftBuildsIff(env, p.draft, v, v.requiresConfirmation, c.ctx, c.run, c.ids(n), c.now, None);
  }

  /** No draft names its project by path separators only. */
  predicate DraftsResolve(v: Validated) {
    forall p <- v.payloads :: !p.BeliefUpdate? ==> !NamesNothing(p.draft)
  }

  predicate TargetsFound(env: Env, s: Tables, v: Validated, c: Call)
    requires IsConsolidating(c.ctx.stage) ==> Applicable(env.words, v, c.ctx)
  {
    if IsConsolidating(c.ctx.stage)
    then HasTarget(v.operation) ==> TargetActive(s, TargetOf(v, c.ctx, env.words))
    else forall p <- v.payloads :: !p.BeliefUpdate?
  }

  /** An applicable answer carries at most one draft. */
  lemma OnlyDraft(env: Env, v: Validated, ctx: Context)
    requires Applicable(env.words, v, ctx)
    ensures DraftsResolve(v) <==> (HasDraft(v.operation) ==> !NamesNothing(DraftOf(v, ctx, env.words)))
  {
    if v.operation == SupersedeTarget {
      assert v.payloads == [v.payloads[0], v.payloads[1]];
      assert v.payloads[1] in v.payloads;
    } else {
      assert v.payloads == [v.payloads[0]];
      assert v.payloads[0] in v.payloads;
    }
  }

  lemma ConsolidationFailsIff(env: Env, s: Tables, v: Validated, c: Call)
    requires Lawful(env) && IsConsolidating(c.ctx.stage) && Applicable(env.words, v, c.ctx)
    ensures var r := AnswerEffects(env, s, v, c);
            && (r.Err? && r.error.OtherFailure? <==> TargetsFound(env, s, v, c) && !DraftsResolve(v))
            && (r.Ok? <==> TargetsFound(env, s, v, c) && DraftsResolve(v))
  {
    ConsolidationAppliesIff(env, s, v, c.ctx, c.run, c.ids(0), c.now);
    OnlyDraft(env, v, c.ctx);
  }

  lemma CreationFailsIff(env: Env, s: Tables, v: Validated, c: Call)
    requires Lawful(env) && !IsConsolidating(c.ctx.stage) && Creatable(env.words, v, c.ctx)
    ensures var r := AnswerEffects(env, s, v, c);
            && (r.Err? && r.error.OtherFailure? <==> TargetsFound(env, s, v, c) && !DraftsResolve(v))
            && (r.Ok? <==> TargetsFound(env, s, v, c) && DraftsResolve(v))
  {
    if forall p <- v.payloads :: !p.BeliefUpdate? {
      var build := Builder(env, v, c);
      forall n: nat | n < |v.payloads|
        ensures build(n).Ok? <==> !NamesNothing(v.payloads[n].draft)
        ensures build(n).Err? ==> build(n).error.OtherFailure?
      {
        BuilderBuildsIff(env, v, c, n);
      }
      CreateAppliesIff(build, v.payloads, c.now, 0);
    }
  }

  lemma AnswerFailsIff(env: Env, s: Tables, v: Validated, c: Call)
    requires Lawful(env) && Creatable(env.words, v, c.ctx)
    requires IsConsolidating(c.ctx.stage) ==> Applicable(env.words, v, c.ctx)
    ensures var r := AnswerEffects(env, s, v, c);
            && (r.Err? && r.error.OtherFailure? <==> TargetsFound(env, s, v, c) && !DraftsResolve(v))
            && (r.Ok? <==> TargetsFound(env, s, v, c) && DraftsResolve(v))
  {
    if IsConsolidating(c.ctx.stage) {
      ConsolidationFailsIff(env, s, v, c);
    } else {
      CreationFailsIff(env, s, v, c);
    }
  }

  /** Exactly when the call ends in an error that records no failure: the window or run is unknown, the
      answer is JSON that cannot be held, or a valid answer names a project by a text of path separators
      only, which the contract does not check, while its targets are in order. */
  lemma CrashesIff(env: Env, db: Db, raw: Raw, c: Call)
    requires Lawful(env)
    ensures Answered(env, db, raw, c).1.Crashed? <==>
            || !Known(db.books, c) || raw.Unreadable?
            || (var v := Decode(env, raw, c.ctx);
                v.Ok? && TargetsFound(env, db.tables, v.value, c) && !DraftsResolve(v.value))
  {
    var effects := RawEffects(env, db.tables, raw, c);
    SettledHolds(env, db, c, effects);
    match Decode(env, raw, c.ctx)
    case Err(_) =>
    case Ok(v) => AnswerFailsIff(env, db.tables, v, c);
  }

  /** Exactly when the call is accepted: window and run are known, the text is an answer the contract
      accepts, its targets are in order and its drafts name their projects. */
  lemma AcceptedIff(env: Env, db: Db, raw: Raw, c: Call)
    requires Lawful(env)
    ensures Answered(env, db, raw, c).1.Accepted? <==>
            && Known(db.books, c)
            && var v := Decode(env, raw, c.ctx);
               v.Ok? && TargetsFound(env, db.tables, v.value, c) && DraftsResolve(v.value)
  {
    var effects := RawEffects(env, db.tables, raw, c);
    SettledHolds(env, db, c, effects);
    match Decode(env, raw, c.ctx)
    case Err(_) =>
    case Ok(v) => AnswerFailsIff(env, db.tables, v, c);
  }

  /** One more source archived or passed over, seen from the writes made so far. */
  lemma ArchiveStep(env: Env, s: Tables, done: seq<Write>, refs: seq<SourceRef>, spared: Option<Id>, now: Time)
    requires refs != []
    ensures var s1 := WroteAll(env.lx, s, done);
            var w := Mark(refs[0].sourceId, Archived, now);
            if IsSpentDraft(s1, refs[0], spared)
            then && WroteAll(env.lx, s, done + [w]) == Wrote(env.lx, s1, w)
                 && done + [w] + ArchiveWrites(env, Wrote(env.lx, s1, w), refs[1..], spared, now)
                    == done + ArchiveWrites(env, s1, refs, spared, now)
                 && ArchiveAudit(done + [w], now) == ArchiveAudit(done, now) + [ArchiveRecord(refs[0].sourceId, now)]
            else ArchiveWrites(env, s1, refs, spared, now) == ArchiveWrites(env, s1, refs[1..], spared, now)
  {
    var s1 := WroteAll(env.lx, s, done);
    var w := Mark(refs[0].sourceId, Archived, now);
    RunsJoin(env.lx, s, done, [w]);
    WroteOne(env.lx, s1, w);
    var rest := ArchiveWrites(env, Wrote(env.lx, s1, w), refs[1..], spared, now);
    assert done + [w] + rest == done + ([w] + rest);
  }

  /** The writes made once source `i` is passed, and what is left to do then. */
  lemma ArchiveNext(env: Env, s: Tables, done: seq<Write>, refs: seq<SourceRef>, i: nat, spared: Option<Id>, now: Time, goal: seq<Write>)
    returns (done': seq<Write>)
    requires i < |refs| && done + ArchiveWrites(env, WroteAll(env.lx, s, done), refs[i..], spared, now) == goal
    ensures var s1, w := WroteAll(env.lx, s, done), Mark(refs[i].sourceId, Archived, now);
            var s2 := WroteAll(env.lx, s, done');
            && s2 == (if IsSpentDraft(s1, refs[i], spared) then Wrote(env.lx, s1, w) else s1)
            && ArchiveAudit(done', now) == ArchiveAudit(done, now) + (if IsSpentDraft(s1, refs[i], spared) then [ArchiveRecord(refs[i].sourceId, now)] else [])
            && done' + ArchiveWrites(env, s2, refs[i + 1..], spared, now) == goal
  {
    var s1 := WroteAll(env.lx, s, done);
    ArchiveStep(env, s, done, refs[i..], spared, now);
    assert refs[i..][0] == refs[i] && refs[i..][1..] == refs[i + 1..];
    done' := if IsSpentDraft(s1, refs[i], spared) then done + [Mark(refs[i].sourceId, Archived, now)] else done;
  }

  /** The tables, the audit and the outcome are those the effects describe; after an error the tables
      and the audit may be anything. */
  ghost predicate Carried(
    env: Env, tables: Tables, audit: seq<AuditRecord>, effects: Result<Effects, Failure>,
    tables': Tables, audit': seq<AuditRecord>, r: Result<seq<SourceRef>, Failure>)
  {
    match effects
    case Err(e) => r == Err(e)
    case Ok(e) => r == Ok(e.outputs) && tables' == WroteAll(env.lx, tables, e.writes) && audit' == audit + e.audit
  }

  lemma CarriedThen(
    env: Env, s: Tables, audit: seq<AuditRecord>, e: Effects, s1: Tables, audit1: seq<AuditRecord>, outputs: seq<SourceRef>,
    ws: seq<Write>, more: seq<AuditRecord>)
    requires Carried(env, s, audit, Ok(e), s1, audit1, Ok(outputs))
    ensures Carried(env, s, audit, Ok(Effects(e.writes + ws, e.audit + more, e.outputs)),
                    WroteAll(env.lx, s1, ws), audit1 + more, Ok(outputs))
  {
    RunsJoin(env.lx, s, e.writes, ws);
    assert audit + (e.audit + more) == audit1 + more;
  }

  /** The operation first, then the archiving. */
  lemma ArchiveCarried(
    env: Env, s: Tables, audit: seq<AuditRecord>, e: Effects, refs: seq<SourceRef>, spared: Option<Id>, now: Time,
    s1: Tables, audit1: seq<AuditRecord>, outputs: seq<SourceRef>)
    requires Carried(env, s, audit, Ok(e), s1, audit1, Ok(outputs))
    ensures var ws := ArchiveWrites(env, s1, refs, spared, now);
            Carried(env, s, audit, Ok(ThenArchive(env, s, e, refs, spared, now)),
                    WroteAll(env.lx, s1, ws), audit1 + ArchiveAudit(ws, now), Ok(outputs))
  {
    var ws := ArchiveWrites(env, s1, refs, spared, now);
    CarriedThen(env, s, audit, e, s1, audit1, outputs, ws, ArchiveAudit(ws, now));
  }

  /** From here, doing `rest` ends as `goal` does from the start. */
  ghost predicate Continues(
    env: Env, s: Tables, audit: seq<AuditRecord>, goal: Result<Effects, Failure>,
    s1: Tables, audit1: seq<AuditRecord>, outputs: seq<SourceRef>, rest: Result<Effects, Failure>)
  {
    match rest
    case Err(e) => goal == Err(e)
    case Ok(r) =>
      && goal.Ok?
      && outputs + r.outputs == goal.value.outputs
      && audit1 + r.audit == audit + goal.value.audit
      && WroteAll(env.lx, s1, r.writes) == WroteAll(env.lx, s, goal.value.writes)
  }

  lemma ContinuesStart(env: Env, s: Tables, audit: seq<AuditRecord>, goal: Result<Effects, Failure>)
    ensures Continues(env, s, audit, goal, s, audit, [], goal)
  {
  }

  lemma ContinuesEnd(
    env: Env, s: Tables, audit: seq<AuditRecord>, goal: Result<Effects, Failure>,
    s1: Tables, audit1: seq<AuditRecord>, outputs: seq<SourceRef>)
    requires Continues(env, s, audit, goal, s1, audit1, outputs, Ok(Effects([], [], [])))
    ensures Carried(env, s, audit, goal, s1, audit1, Ok(outputs))
  {
    assert outputs + [] == outputs;
    assert audit1 + [] == audit1;
  }

  lemma ContinuesStep(
    env: Env, s: Tables, audit: seq<AuditRecord>, goal: Result<Effects, Failure>,
    s1: Tables, audit1: seq<AuditRecord>, outputs: seq<SourceRef>,
    b: Belief, record: AuditRecord, output: SourceRef, rest: Result<Effects, Failure>)
    requires Continues(env, s, audit, goal, s1, audit1, outputs, ThenRest(b, record, output, rest))
    ensures Continues(env, s, audit, goal, Wrote(env.lx, s1, Put(b)), audit1 + [record], outputs + [output], rest)
  {
    if rest.Ok? {
      var r := rest.value;
      assert ([Put(b)] + r.writes)[1..] == r.writes;
      assert outputs + [output] + r.outputs == outputs + ([output] + r.outputs);
      assert audit1 + [record] + r.audit == audit1 + ([record] + r.audit);
    }
  }

  // ---- The service -----------------------------------------------------------------------

  class CognitionStateStore {
    const env: Env
    const beliefs: BeliefProjection
    const ledger: ProcessingLedger
    var audit: seq<AuditRecord>

    ghost predicate Valid() {
      beliefs.lx == env.lx
    }

    ghost function State(): Db
      reads this, beliefs, ledger
    {
      Db(beliefs.State(), audit, ledger.State())
    }

    constructor (env: Env)
      ensures Valid() && fresh(beliefs) && fresh(ledger)
      ensures State() == Db(EMPTY, [], Books(map[], map[], map[]))
    {
      this.env := env;
      beliefs := new BeliefProjection(env.lx);
      ledger := new ProcessingLedger();
      audit := [];
    }

    method Audit(kind: string, refs: seq<Reference>, now: Time)
      modifies this`audit
      ensures audit == old(audit) + [AuditRecord(kind, refs, now)]
    {
      audit := audit + [AuditRecord(kind, refs, now)];
    }

    method WriteBelief(b: Belief, kind: string, now: Time)
      requires Valid()
      modifies this`audit, beliefs
      ensures beliefs.State() == Wrote(env.lx, old(beliefs.State()), Put(b))
      ensures audit == old(audit) + [AuditRecord(kind, [BeliefReference(b.id)], now)]
    {
      beliefs.Upsert(b);
      Audit(kind, [BeliefReference(b.id)], now);
    }

    method SupersedeBeliefs(olds: seq<Id>, b: Belief, kind: string, now: Time)
      requires Valid()
      modifies this`audit, beliefs
      ensures beliefs.State() == Wrote(env.lx, old(beliefs.State()), Supersede(olds, b, now))
      ensures audit == old(audit)
                       + [AuditRecord(kind, [BeliefReference(b.id)] + seq(|olds|, i requires 0 <= i < |olds| => BeliefReference(olds[i])), now)]
    {
      beliefs.SupersedeMany(olds, b, now);
      Audit(kind, [BeliefReference(b.id)] + seq(|olds|, i requires 0 <= i < |olds| => BeliefReference(olds[i])), now);
    }

    method MarkBelief(id: Id, lifecycle: Lifecycle, kind: string, now: Time)
      requires Valid()
      modifies this`audit, beliefs
      ensures beliefs.State() == Wrote(env.lx, old(beliefs.State()), Mark(id, lifecycle, now))
      ensures audit == old(audit) + [AuditRecord(kind, [BeliefReference(id)], now)]
    {
      beliefs.MarkLifecycle(id, lifecycle, now);
      Audit(kind, [BeliefReference(id)], now);
    }

    /** One reaffirmation per source, audited once when the belief was there. */
    method ReaffirmBelief(id: Id, sources: seq<Reference>, kind: string, now: Time)
      requires Valid() && sources != []
      requires TargetActive(beliefs.State(), id)
      modifies this`audit, beliefs
      ensures beliefs.State() == WroteAll(env.lx, old(beliefs.State()), ReaffirmWrites(id, sources, now))
      ensures audit == old(audit) + [AuditRecord(kind, [BeliefReference(id)] + sources, now)]
    {
      var i := 0;
      ghost var all := ReaffirmWrites(id, sources, now);
      while i < |sources|
        invariant 0 <= i <= |sources|
        invariant WroteAll(env.lx, beliefs.State(), all[i..]) == WroteAll(env.lx, old(beliefs.State()), all)
        invariant audit == old(audit)
      {
        assert all[i..][1..] == all[i + 1..] && all[i..][0] == Reaffirm(id, sources[i], now);
        var updated := beliefs.Reaffirm(id, sources[i], now);
        i := i + 1;
      }
      Audit(kind, [BeliefReference(id)] + sources, now);
    }

    /** Writes the belief built from the answer's draft, over the target it supersedes, if any. */
    method ApplyDraft(b: Belief, over: Option<Id>, now: Time) returns (outputs: seq<SourceRef>)
      requires Valid()
      modifies this`audit, beliefs
      ensures var e := DraftEffects(b, over, now);
              && outputs == e.outputs
              && beliefs.State() == WroteAll(env.lx, old(beliefs.State()), e.writes)
              && audit == old(audit) + e.audit
    {
      var kind := "background_consolidation_operation";
      if over.Some? {
        assert seq(1, i requires 0 <= i < 1 => BeliefReference([over.value][i])) == [BeliefReference(over.value)];
        WroteOne(env.lx, beliefs.State(), Supersede([over.value], b, now));
        SupersedeBeliefs([over.value], b, kind, now);
      } else {
        WroteOne(env.lx, beliefs.State(), Put(b));
        WriteBelief(b, kind, now);
        assert [BeliefReference(b.id)] + [] == [BeliefReference(b.id)];
      }
      return [SourceRef("atomic_belief", b.id)];
    }

    method ApplyToTarget(op: Operation, confirm: bool, target: Id, sources: seq<Reference>, now: Time)
      returns (outputs: seq<SourceRef>)
      requires Valid() && sources != [] && TargetActive(beliefs.State(), target)
      modifies this`audit, beliefs
      ensures var e := TargetEffects(op, confirm, target, sources, now);
              && outputs == e.outputs
              && beliefs.State() == WroteAll(env.lx, old(beliefs.State()), e.writes)
              && audit == old(audit) + e.audit
    {
      var kind := "background_consolidation_operation";
      assert [BeliefReference(target)] + [] == [BeliefReference(target)];
      if confirm {
        Audit(kind, [BeliefReference(target)], now);
      } else if op == Strengthen {
        ReaffirmBelief(target, sources, kind, now);
      } else {
        var lifecycle := if op == Retract then Retracted else Archived;
        WroteOne(env.lx, beliefs.State(), Mark(target, lifecycle, now));
        MarkBelief(target, lifecycle, kind, now);
      }
      return [SourceRef("atomic_belief", target)];
    }

    /** The operation part of a consolidation answer. On an error the tables are whatever they are. */
    method ApplyOperation(v: Validated, c: Call) returns (r: Result<seq<SourceRef>, Failure>)
      requires Valid() && Applicable(env.words, v, c.ctx)
      modifies this`audit, beliefs
      ensures Carried(env, old(beliefs.State()), old(audit), OperationEffects(env, old(beliefs.State()), v, c.ctx, c.run, c.ids(0), c.now), beliefs.State(), audit, r)
    {
      if HasTarget(v.operation) {
        var found := beliefs.GetBelief(TargetOf(v, c.ctx, env.words));
        if found.None? || found.value.kind.OfSummary? || found.value.lifecycle != Active {
          return Err(ContractFailure("target is not an active atomic belief"));
        }
      }
      if HasDraft(v.operation) {
        var built := BuiltBelief(env, v, c.ctx, c.run, c.ids(0), c.now);
        if built.Err? {
          return Err(built.error);
        }
        var over := if Confirms(v) then None else SupersededTarget(v, c.ctx, env.words);
        var outputs := ApplyDraft(built.value, over, c.now);
        return Ok(outputs);
      }
      var outputs := ApplyToTarget(
        v.operation, Confirms(v), TargetOf(v, c.ctx, env.words), AttachedSources(c.ctx, c.run), c.now);
      return Ok(outputs);
    }

    /** Archives one listed source if it is an Active extracted draft other than the spared one. */
    method ArchiveIfSpent(ref: SourceRef, spared: Option<Id>, now: Time)
      requires Valid()
      modifies this`audit, beliefs
      ensures if IsSpentDraft(old(beliefs.State()), ref, spared)
              then && beliefs.State() == Wrote(env.lx, old(beliefs.State()), Mark(ref.sourceId, Archived, now))
                   && audit == old(audit) + [ArchiveRecord(ref.sourceId, now)]
              else beliefs.State() == old(beliefs.State()) && audit == old(audit)
    {
      if ref.sourceType != "atomic_belief" || spared == Some(ref.sourceId) {
        return;
      }
      var found := beliefs.GetBelief(ref.sourceId);
      if found.None? || found.value.kind.OfSummary? || found.value.stage != BackgroundExtracted || found.value.lifecycle != Active {
        return;
      }
      MarkBelief(ref.sourceId, Archived, "background_consolidation_source_archive", now);
    }

    /** Archives the window's spent drafts, one source after the other. */
    method ArchiveSpentDrafts(ctx: Context, spared: Option<Id>, now: Time)
      requires Valid()
      modifies this`audit, beliefs
      ensures var ws := ArchiveWrites(env, old(beliefs.State()), ctx.sourceRefs, spared, now);
              && beliefs.State() == WroteAll(env.lx, old(beliefs.State()), ws)
              && audit == old(audit) + ArchiveAudit(ws, now)
    {
      ghost var before, done: seq<Write>, noted := beliefs.State(), [], audit;
      var refs := ctx.sourceRefs;
      ghost var goal := ArchiveWrites(env, before, refs, spared, now);
      assert refs[0..] == refs;
      var i := 0;
      while i < |refs|
        invariant 0 <= i <= |refs|
        invariant beliefs.State() == WroteAll(env.lx, before, done)
        invariant done + ArchiveWrites(env, beliefs.State(), refs[i..], spared, now) == goal
        invariant audit == noted && noted == old(audit) + ArchiveAudit(done, now)
      {
        ghost var next := ArchiveNext(env, before, done, refs, i, spared, now, goal);
        ArchiveIfSpent(refs[i], spared, now);
        noted := old(audit) + ArchiveAudit(next, now);
        done := next;
        i := i + 1;
      }
      assert refs[i..] == [];
      assert done + [] == done;
    }

    method ApplyConsolidation(v: Validated, c: Call) returns (r: Result<seq<SourceRef>, Failure>)
      requires Valid() && Applicable(env.words, v, c.ctx)
      modifies this`audit, beliefs
      ensures Carried(env, old(beliefs.State()), old(audit), ConsolidationEffects(env, old(beliefs.State()), v, c.ctx, c.run, c.ids(0), c.now), beliefs.State(), audit, r)
    {
      r := ApplyOperation(v, c);
      if r.Ok? {
        ArchiveCarried(
          env, old(beliefs.State()), old(audit),
          OperationEffects(env, old(beliefs.State()), v, c.ctx, c.run, c.ids(0), c.now).value,
          c.ctx.sourceRefs, Protected(v, c.ctx, env.words), c.now, beliefs.State(), audit, r.value);
        ArchiveSpentDrafts(c.ctx, Protected(v, c.ctx, env.words), c.now);
      }
    }

    /** Stages that only create beliefs write payload after payload; a failure leaves the earlier
        payloads written until the transaction is rolled back. */
    method ApplyCreates(build: nat -> Result<Belief, Failure>, payloads: seq<Payload>, now: Time)
      returns (r: Result<seq<SourceRef>, Failure>)
      requires Valid() && forall p <- payloads :: !p.BeliefUpdate?
      modifies this`audit, beliefs
      ensures Carried(env, old(beliefs.State()), old(audit), CreateEffects(build, payloads, now, 0), beliefs.State(), audit, r)
    {
      ghost var before, goal := beliefs.State(), CreateEffects(build, payloads, now, 0);
      ContinuesStart(env, before, audit, goal);
      var outputs: seq<SourceRef> := [];
      var n := 0;
      while n < |payloads|
        invariant 0 <= n <= |payloads|
        invariant Continues(env, before, old(audit), goal, beliefs.State(), audit, outputs, CreateEffects(build, payloads, now, n))
      {
        var built, kind := build(n), AuditKind(payloads[n].draft);
        if built.Err? {
          return Err(built.error);
        }
        var b := built.value;
        var output := SourceRef(OutputType(payloads[n].draft), b.id);
        ContinuesStep(env, before, old(audit), goal, beliefs.State(), audit, outputs,
                      b, AuditRecord(kind, [BeliefReference(b.id)], now), output, CreateEffects(build, payloads, now, n + 1));
        WriteBelief(b, kind, now);
        outputs := outputs + [output];
        n := n + 1;
      }
      ContinuesEnd(env, before, old(audit), goal, beliefs.State(), audit, outputs);
      return Ok(outputs);
    }

    method Apply(v: Validated, c: Call) returns (r: Result<seq<SourceRef>, Failure>)
      requires Valid() && (IsConsolidating(c.ctx.stage) ==> Applicable(env.words, v, c.ctx))
      modifies this`audit, beliefs
      ensures Carried(env, old(beliefs.State()), old(audit), AnswerEffects(env, old(beliefs.State()), v, c), beliefs.State(), audit, r)
    {
      if IsConsolidating(c.ctx.stage) {
        r := ApplyConsolidation(v, c);
      } else if exists p <- v.payloads :: p.BeliefUpdate? {
        r := Err(ContractFailure("belief_update persistence is reserved for consolidation stages"));
      } else {
        r := ApplyCreates(Builder(env, v, c), v.payloads, c.now);
      }
    }

    /** Marks the sources, then the window, then the run; false when the window or run is unknown. */
    method CloseAccepted(c: Call, outputs: seq<SourceRef>) returns (known: bool)
      modifies ledger
      ensures known == Known(old(ledger.State()), c)
      ensures known ==> ledger.State() == BooksAccepted(old(ledger.State()), c, outputs)
    {
      ghost var before := ledger.State();
      var refs, unit := c.ctx.sourceRefs, TargetUnit(c.ctx);
      AllProcessedRows(before, refs, c.ctx.stage, unit, c.checkpoint, c.now);
      var i := 0;
      while i < |refs|
        invariant 0 <= i <= |refs|
        invariant AllProcessed(ledger.State(), refs[i..], c.ctx.stage, unit, c.checkpoint, c.now)
                  == AllProcessed(before, refs, c.ctx.stage, unit, c.checkpoint, c.now)
      {
        assert refs[i..][0] == refs[i] && refs[i..][1..] == refs[i + 1..];
        ledger.MarkSourceProcessed(KeyOf(refs[i], c.ctx.stage, unit), c.checkpoint, c.now);
        i := i + 1;
      }
      known := ledger.MarkWindowEnded(c.window, Processed, None, c.now);
      if known && c.run.Some? {
        known := ledger.FinishRun(c.run.value, RunSucceeded, outputs, None, c.now);
      }
    }

    method CloseRejected(c: Call, why: string) returns (known: bool)
      modifies ledger
      ensures known == Known(old(ledger.State()), c)
      ensures known ==> ledger.State() == BooksRejected(old(ledger.State()), c, why)
    {
      ghost var before := ledger.State();
      var refs, unit := c.ctx.sourceRefs, TargetUnit(c.ctx);
      AllFailedRows(before, refs, c.ctx.stage, unit, why, c.now);
      var i := 0;
      while i < |refs|
        invariant 0 <= i <= |refs|
        invariant AllFailed(ledger.State(), refs[i..], c.ctx.stage, unit, why, c.now)
                  == AllFailed(before, refs, c.ctx.stage, unit, why, c.now)
      {
        assert refs[i..][0] == refs[i] && refs[i..][1..] == refs[i + 1..];
        ledger.MarkSourceEnded(KeyOf(refs[i], c.ctx.stage, unit), Failed, why, c.now);
        i := i + 1;
      }
      known := ledger.MarkWindowEnded(c.window, Failed, Some(why), c.now);
      if known && c.run.Some? {
        known := ledger.FinishRun(c.run.value, RunFailed, [], Some(why), c.now);
      }
    }

    /** A second transaction, for the ledger alone. */
    method Reject(c: Call, why: string) returns (out: Outcome)
      modifies ledger
      ensures out == Rejection(old(State()), c, why).1
      ensures State() == Rejection(old(State()), c, why).0
    {
      var books := ledger.Save();
      var known := CloseRejected(c, why);
      if known {
        return Rejected(why);
      }
      ledger.Restore(books);
      return Crashed("unknown window or run");
    }

    /** Applies a valid answer and closes its books in one transaction; on any failure everything is as
        before. No failure at all, with an error, is an unknown window or run. */
    method Commit(v: Validated, c: Call) returns (ok: bool, outputs: seq<SourceRef>, failure: Option<Failure>)
      requires Valid() && (IsConsolidating(c.ctx.stage) ==> Applicable(env.words, v, c.ctx))
      modifies this`audit, beliefs, ledger
      ensures var effects := AnswerEffects(env, old(State()).tables, v, c);
              && (ok <==> effects.Ok? && Known(old(State()).books, c))
              && (ok ==> outputs == effects.value.outputs && State() == Settled(env, old(State()), c, effects).0)
              && (!ok ==> State() == old(State()))
              && (!ok ==> failure == if effects.Err? then Some(effects.error) else None)
    {
      var tables := beliefs.Save();
      var books := ledger.Save();
      var audits := audit;
      var applied := Apply(v, c);
      if applied.Ok? {
        var known := CloseAccepted(c, applied.value);
        if known {
          return true, applied.value, None;
        }
      }
      beliefs.Restore(tables);
      ledger.Restore(books);
      audit := audits;
      return false, [], if applied.Err? then Some(applied.error) else None;
    }

    /** Accepts one background answer. A contract failure, at whatever point, is recorded afterwards. */
    method AcceptAnswer(raw: Raw, c: Call) returns (out: Outcome)
      requires Valid()
      modifies this`audit, beliefs, ledger
      ensures (State(), out) == Answered(env, old(State()), raw, c)
    {
      var decoded := Decode(env, raw, c.ctx);
      if decoded.Err? {
        match decoded.error
        case OtherFailure(why) => return Crashed(why);
        case ContractFailure(why) =>
          out := Reject(c, why);
          return;
      }
      var ok, outputs, failure := Commit(decoded.value, c);
      if ok {
        return Accepted(outputs);
      }
      match failure
      case None => out := Crashed("unknown window or run");
      case Some(OtherFailure(why)) => out := Crashed(why);
      case Some(ContractFailure(why)) => out := Reject(c, why);
    }
  }
}

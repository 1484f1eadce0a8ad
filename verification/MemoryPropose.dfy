/** Foreground memory updates proposed by the model: how one is planned, and what it may write. */
module MemoryPropose {
  import opened Common
  import opened Text
  import opened Beliefs
  import opened BeliefIndexes
  import opened BeliefReads
  import opened BeliefRuns
  import opened Contract
  import opened Acceptance

  datatype ProposalOp = AppendDistinct | Reinforce | Replace | Merge | Correct | RetractTargets

  /** A memory's scope is counterpart or global. */
  datatype Memory = Memory(kind: MemoryKind, content: string, evidence: string, forCounterpart: bool)

  /** One update as parsed; `malformed` when the schema checks found an error. */
  datatype Update = Update(
    op: ProposalOp, targets: seq<Id>, reviewed: seq<Id>, hint: string, memory: Option<Memory>, malformed: bool)

  /** What the turn provides. `squash` folds case and spaces; `related` is the candidate search's verdict
      that related Active beliefs exist; `guided` is the domain guidance's that confirmation is required. */
  datatype Ctx = Ctx(
    counterpart: Option<Reference>, userMessage: string, squash: string -> string,
    related: (Tables, Update) -> bool, guided: Tables -> bool)

  datatype Decision = Accepted | Pending | NeedsSelection | Rejected(why: string)

  datatype Plan = Plan(decision: Decision, op: ProposalOp, targets: seq<Id>, memory: Option<Memory>)

  function MemoryScope(m: Memory): Scope {
    if m.forCounterpart then CounterpartScope else GlobalScope
  }

  // ---- Targets ---------------------------------------------------------------------------

  predicate ScopeMatches(b: Belief, memory: Option<Memory>, ctx: Ctx) {
    && (memory.Some? ==> b.scope == MemoryScope(memory.value))
    && (b.scope == CounterpartScope ==> ctx.counterpart.Some? && ctx.counterpart.value in b.about)
  }

  predicate IsGoodTarget(s: Tables, id: Id, memory: Option<Memory>, ctx: Ctx) {
    match GetById(s, id)
    case None => false
    case Some(b) =>
      && b.kind.OfMemory? && b.lifecycle == Active && ScopeMatches(b, memory, ctx)
      && (memory.Some? ==> b.kind.memory == memory.value.kind)
  }

  predicate Distinct(ids: seq<Id>) {
    forall i, j :: 0 <= i < j < |ids| ==> ids[i] != ids[j]
  }

  function TargetProblem(s: Tables, id: Id, memory: Option<Memory>, ctx: Ctx): Option<string> {
    match GetById(s, id)
    case None => Some("target_not_found")
    case Some(b) =>
      if b.kind.OfSummary? then Some("target_not_atomic")
      else if b.lifecycle != Active then Some("target_not_active")
      else if !ScopeMatches(b, memory, ctx) then Some("target_scope_mismatch")
      else if memory.Some? && b.kind.memory != memory.value.kind then Some("target_type_mismatch")
      else None
  }

  function FirstProblem(s: Tables, ids: seq<Id>, memory: Option<Memory>, ctx: Ctx): Option<string> {
    if ids == [] then None
    else if TargetProblem(s, ids[0], memory, ctx).Some? then TargetProblem(s, ids[0], memory, ctx)
    else FirstProblem(s, ids[1..], memory, ctx)
  }

  lemma {:induction false} NoProblemIff(s: Tables, ids: seq<Id>, memory: Option<Memory>, ctx: Ctx)
    ensures FirstProblem(s, ids, memory, ctx).None? <==> forall id <- ids :: IsGoodTarget(s, id, memory, ctx)
  {
    if ids != [] {
      NoProblemIff(s, ids[1..], memory, ctx);
      assert ids == [ids[0]] + ids[1..];
      assert TargetProblem(s, ids[0], memory, ctx).None? <==> IsGoodTarget(s, ids[0], memory, ctx);
    }
  }

  /** Why the reviewed candidates or the targets of an update are not acceptable, if they are not. */
  function IdsProblem(s: Tables, u: Update, ctx: Ctx): Option<string> {
    if u.reviewed != [] && u.op != AppendDistinct then Some("reviewed_candidates_only_for_append_distinct")
    else if !Distinct(u.reviewed) then Some("duplicate_reviewed_candidate_ids")
    else if FirstProblem(s, u.reviewed, u.memory, ctx).Some? then FirstProblem(s, u.reviewed, u.memory, ctx)
    else if u.op == AppendDistinct && u.targets != [] then Some("append_distinct_uses_reviewed_candidate_ids")
    else if !Distinct(u.targets) then Some("duplicate_target_belief_ids")
    else FirstProblem(s, u.targets, u.memory, ctx)
  }

  // ---- Planning --------------------------------------------------------------------------

  /** The Active beliefs of the memory's kind and scope that say the same, as the about index or the
      whole table shows them. */
  function DuplicateIds(s: Tables, m: Memory, ctx: Ctx): (ids: set<Id>)
    ensures ids <= s.atomic.Keys
  {
    set id | id in s.atomic
             && s.atomic[id].lifecycle == Active
             && (m.forCounterpart && ctx.counterpart.Some? ==> AboutRow(AtomicTable, id, ctx.counterpart.value) in s.about)
             && s.atomic[id].scope == MemoryScope(m) && s.atomic[id].kind == OfMemory(m.kind)
             && ctx.squash(s.atomic[id].content) == ctx.squash(m.content)
  }

  ghost function PlanAppend(s: Tables, u: Update, m: Memory, ctx: Ctx): Plan {
    var duplicates := DuplicateIds(s, m, ctx);
    if duplicates != {} then Plan(Accepted, Reinforce, [First(s.atomic, duplicates)], Some(m))
    else if u.reviewed != [] then Plan(Accepted, AppendDistinct, [], Some(m))
    else if ctx.related(s, u) then Plan(NeedsSelection, AppendDistinct, [], Some(m))
    else Plan(Accepted, AppendDistinct, [], Some(m))
  }

  ghost function PlanUpdate(s: Tables, u: Update, ctx: Ctx): Plan {
    if u.malformed || (u.op != RetractTargets && u.memory.None?) then Plan(Rejected("invalid_schema"), u.op, [], u.memory)
    else if u.memory.Some? && u.memory.value.forCounterpart && ctx.counterpart.None? then
      Plan(Rejected("missing_counterpart_scope"), u.op, [], u.memory)
    else if IdsProblem(s, u, ctx).Some? then Plan(Rejected(IdsProblem(s, u, ctx).value), u.op, [], u.memory)
    else
      match u.op
      case AppendDistinct => PlanAppend(s, u, u.memory.value, ctx)
      case Reinforce =>
        if u.targets != [] then Plan(Accepted, Reinforce, u.targets, u.memory)
        else Plan(if ctx.related(s, u) then NeedsSelection else Rejected("reinforce_requires_target"), Reinforce, [], u.memory)
      case Replace =>
        if |u.targets| == 1 then Plan(Accepted, Replace, u.targets, u.memory)
        else Plan(Rejected("replace_requires_exactly_one_target"), Replace, [], u.memory)
      case Merge =>
        Plan(if |u.targets| >= 2 then Accepted else Rejected("merge_requires_at_least_two_targets"), Merge, u.targets, u.memory)
      case Correct =>
        if u.targets == [] && ctx.related(s, u) then Plan(NeedsSelection, Correct, [], u.memory)
        else Plan(Pending, Correct, u.targets, u.memory)
      case RetractTargets =>
        if u.targets == [] then Plan(NeedsSelection, RetractTargets, [], u.memory)
        else Plan(if u.memory.Some? && u.memory.value.evidence != "" then Accepted else Pending, RetractTargets, u.targets, u.memory)
  }

  /** Domain guidance turns an accepted plan into one that waits for confirmation. */
  ghost function GuidedPlan(s: Tables, u: Update, ctx: Ctx): Plan {
    var plan := PlanUpdate(s, u, ctx);
    if plan.decision == Accepted && ctx.guided(s) then plan.(decision := Pending) else plan
  }

  /** The targets of an accepted plan are distinct, stored, atomic, Active and of the memory's kind and
      scope; there is exactly one to replace, at least two to merge, at least one to reinforce or retract. */
  lemma AcceptedTargets(lx: Lexer, s: Tables, u: Update, ctx: Ctx)
    requires RowsAgree(lx, s) && PlanUpdate(s, u, ctx).decision == Accepted
    ensures var p := PlanUpdate(s, u, ctx);
            && Distinct(p.targets)
            && (forall id <- p.targets ::
                  && IsActive(s, AtomicTable, id)
                  && (p.memory.Some? ==> RecordOf(s, AtomicTable, id).scope == MemoryScope(p.memory.value)
                                         && RecordOf(s, AtomicTable, id).kind == OfMemory(p.memory.value.kind)))
            && (p.op == Replace ==> |p.targets| == 1) && (p.op == Merge ==> |p.targets| >= 2)
            && (p.op in {Reinforce, RetractTargets} ==> |p.targets| >= 1)
            && (p.op == AppendDistinct ==> p.targets == [])
            && p.op != Correct && (p.op != RetractTargets ==> p.memory.Some?)
  {
    var p := PlanUpdate(s, u, ctx);
    NoProblemIff(s, u.targets, u.memory, ctx);
    forall id | id in p.targets
      ensures IsActive(s, AtomicTable, id)
      ensures p.memory.Some? ==> RecordOf(s, AtomicTable, id).scope == MemoryScope(p.memory.value)
                                 && RecordOf(s, AtomicTable, id).kind == OfMemory(p.memory.value.kind)
    {
      TargetActiveMeans(lx, s, id);
      if u.op == AppendDistinct {
        assert id in DuplicateIds(s, u.memory.value, ctx);
        assert Stored(s, AtomicTable, id);
      } else {
        assert IsGoodTarget(s, id, u.memory, ctx);
      }
    }
  }

  // ---- Writing ---------------------------------------------------------------------------

  function HintObject(u: Update, m: Memory): string {
    var text := Strip(if u.hint != "" then u.hint else if m.evidence != "" then m.evidence else m.content);
    if |text| <= 240 then text else text[..240]
  }

  function DerivedAbout(m: Memory, ctx: Ctx): seq<Reference> {
    if m.forCounterpart && ctx.counterpart.Some? then [ctx.counterpart.value] else []
  }

  function BuiltBelief(u: Update, m: Memory, targets: seq<Id>, pending: bool, ctx: Ctx, id: Id, now: Time): Belief {
    var about := DerivedAbout(m, ctx);
    Belief(id, OfMemory(m.kind), about, HintObject(u, m), m.content, ToolWritten, MemoryScope(m), UserAsserted,
           if pending then PendingConfirmation else Active,
           seq(|targets|, i requires 0 <= i < |targets| => BeliefReference(targets[i])) + [Reference("session_message", ctx.userMessage)],
           Some(now), now, None, None, None)
  }

  /** The belief model refuses a scope without a fitting reference. */
  predicate Buildable(b: Belief) {
    ScopeFits(b.scope, b.about) && forall ref <- b.about :: Strip(ref.kind) != "" && Strip(ref.id) != ""
  }

  function RetractWrites(targets: seq<Id>, now: Time): seq<Write> {
    seq(|targets|, i requires 0 <= i < |targets| => Mark(targets[i], Retracted, now))
  }

  /** What a plan writes; None when building its belief raises. */
  function PlanWrites(u: Update, p: Plan, ctx: Ctx, id: Id, now: Time): Option<seq<Write>> {
    match p.decision
    case Accepted =>
      if p.op == Reinforce then
        Some(if p.targets == [] then [] else [Reaffirm(p.targets[0], Reference("session_message", ctx.userMessage), now)])
      else if p.op == RetractTargets then Some(RetractWrites(p.targets, now))
      else if p.memory.None? then Some([])
      else
        var b := BuiltBelief(u, p.memory.value, if p.op == Merge then p.targets else [], false, ctx, id, now);
        if !Buildable(b) then None
        else if p.op == AppendDistinct then Some([Put(b)])
        else if p.op in {Replace, Merge} then Some([Supersede(p.targets, b, now)])
        else Some([])
    case Pending =>
      if p.memory.None? || (p.memory.value.forCounterpart && ctx.counterpart.None?) then Some([])
      else
        var b := BuiltBelief(u, p.memory.value, p.targets, true, ctx, id, now);
        if Buildable(b) then Some([Put(b)]) else None
    case _ => Some([])
  }

  /** Retracting distinct Active targets one after the other: each is still Active when it is marked. */
  lemma {:induction false} RetractRun(lx: Lexer, s: Tables, targets: seq<Id>, now: Time)
    requires RowsAgree(lx, s) && Distinct(targets) && forall id <- targets :: IsActive(s, AtomicTable, id)
    ensures var ws := RetractWrites(targets, now);
            var s' := WroteAll(lx, s, ws);
            && RowsAgree(lx, s') && GuardedRun(lx, s, ws)
            && forall t, id :: IsActive(s', t, id) <==> IsActive(s, t, id) && !(t == AtomicTable && id in targets)
    decreases |targets|
  {
    if targets != [] {
      var w, rest := Mark(targets[0], Retracted, now), targets[1..];
      var s1 := Wrote(lx, s, w);
      assert targets == [targets[0]] + rest;
      assert RetractWrites(targets, now) == [w] + RetractWrites(rest, now);
      SingleWriteRun(lx, s, w);
      WroteOne(lx, s, w);
      assert forall t, id :: IsActive(s1, t, id) <==> IsActive(s, t, id) && !(t == AtomicTable && id == targets[0]);
      forall id | id in rest
        ensures IsActive(s1, AtomicTable, id)
      {
        var i :| 0 <= i < |rest| && rest[i] == id;
        assert targets[i + 1] == id;
      }
      RetractRun(lx, s1, rest, now);
    }
  }

  /** What the Active beliefs are after one proposal: the targets it retires are gone, the belief it adds
      is there unless it waits for confirmation, and nothing else changes. */
  predicate RetiresTargets(p: Plan) {
    p.decision == Accepted && p.op in {Replace, Merge, RetractTargets}
  }

  predicate AddsActive(p: Plan) {
    p.decision == Accepted && p.op in {AppendDistinct, Replace, Merge}
  }

  /** The Active beliefs change by the atomic beliefs `gone`, and by the new id when it is added. */
  ghost predicate ActiveChange(s: Tables, s': Tables, id: Id, adds: bool, gone: seq<Id>) {
    forall t, other :: IsActive(s', t, other) <==>
      if t == AtomicTable && other == id then adds
      else IsActive(s, t, other) && !(t == AtomicTable && other in gone)
  }

  ghost predicate ActiveMoves(s: Tables, s': Tables, p: Plan, id: Id) {
    ActiveChange(s, s', id, AddsActive(p), if RetiresTargets(p) then p.targets else [])
  }

  lemma NewBeliefRun(lx: Lexer, s: Tables, b: Belief, olds: seq<Id>, over: bool, now: Time)
    requires RowsAgree(lx, s) && NewBelief(s, b) && b.kind.OfMemory?
    requires over ==> forall id <- olds :: IsActive(s, AtomicTable, id)
    ensures var w := if over then Supersede(olds, b, now) else Put(b);
            var s' := WroteAll(lx, s, [w]);
            && RowsAgree(lx, s') && GuardedRun(lx, s, [w])
            && ActiveChange(s, s', b.id, b.lifecycle == Active, if over then olds else [])
  {
    var w := if over then Supersede(olds, b, now) else Put(b);
    var s' := Wrote(lx, s, w);
    WroteOne(lx, s, w);
    assert over ==> b.id !in olds;
    WriteRecords(lx, s, w);
    UpsertStores(lx, s, b);
    if over {
      SupersedeAllRecords(lx, Upserted(lx, s, b), olds, b.id, now);
    }
    assert Stored(s', AtomicTable, b.id) && RecordOf(s', AtomicTable, b.id) == b;
    forall t, other
      ensures IsActive(s', t, other) <==>
              if t == AtomicTable && other == b.id then b.lifecycle == Active
              else IsActive(s, t, other) && !(t == AtomicTable && over && other in olds)
    {
      if Stored(s, t, other) {
        assert RecordOf(s', t, other) == RecordAfter(lx, s, w, t, other);
      } else if Stored(s', t, other) {
        assert RecordOf(s', t, other) == b;
        assert TableOf(RecordOf(s', t, other)) == t && RecordOf(s', t, other).id == other;
      }
    }
  }

  lemma ReaffirmOnce(lx: Lexer, s: Tables, target: Id, source: Reference, now: Time)
    requires RowsAgree(lx, s)
    ensures var ws := [Reaffirm(target, source, now)];
            var s' := WroteAll(lx, s, ws);
            RowsAgree(lx, s') && GuardedRun(lx, s, ws) && forall t, id :: IsActive(s', t, id) <==> IsActive(s, t, id)
  {
    assert ReaffirmWrites(target, [source], now) == [Reaffirm(target, source, now)];
    ReaffirmRun(lx, s, target, [source], now);
  }

  /** A run of writes that moves the Active beliefs as planned. */
  ghost predicate PlannedRun(lx: Lexer, s: Tables, ws: seq<Write>, p: Plan, id: Id) {
    var s' := WroteAll(lx, s, ws);
    RowsAgree(lx, s') && GuardedRun(lx, s, ws) && ActiveMoves(s, s', p, id)
  }

  lemma AcceptedNewRun(lx: Lexer, s: Tables, p: Plan, b: Belief, now: Time)
    requires RowsAgree(lx, s) && NewBelief(s, b) && b.kind.OfMemory? && b.lifecycle == Active
    requires p.decision == Accepted && p.op in {AppendDistinct, Replace, Merge}
    requires forall target <- p.targets :: IsActive(s, AtomicTable, target)
    ensures PlannedRun(lx, s, [if p.op != AppendDistinct then Supersede(p.targets, b, now) else Put(b)], p, b.id)
  {
    NewBeliefRun(lx, s, b, p.targets, p.op != AppendDistinct, now);
  }

  lemma AcceptedOldRun(lx: Lexer, s: Tables, p: Plan, source: Reference, id: Id, now: Time)
    requires RowsAgree(lx, s) && !Stored(s, AtomicTable, id)
    requires p.decision == Accepted && p.op in {Reinforce, RetractTargets} && p.targets != [] && Distinct(p.targets)
    requires forall target <- p.targets :: IsActive(s, AtomicTable, target)
    ensures PlannedRun(lx, s, if p.op == Reinforce then [Reaffirm(p.targets[0], source, now)] else RetractWrites(p.targets, now), p, id)
  {
    if p.op == Reinforce {
      ReaffirmOnce(lx, s, p.targets[0], source, now);
    } else {
      RetractRun(lx, s, p.targets, now);
    }
  }

  lemma AcceptedRun(lx: Lexer, s: Tables, u: Update, p: Plan, ctx: Ctx, id: Id, now: Time)
    requires RowsAgree(lx, s) && !Stored(s, AtomicTable, id) && !Stored(s, SummaryTable, id)
    requires p.decision == Accepted && p.op != Correct && Distinct(p.targets)
    requires forall target <- p.targets :: IsActive(s, AtomicTable, target)
    requires p.op in {Reinforce, RetractTargets} ==> |p.targets| >= 1
    requires p.op != RetractTargets ==> p.memory.Some?
    requires PlanWrites(u, p, ctx, id, now).Some?
    ensures PlannedRun(lx, s, PlanWrites(u, p, ctx, id, now).value, p, id)
  {
    if p.op in {Reinforce, RetractTargets} {
      AcceptedOldRun(lx, s, p, Reference("session_message", ctx.userMessage), id, now);
    } else {
      var b := BuiltBelief(u, p.memory.value, if p.op == Merge then p.targets else [], false, ctx, id, now);
      AcceptedWrites(u, p, ctx, id, now, b);
      AcceptedNewRun(lx, s, p, b, now);
    }
  }

  lemma AcceptedWrites(u: Update, p: Plan, ctx: Ctx, id: Id, now: Time, b: Belief)
    requires p.decision == Accepted && p.op in {AppendDistinct, Replace, Merge} && p.memory.Some?
    requires b == BuiltBelief(u, p.memory.value, if p.op == Merge then p.targets else [], false, ctx, id, now)
    requires PlanWrites(u, p, ctx, id, now).Some?
    ensures PlanWrites(u, p, ctx, id, now).value == [if p.op != AppendDistinct then Supersede(p.targets, b, now) else Put(b)]
  {
  }

  lemma PendingRun(lx: Lexer, s: Tables, u: Update, p: Plan, ctx: Ctx, id: Id, now: Time)
    requires RowsAgree(lx, s) && !Stored(s, AtomicTable, id) && !Stored(s, SummaryTable, id)
    requires p.decision != Accepted && PlanWrites(u, p, ctx, id, now).Some?
    ensures PlannedRun(lx, s, PlanWrites(u, p, ctx, id, now).value, p, id)
  {
    if p.decision == Pending && PlanWrites(u, p, ctx, id, now).value != [] {
      NewBeliefRun(lx, s, BuiltBelief(u, p.memory.value, p.targets, true, ctx, id, now), [], false, now);
    } else {
      assert WroteAll(lx, s, []) == s;
    }
  }

  /** Whatever is proposed, what it writes is a run of guarded writes, and the Active beliefs move exactly
      as planned. */
  lemma ProposalRun(lx: Lexer, s: Tables, u: Update, ctx: Ctx, id: Id, now: Time)
    requires RowsAgree(lx, s) && !Stored(s, AtomicTable, id) && !Stored(s, SummaryTable, id)
    ensures var p := GuidedPlan(s, u, ctx);
            var ws := PlanWrites(u, p, ctx, id, now);
            ws.Some? ==> PlannedRun(lx, s, ws.value, p, id)
  {
    var p := GuidedPlan(s, u, ctx);
    if PlanWrites(u, p, ctx, id, now).Some? {
      if p.decision == Accepted {
        AcceptedTargets(lx, s, u, ctx);
        AcceptedRun(lx, s, u, p, ctx, id, now);
      } else {
        PendingRun(lx, s, u, p, ctx, id, now);
      }
    }
  }
}

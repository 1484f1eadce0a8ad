/** What a proposed memory update leads to: when it is accepted, waits or is refused, what the belief it
    stores says, and what it leaves of its targets. */
module ProposedBeliefs {
  import opened Common
  import opened Text
  import opened Beliefs
  import opened BeliefIndexes
  import opened BeliefReads
  import opened BeliefRuns
  import opened Acceptance
  import opened MemoryPropose
  import opened AnsweredBeliefs

  // ---- Decisions -------------------------------------------------------------------------

  /** The ids of an update name distinct, stored, fitting Active beliefs; reviewed candidates come only
      with an append, and targets only without one. */
  predicate GoodIds(s: Tables, u: Update, ctx: Ctx) {
    && Distinct(u.reviewed) && Distinct(u.targets)
    && (u.op == AppendDistinct ==> u.targets == []) && (u.op != AppendDistinct ==> u.reviewed == [])
    && forall id <- u.reviewed + u.targets :: IsGoodTarget(s, id, u.memory, ctx)
  }

  /** An update fit to be decided on: it parsed, its scope has its counterpart, and its ids are good. */
  predicate Fit(s: Tables, u: Update, ctx: Ctx) {
    && !u.malformed && (u.op != RetractTargets ==> u.memory.Some?)
    && (u.memory.Some? && u.memory.value.forCounterpart ==> ctx.counterpart.Some?)
    && GoodIds(s, u, ctx)
  }

  lemma GoodIdsIff(s: Tables, u: Update, ctx: Ctx)
    ensures IdsProblem(s, u, ctx).None? <==> GoodIds(s, u, ctx)
  {
    NoProblemIff(s, u.reviewed, u.memory, ctx);
    NoProblemIff(s, u.targets, u.memory, ctx);
    forall id
      ensures id in u.reviewed + u.targets <==> id in u.reviewed || id in u.targets
    {
    }
  }

  /** Evidence is part of the memory; an update without a memory has none. */
  predicate Evident(u: Update) {
    u.memory.Some? && u.memory.value.evidence != ""
  }

  ghost predicate AlreadySaid(s: Tables, u: Update, ctx: Ctx) {
    u.memory.Some? && DuplicateIds(s, u.memory.value, ctx) != {}
  }

  /** The number of targets the operation asks for. */
  predicate EnoughTargets(u: Update) {
    match u.op
    case AppendDistinct => true
    case Replace => |u.targets| == 1
    case Merge => |u.targets| >= 2
    case _ => |u.targets| >= 1
  }

  predicate WaitsAsCorrection(u: Update, related: bool) {
    u.op == Correct && (u.targets != [] || !related)
  }

  predicate WaitsForEvidence(u: Update) {
    u.op == RetractTargets && u.targets != [] && !Evident(u)
  }

  /** Related beliefs exist, and the update has neither chosen nor reviewed any. */
  ghost predicate SelectsRelated(s: Tables, u: Update, ctx: Ctx, related: bool) {
    && related && u.targets == []
    && (u.op in {Reinforce, Correct} || (u.op == AppendDistinct && !AlreadySaid(s, u, ctx) && u.reviewed == []))
  }

  /** When an update is accepted, waits for confirmation, or needs its targets selected; otherwise it is
      refused. A correction always waits; a retraction waits when it has no evidence. */
  lemma DecidedExactlyWhen(s: Tables, u: Update, ctx: Ctx)
    ensures var p, fit, related := PlanUpdate(s, u, ctx), Fit(s, u, ctx), ctx.related(s, u);
            && (p.decision == Accepted <==> fit && EnoughTargets(u) && u.op != Correct
                                            && (u.op == AppendDistinct ==> AlreadySaid(s, u, ctx) || u.reviewed != [] || !related)
                                            && (u.op == RetractTargets ==> Evident(u)))
            && (p.decision == Pending <==> fit && (WaitsAsCorrection(u, related) || WaitsForEvidence(u)))
            && (p.decision == NeedsSelection <==> fit && (SelectsRelated(s, u, ctx, related) || (u.op == RetractTargets && u.targets == [])))
  {
    GoodIdsIff(s, u, ctx);
  }

  /** An accepted or waiting plan is for what was asked, on the targets named; but an append of what a
      belief already says reinforces the one held first. */
  lemma PlanKeepsRequest(s: Tables, u: Update, ctx: Ctx)
    ensures var p := PlanUpdate(s, u, ctx);
            && p.memory == u.memory
            && (p.decision in {Accepted, Pending} && !(u.op == AppendDistinct && AlreadySaid(s, u, ctx)) ==> p.op == u.op && p.targets == u.targets)
            && (p.decision == Accepted && u.op == AppendDistinct && AlreadySaid(s, u, ctx) ==>
                  && p.op == Reinforce && |p.targets| == 1 && p.targets[0] in DuplicateIds(s, u.memory.value, ctx)
                  && forall id <- DuplicateIds(s, u.memory.value, ctx) :: id == p.targets[0] || Earlier(s.atomic, p.targets[0], id))
  {
    GoodIdsIff(s, u, ctx);
  }

  /** Guidance only ever makes an accepted update wait. */
  lemma GuidanceWaits(s: Tables, u: Update, ctx: Ctx)
    ensures var p, g := PlanUpdate(s, u, ctx), GuidedPlan(s, u, ctx);
            && (g.decision == Accepted <==> p.decision == Accepted && !ctx.guided(s))
            && (g.decision == Pending <==> p.decision == Pending || (p.decision == Accepted && ctx.guided(s)))
            && (g.decision in {Accepted, Pending} || g.decision == p.decision)
            && g.op == p.op && g.targets == p.targets && g.memory == p.memory
  {
  }

  /** The duplicates of a memory are the Active atomic beliefs of its kind and scope, about its
      counterpart if it is about one, whose squeezed text is the same. */
  lemma DuplicatesMean(lx: Lexer, s: Tables, m: Memory, ctx: Ctx, id: Id)
    requires RowsAgree(lx, s) && AboutExact(s)
    ensures id in DuplicateIds(s, m, ctx) <==>
            && IsActive(s, AtomicTable, id)
            && var b := RecordOf(s, AtomicTable, id);
               && b.kind == OfMemory(m.kind) && b.scope == MemoryScope(m) && ctx.squash(b.content) == ctx.squash(m.content)
               && (m.forCounterpart && ctx.counterpart.Some? ==> ctx.counterpart.value in b.about)
  {
    if Stored(s, AtomicTable, id) {
      assert s.atomic[id] == RowOf(lx, RecordOf(s, AtomicTable, id));
      if ctx.counterpart.Some? {
        assert AboutRow(AtomicTable, id, ctx.counterpart.value) in s.about <==> ctx.counterpart.value in RecordOf(s, AtomicTable, id).about;
      }
    }
  }

  // ---- What is stored --------------------------------------------------------------------

  /** The hint, or else the evidence, or else the content; trimmed, and no longer than 240 characters. */
  predicate IsHint(text: string, u: Update, m: Memory) {
    var full := Strip(if u.hint != "" then u.hint else if m.evidence != "" then m.evidence else m.content);
    text <= full && |text| <= 240 && (|full| <= 240 ==> text == full) && (|full| > 240 ==> |text| == 240)
  }

  /** The belief says what the memory says, on the user's authority; its evidence is the user's message
      and the targets it stands over. */
  ghost predicate SaysMemory(b: Belief, u: Update, m: Memory, over: seq<Id>, waits: bool, ctx: Ctx, now: Time) {
    && b.kind == OfMemory(m.kind) && b.content == m.content && IsHint(b.objectText, u, m)
    && b.scope == (if m.forCounterpart then CounterpartScope else GlobalScope)
    && b.about == (if m.forCounterpart && ctx.counterpart.Some? then [ctx.counterpart.value] else [])
    && b.authority == UserAsserted && b.stage == ToolWritten
    && b.lifecycle == (if waits then Lifecycle.PendingConfirmation else Active)
    && (forall ref :: ref in b.sources <==> ref == Reference("session_message", ctx.userMessage)
                                            || exists t <- over :: ref == Reference("belief", t))
    && b.observedAt == Some(now) && b.heldSince == now && b.heldUntil.None? && b.supersededBy.None? && b.supersedes.None?
  }

  lemma BuiltSaysMemory(u: Update, m: Memory, over: seq<Id>, waits: bool, ctx: Ctx, id: Id, now: Time)
    ensures var b := MemoryPropose.BuiltBelief(u, m, over, waits, ctx, id, now);
            b.id == id && b.kind.OfMemory? && SaysMemory(b, u, m, over, waits, ctx, now)
  {
    var b := MemoryPropose.BuiltBelief(u, m, over, waits, ctx, id, now);
    var targets := seq(|over|, i requires 0 <= i < |over| => BeliefReference(over[i]));
    forall ref
      ensures ref in b.sources <==> ref == Reference("session_message", ctx.userMessage) || exists t <- over :: ref == Reference("belief", t)
    {
      if t :| t in over && ref == Reference("belief", t) {
        var i :| 0 <= i < |over| && over[i] == t;
        assert targets[i] == ref;
      }
    }
  }

  /** What one accepted update leaves of each of its targets. */
  ghost predicate TargetAfter(b: Belief, b': Belief, op: ProposalOp, id: Id, first: bool, ctx: Ctx, now: Time) {
    match op
    case Replace => b' == b.(lifecycle := Superseded, heldUntil := Some(now), supersededBy := Some(id))
    case Merge => b' == b.(lifecycle := Superseded, heldUntil := Some(now), supersededBy := Some(id))
    case RetractTargets => b' == b.(lifecycle := Retracted, heldUntil := Some(now))
    case Reinforce => if first then Reaffirms(b, b', Reference("session_message", ctx.userMessage), now) else b' == b
    case _ => b' == b
  }

  ghost predicate TargetsAfter(s: Tables, s': Tables, p: Plan, id: Id, ctx: Ctx, now: Time) {
    forall i: nat {:trigger p.targets[i]} :: i < |p.targets| && Stored(s, AtomicTable, p.targets[i]) ==>
      && Stored(s', AtomicTable, p.targets[i])
      && (if p.decision == Accepted
          then TargetAfter(RecordOf(s, AtomicTable, p.targets[i]), RecordOf(s', AtomicTable, p.targets[i]), p.op, id, i == 0, ctx, now)
          else RecordOf(s', AtomicTable, p.targets[i]) == RecordOf(s, AtomicTable, p.targets[i]))
  }

  /** The plan stores a new belief: an accepted append, replacement or merge, or a memory that waits and
      whose counterpart is known. */
  predicate StoresNew(p: Plan, ctx: Ctx) {
    || (p.decision == Accepted && p.op in {AppendDistinct, Replace, Merge})
    || (p.decision == Pending && p.memory.Some? && (p.memory.value.forCounterpart ==> ctx.counterpart.Some?))
  }

  /** The targets whose ids the new belief keeps as its evidence. */
  function Over(p: Plan): seq<Id> {
    if p.decision == Pending || p.op == Merge then p.targets else []
  }

  ghost predicate StoresMemory(s: Tables, s': Tables, u: Update, p: Plan, id: Id, ctx: Ctx, now: Time) {
    if StoresNew(p, ctx) then
      && p.memory.Some? && Stored(s', AtomicTable, id)
      && SaysMemory(RecordOf(s', AtomicTable, id), u, p.memory.value, Over(p), p.decision == Pending, ctx, now)
    else !Stored(s', AtomicTable, id)
  }

  ghost predicate LeavesAs(s: Tables, s': Tables, u: Update, p: Plan, id: Id, ctx: Ctx, now: Time) {
    && StoresMemory(s, s', u, p, id, ctx, now) && TargetsAfter(s, s', p, id, ctx, now)
    && OthersKept(s, s', set t <- p.targets)
  }

  lemma {:induction false} RetractedRecords(lx: Lexer, s: Tables, targets: seq<Id>, now: Time)
    requires RowsAgree(lx, s) && Distinct(targets) && forall id <- targets :: Stored(s, AtomicTable, id)
    ensures var s' := WroteAll(lx, s, RetractWrites(targets, now));
            && RowsAgree(lx, s') && OthersKept(s, s', set t <- targets)
            && (forall id <- targets ::
                  && Stored(s', AtomicTable, id)
                  && RecordOf(s', AtomicTable, id) == RecordOf(s, AtomicTable, id).(lifecycle := Retracted, heldUntil := Some(now)))
            && forall t, id :: Stored(s', t, id) <==> Stored(s, t, id)
    decreases |targets|
  {
    if targets != [] {
      var w, rest := Mark(targets[0], Retracted, now), targets[1..];
      var s1 := Wrote(lx, s, w);
      assert targets == [targets[0]] + rest;
      assert RetractWrites(targets, now) == [w] + RetractWrites(rest, now);
      WroteOne(lx, s, w);
      OneMarkRecords(lx, s, targets[0], Retracted, now);
      assert targets[0] !in rest;
      RetractedRecords(lx, s1, rest, now);
    }
  }

  /** The one write of a plan that stores a new belief. */
  lemma NewWrite(s: Tables, u: Update, p: Plan, ctx: Ctx, id: Id, now: Time) returns (w: Write)
    requires StoresNew(p, ctx) && p.memory.Some? && PlanWrites(u, p, ctx, id, now).Some?
    requires !Stored(s, AtomicTable, id) && !Stored(s, SummaryTable, id) && (p.decision == Accepted ==> id !in p.targets)
    ensures PlanWrites(u, p, ctx, id, now).value == [w]
    ensures (w.Put? || w.Supersede?) && w.belief.id == id && w.belief.kind.OfMemory? && FreshWrite(s, w)
    ensures SaysMemory(w.belief, u, p.memory.value, Over(p), p.decision == Pending, ctx, now)
    ensures w.Supersede? <==> p.decision == Accepted && p.op in {Replace, Merge}
    ensures w.Supersede? ==> w.olds == p.targets && w.at == now
  {
    BuiltSaysMemory(u, p.memory.value, Over(p), p.decision == Pending, ctx, id, now);
    w := PlanWrites(u, p, ctx, id, now).value[0];
  }

  lemma NewLeaves(lx: Lexer, s: Tables, u: Update, p: Plan, w: Write, id: Id, ctx: Ctx, now: Time)
    requires RowsAgree(lx, s) && StoresNew(p, ctx) && p.memory.Some?
    requires (w.Put? || w.Supersede?) && w.belief.id == id && w.belief.kind.OfMemory? && FreshWrite(s, w)
    requires SaysMemory(w.belief, u, p.memory.value, Over(p), p.decision == Pending, ctx, now)
    requires w.Supersede? <==> p.decision == Accepted && p.op in {Replace, Merge}
    requires w.Supersede? ==> w.olds == p.targets && w.at == now
    ensures LeavesAs(s, WroteAll(lx, s, [w]), u, p, id, ctx, now)
  {
    OneWriteRecords(lx, s, w);
    assert forall i: nat :: i < |p.targets| ==> p.targets[i] in p.targets;
  }

  lemma OldLeaves(lx: Lexer, s: Tables, u: Update, p: Plan, id: Id, ctx: Ctx, now: Time)
    requires RowsAgree(lx, s) && !Stored(s, AtomicTable, id)
    requires p.decision == Accepted && p.op in {Reinforce, RetractTargets} && Distinct(p.targets) && p.targets != []
    requires forall target <- p.targets :: Stored(s, AtomicTable, target)
    ensures var ws := if p.op == Reinforce then [Reaffirm(p.targets[0], Reference("session_message", ctx.userMessage), now)]
                      else RetractWrites(p.targets, now);
            LeavesAs(s, WroteAll(lx, s, ws), u, p, id, ctx, now)
  {
    var source := Reference("session_message", ctx.userMessage);
    if p.op == Reinforce {
      WroteOne(lx, s, Reaffirm(p.targets[0], source, now));
      ReaffirmKeepsEvidence(lx, s, p.targets[0], source, now);
      ReaffirmStores(lx, s, p.targets[0], source, now, id);
    } else {
      RetractedRecords(lx, s, p.targets, now);
    }
    assert forall i: nat :: i < |p.targets| ==> p.targets[i] in p.targets;
  }

  lemma ReaffirmStores(lx: Lexer, s: Tables, target: Id, source: Reference, now: Time, id: Id)
    requires RowsAgree(lx, s) && !Stored(s, AtomicTable, id)
    ensures !Stored(Wrote(lx, s, Reaffirm(target, source, now)), AtomicTable, id)
  {
    WriteRecords(lx, s, Reaffirm(target, source, now));
  }

  lemma NothingLeaves(lx: Lexer, s: Tables, u: Update, p: Plan, id: Id, ctx: Ctx, now: Time)
    requires !Stored(s, AtomicTable, id) && !StoresNew(p, ctx) && p.decision != Accepted
    ensures LeavesAs(s, WroteAll(lx, s, []), u, p, id, ctx, now)
  {
    assert WroteAll(lx, s, []) == s;
  }

  /** Whatever is proposed: a belief is stored exactly when the plan stores one, and then it says the
      memory; each target is left as the operation leaves it; and every other belief is as it was. */
  lemma ProposalLeaves(lx: Lexer, s: Tables, u: Update, ctx: Ctx, id: Id, now: Time)
    requires RowsAgree(lx, s) && !Stored(s, AtomicTable, id) && !Stored(s, SummaryTable, id)
    ensures var p := GuidedPlan(s, u, ctx);
            var ws := PlanWrites(u, p, ctx, id, now);
            ws.Some? ==> LeavesAs(s, WroteAll(lx, s, ws.value), u, p, id, ctx, now)
  {
    var p := GuidedPlan(s, u, ctx);
    GuidanceWaits(s, u, ctx);
    if p.decision == Accepted {
      AcceptedTargets(lx, s, u, ctx);
    }
    if PlanWrites(u, p, ctx, id, now).Some? {
      PlanLeaves(lx, s, u, p, ctx, id, now);
    }
  }

  lemma PlanLeaves(lx: Lexer, s: Tables, u: Update, p: Plan, ctx: Ctx, id: Id, now: Time)
    requires RowsAgree(lx, s) && !Stored(s, AtomicTable, id) && !Stored(s, SummaryTable, id)
    requires PlanWrites(u, p, ctx, id, now).Some?
    requires p.decision == Accepted ==>
               && Distinct(p.targets) && (forall target <- p.targets :: IsActive(s, AtomicTable, target)) && p.op != Correct
               && (p.op in {Reinforce, RetractTargets} ==> |p.targets| >= 1) && (p.op != RetractTargets ==> p.memory.Some?)
    ensures LeavesAs(s, WroteAll(lx, s, PlanWrites(u, p, ctx, id, now).value), u, p, id, ctx, now)
  {
    assert p.decision == Accepted ==> forall target <- p.targets :: Stored(s, AtomicTable, target);
    if StoresNew(p, ctx) {
      var w := NewWrite(s, u, p, ctx, id, now);
      NewLeaves(lx, s, u, p, w, id, ctx, now);
    } else if p.decision == Accepted {
      OldLeaves(lx, s, u, p, id, ctx, now);
    } else {
      NothingLeaves(lx, s, u, p, id, ctx, now);
    }
  }

  lemma BuildsExactlyWhen(u: Update, m: Memory, over: seq<Id>, waits: bool, ctx: Ctx, id: Id, now: Time)
    ensures Buildable(MemoryPropose.BuiltBelief(u, m, over, waits, ctx, id, now)) <==>
            (m.forCounterpart ==> ctx.counterpart.Some? && ctx.counterpart.value.kind == "counterpart" && Strip(ctx.counterpart.value.id) != "")
  {
    var about := DerivedAbout(m, ctx);
    if about != [] {
      var ref := about[0];
      StripBlank(ref.kind);
      assert ref.kind == "counterpart" ==> ref.kind[0] == 'c' && ref.kind[0] in ref.kind;
      assert forall r <- about :: r == ref;
    }
  }

  /** An update fails only over its counterpart reference: when it has to store a memory about the
      counterpart, and the reference is of another kind or has a blank id. */
  lemma FailsExactlyWhen(s: Tables, u: Update, ctx: Ctx, id: Id, now: Time)
    ensures var p := GuidedPlan(s, u, ctx);
            PlanWrites(u, p, ctx, id, now).None? <==>
              && StoresNew(p, ctx) && u.memory.value.forCounterpart
              && (ctx.counterpart.value.kind != "counterpart" || Strip(ctx.counterpart.value.id) == "")
  {
    var p := GuidedPlan(s, u, ctx);
    DecidedExactlyWhen(s, u, ctx);
    PlanKeepsRequest(s, u, ctx);
    GuidanceWaits(s, u, ctx);
    if u.memory.Some? {
      BuildsExactlyWhen(u, u.memory.value, Over(p), p.decision == Pending, ctx, id, now);
    }
  }
}

/** Whole histories of the belief store: foreground proposals and background answers in any order. */
module CognitionRuns {
  import opened Common
  import opened JsonValues
  import opened Beliefs
  import opened BeliefIndexes
  import opened BeliefRuns
  import opened Contract
  import opened Acceptance
  import opened StateService
  import Propose = MemoryPropose

  /** One entry of a history. An answer carries what its validation gave. */
  datatype Episode =
    | Proposed(update: Propose.Update, ctx: Propose.Ctx, id: Id, now: Time)
    | Answer(validated: Validated, call: Call)

  predicate NotStored(s: Tables, id: Id) {
    !Stored(s, AtomicTable, id) && !Stored(s, SummaryTable, id)
  }

  /** The ids an episode draws are new; a background window does not list the belief it will create. */
  ghost predicate DrawsNewIds(s: Tables, e: Episode) {
    match e
    case Proposed(_, _, id, _) => NotStored(s, id)
    case Answer(v, c) =>
      && NotStored(s, c.ids(0)) && SourceRef("atomic_belief", c.ids(0)) !in c.ctx.sourceRefs
      && (forall n: nat :: n < |v.payloads| ==> NotStored(s, c.ids(n)))
      && (forall n: nat, m: nat :: n < m < |v.payloads| ==> c.ids(n) != c.ids(m))
  }

  /** An answer is as validation leaves it. */
  predicate IsValidated(env: Env, e: Episode) {
    e.Answer? ==>
      Creatable(env.words, e.validated, e.call.ctx)
      && (IsConsolidating(e.call.ctx.stage) ==> Applicable(env.words, e.validated, e.call.ctx))
  }

  /** What an episode leaves written: nothing when it fails. */
  ghost function EpisodeWrites(env: Env, s: Tables, e: Episode): seq<Write>
    requires IsValidated(env, e)
  {
    match e
    case Proposed(u, ctx, id, now) =>
      var ws := Propose.PlanWrites(u, Propose.GuidedPlan(s, u, ctx), ctx, id, now);
      if ws.Some? then ws.value else []
    case Answer(v, c) =>
      match AnswerEffects(env, s, v, c)
      case Err(_) => []
      case Ok(effects) => effects.writes
  }

  ghost function StateAfter(env: Env, s: Tables, history: seq<Episode>): Tables
    requires forall e <- history :: IsValidated(env, e)
    decreases |history|
  {
    if history == [] then s else StateAfter(env, WroteAll(env.lx, s, EpisodeWrites(env, s, history[0])), history[1..])
  }

  ghost predicate AlwaysNewIds(env: Env, s: Tables, history: seq<Episode>)
    requires forall e <- history :: IsValidated(env, e)
    decreases |history|
  {
    history != [] ==>
      DrawsNewIds(s, history[0]) && AlwaysNewIds(env, WroteAll(env.lx, s, EpisodeWrites(env, s, history[0])), history[1..])
  }

  // ---- Every episode is a run of guarded writes ------------------------------------------

  lemma {:induction false} GuardedKeepsRows(lx: Lexer, s: Tables, ws: seq<Write>)
    requires RowsAgree(lx, s) && GuardedRun(lx, s, ws)
    ensures RowsAgree(lx, WroteAll(lx, s, ws)) && FreshRun(lx, s, ws)
    decreases |ws|
  {
    if ws != [] {
      WriteRecords(lx, s, ws[0]);
      GuardedKeepsRows(lx, Wrote(lx, s, ws[0]), ws[1..]);
    }
  }

  lemma PutIsGuarded(lx: Lexer, s: Tables, b: Belief)
    requires RowsAgree(lx, s) && NewBelief(s, b)
    ensures GuardedWrite(s, Put(b)) && RowsAgree(lx, Wrote(lx, s, Put(b)))
    ensures forall id :: id != b.id && NotStored(s, id) ==> NotStored(Wrote(lx, s, Put(b)), id)
  {
    var s' := Wrote(lx, s, Put(b));
    WriteRecords(lx, s, Put(b));
    forall id | id != b.id && NotStored(s, id)
      ensures NotStored(s', id)
    {
      assert forall t :: Stored(s', t, id) ==> RecordOf(s', t, id).id == id;
    }
  }

  /** Beliefs built one after the other under distinct new ids. */
  lemma {:induction false} CreationRun(
    lx: Lexer, s: Tables, build: nat -> Result<Belief, Failure>, payloads: seq<Payload>, now: Time, n: nat, ids: nat -> Id)
    requires RowsAgree(lx, s) && n <= |payloads| && forall p <- payloads :: !p.BeliefUpdate?
    requires CreateEffects(build, payloads, now, n).Ok?
    requires forall i: nat :: n <= i < |payloads| ==> NotStored(s, ids(i))
    requires forall i: nat, j: nat :: i < j < |payloads| ==> ids(i) != ids(j)
    requires forall i: nat :: n <= i < |payloads| && build(i).Ok? ==>
               build(i).value.id == ids(i) && !Retired(build(i).value.lifecycle) && build(i).value.supersededBy.None?
    ensures GuardedRun(lx, s, CreateEffects(build, payloads, now, n).value.writes)
    decreases |payloads| - n
  {
    if n < |payloads| {
      var b := build(n).value;
      PutIsGuarded(lx, s, b);
      CreationRun(lx, Wrote(lx, s, Put(b)), build, payloads, now, n + 1, ids);
      var rest := CreateEffects(build, payloads, now, n + 1).value.writes;
      assert ([Put(b)] + rest)[1..] == rest;
    }
  }

  lemma BuilderBuildsNew(env: Env, v: Validated, c: Call, n: nat)
    requires n < |v.payloads| && Creatable(env.words, v, c.ctx) && !v.payloads[n].BeliefUpdate?
    ensures var r := Builder(env, v, c)(n);
            r.Ok? ==> r.value.id == c.ids(n) && !Retired(r.value.lifecycle) && r.value.supersededBy.None?
  {
    var p := v.payloads[n];
    assert p in v.payloads;
    KeyedDraftBuilds(env, p.draft, v, v.requiresConfirmation, c.ctx, c.run, c.ids(n), c.now, None);
  }

  lemma AnswerRun(env: Env, s: Tables, v: Validated, c: Call)
    requires RowsAgree(env.lx, s) && DrawsNewIds(s, Answer(v, c)) && IsValidated(env, Answer(v, c))
    ensures var r := AnswerEffects(env, s, v, c); r.Ok? ==> GuardedRun(env.lx, s, r.value.writes)
  {
    if AnswerEffects(env, s, v, c).Err? {
    } else if IsConsolidating(c.ctx.stage) {
      ActiveAfterConsolidation(env, s, v, c.ctx, c.run, c.ids(0), c.now);
    } else {
      var build := Builder(env, v, c);
      forall i: nat | i < |v.payloads| && build(i).Ok?
        ensures build(i).value.id == c.ids(i) && !Retired(build(i).value.lifecycle) && build(i).value.supersededBy.None?
      {
        assert v.payloads[i] in v.payloads;
        BuilderBuildsNew(env, v, c, i);
      }
      CreationRun(env.lx, s, build, v.payloads, c.now, 0, c.ids);
    }
  }

  lemma EpisodeRun(env: Env, s: Tables, e: Episode)
    requires RowsAgree(env.lx, s) && IsValidated(env, e) && DrawsNewIds(s, e)
    ensures GuardedRun(env.lx, s, EpisodeWrites(env, s, e))
  {
    match e
    case Proposed(u, ctx, id, now) =>
      Propose.ProposalRun(env.lx, s, u, ctx, id, now);
    case Answer(v, c) =>
      AnswerRun(env, s, v, c);
  }

  /** A history is one long run of guarded writes. */
  lemma {:induction false} HistoryRun(env: Env, s: Tables, history: seq<Episode>) returns (ws: seq<Write>)
    requires forall e <- history :: IsValidated(env, e)
    requires RowsAgree(env.lx, s) && AlwaysNewIds(env, s, history)
    ensures GuardedRun(env.lx, s, ws) && WroteAll(env.lx, s, ws) == StateAfter(env, s, history)
    decreases |history|
  {
    if history == [] {
      ws := [];
    } else {
      var first := EpisodeWrites(env, s, history[0]);
      EpisodeRun(env, s, history[0]);
      GuardedKeepsRows(env.lx, s, first);
      var rest := HistoryRun(env, WroteAll(env.lx, s, first), history[1..]);
      RunsJoin(env.lx, s, first, rest);
      ws := first + rest;
    }
  }

  /** After any history of foreground proposals and background answers from the empty store: an atomic
      belief has a superseding link exactly when it is Superseded, the link leads to a stored belief, and
      following links from any belief visits stored beliefs only, repeats none and ends. */
  lemma HistoryKeepsLinks(env: Env, history: seq<Episode>, id: Id)
    requires forall e <- history :: IsValidated(env, e)
    requires AlwaysNewIds(env, EMPTY, history)
    ensures LinksTruthful(StateAfter(env, EMPTY, history))
    ensures Stored(StateAfter(env, EMPTY, history), AtomicTable, id) ==>
              exists path :: IsWholeChain(StateAfter(env, EMPTY, history), path) && path[0] == id
  {
    assert forall t, i :: !Stored(EMPTY, t, i);
    var ws := HistoryRun(env, EMPTY, history);
    GuardedKeepsRows(env.lx, EMPTY, ws);
    LinksAlwaysTruthful(env.lx, EMPTY, ws);
    if Stored(StateAfter(env, EMPTY, history), AtomicTable, id) {
      LinksAlwaysEnd(env.lx, ws, id);
    }
  }

  /** From any sound state, a belief that is superseded, retracted or archived is never Active again,
      whatever is proposed and answered afterwards. */
  lemma HistoryKeepsRetired(env: Env, s: Tables, history: seq<Episode>, t: Table, id: Id)
    requires forall e <- history :: IsValidated(env, e)
    requires RowsAgree(env.lx, s) && AlwaysNewIds(env, s, history)
    requires Stored(s, t, id) && Retired(RecordOf(s, t, id).lifecycle)
    ensures var s' := StateAfter(env, s, history); Stored(s', t, id) && Retired(RecordOf(s', t, id).lifecycle)
  {
    var ws := HistoryRun(env, s, history);
    GuardedKeepsRows(env.lx, s, ws);
    RetiredStaysRetired(env.lx, s, ws, t, id);
  }
}

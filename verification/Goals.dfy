/** Goals kept as events: a capped view folded from the log, the registry that guards it, and the drive
    loop that picks from it. */
module Goals {
  import opened Common
  import opened Text

  type Id = string
  type Time = int

  datatype Status = Active | Satisfied | Abandoned

  datatype Goal = Goal(
    id: Id, description: string, targetOutcome: string, priority: int, status: Status, source: string,
    counterpart: Option<string>, beliefs: seq<string>, lastDriveAt: Option<Time>, createdAt: Time, updatedAt: Time)

  datatype Row = Row(goal: Goal, lastEventId: string)

  /** What an event says. A set event without a readable goal, or another without a goal id, says None. */
  datatype Happening = GoalSet(goal: Option<Goal>) | GoalEnded(id: Option<Id>, status: Status) | GoalProgressed(id: Option<Id>, drive: bool)

  datatype Event = Event(eventId: string, at: Time, what: Happening)

  type View = map<Id, Row>

  // ---- The projection --------------------------------------------------------------------

  function ActiveIds(view: View): set<Id> {
    set id | id in view && view[id].goal.status == Active
  }

  predicate IsActive(view: View, id: Id) {
    id in view && view[id].goal.status == Active
  }

  predicate WouldExceed(view: View, limit: int, goal: Goal) {
    goal.status == Active && !IsActive(view, goal.id) && |ActiveIds(view)| >= limit
  }

  /** Inserting over an existing row keeps when it was created. */
  function Upserted(view: View, goal: Goal, eventId: string): View {
    var created := if goal.id in view then view[goal.id].goal.createdAt else goal.createdAt;
    view[goal.id := Row(goal.(createdAt := created), eventId)]
  }

  function Applied(view: View, limit: int, e: Event): View {
    match e.what
    case GoalSet(None) => view
    case GoalSet(Some(goal)) => if WouldExceed(view, limit, goal) then view else Upserted(view, goal, e.eventId)
    case GoalEnded(id, status) =>
      if id.None? || id.value !in view then view
      else view[id.value := Row(view[id.value].goal.(status := status, updatedAt := e.at), e.eventId)]
    case GoalProgressed(id, drive) =>
      if id.None? || id.value !in view then view
      else
        var goal := view[id.value].goal;
        view[id.value := Row(goal.(updatedAt := e.at, lastDriveAt := if drive then Some(e.at) else goal.lastDriveAt), e.eventId)]
  }

  /** The view folded from a log. */
  function Folded(view: View, limit: int, log: seq<Event>): View {
    if log == [] then view else Applied(Folded(view, limit, log[..|log| - 1]), limit, log[|log| - 1])
  }

  /** Only a set event can make a goal active. */
  predicate EndsOnly(e: Event) {
    e.what.GoalEnded? ==> e.what.status != Active
  }

  lemma {:induction false} SubsetSize<T>(a: set<T>, b: set<T>)
    requires a <= b
    ensures |a| <= |b|
    decreases |a|
  {
    if a != {} {
      var x :| x in a;
      SubsetSize(a - {x}, b - {x});
    }
  }

  lemma AppliedKeepsLimit(view: View, limit: int, e: Event)
    requires EndsOnly(e) && |ActiveIds(view)| <= (if limit > 0 then limit else 0)
    ensures |ActiveIds(Applied(view, limit, e))| <= (if limit > 0 then limit else 0)
  {
    var before, after := ActiveIds(view), ActiveIds(Applied(view, limit, e));
    if e.what.GoalSet? && e.what.goal.Some? && e.what.goal.value.status == Active && !WouldExceed(view, limit, e.what.goal.value) {
      var id := e.what.goal.value.id;
      assert after == before + {id};
    } else {
      assert after <= before;
      SubsetSize(after, before);
    }
  }

  /** However the log goes, the number of active goals never exceeds the limit. */
  lemma {:induction false} LimitNeverExceeded(limit: int, log: seq<Event>)
    requires forall e <- log :: EndsOnly(e)
    ensures |ActiveIds(Folded(map[], limit, log))| <= (if limit > 0 then limit else 0)
  {
    if log == [] {
      assert ActiveIds(map[]) == {};
    } else {
      LimitNeverExceeded(limit, log[..|log| - 1]);
      AppliedKeepsLimit(Folded(map[], limit, log[..|log| - 1]), limit, log[|log| - 1]);
    }
  }

  /** Ending an active goal takes it out of the active ones and makes room for one more; its other fields,
      and all other goals, stay. */
  lemma EndingMakesRoom(view: View, limit: int, e: Event, id: Id)
    requires e.what == GoalEnded(Some(id), Satisfied) || e.what == GoalEnded(Some(id), Abandoned)
    requires IsActive(view, id)
    ensures var after := Applied(view, limit, e);
            && ActiveIds(after) == ActiveIds(view) - {id} && |ActiveIds(after)| == |ActiveIds(view)| - 1
            && (|ActiveIds(view)| <= limit ==> forall goal :: !WouldExceed(after, limit, goal))
            && SameButStatus(view, after, id) && after[id].goal.updatedAt == e.at && after[id].goal.status == e.what.status
  {
    var after := Applied(view, limit, e);
    assert ActiveIds(view) == ActiveIds(after) + {id};
  }

  /** One goal may differ in status, update time and last event. */
  predicate SameButStatus(view: View, after: View, id: Id) {
    && after.Keys == view.Keys && (forall other :: other in view && other != id ==> after[other] == view[other])
    && (id in view ==>
          var g, h := view[id].goal, after[id].goal;
          h == Goal(g.id, g.description, g.targetOutcome, g.priority, h.status, g.source, g.counterpart, g.beliefs, g.lastDriveAt, g.createdAt, h.updatedAt))
  }

  /** Progress on a stored goal leaves every goal's status as it is; a drive is recorded at its time, other
      progress leaves the last drive. */
  lemma ProgressRecords(view: View, limit: int, e: Event, id: Id)
    requires e.what.GoalProgressed? && e.what.id == Some(id) && id in view
    ensures var after := Applied(view, limit, e);
            && ActiveIds(after) == ActiveIds(view) && after.Keys == view.Keys
            && (forall other :: other in view && other != id ==> after[other] == view[other])
            && after[id].goal.updatedAt == e.at
            && after[id].goal.lastDriveAt == (if e.what.drive then Some(e.at) else view[id].goal.lastDriveAt)
  {
    var after := Applied(view, limit, e);
    assert forall other :: IsActive(after, other) <==> IsActive(view, other);
    assert forall other :: other in ActiveIds(after) <==> IsActive(after, other);
    assert forall other :: other in ActiveIds(view) <==> IsActive(view, other);
  }

  predicate Sets(e: Event, id: Id) {
    e.what.GoalSet? && e.what.goal.Some? && e.what.goal.value.id == id
  }

  predicate Ends(e: Event, id: Id) {
    e.what.GoalEnded? && e.what.id == Some(id)
  }

  lemma FoldOn(view: View, limit: int, log: seq<Event>, e: Event)
    ensures Folded(view, limit, log + [e]) == Applied(Folded(view, limit, log), limit, e)
  {
    assert (log + [e])[..|log|] == log;
  }

  class GoalProjection {
    const limit: int
    var view: View

    constructor (limit: int)
      ensures this.limit == limit && view == map[]
    {
      this.limit, view := limit, map[];
    }

    method Apply(e: Event)
      modifies this
      ensures view == Applied(old(view), limit, e)
    {
      match e.what
      case GoalSet(goal) =>
        if goal.Some? {
          Upsert(e.eventId, goal.value);
        }
      case GoalEnded(id, status) => MarkStatus(e, id, status);
      case GoalProgressed(id, drive) => Progress(e, id, drive);
    }

    method Upsert(eventId: string, goal: Goal)
      modifies this
      ensures view == if WouldExceed(old(view), limit, goal) then old(view) else Upserted(old(view), goal, eventId)
    {
      if goal.status == Active {
        var already := goal.id in view && view[goal.id].goal.status == Active;
        if !already && |ActiveIds(view)| >= limit {
          return;
        }
      }
      var created := if goal.id in view then view[goal.id].goal.createdAt else goal.createdAt;
      view := view[goal.id := Row(goal.(createdAt := created), eventId)];
    }

    method MarkStatus(e: Event, id: Option<Id>, status: Status)
      requires e.what == GoalEnded(id, status)
      modifies this
      ensures view == Applied(old(view), limit, e)
    {
      if id.Some? && id.value in view {
        view := view[id.value := Row(view[id.value].goal.(status := status, updatedAt := e.at), e.eventId)];
      }
    }

    method Progress(e: Event, id: Option<Id>, drive: bool)
      requires e.what == GoalProgressed(id, drive)
      modifies this
      ensures view == Applied(old(view), limit, e)
    {
      if id.Some? && id.value in view {
        var goal := view[id.value].goal;
        var driven := if drive then Some(e.at) else goal.lastDriveAt;
        view := view[id.value := Row(goal.(updatedAt := e.at, lastDriveAt := driven), e.eventId)];
      }
    }

    /** Replays the log into a view that is empty. */
    method RebuildIfEmpty(log: seq<Event>)
      modifies this
      ensures view == if old(view) == map[] then Folded(map[], limit, log) else old(view)
    {
      if |view| > 0 {
        return;
      }
      var i := 0;
      while i < |log|
        invariant 0 <= i <= |log|
        invariant view == Folded(map[], limit, log[..i])
      {
        assert log[..i + 1][..i] == log[..i];
        Apply(log[i]);
        i := i + 1;
      }
      assert log[..i] == log;
    }
  }

  // ---- The registry ----------------------------------------------------------------------

  /** What a caller asks to be set; the id is drawn anew when none, or an empty one, is given. */
  datatype Request = Request(
    description: string, targetOutcome: string, priority: int, source: string, counterpart: Option<string>,
    beliefs: seq<string>, goalId: Option<Id>)

  function ChosenId(r: Request, newId: Id): Id {
    if r.goalId.Some? && r.goalId.value != "" then r.goalId.value else newId
  }

  function RequestedGoal(r: Request, newId: Id, now: Time): Goal {
    Goal(ChosenId(r, newId), r.description, r.targetOutcome, r.priority, Active, r.source, r.counterpart, r.beliefs, None, now, now)
  }

  /** The goal as asked for, active and not driven yet. */
  predicate SaysRequest(g: Goal, r: Request, now: Time) {
    && g.description == r.description && g.targetOutcome == r.targetOutcome && g.priority == r.priority && g.source == r.source
    && g.counterpart == r.counterpart && g.beliefs == r.beliefs
    && g.status == Active && g.lastDriveAt == None && g.updatedAt == now
  }

  /** The goal of the request is active under this id, and no other goal is touched. */
  predicate SetAsAsked(view: View, after: View, r: Request, id: Id, now: Time) {
    && IsActive(after, id) && SaysRequest(after[id].goal, r, now) && after[id].goal.id == id
    && after[id].goal.createdAt == (if id in view then view[id].goal.createdAt else now)
    && after.Keys == view.Keys + {id} && forall other :: other in view && other != id ==> after[other] == view[other]
  }

  predicate Refused(view: View, limit: int, r: Request) {
    !(r.goalId.Some? && IsActive(view, r.goalId.value)) && |ActiveIds(view)| >= limit
  }

  /** What the registry may append while the view is `view`: a goal it does not refuse, under the id asked
      for or a new one, or an event about an existing goal. */
  predicate Emits(view: View, limit: int, e: Event) {
    match e.what
    case GoalSet(None) => false
    case GoalSet(Some(goal)) =>
      && goal.id != "" && goal.status == Active
      && (IsActive(view, goal.id) || |ActiveIds(view)| < limit)
    case GoalEnded(_, status) => status != Active
    case GoalProgressed(_, _) => true
  }

  /** A log every event of which the registry appended, guarded by the view folded so far. */
  predicate RegistryLog(log: seq<Event>, registryLimit: int, limit: int) {
    forall k :: 0 <= k < |log| ==> Emits(Folded(map[], limit, log[..k]), registryLimit, log[k])
  }

  lemma RegistryLogOn(log: seq<Event>, registryLimit: int, limit: int, e: Event)
    requires RegistryLog(log, registryLimit, limit) && Emits(Folded(map[], limit, log), registryLimit, e)
    ensures RegistryLog(log + [e], registryLimit, limit)
  {
    forall k | 0 <= k < |log| + 1
      ensures Emits(Folded(map[], limit, (log + [e])[..k]), registryLimit, (log + [e])[k])
    {
      assert (log + [e])[..k] == log[..k];
      assert log[..|log|] == log;
    }
  }

  lemma EmitsNext(log: seq<Event>, more: seq<Event>, i: nat, registryLimit: int, limit: int)
    requires RegistryLog(log + more, registryLimit, limit) && i < |more|
    ensures Emits(Folded(map[], limit, log + more[..i]), registryLimit, more[i])
  {
    var k := |log| + i;
    assert (log + more)[..k] == log + more[..i] && (log + more)[k] == more[i];
  }

  /** An empty id is drawn anew before it is emitted, so no goal is ever kept under one. */
  lemma {:induction false} NoEmptyId(log: seq<Event>, registryLimit: int, limit: int)
    requires RegistryLog(log, registryLimit, limit)
    ensures "" !in Folded(map[], limit, log)
  {
    if log != [] {
      RegistryLogPrefix(log, registryLimit, limit);
      NoEmptyId(log[..|log| - 1], registryLimit, limit);
      assert Emits(Folded(map[], limit, log[..|log| - 1]), registryLimit, log[|log| - 1]);
    }
  }

  lemma UpsertedAsAsked(view: View, r: Request, newId: Id, eventId: string, now: Time)
    ensures SetAsAsked(view, Upserted(view, RequestedGoal(r, newId, now), eventId), r,
                       if r.goalId.Some? && r.goalId.value != "" then r.goalId.value else newId, now) == true
  {
  }

  /** What the registry lets through is something it may append, whatever id was asked for. */
  lemma NotRefusedIsEmitted(log: seq<Event>, registryLimit: int, limit: int, r: Request, newId: Id, eventId: string, now: Time)
    requires RegistryLog(log, registryLimit, limit) && newId != ""
    requires !Refused(Folded(map[], limit, log), registryLimit, r)
    ensures Emits(Folded(map[], limit, log), registryLimit, Event(eventId, now, GoalSet(Some(RequestedGoal(r, newId, now)))))
  {
    NoEmptyId(log, registryLimit, limit);
  }

  /** Exactly when the projection drops the goal of an emitted event: it is full, the registry was not,
      and the goal is not active already. */
  predicate Drops(view: View, registryLimit: int, limit: int, goal: Goal) {
    !IsActive(view, goal.id) && limit <= |ActiveIds(view)| < registryLimit
  }

  /** Over a whole run from the empty log: each emitted goal is in the view right after its event, as it
      was set, unless it is dropped for the one reason a smaller projection limit gives. */
  lemma EmittedIsKeptIff(log: seq<Event>, registryLimit: int, limit: int, k: nat)
    requires RegistryLog(log, registryLimit, limit) && k < |log| && log[k].what.GoalSet?
    ensures log[k].what.goal.Some?
    ensures var goal, before := log[k].what.goal.value, Folded(map[], limit, log[..k]);
            Folded(map[], limit, log[..k + 1]) ==
            if Drops(before, registryLimit, limit, goal) then before else Upserted(before, goal, log[k].eventId)
  {
    assert Emits(Folded(map[], limit, log[..k]), registryLimit, log[k]);
    assert log[..k + 1][..k] == log[..k] && log[..k + 1][k] == log[k];
  }

  /** With equal limits no goal the registry emits is ever dropped: every one is active right after its
      event, and stays stored. */
  lemma EmittedIsNeverDropped(log: seq<Event>, limit: int, k: nat)
    requires RegistryLog(log, limit, limit) && k < |log| && log[k].what.GoalSet?
    ensures log[k].what.goal.Some? && IsActive(Folded(map[], limit, log[..k + 1]), log[k].what.goal.value.id)
    ensures log[k].what.goal.value.id in Folded(map[], limit, log)
  {
    EmittedIsKeptIff(log, limit, limit, k);
    GoalsStay(limit, log, log[k].what.goal.value.id, k + 1, |log|);
    assert log[..|log|] == log;
  }

  /** The goal was set at `k`, kept there, and has not ended since. */
  predicate SetAndNotEnded(log: seq<Event>, registryLimit: int, limit: int, id: Id, k: nat) {
    && k < |log| && Sets(log[k], id) && !Drops(Folded(map[], limit, log[..k]), registryLimit, limit, log[k].what.goal.value)
    && forall j :: k < j < |log| ==> !Ends(log[j], id)
  }

  lemma SetAndNotEndedOn(log: seq<Event>, registryLimit: int, limit: int, id: Id, k: nat)
    requires log != []
    ensures SetAndNotEnded(log, registryLimit, limit, id, k) <==>
            var last, rest := |log| - 1, log[..|log| - 1];
            if k == last then Sets(log[last], id) && !Drops(Folded(map[], limit, rest), registryLimit, limit, log[last].what.goal.value)
            else SetAndNotEnded(rest, registryLimit, limit, id, k) && !Ends(log[last], id)
  {
    assert k < |log| ==> log[..|log| - 1][..if k < |log| then k else 0] == log[..if k < |log| then k else 0];
  }

  lemma ActiveOn(view: View, registryLimit: int, limit: int, e: Event, id: Id)
    requires Emits(view, registryLimit, e)
    ensures IsActive(Applied(view, limit, e), id) <==>
            || (Sets(e, id) && !Drops(view, registryLimit, limit, e.what.goal.value))
            || (IsActive(view, id) && !Ends(e, id))
  {
  }

  /** Over any run of the registry: a goal is active exactly when it was set, kept, and not satisfied or
      abandoned since. */
  lemma {:induction false} ActiveExactlyWhen(log: seq<Event>, registryLimit: int, limit: int, id: Id)
    requires RegistryLog(log, registryLimit, limit)
    ensures IsActive(Folded(map[], limit, log), id) <==> exists k: nat :: SetAndNotEnded(log, registryLimit, limit, id, k)
  {
    if log != [] {
      var last, rest := |log| - 1, log[..|log| - 1];
      RegistryLogPrefix(log, registryLimit, limit);
      ActiveExactlyWhen(rest, registryLimit, limit, id);
      assert Emits(Folded(map[], limit, log[..last]), registryLimit, log[last]);
      ActiveOn(Folded(map[], limit, rest), registryLimit, limit, log[last], id);
      SetAndNotEndedOn(log, registryLimit, limit, id, last);
      if k: nat :| SetAndNotEnded(log, registryLimit, limit, id, k) {
        SetAndNotEndedOn(log, registryLimit, limit, id, k);
      }
      if k: nat :| SetAndNotEnded(rest, registryLimit, limit, id, k) {
        SetAndNotEndedOn(log, registryLimit, limit, id, k);
      }
    }
  }

  lemma RegistryLogPrefix(log: seq<Event>, registryLimit: int, limit: int)
    requires RegistryLog(log, registryLimit, limit) && log != []
    ensures RegistryLog(log[..|log| - 1], registryLimit, limit)
  {
    var rest := log[..|log| - 1];
    forall k | 0 <= k < |rest|
      ensures Emits(Folded(map[], limit, rest[..k]), registryLimit, rest[k])
    {
      assert rest[..k] == log[..k];
    }
  }

  lemma {:induction false} GoalsStay(limit: int, log: seq<Event>, id: Id, i: nat, j: nat)
    requires i <= j <= |log| && id in Folded(map[], limit, log[..i])
    ensures id in Folded(map[], limit, log[..j])
    decreases j
  {
    if i < j {
      GoalsStay(limit, log, id, i, j - 1);
      assert log[..j][..j - 1] == log[..j - 1];
    }
  }

  class EventLog {
    var events: seq<Event>

    constructor ()
      ensures events == []
    {
      events := [];
    }

    method Append(e: Event)
      modifies this
      ensures events == old(events) + [e]
    {
      events := events + [e];
    }
  }

  class GoalRegistry {
    const log: EventLog
    const projection: GoalProjection?
    const limit: int

    /** The projection, if there is one, holds what the log folds to, and the log is the registry's. */
    ghost predicate Valid()
      reads this, log, projection
    {
      projection != null ==>
        && projection.view == Folded(map[], projection.limit, log.events)
        && RegistryLog(log.events, limit, projection.limit)
    }

    constructor (log: EventLog, projection: GoalProjection?, limit: int)
      ensures this.log == log && this.projection == projection && this.limit == limit
    {
      this.log, this.projection, this.limit := log, projection, limit;
    }

    /** Logs the event first, then applies it. */
    method EmitApply(e: Event)
      requires Valid() && (projection != null ==> Emits(projection.view, limit, e))
      modifies log, projection
      ensures Valid() && log.events == old(log.events) + [e]
      ensures projection != null ==> projection.view == Applied(old(projection.view), projection.limit, e)
    {
      if projection != null {
        FoldOn(map[], projection.limit, log.events, e);
        RegistryLogOn(log.events, limit, projection.limit, e);
      }
      log.Append(e);
      if projection != null {
        projection.Apply(e);
      }
    }

    /** A refusal emits nothing. Otherwise the goal is in the view afterwards, unless the projection has
        the smaller limit and is full. */
    method SetGoal(r: Request, newId: Id, eventId: string, now: Time) returns (ok: bool)
      requires Valid() && newId != ""
      modifies log, projection
      ensures Valid()
      ensures ok == !(projection != null && Refused(old(projection.view), limit, r))
      ensures ok <==> || projection == null || |old(ActiveIds(projection.view))| < limit
                      || (r.goalId.Some? && r.goalId.value in old(projection.view) && old(projection.view)[r.goalId.value].goal.status == Active)
      ensures log.events == if ok then old(log.events) + [Event(eventId, now, GoalSet(Some(RequestedGoal(r, newId, now))))] else old(log.events)
      ensures projection != null && !ok ==> projection.view == old(projection.view)
      ensures projection != null && ok ==>
                var goal := RequestedGoal(r, newId, now);
                projection.view == if Drops(old(projection.view), limit, projection.limit, goal) then old(projection.view)
                                   else Upserted(old(projection.view), goal, eventId)
      ensures projection != null && ok && limit <= projection.limit ==>
                SetAsAsked(old(projection.view), projection.view, r, if r.goalId.Some? && r.goalId.value != "" then r.goalId.value else newId, now)
    {
      var e := Event(eventId, now, GoalSet(Some(RequestedGoal(r, newId, now))));
      if projection != null {
        var existing := r.goalId.Some? && IsActive(projection.view, r.goalId.value);
        if !existing && |ActiveIds(projection.view)| >= limit {
          return false;
        }
        NotRefusedIsEmitted(log.events, limit, projection.limit, r, newId, eventId, now);
        UpsertedAsAsked(projection.view, r, newId, eventId, now);
      }
      EmitApply(e);
      return true;
    }

    method Satisfy(id: Id, eventId: string, now: Time)
      requires Valid()
      modifies log, projection
      ensures Valid() && log.events == old(log.events) + [Event(eventId, now, GoalEnded(Some(id), Satisfied))]
      ensures projection != null ==>
                && ActiveIds(projection.view) == old(ActiveIds(projection.view)) - {id}
                && SameButStatus(old(projection.view), projection.view, id)
                && (id in projection.view ==> projection.view[id].goal.status == Satisfied)
    {
      EmitApply(Event(eventId, now, GoalEnded(Some(id), Satisfied)));
    }

    method Abandon(id: Id, eventId: string, now: Time)
      requires Valid()
      modifies log, projection
      ensures Valid() && log.events == old(log.events) + [Event(eventId, now, GoalEnded(Some(id), Abandoned))]
      ensures projection != null ==>
                && ActiveIds(projection.view) == old(ActiveIds(projection.view)) - {id}
                && SameButStatus(old(projection.view), projection.view, id)
                && (id in projection.view ==> projection.view[id].goal.status == Abandoned)
    {
      EmitApply(Event(eventId, now, GoalEnded(Some(id), Abandoned)));
    }

    method Progress(id: Id, drive: bool, eventId: string, now: Time)
      requires Valid()
      modifies log, projection
      ensures Valid() && log.events == old(log.events) + [Event(eventId, now, GoalProgressed(Some(id), drive))]
      ensures projection != null ==>
                projection.view == Applied(old(projection.view), projection.limit, Event(eventId, now, GoalProgressed(Some(id), drive)))
    {
      EmitApply(Event(eventId, now, GoalProgressed(Some(id), drive)));
    }
  }
}

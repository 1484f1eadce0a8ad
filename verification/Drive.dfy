/** The drive loop: the order goals are tried in, the cooldown, and what a run records. */
module Drive {
  import opened Common
  import opened Text
  import opened Goals

  // ---- Order -----------------------------------------------------------------------------

  function DriveKey(goal: Goal): (int, int, Time, Time) {
    (-goal.priority, if goal.lastDriveAt.Some? then 1 else 0, if goal.lastDriveAt.Some? then goal.lastDriveAt.value else 0,
     goal.updatedAt)
  }

  predicate KeyLess(a: (int, int, Time, Time), b: (int, int, Time, Time)) {
    || a.0 < b.0
    || (a.0 == b.0 && a.1 < b.1)
    || (a.0 == b.0 && a.1 == b.1 && a.2 < b.2)
    || (a.0 == b.0 && a.1 == b.1 && a.2 == b.2 && a.3 < b.3)
  }

  /** Higher priority first, then never driven, then longest undriven, then longest unchanged, then by id. */
  predicate Before(a: Goal, b: Goal) {
    KeyLess(DriveKey(a), DriveKey(b)) || (DriveKey(a) == DriveKey(b) && TextLess(a.id, b.id))
  }

  lemma BeforeTotal(a: Goal, b: Goal)
    requires a.id != b.id
    ensures Before(a, b) || Before(b, a)
  {
    TextLessTotal(a.id, b.id);
  }

  lemma BeforeTransitive(a: Goal, b: Goal, c: Goal)
    requires Before(a, b) && Before(b, c)
    ensures Before(a, c)
  {
    if DriveKey(a) == DriveKey(b) == DriveKey(c) {
      TextLessTransitive(a.id, b.id, c.id);
    }
  }

  predicate InOrder(goals: seq<Goal>) {
    forall i, j :: 0 <= i < j < |goals| ==> Before(goals[i], goals[j])
  }

  /** Every row is keyed by its goal's id. */
  predicate Keyed(view: View) {
    forall id <- view :: view[id].goal.id == id
  }

  lemma {:induction false} FoldedIsKeyed(limit: int, log: seq<Event>)
    ensures Keyed(Folded(map[], limit, log))
  {
    if log != [] {
      FoldedIsKeyed(limit, log[..|log| - 1]);
    }
  }

  /** The active goals, all of them and no others, in order. */
  ghost predicate ActiveList(view: View, goals: seq<Goal>) {
    InOrder(goals) && forall g: Goal :: g in goals <==> IsActive(view, g.id) && view[g.id].goal == g
  }

  method Insert(goals: seq<Goal>, goal: Goal) returns (sorted: seq<Goal>)
    requires InOrder(goals) && forall g <- goals :: g.id != goal.id
    ensures InOrder(sorted) && forall g :: g in sorted <==> g in goals || g == goal
  {
    var i := 0;
    while i < |goals| && Before(goals[i], goal)
      invariant 0 <= i <= |goals|
      invariant forall j :: 0 <= j < i ==> Before(goals[j], goal)
    {
      i := i + 1;
    }
    sorted := goals[..i] + [goal] + goals[i..];
    if i < |goals| {
      BeforeTotal(goals[i], goal);
      forall j | i <= j < |goals|
        ensures Before(goal, goals[j])
      {
        if j > i {
          BeforeTransitive(goal, goals[i], goals[j]);
        }
      }
    }
    assert goals == goals[..i] + goals[i..];
  }

  // ---- Cooldown --------------------------------------------------------------------------

  predicate CooldownElapsed(goal: Goal, now: Time, cooldown: Time) {
    goal.lastDriveAt.None? || now - goal.lastDriveAt.value >= cooldown
  }

  predicate Eligible(view: View, id: Id, now: Time, cooldown: Time) {
    IsActive(view, id) && CooldownElapsed(view[id].goal, now, cooldown)
  }

  /** The eligible goal that comes first, if any goal is eligible. */
  ghost predicate IsSelection(view: View, now: Time, cooldown: Time, picked: Option<Goal>) {
    match picked
    case None => forall id :: !Eligible(view, id, now, cooldown)
    case Some(goal) =>
      && Eligible(view, goal.id, now, cooldown) && view[goal.id].goal == goal
      && forall id :: Eligible(view, id, now, cooldown) && id != goal.id ==> Before(goal, view[id].goal)
  }

  /** No eligible goal is more urgent than this one; of those as urgent, none was never driven while this
      one was, or was driven earlier; of those driven at the same time, none changed earlier. */
  ghost predicate MostDue(view: View, now: Time, cooldown: Time, goal: Goal) {
    forall id :: Eligible(view, id, now, cooldown) ==>
      var g := view[id].goal;
      && g.priority <= goal.priority
      && (g.priority == goal.priority ==>
            && (goal.lastDriveAt.Some? ==> g.lastDriveAt.Some? && goal.lastDriveAt.value <= g.lastDriveAt.value)
            && (goal.lastDriveAt == g.lastDriveAt ==> goal.updatedAt <= g.updatedAt))
  }

  lemma SelectionIsMostDue(view: View, now: Time, cooldown: Time, picked: Option<Goal>)
    requires IsSelection(view, now, cooldown, picked)
    ensures picked.Some? ==> MostDue(view, now, cooldown, picked.value)
  {
    if picked.Some? {
      forall id | Eligible(view, id, now, cooldown) && id != picked.value.id
        ensures Before(picked.value, view[id].goal)
      {
      }
    }
  }

  // ---- Whole runs ------------------------------------------------------------------------

  /** What happens to the view: an event, or the drive loop picking a goal. A drive that is triggered is
      a pick followed, later, by its own progress event. */
  datatype Act = Emitted(event: Event) | Picked(id: Id, now: Time)

  function Acted(view: View, limit: int, a: Act): View {
    if a.Emitted? then Applied(view, limit, a.event) else view
  }

  function ViewAt(limit: int, acts: seq<Act>): View {
    if acts == [] then map[]
    else
      Acted(ViewAt(limit, acts[..|acts| - 1]), limit, acts[|acts| - 1])
  }

  /** Picks are of goals eligible at the time. */
  predicate PicksAreEligible(limit: int, cooldown: Time, acts: seq<Act>) {
    forall i :: 0 <= i < |acts| && acts[i].Picked? ==> Eligible(ViewAt(limit, acts[..i]), acts[i].id, acts[i].now, cooldown)
  }

  function TimeOf(a: Act): Time {
    match a
    case Emitted(e) => e.at
    case Picked(_, now) => now
  }

  predicate ClockMonotone(acts: seq<Act>) {
    forall i, j :: 0 <= i < j < |acts| ==> TimeOf(acts[i]) <= TimeOf(acts[j])
  }

  /** The progress event a drive of this goal ends with. */
  predicate IsDriveOf(a: Act, id: Id) {
    a.Emitted? && a.event.what == GoalProgressed(Some(id), true)
  }

  predicate Resets(a: Act, id: Id) {
    a.Emitted? && a.event.what.GoalSet? && a.event.what.goal.Some? && a.event.what.goal.value.id == id
  }

  lemma ViewNext(limit: int, acts: seq<Act>, i: nat)
    requires i < |acts|
    ensures ViewAt(limit, acts[..i + 1]) ==
            Acted(ViewAt(limit, acts[..i]), limit, acts[i])
  {
    assert acts[..i + 1][..i] == acts[..i];
  }

  predicate DrivenSince(view: View, id: Id, at: Time) {
    id in view && view[id].goal.lastDriveAt.Some? && view[id].goal.lastDriveAt.value >= at
  }

  lemma StillDriven(view: View, limit: int, a: Act, id: Id, at: Time)
    requires DrivenSince(view, id, at) && a.Emitted? && !Resets(a, id) && a.event.at >= at
    ensures DrivenSince(Applied(view, limit, a.event), id, at)
  {
  }

  /** After a drive of a stored goal, and until it is set again, its last drive is no earlier. */
  lemma {:induction false} DriveIsRemembered(limit: int, acts: seq<Act>, id: Id, i: nat, j: nat)
    requires i < j <= |acts| && IsDriveOf(acts[i], id) && id in ViewAt(limit, acts[..i])
    requires ClockMonotone(acts)
    requires forall k :: i < k < j ==> !Resets(acts[k], id)
    ensures DrivenSince(ViewAt(limit, acts[..j]), id, acts[i].event.at)
    decreases j
  {
    ViewNext(limit, acts, j - 1);
    if i < j - 1 {
      DriveIsRemembered(limit, acts, id, i, j - 1);
      assert TimeOf(acts[i]) <= TimeOf(acts[j - 1]);
      if acts[j - 1].Emitted? {
        StillDriven(ViewAt(limit, acts[..j - 1]), limit, acts[j - 1], id, acts[i].event.at);
      }
    }
  }

  /** Rows are never removed. */
  lemma {:induction false} RowsStay(limit: int, acts: seq<Act>, id: Id, i: nat, j: nat)
    requires i <= j <= |acts| && id in ViewAt(limit, acts[..i])
    ensures id in ViewAt(limit, acts[..j])
    decreases j
  {
    if i < j {
      RowsStay(limit, acts, id, i, j - 1);
      ViewNext(limit, acts, j - 1);
    }
  }

  /** Two triggered drives of one goal with no set of it between them are at least the cooldown apart:
      the second is picked no earlier than the cooldown after the first's progress event, so the two
      progress events, and the two picks, are at least that far apart too. */
  lemma DrivesAreSpaced(limit: int, cooldown: Time, acts: seq<Act>, id: Id, pick: nat, drive: nat, pick2: nat, drive2: nat)
    requires pick < drive < pick2 < drive2 < |acts|
    requires acts[pick].Picked? && acts[pick].id == id && acts[pick2].Picked? && acts[pick2].id == id
    requires IsDriveOf(acts[drive], id) && IsDriveOf(acts[drive2], id)
    requires PicksAreEligible(limit, cooldown, acts) && ClockMonotone(acts)
    requires forall k :: drive < k < pick2 ==> !Resets(acts[k], id)
    ensures acts[pick2].now - acts[drive].event.at >= cooldown
    ensures acts[pick2].now - acts[pick].now >= cooldown
    ensures acts[drive2].event.at - acts[drive].event.at >= cooldown
  {
    assert Eligible(ViewAt(limit, acts[..pick]), id, acts[pick].now, cooldown);
    RowsStay(limit, acts, id, pick, drive);
    DriveIsRemembered(limit, acts, id, drive, pick2);
    assert Eligible(ViewAt(limit, acts[..pick2]), id, acts[pick2].now, cooldown);
    assert TimeOf(acts[pick]) <= TimeOf(acts[drive]);
    assert TimeOf(acts[pick2]) <= TimeOf(acts[drive2]);
  }

  /** Every act of a drive that is triggered: the pick, what its turn emits, and its progress event. */
  function DriveActs(id: Id, now: Time, turn: seq<Event>, eventId: string, later: Time): seq<Act> {
    [Picked(id, now)] + Emissions(turn + [Event(eventId, later, GoalProgressed(Some(id), true))])
  }

  function Emissions(events: seq<Event>): seq<Act> {
    seq(|events|, i requires 0 <= i < |events| => Emitted(events[i]))
  }

  lemma ViewOn(limit: int, acts: seq<Act>, a: Act)
    ensures ViewAt(limit, acts + [a]) == Acted(ViewAt(limit, acts), limit, a)
  {
    assert (acts + [a])[..|acts|] == acts;
  }

  lemma PicksOn(limit: int, cooldown: Time, acts: seq<Act>, a: Act)
    requires PicksAreEligible(limit, cooldown, acts)
    requires a.Picked? ==> Eligible(ViewAt(limit, acts), a.id, a.now, cooldown)
    ensures PicksAreEligible(limit, cooldown, acts + [a])
  {
    forall i | 0 <= i < |acts| + 1 && (acts + [a])[i].Picked?
      ensures Eligible(ViewAt(limit, (acts + [a])[..i]), (acts + [a])[i].id, (acts + [a])[i].now, cooldown)
    {
      assert (acts + [a])[..i] == acts[..i];
      assert acts[..|acts|] == acts;
    }
  }

  /** The history of a view that a log folds to, whose picks were of eligible goals. */
  ghost predicate HistoryOf(limit: int, cooldown: Time, log: seq<Event>, acts: seq<Act>) {
    ViewAt(limit, acts) == Folded(map[], limit, log) && PicksAreEligible(limit, cooldown, acts)
  }

  lemma EmissionExtends(limit: int, cooldown: Time, log: seq<Event>, acts: seq<Act>, e: Event)
    requires HistoryOf(limit, cooldown, log, acts)
    ensures HistoryOf(limit, cooldown, log + [e], acts + [Emitted(e)])
  {
    PicksOn(limit, cooldown, acts, Emitted(e));
    ViewOn(limit, acts, Emitted(e));
    FoldOn(map[], limit, log, e);
  }

  lemma {:induction false} EmissionsExtend(limit: int, cooldown: Time, log: seq<Event>, acts: seq<Act>, events: seq<Event>)
    requires HistoryOf(limit, cooldown, log, acts)
    ensures HistoryOf(limit, cooldown, log + events, acts + Emissions(events))
    decreases |events|
  {
    if events == [] {
      assert log + events == log && acts + Emissions(events) == acts;
    } else {
      var rest, last := events[..|events| - 1], events[|events| - 1];
      EmissionsExtend(limit, cooldown, log, acts, rest);
      EmissionExtends(limit, cooldown, log + rest, acts + Emissions(rest), last);
      assert log + events == log + rest + [last];
      assert acts + Emissions(events) == acts + Emissions(rest) + [Emitted(last)];
    }
  }

  lemma DriveExtends(
    limit: int, cooldown: Time, log: seq<Event>, acts: seq<Act>, id: Id, now: Time, turn: seq<Event>, eventId: string, later: Time)
    requires HistoryOf(limit, cooldown, log, acts) && Eligible(Folded(map[], limit, log), id, now, cooldown)
    ensures HistoryOf(limit, cooldown, log + turn + [Event(eventId, later, GoalProgressed(Some(id), true))],
                      acts + DriveActs(id, now, turn, eventId, later))
  {
    var last := Event(eventId, later, GoalProgressed(Some(id), true));
    PicksOn(limit, cooldown, acts, Picked(id, now));
    ViewOn(limit, acts, Picked(id, now));
    EmissionsExtend(limit, cooldown, log, acts + [Picked(id, now)], turn + [last]);
    assert log + turn + [last] == log + (turn + [last]);
    assert acts + DriveActs(id, now, turn, eventId, later) == acts + [Picked(id, now)] + Emissions(turn + [last]);
  }

  /** Two drives of one goal that overlap: both picked before either is recorded. */
  function Overlap(id: Id, now: Time): seq<Act> {
    var drive := Event("", now, GoalProgressed(Some(id), true));
    [Picked(id, now), Picked(id, now)] + Emissions([drive, drive])
  }

  /** A drive that is picked while another of the same goal is still running is not spaced at all: from
      any run in which a goal is eligible, two overlapping drives of it can both be recorded at once. So
      recording a drive before the next pick is exactly what the cooldown needs. */
  lemma OverlappingDrivesCanCoincide(limit: int, cooldown: Time, acts: seq<Act>, id: Id, now: Time)
    requires PicksAreEligible(limit, cooldown, acts) && Eligible(ViewAt(limit, acts), id, now, cooldown)
    ensures PicksAreEligible(limit, cooldown, acts + Overlap(id, now))
    ensures var o := Overlap(id, now); IsDriveOf(o[2], id) && IsDriveOf(o[3], id) && o[3].event.at - o[2].event.at == 0
  {
    var o, pick := Overlap(id, now), Picked(id, now);
    var drive := Emitted(Event("", now, GoalProgressed(Some(id), true)));
    assert o == [pick, pick, drive, drive];
    var a1 := acts + [pick];
    PicksOn(limit, cooldown, acts, pick);
    ViewOn(limit, acts, pick);
    var a2 := a1 + [pick];
    PicksOn(limit, cooldown, a1, pick);
    PicksOn(limit, cooldown, a2, drive);
    PicksOn(limit, cooldown, a2 + [drive], drive);
    assert a2 + [drive] + [drive] == acts + o;
  }

  /** Nor does the clock rule the overlap out. */
  lemma OverlapKeepsClock(acts: seq<Act>, id: Id, now: Time)
    requires ClockMonotone(acts) && forall i :: 0 <= i < |acts| ==> TimeOf(acts[i]) <= now
    ensures ClockMonotone(acts + Overlap(id, now))
  {
    forall k | 0 <= k < 4
      ensures TimeOf(Overlap(id, now)[k]) == now
    {
    }
  }

  /** Setting a goal again clears its last drive, so it can be driven at once. */
  lemma SettingClearsCooldown(view: View, limit: int, r: Request, newId: Id, eventId: string, at: Time, now: Time, cooldown: Time)
    requires !WouldExceed(view, limit, RequestedGoal(r, newId, at))
    ensures Eligible(Applied(view, limit, Event(eventId, at, GoalSet(Some(RequestedGoal(r, newId, at))))), ChosenId(r, newId), now, cooldown)
  {
  }

  // ---- The loop --------------------------------------------------------------------------

  lemma EmitsNow(events: seq<Event>, before: seq<Event>, turn: seq<Event>, i: nat, registryLimit: int, limit: int)
    requires RegistryLog(before + turn, registryLimit, limit) && i < |turn| && events == before + turn[..i]
    ensures Emits(Folded(map[], limit, events), registryLimit, turn[i]) == true
    ensures events + [turn[i]] == before + turn[..i + 1]
  {
    EmitsNext(before, turn, i, registryLimit, limit);
    assert turn[..i + 1] == turn[..i] + [turn[i]];
  }

  datatype Report = Report(selected: Option<Id>, triggered: bool, dropped: bool, skipped: string)

  class DriveLoop {
    const registry: GoalRegistry
    const projection: GoalProjection
    const enabled: bool
    const cooldown: Time

    ghost predicate Valid()
      reads this, registry, registry.log, projection
    {
      && registry.projection == projection && registry.Valid()
    }

    constructor (registry: GoalRegistry, projection: GoalProjection, enabled: bool, cooldown: Time)
      requires registry.projection == projection && registry.Valid()
      ensures Valid() && this.registry == registry && this.projection == projection
      ensures this.enabled == enabled && this.cooldown == cooldown
    {
      this.registry, this.projection, this.enabled, this.cooldown := registry, projection, enabled, cooldown;
    }

    /** The active goals in the order they are tried. */
    method ActiveGoals() returns (goals: seq<Goal>)
      requires Keyed(projection.view)
      ensures ActiveList(projection.view, goals)
    {
      var view := projection.view;
      goals := [];
      var left := ActiveIds(view);
      while left != {}
        invariant left <= ActiveIds(view) && InOrder(goals)
        invariant forall g: Goal :: g in goals <==> IsActive(view, g.id) && view[g.id].goal == g && g.id !in left
        decreases left
      {
        var id :| id in left;
        goals := Insert(goals, view[id].goal);
        left := left - {id};
      }
    }

    method SelectGoal(now: Time) returns (picked: Option<Goal>)
      requires Keyed(projection.view)
      ensures IsSelection(projection.view, now, cooldown, picked)
      ensures picked.Some? ==> MostDue(projection.view, now, cooldown, picked.value)
    {
      var goals := ActiveGoals();
      var i := 0;
      while i < |goals|
        invariant 0 <= i <= |goals|
        invariant forall j :: 0 <= j < i ==> !CooldownElapsed(goals[j], now, cooldown)
      {
        if CooldownElapsed(goals[i], now, cooldown) {
          forall id | Eligible(projection.view, id, now, cooldown) && id != goals[i].id
            ensures Before(goals[i], projection.view[id].goal)
          {
            var g := projection.view[id].goal;
            assert g in goals;
            var j :| 0 <= j < |goals| && goals[j] == g;
          }
          assert goals[i] in goals;
          SelectionIsMostDue(projection.view, now, cooldown, Some(goals[i]));
          return Some(goals[i]);
        }
        i := i + 1;
      }
      forall id
        ensures !Eligible(projection.view, id, now, cooldown)
      {
        if IsActive(projection.view, id) {
          assert projection.view[id].goal in goals;
        }
      }
      return None;
    }

    /** One run, on top of any history of picks and events. A drive is triggered exactly when a goal was
        selected and its turn was not refused as busy; after whatever goal events the turn itself emits it
        records exactly one progress event for that goal. The history grows by exactly those acts, and its
        picks stay eligible ones, so drives that follow each other are spaced. */
    method RunOnce(force: bool, now: Time, busy: bool, turn: seq<Event>, eventId: string, later: Time, ghost acts: seq<Act>)
      returns (report: Report, ghost acts': seq<Act>)
      requires Valid() && RegistryLog(registry.log.events + turn, registry.limit, projection.limit)
      requires HistoryOf(projection.limit, cooldown, registry.log.events, acts)
      modifies registry.log, projection
      ensures Valid() && HistoryOf(projection.limit, cooldown, registry.log.events, acts')
      ensures !enabled && !force ==> report.skipped == "disabled" && report.selected.None?
      ensures enabled || force ==>
                exists picked :: && IsSelection(old(projection.view), now, cooldown, picked)
                                 && report.selected == (if picked.Some? then Some(picked.value.id) else None)
      ensures report.triggered <==> report.selected.Some? && !report.dropped
      ensures report.dropped <==> report.selected.Some? && busy
      ensures report.triggered ==>
                && acts' == acts + DriveActs(report.selected.value, now, turn, eventId, later)
                && registry.log.events == old(registry.log.events) + turn + [Event(eventId, later, GoalProgressed(report.selected, true))]
      ensures !report.triggered ==> acts' == acts && registry.log.events == old(registry.log.events)
    {
      acts' := acts;
      if !enabled && !force {
        return Report(None, false, false, "disabled"), acts';
      }
      FoldedIsKeyed(projection.limit, registry.log.events);
      var picked := SelectGoal(now);
      if picked.None? {
        return Report(None, false, false, "no_eligible_goal"), acts';
      }
      var id := picked.value.id;
      if busy {
        return Report(Some(id), false, true, "runtime_turn_busy"), acts';
      }
      DriveExtends(projection.limit, cooldown, registry.log.events, acts, id, now, turn, eventId, later);
      acts' := acts + DriveActs(id, now, turn, eventId, later);
      EmitTurn(turn);
      registry.Progress(id, true, eventId, later);
      return Report(Some(id), true, false, ""), acts';
    }

    /** What the turn itself emits. */
    method EmitTurn(turn: seq<Event>)
      requires Valid() && RegistryLog(registry.log.events + turn, registry.limit, projection.limit)
      modifies registry.log, projection
      ensures Valid() && registry.log.events == old(registry.log.events) + turn
    {
      ghost var before := registry.log.events;
      var i := 0;
      while i < |turn|
        invariant 0 <= i <= |turn| && Valid()
        invariant registry.log.events == before + turn[..i]
      {
        EmitsNow(registry.log.events, before, turn, i, registry.limit, projection.limit);
        registry.EmitApply(turn[i]);
        i := i + 1;
      }
      assert turn[..i] == turn;
    }
  }
}

/** Lifecycles and supersession links over whole runs of foreground and background writes. */
module BeliefRuns {
  import opened Common
  import opened Beliefs
  import opened BeliefIndexes

  predicate Retired(l: Lifecycle) {
    l in {Superseded, Retracted, Archived}
  }

  /** A belief as every writer builds it: a new id, not yet retired, superseded by nothing. */
  predicate NewBelief(s: Tables, b: Belief) {
    && !Stored(s, AtomicTable, b.id) && !Stored(s, SummaryTable, b.id)
    && !Retired(b.lifecycle) && b.supersededBy.None?
  }

  /** What the callers of the store write. Targets may be anything, stored or not. */
  predicate FreshWrite(s: Tables, w: Write) {
    match w
    case Put(b) => NewBelief(s, b)
    case Supersede(olds, b, _) => NewBelief(s, b) && b.kind.OfMemory? && b.id !in olds
    case Mark(_, lifecycle, _) => Retired(lifecycle)
    case Reaffirm(_, _, _) => true
    case Reset => false
  }

  predicate FreshRun(lx: Lexer, s: Tables, ws: seq<Write>)
    decreases |ws|
  {
    ws == [] || (FreshWrite(s, ws[0]) && FreshRun(lx, Wrote(lx, s, ws[0]), ws[1..]))
  }

  // ---- One write -------------------------------------------------------------------------

  function SupersededRecord(b: Belief, newId: Id, at: Time): Belief {
    b.(lifecycle := Superseded, heldUntil := Some(at), supersededBy := Some(newId))
  }

  lemma {:induction false} SupersedeAllRecords(lx: Lexer, s: Tables, olds: seq<Id>, newId: Id, at: Time)
    requires RowsAgree(lx, s)
    ensures var s' := AllSuperseded(s, olds, newId, at);
            && RowsAgree(lx, s')
            && (forall t, id :: Stored(s', t, id) <==> Stored(s, t, id))
            && (forall t, id :: Stored(s, t, id) ==>
                  RecordOf(s', t, id) == if t == AtomicTable && id in olds
                                         then SupersededRecord(RecordOf(s, t, id), newId, at)
                                         else RecordOf(s, t, id))
    decreases |olds|
  {
    if olds != [] {
      var s1 := Marked(s, AtomicTable, olds[0], Superseded, at, Some(newId));
      MarkKeepsRows(lx, s, AtomicTable, olds[0], Superseded, at, Some(newId));
      MarkStores(s, AtomicTable, olds[0], Superseded, at, Some(newId));
      SupersedeAllRecords(lx, s1, olds[1..], newId, at);
      forall t, id | Stored(s, t, id)
        ensures Stored(s1, t, id)
        ensures RecordOf(s1, t, id) == if t == AtomicTable && id == olds[0]
                                       then SupersededRecord(RecordOf(s, t, id), newId, at) else RecordOf(s, t, id)
      {
      }
      assert forall id :: id in olds <==> id == olds[0] || id in olds[1..];
    }
  }

  /** The record a write leaves for a belief that was stored before it. */
  function RecordAfter(lx: Lexer, s: Tables, w: Write, t: Table, id: Id): Belief
    requires Stored(s, t, id)
  {
    var b := RecordOf(s, t, id);
    match w
    case Put(_) => b
    case Supersede(olds, n, at) => if t == AtomicTable && id in olds then SupersededRecord(b, n.id, at) else b
    case Mark(target, lifecycle, at) =>
      if target == id && (t == AtomicTable || !Stored(s, AtomicTable, id))
      then b.(lifecycle := lifecycle, heldUntil := Some(at)) else b
    case Reaffirm(target, source, at) => if target == id && t == AtomicTable then WithSource(b, source, at) else b
    case Reset => b
  }

  /** A write stores its new belief and otherwise changes only the records it targets. */
  lemma WriteRecords(lx: Lexer, s: Tables, w: Write)
    requires RowsAgree(lx, s) && FreshWrite(s, w)
    ensures var s' := Wrote(lx, s, w);
            && RowsAgree(lx, s')
            && (forall t, id :: Stored(s, t, id) ==> Stored(s', t, id) && RecordOf(s', t, id) == RecordAfter(lx, s, w, t, id))
            && (forall t, id :: Stored(s', t, id) && !Stored(s, t, id) ==>
                  (w.Put? || w.Supersede?) && RecordOf(s', t, id) == w.belief)
  {
    var s' := Wrote(lx, s, w);
    match w
    case Put(b) =>
      UpsertStores(lx, s, b);
    case Supersede(olds, b, at) =>
      UpsertStores(lx, s, b);
      var s1 := Upserted(lx, s, b);
      SupersedeAllRecords(lx, s1, olds, b.id, at);
      forall t, id | Stored(s, t, id)
        ensures Stored(s', t, id) && RecordOf(s', t, id) == RecordAfter(lx, s, w, t, id)
      {
        assert Stored(s1, t, id) && RecordOf(s1, t, id) == RecordOf(s, t, id);
      }
    case Mark(id, lifecycle, at) =>
      MarkRecords(lx, s, id, lifecycle, at);
    case Reaffirm(id, source, at) =>
      ReaffirmRecords(lx, s, id, source, at);
  }

  lemma MarkRecords(lx: Lexer, s: Tables, target: Id, lifecycle: Lifecycle, at: Time)
    requires RowsAgree(lx, s)
    ensures var s' := MarkedById(s, target, lifecycle, at);
            && RowsAgree(lx, s')
            && (forall t, id :: Stored(s', t, id) <==> Stored(s, t, id))
            && (forall t, id :: Stored(s, t, id) ==>
                  RecordOf(s', t, id) == RecordAfter(lx, s, Mark(target, lifecycle, at), t, id))
  {
    var found := GetById(s, target);
    if found.Some? {
      var t := TableOf(found.value);
      assert Stored(s, t, target) && (t == AtomicTable || !Stored(s, AtomicTable, target)) by {
        assert Stored(s, AtomicTable, target) || Stored(s, SummaryTable, target);
      }
      MarkKeepsRows(lx, s, t, target, lifecycle, at, None);
      MarkStores(s, t, target, lifecycle, at, None);
    } else {
      assert !Stored(s, AtomicTable, target) && !Stored(s, SummaryTable, target);
    }
  }

  lemma ReaffirmRecords(lx: Lexer, s: Tables, target: Id, source: Reference, at: Time)
    requires RowsAgree(lx, s)
    ensures var s' := Reaffirmed(lx, s, target, source, at);
            && RowsAgree(lx, s')
            && (forall t, id :: Stored(s', t, id) <==> Stored(s, t, id))
            && (forall t, id :: Stored(s, t, id) ==>
                  RecordOf(s', t, id) == RecordAfter(lx, s, Reaffirm(target, source, at), t, id))
  {
    if Stored(s, AtomicTable, target) {
      assert GetById(s, target) == Some(RecordOf(s, AtomicTable, target));
      UpsertStores(lx, s, WithSource(RecordOf(s, AtomicTable, target), source, at));
    } else if Stored(s, SummaryTable, target) {
      assert GetById(s, target).value.kind.OfSummary?;
    }
  }

  // ---- What a reaffirmation records ------------------------------------------------------

  predicate NoRepeats(refs: seq<Reference>) {
    forall i, j :: 0 <= i < j < |refs| ==> refs[i] != refs[j]
  }

  /** A reaffirmed belief has the source among its sources, after the ones it had and with nothing else
      added; it was observed at the given time, if one is given; everything else is as it was. */
  predicate Reaffirms(b: Belief, b': Belief, source: Reference, at: Time) {
    && source in b'.sources && b.sources <= b'.sources && |b'.sources| <= |b.sources| + 1
    && (source in b.sources ==> b'.sources == b.sources)
    && (NoRepeats(b.sources) ==> NoRepeats(b'.sources))
    && b'.observedAt == (if at == "" then b.observedAt else Some(at))
    && b'.(sources := b.sources, observedAt := b.observedAt) == b
  }

  lemma ReaffirmKeepsEvidence(lx: Lexer, s: Tables, id: Id, source: Reference, at: Time)
    requires RowsAgree(lx, s) && Stored(s, AtomicTable, id)
    ensures var s' := Wrote(lx, s, Reaffirm(id, source, at));
            && RowsAgree(lx, s') && Stored(s', AtomicTable, id)
            && Reaffirms(RecordOf(s, AtomicTable, id), RecordOf(s', AtomicTable, id), source, at)
            && forall t, other :: Stored(s, t, other) && !(t == AtomicTable && other == id) ==>
                 Stored(s', t, other) && RecordOf(s', t, other) == RecordOf(s, t, other)
  {
    ReaffirmRecords(lx, s, id, source, at);
  }

  // ---- Retired beliefs stay retired ------------------------------------------------------

  /** Over any run of writes with fresh ids, a superseded, retracted or archived belief is never
      Active, or pending, again. */
  lemma {:induction false} RetiredStaysRetired(lx: Lexer, s: Tables, ws: seq<Write>, t: Table, id: Id)
    requires RowsAgree(lx, s) && FreshRun(lx, s, ws)
    requires Stored(s, t, id) && Retired(RecordOf(s, t, id).lifecycle)
    ensures var s' := WroteAll(lx, s, ws); Stored(s', t, id) && Retired(RecordOf(s', t, id).lifecycle)
    decreases |ws|
  {
    if ws != [] {
      WriteRecords(lx, s, ws[0]);
      RetiredStaysRetired(lx, Wrote(lx, s, ws[0]), ws[1..], t, id);
    }
  }

  // ---- Links lead forward and end --------------------------------------------------------

  function LinkOf(s: Tables, id: Id): Option<Id>
    requires Stored(s, AtomicTable, id)
  {
    RecordOf(s, AtomicTable, id).supersededBy
  }

  /** `rank` orders atomic beliefs by creation; links lead from older to newer stored beliefs. */
  ghost predicate LinksLeadForward(s: Tables, rank: map<Id, nat>) {
    && (forall id :: Stored(s, AtomicTable, id) ==> id in rank && rank[id] < |s.atomic|)
    && (forall id :: Stored(s, AtomicTable, id) && LinkOf(s, id).Some? ==>
          var next := LinkOf(s, id).value;
          Stored(s, AtomicTable, next) && rank[id] < rank[next])
  }

  /** The links a write leaves: those of its targets lead to its new belief, all others are kept. */
  lemma WriteLinks(lx: Lexer, s: Tables, w: Write)
    requires RowsAgree(lx, s) && FreshWrite(s, w)
    ensures var s' := Wrote(lx, s, w);
            && (forall id :: Stored(s, AtomicTable, id) ==>
                  && Stored(s', AtomicTable, id)
                  && LinkOf(s', id) == if w.Supersede? && id in w.olds then Some(w.belief.id) else LinkOf(s, id))
            && (forall id :: Stored(s', AtomicTable, id) && !Stored(s, AtomicTable, id) ==> LinkOf(s', id).None?)
  {
    WriteRecords(lx, s, w);
  }

  /** Adding at most one belief, linked to nothing, and relinking old ones only to it. */
  lemma GrowingKeepsLinksForward(s: Tables, s': Tables, added: set<Id>, rank: map<Id, nat>) returns (rank': map<Id, nat>)
    requires LinksLeadForward(s, rank)
    requires |added| <= 1 && added !! s.atomic.Keys && s'.atomic.Keys == s.atomic.Keys + added
    requires forall id :: Stored(s, AtomicTable, id) ==>
               LinkOf(s', id) == LinkOf(s, id) || (LinkOf(s', id).Some? && LinkOf(s', id).value in added)
    requires forall id <- added :: Stored(s', AtomicTable, id) && LinkOf(s', id).None?
    ensures LinksLeadForward(s', rank')
  {
    rank' := map id | id in rank.Keys + added :: if id in added then |s.atomic| else rank[id];
    assert |s'.atomic.Keys| == |s.atomic.Keys| + |added|;
    forall id | Stored(s', AtomicTable, id)
      ensures id in rank' && rank'[id] < |s'.atomic|
      ensures LinkOf(s', id).Some? ==>
                var next := LinkOf(s', id).value; Stored(s', AtomicTable, next) && rank'[id] < rank'[next]
    {
      if id in added {
        assert |added| == 1;
      } else {
        assert Stored(s, AtomicTable, id);
        if LinkOf(s', id).Some? && LinkOf(s', id).value !in added {
          assert Stored(s, AtomicTable, LinkOf(s, id).value);
        }
      }
    }
  }

  lemma WriteKeepsLinksForward(lx: Lexer, s: Tables, w: Write, rank: map<Id, nat>) returns (rank': map<Id, nat>)
    requires RowsAgree(lx, s) && FreshWrite(s, w) && LinksLeadForward(s, rank)
    ensures LinksLeadForward(Wrote(lx, s, w), rank')
  {
    WriteLinks(lx, s, w);
    var added := WriteAdds(lx, s, w);
    rank' := GrowingKeepsLinksForward(s, Wrote(lx, s, w), added, rank);
  }

  lemma WriteAdds(lx: Lexer, s: Tables, w: Write) returns (added: set<Id>)
    requires RowsAgree(lx, s) && FreshWrite(s, w)
    ensures var s' := Wrote(lx, s, w);
            && |added| <= 1 && added !! s.atomic.Keys && s'.atomic.Keys == s.atomic.Keys + added
            && (forall id <- added :: Stored(s', AtomicTable, id) && LinkOf(s', id).None?)
            && (w.Supersede? ==> added == {w.belief.id})
  {
    if (w.Put? && w.belief.kind.OfMemory?) || w.Supersede? {
      added := {w.belief.id};
      NewAtomic(lx, s, w);
      assert !Stored(s, AtomicTable, w.belief.id);
      assert Stored(Wrote(lx, s, w), AtomicTable, w.belief.id);
    } else {
      added := {};
      SameAtomic(lx, s, w);
    }
  }

  lemma NewAtomic(lx: Lexer, s: Tables, w: Write)
    requires RowsAgree(lx, s) && FreshWrite(s, w)
    requires (w.Put? && w.belief.kind.OfMemory?) || w.Supersede?
    ensures var s' := Wrote(lx, s, w);
            && s'.atomic.Keys == s.atomic.Keys + {w.belief.id}
            && LinkOf(s', w.belief.id) == None
  {
    var s' := Wrote(lx, s, w);
    WriteRecords(lx, s, w);
    UpsertStores(lx, s, w.belief);
    if w.Supersede? {
      SupersedeAllRecords(lx, Upserted(lx, s, w.belief), w.olds, w.belief.id, w.at);
    }
    assert Stored(s', AtomicTable, w.belief.id);
    forall id
      ensures id in s'.atomic.Keys <==> id in s.atomic.Keys + {w.belief.id}
    {
      assert Stored(s', AtomicTable, id) && !Stored(s, AtomicTable, id) ==> RecordOf(s', AtomicTable, id).id == id;
      assert Stored(s, AtomicTable, id) ==> Stored(s', AtomicTable, id);
    }
  }

  lemma SameAtomic(lx: Lexer, s: Tables, w: Write)
    requires RowsAgree(lx, s) && FreshWrite(s, w)
    requires (w.Put? && w.belief.kind.OfSummary?) || w.Mark? || w.Reaffirm?
    ensures Wrote(lx, s, w).atomic.Keys == s.atomic.Keys
  {
    var s' := Wrote(lx, s, w);
    WriteRecords(lx, s, w);
    forall id
      ensures id in s'.atomic.Keys <==> id in s.atomic.Keys
    {
      assert Stored(s', AtomicTable, id) && !Stored(s, AtomicTable, id) ==> TableOf(RecordOf(s', AtomicTable, id)) == AtomicTable;
      assert Stored(s, AtomicTable, id) ==> Stored(s', AtomicTable, id);
    }
  }

  lemma {:induction false} RunKeepsLinksForward(lx: Lexer, s: Tables, ws: seq<Write>, rank: map<Id, nat>)
    returns (rank': map<Id, nat>)
    requires RowsAgree(lx, s) && FreshRun(lx, s, ws) && LinksLeadForward(s, rank)
    ensures RowsAgree(lx, WroteAll(lx, s, ws)) && LinksLeadForward(WroteAll(lx, s, ws), rank')
    decreases |ws|
  {
    if ws == [] {
      rank' := rank;
    } else {
      WriteRecords(lx, s, ws[0]);
      rank' := WriteKeepsLinksForward(lx, s, ws[0], rank);
      rank' := RunKeepsLinksForward(lx, Wrote(lx, s, ws[0]), ws[1..], rank');
    }
  }

  /** A path of links: stored beliefs, each superseded by the next, none repeated, the last by none. */
  ghost predicate IsWholeChain(s: Tables, path: seq<Id>) {
    && path != []
    && (forall id <- path :: Stored(s, AtomicTable, id))
    && (forall i :: 0 <= i < |path| - 1 ==> LinkOf(s, path[i]) == Some(path[i + 1]))
    && LinkOf(s, path[|path| - 1]) == None
    && (forall i, j :: 0 <= i < j < |path| ==> path[i] != path[j])
  }

  lemma {:induction false} ChainFrom(s: Tables, rank: map<Id, nat>, id: Id) returns (path: seq<Id>)
    requires LinksLeadForward(s, rank) && Stored(s, AtomicTable, id)
    ensures IsWholeChain(s, path) && path[0] == id
    ensures forall other <- path :: rank[id] <= rank[other]
    decreases |s.atomic| - rank[id]
  {
    if LinkOf(s, id).None? {
      path := [id];
    } else {
      var rest := ChainFrom(s, rank, LinkOf(s, id).value);
      path := [id] + rest;
      assert forall i :: 1 <= i < |path| ==> path[i] == rest[i - 1] && path[i] in rest;
    }
  }

  /** After any run of writes with fresh ids from the empty store, following `superseded_by` from any
      atomic belief visits stored beliefs only, repeats none, and ends. */
  lemma LinksAlwaysEnd(lx: Lexer, ws: seq<Write>, id: Id)
    requires FreshRun(lx, EMPTY, ws)
    requires Stored(WroteAll(lx, EMPTY, ws), AtomicTable, id)
    ensures exists path :: IsWholeChain(WroteAll(lx, EMPTY, ws), path) && path[0] == id
  {
    assert forall t, i :: !Stored(EMPTY, t, i);
    var rank := RunKeepsLinksForward(lx, EMPTY, ws, map[]);
    var path := ChainFrom(WroteAll(lx, EMPTY, ws), rank, id);
  }

  // ---- Links and lifecycles agree --------------------------------------------------------

  /** An atomic belief is linked exactly when it is Superseded; summaries are never linked. */
  ghost predicate LinksTruthful(s: Tables) {
    && (forall id :: Stored(s, AtomicTable, id) ==>
          (LinkOf(s, id).Some? <==> RecordOf(s, AtomicTable, id).lifecycle == Superseded))
    && (forall id :: Stored(s, SummaryTable, id) ==> RecordOf(s, SummaryTable, id).supersededBy.None?)
  }

  /** Writes whose targets are Active when they run, as the validating callers make them; atomic
      beliefs are marked Superseded only through a superseding write. */
  predicate GuardedWrite(s: Tables, w: Write) {
    && FreshWrite(s, w)
    && (w.Supersede? ==> forall id <- w.olds :: IsActive(s, AtomicTable, id))
    && (w.Mark? && Stored(s, AtomicTable, w.id) ==> IsActive(s, AtomicTable, w.id) && w.lifecycle != Superseded)
  }

  predicate GuardedRun(lx: Lexer, s: Tables, ws: seq<Write>)
    decreases |ws|
  {
    ws == [] || (GuardedWrite(s, ws[0]) && GuardedRun(lx, Wrote(lx, s, ws[0]), ws[1..]))
  }

  lemma GuardedWriteKeepsLinksTruthful(lx: Lexer, s: Tables, w: Write)
    requires RowsAgree(lx, s) && GuardedWrite(s, w) && LinksTruthful(s)
    ensures LinksTruthful(Wrote(lx, s, w))
  {
    var s' := Wrote(lx, s, w);
    WriteRecords(lx, s, w);
    forall id | Stored(s', AtomicTable, id)
      ensures LinkOf(s', id).Some? <==> RecordOf(s', AtomicTable, id).lifecycle == Superseded
    {
      if Stored(s, AtomicTable, id) {
        assert LinkOf(s, id).Some? <==> RecordOf(s, AtomicTable, id).lifecycle == Superseded;
      }
    }
    forall id | Stored(s', SummaryTable, id)
      ensures RecordOf(s', SummaryTable, id).supersededBy.None?
    {
      if Stored(s, SummaryTable, id) {
        assert RecordOf(s, SummaryTable, id).supersededBy.None?;
      }
    }
  }

  lemma {:induction false} LinksAlwaysTruthful(lx: Lexer, s: Tables, ws: seq<Write>)
    requires RowsAgree(lx, s) && GuardedRun(lx, s, ws) && LinksTruthful(s)
    ensures LinksTruthful(WroteAll(lx, s, ws))
    decreases |ws|
  {
    if ws != [] {
      WriteRecords(lx, s, ws[0]);
      GuardedWriteKeepsLinksTruthful(lx, s, ws[0]);
      LinksAlwaysTruthful(lx, Wrote(lx, s, ws[0]), ws[1..]);
    }
  }

  /** A caller that marks from a stale list, as the expiry worker can after it let another loop run,
      keeps links and lifecycles in agreement exactly when the mark does not move an atomic belief
      into or out of Superseded. */
  lemma StaleMarkKeepsLinksIff(lx: Lexer, s: Tables, id: Id, lifecycle: Lifecycle, at: Time)
    requires RowsAgree(lx, s) && LinksTruthful(s)
    ensures LinksTruthful(MarkedById(s, id, lifecycle, at)) <==>
            (Stored(s, AtomicTable, id) ==>
               (lifecycle == Superseded <==> RecordOf(s, AtomicTable, id).lifecycle == Superseded))
  {
    var s' := MarkedById(s, id, lifecycle, at);
    MarkRecords(lx, s, id, lifecycle, at);
    MarkLinks(lx, s, id, lifecycle, at);
    if Stored(s, AtomicTable, id) {
      assert LinkOf(s', id).Some? <==> RecordOf(s, AtomicTable, id).lifecycle == Superseded;
    }
    assert forall other :: Stored(s', AtomicTable, other) <==> Stored(s, AtomicTable, other);
    assert forall other :: Stored(s', SummaryTable, other) <==> Stored(s, SummaryTable, other);
  }

  /** The expiry worker listed an Active belief; before it marks it, another loop supersedes it. The
      belief ends Archived, and still linked. */
  lemma StaleArchiveBreaksLinks(lx: Lexer, s: Tables, id: Id, b: Belief, at: Time, later: Time)
    requires RowsAgree(lx, s) && LinksTruthful(s)
    requires IsActive(s, AtomicTable, id) && GuardedWrite(s, Supersede([id], b, at))
    ensures var s1 := Wrote(lx, s, Supersede([id], b, at));
            var s2 := MarkedById(s1, id, Archived, later);
            && LinksTruthful(s1) && !LinksTruthful(s2)
            && Stored(s2, AtomicTable, id) && RecordOf(s2, AtomicTable, id).lifecycle == Archived && LinkOf(s2, id) == Some(b.id)
  {
    var w := Supersede([id], b, at);
    var s1 := Wrote(lx, s, w);
    WriteRecords(lx, s, w);
    GuardedWriteKeepsLinksTruthful(lx, s, w);
    assert RecordOf(s1, AtomicTable, id) == RecordAfter(lx, s, w, AtomicTable, id);
    StaleMarkKeepsLinksIff(lx, s1, id, Archived, later);
    MarkLinks(lx, s1, id, Archived, later);
  }

  lemma WroteTwo(lx: Lexer, s: Tables, first: Write, second: Write)
    ensures WroteAll(lx, s, [first, second]) == Wrote(lx, Wrote(lx, s, first), second)
  {
    var ws, s1 := [first, second], Wrote(lx, s, first);
    assert ws[1..] == [second];
    assert [second][1..] == [];
    assert WroteAll(lx, s1, [second]) == WroteAll(lx, Wrote(lx, s1, second), []);
  }

  /** The shortest such run: one belief is put, superseded, and then marked from the list read before. */
  lemma StaleArchiveRun(lx: Lexer, a: Belief, b: Belief, at: Time, later: Time)
    requires a.id != b.id && a.kind.OfMemory? && b.kind.OfMemory? && a.lifecycle == b.lifecycle == Active
    requires a.supersededBy.None? && b.supersededBy.None?
    ensures var s1 := WroteAll(lx, EMPTY, [Put(a), Supersede([a.id], b, at)]);
            LinksTruthful(s1) && !LinksTruthful(MarkedById(s1, a.id, Archived, later))
  {
    var s := Wrote(lx, EMPTY, Put(a));
    WriteRecords(lx, EMPTY, Put(a));
    GuardedWriteKeepsLinksTruthful(lx, EMPTY, Put(a));
    UpsertStores(lx, EMPTY, a);
    StaleArchiveBreaksLinks(lx, s, a.id, b, at, later);
    WroteTwo(lx, EMPTY, Put(a), Supersede([a.id], b, at));
  }

  lemma MarkLinks(lx: Lexer, s: Tables, target: Id, lifecycle: Lifecycle, at: Time)
    requires RowsAgree(lx, s)
    ensures var s' := MarkedById(s, target, lifecycle, at);
            && (forall t, id :: Stored(s, t, id) ==>
                  Stored(s', t, id) && RecordOf(s', t, id).supersededBy == RecordOf(s, t, id).supersededBy)
            && (forall id :: Stored(s, AtomicTable, id) ==>
                  RecordOf(s', AtomicTable, id).lifecycle ==
                  if id == target then lifecycle else RecordOf(s, AtomicTable, id).lifecycle)
  {
    MarkRecords(lx, s, target, lifecycle, at);
    var s', w := MarkedById(s, target, lifecycle, at), Mark(target, lifecycle, at);
    forall t, id | Stored(s, t, id)
      ensures Stored(s', t, id) && RecordOf(s', t, id).supersededBy == RecordOf(s, t, id).supersededBy
      ensures t == AtomicTable ==>
                RecordOf(s', t, id).lifecycle == if id == target then lifecycle else RecordOf(s, t, id).lifecycle
    {
      assert RecordOf(s', t, id) == RecordAfter(lx, s, w, t, id);
    }
  }

  /** The summary worker retires a summary by a mark, not by a superseding write: the summary ends
      Superseded with nothing recorded as superseding it. */
  lemma SupersededSummaryHasNoLink(lx: Lexer, s: Tables, id: Id, at: Time)
    requires RowsAgree(lx, s) && LinksTruthful(s)
    requires Stored(s, SummaryTable, id) && !Stored(s, AtomicTable, id)
    ensures var s' := MarkedById(s, id, Superseded, at);
            && LinksTruthful(s')
            && RecordOf(s', SummaryTable, id).lifecycle == Superseded
            && RecordOf(s', SummaryTable, id).supersededBy == None
  {
    StaleMarkKeepsLinksIff(lx, s, id, Superseded, at);
    MarkRecords(lx, s, id, Superseded, at);
  }
}

/** The two reads that go through columns and indexes, compared with a scan of the stored records. */
module BeliefReads {
  import opened Common
  import opened Text
  import opened Beliefs

  predicate Earlier(rows: map<Id, Row>, i: Id, j: Id)
    requires i in rows && j in rows
  {
    TextLess(rows[i].heldSince, rows[j].heldSince) || (rows[i].heldSince == rows[j].heldSince && TextLess(i, j))
  }

  lemma EarlierTotal(rows: map<Id, Row>, i: Id, j: Id)
    requires i in rows && j in rows && i != j
    ensures Earlier(rows, i, j) || Earlier(rows, j, i)
  {
    TextLessTotal(i, j);
    TextLessTotal(rows[i].heldSince, rows[j].heldSince);
  }

  lemma EarlierTransitive(rows: map<Id, Row>, i: Id, j: Id, k: Id)
    requires i in rows && j in rows && k in rows
    requires Earlier(rows, i, j) && Earlier(rows, j, k)
    ensures Earlier(rows, i, k)
  {
    var x, y, z := rows[i].heldSince, rows[j].heldSince, rows[k].heldSince;
    if TextLess(x, y) && TextLess(y, z) {
      TextLessTransitive(x, y, z);
    } else if x == y == z {
      TextLessTransitive(i, j, k);
    }
  }

  ghost function First(rows: map<Id, Row>, ids: set<Id>): (first: Id)
    requires ids != {} && ids <= rows.Keys
    ensures first in ids
    ensures forall j <- ids :: j != first ==> Earlier(rows, first, j)
  {
    var i :| i in ids;
    assert forall j <- ids :: j == i || j in ids - {i};
    if ids == {i} then i
    else
      var rest := First(rows, ids - {i});
      EarlierTotal(rows, i, rest);
      assert Earlier(rows, i, rest) ==> forall j <- ids - {i} :: Earlier(rows, i, j) by {
        if Earlier(rows, i, rest) {
          forall j | j in ids - {i} ensures Earlier(rows, i, j) {
            if j != rest { EarlierTransitive(rows, i, rest, j); }
          }
        }
      }
      if Earlier(rows, i, rest) then i else rest
  }

  /** ORDER BY held_since ASC, id ASC. */
  ghost function InOrder(rows: map<Id, Row>, ids: set<Id>): seq<Id>
    requires ids <= rows.Keys
  {
    if ids == {} then []
    else
      var first := First(rows, ids);
      [first] + InOrder(rows, ids - {first})
  }

  predicate Sorted(rows: map<Id, Row>, o: seq<Id>) {
    && (forall i <- o :: i in rows)
    && (forall k, m :: 0 <= k < m < |o| ==> Earlier(rows, o[k], o[m]))
  }

  lemma {:induction false} InOrderLists(rows: map<Id, Row>, ids: set<Id>)
    requires ids <= rows.Keys
    ensures forall i :: i in InOrder(rows, ids) <==> i in ids
    ensures Sorted(rows, InOrder(rows, ids))
  {
    if ids != {} {
      var first := First(rows, ids);
      var rest := InOrder(rows, ids - {first});
      InOrderLists(rows, ids - {first});
      var o := InOrder(rows, ids);
      assert forall m :: 0 < m < |o| ==> o[m] == rest[m - 1] && o[m] in rest;
    }
  }

  ghost function Last(rows: map<Id, Row>, ids: set<Id>): (last: Id)
    requires ids != {} && ids <= rows.Keys
    ensures last in ids
    ensures forall j <- ids :: j != last ==> Earlier(rows, j, last)
  {
    var i :| i in ids;
    assert forall j <- ids :: j == i || j in ids - {i};
    if ids == {i} then i
    else
      var rest := Last(rows, ids - {i});
      EarlierTotal(rows, i, rest);
      assert Earlier(rows, rest, i) ==> forall j <- ids - {i} :: Earlier(rows, j, i) by {
        if Earlier(rows, rest, i) {
          forall j | j in ids - {i} ensures Earlier(rows, j, i) {
            if j != rest { EarlierTransitive(rows, j, rest, i); }
          }
        }
      }
      if Earlier(rows, rest, i) then i else rest
  }

  // ---- recall_about ----------------------------------------------------------------------

  /** The join of the table with the about index, filtered on the lifecycle column. */
  function AboutIds(s: Tables, ref: Reference): (ids: set<Id>)
    ensures ids <= s.atomic.Keys
  {
    set a | a in s.about && a.table == AtomicTable && a.ref == ref
            && a.id in s.atomic && s.atomic[a.id].lifecycle == Active :: a.id
  }

  ghost function RecallAbout(s: Tables, ref: Reference): seq<Belief> {
    var ids := InOrder(s.atomic, AboutIds(s, ref));
    InOrderLists(s.atomic, AboutIds(s, ref));
    seq(|ids|, k requires 0 <= k < |ids| && ids[k] in s.atomic => FromRow(s.atomic[ids[k]]))
  }

  predicate HeldEarlier(a: Belief, b: Belief) {
    TextLess(a.heldSince, b.heldSince) || (a.heldSince == b.heldSince && TextLess(a.id, b.id))
  }

  ghost predicate StoredRecord(s: Tables, t: Table, b: Belief) {
    Stored(s, t, b.id) && RecordOf(s, t, b.id) == b
  }

  /** Recall lists, without repetition and in order of holding, exactly the stored Active atomic
      records whose references include the one asked for. */
  lemma RecallAboutIsAScan(lx: Lexer, s: Tables, ref: Reference)
    requires Exact(lx, s)
    ensures var out := RecallAbout(s, ref);
            && (forall b :: b in out <==> StoredRecord(s, AtomicTable, b) && b.lifecycle == Active && ref in b.about)
            && (forall i, j :: 0 <= i < j < |out| ==> HeldEarlier(out[i], out[j]))
  {
    var ids := AboutIds(s, ref);
    var o, out := InOrder(s.atomic, ids), RecallAbout(s, ref);
    InOrderLists(s.atomic, ids);
    AboutIdsAreAScan(lx, s, ref);
    RecalledRecords(lx, s, ref);
    forall b | StoredRecord(s, AtomicTable, b) && b.lifecycle == Active && ref in b.about
      ensures b in out
    {
      var k :| 0 <= k < |o| && o[k] == b.id;
      assert out[k] == b;
    }
    forall b | b in out
      ensures StoredRecord(s, AtomicTable, b) && b.lifecycle == Active && ref in b.about
    {
      var k :| 0 <= k < |out| && out[k] == b;
      assert o[k] in ids;
    }
  }

  lemma RecalledRecords(lx: Lexer, s: Tables, ref: Reference)
    requires RowsAgree(lx, s) && AboutExact(s)
    ensures var o, out := InOrder(s.atomic, AboutIds(s, ref)), RecallAbout(s, ref);
            && |out| == |o|
            && (forall k :: 0 <= k < |o| ==>
                  Stored(s, AtomicTable, o[k]) && out[k] == RecordOf(s, AtomicTable, o[k]) && out[k].id == o[k])
            && (forall i, j :: 0 <= i < j < |out| ==> HeldEarlier(out[i], out[j]))
  {
    var o, out := InOrder(s.atomic, AboutIds(s, ref)), RecallAbout(s, ref);
    InOrderLists(s.atomic, AboutIds(s, ref));
    AboutIdsAreAScan(lx, s, ref);
    forall k | 0 <= k < |o|
      ensures Stored(s, AtomicTable, o[k]) && out[k] == RecordOf(s, AtomicTable, o[k])
      ensures out[k].id == o[k] && out[k].heldSince == s.atomic[o[k]].heldSince
    {
      assert o[k] in o;
    }
    forall i, j | 0 <= i < j < |out|
      ensures HeldEarlier(out[i], out[j])
    {
      assert Earlier(s.atomic, o[i], o[j]);
    }
  }

  /** Read through the columns and the about index, a stored row gives back its record. */
  lemma AboutIdsAreAScan(lx: Lexer, s: Tables, ref: Reference)
    requires RowsAgree(lx, s) && AboutExact(s)
    ensures forall id | Stored(s, AtomicTable, id) ::
              && FromRow(s.atomic[id]) == RecordOf(s, AtomicTable, id)
              && RecordOf(s, AtomicTable, id).id == id
              && s.atomic[id].heldSince == RecordOf(s, AtomicTable, id).heldSince
              && (id in AboutIds(s, ref) <==>
                  RecordOf(s, AtomicTable, id).lifecycle == Active && ref in RecordOf(s, AtomicTable, id).about)
  {
    forall id | Stored(s, AtomicTable, id)
      ensures id in AboutIds(s, ref) <==>
              RecordOf(s, AtomicTable, id).lifecycle == Active && ref in RecordOf(s, AtomicTable, id).about
    {
      assert AboutRow(AtomicTable, id, ref) in s.about <==> ref in RecordOf(s, AtomicTable, id).about;
    }
  }

  // ---- latest_summary --------------------------------------------------------------------

  function SummaryIds(s: Tables, kind: SummaryKind, about: Option<Reference>, scope: Option<Scope>): (ids: set<Id>)
    ensures ids <= s.summary.Keys
  {
    set id | id in s.summary
             && s.summary[id].kind == OfSummary(kind) && s.summary[id].lifecycle == Active
             && (scope.Some? ==> s.summary[id].scope == scope.value)
             && (about.Some? ==> AboutRow(SummaryTable, id, about.value) in s.about)
  }

  /** ORDER BY held_since DESC, id DESC LIMIT 1. */
  ghost function LatestSummary(s: Tables, kind: SummaryKind, about: Option<Reference>, scope: Option<Scope>): Option<Belief> {
    var ids := SummaryIds(s, kind, about, scope);
    if ids == {} then None else Some(FromRow(s.summary[Last(s.summary, ids)]))
  }

  predicate SummaryMatches(b: Belief, kind: SummaryKind, about: Option<Reference>, scope: Option<Scope>) {
    && b.kind == OfSummary(kind) && b.lifecycle == Active
    && (scope.Some? ==> b.scope == scope.value)
    && (about.Some? ==> about.value in b.about)
  }

  /** The latest summary is the matching stored record held since last, and none only if none matches. */
  lemma LatestSummaryIsAScan(lx: Lexer, s: Tables, kind: SummaryKind, about: Option<Reference>, scope: Option<Scope>)
    requires Exact(lx, s)
    ensures match LatestSummary(s, kind, about, scope)
            case None => forall b :: StoredRecord(s, SummaryTable, b) ==> !SummaryMatches(b, kind, about, scope)
            case Some(latest) =>
              && StoredRecord(s, SummaryTable, latest) && SummaryMatches(latest, kind, about, scope)
              && forall b :: StoredRecord(s, SummaryTable, b) && SummaryMatches(b, kind, about, scope) && b != latest
                             ==> HeldEarlier(b, latest)
  {
    var ids := SummaryIds(s, kind, about, scope);
    forall id | Stored(s, SummaryTable, id)
      ensures FromRow(s.summary[id]) == RecordOf(s, SummaryTable, id)
      ensures id in ids <==> SummaryMatches(RecordOf(s, SummaryTable, id), kind, about, scope)
      ensures s.summary[id].heldSince == RecordOf(s, SummaryTable, id).heldSince && RecordOf(s, SummaryTable, id).id == id
    {
      if about.Some? {
        assert AboutRow(SummaryTable, id, about.value) in s.about <==> about.value in RecordOf(s, SummaryTable, id).about;
      }
    }
    if ids != {} {
      var last := Last(s.summary, ids);
      assert Stored(s, SummaryTable, last);
      forall b | StoredRecord(s, SummaryTable, b) && SummaryMatches(b, kind, about, scope) && b.id != last
        ensures HeldEarlier(b, RecordOf(s, SummaryTable, last))
      {
        assert b.id in ids && Earlier(s.summary, b.id, last);
      }
    } else {
      forall b | StoredRecord(s, SummaryTable, b)
        ensures !SummaryMatches(b, kind, about, scope)
      {
        assert b.id !in ids;
      }
    }
  }
}

/** The derived tables stay right over every sequence of writes, so reads through them equal full scans. */
module BeliefIndexes {
  import opened Common
  import opened Beliefs

  /** Outside the belief (t, id), two states store the same records. */
  ghost predicate SameElsewhere(s: Tables, s': Tables, t: Table, id: Id) {
    forall t2, id2 {:trigger Stored(s', t2, id2)} {:trigger Stored(s, t2, id2)} :: t2 != t || id2 != id ==>
      && (Stored(s', t2, id2) <==> Stored(s, t2, id2))
      && (Stored(s, t2, id2) ==> RecordOf(s', t2, id2) == RecordOf(s, t2, id2))
  }

  /** The search rows after one belief's row was deleted and, if it is Active, inserted again. */
  function Refreshed<T>(rows: map<nat, SearchRow<T>>, next: nat, t: Table, id: Id, row: Option<T>): map<nat, SearchRow<T>> {
    var kept := DeleteSearch(rows, t, id);
    if row.Some? then kept[next := SearchRow(t, id, row.value)] else kept
  }

  lemma RefreshedRows<T(!new)>(rows: map<nat, SearchRow<T>>, next: nat, t: Table, id: Id, row: Option<T>)
    requires next !in rows && OneRowEach(rows)
    ensures OneRowEach(Refreshed(rows, next, t, id, row))
    ensures Listed(Refreshed(rows, next, t, id, row), t, id) <==> row.Some?
    ensures forall t2, id2 | t2 != t || id2 != id ::
              Listed(rows, t2, id2) ==> Listed(Refreshed(rows, next, t, id, row), t2, id2)
  {
    var kept, rows' := DeleteSearch(rows, t, id), Refreshed(rows, next, t, id, row);
    if row.Some? {
      assert rows'[next].table == t && rows'[next].id == id;
    }
    forall t2, id2 | (t2 != t || id2 != id) && Listed(rows, t2, id2)
      ensures Listed(rows', t2, id2)
    {
      var r :| r in rows && rows[r].table == t2 && rows[r].id == id2;
      assert r in kept && rows'[r] == rows[r];
    }
  }

  lemma SearchUpdateKeepsExact<T(!new)>(
    s: Tables, s': Tables, rows: map<nat, SearchRow<T>>, rows': map<nat, SearchRow<T>>, t: Table, id: Id, textOf: Belief -> T)
    requires SearchExact(s, rows, textOf) && SameElsewhere(s, s', t, id)
    requires s.nextRow <= s'.nextRow
    requires IsActive(s', t, id) ==>
               && s.nextRow < s'.nextRow
               && rows' == Refreshed(rows, s.nextRow, t, id, Some(textOf(RecordOf(s', t, id))))
    requires !IsActive(s', t, id) ==> rows' == Refreshed(rows, s.nextRow, t, id, None)
    ensures SearchExact(s', rows', textOf)
  {
    assert s.nextRow !in rows;
    RefreshedRows(rows, s.nextRow, t, id, if IsActive(s', t, id) then Some(textOf(RecordOf(s', t, id))) else None);
    forall r | r in rows'
      ensures r < s'.nextRow && IsActive(s', rows'[r].table, rows'[r].id)
      ensures rows'[r].text == textOf(RecordOf(s', rows'[r].table, rows'[r].id))
    {
      if r != s.nextRow || !IsActive(s', t, id) {
        assert rows'[r] == rows[r];
        assert IsActive(s, rows[r].table, rows[r].id);
      }
    }
    forall t2, id2 | IsActive(s', t2, id2)
      ensures Listed(rows', t2, id2)
    {
      assert t2 != t || id2 != id ==> IsActive(s, t2, id2);
    }
  }

  lemma AboutUpdateKeepsExact(s: Tables, s': Tables, t: Table, b: Belief)
    requires AboutExact(s) && SameElsewhere(s, s', t, b.id)
    requires Stored(s', t, b.id) && RecordOf(s', t, b.id) == b
    requires s'.about == (set a | a in s.about && !(a.table == t && a.id == b.id)) + AboutRows(t, b)
    ensures AboutExact(s')
  {
    forall a: AboutRow
      ensures a in s'.about <==> Stored(s', a.table, a.id) && a.ref in RecordOf(s', a.table, a.id).about
    {
      assert a in AboutRows(t, b) <==> a.table == t && a.id == b.id && a.ref in b.about;
    }
  }

  lemma EntityUpdateKeepsExact(lx: Lexer, s: Tables, s': Tables, t: Table, b: Belief)
    requires EntityExact(lx, s) && SameElsewhere(s, s', t, b.id)
    requires Stored(s', t, b.id) && RecordOf(s', t, b.id) == b
    requires s'.entity == (set e | e in s.entity && !(e.table == t && e.id == b.id)) + EntityRows(lx, t, b)
    ensures EntityExact(lx, s')
  {
    forall e: EntityRow
      ensures e in s'.entity <==> Stored(s', e.table, e.id) && e.entity in EntityIds(lx, RecordOf(s', e.table, e.id))
    {
      assert e in EntityRows(lx, t, b) <==> e.table == t && e.id == b.id && e.entity in EntityIds(lx, b);
    }
  }

  /** The fields of the state after an upsert. */
  lemma UpsertedFields(lx: Lexer, s: Tables, b: Belief)
    ensures var t, s' := TableOf(b), Upserted(lx, s, b);
            && RowsOf(s', t) == RowsOf(s, t)[b.id := RowOf(lx, b)]
            && (forall u :: u != t ==> RowsOf(s', u) == RowsOf(s, u))
            && s'.about == (set a | a in s.about && !(a.table == t && a.id == b.id)) + AboutRows(t, b)
            && s'.entity == (set e | e in s.entity && !(e.table == t && e.id == b.id)) + EntityRows(lx, t, b)
  {
  }

  lemma UpsertStores(lx: Lexer, s: Tables, b: Belief)
    ensures var t, s' := TableOf(b), Upserted(lx, s, b);
            Stored(s', t, b.id) && RecordOf(s', t, b.id) == b && SameElsewhere(s, s', t, b.id)
    ensures RowsAgree(lx, s) ==> RowsAgree(lx, Upserted(lx, s, b))
  {
    UpsertedFields(lx, s, b);
    var s' := Upserted(lx, s, b);
    forall t, id | Stored(s', t, id) && RowsAgree(lx, s)
      ensures var row := RowsOf(s', t)[id];
              row.record.id == id && TableOf(row.record) == t && row == RowOf(lx, row.record)
    {
      assert t != TableOf(b) || id != b.id ==> Stored(s, t, id);
    }
  }

  function IfActive<T>(b: Belief, textOf: Belief -> T): Option<T> {
    if b.lifecycle == Active then Some(textOf(b)) else None
  }

  lemma ReplacedSearch(lx: Lexer, s: Tables, t: Table, b: Belief)
    ensures var s' := ReplaceSearch(lx, s, t, b);
            && s'.terms == Refreshed(s.terms, s.nextRow, t, b.id, IfActive(b, TermTextOf(lx)))
            && s'.trigrams == Refreshed(s.trigrams, s.nextRow, t, b.id, IfActive(b, TrigramTextOf(lx)))
            && s'.nextRow == if b.lifecycle == Active then s.nextRow + 1 else s.nextRow
  {
  }

  lemma UpsertedSearch(lx: Lexer, s: Tables, b: Belief)
    ensures var s' := Upserted(lx, s, b);
            && s'.terms == Refreshed(s.terms, s.nextRow, TableOf(b), b.id, IfActive(b, TermTextOf(lx)))
            && s'.trigrams == Refreshed(s.trigrams, s.nextRow, TableOf(b), b.id, IfActive(b, TrigramTextOf(lx)))
            && s'.nextRow == if b.lifecycle == Active then s.nextRow + 1 else s.nextRow
  {
    var t := TableOf(b);
    var s1 := WithRows(s, t, RowsOf(s, t)[b.id := RowOf(lx, b)]);
    var s2 := s1.(
      about := (set a | a in s1.about && !(a.table == t && a.id == b.id)) + AboutRows(t, b),
      entity := (set e | e in s1.entity && !(e.table == t && e.id == b.id)) + EntityRows(lx, t, b));
    ReplacedSearch(lx, s2, t, b);
  }

  lemma UpsertKeepsSearch(lx: Lexer, s: Tables, b: Belief)
    requires SearchExact(s, s.terms, TermTextOf(lx)) && SearchExact(s, s.trigrams, TrigramTextOf(lx))
    ensures var s' := Upserted(lx, s, b);
            SearchExact(s', s'.terms, TermTextOf(lx)) && SearchExact(s', s'.trigrams, TrigramTextOf(lx))
  {
    var t, s' := TableOf(b), Upserted(lx, s, b);
    UpsertStores(lx, s, b);
    UpsertedSearch(lx, s, b);
    SearchUpdateKeepsExact(s, s', s.terms, s'.terms, t, b.id, TermTextOf(lx));
    SearchUpdateKeepsExact(s, s', s.trigrams, s'.trigrams, t, b.id, TrigramTextOf(lx));
  }

  /** Writing any belief, new or already stored, in any lifecycle. */
  lemma UpsertKeepsExact(lx: Lexer, s: Tables, b: Belief)
    requires Exact(lx, s)
    ensures Exact(lx, Upserted(lx, s, b))
  {
    var t, s' := TableOf(b), Upserted(lx, s, b);
    UpsertStores(lx, s, b);
    UpsertedFields(lx, s, b);
    AboutUpdateKeepsExact(s, s', t, b);
    EntityUpdateKeepsExact(lx, s, s', t, b);
    UpsertKeepsSearch(lx, s, b);
  }

  /** What a mark changes in the record it finds. */
  lemma MarkStores(s: Tables, t: Table, id: Id, lifecycle: Lifecycle, at: Time, link: Option<Id>)
    ensures var s' := Marked(s, t, id, lifecycle, at, link);
            && SameElsewhere(s, s', t, id)
            && (Stored(s', t, id) <==> Stored(s, t, id))
            && (Stored(s, t, id) ==> RowsOf(s', t)[id] == MarkedRow(RowsOf(s, t)[id], lifecycle, at, link))
            && s'.about == s.about && s'.entity == s.entity && s'.nextRow == s.nextRow
  {
  }

  lemma MarkKeepsRows(lx: Lexer, s: Tables, t: Table, id: Id, lifecycle: Lifecycle, at: Time, link: Option<Id>)
    requires RowsAgree(lx, s)
    ensures RowsAgree(lx, Marked(s, t, id, lifecycle, at, link))
  {
    var s' := Marked(s, t, id, lifecycle, at, link);
    MarkStores(s, t, id, lifecycle, at, link);
    forall t2, id2 | Stored(s', t2, id2)
      ensures var row := RowsOf(s', t2)[id2];
              row.record.id == id2 && TableOf(row.record) == t2 && row == RowOf(lx, row.record)
    {
      assert Stored(s, t2, id2);
      if t2 != t || id2 != id {
        assert RowsOf(s', t2)[id2] == RowsOf(s, t2)[id2];
      }
    }
  }

  lemma MarkKeepsIndexes(lx: Lexer, s: Tables, t: Table, id: Id, lifecycle: Lifecycle, at: Time, link: Option<Id>)
    requires AboutExact(s) && EntityExact(lx, s)
    ensures var s' := Marked(s, t, id, lifecycle, at, link);
            AboutExact(s') && EntityExact(lx, s')
  {
    var s' := Marked(s, t, id, lifecycle, at, link);
    MarkStores(s, t, id, lifecycle, at, link);
    forall t2, id2 | Stored(s, t2, id2)
      ensures Stored(s', t2, id2)
      ensures RecordOf(s', t2, id2).about == RecordOf(s, t2, id2).about
      ensures EntityIds(lx, RecordOf(s', t2, id2)) == EntityIds(lx, RecordOf(s, t2, id2))
    {
      assert RecordOf(s', t2, id2).objectText == RecordOf(s, t2, id2).objectText;
    }
    assert forall t2, id2 :: Stored(s', t2, id2) ==> Stored(s, t2, id2);
  }

  lemma RemarkActiveKeepsExact<T(!new)>(s: Tables, s': Tables, rows: map<nat, SearchRow<T>>, t: Table, id: Id, textOf: Belief -> T)
    requires SearchExact(s, rows, textOf) && SameElsewhere(s, s', t, id) && s'.nextRow == s.nextRow
    requires IsActive(s, t, id) && IsActive(s', t, id)
    requires textOf(RecordOf(s', t, id)) == textOf(RecordOf(s, t, id))
    ensures SearchExact(s', rows, textOf)
  {
    assert forall t2, id2 :: IsActive(s', t2, id2) <==> IsActive(s, t2, id2);
  }

  lemma RetiredSearch(s: Tables, t: Table, id: Id, lifecycle: Lifecycle, at: Time, link: Option<Id>)
    requires lifecycle != Active
    ensures var s' := Marked(s, t, id, lifecycle, at, link);
            && s'.terms == Refreshed(s.terms, s.nextRow, t, id, None)
            && s'.trigrams == Refreshed(s.trigrams, s.nextRow, t, id, None)
            && !IsActive(s', t, id)
  {
  }

  lemma RetireKeepsSearch(lx: Lexer, s: Tables, t: Table, id: Id, lifecycle: Lifecycle, at: Time, link: Option<Id>)
    requires SearchExact(s, s.terms, TermTextOf(lx)) && SearchExact(s, s.trigrams, TrigramTextOf(lx))
    requires lifecycle != Active
    ensures var s' := Marked(s, t, id, lifecycle, at, link);
            SearchExact(s', s'.terms, TermTextOf(lx)) && SearchExact(s', s'.trigrams, TrigramTextOf(lx))
  {
    var s' := Marked(s, t, id, lifecycle, at, link);
    MarkStores(s, t, id, lifecycle, at, link);
    RetiredSearch(s, t, id, lifecycle, at, link);
    SearchUpdateKeepsExact(s, s', s.terms, s'.terms, t, id, TermTextOf(lx));
    SearchUpdateKeepsExact(s, s', s.trigrams, s'.trigrams, t, id, TrigramTextOf(lx));
  }

  lemma MarkActiveKeepsSearchIff(lx: Lexer, s: Tables, t: Table, id: Id, at: Time, link: Option<Id>)
    requires SearchExact(s, s.terms, TermTextOf(lx)) && SearchExact(s, s.trigrams, TrigramTextOf(lx))
    requires Stored(s, t, id)
    ensures var s' := Marked(s, t, id, Active, at, link);
            (SearchExact(s', s'.terms, TermTextOf(lx)) && SearchExact(s', s'.trigrams, TrigramTextOf(lx)))
            <==> IsActive(s, t, id)
  {
    var s' := Marked(s, t, id, Active, at, link);
    MarkStores(s, t, id, Active, at, link);
    assert s'.terms == s.terms && s'.trigrams == s.trigrams;
    assert IsActive(s', t, id);
    if IsActive(s, t, id) {
      assert EntityIds(lx, RecordOf(s', t, id)) == EntityIds(lx, RecordOf(s, t, id));
      RemarkActiveKeepsExact(s, s', s.terms, t, id, TermTextOf(lx));
      RemarkActiveKeepsExact(s, s', s.trigrams, t, id, TrigramTextOf(lx));
    } else {
      assert !Listed(s.terms, t, id);
    }
  }

  /** Marking never puts a search row back, so it keeps the tables right exactly when it does not
      make a retired or pending belief Active. */
  lemma MarkKeepsExactIff(lx: Lexer, s: Tables, t: Table, id: Id, lifecycle: Lifecycle, at: Time, link: Option<Id>)
    requires Exact(lx, s)
    ensures Exact(lx, Marked(s, t, id, lifecycle, at, link))
            <==> (lifecycle == Active && Stored(s, t, id) ==> IsActive(s, t, id))
  {
    MarkKeepsRows(lx, s, t, id, lifecycle, at, link);
    MarkKeepsIndexes(lx, s, t, id, lifecycle, at, link);
    if lifecycle != Active {
      RetireKeepsSearch(lx, s, t, id, lifecycle, at, link);
    } else if Stored(s, t, id) {
      MarkActiveKeepsSearchIff(lx, s, t, id, at, link);
    }
  }

  lemma {:induction false} SupersedeAllKeepsExact(lx: Lexer, s: Tables, olds: seq<Id>, newId: Id, at: Time)
    requires Exact(lx, s)
    ensures Exact(lx, AllSuperseded(s, olds, newId, at))
    decreases |olds|
  {
    if olds != [] {
      MarkKeepsExactIff(lx, s, AtomicTable, olds[0], Superseded, at, Some(newId));
      SupersedeAllKeepsExact(lx, Marked(s, AtomicTable, olds[0], Superseded, at, Some(newId)), olds[1..], newId, at);
    }
  }

  // ---- Whole runs ------------------------------------------------------------------------

  /** One transaction of the store. */
  datatype Write =
    | Put(belief: Belief)
    | Supersede(olds: seq<Id>, belief: Belief, at: Time)
    | Mark(id: Id, lifecycle: Lifecycle, at: Time)
    | Reaffirm(id: Id, source: Reference, at: Time)
    | Reset

  function Wrote(lx: Lexer, s: Tables, w: Write): Tables {
    match w
    case Put(b) => Upserted(lx, s, b)
    case Supersede(olds, b, at) => SupersededMany(lx, s, olds, b, at)
    case Mark(id, lifecycle, at) => MarkedById(s, id, lifecycle, at)
    case Reaffirm(id, source, at) => Reaffirmed(lx, s, id, source, at)
    case Reset => s.(atomic := map[], summary := map[], about := {}, entity := {}, terms := map[], trigrams := map[])
  }

  function WroteAll(lx: Lexer, s: Tables, ws: seq<Write>): Tables
    decreases |ws|
  {
    if ws == [] then s else WroteAll(lx, Wrote(lx, s, ws[0]), ws[1..])
  }

  predicate NeverMarksActive(ws: seq<Write>) {
    forall w <- ws :: w.Mark? ==> w.lifecycle != Active
  }

  lemma SupersedeKeepsExact(lx: Lexer, s: Tables, olds: seq<Id>, b: Belief, at: Time)
    requires Exact(lx, s)
    ensures Exact(lx, SupersededMany(lx, s, olds, b, at))
  {
    UpsertKeepsExact(lx, s, b);
    SupersedeAllKeepsExact(lx, Upserted(lx, s, b), olds, b.id, at);
  }

  lemma MarkByIdKeepsExact(lx: Lexer, s: Tables, id: Id, lifecycle: Lifecycle, at: Time)
    requires Exact(lx, s) && lifecycle != Active
    ensures Exact(lx, MarkedById(s, id, lifecycle, at))
  {
    if GetById(s, id).Some? {
      MarkKeepsExactIff(lx, s, TableOf(GetById(s, id).value), id, lifecycle, at, None);
    }
  }

  lemma ReaffirmKeepsExact(lx: Lexer, s: Tables, id: Id, source: Reference, at: Time)
    requires Exact(lx, s)
    ensures Exact(lx, Reaffirmed(lx, s, id, source, at))
  {
    if GetById(s, id).Some? {
      UpsertKeepsExact(lx, s, WithSource(GetById(s, id).value, source, at));
    }
  }

  lemma NothingStoredIsExact(lx: Lexer, s: Tables)
    requires s.atomic == map[] && s.summary == map[] && s.about == {} && s.entity == {} && s.terms == map[] && s.trigrams == map[]
    ensures Exact(lx, s)
  {
    assert forall t, id :: !Stored(s, t, id);
  }

  lemma WriteKeepsExact(lx: Lexer, s: Tables, w: Write)
    requires Exact(lx, s)
    requires w.Mark? ==> w.lifecycle != Active
    ensures Exact(lx, Wrote(lx, s, w))
  {
    match w
    case Put(b) => UpsertKeepsExact(lx, s, b);
    case Supersede(olds, b, at) => SupersedeKeepsExact(lx, s, olds, b, at);
    case Mark(id, lifecycle, at) => MarkByIdKeepsExact(lx, s, id, lifecycle, at);
    case Reaffirm(id, source, at) => ReaffirmKeepsExact(lx, s, id, source, at);
    case Reset => NothingStoredIsExact(lx, Wrote(lx, s, Reset));
  }

  /** After any sequence of writes that never marks a belief Active, from the empty store: the about
      and entity indexes hold exactly the rows computed from the stored beliefs, both search tables
      hold exactly one row per Active belief, and every row's columns copy its record. */
  lemma {:induction false} IndexesAlwaysExact(lx: Lexer, ws: seq<Write>)
    requires NeverMarksActive(ws)
    ensures Exact(lx, WroteAll(lx, EMPTY, ws))
  {
    NothingStoredIsExact(lx, EMPTY);
    RunKeepsExact(lx, EMPTY, ws);
  }

  lemma {:induction false} RunKeepsExact(lx: Lexer, s: Tables, ws: seq<Write>)
    requires Exact(lx, s) && NeverMarksActive(ws)
    ensures Exact(lx, WroteAll(lx, s, ws))
    decreases |ws|
  {
    if ws != [] {
      WriteKeepsExact(lx, s, ws[0]);
      RunKeepsExact(lx, Wrote(lx, s, ws[0]), ws[1..]);
    }
  }

  // ---- What the tables say in full -------------------------------------------------------

  /** Record and columns agree, field by field. */
  predicate ColumnsCopy(lx: Lexer, row: Row) {
    && row.objectText == row.record.objectText && row.content == row.record.content
    && row.normalizedContent == lx.normalize(row.record.content) && row.kind == row.record.kind
    && row.stage == row.record.stage && row.scope == row.record.scope && row.authority == row.record.authority
    && row.lifecycle == row.record.lifecycle && row.heldSince == row.record.heldSince
    && row.heldUntil == row.record.heldUntil && row.supersededBy == row.record.supersededBy
    && row.supersedes == row.record.supersedes
  }

  /** The entities of a belief: what its object text and its references' ids normalize to, unless nothing. */
  predicate NamesEntity(lx: Lexer, b: Belief, entity: string) {
    entity != "" && (entity == lx.normalize(b.objectText) || exists ref <- b.about :: entity == lx.normalize(ref.id))
  }

  predicate TermRowSays(lx: Lexer, b: Belief, text: TermText, entities: set<string>) {
    && text.objectText == b.objectText && text.about == lx.aboutTerms(b.about)
    && text.terms == lx.searchTerms(b.content, b.objectText, lx.aboutTerms(b.about), entities, lx.normalize(b.content))
  }

  predicate TrigramRowSays(lx: Lexer, b: Belief, text: TrigramText) {
    text.content == b.content && text.objectText == b.objectText && text.normalized == lx.normalize(b.content)
  }

  /** After any run of writes that never marks a belief Active: columns copy records, the entity index
      names exactly each belief's entities, and the one row of an Active belief in each search table says
      what the belief says. */
  lemma TablesSayTheirBeliefs(lx: Lexer, ws: seq<Write>, t: Table, id: Id)
    requires NeverMarksActive(ws)
    ensures var s := WroteAll(lx, EMPTY, ws);
            Stored(s, t, id) ==>
              && ColumnsCopy(lx, RowsOf(s, t)[id])
              && (forall e :: EntityRow(t, id, e) in s.entity <==> NamesEntity(lx, RecordOf(s, t, id), e))
              && (forall ref :: AboutRow(t, id, ref) in s.about <==> ref in RecordOf(s, t, id).about)
              && (forall r :: r in s.terms && s.terms[r].table == t && s.terms[r].id == id ==>
                    TermRowSays(lx, RecordOf(s, t, id), s.terms[r].text, EntityIds(lx, RecordOf(s, t, id))))
              && (forall r :: r in s.trigrams && s.trigrams[r].table == t && s.trigrams[r].id == id ==>
                    TrigramRowSays(lx, RecordOf(s, t, id), s.trigrams[r].text))
  {
    IndexesAlwaysExact(lx, ws);
    var s := WroteAll(lx, EMPTY, ws);
    if Stored(s, t, id) {
      forall e
        ensures EntityRow(t, id, e) in s.entity <==> NamesEntity(lx, RecordOf(s, t, id), e)
      {
        EntitiesNamed(lx, RecordOf(s, t, id), e);
      }
    }
  }

  lemma EntitiesNamed(lx: Lexer, b: Belief, e: string)
    ensures e in EntityIds(lx, b) <==> NamesEntity(lx, b, e)
  {
  }
}

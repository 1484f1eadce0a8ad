/** The store of current belief state, as the object that updates its tables statement by statement. */
module BeliefStore {
  import opened Common
  import opened Beliefs

  class BeliefProjection {
    const lx: Lexer
    var atomic: map<Id, Row>
    var summary: map<Id, Row>
    var about: set<AboutRow>
    var entity: set<EntityRow>
    var terms: map<nat, SearchRow<TermText>>
    var trigrams: map<nat, SearchRow<TrigramText>>
    var nextRow: nat

    ghost function State(): Tables
      reads this
    {
      Tables(atomic, summary, about, entity, terms, trigrams, nextRow)
    }

    constructor (lx: Lexer)
      ensures State() == EMPTY && this.lx == lx
    {
      this.lx := lx;
      atomic, summary, about, entity, terms, trigrams, nextRow := map[], map[], {}, {}, map[], map[], 0;
    }

    /** What a transaction remembers, and how it is rolled back. */
    method Save() returns (s: Tables)
      ensures s == State()
    {
      s := Tables(atomic, summary, about, entity, terms, trigrams, nextRow);
    }

    method Restore(s: Tables)
      modifies this
      ensures State() == s
    {
      atomic, summary, about, entity := s.atomic, s.summary, s.about, s.entity;
      terms, trigrams, nextRow := s.terms, s.trigrams, s.nextRow;
    }

    method GetBelief(id: Id) returns (found: Option<Belief>)
      ensures found == GetById(State(), id)
    {
      if id in atomic {
        return Some(FromRow(atomic[id]));
      }
      if id in summary {
        return Some(FromRow(summary[id]));
      }
      return None;
    }

    method Upsert(b: Belief)
      modifies this
      ensures State() == Upserted(lx, old(State()), b)
    {
      if b.kind.OfSummary? {
        summary := summary[b.id := RowOf(lx, b)];
      } else {
        atomic := atomic[b.id := RowOf(lx, b)];
      }
      ReplaceBeliefIndexes(TableOf(b), b);
    }

    method ReplaceBeliefIndexes(t: Table, b: Belief)
      modifies this`about, this`entity, this`terms, this`trigrams, this`nextRow
      ensures State() == ReplaceIndexes(lx, old(State()), t, b)
    {
      about := set a | a in about && !(a.table == t && a.id == b.id);
      entity := set e | e in entity && !(e.table == t && e.id == b.id);
      about := about + AboutRows(t, b);
      entity := entity + EntityRows(lx, t, b);
      ReplaceBeliefSearch(t, b);
    }

    method ReplaceBeliefSearch(t: Table, b: Belief)
      modifies this`terms, this`trigrams, this`nextRow
      ensures State() == ReplaceSearch(lx, old(State()), t, b)
    {
      DeleteSearchRows(t, b.id);
      if b.lifecycle != Active {
        return;
      }
      terms := terms[nextRow := SearchRow(t, b.id, TermTextOf(lx)(b))];
      trigrams := trigrams[nextRow := SearchRow(t, b.id, TrigramTextOf(lx)(b))];
      nextRow := nextRow + 1;
    }

    method DeleteSearchRows(t: Table, id: Id)
      modifies this`terms, this`trigrams
      ensures State() == DeleteBeliefSearch(old(State()), t, id)
    {
      terms := DeleteSearch(terms, t, id);
      trigrams := DeleteSearch(trigrams, t, id);
    }

    method MarkRow(t: Table, id: Id, lifecycle: Lifecycle, at: Time, link: Option<Id>)
      modifies this`atomic, this`summary, this`terms, this`trigrams
      ensures State() == Marked(old(State()), t, id, lifecycle, at, link)
    {
      if t == AtomicTable {
        if id in atomic {
          atomic := atomic[id := MarkedRow(atomic[id], lifecycle, at, link)];
        }
      } else if id in summary {
        summary := summary[id := MarkedRow(summary[id], lifecycle, at, link)];
      }
      if lifecycle != Active {
        DeleteSearchRows(t, id);
      }
    }

    method MarkLifecycle(id: Id, lifecycle: Lifecycle, at: Time)
      modifies this
      ensures State() == MarkedById(old(State()), id, lifecycle, at)
    {
      var found := GetBelief(id);
      if found.None? {
        return;
      }
      MarkRow(TableOf(found.value), id, lifecycle, at, None);
    }

    method SupersedeMany(olds: seq<Id>, b: Belief, at: Time)
      modifies this
      ensures State() == SupersededMany(lx, old(State()), olds, b, at)
    {
      Upsert(b);
      var i := 0;
      while i < |olds|
        invariant 0 <= i <= |olds|
        invariant AllSuperseded(State(), olds[i..], b.id, at) == SupersededMany(lx, old(State()), olds, b, at)
      {
        assert olds[i..][1..] == olds[i + 1..];
        MarkRow(AtomicTable, olds[i], Superseded, at, Some(b.id));
        i := i + 1;
      }
    }

    method Reaffirm(id: Id, source: Reference, at: Time) returns (updated: Option<Belief>)
      modifies this
      ensures State() == Reaffirmed(lx, old(State()), id, source, at)
      ensures updated == match old(GetById(State(), id))
                         case None => None
                         case Some(b) => if b.kind.OfSummary? then None else Some(WithSource(b, source, at))
    {
      var found := GetBelief(id);
      if found.None? || found.value.kind.OfSummary? {
        return None;
      }
      var sources := found.value.sources;
      if source !in sources {
        sources := sources + [source];
      }
      var b := found.value.(sources := sources, observedAt := if at == "" then found.value.observedAt else Some(at));
      Upsert(b);
      return Some(b);
    }

    method Clear()
      modifies this
      ensures State() == EMPTY.(nextRow := old(nextRow))
    {
      trigrams, terms, about, entity, summary, atomic := map[], map[], {}, {}, map[], map[];
    }
  }
}

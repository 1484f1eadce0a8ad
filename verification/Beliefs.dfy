/** The belief tables, their derived indexes, and what each write does to them. */
module Beliefs {
  import opened Common

  type Id = string

  /** ISO timestamps, compared as text. */
  type Time = string

  datatype Lifecycle = PendingConfirmation | Active | Superseded | Retracted | Archived

  datatype MemoryKind = Fact | Preference | Constraint | Procedure | ValueKind | Relationship

  datatype SummaryKind = CounterpartProfile | ProjectProfile | DomainSummary | SelfMemorySummary

  datatype Kind = OfMemory(memory: MemoryKind) | OfSummary(summary: SummaryKind)

  datatype Stage = ToolWritten | BackgroundExtracted | BackgroundConsolidated | BackgroundSummarized | HumanConfirmedStage

  datatype Scope = GlobalScope | CounterpartScope | SelfScope | ProjectScope | SessionScope

  datatype Authority = LlmInterpreted | BackgroundSynthesized | UserAsserted | HumanConfirmed | SystemDefined

  datatype Belief = Belief(
    id: Id,
    kind: Kind,
    about: seq<Reference>,
    objectText: string,
    content: string,
    stage: Stage,
    scope: Scope,
    authority: Authority,
    lifecycle: Lifecycle,
    sources: seq<Reference>,
    observedAt: Option<Time>,
    heldSince: Time,
    heldUntil: Option<Time>,
    supersededBy: Option<Id>,
    supersedes: Option<Id>)

  datatype Table = AtomicTable | SummaryTable

  function TableOf(b: Belief): Table {
    if b.kind.OfMemory? then AtomicTable else SummaryTable
  }

  /** A stored row: the record document and the columns copied out of it. */
  datatype Row = Row(
    record: Belief,
    objectText: string,
    content: string,
    normalizedContent: string,
    kind: Kind,
    stage: Stage,
    scope: Scope,
    authority: Authority,
    lifecycle: Lifecycle,
    heldSince: Time,
    heldUntil: Option<Time>,
    supersededBy: Option<Id>,
    supersedes: Option<Id>)

  datatype AboutRow = AboutRow(table: Table, id: Id, ref: Reference)

  datatype EntityRow = EntityRow(table: Table, id: Id, entity: string)

  /** A row of a full-text table. Such tables have no key: several rows may name one belief. */
  datatype SearchRow<T> = SearchRow(table: Table, id: Id, text: T)

  datatype TermText = TermText(terms: string, objectText: string, about: string)

  datatype TrigramText = TrigramText(content: string, objectText: string, normalized: string)

  /** Text functions the tables depend on and this model leaves open: case folding with space
      collapsing; the search terms of a content, an object text, a rendering of the references, the
      entity ids and the normalized content; and the rendering of the references itself. */
  datatype Lexer = Lexer(
    normalize: string -> string,
    searchTerms: (string, string, string, set<string>, string) -> string,
    aboutTerms: seq<Reference> -> string)

  datatype Tables = Tables(
    atomic: map<Id, Row>,
    summary: map<Id, Row>,
    about: set<AboutRow>,
    entity: set<EntityRow>,
    terms: map<nat, SearchRow<TermText>>,
    trigrams: map<nat, SearchRow<TrigramText>>,
    nextRow: nat)

  const EMPTY := Tables(map[], map[], {}, {}, map[], map[], 0)

  // ---- Rows ------------------------------------------------------------------------------

  function RowOf(lx: Lexer, b: Belief): Row {
    Row(b, b.objectText, b.content, lx.normalize(b.content), b.kind, b.stage, b.scope, b.authority,
        b.lifecycle, b.heldSince, b.heldUntil, b.supersededBy, b.supersedes)
  }

  /** Reading a row takes the record and overrides it with the columns. */
  function FromRow(row: Row): Belief {
    row.record.(
      objectText := row.objectText, content := row.content, kind := row.kind, stage := row.stage,
      scope := row.scope, authority := row.authority, lifecycle := row.lifecycle,
      heldSince := row.heldSince, heldUntil := row.heldUntil,
      supersededBy := row.supersededBy, supersedes := row.supersedes)
  }

  function RowsOf(s: Tables, t: Table): map<Id, Row> {
    match t
    case AtomicTable => s.atomic
    case SummaryTable => s.summary
  }

  function WithRows(s: Tables, t: Table, rows: map<Id, Row>): Tables {
    match t
    case AtomicTable => s.(atomic := rows)
    case SummaryTable => s.(summary := rows)
  }

  function GetById(s: Tables, id: Id): Option<Belief> {
    if id in s.atomic then Some(FromRow(s.atomic[id]))
    else if id in s.summary then Some(FromRow(s.summary[id]))
    else None
  }

  // ---- Index rows computed from a belief -------------------------------------------------

  function EntityIds(lx: Lexer, b: Belief): set<string> {
    ({lx.normalize(b.objectText)} + set ref <- b.about :: lx.normalize(ref.id)) - {""}
  }

  function AboutRows(t: Table, b: Belief): set<AboutRow> {
    set ref <- b.about :: AboutRow(t, b.id, ref)
  }

  function EntityRows(lx: Lexer, t: Table, b: Belief): set<EntityRow> {
    set e <- EntityIds(lx, b) :: EntityRow(t, b.id, e)
  }

  function TermTextOf(lx: Lexer): Belief -> TermText {
    (b: Belief) =>
      var about := lx.aboutTerms(b.about);
      TermText(lx.searchTerms(b.content, b.objectText, about, EntityIds(lx, b), lx.normalize(b.content)),
               b.objectText, about)
  }

  function TrigramTextOf(lx: Lexer): Belief -> TrigramText {
    (b: Belief) => TrigramText(b.content, b.objectText, lx.normalize(b.content))
  }

  // ---- Writes ----------------------------------------------------------------------------

  function DeleteSearch<T>(rows: map<nat, SearchRow<T>>, t: Table, id: Id): map<nat, SearchRow<T>> {
    map r | r in rows && !(rows[r].table == t && rows[r].id == id) :: rows[r]
  }

  function DeleteBeliefSearch(s: Tables, t: Table, id: Id): Tables {
    s.(terms := DeleteSearch(s.terms, t, id), trigrams := DeleteSearch(s.trigrams, t, id))
  }

  function ReplaceSearch(lx: Lexer, s: Tables, t: Table, b: Belief): Tables {
    var s1 := DeleteBeliefSearch(s, t, b.id);
    if b.lifecycle != Active then s1
    else
      s1.(terms := s1.terms[s1.nextRow := SearchRow(t, b.id, TermTextOf(lx)(b))],
          trigrams := s1.trigrams[s1.nextRow := SearchRow(t, b.id, TrigramTextOf(lx)(b))],
          nextRow := s1.nextRow + 1)
  }

  function ReplaceIndexes(lx: Lexer, s: Tables, t: Table, b: Belief): Tables {
    var s1 := s.(
      about := (set a | a in s.about && !(a.table == t && a.id == b.id)) + AboutRows(t, b),
      entity := (set e | e in s.entity && !(e.table == t && e.id == b.id)) + EntityRows(lx, t, b));
    ReplaceSearch(lx, s1, t, b)
  }

  function Upserted(lx: Lexer, s: Tables, b: Belief): Tables {
    var t := TableOf(b);
    ReplaceIndexes(lx, WithRows(s, t, RowsOf(s, t)[b.id := RowOf(lx, b)]), t, b)
  }

  function MarkedRow(row: Row, lifecycle: Lifecycle, at: Time, link: Option<Id>): Row {
    var superseder := if link.Some? then link else row.supersededBy;
    row.(record := row.record.(lifecycle := lifecycle, heldUntil := Some(at),
                               supersededBy := if link.Some? then link else row.record.supersededBy),
         lifecycle := lifecycle, heldUntil := Some(at), supersededBy := superseder)
  }

  /** Only deletes search rows: marking a belief Active does not put them back. */
  function Marked(s: Tables, t: Table, id: Id, lifecycle: Lifecycle, at: Time, link: Option<Id>): Tables {
    var s1 := if id in RowsOf(s, t)
              then WithRows(s, t, RowsOf(s, t)[id := MarkedRow(RowsOf(s, t)[id], lifecycle, at, link)])
              else s;
    if lifecycle != Active then DeleteBeliefSearch(s1, t, id) else s1
  }

  function MarkedById(s: Tables, id: Id, lifecycle: Lifecycle, at: Time): Tables {
    match GetById(s, id)
    case None => s
    case Some(b) => Marked(s, TableOf(b), id, lifecycle, at, None)
  }

  function AllSuperseded(s: Tables, olds: seq<Id>, newId: Id, at: Time): Tables
    decreases |olds|
  {
    if olds == [] then s
    else AllSuperseded(Marked(s, AtomicTable, olds[0], Superseded, at, Some(newId)), olds[1..], newId, at)
  }

  function SupersededMany(lx: Lexer, s: Tables, olds: seq<Id>, b: Belief, at: Time): Tables {
    AllSuperseded(Upserted(lx, s, b), olds, b.id, at)
  }

  function WithSource(b: Belief, source: Reference, at: Time): Belief {
    b.(sources := if source in b.sources then b.sources else b.sources + [source],
       observedAt := if at == "" then b.observedAt else Some(at))
  }

  function Reaffirmed(lx: Lexer, s: Tables, id: Id, source: Reference, at: Time): Tables {
    match GetById(s, id)
    case None => s
    case Some(b) => if b.kind.OfSummary? then s else Upserted(lx, s, WithSource(b, source, at))
  }

  // ---- What it means for the derived tables to be right ----------------------------------

  predicate Stored(s: Tables, t: Table, id: Id) {
    id in RowsOf(s, t)
  }

  function RecordOf(s: Tables, t: Table, id: Id): Belief
    requires Stored(s, t, id)
  {
    RowsOf(s, t)[id].record
  }

  /** Every row is keyed by its own id, sits in the table of its kind, and copies its record. */
  ghost predicate RowsAgree(lx: Lexer, s: Tables) {
    forall t, id {:trigger Stored(s, t, id)} :: Stored(s, t, id) ==>
      var row := RowsOf(s, t)[id];
      row.record.id == id && TableOf(row.record) == t && row == RowOf(lx, row.record)
  }

  ghost predicate AboutExact(s: Tables) {
    forall a: AboutRow :: a in s.about <==>
      Stored(s, a.table, a.id) && a.ref in RecordOf(s, a.table, a.id).about
  }

  ghost predicate EntityExact(lx: Lexer, s: Tables) {
    forall e: EntityRow :: e in s.entity <==>
      Stored(s, e.table, e.id) && e.entity in EntityIds(lx, RecordOf(s, e.table, e.id))
  }

  predicate IsActive(s: Tables, t: Table, id: Id) {
    Stored(s, t, id) && RecordOf(s, t, id).lifecycle == Active
  }

  ghost predicate Listed<T>(rows: map<nat, SearchRow<T>>, t: Table, id: Id) {
    exists r :: r in rows && rows[r].table == t && rows[r].id == id
  }

  ghost predicate RowsAreActive<T(!new)>(s: Tables, rows: map<nat, SearchRow<T>>, textOf: Belief -> T) {
    forall r :: r in rows ==>
      && r < s.nextRow
      && IsActive(s, rows[r].table, rows[r].id)
      && rows[r].text == textOf(RecordOf(s, rows[r].table, rows[r].id))
  }

  ghost predicate OneRowEach<T(!new)>(rows: map<nat, SearchRow<T>>) {
    forall r, q | r in rows && q in rows :: rows[r].table == rows[q].table && rows[r].id == rows[q].id ==> r == q
  }

  ghost predicate ActiveAreListed<T(!new)>(s: Tables, rows: map<nat, SearchRow<T>>) {
    forall t, id :: IsActive(s, t, id) ==> Listed(rows, t, id)
  }

  /** Exactly one search row per Active belief, holding the text computed from it. */
  ghost predicate SearchExact<T(!new)>(s: Tables, rows: map<nat, SearchRow<T>>, textOf: Belief -> T) {
    RowsAreActive(s, rows, textOf) && OneRowEach(rows) && ActiveAreListed(s, rows)
  }

  ghost predicate Exact(lx: Lexer, s: Tables) {
    && RowsAgree(lx, s)
    && AboutExact(s)
    && EntityExact(lx, s)
    && SearchExact(s, s.terms, TermTextOf(lx))
    && SearchExact(s, s.trigrams, TrigramTextOf(lx))
  }
}

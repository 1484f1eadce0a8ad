/** The session message stream: one append-only table with dense ordinals per session. */
module Messages {
  import opened Common
  import opened JsonValues

  datatype MessageKind = UserMessage | AssistantMessage | ToolMessage | CompressedMessage

  /** The metadata keys truncation reads and writes; the lengths before cutting are kept by place name. */
  datatype Meta = Meta(truncateChecked: bool, textOutput: bool, originalLengths: map<string, nat>)

  datatype Message = Message(
    id: string,
    session: string,
    ordinal: nat,
    kind: MessageKind,
    raw: string,
    model: Option<string>,
    calls: seq<Json>,
    callId: Option<string>,
    point: Option<nat>,
    meta: Meta)

  /** What a caller supplies; the store adds the session, the id and the next ordinal. */
  datatype Payload = Payload(
    kind: MessageKind, raw: string, calls: seq<Json>, callId: Option<string>, point: Option<nat>, textOutput: bool)

  function MessageOf(p: Payload, id: string, session: string, ordinal: nat): Message {
    Message(id, session, ordinal, p.kind, p.raw, None, p.calls, p.callId, p.point, Meta(false, p.textOutput, map[]))
  }

  /** One session's messages, in the order they were inserted. */
  function Rows(table: seq<Message>, session: string): seq<Message> {
    if table == [] then []
    else
      var last := table[|table| - 1];
      var rest := Rows(table[..|table| - 1], session);
      if last.session == session then rest + [last] else rest
  }

  /** The largest ordinal of a session, 0 when it has no message. */
  function LatestOrdinal(table: seq<Message>, session: string): nat {
    if table == [] then 0
    else
      var rest, last := LatestOrdinal(table[..|table| - 1], session), table[|table| - 1];
      if last.session == session && last.ordinal > rest then last.ordinal else rest
  }

  predicate DenseRows(ms: seq<Message>) {
    forall i :: 0 <= i < |ms| ==> ms[i].ordinal == i + 1
  }

  /** Every session's ordinals are 1, 2, 3, … in insertion order. */
  ghost predicate Dense(table: seq<Message>) {
    forall session :: DenseRows(Rows(table, session))
  }

  /** Ids are the table's primary key. */
  ghost predicate UniqueIds(table: seq<Message>) {
    forall i, j :: 0 <= i < j < |table| ==> table[i].id != table[j].id
  }

  predicate FreshId(table: seq<Message>, id: string) {
    forall m <- table :: m.id != id
  }

  /** The columns a replay update writes. */
  function WithReplay(m: Message, u: Message): Message {
    m.(raw := u.raw, model := u.model, calls := u.calls, meta := u.meta)
  }

  function Patched(table: seq<Message>, u: Message): seq<Message> {
    seq(|table|, i requires 0 <= i < |table| => if table[i].id == u.id then WithReplay(table[i], u) else table[i])
  }

  lemma RowsOfAppend(table: seq<Message>, m: Message, session: string)
    ensures Rows(table + [m], session) == if m.session == session then Rows(table, session) + [m] else Rows(table, session)
  {
    assert (table + [m])[..|table|] == table;
  }

  lemma {:induction false} RowsMembers(table: seq<Message>, session: string, m: Message)
    ensures m in Rows(table, session) <==> m in table && m.session == session
  {
    if table != [] {
      var rest, last := table[..|table| - 1], table[|table| - 1];
      RowsMembers(rest, session, m);
      assert table == rest + [last];
      assert m in Rows(table, session) <==> m in Rows(rest, session) || (last.session == session && m == last);
    }
  }

  lemma {:induction false} LatestIsLength(table: seq<Message>, session: string)
    requires DenseRows(Rows(table, session))
    ensures LatestOrdinal(table, session) == |Rows(table, session)|
  {
    if table != [] {
      var rest, last := table[..|table| - 1], table[|table| - 1];
      var before, after := Rows(rest, session), Rows(table, session);
      assert before == after[..|before|];
      assert DenseRows(before) by {
        forall i | 0 <= i < |before|
          ensures before[i].ordinal == i + 1
        {
          assert before[i] == after[i];
        }
      }
      LatestIsLength(rest, session);
      if last.session == session {
        assert after[|before|] == last;
      }
    }
  }

  /** Appending with the next ordinal keeps every session dense and touches no other session. */
  lemma AppendKeepsDense(table: seq<Message>, m: Message)
    requires Dense(table) && m.ordinal == LatestOrdinal(table, m.session) + 1
    ensures Dense(table + [m])
    ensures forall other :: other != m.session ==> Rows(table + [m], other) == Rows(table, other)
  {
    forall session
      ensures DenseRows(Rows(table + [m], session))
      ensures session != m.session ==> Rows(table + [m], session) == Rows(table, session)
    {
      RowsOfAppend(table, m, session);
      if session == m.session {
        assert DenseRows(Rows(table, session));
        LatestIsLength(table, session);
      }
    }
  }

  // ---- Queries ---------------------------------------------------------------------------

  predicate After(m: Message, bound: Option<nat>) {
    bound.None? || m.ordinal > bound.value
  }

  predicate Before(m: Message, bound: Option<int>) {
    bound.None? || m.ordinal < bound.value
  }

  function Between(ms: seq<Message>, after: Option<nat>, before: Option<int>): seq<Message> {
    if ms == [] then []
    else
      var last := ms[|ms| - 1];
      var rest := Between(ms[..|ms| - 1], after, before);
      if After(last, after) && Before(last, before) then rest + [last] else rest
  }

  function LatestCompressed(ms: seq<Message>, before: Option<int>): Option<Message> {
    if ms == [] then None
    else
      var last := ms[|ms| - 1];
      if last.kind == CompressedMessage && Before(last, before) then Some(last)
      else LatestCompressed(ms[..|ms| - 1], before)
  }

  lemma BetweenOfAppend(ms: seq<Message>, m: Message, after: Option<nat>, before: Option<int>)
    ensures Between(ms + [m], after, before) ==
            if After(m, after) && Before(m, before) then Between(ms, after, before) + [m] else Between(ms, after, before)
    ensures LatestCompressed(ms + [m], before) ==
            if m.kind == CompressedMessage && Before(m, before) then Some(m) else LatestCompressed(ms, before)
  {
    assert (ms + [m])[..|ms|] == ms;
  }

  // ---- The store -------------------------------------------------------------------------

  class SessionStore {
    var table: seq<Message>

    ghost predicate Valid()
      reads this
    {
      Dense(table) && UniqueIds(table)
    }

    constructor ()
      ensures Valid() && table == []
    {
      table := [];
      new;
      assert forall session :: Rows(table, session) == [];
    }

    method LatestSessionOrdinal(session: string) returns (ordinal: nat)
      ensures ordinal == LatestOrdinal(table, session)
    {
      ordinal := 0;
      var i := 0;
      while i < |table|
        invariant 0 <= i <= |table|
        invariant ordinal == LatestOrdinal(table[..i], session)
      {
        assert table[..i + 1][..i] == table[..i];
        if table[i].session == session && table[i].ordinal > ordinal {
          ordinal := table[i].ordinal;
        }
        i := i + 1;
      }
      assert table[..i] == table;
    }

    method AppendSessionMessage(session: string, id: string, p: Payload) returns (m: Message)
      requires Valid() && FreshId(table, id)
      modifies this
      ensures Valid()
      ensures m == MessageOf(p, id, session, |Rows(old(table), session)| + 1)
      ensures table == old(table) + [m]
    {
      var latest := LatestSessionOrdinal(session);
      assert DenseRows(Rows(table, session));
      LatestIsLength(table, session);
      m := MessageOf(p, id, session, latest + 1);
      AppendKeepsDense(table, m);
      table := table + [m];
    }

    /** Accepts a ready-made message only when it carries the next ordinal. */
    method InsertSessionMessage(m: Message) returns (ok: bool)
      requires Valid() && FreshId(table, m.id)
      modifies this
      ensures Valid()
      ensures ok == (m.ordinal == |Rows(old(table), m.session)| + 1)
      ensures table == if ok then old(table) + [m] else old(table)
    {
      var latest := LatestSessionOrdinal(m.session);
      assert DenseRows(Rows(table, m.session));
      LatestIsLength(table, m.session);
      ok := m.ordinal == latest + 1;
      if ok {
        AppendKeepsDense(table, m);
        table := table + [m];
      }
    }

    /** One update statement: rewrites the replay columns of one message; false when there is no such message. */
    method UpdateReplayPayload(u: Message) returns (found: bool)
      modifies this
      ensures found == !FreshId(old(table), u.id)
      ensures table == Patched(old(table), u)
    {
      found := exists m <- table :: m.id == u.id;
      table := Patched(table, u);
    }

    /** The query's rows in insertion order, which Valid makes ordinal order. */
    method ListSessionMessages(session: string, after: Option<nat>, before: Option<int>) returns (ms: seq<Message>)
      ensures ms == Between(Rows(table, session), after, before)
    {
      ms := [];
      var i := 0;
      while i < |table|
        invariant 0 <= i <= |table|
        invariant ms == Between(Rows(table[..i], session), after, before)
      {
        var m := table[i];
        assert table[..i + 1] == table[..i] + [m];
        RowsOfAppend(table[..i], m, session);
        BetweenOfAppend(Rows(table[..i], session), m, after, before);
        if m.session == session && After(m, after) && Before(m, before) {
          ms := ms + [m];
        }
        i := i + 1;
      }
      assert table[..i] == table;
    }

    method FindLatestCompressed(session: string, before: Option<int>) returns (found: Option<Message>)
      ensures found == LatestCompressed(Rows(table, session), before)
    {
      found := None;
      var i := 0;
      while i < |table|
        invariant 0 <= i <= |table|
        invariant found == LatestCompressed(Rows(table[..i], session), before)
      {
        var m := table[i];
        assert table[..i + 1] == table[..i] + [m];
        RowsOfAppend(table[..i], m, session);
        BetweenOfAppend(Rows(table[..i], session), m, None, before);
        if m.session == session && m.kind == CompressedMessage && Before(m, before) {
          found := Some(m);
        }
        i := i + 1;
      }
      assert table[..i] == table;
    }
  }
}

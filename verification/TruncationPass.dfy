/** What one truncation pass does to the stored stream: which messages it changes, and into what. */
module TruncationPass {
  import opened Common
  import opened JsonValues
  import opened Messages
  import opened Truncation
  import opened SessionContext

  /** A tool result, or an assistant message that asked for tools. */
  predicate HasPayload(m: Message) {
    m.kind == ToolMessage || (m.kind == AssistantMessage && m.calls != [])
  }

  /** One payload of a message: its arguments call by call, or its two contents. */
  predicate PayloadAt(codec: Codec, m: Message, place: string, v: Json) {
    if m.kind == ToolMessage then
      || (place == "raw_content" && ParsedContent(codec, m.raw, m.meta.textOutput) == Some(v))
      || (place == "model_content" && m.model.Some? && ParsedContent(codec, m.model.value, m.meta.textOutput) == Some(v))
    else exists i :: 0 <= i < |m.calls| && CallPlace(i) == place && ParsedArguments(codec, m.calls[i]) == Some(v)
  }

  /** Every payload is a document. */
  predicate Readable(codec: Codec, m: Message) {
    if m.kind == ToolMessage then
      && ParsedContent(codec, m.raw, m.meta.textOutput).Some?
      && (m.model.Some? ==> ParsedContent(codec, m.model.value, m.meta.textOutput).Some?)
    else forall c <- m.calls :: ParsedArguments(codec, c).Some?
  }

  /** A message is left alone exactly when it was checked before or holds no payload, and fails exactly
      when a payload cannot be read, or the limit is negative. */
  lemma PreparedExactlyWhen(codec: Codec, m: Message, limit: int)
    ensures Prepared(codec, m, limit) == Ok(None) <==> m.meta.truncateChecked || !HasPayload(m)
    ensures Prepared(codec, m, limit).Err? <==> !m.meta.truncateChecked && HasPayload(m) && (limit < 0 || !Readable(codec, m))
  {
  }

  // ---- The record of lengths -------------------------------------------------------------

  /** A string somewhere in a payload of the message that is longer than the limit. */
  ghost predicate IsLong(codec: Codec, m: Message, limit: nat, c: Cut) {
    exists place, v {:trigger PayloadAt(codec, m, place, v)} :: PayloadAt(codec, m, place, v) && LongIn(v, limit, place, c)
  }

  ghost predicate LongIn(v: Json, limit: nat, place: string, c: Cut) {
    exists path :: LongAt(v, limit, path) && c == CutAt(v, place, path)
  }

  function MessageCuts(codec: Codec, m: Message, limit: nat): seq<Cut>
    requires HasPayload(m) && Readable(codec, m)
  {
    if m.kind == ToolMessage then
      Cuts(codec.order, ParsedContent(codec, m.raw, m.meta.textOutput).value, limit, "raw_content")
      + if m.model.Some? then Cuts(codec.order, ParsedContent(codec, m.model.value, m.meta.textOutput).value, limit, "model_content") else []
    else CallCuts(codec, m.calls, limit, |m.calls|)
  }

  lemma CutsAre(order: FieldOrder, v: Json, limit: nat, place: string, c: Cut)
    ensures c in Cuts(order, v, limit, place) <==> LongIn(v, limit, place, c) == true
  {
    CutsExact(order, v, limit, place, c);
  }

  lemma LongIsLong(codec: Codec, m: Message, limit: nat, place: string, v: Json, c: Cut)
    requires PayloadAt(codec, m, place, v) == true && LongIn(v, limit, place, c) == true
    ensures IsLong(codec, m, limit, c)
  {
  }

  lemma LongFrom(codec: Codec, m: Message, limit: nat, c: Cut) returns (place: string, v: Json)
    requires IsLong(codec, m, limit, c)
    ensures PayloadAt(codec, m, place, v) == true && LongIn(v, limit, place, c) == true
  {
    place, v :| PayloadAt(codec, m, place, v) && LongIn(v, limit, place, c);
  }

  lemma {:induction false} CallOfCut(codec: Codec, calls: seq<Json>, limit: nat, n: nat, c: Cut) returns (i: nat)
    requires n <= |calls| && c in CallCuts(codec, calls, limit, n)
    ensures i < n && ParsedArguments(codec, calls[i]).Some?
    ensures LongIn(ParsedArguments(codec, calls[i]).value, limit, CallPlace(i), c) == true
  {
    if c in CallCuts(codec, calls, limit, n - 1) {
      i := CallOfCut(codec, calls, limit, n - 1, c);
    } else {
      i := n - 1;
      CutsAre(codec.order, ParsedArguments(codec, calls[i]).value, limit, CallPlace(i), c);
    }
  }

  lemma {:induction false} CutOfCall(codec: Codec, calls: seq<Json>, limit: nat, n: nat, i: nat, c: Cut)
    requires i < n <= |calls| && ParsedArguments(codec, calls[i]).Some?
    requires c in Cuts(codec.order, ParsedArguments(codec, calls[i]).value, limit, CallPlace(i))
    ensures c in CallCuts(codec, calls, limit, n)
  {
    if i < n - 1 {
      CutOfCall(codec, calls, limit, n - 1, i, c);
    }
  }

  lemma CutIsLong(codec: Codec, m: Message, limit: nat, c: Cut)
    requires HasPayload(m) && Readable(codec, m) && c in MessageCuts(codec, m, limit)
    ensures IsLong(codec, m, limit, c)
  {
    if m.kind == AssistantMessage {
      var i := CallOfCut(codec, m.calls, limit, |m.calls|, c);
      LongIsLong(codec, m, limit, CallPlace(i), ParsedArguments(codec, m.calls[i]).value, c);
    } else {
      var raw := ParsedContent(codec, m.raw, m.meta.textOutput).value;
      CutsAre(codec.order, raw, limit, "raw_content", c);
      if c in Cuts(codec.order, raw, limit, "raw_content") {
        LongIsLong(codec, m, limit, "raw_content", raw, c);
      } else {
        var shown := ParsedContent(codec, m.model.value, m.meta.textOutput).value;
        CutsAre(codec.order, shown, limit, "model_content", c);
        LongIsLong(codec, m, limit, "model_content", shown, c);
      }
    }
  }

  lemma LongIsCut(codec: Codec, m: Message, limit: nat, c: Cut)
    requires HasPayload(m) && Readable(codec, m) && IsLong(codec, m, limit, c)
    ensures c in MessageCuts(codec, m, limit)
  {
    var place, v := LongFrom(codec, m, limit, c);
    CutsAre(codec.order, v, limit, place, c);
    if m.kind == AssistantMessage {
      var i :| 0 <= i < |m.calls| && CallPlace(i) == place && ParsedArguments(codec, m.calls[i]) == Some(v);
      CutOfCall(codec, m.calls, limit, |m.calls|, i, c);
    }
  }

  /** The record names exactly the places where a payload had a long string, each with the length of one
      of the strings there. */
  ghost predicate RecordsCuts(codec: Codec, m: Message, record: map<string, nat>, limit: nat) {
    && (forall c :: IsLong(codec, m, limit, c) ==> c.place in record)
    && forall name :: name in record ==> IsLong(codec, m, limit, Cut(name, record[name]))
  }

  lemma NotedRecordsCuts(codec: Codec, m: Message, limit: nat)
    requires HasPayload(m) && Readable(codec, m)
    ensures RecordsCuts(codec, m, Noted(map[], MessageCuts(codec, m, limit)), limit)
  {
    var cuts := MessageCuts(codec, m, limit);
    var record := Noted(map[], cuts);
    forall c | IsLong(codec, m, limit, c)
      ensures c.place in record
    {
      LongIsCut(codec, m, limit, c);
      NotedMeans(map[], cuts, c.place);
    }
    forall name | name in record
      ensures IsLong(codec, m, limit, Cut(name, record[name]))
    {
      NotedMeans(map[], cuts, name);
      CutIsLong(codec, m, limit, Cut(name, record[name]));
    }
  }

  // ---- One pass --------------------------------------------------------------------------

  /** The message, cut: checked, with the record of its long strings, each payload reading as the
      truncation of what it read as, and nothing else changed. */
  ghost predicate IsCut(codec: Codec, m: Message, m': Message, limit: nat) {
    && m' == m.(raw := m'.raw, model := m'.model, calls := m'.calls, meta := Meta(true, m.meta.textOutput, m'.meta.originalLengths))
    && RecordsCuts(codec, m, m'.meta.originalLengths, limit)
    && |m'.calls| == |m.calls| && m'.model.Some? == m.model.Some?
    && (m.kind == AssistantMessage ==>
          && m'.raw == m.raw && m'.model == m.model
          && forall i :: 0 <= i < |m.calls| ==>
               && SameButArguments(m.calls[i], m'.calls[i])
               && ParsedArguments(codec, m.calls[i]).Some?
               && ParsedArguments(codec, m'.calls[i]) == Some(Truncated(ParsedArguments(codec, m.calls[i]).value, limit)))
    && (m.kind == ToolMessage ==>
          && m'.calls == m.calls && ReadsCut(codec, m, m'.raw, m.raw, limit)
          && (m.model.Some? ==> ReadsCut(codec, m, m'.model.value, m.model.value, limit)))
  }

  lemma PreparedIsCut(codec: Codec, m: Message, limit: int)
    requires RoundTrips(codec) && Prepared(codec, m, limit).Ok? && Prepared(codec, m, limit).value.Some?
    ensures limit >= 0 && IsCut(codec, m, Prepared(codec, m, limit).value.value, limit)
  {
    PreparedExactlyWhen(codec, m, limit);
    PreparedMeans(codec, m, limit);
    NotedRecordsCuts(codec, m, limit);
    PreparedKeepsRest(codec, m, limit);
    if m.kind == AssistantMessage {
      forall i | 0 <= i < |m.calls|
        ensures ParsedArguments(codec, m.calls[i]).Some?
      {
        assert m.calls[i] in m.calls;
      }
    }
  }

  lemma PreparedKeepsRest(codec: Codec, m: Message, limit: int)
    requires limit >= 0 && HasPayload(m) && Readable(codec, m)
    requires Prepared(codec, m, limit).Ok? && Prepared(codec, m, limit).value.Some?
    ensures var m' := Prepared(codec, m, limit).value.value;
            && m' == m.(raw := m'.raw, model := m'.model, calls := m'.calls, meta := Meta(true, m.meta.textOutput, m'.meta.originalLengths))
            && m'.meta.originalLengths == Noted(map[], MessageCuts(codec, m, limit))
  {
  }

  /** A pass fails, and then changes nothing, exactly when an unchecked payload that is loaded cannot be
      read or the limit is negative while there is one. Otherwise it cuts exactly the loaded messages with
      an unchecked payload, and every other message of every session stays as it is. */
  lemma PassCutsLoaded(codec: Codec, table: seq<Message>, session: string, limit: int, before: Option<int>)
    requires RoundTrips(codec)
    ensures TruncatedTable(codec, table, session, limit, before).Err? <==>
            exists m <- Loaded(Rows(table, session), before) ::
              !m.meta.truncateChecked && HasPayload(m) && (limit < 0 || !Readable(codec, m))
    ensures TruncatedTable(codec, table, session, limit, before).Ok? ==>
              var loaded, table' := Loaded(Rows(table, session), before), TruncatedTable(codec, table, session, limit, before).value;
              && |table'| == |table|
              && forall i :: 0 <= i < |table| ==>
                   if table[i] in loaded && !table[i].meta.truncateChecked && HasPayload(table[i])
                   then limit >= 0 && IsCut(codec, table[i], table'[i], limit)
                   else table'[i] == table[i]
  {
    var loaded := Loaded(Rows(table, session), before);
    forall m | m in loaded
      ensures Prepared(codec, m, limit).Err? <==> !m.meta.truncateChecked && HasPayload(m) && (limit < 0 || !Readable(codec, m))
    {
      PreparedExactlyWhen(codec, m, limit);
    }
    if TruncatedTable(codec, table, session, limit, before).Ok? {
      var table' := Replaced(codec, loaded, limit, table);
      forall i | 0 <= i < |table|
        ensures if table[i] in loaded && !table[i].meta.truncateChecked && HasPayload(table[i])
                then limit >= 0 && IsCut(codec, table[i], table'[i], limit)
                else table'[i] == table[i]
      {
        PreparedExactlyWhen(codec, table[i], limit);
        if table[i] in loaded && Prepared(codec, table[i], limit) != Ok(None) {
          PreparedIsCut(codec, table[i], limit);
        }
      }
    }
  }
}

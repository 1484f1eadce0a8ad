/** The answer-path context: the part of a session's stream the model sees, and what maintenance does
    to it. */
module SessionContext {
  import opened Common
  import opened JsonValues
  import opened Messages
  import opened Truncation

  // ---- Loading ---------------------------------------------------------------------------

  function WithoutCompressed(ms: seq<Message>): seq<Message> {
    if ms == [] then []
    else
      var rest, last := WithoutCompressed(ms[..|ms| - 1]), ms[|ms| - 1];
      if last.kind == CompressedMessage then rest else rest + [last]
  }

  function Ordinary(ms: seq<Message>, before: Option<int>): seq<Message> {
    var c := LatestCompressed(ms, before);
    WithoutCompressed(Between(ms, if c.Some? then Some(c.value.ordinal) else None, before))
  }

  /** The latest compressed message below the bound, then the ordinary messages after it. */
  function Loaded(ms: seq<Message>, before: Option<int>): seq<Message> {
    var c := LatestCompressed(ms, before);
    if c.Some? then [c.value] + Ordinary(ms, before) else Ordinary(ms, before)
  }

  /** How many messages lie below the bound. */
  function Below(ms: seq<Message>, before: Option<int>): (n: nat)
    ensures n <= |ms|
  {
    if before.None? || before.value > |ms| then |ms|
    else if before.value < 1 then 0
    else before.value - 1
  }

  lemma {:induction false} LatestCompressedMeans(ms: seq<Message>, before: Option<int>)
    requires DenseRows(ms)
    ensures match LatestCompressed(ms, before)
            case None => forall i :: 0 <= i < Below(ms, before) ==> ms[i].kind != CompressedMessage
            case Some(c) =>
              && 1 <= c.ordinal <= Below(ms, before) && ms[c.ordinal - 1] == c && c.kind == CompressedMessage
              && forall i :: c.ordinal <= i < Below(ms, before) ==> ms[i].kind != CompressedMessage
  {
    if ms != [] {
      LatestCompressedMeans(ms[..|ms| - 1], before);
    }
  }

  lemma {:induction false} BetweenMeans(ms: seq<Message>, after: Option<nat>, before: Option<int>)
    requires DenseRows(ms)
    requires after.Some? ==> after.value <= Below(ms, before)
    ensures Between(ms, after, before) == ms[if after.Some? then after.value else 0..Below(ms, before)]
  {
    if ms != [] {
      var rest, last, lo := ms[..|ms| - 1], ms[|ms| - 1], if after.Some? then after.value else 0;
      if lo < |ms| {
        BetweenMeans(rest, after, before);
        if Before(last, before) {
          assert Below(ms, before) == |ms| && Below(rest, before) == |rest|;
          assert ms[lo..|ms|] == rest[lo..] + [last];
        } else {
          assert Below(ms, before) == Below(rest, before);
          assert ms[lo..Below(ms, before)] == rest[lo..Below(ms, before)];
        }
      } else {
        BetweenEmpty(rest, after, before);
      }
    }
  }

  lemma {:induction false} BetweenEmpty(ms: seq<Message>, after: Option<nat>, before: Option<int>)
    requires DenseRows(ms) && after.Some? && after.value >= |ms|
    ensures Between(ms, after, before) == []
  {
    if ms != [] {
      BetweenEmpty(ms[..|ms| - 1], after, before);
    }
  }

  lemma {:induction false} NothingToDrop(ms: seq<Message>)
    requires forall m <- ms :: m.kind != CompressedMessage
    ensures WithoutCompressed(ms) == ms
  {
    if ms != [] {
      NothingToDrop(ms[..|ms| - 1]);
    }
  }

  /** The ordinal of the latest compressed message below the bound, 0 when there is none. */
  function Boundary(ms: seq<Message>, before: Option<int>): nat {
    match LatestCompressed(ms, before)
    case None => 0
    case Some(c) => c.ordinal
  }

  lemma OrdinaryIsASlice(ms: seq<Message>, before: Option<int>)
    requires DenseRows(ms)
    ensures Boundary(ms, before) <= Below(ms, before)
    ensures Ordinary(ms, before) == ms[Boundary(ms, before)..Below(ms, before)]
    ensures forall i :: Boundary(ms, before) <= i < Below(ms, before) ==> ms[i].kind != CompressedMessage
  {
    LatestCompressedMeans(ms, before);
    var c := LatestCompressed(ms, before);
    var after := if c.Some? then Some(c.value.ordinal) else None;
    BetweenMeans(ms, after, before);
    NothingToDrop(Between(ms, after, before));
  }

  function Start(ms: seq<Message>, before: Option<int>): nat {
    if Boundary(ms, before) == 0 then 0 else Boundary(ms, before) - 1
  }

  /** What is loaded is one unbroken stretch of the stream: from the latest compressed message below the
      bound, or from the start, up to the bound. Only its first message can be compressed. */
  lemma LoadIsASlice(ms: seq<Message>, before: Option<int>)
    requires DenseRows(ms)
    ensures Start(ms, before) <= Below(ms, before)
    ensures Loaded(ms, before) == ms[Start(ms, before)..Below(ms, before)]
    ensures forall i :: Start(ms, before) < i < Below(ms, before) ==> ms[i].kind != CompressedMessage
  {
    OrdinaryIsASlice(ms, before);
    LatestCompressedMeans(ms, before);
    var b := Boundary(ms, before);
    if b > 0 {
      assert ms[b - 1..Below(ms, before)] == [ms[b - 1]] + ms[b..Below(ms, before)];
    }
  }

  // ---- Tool messages and their calls -----------------------------------------------------

  predicate CarriesId(m: Message, id: string) {
    exists c <- m.calls :: Field(c, "id") == Some(JString(id))
  }

  /** `ms[a]` asked for the result in `ms[t]`, with no compressed message between them. */
  predicate Carrier(ms: seq<Message>, a: int, t: int) {
    && 0 <= a < t < |ms|
    && ms[a].kind == AssistantMessage
    && ms[t].callId.Some? && CarriesId(ms[a], ms[t].callId.value)
    && forall i :: a < i < t ==> ms[i].kind != CompressedMessage
  }

  ghost predicate AnchoredAt(ms: seq<Message>, t: int) {
    exists a :: Carrier(ms, a, t)
  }

  ghost predicate Anchored(ms: seq<Message>) {
    forall t :: 0 <= t < |ms| && ms[t].kind == ToolMessage ==> AnchoredAt(ms, t)
  }

  /** Every loaded context, under any bound, keeps each tool message together with the assistant message
      that carries its call id. */
  lemma LoadKeepsAnchors(ms: seq<Message>, before: Option<int>)
    requires DenseRows(ms) && Anchored(ms)
    ensures Anchored(Loaded(ms, before))
  {
    LoadIsASlice(ms, before);
    LatestCompressedMeans(ms, before);
    SliceKeepsAnchors(ms, Start(ms, before), Below(ms, before));
  }

  /** A stretch keeps its anchors when it starts the stream or with a compressed message. */
  lemma SliceKeepsAnchors(ms: seq<Message>, lo: nat, hi: nat)
    requires lo <= hi <= |ms| && Anchored(ms)
    requires lo == 0 || (lo < hi && ms[lo].kind == CompressedMessage)
    ensures Anchored(ms[lo..hi])
  {
    var slice := ms[lo..hi];
    forall t | 0 <= t < |slice| && slice[t].kind == ToolMessage
      ensures AnchoredAt(slice, t)
    {
      assert AnchoredAt(ms, lo + t);
      var a :| Carrier(ms, a, lo + t);
      assert a >= lo;
      assert Carrier(slice, a - lo, t);
    }
  }

  lemma AppendKeepsAnchors(ms: seq<Message>, m: Message)
    requires Anchored(ms)
    requires m.kind == ToolMessage ==> AnchoredAt(ms + [m], |ms|)
    ensures Anchored(ms + [m])
  {
    var ms' := ms + [m];
    forall t | 0 <= t < |ms'| && ms'[t].kind == ToolMessage
      ensures AnchoredAt(ms', t)
    {
      if t < |ms| {
        assert AnchoredAt(ms, t);
        var a :| Carrier(ms, a, t);
        assert Carrier(ms', a, t);
      }
    }
  }

  // ---- Truncation of stored messages -----------------------------------------------------

  /** The JSON text form, both ways. */
  datatype Codec = Codec(parse: string -> Option<Json>, dump: Json -> string, order: FieldOrder)

  ghost predicate RoundTrips(codec: Codec) {
    forall v :: codec.parse(codec.dump(v)) == Some(v)
  }

  function ParsedArguments(codec: Codec, call: Json): Option<Json> {
    match Field(call, "function")
    case Some(JObject(fn)) =>
      (match Field(JObject(fn), "arguments")
       case Some(JString(text)) => codec.parse(text)
       case _ => None)
    case _ => None
  }

  function WithArguments(call: Json, arguments: string): Json {
    match Field(call, "function")
    case Some(JObject(fn)) => JObject(call.fields["function" := JObject(fn["arguments" := JString(arguments)])])
    case _ => call
  }

  function CallPlace(index: nat): string {
    "tool_calls[" + Digits(index) + "].function.arguments"
  }

  function CutCall(codec: Codec, call: Json, limit: nat): Json {
    match ParsedArguments(codec, call)
    case None => call
    case Some(arguments) => WithArguments(call, codec.dump(Truncated(arguments, limit)))
  }

  /** The cuts of the first `n` calls, in order. */
  function CallCuts(codec: Codec, calls: seq<Json>, limit: nat, n: nat): seq<Cut>
    requires n <= |calls|
  {
    if n == 0 then []
    else
      CallCuts(codec, calls, limit, n - 1)
      + match ParsedArguments(codec, calls[n - 1]) { case None => [] case Some(v) => Cuts(codec.order, v, limit, CallPlace(n - 1)) }
  }

  /** A tool message's content: plain text is one string, everything else is a JSON document. */
  function ParsedContent(codec: Codec, text: string, plain: bool): Option<Json> {
    if plain then Some(JString(text)) else codec.parse(text)
  }

  function DumpedContent(codec: Codec, v: Json, plain: bool): string {
    if plain && v.JString? then v.text else codec.dump(v)
  }

  /** The record of all payloads of a message is one; later lengths overwrite earlier ones. */
  function Checked(m: Message, cuts: seq<Cut>): Meta {
    m.meta.(truncateChecked := true, originalLengths := Noted(map[], cuts))
  }

  /** The replacement for one message: None when it has no unchecked tool payload, an error when a stored
      payload does not parse. */
  function Prepared(codec: Codec, m: Message, limit: int): Result<Option<Message>, string> {
    if m.meta.truncateChecked then Ok(None)
    else if m.kind == AssistantMessage && m.calls != [] then
      if limit < 0 || exists c <- m.calls :: ParsedArguments(codec, c).None? then Err("assistant tool call")
      else
        Ok(Some(m.(calls := seq(|m.calls|, i requires 0 <= i < |m.calls| => CutCall(codec, m.calls[i], limit)),
                   meta := Checked(m, CallCuts(codec, m.calls, limit, |m.calls|)))))
    else if m.kind == ToolMessage then
      var raw := ParsedContent(codec, m.raw, m.meta.textOutput);
      var shown := if m.model.Some? then ParsedContent(codec, m.model.value, m.meta.textOutput) else Some(JNull);
      if limit < 0 || raw.None? || shown.None? then Err("tool message")
      else
        Ok(Some(m.(
          raw := DumpedContent(codec, Truncated(raw.value, limit), m.meta.textOutput),
          model := if m.model.Some? then Some(DumpedContent(codec, Truncated(shown.value, limit), m.meta.textOutput)) else None,
          meta := Checked(m, Cuts(codec.order, raw.value, limit, "raw_content")
                             + if m.model.Some? then Cuts(codec.order, shown.value, limit, "model_content") else []))))
    else Ok(None)
  }

  predicate SameSkeleton(m: Message, m': Message) {
    && m'.id == m.id && m'.session == m.session && m'.ordinal == m.ordinal
    && m'.kind == m.kind && m'.callId == m.callId && m'.point == m.point && |m'.calls| == |m.calls|
    && forall i :: 0 <= i < |m.calls| ==> Field(m'.calls[i], "id") == Field(m.calls[i], "id")
  }

  /** One content of a tool message now reads as the truncation of what it read as. */
  predicate ReadsCut(codec: Codec, m: Message, now: string, was: string, limit: nat) {
    var before := ParsedContent(codec, was, m.meta.textOutput);
    before.Some? && ParsedContent(codec, now, m.meta.textOutput) == Some(Truncated(before.value, limit))
  }

  /** A prepared message is checked, keeps its identity and its call ids, and differs from the stored one
      only by truncation: each payload now reads as the truncation of what it read as. */
  lemma PreparedMeans(codec: Codec, m: Message, limit: int)
    requires Prepared(codec, m, limit).Ok? && Prepared(codec, m, limit).value.Some?
    ensures var m' := Prepared(codec, m, limit).value.value;
            && limit >= 0 && m'.meta.truncateChecked && SameSkeleton(m, m')
            && (m.kind == AssistantMessage ==> m'.raw == m.raw && m'.model == m.model)
            && (m.kind == ToolMessage ==> m'.calls == m.calls && m'.model.Some? == m.model.Some?)
            && (forall i :: 0 <= i < |m.calls| ==> SameButArguments(m.calls[i], m'.calls[i]))
            && (RoundTrips(codec) && m.kind == AssistantMessage ==>
                  forall i :: 0 <= i < |m.calls| ==>
                    ParsedArguments(codec, m'.calls[i]) == Some(Truncated(ParsedArguments(codec, m.calls[i]).value, limit)))
            && (RoundTrips(codec) && m.kind == ToolMessage ==> ReadsCut(codec, m, m'.raw, m.raw, limit))
            && (RoundTrips(codec) && m.kind == ToolMessage && m.model.Some? ==> ReadsCut(codec, m, m'.model.value, m.model.value, limit))
  {
    var m' := Prepared(codec, m, limit).value.value;
    if m.kind == AssistantMessage {
      forall i | 0 <= i < |m.calls|
        ensures Field(m'.calls[i], "id") == Field(m.calls[i], "id") && SameButArguments(m.calls[i], m'.calls[i])
        ensures RoundTrips(codec) ==>
                  ParsedArguments(codec, m'.calls[i]) == Some(Truncated(ParsedArguments(codec, m.calls[i]).value, limit))
      {
        assert m.calls[i] in m.calls;
        CutCallMeans(codec, m.calls[i], limit);
      }
    }
  }

  /** Of a call only the arguments of its function can differ: its id, its type and its name stay. */
  ghost predicate SameButArguments(call: Json, call': Json) {
    && (forall k :: k != "function" ==> Field(call', k) == Field(call, k))
    && match (Field(call, "function"), Field(call', "function"))
       case (Some(fn), Some(fn')) => forall k :: k != "arguments" ==> Field(fn', k) == Field(fn, k)
       case (a, b) => a == b
  }

  lemma CutCallMeans(codec: Codec, call: Json, limit: nat)
    requires ParsedArguments(codec, call).Some?
    ensures Field(CutCall(codec, call, limit), "id") == Field(call, "id") && SameButArguments(call, CutCall(codec, call, limit))
    ensures RoundTrips(codec) ==>
              ParsedArguments(codec, CutCall(codec, call, limit)) == Some(Truncated(ParsedArguments(codec, call).value, limit))
  {
    var v := Truncated(ParsedArguments(codec, call).value, limit);
    assert RoundTrips(codec) ==> codec.parse(codec.dump(v)) == Some(v);
  }

  // ---- One truncation pass ---------------------------------------------------------------

  function Replacement(codec: Codec, loaded: seq<Message>, limit: int, m: Message): Message {
    if m in loaded && Prepared(codec, m, limit).Ok? && Prepared(codec, m, limit).value.Some?
    then Prepared(codec, m, limit).value.value else m
  }

  function Replaced(codec: Codec, loaded: seq<Message>, limit: int, ms: seq<Message>): seq<Message> {
    seq(|ms|, i requires 0 <= i < |ms| => Replacement(codec, loaded, limit, ms[i]))
  }

  predicate SomePayloadFails(codec: Codec, loaded: seq<Message>, limit: int) {
    exists m <- loaded :: Prepared(codec, m, limit).Err?
  }

  /** The stored table after one pass over what is loaded under the bound; an error leaves it alone. */
  function TruncatedTable(codec: Codec, table: seq<Message>, session: string, limit: int, before: Option<int>): Result<seq<Message>, string> {
    var loaded := Loaded(Rows(table, session), before);
    if SomePayloadFails(codec, loaded, limit) then Err("unreadable tool payload")
    else Ok(Replaced(codec, loaded, limit, table))
  }

  predicate SameSkeletons(ms: seq<Message>, ms': seq<Message>) {
    |ms'| == |ms| && forall i :: 0 <= i < |ms| ==> SameSkeleton(ms[i], ms'[i])
  }

  lemma ReplacedKeepsSkeletons(codec: Codec, loaded: seq<Message>, limit: int, ms: seq<Message>)
    ensures SameSkeletons(ms, Replaced(codec, loaded, limit, ms))
  {
    forall i | 0 <= i < |ms|
      ensures SameSkeleton(ms[i], Replacement(codec, loaded, limit, ms[i]))
    {
      if Replacement(codec, loaded, limit, ms[i]) != ms[i] {
        PreparedMeans(codec, ms[i], limit);
      }
    }
  }

  lemma {:induction false} RowsOfReplaced(codec: Codec, loaded: seq<Message>, limit: int, table: seq<Message>, session: string)
    ensures Rows(Replaced(codec, loaded, limit, table), session) == Replaced(codec, loaded, limit, Rows(table, session))
  {
    if table != [] {
      var rest, last := table[..|table| - 1], table[|table| - 1];
      var table' := Replaced(codec, loaded, limit, table);
      RowsOfReplaced(codec, loaded, limit, rest, session);
      ReplacedKeepsSkeletons(codec, loaded, limit, table);
      assert table'[..|table| - 1] == Replaced(codec, loaded, limit, rest);
      assert SameSkeleton(last, table'[|table| - 1]);
    }
  }

  lemma {:induction false} SkeletonsKeepBoundary(ms: seq<Message>, ms': seq<Message>, before: Option<int>)
    requires SameSkeletons(ms, ms')
    ensures LatestCompressed(ms, before).Some? <==> LatestCompressed(ms', before).Some?
    ensures Boundary(ms', before) == Boundary(ms, before)
  {
    if ms != [] {
      assert SameSkeleton(ms[|ms| - 1], ms'[|ms| - 1]);
      SkeletonsKeepBoundary(ms[..|ms| - 1], ms'[..|ms| - 1], before);
    }
  }

  lemma SkeletonsKeepAnchors(ms: seq<Message>, ms': seq<Message>)
    requires SameSkeletons(ms, ms') && Anchored(ms)
    ensures Anchored(ms')
  {
    forall t | 0 <= t < |ms'| && ms'[t].kind == ToolMessage
      ensures AnchoredAt(ms', t)
    {
      assert SameSkeleton(ms[t], ms'[t]);
      assert AnchoredAt(ms, t);
      var a :| Carrier(ms, a, t);
      assert SameSkeleton(ms[a], ms'[a]);
      var c :| c in ms[a].calls && Field(c, "id") == Some(JString(ms[t].callId.value));
      var i :| 0 <= i < |ms[a].calls| && ms[a].calls[i] == c;
      assert ms'[a].calls[i] in ms'[a].calls;
      forall i | a < i < t
        ensures ms'[i].kind != CompressedMessage
      {
        assert SameSkeleton(ms[i], ms'[i]);
      }
      assert Carrier(ms', a, t);
    }
  }

  lemma SkeletonsKeepDense(ms: seq<Message>, ms': seq<Message>)
    requires SameSkeletons(ms, ms') && DenseRows(ms)
    ensures DenseRows(ms')
  {
    forall i | 0 <= i < |ms'|
      ensures ms'[i].ordinal == i + 1
    {
      assert SameSkeleton(ms[i], ms'[i]);
    }
  }

  lemma SkeletonsKeepStretch(ms: seq<Message>, ms': seq<Message>, before: Option<int>)
    requires SameSkeletons(ms, ms') && DenseRows(ms)
    ensures DenseRows(ms') && Start(ms', before) == Start(ms, before) && Below(ms', before) == Below(ms, before)
  {
    SkeletonsKeepDense(ms, ms');
    SkeletonsKeepBoundary(ms, ms', before);
  }

  lemma ReplacedStretch(codec: Codec, loaded: seq<Message>, limit: int, ms: seq<Message>, lo: nat, hi: nat)
    requires lo <= hi <= |ms|
    ensures |Replaced(codec, loaded, limit, ms)| == |ms|
    ensures Replaced(codec, loaded, limit, ms)[lo..hi] == Replaced(codec, loaded, limit, ms[lo..hi])
  {
  }

  /** What a pass leaves loaded is the replacement of what was loaded: the same messages, checked. */
  lemma LoadedAfterPass(codec: Codec, loaded: seq<Message>, limit: int, ms: seq<Message>, before: Option<int>)
    requires DenseRows(ms)
    ensures Loaded(Replaced(codec, loaded, limit, ms), before) == Replaced(codec, loaded, limit, Loaded(ms, before))
  {
    var ms' := Replaced(codec, loaded, limit, ms);
    ReplacedKeepsSkeletons(codec, loaded, limit, ms);
    SkeletonsKeepStretch(ms, ms', before);
    LoadIsASlice(ms, before);
    LoadIsASlice(ms', before);
    ReplacedStretch(codec, loaded, limit, ms, Start(ms, before), Below(ms, before));
  }

  /** A second pass over the same messages changes nothing, whatever its limit, although cut strings
      exceed the limit: every loaded tool payload is marked as checked. */
  lemma SecondPassChangesNothing(codec: Codec, table: seq<Message>, session: string, limit: int, before: Option<int>, limit2: int)
    requires DenseRows(Rows(table, session))
    requires TruncatedTable(codec, table, session, limit, before).Ok?
    ensures var table' := TruncatedTable(codec, table, session, limit, before).value;
            TruncatedTable(codec, table', session, limit2, before) == Ok(table')
  {
    var ms := Rows(table, session);
    var loaded := Loaded(ms, before);
    var table' := Replaced(codec, loaded, limit, table);
    RowsOfReplaced(codec, loaded, limit, table, session);
    LoadedAfterPass(codec, loaded, limit, ms, before);
    var loaded' := Replaced(codec, loaded, limit, loaded);
    assert Loaded(Rows(table', session), before) == loaded';
    forall m | m in loaded'
      ensures Prepared(codec, m, limit2) == Ok(None)
    {
      var i :| 0 <= i < |loaded| && m == Replacement(codec, loaded, limit, loaded[i]);
      assert loaded[i] in loaded;
      if Prepared(codec, loaded[i], limit).value.Some? {
        PreparedMeans(codec, loaded[i], limit);
      }
    }
    assert Replaced(codec, loaded', limit2, table') == table';
  }

  /** A pass changes only loaded messages that held an unchecked tool payload, and keeps every session
      dense and anchored. */
  lemma PassKeepsStream(codec: Codec, table: seq<Message>, session: string, limit: int, before: Option<int>, other: string)
    requires TruncatedTable(codec, table, session, limit, before).Ok?
    ensures var table' := TruncatedTable(codec, table, session, limit, before).value;
            && SameSkeletons(Rows(table, other), Rows(table', other))
            && (DenseRows(Rows(table, other)) ==> DenseRows(Rows(table', other)))
            && (Anchored(Rows(table, other)) ==> Anchored(Rows(table', other)))
            && (other != session ==> Rows(table', other) == Rows(table, other))
  {
    var loaded := Loaded(Rows(table, session), before);
    var ms, table' := Rows(table, other), Replaced(codec, loaded, limit, table);
    RowsOfReplaced(codec, loaded, limit, table, other);
    ReplacedKeepsSkeletons(codec, loaded, limit, ms);
    if DenseRows(ms) {
      SkeletonsKeepDense(ms, Rows(table', other));
    }
    if Anchored(ms) {
      SkeletonsKeepAnchors(ms, Rows(table', other));
    }
    if other != session {
      forall i | 0 <= i < |ms|
        ensures ms[i] !in loaded
      {
        RowsMembers(table, other, ms[i]);
        LoadedMembers(Rows(table, session), before, ms[i]);
        RowsMembers(table, session, ms[i]);
      }
    }
  }

  lemma {:induction false} LoadedMembers(ms: seq<Message>, before: Option<int>, m: Message)
    ensures m in Loaded(ms, before) ==> m in ms
  {
    LatestCompressedIsIn(ms, before);
    var c := LatestCompressed(ms, before);
    BetweenMembers(ms, if c.Some? then Some(c.value.ordinal) else None, before, m);
    WithoutCompressedMembers(Between(ms, if c.Some? then Some(c.value.ordinal) else None, before), m);
  }

  lemma {:induction false} LatestCompressedIsIn(ms: seq<Message>, before: Option<int>)
    ensures LatestCompressed(ms, before).Some? ==> LatestCompressed(ms, before).value in ms
  {
    if ms != [] {
      LatestCompressedIsIn(ms[..|ms| - 1], before);
    }
  }

  lemma {:induction false} BetweenMembers(ms: seq<Message>, after: Option<nat>, before: Option<int>, m: Message)
    ensures m in Between(ms, after, before) ==> m in ms
  {
    if ms != [] {
      BetweenMembers(ms[..|ms| - 1], after, before, m);
    }
  }

  lemma {:induction false} WithoutCompressedMembers(ms: seq<Message>, m: Message)
    ensures m in WithoutCompressed(ms) ==> m in ms
  {
    if ms != [] {
      WithoutCompressedMembers(ms[..|ms| - 1], m);
    }
  }

  // ---- The assembler ---------------------------------------------------------------------

  datatype Pass = Pass(triggered: bool, checked: seq<string>, truncated: seq<string>)

  function Ids(us: seq<Message>): seq<string> {
    seq(|us|, i requires 0 <= i < |us| => us[i].id)
  }

  function Cutting(us: seq<Message>): seq<Message> {
    if us == [] then []
    else
      var rest, last := Cutting(us[..|us| - 1]), us[|us| - 1];
      if last.meta.originalLengths != map[] then rest + [last] else rest
  }

  /** The report of a pass: which messages it checked, and which of them it cut something in. */
  function PassOf(us: seq<Message>): Pass {
    Pass(true, Ids(us), Ids(Cutting(us)))
  }

  /** The replacements of the loaded messages that get one, in order. */
  function Updates(codec: Codec, loaded: seq<Message>, limit: int): seq<Message> {
    if loaded == [] then []
    else
      var rest, last := Updates(codec, loaded[..|loaded| - 1], limit), Prepared(codec, loaded[|loaded| - 1], limit);
      if last.Ok? && last.value.Some? then rest + [last.value.value] else rest
  }

  predicate ReadAll(codec: Codec, loaded: seq<Message>, limit: int) {
    forall m <- loaded :: Prepared(codec, m, limit).Ok?
  }

  lemma ReadAllIff(codec: Codec, loaded: seq<Message>, limit: int)
    ensures ReadAll(codec, loaded, limit) <==> !SomePayloadFails(codec, loaded, limit)
  {
  }

  /** One more message is prepared, and is or is not replaced. */
  lemma UpdatesNext(codec: Codec, loaded: seq<Message>, i: nat, limit: int, u: Result<Option<Message>, string>)
    requires i < |loaded| && u == Prepared(codec, loaded[i], limit)
    ensures u.Err? ==> SomePayloadFails(codec, loaded, limit)
    ensures ReadAll(codec, loaded[..i], limit) && u.Ok? ==> ReadAll(codec, loaded[..i + 1], limit)
    ensures Updates(codec, loaded[..i + 1], limit) ==
            Updates(codec, loaded[..i], limit) + if u.Ok? && u.value.Some? then [u.value.value] else []
  {
    assert loaded[..i + 1][..i] == loaded[..i] && loaded[..i + 1] == loaded[..i] + [loaded[i]];
    assert loaded[i] in loaded;
  }

  function PatchedAll(table: seq<Message>, us: seq<Message>): seq<Message> {
    if us == [] then table else Patched(PatchedAll(table, us[..|us| - 1]), us[|us| - 1])
  }

  lemma LastUpdate(codec: Codec, table: seq<Message>, rest: seq<Message>, last: Message, limit: int, u: Message)
    requires UniqueIds(table) && last in table && Prepared(codec, last, limit) == Ok(Some(u))
    ensures Patched(Replaced(codec, rest, limit, table), u) == Replaced(codec, rest + [last], limit, table)
  {
    var before := Replaced(codec, rest, limit, table);
    ReplacedKeepsSkeletons(codec, rest, limit, table);
    PreparedMeans(codec, last, limit);
    var k :| 0 <= k < |table| && table[k] == last;
    forall i | 0 <= i < |table|
      ensures Patched(before, u)[i] == Replacement(codec, rest + [last], limit, table[i])
    {
      assert SameSkeleton(table[i], before[i]);
      assert i < k || k < i ==> table[i].id != last.id;
      if table[i] == last {
        assert WithReplay(before[i], u) == u;
      }
    }
  }

  /** Updating row by row, found by id, is the replacement of every loaded message at once. */
  lemma {:induction false} PatchedIsReplaced(codec: Codec, table: seq<Message>, loaded: seq<Message>, limit: int)
    requires UniqueIds(table) && forall m <- loaded :: m in table
    ensures PatchedAll(table, Updates(codec, loaded, limit)) == Replaced(codec, loaded, limit, table)
  {
    if loaded != [] {
      var rest, last := loaded[..|loaded| - 1], loaded[|loaded| - 1];
      assert loaded == rest + [last];
      PatchedIsReplaced(codec, table, rest, limit);
      var r, us := Prepared(codec, last, limit), Updates(codec, rest, limit);
      if r.Ok? && r.value.Some? {
        assert last in loaded && last in table;
        LastUpdate(codec, table, rest, last, limit, r.value.value);
        assert (us + [r.value.value])[..|us|] == us;
      } else {
        assert Replaced(codec, loaded, limit, table) == Replaced(codec, rest, limit, table);
      }
    }
  }

  class SessionContextAssembler {
    const store: SessionStore
    const codec: Codec

    constructor (store: SessionStore, codec: Codec)
      ensures this.store == store && this.codec == codec
    {
      this.store, this.codec := store, codec;
    }

    method Load(session: string, before: Option<int>) returns (sources: seq<Message>)
      ensures sources == Loaded(Rows(store.table, session), before)
    {
      var compressed := store.FindLatestCompressed(session, before);
      var later := store.ListSessionMessages(
        session, if compressed.Some? then Some(compressed.value.ordinal) else None, before);
      var ordinary: seq<Message> := [];
      var i := 0;
      while i < |later|
        invariant 0 <= i <= |later|
        invariant ordinary == WithoutCompressed(later[..i])
      {
        assert later[..i + 1][..i] == later[..i];
        if later[i].kind != CompressedMessage {
          ordinary := ordinary + [later[i]];
        }
        i := i + 1;
      }
      assert later[..i] == later;
      sources := if compressed.Some? then [compressed.value] + ordinary else ordinary;
    }

    /** Prepares every replacement before anything is written. */
    method PrepareUpdates(loaded: seq<Message>, limit: int) returns (r: Result<seq<Message>, string>)
      ensures r.Err? <==> SomePayloadFails(codec, loaded, limit)
      ensures r.Ok? ==> r.value == Updates(codec, loaded, limit)
    {
      var updates: seq<Message> := [];
      var i := 0;
      while i < |loaded|
        invariant 0 <= i <= |loaded| && ReadAll(codec, loaded[..i], limit)
        invariant updates == Updates(codec, loaded[..i], limit)
      {
        var u := Prepared(codec, loaded[i], limit);
        UpdatesNext(codec, loaded, i, limit, u);
        if u.Err? {
          return Err(u.error);
        }
        updates := if u.value.Some? then updates + [u.value.value] else updates;
        i := i + 1;
      }
      assert loaded[..i] == loaded;
      ReadAllIff(codec, loaded, limit);
      return Ok(updates);
    }

    method WriteUpdates(updates: seq<Message>)
      modifies store
      ensures store.table == PatchedAll(old(store.table), updates)
    {
      var i := 0;
      while i < |updates|
        invariant 0 <= i <= |updates|
        invariant store.table == PatchedAll(old(store.table), updates[..i])
      {
        assert updates[..i + 1][..i] == updates[..i];
        var found := store.UpdateReplayPayload(updates[i]);
        i := i + 1;
      }
      assert updates[..i] == updates;
    }

    /** One maintenance pass. `needed` is the budget estimate's verdict. Every replacement is prepared
        before the first row is written. */
    method TruncateToolContextIfNeeded(session: string, limit: int, before: Option<int>, needed: bool)
      returns (r: Result<Pass, string>)
      requires store.Valid()
      modifies store
      ensures store.Valid()
      ensures !needed ==> r == Ok(Pass(false, [], [])) && store.table == old(store.table)
      ensures needed ==>
                match TruncatedTable(codec, old(store.table), session, limit, before)
                case Err(_) => r.Err? && store.table == old(store.table)
                case Ok(table) =>
                  && store.table == table
                  && r == Ok(PassOf(Updates(codec, Loaded(Rows(old(store.table), session), before), limit)))
    {
      if !needed {
        return Ok(Pass(false, [], []));
      }
      var loaded := Load(session, before);
      var updates := PrepareUpdates(loaded, limit);
      if updates.Err? {
        return Err(updates.error);
      }
      PassIsPatched(codec, store.table, session, limit, before);
      WriteUpdates(updates.value);
      return Ok(PassOf(updates.value));
    }
  }

  lemma PassIsPatched(codec: Codec, table: seq<Message>, session: string, limit: int, before: Option<int>)
    requires Dense(table) && UniqueIds(table)
    requires TruncatedTable(codec, table, session, limit, before).Ok?
    ensures var table' := TruncatedTable(codec, table, session, limit, before).value;
            && PatchedAll(table, Updates(codec, Loaded(Rows(table, session), before), limit)) == table'
            && Dense(table') && UniqueIds(table')
  {
    var loaded := Loaded(Rows(table, session), before);
    var table' := Replaced(codec, loaded, limit, table);
    forall m | m in loaded
      ensures m in table
    {
      LoadedMembers(Rows(table, session), before, m);
      RowsMembers(table, session, m);
    }
    PatchedIsReplaced(codec, table, loaded, limit);
    ReplacedKeepsSkeletons(codec, loaded, limit, table);
    forall i, j | 0 <= i < j < |table|
      ensures table'[i].id != table'[j].id
    {
      assert SameSkeleton(table[i], table'[i]) && SameSkeleton(table[j], table'[j]);
    }
    forall other
      ensures DenseRows(Rows(table', other))
    {
      PassKeepsStream(codec, table, session, limit, before, other);
    }
  }
}

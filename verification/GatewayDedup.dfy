/** Inbound deduplication: one row per message key, with the reply cached beside it. */
module GatewayDedup {
  import opened Common
  import opened JsonValues
  import opened Text

  type Time = int

  const CACHED_KEY := "gateway_cached_outbound"
  const RAW_KEY := "raw_metadata"

  datatype Visibility = DefaultVisibility | Public | Ephemeral

  datatype Outbound = Outbound(
    text: string, attachments: seq<Json>, replyTo: Option<string>, threadMetadata: map<string, Json>, visibility: Visibility)

  datatype Inbound = Inbound(
    platform: string, chatId: string, userId: string, threadId: Option<string>, sourceMessageId: Option<string>,
    platformMessageId: Option<string>, messageType: string, text: string, rawMetadata: map<string, Json>)

  /** Text functions left open: lower-casing, the squeezed and folded text, the JSON text of a value, and
      the digest of a text. */
  datatype Env = Env(lower: string -> string, squash: string -> string, dump: Json -> string, digest: string -> string)

  // ---- The reply's metadata form ---------------------------------------------------------

  function VisibilityName(v: Visibility): string {
    match v
    case DefaultVisibility => "default"
    case Public => "public"
    case Ephemeral => "ephemeral"
  }

  function ParseVisibility(v: Option<Json>): Visibility {
    if v == Some(JString("public")) then Public
    else if v == Some(JString("ephemeral")) then Ephemeral
    else DefaultVisibility
  }

  function OutboundToMetadata(o: Outbound): map<string, Json> {
    map["text" := JString(o.text),
        "attachments" := JList(o.attachments),
        "reply_to" := if o.replyTo.Some? then JString(o.replyTo.value) else JNull,
        "thread_metadata" := JObject(o.threadMetadata),
        "visibility" := JString(VisibilityName(o.visibility)),
        "delivered" := JBool(false)]
  }

  function OutboundFromMetadata(fields: map<string, Json>): Option<Outbound> {
    var v := JObject(fields);
    match Field(v, "text")
    case Some(JString(text)) =>
      Some(Outbound(
             text,
             match Field(v, "attachments") { case Some(JList(items)) => items case _ => [] },
             match Field(v, "reply_to") { case Some(JString(id)) => Some(id) case _ => None },
             match Field(v, "thread_metadata") { case Some(JObject(thread)) => thread case _ => map[] },
             ParseVisibility(Field(v, "visibility"))))
    case _ => None
  }

  /** A cached reply reads back as it was, before and after it is marked as delivered. */
  lemma OutboundRoundTrip(o: Outbound)
    ensures OutboundFromMetadata(OutboundToMetadata(o)) == Some(o)
    ensures OutboundFromMetadata(OutboundToMetadata(o)["delivered" := JBool(true)]) == Some(o)
  {
  }

  // ---- Keys ------------------------------------------------------------------------------

  function Required(value: string): Result<string, string> {
    if Strip(value) == "" then Err("required") else Ok(Strip(value))
  }

  function Optional(value: Option<string>): Option<string> {
    if value.Some? && Strip(value.value) != "" then Some(Strip(value.value)) else None
  }

  function OptionalJson(value: Option<string>): Json {
    if Optional(value).Some? then JString(Optional(value).value) else JNull
  }

  /** The id of the message on its platform: the message's own, or else its source's. */
  function PlatformId(m: Inbound): Option<string> {
    Optional(if m.platformMessageId.Some? && m.platformMessageId.value != "" then m.platformMessageId else m.sourceMessageId)
  }

  datatype DedupKey = DedupKey(text: string, fallback: bool)

  function PlatformKeyText(env: Env, platform: string, chatId: string, id: string): string {
    "platform_message:" + env.dump(JObject(map["platform" := JString(env.lower(platform)), "chat_id" := JString(chatId),
                                               "message_id" := JString(id)]))
  }

  function FingerprintText(env: Env, m: Inbound, platform: string, chatId: string, userId: string): string {
    env.digest(env.dump(JObject(map[
      "platform" := JString(env.lower(platform)), "chat_id" := JString(chatId),
      "platform_thread_id" := OptionalJson(m.threadId), "user_id" := JString(userId),
      "message_type" := JString(env.lower(Strip(m.messageType))), "text" := JString(env.squash(m.text))])))
  }

  /** The key of a message; an error when a field its key needs is blank. */
  function KeyOf(env: Env, m: Inbound): Result<DedupKey, string> {
    match (Required(m.platform), Required(m.chatId))
    case (Ok(platform), Ok(chatId)) =>
      (match PlatformId(m)
       case Some(id) => Ok(DedupKey(PlatformKeyText(env, platform, chatId, id), false))
       case None =>
         match Required(m.userId)
         case Err(e) => Err(e)
         case Ok(userId) => Ok(DedupKey("fallback:" + FingerprintText(env, m, platform, chatId, userId), true)))
    case _ => Err("required")
  }

  /** Keys by platform id and keys by text never meet. */
  lemma KeysOfKindsDiffer(env: Env, m: Inbound, n: Inbound)
    requires KeyOf(env, m).Ok? && KeyOf(env, n).Ok?
    ensures KeyOf(env, m).value.text == KeyOf(env, n).value.text ==>
              KeyOf(env, m).value.fallback == KeyOf(env, n).value.fallback
  {
    var k, l := KeyOf(env, m).value, KeyOf(env, n).value;
    assert k.text[0] == if k.fallback then 'f' else 'p';
    assert l.text[0] == if l.fallback then 'f' else 'p';
  }

  lemma PlatformTextsAgreeIff(env: Env, p: string, c: string, i: string, p2: string, c2: string, i2: string)
    requires forall a, b :: env.dump(a) == env.dump(b) ==> a == b
    ensures PlatformKeyText(env, p, c, i) == PlatformKeyText(env, p2, c2, i2) <==>
            env.lower(p) == env.lower(p2) && c == c2 && i == i2
  {
    var a := JObject(map["platform" := JString(env.lower(p)), "chat_id" := JString(c), "message_id" := JString(i)]);
    var b := JObject(map["platform" := JString(env.lower(p2)), "chat_id" := JString(c2), "message_id" := JString(i2)]);
    var k, l := PlatformKeyText(env, p, c, i), PlatformKeyText(env, p2, c2, i2);
    if k == l {
      assert env.dump(a) == k[|"platform_message:"|..] == env.dump(b);
      assert a.fields["platform"] == b.fields["platform"];
      assert a.fields["chat_id"] == b.fields["chat_id"];
      assert a.fields["message_id"] == b.fields["message_id"];
    }
  }

  /** Two messages with platform ids share a key exactly when platform, chat and message id agree after
      trimming and, for the platform, lower-casing; provided the JSON text form is injective. */
  lemma PlatformKeysAgreeIff(env: Env, m: Inbound, n: Inbound)
    requires forall a, b :: env.dump(a) == env.dump(b) ==> a == b
    requires KeyOf(env, m).Ok? && KeyOf(env, n).Ok? && PlatformId(m).Some? && PlatformId(n).Some?
    ensures KeyOf(env, m) == KeyOf(env, n) <==>
            && env.lower(Strip(m.platform)) == env.lower(Strip(n.platform))
            && Strip(m.chatId) == Strip(n.chatId) && PlatformId(m) == PlatformId(n)
  {
    PlatformTextsAgreeIff(env, Strip(m.platform), Strip(m.chatId), PlatformId(m).value,
                          Strip(n.platform), Strip(n.chatId), PlatformId(n).value);
  }

  /** The id of a message on its platform is its own, if it has one that is not empty, and else its
      source's; trimmed, and none at all when nothing is left. */
  lemma PlatformIdMeans(m: Inbound)
    ensures m.platformMessageId.Some? && m.platformMessageId.value != "" ==>
              PlatformId(m) == if Strip(m.platformMessageId.value) == "" then None else Some(Strip(m.platformMessageId.value))
    ensures m.platformMessageId.None? || m.platformMessageId.value == "" ==>
              PlatformId(m) == if m.sourceMessageId.None? || Strip(m.sourceMessageId.value) == "" then None
                               else Some(Strip(m.sourceMessageId.value))
  {
  }

  ghost predicate TextsToldApart(env: Env) {
    (forall a, b :: env.dump(a) == env.dump(b) ==> a == b) && forall a, b :: env.digest(a) == env.digest(b) ==> a == b
  }

  /** Trimmed, and the same as missing when nothing is left. */
  predicate SameOptional(a: Option<string>, b: Option<string>) {
    var x := if a.Some? then Strip(a.value) else "";
    var y := if b.Some? then Strip(b.value) else "";
    x == y
  }

  /** Platform, chat, thread, user, kind and text agree, after trimming; platform and kind lower-cased,
      the text squeezed and folded. */
  predicate SameContent(env: Env, m: Inbound, n: Inbound) {
    && env.lower(Strip(m.platform)) == env.lower(Strip(n.platform)) && Strip(m.chatId) == Strip(n.chatId)
    && SameOptional(m.threadId, n.threadId) && Strip(m.userId) == Strip(n.userId)
    && env.lower(Strip(m.messageType)) == env.lower(Strip(n.messageType)) && env.squash(m.text) == env.squash(n.text)
  }

  function FingerprintFields(env: Env, m: Inbound): map<string, Json> {
    map["platform" := JString(env.lower(Strip(m.platform))), "chat_id" := JString(Strip(m.chatId)),
        "platform_thread_id" := OptionalJson(m.threadId), "user_id" := JString(Strip(m.userId)),
        "message_type" := JString(env.lower(Strip(m.messageType))), "text" := JString(env.squash(m.text))]
  }

  lemma FingerprintFieldsAgreeIff(env: Env, m: Inbound, n: Inbound)
    ensures FingerprintFields(env, m) == FingerprintFields(env, n) <==> SameContent(env, m, n)
  {
    var a, b := FingerprintFields(env, m), FingerprintFields(env, n);
    if a == b {
      assert a["platform"] == b["platform"] && a["chat_id"] == b["chat_id"] && a["platform_thread_id"] == b["platform_thread_id"];
      assert a["user_id"] == b["user_id"] && a["message_type"] == b["message_type"] && a["text"] == b["text"];
    }
  }

  lemma FingerprintsAgreeIff(env: Env, m: Inbound, n: Inbound)
    requires TextsToldApart(env)
    ensures (FingerprintText(env, m, Strip(m.platform), Strip(m.chatId), Strip(m.userId))
             == FingerprintText(env, n, Strip(n.platform), Strip(n.chatId), Strip(n.userId))) <==> SameContent(env, m, n)
  {
    FingerprintFieldsAgreeIff(env, m, n);
    assert FingerprintText(env, m, Strip(m.platform), Strip(m.chatId), Strip(m.userId)) == env.digest(env.dump(JObject(FingerprintFields(env, m))));
    assert FingerprintText(env, n, Strip(n.platform), Strip(n.chatId), Strip(n.userId)) == env.digest(env.dump(JObject(FingerprintFields(env, n))));
  }

  /** Two messages without platform ids share a key exactly when platform, chat, thread, user, kind and
      text agree; provided the JSON text form and the digest tell texts apart. */
  lemma FallbackKeysAgreeIff(env: Env, m: Inbound, n: Inbound)
    requires TextsToldApart(env)
    requires KeyOf(env, m).Ok? && KeyOf(env, n).Ok? && PlatformId(m).None? && PlatformId(n).None?
    ensures KeyOf(env, m) == KeyOf(env, n) <==> SameContent(env, m, n)
  {
    FingerprintsAgreeIff(env, m, n);
    var x := FingerprintText(env, m, Strip(m.platform), Strip(m.chatId), Strip(m.userId));
    var y := FingerprintText(env, n, Strip(n.platform), Strip(n.chatId), Strip(n.userId));
    assert ("fallback:" + x)[|"fallback:"|..] == x && ("fallback:" + y)[|"fallback:"|..] == y;
  }

  /** The same message, as far as deduplication can tell: both have one platform id in one chat, or neither
      has a platform id and their contents agree. */
  predicate SameMessage(env: Env, m: Inbound, n: Inbound) {
    && PlatformId(m) == PlatformId(n)
    && if PlatformId(m).Some? then env.lower(Strip(m.platform)) == env.lower(Strip(n.platform)) && Strip(m.chatId) == Strip(n.chatId)
       else SameContent(env, m, n)
  }

  lemma KeysAgreeIff(env: Env, m: Inbound, n: Inbound)
    requires TextsToldApart(env) && KeyOf(env, m).Ok? && KeyOf(env, n).Ok?
    ensures KeyOf(env, m).value.text == KeyOf(env, n).value.text <==> SameMessage(env, m, n)
  {
    KeysOfKindsDiffer(env, m, n);
    if PlatformId(m).Some? && PlatformId(n).Some? {
      PlatformKeysAgreeIff(env, m, n);
    } else if PlatformId(m).None? && PlatformId(n).None? {
      FallbackKeysAgreeIff(env, m, n);
    }
  }

  /** A message is refused a key exactly when its platform or its chat is blank, or it has no platform id
      and its user is blank. */
  lemma KeyedExactlyWhen(env: Env, m: Inbound)
    ensures KeyOf(env, m).Ok? <==> Strip(m.platform) != "" && Strip(m.chatId) != "" && (PlatformId(m).Some? || Strip(m.userId) != "")
    ensures KeyOf(env, m).Ok? ==> (KeyOf(env, m).value.fallback <==> PlatformId(m).None?)
  {
  }

  // ---- Rows ------------------------------------------------------------------------------

  datatype Row = Row(expiresAt: Option<Time>, metadata: map<string, Json>)

  type Rows = map<string, Row>

  predicate Expired(row: Row, now: Time) {
    row.expiresAt.Some? && row.expiresAt.value <= now
  }

  function Pruned(rows: Rows, now: Time): Rows {
    map k | k in rows && !Expired(rows[k], now) :: rows[k]
  }

  function NewRow(key: DedupKey, now: Time, ttl: Time, raw: map<string, Json>): Row {
    Row(if key.fallback then Some(now + ttl) else None, map[RAW_KEY := JObject(raw)])
  }

  /** Prunes, then inserts unless the key is there: the rows after, and whether it was a duplicate. */
  function Checked(rows: Rows, key: DedupKey, now: Time, ttl: Time, raw: map<string, Json>): (Rows, bool) {
    var kept := Pruned(rows, now);
    if key.text in kept then (kept, true) else (kept[key.text := NewRow(key, now, ttl, raw)], false)
  }

  function CachedFields(rows: Rows, key: string): Option<map<string, Json>> {
    if key !in rows then None
    else
      match Field(JObject(rows[key].metadata), CACHED_KEY)
      case Some(JObject(fields)) => Some(fields)
      case _ => None
  }

  function WithCached(rows: Rows, key: string, fields: map<string, Json>): Rows
    requires key in rows
  {
    rows[key := rows[key].(metadata := rows[key].metadata[CACHED_KEY := JObject(fields)])]
  }

  function OutboundCached(rows: Rows, key: string, o: Outbound): Rows {
    if key in rows then WithCached(rows, key, OutboundToMetadata(o)) else rows
  }

  function MarkedDelivered(rows: Rows, key: string): Rows {
    if CachedFields(rows, key).None? then rows
    else WithCached(rows, key, CachedFields(rows, key).value["delivered" := JBool(true)])
  }

  /** The cached reply that still needs delivery. */
  function Undelivered(rows: Rows, key: string): Option<Outbound> {
    match CachedFields(rows, key)
    case None => None
    case Some(fields) =>
      if Field(JObject(fields), "delivered") == Some(JBool(true)) then None else OutboundFromMetadata(fields)
  }

  /** Caching makes a reply retryable until it is marked, in the row of its key alone. */
  lemma CacheThenMark(rows: Rows, key: string, o: Outbound)
    requires key in rows
    ensures var cached := OutboundCached(rows, key, o);
            && Undelivered(cached, key) == Some(o)
            && Undelivered(MarkedDelivered(cached, key), key) == None
            && forall other :: other != key ==>
                 && Undelivered(cached, other) == Undelivered(rows, other)
                 && Undelivered(MarkedDelivered(cached, key), other) == Undelivered(rows, other)
  {
    OutboundRoundTrip(o);
  }

  // ---- Runs of the deduplicator ----------------------------------------------------------

  datatype Op =
    | Check(key: DedupKey, now: Time, raw: map<string, Json>)
    | Cache(keyText: string, outbound: Outbound)
    | Mark(keyText: string)

  function Applied(rows: Rows, ttl: Time, op: Op): Rows {
    match op
    case Check(key, now, raw) => Checked(rows, key, now, ttl, raw).0
    case Cache(key, o) => OutboundCached(rows, key, o)
    case Mark(key) => MarkedDelivered(rows, key)
  }

  function AppliedAll(rows: Rows, ttl: Time, ops: seq<Op>): Rows {
    if ops == [] then rows else Applied(AppliedAll(rows, ttl, ops[..|ops| - 1]), ttl, ops[|ops| - 1])
  }

  /** The check at position `i` accepts its message as new. */
  predicate AcceptedAt(rows: Rows, ttl: Time, ops: seq<Op>, i: nat)
    requires i < |ops|
  {
    ops[i].Check? && !Checked(AppliedAll(rows, ttl, ops[..i]), ops[i].key, ops[i].now, ttl, ops[i].raw).1
  }

  predicate ClockMonotone(ops: seq<Op>) {
    forall i, j :: 0 <= i < j < |ops| && ops[i].Check? && ops[j].Check? ==> ops[i].now <= ops[j].now
  }

  lemma AppliedNext(rows: Rows, ttl: Time, ops: seq<Op>, i: nat)
    requires i < |ops|
    ensures AppliedAll(rows, ttl, ops[..i + 1]) == Applied(AppliedAll(rows, ttl, ops[..i]), ttl, ops[i])
  {
    assert ops[..i + 1][..i] == ops[..i];
  }

  function ExpiryOf(op: Op, ttl: Time): Option<Time>
    requires op.Check?
  {
    if op.key.fallback then Some(op.now + ttl) else None
  }

  predicate RecordedWith(rows: Rows, k: string, expiresAt: Option<Time>) {
    k in rows && rows[k].expiresAt == expiresAt
  }

  predicate CheckedLate(ops: seq<Op>, i: nat, j: nat, expiresAt: Option<Time>) {
    expiresAt.Some? && exists k :: i < k < j && k < |ops| && ops[k].Check? && ops[k].now >= expiresAt.value
  }

  /** One operation keeps a row, or is a check that finds it expired. */
  lemma AppliedKeepsRow(rows: Rows, ttl: Time, op: Op, k: string, expiresAt: Option<Time>)
    requires RecordedWith(rows, k, expiresAt)
    ensures RecordedWith(Applied(rows, ttl, op), k, expiresAt) || (op.Check? && expiresAt.Some? && expiresAt.value <= op.now)
  {
  }

  lemma AcceptedIsRecorded(rows: Rows, ttl: Time, ops: seq<Op>, i: nat)
    requires i < |ops| && AcceptedAt(rows, ttl, ops, i)
    ensures RecordedWith(AppliedAll(rows, ttl, ops[..i + 1]), ops[i].key.text, ExpiryOf(ops[i], ttl))
  {
    AppliedNext(rows, ttl, ops, i);
  }

  lemma RecordedOneMore(rows: Rows, ttl: Time, ops: seq<Op>, i: nat, j: nat, k: string, expiresAt: Option<Time>)
    requires i < j < |ops| && RecordedWith(AppliedAll(rows, ttl, ops[..j]), k, expiresAt)
    ensures RecordedWith(AppliedAll(rows, ttl, ops[..j + 1]), k, expiresAt) || CheckedLate(ops, i, j + 1, expiresAt)
  {
    AppliedNext(rows, ttl, ops, j);
    AppliedKeepsRow(AppliedAll(rows, ttl, ops[..j]), ttl, ops[j], k, expiresAt);
  }

  lemma {:induction false} RecordedUntil(rows: Rows, ttl: Time, ops: seq<Op>, i: nat, j: nat, k: string, expiresAt: Option<Time>)
    requires i < j <= |ops| && RecordedWith(AppliedAll(rows, ttl, ops[..i + 1]), k, expiresAt)
    ensures RecordedWith(AppliedAll(rows, ttl, ops[..j]), k, expiresAt) || CheckedLate(ops, i, j, expiresAt)
    decreases j
  {
    if i < j - 1 {
      RecordedUntil(rows, ttl, ops, i, j - 1, k, expiresAt);
      if RecordedWith(AppliedAll(rows, ttl, ops[..j - 1]), k, expiresAt) {
        RecordedOneMore(rows, ttl, ops, i, j - 1, k, expiresAt);
      }
    }
  }

  /** An accepted key stays recorded until a check at or after its expiry, if it has one. */
  lemma RecordedUntilExpiry(rows: Rows, ttl: Time, ops: seq<Op>, i: nat, j: nat)
    requires i < j <= |ops| && AcceptedAt(rows, ttl, ops, i)
    ensures || RecordedWith(AppliedAll(rows, ttl, ops[..j]), ops[i].key.text, ExpiryOf(ops[i], ttl))
            || CheckedLate(ops, i, j, ExpiryOf(ops[i], ttl))
  {
    AcceptedIsRecorded(rows, ttl, ops, i);
    RecordedUntil(rows, ttl, ops, i, j, ops[i].key.text, ExpiryOf(ops[i], ttl));
  }

  /** However deliveries interleave, a key by platform id is accepted at most once. */
  lemma PlatformKeyAcceptedOnce(rows: Rows, ttl: Time, ops: seq<Op>, i: nat, j: nat)
    requires i < j < |ops| && AcceptedAt(rows, ttl, ops, i) && ops[j].Check?
    requires !ops[i].key.fallback && ops[j].key.text == ops[i].key.text
    ensures !AcceptedAt(rows, ttl, ops, j)
  {
    RecordedUntilExpiry(rows, ttl, ops, i, j);
  }

  /** Under a monotone clock, two accepted messages with one fingerprint are at least the lifetime apart. */
  lemma FallbacksAreSpaced(rows: Rows, ttl: Time, ops: seq<Op>, i: nat, j: nat)
    requires i < j < |ops| && ClockMonotone(ops)
    requires AcceptedAt(rows, ttl, ops, i) && AcceptedAt(rows, ttl, ops, j)
    requires ops[i].key.fallback && ops[j].key.text == ops[i].key.text
    ensures ops[j].now - ops[i].now >= ttl
  {
    RecordedUntilExpiry(rows, ttl, ops, i, j);
  }

  /** And a repeat is accepted as soon as the lifetime is over: with nothing in between, exactly then. */
  lemma NextFallbackAcceptedIff(rows: Rows, ttl: Time, key: DedupKey, first: Time, raw: map<string, Json>, now: Time, raw2: map<string, Json>)
    requires key.fallback && ttl >= 0 && first <= now && key.text !in Pruned(rows, first)
    ensures var s := Checked(rows, key, first, ttl, raw).0;
            !Checked(s, key, now, ttl, raw2).1 <==> now >= first + ttl
  {
  }

  // ---- What a retry finds ----------------------------------------------------------------

  /** An operation that replaces or marks the reply of a key, or drops its row. */
  predicate Disturbs(rows: Rows, op: Op, key: string) {
    match op
    case Check(_, now, _) => key !in Pruned(rows, now)
    case Cache(other, _) => other == key
    case Mark(other) => other == key
  }

  /** Operation `i` cached the reply beside its recorded key, and nothing since disturbed it. */
  predicate CachedLast(ttl: Time, ops: seq<Op>, i: nat, key: string, o: Outbound) {
    && i < |ops| && ops[i] == Cache(key, o) && key in AppliedAll(map[], ttl, ops[..i])
    && forall j :: i < j < |ops| ==> !Disturbs(AppliedAll(map[], ttl, ops[..j]), ops[j], key)
  }

  lemma FoundAfter(rows: Rows, ttl: Time, op: Op, key: string, o: Outbound)
    ensures Undelivered(Applied(rows, ttl, op), key) == Some(o) <==>
            || (op == Cache(key, o) && key in rows)
            || (!Disturbs(rows, op, key) && Undelivered(rows, key) == Some(o))
  {
    if op.Cache? && op.keyText in rows {
      CacheThenMark(rows, op.keyText, op.outbound);
    }
  }

  lemma CachedLastOn(ttl: Time, ops: seq<Op>, i: nat, key: string, o: Outbound)
    requires ops != []
    ensures CachedLast(ttl, ops, i, key, o) <==>
            var last, rest := |ops| - 1, ops[..|ops| - 1];
            if i == last then ops[last] == Cache(key, o) && key in AppliedAll(map[], ttl, rest)
            else CachedLast(ttl, rest, i, key, o) && !Disturbs(AppliedAll(map[], ttl, rest), ops[last], key)
  {
    var last, rest := |ops| - 1, ops[..|ops| - 1];
    forall j | 0 <= j <= last
      ensures rest[..j] == ops[..j]
    {
    }
  }

  /** Over any run of operations: a reply is found for a key exactly when it is the one cached last
      while the key was recorded, and since then it was not marked and its row not dropped. */
  lemma {:induction false} FoundIsLastCached(ttl: Time, ops: seq<Op>, key: string, o: Outbound)
    ensures Undelivered(AppliedAll(map[], ttl, ops), key) == Some(o) <==> exists i: nat :: CachedLast(ttl, ops, i, key, o)
  {
    if ops != [] {
      var last, rest := |ops| - 1, ops[..|ops| - 1];
      FoundIsLastCached(ttl, rest, key, o);
      FoundAfter(AppliedAll(map[], ttl, rest), ttl, ops[last], key, o);
      if i: nat :| CachedLast(ttl, ops, i, key, o) {
        CachedLastOn(ttl, ops, i, key, o);
      }
      if ops[last] == Cache(key, o) && key in AppliedAll(map[], ttl, rest) {
        CachedLastOn(ttl, ops, last, key, o);
      } else if i: nat :| CachedLast(ttl, rest, i, key, o) {
        CachedLastOn(ttl, ops, i, key, o);
      }
    }
  }

  // ---- The deduplicator ------------------------------------------------------------------

  class GatewayDeduplicator {
    const ttl: Time
    var rows: Rows

    constructor (ttl: Time)
      ensures this.ttl == ttl && rows == map[]
    {
      this.ttl, rows := ttl, map[];
    }

    method CheckAndRecord(key: DedupKey, now: Time, raw: map<string, Json>) returns (duplicate: bool)
      modifies this
      ensures (rows, duplicate) == Checked(old(rows), key, now, ttl, raw)
    {
      rows := Pruned(rows, now);
      if key.text in rows {
        return true;
      }
      rows := rows[key.text := NewRow(key, now, ttl, raw)];
      return false;
    }

    method CacheOutbound(key: string, o: Outbound)
      modifies this
      ensures rows == OutboundCached(old(rows), key, o)
    {
      if key !in rows {
        return;
      }
      var metadata := rows[key].metadata[CACHED_KEY := JObject(OutboundToMetadata(o))];
      rows := rows[key := rows[key].(metadata := metadata)];
    }

    method MarkOutboundDelivered(key: string)
      modifies this
      ensures rows == MarkedDelivered(old(rows), key)
    {
      var cached := CachedFields(rows, key);
      if cached.None? {
        return;
      }
      var fields := cached.value["delivered" := JBool(true)];
      rows := rows[key := rows[key].(metadata := rows[key].metadata[CACHED_KEY := JObject(fields)])];
    }

    /** Finds a reply exactly when the key is recorded and its row holds one that is not marked as
        delivered and reads back; what is found is that reply. */
    method CachedOutbound(key: string) returns (found: Option<Outbound>)
      ensures found == Undelivered(rows, key)
      ensures found.Some? <==> && key in rows && CACHED_KEY in rows[key].metadata && rows[key].metadata[CACHED_KEY].JObject?
                               && Field(rows[key].metadata[CACHED_KEY], "delivered") != Some(JBool(true))
                               && OutboundFromMetadata(rows[key].metadata[CACHED_KEY].fields) == found
                               && found != None
    {
      if key !in rows {
        return None;
      }
      var cached := Field(JObject(rows[key].metadata), CACHED_KEY);
      if cached.None? || !cached.value.JObject? {
        return None;
      }
      if Field(cached.value, "delivered") == Some(JBool(true)) {
        return None;
      }
      return OutboundFromMetadata(cached.value.fields);
    }
  }
}

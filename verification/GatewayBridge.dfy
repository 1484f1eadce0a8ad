/** Handling one inbound message from check to delivery, as the sequence of steps it performs. */
module GatewayBridge {
  import opened Common
  import opened JsonValues
  import opened GatewayDedup
  import opened GatewayDelivery

  const BUSY_MESSAGE := "This conversation already has an active Alpha turn. Please try again after it finishes."
  const ERROR_MESSAGE := "Alpha failed while processing that message. Please try again."

  /** The environment of one message: whether its session can be found, whether the session is busy, what
      the agent answers (None when it raises), and whether the adapter delivers. */
  datatype World = World(sessionFound: bool, busy: bool, reply: Option<string>, sendOk: bool)

  function ReplyTo(m: Inbound): Option<string> {
    if m.platformMessageId.Some? && m.platformMessageId.value != "" then m.platformMessageId else m.sourceMessageId
  }

  function OutboundFor(m: Inbound, text: string): Outbound {
    Outbound(text, [], ReplyTo(m), map[], DefaultVisibility)
  }

  /** What a new message is answered with: the busy text, the agent's answer, or the error text. */
  function AnswerTo(m: Inbound, world: World): Outbound {
    OutboundFor(m, if world.busy then BUSY_MESSAGE else if world.reply.Some? then world.reply.value else ERROR_MESSAGE)
  }

  /** What a new message gives its caller: the reply that was sent, or why none was. */
  function Replied(m: Inbound, world: World): Result<Option<Outbound>, string> {
    if !world.sessionFound then Err("no session")
    else if !world.sendOk then Err("delivery failed")
    else Ok(Some(AnswerTo(m, world)))
  }

  /** What a repeat gives: the cached reply, sent again, if it still needs delivery. */
  function Retried(rows: Rows, key: DedupKey, world: World): Result<Option<Outbound>, string> {
    match Undelivered(rows, key.text)
    case None => Ok(None)
    case Some(o) => if world.sendOk then Ok(Some(o)) else Err("delivery failed")
  }

  /** The result tells what was done: a reply is returned exactly when it was just sent with success;
      otherwise nothing was delivered, and at most one send was tried. */
  predicate Reported(r: Result<Option<Outbound>, string>, before: State, after: State, key: string) {
    match r
    case Ok(Some(o)) => after.attempts == before.attempts + [Attempt(key, o)] && after.delivered == before.delivered + [key]
    case Ok(None) => after.attempts == before.attempts && after.delivered == before.delivered
    case Err(_) =>
      && after.delivered == before.delivered
      && before.attempts <= after.attempts && |after.attempts| <= |before.attempts| + 1
      && forall i :: |before.attempts| <= i < |after.attempts| ==> after.attempts[i].key == key
  }

  lemma KeysAreWellKeyed(env: Env, m: Inbound)
    requires KeyOf(env, m).Ok?
    ensures WellKeyed(KeyOf(env, m).value)
  {
    var key := KeyOf(env, m).value;
    assert key.text[0] == if key.fallback then 'f' else 'p';
  }

  lemma {:induction false} OneAtATimeOn(ttl: Time, s: State, actions: seq<Action>, a: Action)
    requires OneAtATime(ttl, s, actions) && Run(ttl, s, actions).Some?
    requires a.Arrive? ==> Idle(Run(ttl, s, actions).value)
    ensures OneAtATime(ttl, s, actions + [a])
    decreases |actions|
  {
    if actions == [] {
      assert [] + [a] == [a];
    } else {
      assert (actions + [a])[0] == actions[0] && (actions + [a])[1..] == actions[1..] + [a];
      OneAtATimeOn(ttl, Next(ttl, s, actions[0]).value, actions[1..], a);
    }
  }

  /** What is promised of all deliveries so far: for a key by platform id the agent ran at most once, at
      most one send succeeded, and every attempt carried the same reply. */
  ghost predicate OncePerKey(s: State) {
    && (forall key :: IsPlatform(key) ==> Count(s.agentRuns, key) <= 1 && Count(s.delivered, key) <= 1)
    && forall i, j :: 0 <= i < |s.attempts| && 0 <= j < |s.attempts| && IsPlatform(s.attempts[i].key) && s.attempts[j].key == s.attempts[i].key ==>
         s.attempts[i].outbound == s.attempts[j].outbound
  }

  lemma RunsAreOncePerKey(ttl: Time, history: seq<Action>)
    requires Run(ttl, START, history).Some? && OneAtATime(ttl, START, history)
    ensures OncePerKey(Run(ttl, START, history).value)
  {
    var s := Run(ttl, START, history).value;
    forall key | IsPlatform(key)
      ensures Count(s.agentRuns, key) <= 1 && Count(s.delivered, key) <= 1
    {
      AgentRunsOnce(ttl, history, key);
      OneIsKeyAtATime(ttl, START, history, key);
      DeliveredOnce(ttl, history, key);
    }
    forall i, j | 0 <= i < |s.attempts| && 0 <= j < |s.attempts| && IsPlatform(s.attempts[i].key) && s.attempts[j].key == s.attempts[i].key
      ensures s.attempts[i].outbound == s.attempts[j].outbound
    {
      AgentRunsOnce(ttl, history, s.attempts[i].key);
    }
  }

  // ---- The messages behind the rows ------------------------------------------------------

  predicate KeyedAs(env: Env, m: Inbound, key: string) {
    KeyOf(env, m).Ok? && KeyOf(env, m).value.text == key
  }

  /** Every recorded key is the key of a message seen, and a key by platform id, once seen, is recorded
      for good. */
  ghost predicate RowsOf(env: Env, rows: Rows, seen: seq<Inbound>) {
    && (forall key :: key in rows ==> exists i :: 0 <= i < |seen| && KeyedAs(env, seen[i], key))
    && forall i, key :: 0 <= i < |seen| && KeyedAs(env, seen[i], key) && PlatformId(seen[i]).Some? ==> RecordedWith(rows, key, None)
  }

  /** The same keys, with the same lifetimes. */
  predicate SameLifetimes(a: Rows, b: Rows) {
    a.Keys == b.Keys && forall key :: key in a ==> a[key].expiresAt == b[key].expiresAt
  }

  /** None of the messages seen is the same message. */
  ghost predicate Unseen(env: Env, seen: seq<Inbound>, m: Inbound) {
    forall i :: 0 <= i < |seen| && KeyOf(env, seen[i]).Ok? ==> !SameMessage(env, m, seen[i])
  }

  /** A check keeps what is recorded for good, and adds at most its own key. */
  lemma CheckedRows(rows: Rows, key: DedupKey, now: Time, ttl: Time, raw: map<string, Json>)
    ensures var (after, duplicate) := Checked(rows, key, now, ttl, raw);
            && after.Keys <= rows.Keys + {key.text}
            && (forall k :: RecordedWith(rows, k, None) ==> RecordedWith(after, k, None))
            && (!key.fallback && (key.text in rows ==> RecordedWith(rows, key.text, None)) ==> RecordedWith(after, key.text, None))
            && (duplicate ==> key.text in rows) && (RecordedWith(rows, key.text, None) ==> duplicate)
  {
  }

  /** A recorded key is that of a message seen; that of a platform message seen is recorded for good. */
  lemma RecordedWhenSeen(env: Env, rows: Rows, seen: seq<Inbound>, m: Inbound)
    requires TextsToldApart(env) && RowsOf(env, rows, seen) && KeyOf(env, m).Ok?
    ensures KeyOf(env, m).value.text in rows ==> !Unseen(env, seen, m)
    ensures PlatformId(m).Some? && !Unseen(env, seen, m) ==> RecordedWith(rows, KeyOf(env, m).value.text, None)
  {
    var key := KeyOf(env, m).value.text;
    if key in rows {
      var i :| 0 <= i < |seen| && KeyedAs(env, seen[i], key);
      KeysAgreeIff(env, m, seen[i]);
    }
    if !Unseen(env, seen, m) {
      var i :| 0 <= i < |seen| && KeyOf(env, seen[i]).Ok? && SameMessage(env, m, seen[i]);
      KeysAgreeIff(env, m, seen[i]);
      assert KeyedAs(env, seen[i], key);
    }
  }

  /** A message that was not seen before is new; one with a platform id is new exactly then. */
  lemma NewWhenUnseen(env: Env, rows: Rows, seen: seq<Inbound>, m: Inbound, now: Time, ttl: Time)
    requires TextsToldApart(env) && RowsOf(env, rows, seen) && KeyOf(env, m).Ok?
    ensures Unseen(env, seen, m) ==> !Checked(rows, KeyOf(env, m).value, now, ttl, m.rawMetadata).1
    ensures PlatformId(m).Some? && !Checked(rows, KeyOf(env, m).value, now, ttl, m.rawMetadata).1 ==> Unseen(env, seen, m)
  {
    RecordedWhenSeen(env, rows, seen, m);
    CheckedRows(rows, KeyOf(env, m).value, now, ttl, m.rawMetadata);
  }

  lemma RecordedKind(env: Env, rows: Rows, seen: seq<Inbound>, m: Inbound)
    requires RowsOf(env, rows, seen) && KeyOf(env, m).Ok? && KeyOf(env, m).value.text in rows
    ensures PlatformId(m).Some? ==> RecordedWith(rows, KeyOf(env, m).value.text, None)
  {
    var i :| 0 <= i < |seen| && KeyedAs(env, seen[i], KeyOf(env, m).value.text);
    KeysOfKindsDiffer(env, m, seen[i]);
    KeyedExactlyWhen(env, m);
    KeyedExactlyWhen(env, seen[i]);
  }

  lemma RowsOfSame(env: Env, rows: Rows, after: Rows, seen: seq<Inbound>, m: Inbound)
    requires RowsOf(env, rows, seen)
    requires after.Keys <= rows.Keys + if KeyOf(env, m).Ok? then {KeyOf(env, m).value.text} else {}
    requires forall k :: RecordedWith(rows, k, None) ==> RecordedWith(after, k, None)
    requires KeyOf(env, m).Ok? && PlatformId(m).Some? ==> RecordedWith(after, KeyOf(env, m).value.text, None)
    ensures RowsOf(env, after, seen + [m])
  {
    var all := seen + [m];
    forall key | key in after
      ensures exists i :: 0 <= i < |all| && KeyedAs(env, all[i], key)
    {
      if key in rows {
        var i :| 0 <= i < |seen| && KeyedAs(env, seen[i], key);
        assert KeyedAs(env, all[i], key);
      } else {
        assert KeyedAs(env, all[|seen|], key);
      }
    }
    forall i, key | 0 <= i < |all| && KeyedAs(env, all[i], key) && PlatformId(all[i]).Some?
      ensures RecordedWith(after, key, None)
    {
      assert i < |seen| ==> KeyedAs(env, seen[i], key);
    }
  }

  lemma RowsOfOneMore(env: Env, rows: Rows, after: Rows, seen: seq<Inbound>, m: Inbound, now: Time, ttl: Time)
    requires RowsOf(env, rows, seen)
    requires KeyOf(env, m).Err? ==> after == rows
    requires KeyOf(env, m).Ok? ==> SameLifetimes(Checked(rows, KeyOf(env, m).value, now, ttl, m.rawMetadata).0, after)
    ensures RowsOf(env, after, seen + [m])
  {
    if KeyOf(env, m).Ok? {
      KeyedExactlyWhen(env, m);
      if KeyOf(env, m).value.text in rows {
        RecordedKind(env, rows, seen, m);
      }
      CheckedRows(rows, KeyOf(env, m).value, now, ttl, m.rawMetadata);
    }
    RowsOfSame(env, rows, after, seen, m);
  }

  /** What one message is answered with, in its own chat: the busy text, the agent's answer or the error
      text, as a reply to the message. */
  predicate Answers(m: Inbound, world: World, o: Outbound) {
    && (world.busy ==> o.text == "This conversation already has an active Alpha turn. Please try again after it finishes.")
    && (!world.busy && world.reply.Some? ==> Some(o.text) == world.reply)
    && (!world.busy && world.reply.None? ==> o.text == "Alpha failed while processing that message. Please try again.")
    && (m.platformMessageId.Some? && m.platformMessageId.value != "" ==> o.replyTo == m.platformMessageId)
    && (m.platformMessageId.None? || m.platformMessageId.value == "" ==> o.replyTo == m.sourceMessageId)
    && o.attachments == [] && o.threadMetadata == map[] && o.visibility == DefaultVisibility
  }

  class GatewayRuntimeBridge {
    const env: Env
    const deduplicator: GatewayDeduplicator
    /** Every step this bridge has performed, and the state of the delivery system they lead to. */
    ghost var history: seq<Action>
    ghost var done: State
    ghost var nextId: nat
    /** Every message handled so far. */
    ghost var seen: seq<Inbound>

    /** The steps form a run of the delivery system from its start, one delivery at a time. */
    ghost predicate OnCourse()
      reads this, deduplicator
    {
      && Run(deduplicator.ttl, START, history) == Some(done) && OneAtATime(deduplicator.ttl, START, history)
      && done.rows == deduplicator.rows
    }

    ghost predicate Valid()
      reads this, deduplicator
    {
      OnCourse() && Idle(done) && RowsOf(env, deduplicator.rows, seen) && forall id :: id in done.phases ==> id < nextId
    }

    constructor (env: Env, deduplicator: GatewayDeduplicator)
      requires deduplicator.rows == map[]
      ensures Valid() && history == [] && seen == [] && this.env == env && this.deduplicator == deduplicator
    {
      this.env, this.deduplicator, history, done, nextId, seen := env, deduplicator, [], START, 0, [];
    }

    /** Records one more step of the delivery in progress. */
    ghost method Did(a: Action)
      requires Run(deduplicator.ttl, START, history) == Some(done) && OneAtATime(deduplicator.ttl, START, history)
      requires Next(deduplicator.ttl, done, a).Some? && (a.Arrive? ==> Idle(done))
      modifies this`done, this`history
      ensures Run(deduplicator.ttl, START, history) == Some(done) && OneAtATime(deduplicator.ttl, START, history)
      ensures done == Next(deduplicator.ttl, old(done), a).value && history == old(history) + [a]
    {
      RunOn(deduplicator.ttl, START, history, a);
      OneAtATimeOn(deduplicator.ttl, START, history, a);
      history, done := history + [a], Next(deduplicator.ttl, done, a).value;
    }

    /** Sends, then marks what was sent. False is a delivery error, which leaves the reply cached. */
    method SendAndMark(key: DedupKey, o: Outbound, sendOk: bool, ghost id: nat) returns (ok: bool)
      requires OnCourse() && PhaseOf(done, id) == Ready(key, o)
      modifies this`done, this`history, deduplicator
      ensures OnCourse() && ok == sendOk
      ensures done.phases == old(done.phases)[id := Finished]
      ensures done.agentRuns == old(done.agentRuns) && done.attempts == old(done.attempts) + [Attempt(key.text, o)]
      ensures done.delivered == if ok then old(done.delivered) + [key.text] else old(done.delivered)
      ensures deduplicator.rows == if ok then MarkedDelivered(old(deduplicator.rows), key.text) else old(deduplicator.rows)
    {
      Did(Send(id, sendOk));
      ok := sendOk;
      if ok {
        Did(MarkSent(id));
        deduplicator.MarkOutboundDelivered(key.text);
      }
      assert done.phases == old(done.phases)[id := Finished];
    }

    /** A repeat: retries the cached reply if it still needs delivery, and otherwise is suppressed. */
    method HandleRepeat(key: DedupKey, world: World, ghost id: nat) returns (r: Result<Option<Outbound>, string>)
      requires OnCourse() && PhaseOf(done, id) == Repeat(key)
      modifies this`done, this`history, deduplicator
      ensures OnCourse()
      ensures done.phases == old(done.phases)[id := Finished]
      ensures done.agentRuns == old(done.agentRuns)
      ensures r == Retried(old(deduplicator.rows), key, world) && Reported(r, old(done), done, key.text)
      ensures SameLifetimes(old(deduplicator.rows), deduplicator.rows)
    {
      Did(LookUp(id));
      var cached := deduplicator.CachedOutbound(key.text);
      if cached.None? {
        return Ok(None);
      }
      var ok := SendAndMark(key, cached.value, world.sendOk, id);
      assert done.phases == old(done.phases)[id := Finished];
      return if ok then Ok(cached) else Err("delivery failed");
    }

    /** A new message: the busy answer, or one run of the agent; cached before it is sent. */
    method HandleNew(m: Inbound, key: DedupKey, world: World, ghost id: nat) returns (r: Result<Option<Outbound>, string>)
      requires OnCourse() && PhaseOf(done, id) == Fresh(key)
      modifies this`done, this`history, deduplicator
      ensures OnCourse()
      ensures done.phases == old(done.phases)[id := Finished]
      ensures done.agentRuns == if world.sessionFound && !world.busy then old(done.agentRuns) + [key.text] else old(done.agentRuns)
      ensures r == Replied(m, world) && Reported(r, old(done), done, key.text)
      ensures SameLifetimes(old(deduplicator.rows), deduplicator.rows)
    {
      if !world.sessionFound {
        Did(GiveUp(id));
        return Err("no session");
      }
      var outbound := MakeReply(m, key, world, id);
      var ok := SendAndMark(key, outbound, world.sendOk, id);
      assert done.phases == old(done.phases)[id := Finished];
      return if ok then Ok(Some(outbound)) else Err("delivery failed");
    }

    /** The busy answer, or one run of the agent, cached. */
    method MakeReply(m: Inbound, key: DedupKey, world: World, ghost id: nat) returns (outbound: Outbound)
      requires OnCourse() && PhaseOf(done, id) == Fresh(key)
      modifies this`done, this`history, deduplicator
      ensures OnCourse() && outbound == AnswerTo(m, world)
      ensures done.phases == old(done.phases)[id := Ready(key, outbound)]
      ensures done.agentRuns == if world.busy then old(done.agentRuns) else old(done.agentRuns) + [key.text]
      ensures done.attempts == old(done.attempts) && done.delivered == old(done.delivered)
      ensures SameLifetimes(old(deduplicator.rows), deduplicator.rows)
    {
      if world.busy {
        outbound := OutboundFor(m, BUSY_MESSAGE);
        Did(Refuse(id, outbound));
      } else {
        outbound := OutboundFor(m, if world.reply.Some? then world.reply.value else ERROR_MESSAGE);
        Did(RunAgent(id, outbound));
      }
      Did(Store(id));
      deduplicator.CacheOutbound(key.text, outbound);
      assert done.phases == old(done.phases)[id := Ready(key, outbound)];
    }

    /** One whole message, after any sequence of messages before it. The agent runs exactly when the
        message is new, its session is found and the session is not busy; over all messages handled, a
        platform key has at most one agent run, one successful send and one reply. A message that is the
        same as none before it is new and answered, and one with a platform id is new only then. */
    method HandleMessage(m: Inbound, now: Time, world: World) returns (r: Result<Option<Outbound>, string>)
      requires Valid()
      modifies this, deduplicator
      ensures Valid() && OncePerKey(done)
      ensures KeyOf(env, m).Err? ==> r.Err? && done == old(done)
      ensures KeyOf(env, m).Ok? ==>
                && done.agentRuns == RunsAfter(old(done.agentRuns), old(deduplicator.rows), KeyOf(env, m).value, m, now, world)
                && r == Outcome(old(deduplicator.rows), KeyOf(env, m).value, m, now, world)
                && Reported(r, old(done), done, KeyOf(env, m).value.text)
      ensures seen == old(seen) + [m]
      ensures TextsToldApart(env) && KeyOf(env, m).Ok? && Unseen(env, old(seen), m) ==>
                && done.agentRuns == (if world.sessionFound && !world.busy then old(done.agentRuns) + [KeyOf(env, m).value.text] else old(done.agentRuns))
                && (r.Ok? <==> world.sessionFound && world.sendOk)
                && (r.Ok? ==> r.value.Some? && Answers(m, world, r.value.value))
      ensures TextsToldApart(env) && PlatformId(m).Some? && done.agentRuns != old(done.agentRuns) ==> Unseen(env, old(seen), m)
    {
      if TextsToldApart(env) && KeyOf(env, m).Ok? {
        NewWhenUnseen(env, deduplicator.rows, seen, m, now, deduplicator.ttl);
      }
      seen := seen + [m];
      var keyed := KeyOf(env, m);
      if keyed.Err? {
        r := Err(keyed.error);
      } else {
        KeysAreWellKeyed(env, m);
        r := HandleKeyed(m, keyed.value, now, world);
      }
      RowsOfOneMore(env, old(deduplicator.rows), deduplicator.rows, old(seen), m, now, deduplicator.ttl);
      RunsAreOncePerKey(deduplicator.ttl, history);
    }

    /** The agent's runs after one more message. */
    ghost function RunsAfter(runs: seq<string>, rows: Rows, key: DedupKey, m: Inbound, now: Time, world: World): seq<string> {
      if !Checked(rows, key, now, deduplicator.ttl, m.rawMetadata).1 && world.sessionFound && !world.busy then runs + [key.text] else runs
    }

    /** What one more message gives its caller. */
    ghost function Outcome(rows: Rows, key: DedupKey, m: Inbound, now: Time, world: World): Result<Option<Outbound>, string> {
      var (kept, duplicate) := Checked(rows, key, now, deduplicator.ttl, m.rawMetadata);
      if duplicate then Retried(kept, key, world) else Replied(m, world)
    }

    method HandleKeyed(m: Inbound, key: DedupKey, now: Time, world: World) returns (r: Result<Option<Outbound>, string>)
      requires OnCourse() && Idle(done) && (forall id :: id in done.phases ==> id < nextId) && WellKeyed(key)
      modifies this`done, this`history, this`nextId, deduplicator
      ensures OnCourse() && Idle(done) && forall id :: id in done.phases ==> id < nextId
      ensures SameLifetimes(Checked(old(deduplicator.rows), key, now, deduplicator.ttl, m.rawMetadata).0, deduplicator.rows)
      ensures done.agentRuns == RunsAfter(old(done.agentRuns), old(deduplicator.rows), key, m, now, world)
      ensures r == Outcome(old(deduplicator.rows), key, m, now, world) && Reported(r, old(done), done, key.text)
    {
      ghost var id := nextId;
      nextId := nextId + 1;
      var duplicate := Begin(m, key, now, id);
      ghost var kept := deduplicator.rows;
      if duplicate {
        r := HandleRepeat(key, world, id);
      } else {
        r := HandleNew(m, key, world, id);
      }
      assert SameLifetimes(kept, deduplicator.rows);
    }

    /** The message arrives and its key is checked. */
    method Begin(m: Inbound, key: DedupKey, now: Time, ghost id: nat) returns (duplicate: bool)
      requires OnCourse() && Idle(done) && id !in done.phases && WellKeyed(key)
      modifies this`done, this`history, deduplicator
      ensures OnCourse() && (deduplicator.rows, duplicate) == Checked(old(deduplicator.rows), key, now, deduplicator.ttl, m.rawMetadata)
      ensures done.phases == old(done.phases)[id := if duplicate then Repeat(key) else Fresh(key)]
      ensures done.agentRuns == old(done.agentRuns) && done.attempts == old(done.attempts) && done.delivered == old(done.delivered)
    {
      Did(Arrive(id, key));
      Did(CheckKey(id, now, m.rawMetadata));
      duplicate := deduplicator.CheckAndRecord(key, now, m.rawMetadata);
      assert done.phases == old(done.phases)[id := if duplicate then Repeat(key) else Fresh(key)];
    }
  }
}

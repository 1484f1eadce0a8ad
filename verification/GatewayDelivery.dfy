/** Delivering replies: any number of deliveries in progress, each a sequence of atomic steps. */
module GatewayDelivery {
  import opened Common
  import opened JsonValues
  import opened GatewayDedup

  /** Where one delivery stands. `Ready` is about to send, whether it made the reply or found it cached. */
  datatype Phase =
    | Arrived(key: DedupKey)
    | Fresh(key: DedupKey)
    | Answered(key: DedupKey, outbound: Outbound)
    | Ready(key: DedupKey, outbound: Outbound)
    | Sent(key: DedupKey, outbound: Outbound)
    | Repeat(key: DedupKey)
    | Finished

  datatype Attempt = Attempt(key: string, outbound: Outbound)

  datatype State = State(
    rows: Rows, phases: map<nat, Phase>, agentRuns: seq<string>, attempts: seq<Attempt>, delivered: seq<string>)

  datatype Action =
    | Arrive(id: nat, key: DedupKey)
    | CheckKey(id: nat, now: Time, raw: map<string, Json>)
    | GiveUp(id: nat)
    | Refuse(id: nat, busy: Outbound)
    | RunAgent(id: nat, reply: Outbound)
    | Store(id: nat)
    | Send(id: nat, ok: bool)
    | MarkSent(id: nat)
    | LookUp(id: nat)

  const START := State(map[], map[], [], [], [])

  function PhaseOf(s: State, id: nat): Phase {
    if id in s.phases then s.phases[id] else Finished
  }

  function Moved(s: State, id: nat, p: Phase): State {
    s.(phases := s.phases[id := p])
  }

  /** Keys by text start with `f`, all others do not. */
  predicate WellKeyed(key: DedupKey) {
    key.text != "" && (key.fallback <==> key.text[0] == 'f')
  }

  /** One atomic step of one delivery; None when the delivery is not at that step. */
  function Next(ttl: Time, s: State, a: Action): Option<State> {
    match a
    case Arrive(id, key) =>
      if id in s.phases || !WellKeyed(key) then None else Some(Moved(s, id, Arrived(key)))
    case CheckKey(id, now, raw) =>
      (match PhaseOf(s, id)
       case Arrived(key) =>
         var (rows, duplicate) := Checked(s.rows, key, now, ttl, raw);
         Some(Moved(s.(rows := rows), id, if duplicate then Repeat(key) else Fresh(key)))
       case _ => None)
    case GiveUp(id) =>
      if PhaseOf(s, id).Fresh? then Some(Moved(s, id, Finished)) else None
    case Refuse(id, busy) =>
      (match PhaseOf(s, id)
       case Fresh(key) => Some(Moved(s, id, Answered(key, busy)))
       case _ => None)
    case RunAgent(id, reply) =>
      (match PhaseOf(s, id)
       case Fresh(key) => Some(Moved(s.(agentRuns := s.agentRuns + [key.text]), id, Answered(key, reply)))
       case _ => None)
    case Store(id) =>
      (match PhaseOf(s, id)
       case Answered(key, o) => Some(Moved(s.(rows := OutboundCached(s.rows, key.text, o)), id, Ready(key, o)))
       case _ => None)
    case Send(id, ok) =>
      (match PhaseOf(s, id)
       case Ready(key, o) =>
         var s1 := s.(attempts := s.attempts + [Attempt(key.text, o)]);
         Some(if ok then Moved(s1.(delivered := s1.delivered + [key.text]), id, Sent(key, o)) else Moved(s1, id, Finished))
       case _ => None)
    case MarkSent(id) =>
      (match PhaseOf(s, id)
       case Sent(key, _) => Some(Moved(s.(rows := MarkedDelivered(s.rows, key.text)), id, Finished))
       case _ => None)
    case LookUp(id) =>
      match PhaseOf(s, id)
      case Repeat(key) =>
        Some(Moved(s, id, match Undelivered(s.rows, key.text) case Some(o) => Ready(key, o) case None => Finished))
      case _ => None
  }

  function Run(ttl: Time, s: State, actions: seq<Action>): Option<State>
    decreases |actions|
  {
    if actions == [] then Some(s)
    else
      match Next(ttl, s, actions[0])
      case None => None
      case Some(s1) => Run(ttl, s1, actions[1..])
  }

  function Count(log: seq<string>, key: string): nat {
    if log == [] then 0 else Count(log[..|log| - 1], key) + if log[|log| - 1] == key then 1 else 0
  }

  lemma CountOfAppend(log: seq<string>, entry: string, key: string)
    ensures Count(log + [entry], key) == Count(log, key) + if entry == key then 1 else 0
  {
    assert (log + [entry])[..|log|] == log;
  }

  // ---- What every state keeps, for keys by platform id -----------------------------------

  predicate IsPlatform(key: string) {
    key != "" && key[0] != 'f'
  }

  predicate CachedAs(rows: Rows, key: string, o: Outbound) {
    CachedFields(rows, key).Some? && OutboundFromMetadata(CachedFields(rows, key).value) == Some(o)
  }

  /** Before its reply is cached, a delivery owns its key. */
  predicate Owns(p: Phase, key: string) {
    (p.Fresh? || p.Answered?) && p.key.text == key
  }

  ghost predicate OwnerAlone(s: State, key: string, id: nat) {
    && key in s.rows && CachedFields(s.rows, key).None?
    && (PhaseOf(s, id).Fresh? ==> Count(s.agentRuns, key) == 0)
    && (forall other :: other in s.phases && Owns(s.phases[other], key) ==> other == id)
  }

  predicate HasReply(p: Phase) {
    p.Ready? || p.Sent?
  }

  ghost predicate Inv(s: State) {
    && (forall key :: key in s.rows && IsPlatform(key) ==> s.rows[key].expiresAt.None?)
    && (forall key :: IsPlatform(key) && key !in s.rows ==> Count(s.agentRuns, key) == 0)
    && (forall key :: IsPlatform(key) ==> Count(s.agentRuns, key) <= 1)
    && (forall id :: id in s.phases && !s.phases[id].Finished? ==> WellKeyed(s.phases[id].key))
    && (forall id, key :: id in s.phases && IsPlatform(key) && Owns(s.phases[id], key) ==> OwnerAlone(s, key, id))
    && (forall id :: id in s.phases && HasReply(s.phases[id]) && IsPlatform(s.phases[id].key.text) ==>
          CachedAs(s.rows, s.phases[id].key.text, s.phases[id].outbound))
    && (forall i :: 0 <= i < |s.attempts| && IsPlatform(s.attempts[i].key) ==>
          CachedAs(s.rows, s.attempts[i].key, s.attempts[i].outbound))
  }

  // ---- Steps -----------------------------------------------------------------------------

  lemma CheckStep(ttl: Time, s: State, id: nat, now: Time, raw: map<string, Json>)
    requires Inv(s) && PhaseOf(s, id).Arrived?
    ensures Inv(Next(ttl, s, CheckKey(id, now, raw)).value)
  {
    var key := PhaseOf(s, id).key;
    var s' := Next(ttl, s, CheckKey(id, now, raw)).value;
    forall k | IsPlatform(k) && k in s.rows
      ensures k in s'.rows && s'.rows[k] == s.rows[k]
    {
      assert s.rows[k].expiresAt.None?;
    }
    forall other, k | other in s'.phases && IsPlatform(k) && Owns(s'.phases[other], k)
      ensures OwnerAlone(s', k, other)
    {
      if other != id {
        assert OwnerAlone(s, k, other);
      }
    }
  }

  lemma RunAgentStep(ttl: Time, s: State, id: nat, reply: Outbound)
    requires Inv(s) && PhaseOf(s, id).Fresh?
    ensures Inv(Next(ttl, s, RunAgent(id, reply)).value)
  {
    var key := PhaseOf(s, id).key.text;
    var s' := Next(ttl, s, RunAgent(id, reply)).value;
    forall k
      ensures Count(s'.agentRuns, k) == Count(s.agentRuns, k) + if key == k then 1 else 0
    {
      CountOfAppend(s.agentRuns, key, k);
    }
    assert IsPlatform(key) ==> OwnerAlone(s, key, id);
    forall other, k | other in s'.phases && IsPlatform(k) && Owns(s'.phases[other], k)
      ensures OwnerAlone(s', k, other)
    {
      assert OwnerAlone(s, k, other);
    }
  }

  lemma StoredRows(rows: Rows, key: string, o: Outbound)
    requires key in rows
    ensures var rows' := OutboundCached(rows, key, o);
            && rows'.Keys == rows.Keys && CachedAs(rows', key, o) && !MarkedSent(rows', key)
            && rows'[key].expiresAt == rows[key].expiresAt
            && forall k :: k in rows && k != key ==> rows'[k] == rows[k] && CachedFields(rows', k) == CachedFields(rows, k)
  {
    OutboundRoundTrip(o);
  }

  /** Before its reply is stored, a platform key has no cached reply, so none about to be sent or tried. */
  lemma NothingCachedYet(s: State, id: nat, key: string)
    requires Inv(s) && IsPlatform(key) && id in s.phases && Owns(s.phases[id], key)
    ensures key in s.rows && CachedFields(s.rows, key).None?
    ensures forall other :: other in s.phases && HasReply(s.phases[other]) ==> s.phases[other].key.text != key
    ensures forall i :: 0 <= i < |s.attempts| ==> s.attempts[i].key != key
    ensures forall other :: other in s.phases && Owns(s.phases[other], key) ==> other == id
  {
    assert OwnerAlone(s, key, id);
  }

  lemma StoreStep(ttl: Time, s: State, id: nat)
    requires Inv(s) && PhaseOf(s, id).Answered?
    ensures Inv(Next(ttl, s, Store(id)).value)
  {
    var p := PhaseOf(s, id);
    var key := p.key.text;
    if IsPlatform(key) {
      NothingCachedYet(s, id, key);
    }
    if key in s.rows {
      StoredRows(s.rows, key, p.outbound);
    }
    StoreKeepsInv(s, id, OutboundCached(s.rows, key, p.outbound));
  }

  lemma StoreKeepsInv(s: State, id: nat, rows: Rows)
    requires Inv(s) && PhaseOf(s, id).Answered?
    requires var p := PhaseOf(s, id);
             && rows.Keys == s.rows.Keys
             && (forall k :: k in s.rows ==> rows[k].expiresAt == s.rows[k].expiresAt)
             && (forall k :: k in s.rows && k != p.key.text ==> CachedFields(rows, k) == CachedFields(s.rows, k))
             && (IsPlatform(p.key.text) ==>
                   && CachedAs(rows, p.key.text, p.outbound)
                   && (forall other :: other in s.phases && HasReply(s.phases[other]) ==> s.phases[other].key.text != p.key.text)
                   && (forall i :: 0 <= i < |s.attempts| ==> s.attempts[i].key != p.key.text)
                   && (forall other :: other in s.phases && Owns(s.phases[other], p.key.text) ==> other == id))
    ensures Inv(Moved(s.(rows := rows), id, Ready(PhaseOf(s, id).key, PhaseOf(s, id).outbound)))
  {
    var p := PhaseOf(s, id);
    var s' := Moved(s.(rows := rows), id, Ready(p.key, p.outbound));
    forall other, k | other in s'.phases && IsPlatform(k) && Owns(s'.phases[other], k)
      ensures OwnerAlone(s', k, other)
    {
      assert OwnerAlone(s, k, other);
    }
  }

  lemma MarkKeepsReply(fields: map<string, Json>)
    ensures OutboundFromMetadata(fields["delivered" := JBool(true)]) == OutboundFromMetadata(fields)
  {
    var v, v' := JObject(fields), JObject(fields["delivered" := JBool(true)]);
    assert forall k: string :: k != "delivered" ==> Field(v', k) == Field(v, k);
  }

  lemma MarkStep(ttl: Time, s: State, id: nat)
    requires Inv(s) && PhaseOf(s, id).Sent?
    ensures Inv(Next(ttl, s, MarkSent(id)).value)
  {
    var key := PhaseOf(s, id).key.text;
    var s' := Next(ttl, s, MarkSent(id)).value;
    if CachedFields(s.rows, key).Some? {
      MarkKeepsReply(CachedFields(s.rows, key).value);
    }
    forall k, o | CachedAs(s.rows, k, o)
      ensures CachedAs(s'.rows, k, o)
    {
    }
    forall other, k | other in s'.phases && IsPlatform(k) && Owns(s'.phases[other], k)
      ensures OwnerAlone(s', k, other)
    {
      assert OwnerAlone(s, k, other);
    }
  }

  lemma SendStep(ttl: Time, s: State, id: nat, ok: bool)
    requires Inv(s) && PhaseOf(s, id).Ready?
    ensures Inv(Next(ttl, s, Send(id, ok)).value)
  {
    var s' := Next(ttl, s, Send(id, ok)).value;
    forall other, k | other in s'.phases && IsPlatform(k) && Owns(s'.phases[other], k)
      ensures OwnerAlone(s', k, other)
    {
      assert OwnerAlone(s, k, other);
    }
  }

  /** A step that only moves one delivery, to a phase that owns its key only if the old one did. */
  lemma MoveStep(s: State, id: nat, p: Phase)
    requires Inv(s)
    requires !p.Finished? ==> WellKeyed(p.key)
    requires !p.Fresh?
    requires p.Answered? ==> PhaseOf(s, id).Fresh? && p.key == PhaseOf(s, id).key
    requires HasReply(p) ==> CachedAs(s.rows, p.key.text, p.outbound)
    ensures Inv(Moved(s, id, p))
  {
    var s' := Moved(s, id, p);
    forall other, k | other in s'.phases && IsPlatform(k) && Owns(s'.phases[other], k)
      ensures OwnerAlone(s', k, other)
    {
      assert OwnerAlone(s, k, other);
    }
  }

  lemma UndeliveredIsCached(rows: Rows, key: string)
    ensures Undelivered(rows, key).Some? ==> CachedAs(rows, key, Undelivered(rows, key).value)
  {
  }

  lemma StepKeepsInv(ttl: Time, s: State, a: Action)
    requires Inv(s) && Next(ttl, s, a).Some?
    ensures Inv(Next(ttl, s, a).value)
  {
    var p := PhaseOf(s, a.id);
    match a
    case Arrive(id, key) => MoveStep(s, id, Arrived(key));
    case CheckKey(id, now, raw) => CheckStep(ttl, s, id, now, raw);
    case GiveUp(id) => MoveStep(s, id, Finished);
    case Refuse(id, busy) => MoveStep(s, id, Answered(p.key, busy));
    case RunAgent(id, reply) => RunAgentStep(ttl, s, id, reply);
    case Store(id) => StoreStep(ttl, s, id);
    case Send(id, ok) => SendStep(ttl, s, id, ok);
    case MarkSent(id) => MarkStep(ttl, s, id);
    case LookUp(id) =>
      UndeliveredIsCached(s.rows, p.key.text);
      match Undelivered(s.rows, p.key.text)
      case Some(o) => MoveStep(s, id, Ready(p.key, o));
      case None => MoveStep(s, id, Finished);
  }

  lemma {:induction false} RunKeepsInv(ttl: Time, s: State, actions: seq<Action>)
    requires Inv(s) && Run(ttl, s, actions).Some?
    ensures Inv(Run(ttl, s, actions).value)
    decreases |actions|
  {
    if actions != [] {
      StepKeepsInv(ttl, s, actions[0]);
      RunKeepsInv(ttl, Next(ttl, s, actions[0]).value, actions[1..]);
    }
  }

  /** Over any interleaving of deliveries, for a key by platform id the agent is run at most once and
      every attempt to send carries the same reply. */
  lemma AgentRunsOnce(ttl: Time, actions: seq<Action>, key: string)
    requires Run(ttl, START, actions).Some? && IsPlatform(key)
    ensures var s := Run(ttl, START, actions).value;
            && Count(s.agentRuns, key) <= 1
            && forall i, j :: 0 <= i < |s.attempts| && 0 <= j < |s.attempts| && s.attempts[i].key == key && s.attempts[j].key == key ==>
                 s.attempts[i].outbound == s.attempts[j].outbound
  {
    RunKeepsInv(ttl, START, actions);
  }

  // ---- One delivery of a key at a time ---------------------------------------------------

  /** The delivery has not finished and is about this key. */
  predicate About(p: Phase, key: string) {
    !p.Finished? && p.key.text == key
  }

  /** No delivery of this key is in progress. */
  predicate IdleFor(s: State, key: string) {
    forall id <- s.phases :: !About(s.phases[id], key)
  }

  /** A delivery of this key arrives only when no other of it is in progress; deliveries of other keys
      overlap freely. */
  predicate KeyAtATime(ttl: Time, s: State, actions: seq<Action>, key: string)
    decreases |actions|
  {
    actions != [] && Next(ttl, s, actions[0]).Some? ==>
      && (actions[0].Arrive? && actions[0].key.text == key ==> IdleFor(s, key))
      && KeyAtATime(ttl, Next(ttl, s, actions[0]).value, actions[1..], key)
  }

  predicate MarkedSent(rows: Rows, key: string) {
    CachedFields(rows, key).Some? && Field(JObject(CachedFields(rows, key).value), "delivered") == Some(JBool(true))
  }

  /** The key was sent at most once; a successful send is marked, or its delivery is about to mark it,
      before anything else can send. `p` is the delivery of the key in progress, if any. */
  predicate SentOnce(rows: Rows, delivered: seq<string>, p: Phase, key: string) {
    && Count(delivered, key) <= 1
    && (Count(delivered, key) == 1 ==> MarkedSent(rows, key) || (p.Sent? && About(p, key)))
    && (p.Ready? && About(p, key) ==> Count(delivered, key) == 0)
  }

  /** At most one delivery of the key is in progress. */
  ghost predicate Orderly(s: State, key: string, active: nat) {
    && Inv(s) && IsPlatform(key)
    && (forall id :: id in s.phases && id != active ==> !About(s.phases[id], key))
    && SentOnce(s.rows, s.delivered, PhaseOf(s, active), key)
  }

  lemma SendOrderly(ttl: Time, s: State, key: string, id: nat, ok: bool)
    requires Orderly(s, key, id) && PhaseOf(s, id).Ready? && PhaseOf(s, id).key.text == key
    ensures Orderly(Next(ttl, s, Send(id, ok)).value, key, id)
  {
    SendStep(ttl, s, id, ok);
    CountOfAppend(s.delivered, key, key);
  }

  lemma CheckKeepsMark(ttl: Time, s: State, key: string, id: nat, now: Time, raw: map<string, Json>)
    requires Inv(s) && IsPlatform(key) && PhaseOf(s, id).Arrived?
    ensures MarkedSent(s.rows, key) ==> MarkedSent(Next(ttl, s, CheckKey(id, now, raw)).value.rows, key)
  {
    if MarkedSent(s.rows, key) {
      assert s.rows[key].expiresAt.None?;
    }
  }

  lemma StoreOrderly(ttl: Time, s: State, key: string, id: nat)
    requires Orderly(s, key, id) && PhaseOf(s, id).Answered? && PhaseOf(s, id).key.text == key
    ensures Orderly(Next(ttl, s, Store(id)).value, key, id)
  {
    StoreStep(ttl, s, id);
    NothingCachedYet(s, id, key);
    assert Count(s.delivered, key) == 0;
    StoredRows(s.rows, key, PhaseOf(s, id).outbound);
  }

  lemma MarkOrderly(ttl: Time, s: State, key: string, id: nat)
    requires Orderly(s, key, id) && PhaseOf(s, id).Sent? && PhaseOf(s, id).key.text == key
    ensures Orderly(Next(ttl, s, MarkSent(id)).value, key, id)
  {
    MarkStep(ttl, s, id);
    assert MarkedSent(Next(ttl, s, MarkSent(id)).value.rows, key);
  }

  /** Steps of the key's delivery that send, store and mark nothing. */
  lemma QuietOrderly(ttl: Time, s: State, key: string, active: nat, a: Action)
    requires Orderly(s, key, active) && Next(ttl, s, a).Some? && !a.Send? && !a.Store? && !a.MarkSent?
    requires if a.Arrive? then a.key.text == key && IdleFor(s, key) else a.id == active && About(PhaseOf(s, a.id), key)
    ensures Orderly(Next(ttl, s, a).value, key, a.id)
  {
    StepKeepsInv(ttl, s, a);
    if a.CheckKey? {
      CheckKeepsMark(ttl, s, key, a.id, a.now, a.raw);
    }
    var s' := Next(ttl, s, a).value;
    assert s'.delivered == s.delivered && s'.phases == s.phases[a.id := PhaseOf(s', a.id)];
    if PhaseOf(s', a.id).Ready? {
      assert !MarkedSent(s.rows, key);
    }
  }

  /** The deliveries of the key, its reply and its sends are as they were. */
  predicate SameFor(s: State, s': State, key: string) {
    && (forall id <- s'.phases :: About(s'.phases[id], key) ==> id in s.phases && s.phases[id] == s'.phases[id])
    && (forall id <- s.phases :: About(s.phases[id], key) ==> id in s'.phases && s'.phases[id] == s.phases[id])
    && (MarkedSent(s.rows, key) ==> MarkedSent(s'.rows, key)) && Count(s'.delivered, key) == Count(s.delivered, key)
  }

  lemma SameIsOrderly(s: State, s': State, key: string, active: nat)
    requires Orderly(s, key, active) && Inv(s') && SameFor(s, s', key)
    ensures Orderly(s', key, active)
  {
  }

  /** A step of a delivery of another key. */
  lemma OtherIsSame(ttl: Time, s: State, key: string, a: Action)
    requires Inv(s) && IsPlatform(key) && Next(ttl, s, a).Some?
    requires if a.Arrive? then a.key.text != key else !About(PhaseOf(s, a.id), key)
    ensures SameFor(s, Next(ttl, s, a).value, key)
  {
    OtherKeepsRows(ttl, s, key, a);
    var s' := Next(ttl, s, a).value;
    assert s'.phases == s.phases[a.id := PhaseOf(s', a.id)] && !About(PhaseOf(s', a.id), key);
  }

  lemma OtherKeepsRows(ttl: Time, s: State, key: string, a: Action)
    requires Inv(s) && IsPlatform(key) && Next(ttl, s, a).Some?
    requires if a.Arrive? then a.key.text != key else !About(PhaseOf(s, a.id), key)
    ensures var s' := Next(ttl, s, a).value;
            (MarkedSent(s.rows, key) ==> MarkedSent(s'.rows, key)) && Count(s'.delivered, key) == Count(s.delivered, key)
  {
    if a.CheckKey? {
      CheckKeepsMark(ttl, s, key, a.id, a.now, a.raw);
    } else if a.Send? {
      CountOfAppend(s.delivered, PhaseOf(s, a.id).key.text, key);
    }
  }

  lemma StepOrderly(ttl: Time, s: State, key: string, active: nat, a: Action) returns (active': nat)
    requires Orderly(s, key, active) && Next(ttl, s, a).Some? && (a.Arrive? && a.key.text == key ==> IdleFor(s, key))
    ensures Orderly(Next(ttl, s, a).value, key, active')
  {
    if a.Arrive? && a.key.text == key {
      QuietOrderly(ttl, s, key, active, a);
      return a.id;
    }
    if a.Arrive? || !About(PhaseOf(s, a.id), key) {
      StepKeepsInv(ttl, s, a);
      OtherIsSame(ttl, s, key, a);
      SameIsOrderly(s, Next(ttl, s, a).value, key, active);
      return active;
    }
    assert a.id == active;
    if a.Send? {
      SendOrderly(ttl, s, key, a.id, a.ok);
    } else if a.Store? {
      StoreOrderly(ttl, s, key, a.id);
    } else if a.MarkSent? {
      MarkOrderly(ttl, s, key, a.id);
    } else {
      QuietOrderly(ttl, s, key, active, a);
    }
    return a.id;
  }

  lemma {:induction false} RunOrderly(ttl: Time, s: State, key: string, active: nat, actions: seq<Action>) returns (last: nat)
    requires Orderly(s, key, active) && KeyAtATime(ttl, s, actions, key) && Run(ttl, s, actions).Some?
    ensures Orderly(Run(ttl, s, actions).value, key, last)
    decreases |actions|
  {
    last := active;
    if actions != [] {
      last := StepOrderly(ttl, s, key, active, actions[0]);
      last := RunOrderly(ttl, Next(ttl, s, actions[0]).value, key, last, actions[1..]);
    }
  }

  /** With deliveries of one key, by platform id, one at a time, at most one send for it succeeds, however
      deliveries of other keys interleave with them. */
  lemma DeliveredOnce(ttl: Time, actions: seq<Action>, key: string)
    requires Run(ttl, START, actions).Some? && KeyAtATime(ttl, START, actions, key) && IsPlatform(key)
    ensures Count(Run(ttl, START, actions).value.delivered, key) <= 1
  {
    var last := RunOrderly(ttl, START, key, 0, actions);
  }

  predicate Idle(s: State) {
    forall id :: id in s.phases ==> s.phases[id].Finished?
  }

  /** Deliveries of any key arrive only when none is in progress. */
  predicate OneAtATime(ttl: Time, s: State, actions: seq<Action>)
    decreases |actions|
  {
    actions != [] && Next(ttl, s, actions[0]).Some? ==>
      && (actions[0].Arrive? ==> Idle(s))
      && OneAtATime(ttl, Next(ttl, s, actions[0]).value, actions[1..])
  }

  lemma {:induction false} OneIsKeyAtATime(ttl: Time, s: State, actions: seq<Action>, key: string)
    requires OneAtATime(ttl, s, actions)
    ensures KeyAtATime(ttl, s, actions, key)
    decreases |actions|
  {
    if actions != [] && Next(ttl, s, actions[0]).Some? {
      OneIsKeyAtATime(ttl, Next(ttl, s, actions[0]).value, actions[1..], key);
    }
  }

  lemma {:induction false} RunJoin(ttl: Time, s: State, first: seq<Action>, second: seq<Action>)
    requires Run(ttl, s, first).Some?
    ensures Run(ttl, s, first + second) == Run(ttl, Run(ttl, s, first).value, second)
    decreases |first|
  {
    if first == [] {
      assert first + second == second;
    } else {
      assert (first + second)[1..] == first[1..] + second;
      RunJoin(ttl, Next(ttl, s, first[0]).value, first[1..], second);
    }
  }

  lemma RunOne(ttl: Time, s: State, a: Action)
    ensures Run(ttl, s, [a]) == Next(ttl, s, a)
  {
    assert [a][1..] == [];
  }

  lemma RunOn(ttl: Time, s: State, actions: seq<Action>, a: Action)
    requires Run(ttl, s, actions).Some?
    ensures Run(ttl, s, actions + [a]) == Next(ttl, Run(ttl, s, actions).value, a)
  {
    RunJoin(ttl, s, actions, [a]);
    RunOne(ttl, Run(ttl, s, actions).value, a);
  }

  /** A first delivery of a new key, up to having an answer. */
  lemma FirstDeliveryAnswers(ttl: Time, key: DedupKey, reply: Outbound) returns (actions: seq<Action>)
    requires WellKeyed(key) && !key.fallback
    ensures Run(ttl, START, actions).Some?
    ensures var s := Run(ttl, START, actions).value;
            && s.delivered == [] && s.phases == map[0 := Answered(key, reply)]
            && key.text in s.rows && s.rows[key.text].expiresAt.None?
  {
    actions := [Arrive(0, key)];
    RunOne(ttl, START, Arrive(0, key));
    RunOn(ttl, START, actions, CheckKey(0, 0, map[]));
    actions := actions + [CheckKey(0, 0, map[])];
    RunOn(ttl, START, actions, RunAgent(0, reply));
    actions := actions + [RunAgent(0, reply)];
  }

  lemma AnswerIsSent(ttl: Time, s: State, id: nat, key: DedupKey, reply: Outbound) returns (actions: seq<Action>)
    requires s.phases == map[id := Answered(key, reply)] && key.text in s.rows && s.rows[key.text].expiresAt.None?
    ensures Run(ttl, s, actions).Some?
    ensures var s' := Run(ttl, s, actions).value;
            && s'.delivered == s.delivered + [key.text] && s'.phases.Keys == {id}
            && key.text in s'.rows && s'.rows[key.text].expiresAt.None? && Undelivered(s'.rows, key.text) == Some(reply)
  {
    CacheThenMark(s.rows, key.text, reply);
    actions := [Store(id)];
    RunOne(ttl, s, Store(id));
    RunOn(ttl, s, actions, Send(id, true));
    actions := actions + [Send(id, true)];
  }

  /** A repeat that arrives before the reply is marked sends it again. */
  lemma RepeatSendsAgain(ttl: Time, s: State, id: nat, key: DedupKey, reply: Outbound) returns (actions: seq<Action>)
    requires WellKeyed(key) && id !in s.phases
    requires key.text in s.rows && s.rows[key.text].expiresAt.None? && Undelivered(s.rows, key.text) == Some(reply)
    ensures Run(ttl, s, actions).Some? && Run(ttl, s, actions).value.delivered == s.delivered + [key.text]
  {
    actions := [Arrive(id, key)];
    RunOne(ttl, s, Arrive(id, key));
    RunOn(ttl, s, actions, CheckKey(id, 0, map[]));
    actions := actions + [CheckKey(id, 0, map[])];
    assert Run(ttl, s, actions).value.rows[key.text] == s.rows[key.text];
    RunOn(ttl, s, actions, LookUp(id));
    actions := actions + [LookUp(id)];
    RunOn(ttl, s, actions, Send(id, true));
    actions := actions + [Send(id, true)];
  }

  /** Two overlapping deliveries can both succeed: the second finds the reply cached after the first has
      sent it and before it is marked. */
  lemma OverlappingDeliveriesCanBothSend(ttl: Time, key: DedupKey, reply: Outbound)
    requires WellKeyed(key) && !key.fallback
    ensures exists actions :: Run(ttl, START, actions).Some? && Count(Run(ttl, START, actions).value.delivered, key.text) == 2
  {
    var first := FirstDeliveryAnswers(ttl, key, reply);
    var s1 := Run(ttl, START, first).value;
    var second := AnswerIsSent(ttl, s1, 0, key, reply);
    var s2 := Run(ttl, s1, second).value;
    var third := RepeatSendsAgain(ttl, s2, 1, key, reply);
    RunJoin(ttl, START, first, second);
    RunJoin(ttl, START, first + second, third);
    CountOfAppend([key.text], key.text, key.text);
    CountOfAppend([], key.text, key.text);
    assert [] + [key.text] == [key.text];
    assert Run(ttl, START, first + second + third).Some?;
  }
}

/** Routing source metadata to counterparts: stable ids, and one default counterpart that the first
    external identity claims for ever. */
module Counterparts {
  import opened Common

  type Id = string

  /** Source metadata and identities, text values only. */
  type Fields = map<string, string>

  const DEFAULT_ID := "counterpart:main-user"
  const DEFAULT_IDENTITY: Fields := map["platform" := "local", "user_id" := "main_user", "display_name" := "Main user"]

  datatype Event = FirstObserved(id: Id, identity: Fields) | Identified(id: Id, identity: Fields)

  /** The log and, when the router has one, the projection's identities by counterpart. */
  datatype State = State(log: seq<Event>, view: Option<map<Id, Fields>>)

  // ---- Identities ------------------------------------------------------------------------

  function Get(f: Fields, key: string): Option<string> {
    if key in f then Some(f[key]) else None
  }

  predicate Truthy(v: Option<string>) {
    v.Some? && v.value != ""
  }

  /** The first non-empty value, or else the last one as it is. */
  function Or(a: Option<string>, b: Option<string>): Option<string> {
    if Truthy(a) then a else b
  }

  function SourceIdentity(m: Fields): Option<Fields> {
    if m == map[] then None
    else
      var platform := Or(Get(m, "platform"), Or(Get(m, "source"), Some("local")));
      var user := Or(Get(m, "user_id"), Or(Get(m, "sender_id"), Or(Get(m, "account_id"), Get(m, "user"))));
      if user.None? then None
      else
        var identity: Fields := map["platform" := platform.value, "user_id" := user.value];
        var display := Or(Get(m, "display_name"), Or(Get(m, "username"), Get(m, "user_name")));
        Some(if display.Some? then identity["display_name" := display.value] else identity)
  }

  /** The text of a field; a missing one reads as the text None. */
  function TextOf(f: Fields, key: string): string {
    if key in f then f[key] else "None"
  }

  predicate SameSource(a: Fields, b: Fields) {
    TextOf(a, "platform") == TextOf(b, "platform") && TextOf(a, "user_id") == TextOf(b, "user_id")
  }

  lemma SourceIdentityIsWhole(m: Fields)
    ensures SourceIdentity(m).Some? ==> "platform" in SourceIdentity(m).value && "user_id" in SourceIdentity(m).value
  {
  }

  /** The first of the keys whose value is there and not empty. */
  predicate Wins(m: Fields, keys: seq<string>, i: int) {
    && 0 <= i < |keys| && keys[i] in m && m[keys[i]] != ""
    && forall j :: 0 <= j < i ==> keys[j] !in m || m[keys[j]] == ""
  }

  /** None of the keys has a value that is not empty; the last one may be there, empty. */
  predicate NoneWins(m: Fields, keys: seq<string>) {
    forall j :: 0 <= j < |keys| ==> keys[j] !in m || m[keys[j]] == ""
  }

  const PLATFORM_KEYS := ["platform", "source"]
  const USER_KEYS := ["user_id", "sender_id", "account_id", "user"]
  const DISPLAY_KEYS := ["display_name", "username", "user_name"]

  /** The winning key's value, or else the empty text if the last key has it, or else the text `none`. */
  ghost predicate IsPicked(m: Fields, keys: seq<string>, none: Option<string>, v: Option<string>)
    requires keys != []
  {
    && (forall i :: Wins(m, keys, i) ==> v == Some(m[keys[i]]))
    && (NoneWins(m, keys) ==> v == if none.Some? then none else if keys[|keys| - 1] in m then Some("") else None)
  }

  /** The source's chain of `or` over these keys, and over the text `none` if there is one. */
  function Chain(m: Fields, keys: seq<string>, none: Option<string>): Option<string>
    requires keys != []
  {
    var v := Get(m, keys[0]);
    if |keys| == 1 then if none.Some? then Or(v, none) else v
    else Or(v, Chain(m, keys[1..], none))
  }

  lemma {:induction false} ChainPicks(m: Fields, keys: seq<string>, none: Option<string>)
    requires keys != []
    ensures IsPicked(m, keys, none, Chain(m, keys, none))
    decreases |keys|
  {
    if |keys| > 1 {
      var rest := keys[1..];
      ChainPicks(m, rest, none);
      forall i | Wins(m, keys, i)
        ensures Chain(m, keys, none) == Some(m[keys[i]])
      {
        assert i > 0 ==> Wins(m, rest, i - 1);
      }
    }
  }

  /** Which metadata fields make an identity: the first filled one of platform and source, else `local`;
      the first filled one of the four user keys, without which there is no identity; and the first filled
      one of the three display keys, if any. */
  lemma SourceIdentityMeans(m: Fields)
    ensures SourceIdentity(m).None? <==> NoneWins(m, USER_KEYS) && "user" !in m
    ensures SourceIdentity(m).Some? ==>
              var identity := SourceIdentity(m).value;
              && identity.Keys <= {"platform", "user_id", "display_name"}
              && IsPicked(m, PLATFORM_KEYS, Some("local"), Get(identity, "platform"))
              && IsPicked(m, USER_KEYS, None, Get(identity, "user_id"))
              && IsPicked(m, DISPLAY_KEYS, None, Get(identity, "display_name"))
  {
    ChainPicks(m, PLATFORM_KEYS, Some("local"));
    ChainPicks(m, USER_KEYS, None);
    ChainPicks(m, DISPLAY_KEYS, None);
    assert PLATFORM_KEYS[1..] == ["source"];
    assert DISPLAY_KEYS[1..] == ["username", "user_name"] && ["username", "user_name"][1..] == ["user_name"];
    assert USER_KEYS[1..] == ["sender_id", "account_id", "user"] && ["sender_id", "account_id", "user"][1..] == ["account_id", "user"];
    assert ["account_id", "user"][1..] == ["user"];
    assert Chain(m, ["account_id", "user"], None) == Or(Get(m, "account_id"), Get(m, "user"));
    assert Chain(m, USER_KEYS, None) == Or(Get(m, "user_id"), Or(Get(m, "sender_id"), Or(Get(m, "account_id"), Get(m, "user"))));
    assert Chain(m, DISPLAY_KEYS, None) == Or(Get(m, "display_name"), Or(Get(m, "username"), Get(m, "user_name")));
    assert Chain(m, PLATFORM_KEYS, Some("local")) == Or(Get(m, "platform"), Or(Get(m, "source"), Some("local")));
  }

  // ---- What is known of a counterpart ----------------------------------------------------

  function Merged(known: Option<Fields>, more: Fields): Fields {
    if known.Some? then known.value + more else more
  }

  function LogIdentity(log: seq<Event>, id: Id): Option<Fields> {
    if log == [] then None
    else
      var rest, last := LogIdentity(log[..|log| - 1], id), log[|log| - 1];
      if last.id == id then Some(Merged(rest, last.identity)) else rest
  }

  function IdentityOf(s: State, id: Id): Option<Fields> {
    if s.view.Some? && id in s.view.value then Some(s.view.value[id]) else LogIdentity(s.log, id)
  }

  predicate Observed(s: State, id: Id) {
    || (s.view.Some? && id in s.view.value)
    || exists e <- s.log :: e.FirstObserved? && e.id == id
  }

  function Applied(view: map<Id, Fields>, e: Event): map<Id, Fields> {
    match e
    case FirstObserved(id, identity) => view[id := identity]
    case Identified(id, identity) => view[id := Merged(if id in view then Some(view[id]) else None, identity)]
  }

  function Emitted(s: State, e: Event): State {
    State(s.log + [e], if s.view.Some? then Some(Applied(s.view.value, e)) else None)
  }

  // ---- Routing ---------------------------------------------------------------------------

  /** The digest is left open. */
  function CounterpartId(digest: string -> string, platform: string, user: string): Id {
    "counterpart:" + digest(platform + ":" + user)
  }

  predicate Claimable(s: State) {
    match IdentityOf(s, DEFAULT_ID)
    case None => true
    case Some(known) => SameSource(known, DEFAULT_IDENTITY)
  }

  function Routed(digest: string -> string, s: State, m: Fields): Id {
    match SourceIdentity(m)
    case None => DEFAULT_ID
    case Some(identity) =>
      if IdentityOf(s, DEFAULT_ID).Some? && SameSource(IdentityOf(s, DEFAULT_ID).value, identity) then DEFAULT_ID
      else if Claimable(s) then DEFAULT_ID
      else CounterpartId(digest, TextOf(identity, "platform"), TextOf(identity, "user_id"))
  }

  function After(digest: string -> string, s: State, m: Fields): State {
    var source, id := SourceIdentity(m), Routed(digest, s, m);
    if !Observed(s, id) then Emitted(s, FirstObserved(id, if source.Some? then source.value else DEFAULT_IDENTITY))
    else if id != DEFAULT_ID || source.None? then s
    else if IdentityOf(s, DEFAULT_ID).Some? && SameSource(IdentityOf(s, DEFAULT_ID).value, source.value) then s
    else Emitted(s, Identified(DEFAULT_ID, source.value))
  }

  function AfterAll(digest: string -> string, s: State, calls: seq<Fields>): State
    decreases |calls|
  {
    if calls == [] then s else AfterAll(digest, After(digest, s, calls[0]), calls[1..])
  }

  /** Whatever is known of the default counterpart, it was observed. Every run of the router from an
      empty log keeps this. */
  predicate Sound(s: State) {
    IdentityOf(s, DEFAULT_ID).Some? ==> Observed(s, DEFAULT_ID)
  }

  /** Digests are hexadecimal, so no routed id is the default one. */
  ghost predicate NeverDefault(digest: string -> string) {
    forall text :: "counterpart:" + digest(text) != DEFAULT_ID
  }

  /** An external identity: any but the local placeholder. */
  predicate External(identity: Fields) {
    !SameSource(identity, DEFAULT_IDENTITY)
  }

  lemma EmittedIdentity(s: State, e: Event)
    requires "platform" in e.identity && "user_id" in e.identity
    ensures e.id != DEFAULT_ID ==> IdentityOf(Emitted(s, e), DEFAULT_ID) == IdentityOf(s, DEFAULT_ID)
    ensures e.id == DEFAULT_ID ==> IdentityOf(Emitted(s, e), DEFAULT_ID).Some?
    ensures e.id == DEFAULT_ID ==> SameSource(IdentityOf(Emitted(s, e), DEFAULT_ID).value, e.identity)
    ensures Observed(s, DEFAULT_ID) ==> Observed(Emitted(s, e), DEFAULT_ID)
    ensures e.id == DEFAULT_ID && e.FirstObserved? ==> Observed(Emitted(s, e), DEFAULT_ID)
  {
    var s' := Emitted(s, e);
    assert s'.log[..|s'.log| - 1] == s.log && s'.log[|s'.log| - 1] == e;
    assert forall x :: x in s'.log <==> x in s.log || x == e;
  }

  /** What a call with a source identity leaves known of the default counterpart. */
  lemma CallClaims(digest: string -> string, s: State, m: Fields)
    requires NeverDefault(digest) && Sound(s)
    ensures var s' := After(digest, s, m);
            && Sound(s')
            && (IdentityOf(s, DEFAULT_ID).Some? && External(IdentityOf(s, DEFAULT_ID).value) ==>
                  IdentityOf(s', DEFAULT_ID) == IdentityOf(s, DEFAULT_ID))
            && (SourceIdentity(m).Some? && Routed(digest, s, m) == DEFAULT_ID ==>
                  IdentityOf(s', DEFAULT_ID).Some? && SameSource(IdentityOf(s', DEFAULT_ID).value, SourceIdentity(m).value))
  {
    SourceIdentityIsWhole(m);
    var source, id := SourceIdentity(m), Routed(digest, s, m);
    if !Observed(s, id) {
      EmittedIdentity(s, FirstObserved(id, if source.Some? then source.value else DEFAULT_IDENTITY));
    } else if id == DEFAULT_ID && source.Some? {
      EmittedIdentity(s, Identified(DEFAULT_ID, source.value));
    }
  }

  /** A call records at most one event. Afterwards its counterpart is observed, and if it was not before,
      the call's identity is what is known of it, over whatever was; nothing changes for the others. */
  lemma CallRecords(digest: string -> string, s: State, m: Fields)
    ensures var s', id, said := After(digest, s, m), Routed(digest, s, m), SourceIdentity(m);
            && (s'.log == s.log || (|s'.log| == |s.log| + 1 && s'.log[..|s.log|] == s.log && s'.log[|s.log|].id == id))
            && Observed(s', id) && (s.view.Some? <==> s'.view.Some?)
            && (!Observed(s, id) ==> IdentityOf(s', id).Some? && Holds(IdentityOf(s', id).value, if said.Some? then said.value else DEFAULT_IDENTITY))
            && (forall other :: other != id ==> IdentityOf(s', other) == IdentityOf(s, other))
            && (Observed(s, id) && id != DEFAULT_ID ==> s' == s)
  {
    var id, source := Routed(digest, s, m), SourceIdentity(m);
    if !Observed(s, id) {
      EmittedRecords(s, FirstObserved(id, if source.Some? then source.value else DEFAULT_IDENTITY));
    } else if After(digest, s, m) != s {
      EmittedRecords(s, Identified(DEFAULT_ID, source.value));
    }
  }

  lemma EmittedRecords(s: State, e: Event)
    ensures var s' := Emitted(s, e);
            && |s'.log| == |s.log| + 1 && s'.log[..|s.log|] == s.log && s'.log[|s.log|].id == e.id
            && (Observed(s, e.id) || e.FirstObserved? ==> Observed(s', e.id)) && (s.view.Some? <==> s'.view.Some?)
            && IdentityOf(s', e.id).Some? && Holds(IdentityOf(s', e.id).value, e.identity)
            && forall other :: other != e.id ==> IdentityOf(s', other) == IdentityOf(s, other)
  {
    var s' := Emitted(s, e);
    assert s'.log[..|s'.log| - 1] == s.log && s'.log[|s'.log| - 1] == e;
    assert forall x :: x in s'.log <==> x in s.log || x == e;
    if Observed(s, e.id) && !(s.view.Some? && e.id in s.view.value) {
      var x :| x in s.log && x.FirstObserved? && x.id == e.id;
      assert x in s'.log;
    }
  }

  /** All of the fields, as they are. */
  predicate Holds(known: Fields, said: Fields) {
    forall k :: k in said ==> k in known && known[k] == said[k]
  }

  /** Once an external identity has claimed the default counterpart, no call re-identifies it. */
  lemma {:induction false} ClaimIsForEver(digest: string -> string, s: State, calls: seq<Fields>)
    requires NeverDefault(digest) && Sound(s)
    requires IdentityOf(s, DEFAULT_ID).Some? && External(IdentityOf(s, DEFAULT_ID).value)
    ensures Sound(AfterAll(digest, s, calls))
    ensures IdentityOf(AfterAll(digest, s, calls), DEFAULT_ID) == IdentityOf(s, DEFAULT_ID)
    decreases |calls|
  {
    if calls != [] {
      CallClaims(digest, s, calls[0]);
      ClaimIsForEver(digest, After(digest, s, calls[0]), calls[1..]);
    }
  }

  /** Any two calls with one external identity, however many calls lie between them, get the same
      counterpart. */
  lemma RoutingIsStable(digest: string -> string, s: State, m: Fields, between: seq<Fields>, m2: Fields)
    requires NeverDefault(digest) && Sound(s)
    requires SourceIdentity(m).Some? && External(SourceIdentity(m).value)
    requires SourceIdentity(m2).Some? && SameSource(SourceIdentity(m).value, SourceIdentity(m2).value)
    ensures Routed(digest, AfterAll(digest, After(digest, s, m), between), m2) == Routed(digest, s, m)
  {
    SourceIdentityIsWhole(m2);
    CallClaims(digest, s, m);
    var s1 := After(digest, s, m);
    if Routed(digest, s, m) == DEFAULT_ID {
      KnownIsWhole(s1, SourceIdentity(m).value);
    } else {
      NotClaimableIsExternal(s);
    }
    ClaimIsForEver(digest, s1, between);
  }

  lemma KnownIsWhole(s: State, identity: Fields)
    requires External(identity)
    requires IdentityOf(s, DEFAULT_ID).Some? && SameSource(IdentityOf(s, DEFAULT_ID).value, identity)
    ensures External(IdentityOf(s, DEFAULT_ID).value)
  {
  }

  lemma NotClaimableIsExternal(s: State)
    requires !Claimable(s)
    ensures IdentityOf(s, DEFAULT_ID).Some? && External(IdentityOf(s, DEFAULT_ID).value)
  {
  }

  /** Different identities can share a counterpart: the key joins platform and user with a colon, which
      either may contain. */
  lemma IdsCanCollide(digest: string -> string, a: string, b: string, c: string)
    ensures CounterpartId(digest, a + ":" + b, c) == CounterpartId(digest, a, b + ":" + c)
  {
    assert a + ":" + b + ":" + c == a + ":" + (b + ":" + c);
  }

  /** The local placeholder itself is not routed for ever alike: before the default counterpart is claimed
      it is the default, and afterwards it is not. */
  lemma PlaceholderIsNotStable(digest: string -> string, s: State, m: Fields, claim: Fields)
    requires NeverDefault(digest) && Sound(s) && Claimable(s)
    requires SourceIdentity(m).Some? && !External(SourceIdentity(m).value)
    requires SourceIdentity(claim).Some? && External(SourceIdentity(claim).value)
    ensures Routed(digest, s, m) == DEFAULT_ID
    ensures Routed(digest, After(digest, s, claim), m) != DEFAULT_ID
  {
    CallClaims(digest, s, claim);
  }

  /** Every later call with the identity of `m` is routed as this one is, whatever lies between. */
  ghost predicate IsStable(digest: string -> string, s: State, m: Fields)
    requires SourceIdentity(m).Some?
  {
    forall between, m2 :: SourceIdentity(m2).Some? && SameSource(SourceIdentity(m).value, SourceIdentity(m2).value) ==>
      Routed(digest, AfterAll(digest, After(digest, s, m), between), m2) == Routed(digest, s, m)
  }

  /** A call is routed alike for ever exactly when its identity is external or the default counterpart is
      claimed already: only the placeholder before the claim is not. */
  lemma RoutingIsStableIff(digest: string -> string, s: State, m: Fields)
    requires NeverDefault(digest) && Sound(s) && SourceIdentity(m).Some?
    ensures IsStable(digest, s, m) <==> External(SourceIdentity(m).value) || !Claimable(s)
  {
    if External(SourceIdentity(m).value) {
      forall between, m2 | SourceIdentity(m2).Some? && SameSource(SourceIdentity(m).value, SourceIdentity(m2).value)
        ensures Routed(digest, AfterAll(digest, After(digest, s, m), between), m2) == Routed(digest, s, m)
      {
        RoutingIsStable(digest, s, m, between, m2);
      }
    } else if !Claimable(s) {
      forall between, m2 | SourceIdentity(m2).Some? && SameSource(SourceIdentity(m).value, SourceIdentity(m2).value)
        ensures Routed(digest, AfterAll(digest, After(digest, s, m), between), m2) == Routed(digest, s, m)
      {
        ClaimedPlaceholder(digest, s, m, between, m2);
      }
    } else {
      ClaimMovesPlaceholder(digest, s, m);
    }
  }

  lemma ClaimedPlaceholder(digest: string -> string, s: State, m: Fields, between: seq<Fields>, m2: Fields)
    requires NeverDefault(digest) && Sound(s) && !Claimable(s)
    requires SourceIdentity(m).Some? && SourceIdentity(m2).Some? && SameSource(SourceIdentity(m).value, SourceIdentity(m2).value)
    ensures Routed(digest, AfterAll(digest, After(digest, s, m), between), m2) == Routed(digest, s, m)
  {
    SourceIdentityIsWhole(m);
    SourceIdentityIsWhole(m2);
    NotClaimableIsExternal(s);
    CallClaims(digest, s, m);
    ClaimIsForEver(digest, After(digest, s, m), between);
  }

  const CLAIM: Fields := map["platform" := "chat", "user_id" := "someone"]

  lemma ClaimIsExternal()
    ensures SourceIdentity(CLAIM) == Some(CLAIM) && External(CLAIM)
  {
  }

  lemma AfterOne(digest: string -> string, s: State, call: Fields)
    ensures AfterAll(digest, s, [call]) == After(digest, s, call)
  {
    assert [call][1..] == [];
  }

  lemma ClaimMovesPlaceholder(digest: string -> string, s: State, m: Fields)
    requires NeverDefault(digest) && Sound(s) && Claimable(s)
    requires SourceIdentity(m).Some? && !External(SourceIdentity(m).value)
    ensures !IsStable(digest, s, m)
  {
    var s1 := After(digest, s, m);
    PlaceholderLeavesClaimable(digest, s, m);
    ClaimIsExternal();
    PlaceholderIsNotStable(digest, s1, m, CLAIM);
    AfterOne(digest, s1, CLAIM);
    assert Routed(digest, AfterAll(digest, s1, [CLAIM]), m) != Routed(digest, s, m);
  }

  lemma PlaceholderLeavesClaimable(digest: string -> string, s: State, m: Fields)
    requires NeverDefault(digest) && Sound(s) && Claimable(s)
    requires SourceIdentity(m).Some? && !External(SourceIdentity(m).value)
    ensures Sound(After(digest, s, m)) && Claimable(After(digest, s, m)) && Routed(digest, s, m) == DEFAULT_ID
  {
    CallClaims(digest, s, m);
  }

  // ---- When two identities share a counterpart -------------------------------------------

  function JoinedKey(identity: Fields): string {
    TextOf(identity, "platform") + ":" + TextOf(identity, "user_id")
  }

  ghost predicate Injective(digest: string -> string) {
    forall a, b :: digest(a) == digest(b) ==> a == b
  }

  lemma FirstColon(a: string, b: string)
    requires ':' !in a
    ensures var x := a + ":" + b; x[|a|] == ':' && (forall i :: 0 <= i < |a| ==> x[i] != ':') && x[..|a|] == a && x[|a| + 1..] == b
  {
    var x := a + ":" + b;
    assert forall i :: 0 <= i < |a| ==> x[i] == a[i];
  }

  /** A text before the first colon and the text after it are read back from the two joined. */
  lemma JoinedTextsAgree(a: string, b: string, c: string, d: string)
    requires ':' !in a && ':' !in c
    ensures a + ":" + b == c + ":" + d <==> a == c && b == d
  {
    FirstColon(a, b);
    FirstColon(c, d);
    assert a + ":" + b == c + ":" + d ==> |a| == |c|;
  }

  /** The call names the identity the default counterpart is known by. */
  predicate IsDefaults(s: State, identity: Fields) {
    IdentityOf(s, DEFAULT_ID).Some? && SameSource(IdentityOf(s, DEFAULT_ID).value, identity)
  }

  /** Once the default is claimed, two calls get one counterpart exactly when both name the identity that
      claimed it, or neither does and the joined texts of platform and user agree; given that the digest
      tells texts apart. */
  lemma RoutedTogetherIff(digest: string -> string, s: State, m: Fields, m2: Fields)
    requires NeverDefault(digest) && Injective(digest) && !Claimable(s)
    requires SourceIdentity(m).Some? && SourceIdentity(m2).Some?
    ensures var i, j := SourceIdentity(m).value, SourceIdentity(m2).value;
            Routed(digest, s, m) == Routed(digest, s, m2) <==>
            (IsDefaults(s, i) && IsDefaults(s, j)) || (!IsDefaults(s, i) && !IsDefaults(s, j) && JoinedKey(i) == JoinedKey(j))
  {
    var i, j := SourceIdentity(m).value, SourceIdentity(m2).value;
    IdsAgreeIff(digest, JoinedKey(i), JoinedKey(j));
  }

  lemma IdsAgreeIff(digest: string -> string, a: string, b: string)
    requires Injective(digest)
    ensures "counterpart:" + digest(a) == "counterpart:" + digest(b) <==> a == b
  {
    var x, y := "counterpart:" + digest(a), "counterpart:" + digest(b);
    assert x == y ==> x[|"counterpart:"|..] == y[|"counterpart:"|..];
    assert x[|"counterpart:"|..] == digest(a) && y[|"counterpart:"|..] == digest(b);
  }

  /** When neither platform contains a colon, that is exactly when they are the same identity. */
  lemma SameCounterpartIff(digest: string -> string, s: State, m: Fields, m2: Fields)
    requires NeverDefault(digest) && Injective(digest) && !Claimable(s)
    requires SourceIdentity(m).Some? && SourceIdentity(m2).Some?
    requires ':' !in TextOf(SourceIdentity(m).value, "platform") && ':' !in TextOf(SourceIdentity(m2).value, "platform")
    ensures Routed(digest, s, m) == Routed(digest, s, m2) <==> SameSource(SourceIdentity(m).value, SourceIdentity(m2).value)
  {
    var i, j := SourceIdentity(m).value, SourceIdentity(m2).value;
    RoutedTogetherIff(digest, s, m, m2);
    JoinedTextsAgree(TextOf(i, "platform"), TextOf(i, "user_id"), TextOf(j, "platform"), TextOf(j, "user_id"));
  }

  // ---- The router ------------------------------------------------------------------------

  class CounterpartProjection {
    var identities: map<Id, Fields>

    constructor ()
      ensures identities == map[]
    {
      identities := map[];
    }

    method Apply(e: Event)
      modifies this
      ensures identities == Applied(old(identities), e)
    {
      match e
      case FirstObserved(id, identity) =>
        identities := identities[id := identity];
      case Identified(id, identity) =>
        if id !in identities {
          identities := identities[id := identity];
        }
        assert identities[id] + identity == Merged(if id in old(identities) then Some(old(identities)[id]) else None, identity);
        identities := identities[id := identities[id] + identity];
    }
  }

  class CounterpartRouter {
    const digest: string -> string
    const projection: CounterpartProjection?
    var log: seq<Event>

    ghost function Seen(): State
      reads this, projection
    {
      State(log, if projection == null then None else Some(projection.identities))
    }

    constructor (digest: string -> string, projection: CounterpartProjection?)
      ensures this.digest == digest && this.projection == projection && log == []
    {
      this.digest, this.projection, log := digest, projection, [];
    }

    method Emit(e: Event)
      modifies this, projection
      ensures Seen() == Emitted(old(Seen()), e)
    {
      log := log + [e];
      if projection != null {
        projection.Apply(e);
      }
    }

    method CounterpartIdentity(id: Id) returns (found: Option<Fields>)
      ensures found == IdentityOf(Seen(), id)
    {
      if projection != null && id in projection.identities {
        return Some(projection.identities[id]);
      }
      found := None;
      var i := 0;
      while i < |log|
        invariant 0 <= i <= |log|
        invariant found == LogIdentity(log[..i], id)
      {
        assert log[..i + 1][..i] == log[..i];
        if log[i].id == id {
          found := Some(Merged(found, log[i].identity));
        }
        i := i + 1;
      }
      assert log[..i] == log;
    }

    method AlreadyObserved(id: Id) returns (seen: bool)
      ensures seen == Observed(Seen(), id)
    {
      seen := (projection != null && id in projection.identities) || exists e <- log :: e.FirstObserved? && e.id == id;
    }

    method RoutedCounterpartId(m: Fields) returns (id: Id)
      ensures id == Routed(digest, Seen(), m)
    {
      var identity := SourceIdentity(m);
      if identity.None? {
        return DEFAULT_ID;
      }
      var known := CounterpartIdentity(DEFAULT_ID);
      if known.Some? && SameSource(known.value, identity.value) {
        return DEFAULT_ID;
      }
      if known.None? || SameSource(known.value, DEFAULT_IDENTITY) {
        return DEFAULT_ID;
      }
      return CounterpartId(digest, TextOf(identity.value, "platform"), TextOf(identity.value, "user_id"));
    }

    /** Routes one source, recording what it learns of the counterpart. */
    method UpsertFromSourceMetadata(m: Fields) returns (id: Id)
      modifies this, projection
      ensures id == Routed(digest, old(Seen()), m)
      ensures Seen() == After(digest, old(Seen()), m)
    {
      var identity := SourceIdentity(m);
      id := RoutedCounterpartId(m);
      var observed := AlreadyObserved(id);
      if !observed {
        Emit(FirstObserved(id, if identity.Some? then identity.value else DEFAULT_IDENTITY));
        return;
      }
      if id == DEFAULT_ID && identity.Some? {
        var known := CounterpartIdentity(DEFAULT_ID);
        if known.None? || !SameSource(known.value, identity.value) {
          Emit(Identified(DEFAULT_ID, identity.value));
        }
      }
    }
  }
}

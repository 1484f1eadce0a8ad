/** Truncation of replayed tool payloads: long strings at any depth are cut, nothing else changes. */
module Truncation {
  import opened Common
  import opened JsonValues
  import opened Messages

  const MARKER := "<system-reminder>truncated</system-reminder>"

  function CutText(text: string, limit: nat): string {
    if |text| <= limit then text else text[..limit] + MARKER
  }

  function Truncated(v: Json, limit: nat): Json {
    match v
    case JString(text) => JString(CutText(text, limit))
    case JList(items) => JList(seq(|items|, i requires 0 <= i < |items| => Truncated(items[i], limit)))
    case JObject(fields) => JObject(map k | k in fields :: Truncated(fields[k], limit))
    case _ => v
  }

  // ---- Places ----------------------------------------------------------------------------

  datatype Step = Index(index: nat) | Key(key: string)

  function Digits(n: nat): string {
    if n < 10 then [('0' as int + n) as char] else Digits(n / 10) + Digits(n % 10)
  }

  function StepName(step: Step): string {
    match step
    case Index(i) => "[" + Digits(i) + "]"
    case Key(k) => "." + k
  }

  /** The text that names a place under `root`. Different places can share a name. */
  function PlaceName(root: string, path: seq<Step>): string
    decreases |path|
  {
    if path == [] then root else PlaceName(root + StepName(path[0]), path[1..])
  }

  function StepInto(v: Json, step: Step): Option<Json> {
    match step
    case Index(i) => if v.JList? && i < |v.items| then Some(v.items[i]) else None
    case Key(k) => if v.JObject? && k in v.fields then Some(v.fields[k]) else None
  }

  function At(v: Json, path: seq<Step>): Option<Json>
    decreases |path|
  {
    if path == [] then Some(v)
    else
      match StepInto(v, path[0])
      case None => None
      case Some(sub) => At(sub, path[1..])
  }

  /** Same constructor, length and keys; a string short enough is the same, a longer one is its prefix
      of exactly the limit followed by the marker; any other leaf is the same. */
  predicate CutFrom(sub: Json, sub': Json, limit: nat) {
    match sub
    case JString(text) =>
      && sub'.JString?
      && (|text| <= limit ==> sub'.text == text)
      && (|text| > limit ==> |sub'.text| == limit + |MARKER| && sub'.text[..limit] == text[..limit] && sub'.text[limit..] == MARKER)
    case JList(items) => sub'.JList? && |sub'.items| == |items|
    case JObject(fields) => sub'.JObject? && sub'.fields.Keys == fields.Keys
    case _ => sub' == sub
  }

  /** Truncation keeps the shape: at every place, there is a value exactly when there was one, cut as
      above. */
  lemma {:induction false} TruncatedAt(v: Json, limit: nat, path: seq<Step>)
    ensures At(Truncated(v, limit), path).Some? <==> At(v, path).Some?
    ensures At(v, path).Some? ==> CutFrom(At(v, path).value, At(Truncated(v, limit), path).value, limit)
    decreases |path|
  {
    if path != [] {
      var sub := StepInto(v, path[0]);
      assert StepInto(Truncated(v, limit), path[0]) == if sub.Some? then Some(Truncated(sub.value, limit)) else None;
      if sub.Some? {
        TruncatedAt(sub.value, limit, path[1..]);
      }
    }
  }

  // ---- What was cut ----------------------------------------------------------------------

  /** A string cut by truncation: the name of its place and its length before. */
  datatype Cut = Cut(place: string, length: nat)

  /** Every string longer than the limit, in the order of the walk. */
  function Cuts(order: FieldOrder, v: Json, limit: nat, place: string): seq<Cut>
    decreases v
  {
    match v
    case JString(text) => if |text| <= limit then [] else [Cut(place, |text|)]
    case JList(items) =>
      Joined(seq(|items|, i requires 0 <= i < |items| => Cuts(order, items[i], limit, place + StepName(Index(i)))))
    case JObject(fields) =>
      var ks := order(fields);
      Joined(seq(|ks|, i requires 0 <= i < |ks| => Cuts(order, fields[ks[i]], limit, place + StepName(Key(ks[i])))))
    case _ => []
  }

  function Joined(parts: seq<seq<Cut>>): seq<Cut> {
    if parts == [] then [] else Joined(parts[..|parts| - 1]) + parts[|parts| - 1]
  }

  lemma {:induction false} InJoined(parts: seq<seq<Cut>>, c: Cut)
    ensures c in Joined(parts) <==> exists i :: 0 <= i < |parts| && c in parts[i]
  {
    if parts != [] {
      InJoined(parts[..|parts| - 1], c);
    }
  }

  lemma JoinedNext(parts: seq<seq<Cut>>, i: nat)
    requires i < |parts|
    ensures Joined(parts[..i + 1]) == Joined(parts[..i]) + parts[i]
  {
    assert parts[..i + 1][..i] == parts[..i];
  }

  function ItemParts(order: FieldOrder, items: seq<Json>, limit: nat, place: string): seq<seq<Cut>> {
    seq(|items|, i requires 0 <= i < |items| => Cuts(order, items[i], limit, place + StepName(Index(i))))
  }

  function FieldParts(order: FieldOrder, fields: map<string, Json>, limit: nat, place: string): seq<seq<Cut>> {
    var ks := order(fields);
    seq(|ks|, i requires 0 <= i < |ks| => Cuts(order, fields[ks[i]], limit, place + StepName(Key(ks[i]))))
  }

  lemma CutsOfItems(order: FieldOrder, items: seq<Json>, limit: nat, place: string, c: Cut)
    ensures Cuts(order, JList(items), limit, place) == Joined(ItemParts(order, items, limit, place))
    ensures c in Cuts(order, JList(items), limit, place) <==>
            exists i :: 0 <= i < |items| && c in Cuts(order, items[i], limit, place + StepName(Index(i)))
  {
    var parts := ItemParts(order, items, limit, place);
    assert Cuts(order, JList(items), limit, place) == Joined(parts);
    InJoined(parts, c);
    forall i | 0 <= i < |items|
      ensures parts[i] == Cuts(order, items[i], limit, place + StepName(Index(i)))
    {
    }
  }

  lemma CutsOfFields(order: FieldOrder, fields: map<string, Json>, limit: nat, place: string, c: Cut)
    ensures Cuts(order, JObject(fields), limit, place) == Joined(FieldParts(order, fields, limit, place))
    ensures c in Cuts(order, JObject(fields), limit, place) <==>
            exists k :: k in fields && c in Cuts(order, fields[k], limit, place + StepName(Key(k)))
  {
    var ks, parts := order(fields), FieldParts(order, fields, limit, place);
    assert Cuts(order, JObject(fields), limit, place) == Joined(parts);
    InJoined(parts, c);
    if i :| 0 <= i < |parts| && c in parts[i] {
      assert ks[i] in fields && c in Cuts(order, fields[ks[i]], limit, place + StepName(Key(ks[i])));
    }
    if k :| k in fields && c in Cuts(order, fields[k], limit, place + StepName(Key(k))) {
      var i :| 0 <= i < |ks| && ks[i] == k;
      assert c in parts[i];
    }
  }

  predicate LongAt(v: Json, limit: nat, path: seq<Step>) {
    match At(v, path)
    case Some(JString(text)) => |text| > limit
    case _ => false
  }

  function CutAt(v: Json, place: string, path: seq<Step>): Cut
    requires At(v, path).Some? && At(v, path).value.JString?
  {
    Cut(PlaceName(place, path), |At(v, path).value.text|)
  }

  /** A longer path from a value starts with one step into it. */
  lemma LongUnder(v: Json, limit: nat, place: string, step: Step, rest: seq<Step>)
    requires StepInto(v, step).Some? && LongAt(StepInto(v, step).value, limit, rest)
    ensures LongAt(v, limit, [step] + rest)
    ensures CutAt(v, place, [step] + rest) == CutAt(StepInto(v, step).value, place + StepName(step), rest)
  {
    assert ([step] + rest)[1..] == rest;
  }

  /** A string is met with its place and its length exactly when it was longer than the limit. */
  lemma {:induction false} CutsExact(order: FieldOrder, v: Json, limit: nat, place: string, c: Cut)
    ensures c in Cuts(order, v, limit, place) <==> exists path :: LongAt(v, limit, path) && c == CutAt(v, place, path)
  {
    CutsHavePlaces(order, v, limit, place, c);
    forall path | LongAt(v, limit, path) && c == CutAt(v, place, path)
      ensures c in Cuts(order, v, limit, place)
    {
      PlacesAreCut(order, v, limit, place, path);
    }
  }

  lemma {:induction false} PlacesAreCut(order: FieldOrder, v: Json, limit: nat, place: string, path: seq<Step>)
    requires LongAt(v, limit, path)
    ensures CutAt(v, place, path) in Cuts(order, v, limit, place)
    decreases |path|
  {
    if path != [] {
      var step, sub := path[0], StepInto(v, path[0]).value;
      PlacesAreCut(order, sub, limit, place + StepName(step), path[1..]);
      var c := CutAt(sub, place + StepName(step), path[1..]);
      match step
      case Index(i) => CutsOfItems(order, v.items, limit, place, c);
      case Key(k) => CutsOfFields(order, v.fields, limit, place, c);
    }
  }

  lemma {:induction false} CutsHavePlaces(order: FieldOrder, v: Json, limit: nat, place: string, c: Cut)
    ensures c in Cuts(order, v, limit, place) ==> exists path :: LongAt(v, limit, path) && c == CutAt(v, place, path)
    decreases v
  {
    if c in Cuts(order, v, limit, place) {
      match v
      case JString(text) =>
        assert LongAt(v, limit, []) && c == CutAt(v, place, []);
      case JList(items) =>
        CutsOfItems(order, items, limit, place, c);
        var i :| 0 <= i < |items| && c in Cuts(order, items[i], limit, place + StepName(Index(i)));
        CutsHavePlaces(order, items[i], limit, place + StepName(Index(i)), c);
        var rest :| LongAt(items[i], limit, rest) && c == CutAt(items[i], place + StepName(Index(i)), rest);
        LongUnder(v, limit, place, Index(i), rest);
      case JObject(fields) =>
        CutsOfFields(order, fields, limit, place, c);
        var k :| k in fields && c in Cuts(order, fields[k], limit, place + StepName(Key(k)));
        CutsHavePlaces(order, fields[k], limit, place + StepName(Key(k)), c);
        var rest :| LongAt(fields[k], limit, rest) && c == CutAt(fields[k], place + StepName(Key(k)), rest);
        LongUnder(v, limit, place, Key(k), rest);
      case _ =>
    }
  }

  // ---- The record of what was cut --------------------------------------------------------

  /** The record keeps one length under a name: the later of two overwrites the earlier. */
  type Record = map<string, nat>

  function Noted(found: Record, cuts: seq<Cut>): Record {
    if cuts == [] then found
    else
      var last := cuts[|cuts| - 1];
      Noted(found, cuts[..|cuts| - 1])[last.place := last.length]
  }

  lemma {:induction false} NotedThen(found: Record, first: seq<Cut>, second: seq<Cut>)
    ensures Noted(Noted(found, first), second) == Noted(found, first + second)
    decreases |second|
  {
    if second == [] {
      assert first + second == first;
    } else {
      NotedThen(found, first, second[..|second| - 1]);
      assert (first + second)[..|first + second| - 1] == first + second[..|second| - 1];
    }
  }

  lemma {:induction false} NotedMeans(found: Record, cuts: seq<Cut>, name: string)
    ensures name in Noted(found, cuts) <==> name in found || exists c <- cuts :: c.place == name
    ensures (exists c <- cuts :: c.place == name) ==> Cut(name, Noted(found, cuts)[name]) in cuts
    ensures !(exists c <- cuts :: c.place == name) && name in found ==> Noted(found, cuts)[name] == found[name]
  {
    if cuts != [] {
      var rest, last := cuts[..|cuts| - 1], cuts[|cuts| - 1];
      NotedMeans(found, rest, name);
      assert cuts == rest + [last];
      assert last in cuts && last == Cut(last.place, last.length);
    }
  }

  function RecordOf(order: FieldOrder, v: Json, limit: nat, place: string): Record {
    Noted(map[], Cuts(order, v, limit, place))
  }

  predicate LongNamed(v: Json, limit: nat, place: string, path: seq<Step>, name: string) {
    LongAt(v, limit, path) && PlaceName(place, path) == name
  }

  function LengthAt(v: Json, limit: nat, path: seq<Step>): nat
    requires LongAt(v, limit, path)
  {
    |At(v, path).value.text|
  }

  /** A name is in the record exactly when a string at some place of that name was longer than the limit,
      and what is kept under it is the length of one of those strings. */
  lemma RecordExact(order: FieldOrder, v: Json, limit: nat, place: string, name: string)
    ensures name in RecordOf(order, v, limit, place) <==> exists path :: LongNamed(v, limit, place, path, name)
    ensures name in RecordOf(order, v, limit, place) ==>
              exists path :: LongNamed(v, limit, place, path, name)
                             && LengthAt(v, limit, path) == RecordOf(order, v, limit, place)[name]
  {
    var cuts := Cuts(order, v, limit, place);
    NotedMeans(map[], cuts, name);
    if name in RecordOf(order, v, limit, place) {
      var c := Cut(name, RecordOf(order, v, limit, place)[name]);
      CutsExact(order, v, limit, place, c);
      var path :| LongAt(v, limit, path) && c == CutAt(v, place, path);
      assert LongNamed(v, limit, place, path, name);
    }
    forall path | LongNamed(v, limit, place, path, name)
      ensures name in RecordOf(order, v, limit, place)
    {
      CutsExact(order, v, limit, place, CutAt(v, place, path));
    }
  }

  /** The record has the length of the string at this place. */
  predicate KeepsLength(r: Record, v: Json, limit: nat, place: string, path: seq<Step>)
    requires LongAt(v, limit, path)
  {
    PlaceName(place, path) in r && r[PlaceName(place, path)] == LengthAt(v, limit, path)
  }

  /** No two long strings at places of one name differ in length. */
  ghost predicate NamesAgree(v: Json, limit: nat, place: string) {
    forall path, other :: LongAt(v, limit, path) && LongAt(v, limit, other) && PlaceName(place, path) == PlaceName(place, other) ==>
      LengthAt(v, limit, path) == LengthAt(v, limit, other)
  }

  /** The record has the length of every string that was cut exactly when no two of them, at places of one
      name, differ in length. */
  lemma EveryLengthKeptIff(order: FieldOrder, v: Json, limit: nat, place: string)
    ensures (forall path :: LongAt(v, limit, path) ==> KeepsLength(RecordOf(order, v, limit, place), v, limit, place, path))
            <==> NamesAgree(v, limit, place)
  {
    var r := RecordOf(order, v, limit, place);
    if NamesAgree(v, limit, place) {
      forall path | LongAt(v, limit, path)
        ensures KeepsLength(r, v, limit, place, path)
      {
        var name := PlaceName(place, path);
        RecordExact(order, v, limit, place, name);
        assert LongNamed(v, limit, place, path, name);
        var other :| LongNamed(v, limit, place, other, name) && LengthAt(v, limit, other) == r[name];
      }
    }
    if forall path :: LongAt(v, limit, path) ==> KeepsLength(r, v, limit, place, path) {
      forall path, other | LongAt(v, limit, path) && LongAt(v, limit, other) && PlaceName(place, path) == PlaceName(place, other)
        ensures LengthAt(v, limit, path) == LengthAt(v, limit, other)
      {
        assert KeepsLength(r, v, limit, place, path) && KeepsLength(r, v, limit, place, other);
      }
    }
  }

  /** Nothing recorded means nothing changed. */
  lemma {:induction false} NothingCut(order: FieldOrder, v: Json, limit: nat, place: string)
    requires RecordOf(order, v, limit, place) == map[]
    ensures Truncated(v, limit) == v
    decreases v
  {
    var cuts := Cuts(order, v, limit, place);
    LastIsNoted(map[], cuts);
    NoCuts(order, v, limit, place);
  }

  lemma LastIsNoted(found: Record, cuts: seq<Cut>)
    ensures cuts != [] ==> cuts[|cuts| - 1].place in Noted(found, cuts)
  {
  }

  lemma {:induction false} NoCuts(order: FieldOrder, v: Json, limit: nat, place: string)
    requires Cuts(order, v, limit, place) == []
    ensures Truncated(v, limit) == v
    decreases v
  {
    match v
    case JString(text) =>
    case JList(items) =>
      forall i | 0 <= i < |items|
        ensures Truncated(items[i], limit) == items[i]
      {
        NoPart(ItemParts(order, items, limit, place), i);
        NoCuts(order, items[i], limit, place + StepName(Index(i)));
      }
    case JObject(fields) =>
      var ks := order(fields);
      forall k | k in fields
        ensures Truncated(fields[k], limit) == fields[k]
      {
        var i :| 0 <= i < |ks| && ks[i] == k;
        NoPart(FieldParts(order, fields, limit, place), i);
        NoCuts(order, fields[k], limit, place + StepName(Key(k)));
      }
    case _ =>
  }

  lemma {:induction false} NoPart(parts: seq<seq<Cut>>, i: nat)
    requires i < |parts| && Joined(parts) == []
    ensures parts[i] == []
  {
    if i < |parts| - 1 {
      NoPart(parts[..|parts| - 1], i);
    }
  }

  /** Cutting again at the same limit changes nothing, even though a cut string exceeds it. */
  lemma {:induction false} CutTwice(v: Json, limit: nat)
    ensures Truncated(Truncated(v, limit), limit) == Truncated(v, limit)
    decreases v
  {
    match v
    case JString(text) =>
      if |text| > limit {
        assert CutText(text, limit)[..limit] == text[..limit];
      }
    case JList(items) =>
      forall i | 0 <= i < |items|
        ensures Truncated(Truncated(items[i], limit), limit) == Truncated(items[i], limit)
      {
        CutTwice(items[i], limit);
      }
    case JObject(fields) =>
      forall k | k in fields
        ensures Truncated(Truncated(fields[k], limit), limit) == Truncated(fields[k], limit)
      {
        CutTwice(fields[k], limit);
      }
    case _ =>
  }

  /** Two different places can have one name. */
  lemma PlacesCanShareAName(root: string)
    ensures PlaceName(root, [Key("a"), Key("b")]) == PlaceName(root, [Key("a.b")]) == root + ".a.b"
  {
    assert [Key("a"), Key("b")][1..] == [Key("b")];
    assert [Key("b")][1..] == [] && [Key("a.b")][1..] == [];
    assert PlaceName(root, [Key("a"), Key("b")]) == PlaceName(root + ".a", [Key("b")]) == root + ".a" + ".b";
    assert root + ".a" + ".b" == root + ".a.b";
  }

  /** `{"a": {"b": "x"}, "a.b": "yy"}` */
  const SHARED_NAME := JObject(map["a" := JObject(map["b" := JString("x")]), "a.b" := JString("yy")])

  /** Cutting this payload loses a length, in whatever order it is walked. */
  lemma LengthCanBeLost(order: FieldOrder, root: string)
    ensures var path, other := [Key("a"), Key("b")], [Key("a.b")];
            && LongAt(SHARED_NAME, 0, path) && LongAt(SHARED_NAME, 0, other)
            && var r := RecordOf(order, SHARED_NAME, 0, root);
               !(KeepsLength(r, SHARED_NAME, 0, root, path) && KeepsLength(r, SHARED_NAME, 0, root, other))
  {
    PlacesCanShareAName(root);
    var path, other := [Key("a"), Key("b")], [Key("a.b")];
    assert path[1..] == [Key("b")] && [Key("b")][1..] == [] && other[1..] == [];
    assert At(SHARED_NAME, path) == At(JObject(map["b" := JString("x")]), [Key("b")]) == Some(JString("x"));
    assert At(SHARED_NAME, other) == Some(JString("yy"));
  }

  // ---- The walk --------------------------------------------------------------------------

  /** The recursive walk, noting in the record what it cuts as it goes. */
  method TruncateJsonStrings(order: FieldOrder, v: Json, limit: int, place: string, found: Record)
    returns (r: Result<(Json, Record), string>)
    ensures limit < 0 <==> r.Err?
    ensures limit >= 0 ==> r == Ok((Truncated(v, limit), Noted(found, Cuts(order, v, limit, place))))
    decreases v, 1
  {
    if limit < 0 {
      return Err("tool_string_truncate_chars must be non-negative");
    }
    match v
    case JString(text) =>
      if |text| <= limit {
        return Ok((v, found));
      }
      assert [Cut(place, |text|)][..0] == [];
      return Ok((JString(text[..limit] + MARKER), found[place := |text|]));
    case JList(items) =>
      var out, record := TruncateItems(order, items, limit, place, found);
      return Ok((JList(out), record));
    case JObject(fields) =>
      var out, record := TruncateFields(order, fields, limit, place, found);
      return Ok((JObject(out), record));
    case _ =>
      return Ok((v, found));
  }

  /** The record after the first `i` parts of a value. */
  ghost predicate Walked(found: Record, parts: seq<seq<Cut>>, i: nat, record: Record) {
    i <= |parts| && forall done :: done == parts[..i] ==> record == Noted(found, Joined(done))
  }

  lemma NothingWalked(found: Record, parts: seq<seq<Cut>>)
    ensures Walked(found, parts, 0, found)
  {
  }

  lemma WalkedNext(found: Record, parts: seq<seq<Cut>>, i: nat, record: Record, record': Record)
    requires i < |parts| && Walked(found, parts, i, record) && record' == Noted(record, parts[i])
    ensures Walked(found, parts, i + 1, record')
  {
    assert record == Noted(found, Joined(parts[..i]));
    NotedThen(found, Joined(parts[..i]), parts[i]);
    JoinedNext(parts, i);
  }

  lemma AllWalked(found: Record, parts: seq<seq<Cut>>, record: Record)
    requires Walked(found, parts, |parts|, record)
    ensures record == Noted(found, Joined(parts))
  {
    assert parts[..|parts|] == parts;
  }

  lemma PartsOfItems(order: FieldOrder, items: seq<Json>, limit: nat, place: string) returns (parts: seq<seq<Cut>>)
    ensures |parts| == |items| && Cuts(order, JList(items), limit, place) == Joined(parts)
    ensures forall i :: 0 <= i < |items| ==> parts[i] == Cuts(order, items[i], limit, place + StepName(Index(i)))
  {
    parts := ItemParts(order, items, limit, place);
    assert Cuts(order, JList(items), limit, place) == Joined(parts);
  }

  lemma PartsOfFields(order: FieldOrder, fields: map<string, Json>, limit: nat, place: string) returns (parts: seq<seq<Cut>>)
    ensures |parts| == |order(fields)| && Cuts(order, JObject(fields), limit, place) == Joined(parts)
    ensures forall i :: 0 <= i < |parts| ==>
              order(fields)[i] in fields && parts[i] == Cuts(order, fields[order(fields)[i]], limit, place + StepName(Key(order(fields)[i])))
  {
    parts := FieldParts(order, fields, limit, place);
    assert Cuts(order, JObject(fields), limit, place) == Joined(parts);
  }

  /** The first items have been cut. */
  predicate ItemsCut(out: seq<Json>, items: seq<Json>, limit: nat) {
    |out| <= |items| && forall j :: 0 <= j < |out| ==> out[j] == Truncated(items[j], limit)
  }

  lemma AllItemsCut(out: seq<Json>, items: seq<Json>, limit: nat)
    requires ItemsCut(out, items, limit) && |out| == |items|
    ensures JList(out) == Truncated(JList(items), limit)
  {
    assert out == Truncated(JList(items), limit).items;
  }

  method TruncateItems(order: FieldOrder, items: seq<Json>, limit: nat, place: string, found: Record)
    returns (out: seq<Json>, record: Record)
    ensures JList(out) == Truncated(JList(items), limit)
    ensures record == Noted(found, Cuts(order, JList(items), limit, place))
    decreases JList(items), 0
  {
    ghost var parts := PartsOfItems(order, items, limit, place);
    NothingWalked(found, parts);
    out, record := [], found;
    var i := 0;
    while i < |items|
      invariant 0 <= i <= |items| && |out| == i && ItemsCut(out, items, limit)
      invariant Walked(found, parts, i, record)
    {
      var sub := TruncateJsonStrings(order, items[i], limit, place + StepName(Index(i)), record);
      WalkedNext(found, parts, i, record, sub.value.1);
      out, record := out + [sub.value.0], sub.value.1;
      i := i + 1;
    }
    AllWalked(found, parts, record);
    AllItemsCut(out, items, limit);
  }

  /** The fields of these keys have been cut. */
  ghost predicate CutSoFar(out: map<string, Json>, fields: map<string, Json>, limit: nat, ks: seq<string>) {
    && (forall k :: k in out <==> k in ks)
    && forall k :: k in out ==> k in fields && out[k] == Truncated(fields[k], limit)
  }

  lemma CutNext(out: map<string, Json>, fields: map<string, Json>, limit: nat, ks: seq<string>, i: nat)
    requires i < |ks| && ks[i] in fields && CutSoFar(out, fields, limit, ks[..i])
    ensures CutSoFar(out[ks[i] := Truncated(fields[ks[i]], limit)], fields, limit, ks[..i + 1])
  {
    assert ks[..i + 1] == ks[..i] + [ks[i]];
  }

  lemma AllFieldsCut(out: map<string, Json>, fields: map<string, Json>, limit: nat, ks: seq<string>)
    requires ListsOnce(ks, fields.Keys) && CutSoFar(out, fields, limit, ks)
    ensures JObject(out) == Truncated(JObject(fields), limit)
  {
    assert out == Truncated(JObject(fields), limit).fields;
  }

  method TruncateFields(order: FieldOrder, fields: map<string, Json>, limit: nat, place: string, found: Record)
    returns (out: map<string, Json>, record: Record)
    ensures JObject(out) == Truncated(JObject(fields), limit)
    ensures record == Noted(found, Cuts(order, JObject(fields), limit, place))
    decreases JObject(fields), 0
  {
    ghost var parts := PartsOfFields(order, fields, limit, place);
    NothingWalked(found, parts);
    out, record := map[], found;
    var ks := order(fields);
    var i := 0;
    while i < |ks|
      invariant 0 <= i <= |ks| && CutSoFar(out, fields, limit, ks[..i])
      invariant Walked(found, parts, i, record)
    {
      var sub := TruncateJsonStrings(order, fields[ks[i]], limit, place + StepName(Key(ks[i])), record);
      WalkedNext(found, parts, i, record, sub.value.1);
      CutNext(out, fields, limit, ks, i);
      out, record := out[ks[i] := sub.value.0], sub.value.1;
      i := i + 1;
    }
    AllWalked(found, parts, record);
    assert ks[..i] == ks;
    AllFieldsCut(out, fields, limit, ks);
  }
}

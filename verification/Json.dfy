/** Decoded JSON documents. Parsing and printing of the text form are not modelled. */
module JsonValues {
  import opened Common

  datatype Json =
    | JNull
    | JBool(flag: bool)
    | JNumber(number: real)
    | JString(text: string)
    | JList(items: seq<Json>)
    | JObject(fields: map<string, Json>)

  function Field(v: Json, key: string): Option<Json> {
    if v.JObject? && key in v.fields then Some(v.fields[key]) else None
  }

  ghost predicate ListsOnce(ks: seq<string>, keys: set<string>) {
    |ks| == |keys| && forall k :: k in ks <==> k in keys
  }

  /** The order in which the fields of a document are walked: that of its text, which is left open. */
  type FieldOrder = order: map<string, Json> -> seq<string> | forall fields :: ListsOnce(order(fields), fields.Keys)
    ghost witness SOME_ORDER

  ghost const SOME_ORDER := (fields: map<string, Json>) => SomeOrder(fields.Keys)

  ghost function SomeOrder(keys: set<string>): (ks: seq<string>)
    ensures ListsOnce(ks, keys)
  {
    if keys == {} then []
    else
      var k :| k in keys;
      [k] + SomeOrder(keys - {k})
  }

  /** `sub` is `v` itself or a value at any depth inside it. */
  ghost predicate Within(sub: Json, v: Json) {
    || sub == v
    || (v.JList? && exists i :: 0 <= i < |v.items| && Within(sub, v.items[i]))
    || (v.JObject? && exists k :: k in v.fields && Within(sub, v.fields[k]))
  }
}

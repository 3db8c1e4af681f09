/**
 * The part of `serde_json::Value` the handlers look at. Objects are maps from
 * member names to values (serde_json's default `Map` keeps keys unique), and
 * numbers are integers: the handlers only ever echo a request `id` back,
 * never compute with it.
 */
module Json {
  import opened Wrappers

  datatype Value =
    | Null
    | Bool(b: bool)
    | Number(n: int)
    | Str(s: string)
    | Array(items: seq<Value>)
    | Object(members: map<string, Value>)

  /** `Value::get(key)`: the member of an object; `None` for a missing key or a non-object. */
  function Get(v: Value, key: string): Option<Value> {
    if v.Object? && key in v.members then Some(v.members[key]) else None
  }

  /** `Map::get(key)` on an object's members. */
  function Member(m: map<string, Value>, key: string): Option<Value> {
    if key in m then Some(m[key]) else None
  }

  /** `Value::as_str`, lifted through `Option::and_then`. */
  function AsStr(v: Option<Value>): Option<string> {
    if v.Some? && v.value.Str? then Some(v.value.s) else None
  }

  /** `Value::as_object`, lifted through `Option::and_then`. */
  function AsObject(v: Option<Value>): Option<map<string, Value>> {
    if v.Some? && v.value.Object? then Some(v.value.members) else None
  }

  /** `m.get(key).and_then(Value::as_str).unwrap_or_default()`. */
  function StrOrEmpty(m: map<string, Value>, key: string): (r: string)
    ensures key in m && m[key].Str? ==> r == m[key].s
    ensures !(key in m && m[key].Str?) ==> r == ""
  {
    AsStr(Member(m, key)).GetOr("")
  }

  /** One step of a path into a JSON document. */
  datatype Seg = Key(name: string) | Index(i: nat)

  /** The value found by following `path` from `v`, if there is one. */
  function At(v: Value, path: seq<Seg>): Option<Value>
    decreases |path|
  {
    if path == [] then Some(v)
    else match path[0]
      case Key(k) => if v.Object? && k in v.members then At(v.members[k], path[1..]) else None
      case Index(i) => if v.Array? && i < |v.items| then At(v.items[i], path[1..]) else None
  }
}

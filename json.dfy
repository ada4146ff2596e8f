/**
 * JSON values as serde_json's `Value` holds them. An object is a finite map
 * from keys to values; the order of its keys plays no part in this model.
 */
module Json {
  import opened Common

  datatype Json =
    | Null
    | Bool(b: bool)
    | Int(i: int)        // a number written without fraction or exponent
    | Float(x: real)     // any other number
    | Str(s: string)
    | Arr(items: seq<Json>)
    | Obj(fields: map<string, Json>)

  type Object = map<string, Json>

  /** `Value::as_u64`: the number as a `u64`, if it is an integer in range. */
  function AsU64(j: Json): (r: Option<u64>)
    ensures r.Some? <==> j.Int? && 0 <= j.i < U64_LIMIT
    ensures r.Some? ==> j == Int(r.value)
  {
    if j.Int? && 0 <= j.i < U64_LIMIT then Some(j.i) else None
  }

  /** The `u64` stored under `key`, as a derived `Deserialize` for a `u64` field reads it. */
  function FieldU64(o: Object, key: string): (r: Option<u64>)
    ensures r.Some? <==> key in o && AsU64(o[key]).Some?
    ensures r.Some? ==> o[key] == Int(r.value)
  {
    if key in o then AsU64(o[key]) else None
  }

  /** The `u32` stored under `key`. */
  function FieldU32(o: Object, key: string): (r: Option<u32>)
    ensures r.Some? <==> key in o && o[key].Int? && 0 <= o[key].i < U32_LIMIT
    ensures r.Some? ==> o[key] == Int(r.value)
  {
    if key in o && o[key].Int? && 0 <= o[key].i < U32_LIMIT then Some(o[key].i) else None
  }

  /** The string stored under `key`. */
  function FieldStr(o: Object, key: string): (r: Option<string>)
    ensures r.Some? <==> key in o && o[key].Str?
    ensures r.Some? ==> o[key] == Str(r.value)
  {
    if key in o && o[key].Str? then Some(o[key].s) else None
  }

  /** The internal tag of a `#[serde(tag = ...)]` type: the string under the tag key equals `name`. */
  predicate HasTag(o: Object, tagKey: string, name: string) {
    tagKey in o && o[tagKey] == Str(name)
  }
}

/**
 * Parsed JSON documents, as `JSON.parse` hands them to the program, and the
 * few JavaScript operations the services apply to them: property access,
 * truthiness and `typeof v === 'number'`.
 */
module JsonValue {
  import opened Wrappers

  /** A JavaScript number. Coordinates, accuracies and timestamps are only
      copied and compared, never computed with. */
  type Number = real

  /** Object members are a map: `JSON.parse` keeps the last of duplicate keys,
      and key order only matters for text, which is not modelled. */
  datatype Json =
    | Null
    | Bool(b: bool)
    | Num(n: Number)
    | Str(s: string)
    | Arr(items: seq<Json>)
    | Obj(fields: map<string, Json>)

  /** `value.key`; `None` is `undefined`. Property access on a primitive or an
      array yields `undefined` for the keys used here. */
  function Member(value: Json, key: string): Option<Json>
  {
    if value.Obj? && key in value.fields then Some(value.fields[key]) else None
  }

  /** JavaScript truthiness of a property value (`undefined` is falsy). */
  predicate Truthy(v: Option<Json>)
  {
    match v
    case None => false
    case Some(Null) => false
    case Some(Bool(b)) => b
    case Some(Num(n)) => n != 0.0
    case Some(Str(s)) => s != ""
    case Some(Arr(_)) => true
    case Some(Obj(_)) => true
  }

  /** `typeof v === 'number'`. */
  predicate IsNumber(v: Option<Json>)
  {
    v.Some? && v.value.Num?
  }
}

/** Parsed request bodies, as JavaScript values. */
module Json {
  import opened Wrappers

  /**
   * A JavaScript value a request body parses to. Numbers are integers here;
   * `Undefined` is a request without a body.
   */
  datatype Json =
    | Undefined
    | Null
    | Bool(b: bool)
    | Number(n: int)
    | Str(s: string)
    | Arr(elems: seq<Json>)
    | Obj(fields: map<string, Json>)

  /**
   * Reading property `key`, as destructuring `const { key } = v` does:
   * `None` when it throws (on `undefined` and `null`), `Undefined` when the
   * value has no such own property. Inherited properties (a string's
   * `length`, say) are not modelled: the only key ever read is `endpoint`,
   * which no built-in value has.
   */
  function Property(v: Json, key: string): (r: Option<Json>)
    ensures r.None? <==> v.Undefined? || v.Null?
    ensures r.Some? && r.value != Undefined ==> v.Obj? && key in v.fields && v.fields[key] == r.value
  {
    match v
    case Undefined => None
    case Null => None
    case Obj(fields) => Some(if key in fields then fields[key] else Undefined)
    case _ => Some(Undefined)
  }
}

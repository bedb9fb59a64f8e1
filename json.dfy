/** JSON values as the Flask handlers see them after `request.get_json()`,
    together with the parts of Python's object model the handlers rely on:
    truthiness (`if not x`, `all([...])`), `dict.get` and hashability. */
module Json {

  /** A decoded JSON document. Floating-point numbers are not modelled. */
  datatype Json =
    | Null
    | Bool(b: bool)
    | Int(i: int)
    | Str(s: string)
    | Arr(items: seq<Json>)
    | Obj(fields: map<string, Json>)

  /** Python's `bool(x)` for a decoded JSON value: `None`, `False`, `0`, the
      empty string, the empty list and the empty dict are false. */
  predicate Truthy(j: Json) {
    match j
    case Null => false
    case Bool(b) => b
    case Int(i) => i != 0
    case Str(s) => s != ""
    case Arr(items) => items != []
    case Obj(fields) => fields != map[]
  }

  /** `d.get(k)`: the stored value, or `None` when the key is absent. */
  function Get(d: map<string, Json>, k: string): Json {
    if k in d then d[k] else Null
  }

  /** Python can use the value as a dict key: lists and dicts are unhashable,
      and looking one up in a dict raises `TypeError`. */
  predicate Hashable(j: Json) {
    !j.Arr? && !j.Obj?
  }
}

/**
  The dynamically typed values that flow through the gateway's request
  handling: decoded JSON documents, collaborator results and error values.
  Python's `None` is `Null`; Python's truthiness (`if x:` / `if not x:`)
  and `dict.get` are given explicitly, because every gate of the API
  handler is written in terms of them.
 */
module PythonValues {

  datatype Json =
    | Null
    | Bool(b: bool)
    | Num(n: int)
    | Str(s: string)
    | Arr(items: seq<Json>)
    | Obj(fields: map<string, Json>)

  /** Python truthiness: None, False, zero and empty containers are falsy. */
  predicate Truthy(v: Json)
  {
    match v
    case Null => false
    case Bool(b) => b
    case Num(n) => n != 0
    case Str(s) => s != ""
    case Arr(items) => items != []
    case Obj(fields) => fields != map[]
  }

  /** `d.get(key)` (equivalently `d.get(key, None)`) on a dictionary. */
  function Get(d: map<string, Json>, key: string): Json
  {
    if key in d then d[key] else Null
  }

  /** Lists and dictionaries cannot be hashed, so `x in some_dict` raises for them. */
  predicate Hashable(v: Json)
  {
    !v.Arr? && !v.Obj?
  }
}

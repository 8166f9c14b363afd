/** A form's `formData`: a plain JavaScript object whose keys are input names. Updating it
    with `{ ...prev, [name]: v }` is a map update. */
module JsObject {

  /** The values a form field can hold. `Undefined` is what reading a missing key gives. */
  datatype Value =
    | Undefined
    | Str(s: string)
    | Num(n: int)
    | Bool(b: bool)
    | List(items: seq<string>)
    | Obj(fields: map<string, Value>)

  type Record = map<string, Value>

  /** `r[key]`: undefined when the key is absent. */
  function Get(r: Record, key: string): Value
  {
    if key in r then r[key] else Undefined
  }

  /** The own properties `{ ...v }` copies: those of an object; nothing for undefined, null,
      numbers and booleans. */
  function Spread(v: Value): Record
  {
    if v.Obj? then v.fields else map[]
  }

  /** `r'` is `r` with `key` set to `v` and every other key as it was. */
  predicate UpdatedOnly(r: Record, r': Record, key: string, v: Value)
  {
    && r'.Keys == r.Keys + {key}
    && r'[key] == v
    && forall k :: k in r && k != key ==> r'[k] == r[k]
  }
}

/**
 * JavaScript values as the API and the mobile client keep them in memory:
 * records are plain objects, i.e. finite maps from property names to values.
 * Numbers are exact integers (money in cents); NaN and floating point are not modelled.
 */
module Json {

  datatype Value =
    | Undefined
    | Null
    | Bool(b: bool)
    | Num(n: int)
    | Str(s: string)
    | Arr(elems: seq<Value>)
    | Obj(fields: map<string, Value>)

  /** A record: a plain object with own enumerable properties. */
  type Record = map<string, Value>

  /** `r.k`: a missing property reads as `undefined`. */
  function Field(r: Record, k: string): (v: Value)
    ensures k !in r ==> v == Undefined
    ensures k in r ==> v == r[k]
  {
    if k in r then r[k] else Undefined
  }

  /** JavaScript falsiness (there is no NaN in this model). */
  predicate Falsy(v: Value) {
    v == Undefined || v == Null || v == Bool(false) || v == Num(0) || v == Str("")
  }

  /** `r.k` used as a number; records whose field is not a number are outside what the callers store. */
  function NumField(r: Record, k: string): int {
    match Field(r, k)
    case Num(n) => n
    case _ => 0
  }

  /** `r.k` used as a string (`.toLowerCase()`, `.includes`); non-strings read as "". */
  function StrField(r: Record, k: string): string {
    match Field(r, k)
    case Str(s) => s
    case _ => ""
  }

  /** `item.id === id` */
  predicate HasId(r: Record, id: Value) {
    Field(r, "id") == id
  }

  /** `{ ...r, ...updates }`: properties of `updates` win, all others keep their values. */
  function Merge(r: Record, updates: Record): (m: Record)
    ensures m.Keys == r.Keys + updates.Keys
    ensures forall k :: k in updates ==> Field(m, k) == updates[k]
    ensures forall k :: k !in updates ==> Field(m, k) == Field(r, k)
  {
    r + updates
  }
}

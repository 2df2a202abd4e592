/**
 * The JavaScript values the extension keeps in its settings record and hands to
 * the browser's storage: the JSON-like subset that structured cloning stores.
 */
module Values {

  datatype Option<T> = None | Some(value: T)

  /** A stored JavaScript value. Numbers are integers in this model. */
  datatype Value =
    | Null
    | Bool(b: bool)
    | Num(n: int)
    | Str(s: string)
    | Arr(elems: seq<Value>)
    | Obj(fields: map<string, Value>)

  /** A plain object such as the settings record: property name to value. */
  type Record = map<string, Value>

  /** ECMAScript ToBoolean: null, false, 0 and "" are falsy, everything else truthy. */
  predicate Truthy(v: Value) {
    match v
    case Null => false
    case Bool(b) => b
    case Num(n) => n != 0
    case Str(s) => s != ""
    case Arr(_) => true
    case Obj(_) => true
  }

  /** `x || fallback` where `x` may be undefined (None). */
  function OrElse(x: Option<Value>, fallback: Value): Value {
    if x.Some? && Truthy(x.value) then x.value else fallback
  }

  /** The value of property `name`, or None when the record has no such property. */
  function Field(r: Record, name: string): Option<Value> {
    if name in r then Some(r[name]) else None
  }

  /** `r[name]` used as a condition: present and truthy. */
  predicate Flag(r: Record, name: string) {
    name in r && Truthy(r[name])
  }

  /**
   * Object spread `{ ...base, ...over }`: every property of `over` wins, every
   * property only `base` has keeps its value, and nothing else appears.
   */
  function Spread(base: Record, over: Record): (r: Record)
    ensures r.Keys == base.Keys + over.Keys
    ensures forall k :: k in over ==> r[k] == over[k]
    ensures forall k :: k in base && k !in over ==> r[k] == base[k]
  {
    base + over
  }

  /** Spreading an empty object changes nothing. */
  lemma SpreadEmpty(base: Record)
    ensures Spread(base, map[]) == base
  {
  }
}

/**
 * An untyped JavaScript value, as the validators receive it (`data: unknown`) and as
 * `JSON.parse` produces it. `DateObj` stands for a `Date` instance, which only code, not
 * JSON text, can produce. Numbers are integers here: only their type matters to the schemas.
 */
module JsValue {

  datatype Value =
    | Undefined
    | Null
    | Bool(b: bool)
    | Num(n: int)
    | Str(s: string)
    | Arr(items: seq<Value>)
    | Obj(fields: map<string, Value>)
    | DateObj(time: int)

  /** Property access `v[key]` on an object: `undefined` when the key is absent. */
  function Get(v: Value, key: string): (r: Value)
    requires v.Obj?
    ensures key !in v.fields ==> r == Undefined
  {
    if key in v.fields then v.fields[key] else Undefined
  }

  /** The type name Zod reports for a received value. */
  function TypeName(v: Value): string {
    match v
    case Undefined => "undefined"
    case Null => "null"
    case Bool(_) => "boolean"
    case Num(_) => "number"
    case Str(_) => "string"
    case Arr(_) => "array"
    case Obj(_) => "object"
    case DateObj(_) => "date"
  }
}

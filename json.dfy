/**
 * JavaScript values as the front end receives them from a JSON response body.
 * A missing property reads as `undefined`; the code only ever tests such a value
 * for truthiness or replaces it with `null` (`x || null`), so the model lets a
 * missing property read as `Null`, which behaves identically in both uses.
 */
module Json {

  datatype Option<T> = None | Some(value: T)

  datatype Value =
    | Null
    | Bool(b: bool)
    | Num(x: real)                    // a finite number
    | NaN                             // the number NaN
    | Str(s: string)
    | Arr(items: seq<Value>)
    | Obj(fields: map<string, Value>)

  /** JavaScript truthiness: null, false, 0, NaN and "" are falsy; arrays and objects, even empty ones, are truthy. */
  predicate Truthy(v: Value) {
    match v
    case Null => false
    case Bool(b) => b
    case Num(x) => x != 0.0
    case NaN => false
    case Str(s) => s != []
    case Arr(_) => true
    case Obj(_) => true
  }

  /** `v.key` on a value that is not null: only objects carry named properties. */
  function Field(v: Value, key: string): (r: Value)
    ensures !v.Obj? ==> r == Null
    ensures v.Obj? && key in v.fields ==> r == v.fields[key]
    ensures v.Obj? && key !in v.fields ==> r == Null
  {
    if v.Obj? && key in v.fields then v.fields[key] else Null
  }
}

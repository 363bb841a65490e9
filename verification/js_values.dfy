/** The slice of JavaScript values that the avatar menu and the admin endpoint
    inspect: `undefined`, `null`, booleans, numbers (integers only), strings,
    arrays and plain objects. */
module JsValues {

  datatype JsValue =
    | Undefined
    | Null
    | Bool(b: bool)
    | Num(n: int)
    | Str(s: string)
    | Arr(items: seq<JsValue>)
    | Obj(fields: map<string, JsValue>)

  /** `v && typeof v === "object"`: a non-null object. Arrays are objects too. */
  predicate IsObject(v: JsValue) {
    v.Arr? || v.Obj?
  }

  /** `v[key]` for the named properties read here: an own field of a plain object,
      and `undefined` for everything else. */
  function Get(v: JsValue, key: string): (r: JsValue)
    ensures r != Undefined ==> v.Obj? && key in v.fields && v.fields[key] == r
    ensures v.Obj? && key in v.fields ==> r == v.fields[key]
  {
    if v.Obj? && key in v.fields then v.fields[key] else Undefined
  }
}

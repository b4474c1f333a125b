/**
  Decoded JSON (and Python literal) values. Decoding itself (`json.loads`,
  `ast.literal_eval`) is foreign to the model: callers receive it as a
  partial function from text to a value.
*/
module Json {

  datatype Json =
    | JNull
    | JBool(b: bool)
    | JNum(n: int)
    | JStr(s: string)
    | JArr(items: seq<Json>)
    | JObj(fields: map<string, Json>)

  /** Python truthiness of a decoded value. */
  predicate Truthy(j: Json) {
    match j
    case JNull => false
    case JBool(b) => b
    case JNum(n) => n != 0
    case JStr(s) => s != ""
    case JArr(items) => items != []
    case JObj(fields) => fields != map[]
  }

  /** Name of the Python type a decoded value has, as Python error messages print it. */
  function TypeName(j: Json): string {
    match j
    case JNull => "NoneType"
    case JBool(_) => "bool"
    case JNum(_) => "int"
    case JStr(_) => "str"
    case JArr(_) => "list"
    case JObj(_) => "dict"
  }

  /** `str(v)` (or `f"{v}"`): a string is itself; how any other value prints is given by `show`. */
  function Shown(j: Json, show: Json -> string): (r: string)
    ensures j.JStr? ==> r == j.s
  {
    if j.JStr? then j.s else show(j)
  }
}

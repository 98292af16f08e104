/** A value decoded from a JSON request body, as Python's `json` module
    delivers it: integers and floating-point numbers stay distinct. */
module Json {

  datatype Value =
    | Null
    | Bool(b: bool)
    | Int(i: int)
    | Float(r: real)
    | Str(s: string)
    | Array(items: seq<Value>)
    | Object(fields: map<string, Value>)
}

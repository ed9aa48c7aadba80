/**
  The loosely-typed JSON values the adapter receives from the remote service
  and sends back to it (Go's `interface{}` after `encoding/json` decoding).
  Numbers are integral here: floating-point results are not part of the model.
 */
module Json {

  datatype Value =
    | Null
    | Bool(b: bool)
    | Num(n: int)
    | Str(s: string)
    | Arr(items: seq<Value>)
    | Obj(fields: map<string, Value>)
}

/**
  The JSON values an item field can hold. Numbers are the integer-valued ones:
  an item id is compared against the integer produced by parsing the request
  path, so a fractional number behaves like any other non-matching value.
 */
module Json {

  datatype Value =
    | Null
    | Bool(b: bool)
    | Num(n: int)
    | Str(s: string)
    | Arr(elems: seq<Value>)
    | Obj(fields: map<string, Value>)
}

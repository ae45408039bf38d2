/**
 * The JSON values that the data file, the request bodies and the responses carry.
 * A record of the collection is a JSON object, that is, a map from field names to values.
 */
module Json {

  datatype Value =
    | Null
    | Bool(b: bool)
    | Num(n: int)
    | Str(s: string)
    | Arr(items: seq<Value>)
    | Obj(fields: map<string, Value>)

  /** One car: an object with no fixed schema; `id` is the only field the server reads. */
  type Record = map<string, Value>
}

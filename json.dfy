/** An abstract JSON value in the shape of serde_json's `Value`, already parsed
    from the response bytes. Objects are key-to-value maps, as serde_json's
    default (sorted) `Map` is; numbers are integers only. */
module Json {

  datatype Value =
    | Null
    | Bool(b: bool)
    | Number(n: int)
    | Str(s: string)
    | Array(items: seq<Value>)
    | Object(fields: map<string, Value>)

  /** What `#[serde(flatten)] extra: Value` collects: every key of the object
      that no named field of the record consumes, with its value untouched. */
  function Extra(fields: map<string, Value>, named: set<string>): (extra: map<string, Value>)
    ensures extra.Keys == fields.Keys - named
    ensures forall k :: k in extra ==> extra[k] == fields[k]
  {
    map k | k in fields && k !in named :: fields[k]
  }
}

/** Values shared by the schema layer and the aggregator. */
module Values {

  datatype Option<+T> = None | Some(value: T)

  datatype Result<+R, +E> = Success(value: R) | Failure(error: E)

  /** A loosely typed value as it arrives in a raw model payload (Python's `Any`
      inside a JSON-shaped dictionary). */
  datatype Value =
    | Null
    | Str(s: string)
    | Int(i: int)
    | Num(r: real)
    | Bool(b: bool)
    | List(items: seq<Value>)
    | Record(fields: map<string, Value>)

  /** A raw or validated key/value payload (`Dict[str, Any]`). */
  type Payload = map<string, Value>

  /** The `as_of` timestamp. It is only carried from the request to the
      report, so its calendar structure is not modelled. */
  datatype Timestamp = Timestamp(iso: string)
}

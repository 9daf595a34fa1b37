/** Value types shared by the model: optional values, results, and JSON documents
    as serde_json represents them. */
module Values {

  /** An optional value, as Rust's Option. */
  datatype Option<+T> = None | Some(value: T) {
    /** The wrapped value, or `default` when there is none (Rust's unwrap_or). */
    function GetOr(default: T): T {
      match this
      case Some(v) => v
      case None => default
    }
  }

  /** A success value or an error, as Rust's Result. */
  datatype Result<+T, +E> = Ok(value: T) | Err(error: E)

  /** A JSON document. Numbers are integers only; the item payloads the service
      returns are kept opaque and only ever copied. */
  datatype Json =
    | Null
    | Bool(b: bool)
    | Num(n: int)
    | Str(s: string)
    | Arr(items: seq<Json>)
    | Obj(fields: map<string, Json>)
}

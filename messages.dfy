/** Parsed requests and structured responses shared by both registries.
    Every operation of the source takes a JSON request and answers either a
    success record or an object with a single "error" field; here the JSON
    layer is gone and the two outcomes are the constructors of Response. */
module Messages {

  /** A request field that is either absent or carries a value. A field sent
      as JSON null is not distinguished from an absent one. */
  datatype Option<+T> = None | Some(value: T)

  /** The answer of an operation: the success record, or {"error": msg}. */
  datatype Response<+T> = Ok(value: T) | Err(msg: string)

  /** A request whose only field is "id" (a board, team or user key). */
  datatype IdRequest = IdRequest(id: Option<string>)
}

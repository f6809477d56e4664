/** Small shared definitions: optional values, the errors a request handler passes on,
    and JavaScript string tests. */
module Common {

  /** A value that may be absent (`null`/`undefined` in the original). */
  datatype Option<+T> = None | Some(value: T)

  /** An error handed to Express's `next`: with the status the handler set via
      `res.status(...)`, or `Unexpected` when the handler set none (a thrown
      library error such as a failed mail delivery or a `TypeError`). */
  datatype HttpError = HttpError(status: nat, message: string) | Unexpected(reason: string)

  /** A handler's result: the status and JSON body it sends, or the error it passes on. */
  datatype Outcome<+T> = Reply(status: nat, body: T) | Failure(error: HttpError)

  /** JavaScript truthiness of an optional string: `undefined`, `null` and `""` are falsy. */
  predicate Truthy(s: Option<string>)
  {
    s.Some? && s.value != ""
  }

  /** `s.startsWith(prefix)`. */
  predicate StartsWith(s: string, prefix: string)
  {
    |prefix| <= |s| && s[..|prefix|] == prefix
  }
}

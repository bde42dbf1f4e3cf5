/** Values shared by every part of the parcel lifecycle model: optional values,
    the service error taxonomy, HTTP status codes, identifiers and timestamps. */
module Common {

  /** A JavaScript value that may be `undefined`/`null`. */
  datatype Option<+T> = None | Some(value: T) {
    function GetOr(default: T): T {
      match this
      case Some(v) => v
      case None => default
    }
  }

  /** A database identifier (a Mongo ObjectId, compared through `toString()`). */
  type Id = string

  /** An opaque instant: `millis` orders instants, `localText` is what
      `toLocaleString()` would print for it. Neither is interpreted further. */
  datatype Timestamp = At(millis: int, localText: string)

  // HTTP status codes used by the services (the `http-status` package).
  const OK: nat := 200
  const CREATED: nat := 201
  const BAD_REQUEST: nat := 400
  const UNAUTHORIZED: nat := 401
  const FORBIDDEN: nat := 403
  const NOT_FOUND: nat := 404
  const INTERNAL_SERVER_ERROR: nat := 500

  /** What a service throws. `AppError` is the application's own error class;
      `DuplicateKey` is the E11000 error Mongo raises when a unique index is hit;
      `ValidationFailed` is the ValidationError Mongoose raises for a schema
      path whose validator fails; `NullReference` is the TypeError JavaScript
      throws when a method is called on null; `TokenRejected` is the error
      `jsonwebtoken` throws for a bad token. */
  datatype ServiceError =
    | AppError(statusCode: nat, message: string)
    | DuplicateKey(field: string, value: string)
    | ValidationFailed(path: string, message: string)
    | NullReference(callee: string)
    | TokenRejected

  datatype Result<+T> = Ok(value: T) | Err(error: ServiceError)

  /** The outcome of a guard that either lets a request through or throws. */
  datatype Outcome = Pass | Fail(error: ServiceError)

  /** JavaScript truthiness of an optional string: present and non-empty. */
  predicate Truthy(s: Option<string>) {
    s.Some? && s.value != ""
  }
}

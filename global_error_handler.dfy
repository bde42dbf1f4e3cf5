/** The response classification of middleware/globalErrorHandler.js. */
module GlobalErrorHandler {
  import opened Common
  import opened ErrorMappers

  /** The fields of a thrown error the handler reads. `appStatus` is the
      `statusCode` of an `AppError` instance and `None` for any other error;
      `path` and `errors` are what the cast and validation mappers read. */
  datatype ErrorValue = ErrorValue(
    name: Option<string>, code: Option<int>, message: string, appStatus: Option<nat>,
    path: string, errors: seq<ErrorSource>)

  /** Which branch of the if/else chain an error takes. */
  datatype ErrorKind = ValidationKind | CastKind | DuplicateKind | AppErrorKind | OtherKind

  function Classify(err: ErrorValue): (k: ErrorKind)
    ensures k == ValidationKind <==> err.name == Some("ValidationError")
    ensures k == CastKind <==> err.name == Some("CastError")
    ensures k == DuplicateKind <==>
      err.name != Some("ValidationError") && err.name != Some("CastError") && err.code == Some(11000)
    ensures k == AppErrorKind <==>
      err.name != Some("ValidationError") && err.name != Some("CastError") && err.code != Some(11000) &&
      err.appStatus.Some?
  {
    if err.name == Some("ValidationError") then ValidationKind
    else if err.name == Some("CastError") then CastKind
    else if err.code == Some(11000) then DuplicateKind
    else if err.appStatus.Some? then AppErrorKind
    else OtherKind
  }

  /** The JSON body and status the handler sends (the raw error and the stack
      are not modelled). */
  datatype ErrorResponse = ErrorResponse(status: nat, success: bool, message: string, errorSources: seq<ErrorSource>)

  /** `globalErrorHandler(err, ...)`: the default 500 answer, replaced by the
      first branch that matches. */
  function GlobalErrorHandler(err: ErrorValue): (r: ErrorResponse)
    ensures !r.success
    ensures Classify(err) == OtherKind ==>
      r == ErrorResponse(INTERNAL_SERVER_ERROR, false, err.message, [ErrorSource("", err.message)])
    ensures Classify(err) == AppErrorKind ==>
      r == ErrorResponse(err.appStatus.value, false, err.message, [ErrorSource("", err.message)])
    ensures Classify(err) == ValidationKind ==>
      r.status == BAD_REQUEST && r.errorSources == err.errors && r.message == HandleValidationError(err.errors).message
    ensures Classify(err) == CastKind ==>
      r == ErrorResponse(BAD_REQUEST, false, "Invalid ID", [ErrorSource(err.path, err.message)])
    ensures Classify(err) == DuplicateKind ==>
      r.status == BAD_REQUEST && r.message == DuplicateMessage(ExtractQuoted(err.message)) &&
      r.errorSources == [ErrorSource("", r.message)]
  {
    var simplified :=
      match Classify(err)
      case ValidationKind => HandleValidationError(err.errors)
      case CastKind => HandleCastError(err.path, err.message)
      case DuplicateKind => HandleDuplicateError(err.message)
      case AppErrorKind => SimplifiedError(err.appStatus.value, err.message, [ErrorSource("", err.message)])
      case OtherKind => SimplifiedError(INTERNAL_SERVER_ERROR, err.message, [ErrorSource("", err.message)]);
    ErrorResponse(simplified.statusCode, false, simplified.message, simplified.errorSources)
  }

  /** Whatever the error, the response carries at least one source, except a
      validation error with no entries. */
  lemma SourcesPresent(err: ErrorValue)
    ensures |GlobalErrorHandler(err).errorSources| == 0 <==> Classify(err) == ValidationKind && err.errors == []
  {
  }

  /** The name wins over the code and the class: a validation error that also
      carries code 11000 and is an `AppError` is still answered as a
      validation error. */
  lemma NameTakesPrecedence(err: ErrorValue)
    requires err.name == Some("ValidationError") && err.code == Some(11000) && err.appStatus.Some?
    ensures GlobalErrorHandler(err).status == BAD_REQUEST
    ensures GlobalErrorHandler(err).errorSources == err.errors
  {
  }

  /** A service error raised as an `AppError` reaches the client with its own
      status and message. */
  lemma ServiceErrorsPassThrough(statusCode: nat, message: string, path: string)
    ensures GlobalErrorHandler(ErrorValue(Some("Error"), None, message, Some(statusCode), path, [])) ==
      ErrorResponse(statusCode, false, message, [ErrorSource("", message)])
  {
  }
}

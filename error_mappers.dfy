/** The three error simplifiers of errors/: Mongoose validation errors, cast
    errors and duplicate-key errors, each turned into a status code, a
    message and a list of error sources. */
module ErrorMappers {
  import opened Common
  import opened JsStrings

  /** One `{ path, message }` entry of `errorSources`. */
  datatype ErrorSource = ErrorSource(path: string, message: string)

  /** What each simplifier returns. */
  datatype SimplifiedError = SimplifiedError(statusCode: nat, message: string, errorSources: seq<ErrorSource>)

  /** `handleValidationError(err)`, given the values of `err.errors` in order. */
  function HandleValidationError(errors: seq<ErrorSource>): (e: SimplifiedError)
    ensures e.statusCode == BAD_REQUEST
    ensures e.errorSources == errors
    ensures e.message == (if |errors| > 0 && errors[0].message != "" then errors[0].message else "Validation Error")
  {
    SimplifiedError(BAD_REQUEST, if |errors| > 0 && errors[0].message != "" then errors[0].message else "Validation Error",
                    seq(|errors|, i requires 0 <= i < |errors| => ErrorSource(errors[i].path, errors[i].message)))
  }

  /** The message is never empty. */
  lemma ValidationMessageNonEmpty(errors: seq<ErrorSource>)
    ensures HandleValidationError(errors).message != ""
    ensures |HandleValidationError(errors).errorSources| == |errors|
  {
  }

  /** `HandleCastError(err)`. */
  function HandleCastError(path: string, message: string): (e: SimplifiedError)
    ensures e.statusCode == BAD_REQUEST && e.message == "Invalid ID"
    ensures |e.errorSources| == 1 && e.errorSources[0] == ErrorSource(path, message)
  {
    SimplifiedError(BAD_REQUEST, "Invalid ID", [ErrorSource(path, message)])
  }

  /** `message.match(/"([^"]*)"/)?.[1]`: the text between the first two double
      quotes, or nothing when there are fewer than two. */
  function ExtractQuoted(message: string): (r: Option<string>)
    ensures r.Some? ==> '"' !in r.value
    ensures r.Some? <==> exists i, j :: 0 <= i < j < |message| && message[i] == '"' && message[j] == '"'
  {
    var before := BeforeFirst(message, '"');
    if |before| == |message| then
      BeforeFirstAll(message, '"');
      None
    else
      var rest := message[|before| + 1..];
      var inner := BeforeFirst(rest, '"');
      if |inner| == |rest| then
        BeforeFirstAll(rest, '"');
        assert forall i, j :: 0 <= i < j < |message| && message[i] == '"' && message[j] == '"' ==> false by {
          forall i, j | 0 <= i < j < |message| && message[i] == '"' && message[j] == '"' ensures false {
            BeforeFirstIsFirst(message, '"', i);
          }
        }
        None
      else
        assert message[|before|] == '"' && message[|before| + 1 + |inner|] == rest[|inner|];
        Some(inner)
  }

  /** Extraction recovers the quoted name of a message shaped
      `prefix "name" suffix` with no quote in the prefix. */
  lemma ExtractQuotedRoundTrip(prefix: string, name: string, suffix: string)
    requires '"' !in prefix && '"' !in name
    ensures ExtractQuoted(prefix + "\"" + name + "\"" + suffix) == Some(name)
  {
    var m := prefix + "\"" + name + "\"" + suffix;
    var tail := name + "\"" + suffix;
    assert m == prefix + ['"'] + tail;
    BeforeFirstOfJoin(prefix, '"', tail);
    assert m[|prefix| + 1..] == tail;
    assert tail == name + ['"'] + suffix;
    BeforeFirstOfJoin(name, '"', suffix);
  }

  /** `${extractedMessage} is already exists`, where a missing match prints as "null". */
  function DuplicateMessage(extracted: Option<string>): string {
    (if extracted.Some? then extracted.value else "null") + " is already exists"
  }

  /** `handleDuplicateError(err)`. */
  function HandleDuplicateError(message: string): (e: SimplifiedError)
    ensures e.statusCode == BAD_REQUEST
    ensures e.message == DuplicateMessage(ExtractQuoted(message))
    ensures |e.errorSources| == 1 && e.errorSources[0] == ErrorSource("", e.message)
  {
    var text := DuplicateMessage(ExtractQuoted(message));
    SimplifiedError(BAD_REQUEST, text, [ErrorSource("", text)])
  }

  /** The MongoDB duplicate-key message names the value in quotes; without a
      quoted part the message reads "null is already exists". */
  lemma DuplicateMessages(prefix: string, value: string, suffix: string, plain: string)
    requires '"' !in prefix && '"' !in value && '"' !in plain
    ensures HandleDuplicateError(prefix + "\"" + value + "\"" + suffix).message == value + " is already exists"
    ensures HandleDuplicateError(plain).message == "null is already exists"
  {
    ExtractQuotedRoundTrip(prefix, value, suffix);
  }
}

/**
 * The client's error taxonomy: `OpenApiClientError` (an HTTP failure or an
 * authorization failure, with a server/client code) and
 * `OpenApiClientTimeoutError` (a transport timeout), as one tagged datatype.
 */
module Errors {
  import opened Wrappers
  import opened Strings

  /** One entry of a server's structured validation report. */
  datatype ValidationError = ValidationError(property: string, constraint: string, message: string)

  /**
   * What a caller may pass as the third constructor argument. `detail` is
   * accepted here because callers pass it, but the constructor ignores it.
   */
  datatype ErrorOptions = ErrorOptions(
    problemType: Option<string>,
    errors: Option<seq<ValidationError>>,
    detail: Option<string>)

  const NoOptions := ErrorOptions(None, None, None)

  datatype HttpErrorCode = EHTTPCLIENT | EHTTPSERVER

  datatype TimeoutCode = ECONNABORTED | ETIMEDOUT

  datatype ApiError =
    | ClientError(
        statusCode: Option<int>,
        message: string,
        code: HttpErrorCode,
        problemType: Option<string>,
        errors: Option<seq<ValidationError>>)
    | TimeoutError(message: string, timeoutCode: TimeoutCode)
  {
    /** The `name` property each error class sets. */
    function Name(): string {
      if ClientError? then "OpenApiClientError" else "OpenApiClientTimeoutError"
    }
  }

  /**
   * Anything that can be thrown or rejected with: one of the client's own
   * errors, a plain `Error` with a message, or a value that is not an object.
   */
  datatype Thrown =
    | ApiFailure(error: ApiError)
    | PlainError(message: string)
    | NonObject(text: string)

  /** `"{message} ({property} {constraint})"` */
  function FormatValidationError(e: ValidationError): string {
    e.message + " (" + e.property + " " + e.constraint + ")"
  }

  function FormatValidationErrors(errors: seq<ValidationError>): (r: seq<string>)
    ensures |r| == |errors|
    ensures forall k :: 0 <= k < |errors| ==> r[k] == FormatValidationError(errors[k])
  {
    if errors == [] then [] else [FormatValidationError(errors[0])] + FormatValidationErrors(errors[1..])
  }

  /**
   * The constructor's message: the given message, followed, when there are
   * validation errors, by a space and their comma-separated descriptions.
   */
  function ComposeMessage(message: string, errors: Option<seq<ValidationError>>): (r: string)
    ensures message <= r
    ensures r == message <==> errors.None? || errors.value == []
  {
    if errors.Some? && |errors.value| > 0 then
      message + " " + Join(FormatValidationErrors(errors.value), ", ")
    else message
  }

  /** `new OpenApiClientError(statusCode, message, options)`. */
  function NewClientError(statusCode: Option<int>, message: string, options: ErrorOptions): (r: ApiError)
    ensures r.ClientError? && r.Name() == "OpenApiClientError"
    ensures r.code == EHTTPSERVER <==> statusCode.Some? && statusCode.value >= 500
    ensures r.statusCode == statusCode && r.problemType == options.problemType && r.errors == options.errors
    ensures r.message == ComposeMessage(message, options.errors)
  {
    var code := if statusCode.Some? && statusCode.value >= 500 then EHTTPSERVER else EHTTPCLIENT;
    ClientError(statusCode, ComposeMessage(message, options.errors), code, options.problemType, options.errors)
  }

  /** `new OpenApiClientTimeoutError(message, code)`. */
  function NewTimeoutError(message: string, code: TimeoutCode): (r: ApiError)
    ensures r.TimeoutError? && r.Name() == "OpenApiClientTimeoutError"
    ensures r.message == message && r.timeoutCode == code
  {
    TimeoutError(message, code)
  }

  predicate IsOpenApiClientError(value: Thrown) {
    value.ApiFailure? && value.error.ClientError?
  }

  predicate IsOpenApiClientTimeoutError(value: Thrown) {
    value.ApiFailure? && value.error.TimeoutError?
  }

  /** The two recognisers accept exactly their own kind and never both. */
  lemma RecognisersDisjoint(value: Thrown)
    ensures !(IsOpenApiClientError(value) && IsOpenApiClientTimeoutError(value))
    ensures IsOpenApiClientError(value) || IsOpenApiClientTimeoutError(value) <==> value.ApiFailure?
    ensures IsOpenApiClientError(value) <==> value.ApiFailure? && value.error.Name() == "OpenApiClientError"
  {
  }

  /** The option `detail` has no effect on the constructed error. */
  lemma DetailIsDropped(statusCode: Option<int>, message: string, options: ErrorOptions, detail: Option<string>)
    ensures NewClientError(statusCode, message, options) == NewClientError(statusCode, message, options.(detail := detail))
  {
  }

  /**
   * Every validation error's description appears in the message, after the
   * base message.
   */
  lemma {:induction false} ComposedMessageListsEachError(message: string, errors: seq<ValidationError>, k: nat)
    requires k < |errors|
    ensures exists i: nat | i <= |ComposeMessage(message, Some(errors))| ::
      |message| < i && OccursAt(ComposeMessage(message, Some(errors)), FormatValidationError(errors[k]), i)
  {
    var parts := FormatValidationErrors(errors);
    var joined := Join(parts, ", ");
    var i := JoinedPartOffset(parts, ", ", k);
    var r := message + " " + joined;
    assert r == ComposeMessage(message, Some(errors));
    var at := |message| + 1 + i;
    assert r[at..at + |parts[k]|] == joined[i..i + |parts[k]|];
    assert parts[k] == FormatValidationError(errors[k]);
    assert OccursAt(r, FormatValidationError(errors[k]), at);
  }

  /** The offset at which part `k` starts inside `Join(parts, sep)`. */
  lemma {:induction false} JoinedPartOffset(parts: seq<string>, sep: string, k: nat) returns (i: nat)
    requires k < |parts|
    ensures OccursAt(Join(parts, sep), parts[k], i)
  {
    if |parts| == 1 {
      i := 0;
    } else if k == 0 {
      i := 0;
    } else {
      var j := JoinedPartOffset(parts[1..], sep, k - 1);
      i := |parts[0]| + |sep| + j;
      var rest := Join(parts[1..], sep);
      assert Join(parts, sep) == parts[0] + sep + rest;
      assert Join(parts, sep)[i..i + |parts[k]|] == rest[j..j + |parts[k]|];
    }
  }

  /**
   * The shape the response interceptor's tests pin down for two validation
   * errors: the base message, a space, then both descriptions separated by
   * a comma and a space.
   */
  lemma TwoValidationErrorsMessage(message: string, first: ValidationError, second: ValidationError)
    ensures ComposeMessage(message, Some([first, second]))
      == message + " " + FormatValidationError(first) + ", " + FormatValidationError(second)
  {
    var parts := [FormatValidationError(first), FormatValidationError(second)];
    assert FormatValidationErrors([first, second]) == parts;
    assert parts[1..] == [parts[1]];
    assert Join(parts, ", ") == parts[0] + ", " + parts[1];
  }
}

/**
 * The error family and the error classifier (src/utils/errors.ts).
 *
 * `StandardError` and its four subclasses are records set once at
 * construction; `handleError` is an ordered decision over what was thrown:
 * a `StandardError` passes through, a remote (axios) failure is split into
 * timeout / server error / other, an error named "ValidationError" keeps its
 * issues, and anything else becomes an internal error. Timestamps are the
 * clock value `now` in milliseconds; their ISO text is not modelled.
 */
module Errors {
  import opened Wrappers
  import opened Js

  /** The closed set of error codes. */
  datatype ErrorCode =
    | ValidationFailed
    | Unauthorized
    | Forbidden
    | NotFound
    | RateLimited
    | Internal
    | ServiceUnavailable
    | Timeout
    | ValhallaFailed
    | ValhallaTimeout
    | ValhallaInvalidResponse

  /** The numeric value each code carries in a response. */
  function CodeValue(c: ErrorCode): int {
    match c
    case ValidationFailed => 400
    case Unauthorized => 401
    case Forbidden => 403
    case NotFound => 404
    case RateLimited => 429
    case Internal => 500
    case ServiceUnavailable => 503
    case Timeout => 504
    case ValhallaFailed => 520
    case ValhallaTimeout => 521
    case ValhallaInvalidResponse => 522
  }

  /** One validation failure, as it is reported to the client. */
  datatype Issue = Issue(path: string, message: string, code: string)

  /** The remote request and response facts an axios failure carries; absent ones are `undefined`. */
  datatype RemoteInfo = RemoteInfo(
    status: Option<int>,
    statusText: Option<string>,
    data: Option<Json>,
    url: Option<string>,
    httpMethod: Option<string>)

  /** The `details` of an error. */
  datatype Details =
    | NoDetails
    | Remote(info: RemoteInfo)
    | Issues(issues: seq<Issue>)
    | InternalDetails(originalError: Option<string>, stack: Option<string>)
    | Other(value: Json)

  datatype StandardError = StandardError(
    name: string,
    code: ErrorCode,
    message: string,
    details: Details,
    timestamp: int,
    requestId: Option<string>)

  datatype ErrorResponse = ErrorResponse(
    error: string,
    code: ErrorCode,
    message: string,
    details: Details,
    timestamp: int,
    requestId: Option<string>)

  const TimeoutMessage := "Valhalla service timeout"
  const RateLimitMessage := "Rate limit exceeded"
  const UnexpectedMessage := "An unexpected error occurred"

  /** `new StandardError(message, code, details, requestId)`: the name is the class name. */
  function NewStandardError(message: string, code: ErrorCode := Internal, details: Details, requestId: Option<string>, now: int): StandardError {
    StandardError("StandardError", code, message, details, now, requestId)
  }

  function NewValidationError(message: string, details: Details, requestId: Option<string>, now: int): StandardError {
    StandardError("ValidationError", ValidationFailed, message, details, now, requestId)
  }

  function NewValhallaError(message: string, details: Details, requestId: Option<string>, now: int): StandardError {
    StandardError("ValhallaError", ValhallaFailed, message, details, now, requestId)
  }

  /** An absent message takes the class's default. */
  function NewValhallaTimeoutError(message: Option<string>, details: Details, requestId: Option<string>, now: int): StandardError {
    StandardError("ValhallaTimeoutError", ValhallaTimeout, message.GetOr(TimeoutMessage), details, now, requestId)
  }

  function NewRateLimitError(message: Option<string>, details: Details, requestId: Option<string>, now: int): StandardError {
    StandardError("RateLimitError", RateLimited, message.GetOr(RateLimitMessage), details, now, requestId)
  }

  /** `toResponse()`: a copy of the six fields. */
  function ToResponse(e: StandardError): ErrorResponse {
    ErrorResponse(e.name, e.code, e.message, e.details, e.timestamp, e.requestId)
  }

  // What can be thrown

  datatype RemoteResponse = RemoteResponse(status: Option<int>, statusText: Option<string>, data: Option<Json>)
  datatype RemoteConfig = RemoteConfig(url: Option<string>, httpMethod: Option<string>)

  /** A thrown value that is not a `StandardError`: the properties `handleError` reads, absent ones `None`. */
  datatype Thrown = Thrown(
    isAxiosError: bool,
    name: Option<string>,
    message: Option<string>,
    code: Option<string>,
    response: Option<RemoteResponse>,
    config: Option<RemoteConfig>,
    issues: Option<seq<Issue>>,
    details: Details,
    stack: Option<string>)

  datatype Cause = Standard(err: StandardError) | Foreign(thrown: Thrown)

  /** A string is truthy when it is present and not empty. */
  predicate Truthy(s: Option<string>) {
    s.Some? && s.value != ""
  }

  /** `s || fallback` on an optional string. */
  function OrElse(s: Option<string>, fallback: string): string {
    if Truthy(s) then s.value else fallback
  }

  /** A template literal `${s}`: an absent value prints as "undefined". */
  function Interpolate(s: Option<string>): string {
    s.GetOr("undefined")
  }

  /** The details of an axios failure, read through optional chaining. */
  function RemoteInfoOf(t: Thrown): RemoteInfo {
    RemoteInfo(
      if t.response.Some? then t.response.value.status else None,
      if t.response.Some? then t.response.value.statusText else None,
      if t.response.Some? then t.response.value.data else None,
      if t.config.Some? then t.config.value.url else None,
      if t.config.Some? then t.config.value.httpMethod else None)
  }

  predicate IsTimeoutCode(code: Option<string>) {
    code == Some("ECONNABORTED") || code == Some("ETIMEDOUT")
  }

  /** `error.response?.status >= 500`; an absent status compares false. */
  predicate IsServerStatus(info: RemoteInfo) {
    info.status.Some? && info.status.value >= 500
  }

  /** `handleError(error, requestId)`, with the clock as `now`. */
  function HandleError(cause: Cause, requestId: Option<string>, now: int): (r: ErrorResponse)
    ensures cause.Foreign? ==> r.code in {ValhallaTimeout, ValhallaFailed, ValidationFailed, Internal}
    ensures cause.Foreign? ==> r.requestId == requestId && r.timestamp == now
  {
    match cause
    case Standard(e) => ToResponse(e)
    case Foreign(t) =>
      if t.isAxiosError then
        var details := Remote(RemoteInfoOf(t));
        if IsTimeoutCode(t.code) then
          ToResponse(NewValhallaTimeoutError(None, details, requestId, now))
        else if IsServerStatus(RemoteInfoOf(t)) then
          ToResponse(NewValhallaError(
            "Valhalla service error: " + OrElse(RemoteInfoOf(t).statusText, "Unknown error"), details, requestId, now))
        else
          ToResponse(NewValhallaError("Valhalla API error: " + Interpolate(t.message), details, requestId, now))
      else if t.name == Some("ValidationError") then
        // `new Error(undefined)` has the empty message
        var details := if t.issues.Some? then Issues(t.issues.value) else t.details;
        ToResponse(NewValidationError(t.message.GetOr(""), details, requestId, now))
      else
        ToResponse(NewStandardError(
          OrElse(t.message, UnexpectedMessage), Internal, InternalDetails(t.name, t.stack), requestId, now))
  }

  // Properties of the codes and the error classes

  /** Distinct codes have distinct numbers; client codes are 4xx and the others 5xx. */
  lemma CodeValuesDistinct(a: ErrorCode, b: ErrorCode)
    ensures CodeValue(a) == CodeValue(b) ==> a == b
    ensures 400 <= CodeValue(a) < 600
    ensures CodeValue(a) < 500 <==> a in {ValidationFailed, Unauthorized, Forbidden, NotFound, RateLimited}
  {
  }

  /** Each subclass fixes its code and its name; the two defaulted messages. */
  lemma SubclassCodes(message: string, details: Details, requestId: Option<string>, now: int)
    ensures CodeValue(NewValidationError(message, details, requestId, now).code) == 400
    ensures CodeValue(NewValhallaError(message, details, requestId, now).code) == 520
    ensures CodeValue(NewValhallaTimeoutError(Some(message), details, requestId, now).code) == 521
    ensures CodeValue(NewRateLimitError(Some(message), details, requestId, now).code) == 429
    ensures NewValhallaTimeoutError(None, details, requestId, now).message == "Valhalla service timeout"
    ensures NewRateLimitError(None, details, requestId, now).message == "Rate limit exceeded"
    ensures NewStandardError(message, Internal, details, requestId, now).name == "StandardError"
  {
  }

  /** `toResponse` loses nothing: the error can be read back from its response. */
  lemma ToResponseFaithful(e: StandardError, f: StandardError)
    ensures ToResponse(e) == ToResponse(f) <==> e == f
  {
  }

  // Properties of the classifier

  /** A `StandardError` is answered by its own response: its request id wins over the argument. */
  lemma StandardPassesThrough(e: StandardError, requestId: Option<string>, now: int)
    ensures HandleError(Standard(e), requestId, now) == ToResponse(e)
    ensures HandleError(Standard(e), requestId, now).requestId == e.requestId
  {
  }

  /** Every remote failure is a 520 or 521 that carries the remote details and the caller's request id. */
  lemma RemoteFailuresCarryDetails(t: Thrown, requestId: Option<string>, now: int)
    requires t.isAxiosError
    ensures var r := HandleError(Foreign(t), requestId, now);
      && r.details == Remote(RemoteInfoOf(t))
      && (r.code == ValhallaTimeout || r.code == ValhallaFailed)
      && r.requestId == requestId && r.timestamp == now
  {
  }

  /** A connection abort or timeout is a 521, whatever the status; the timeout test comes first. */
  lemma RemoteTimeout(t: Thrown, requestId: Option<string>, now: int)
    requires t.isAxiosError
    ensures var r := HandleError(Foreign(t), requestId, now);
      (r.code == ValhallaTimeout <==> IsTimeoutCode(t.code))
      && (IsTimeoutCode(t.code) ==> r.message == TimeoutMessage && r.error == "ValhallaTimeoutError")
  {
  }

  /** A 5xx status that is not a timeout is a 520 "service error" naming the status text. */
  lemma RemoteServerError(t: Thrown, requestId: Option<string>, now: int)
    requires t.isAxiosError && !IsTimeoutCode(t.code)
    requires t.response.Some? && t.response.value.status.Some? && t.response.value.status.value >= 500
    ensures var r := HandleError(Foreign(t), requestId, now);
      && r.code == ValhallaFailed && r.error == "ValhallaError"
      && r.message == "Valhalla service error: " + OrElse(t.response.value.statusText, "Unknown error")
  {
  }

  /** Any other remote failure is a 520 "API error" quoting the thrown message. */
  lemma RemoteApiError(t: Thrown, requestId: Option<string>, now: int)
    requires t.isAxiosError && !IsTimeoutCode(t.code)
    requires t.response.None? || t.response.value.status.None? || t.response.value.status.value < 500
    ensures var r := HandleError(Foreign(t), requestId, now);
      && r.code == ValhallaFailed && r.error == "ValhallaError"
      && r.message == "Valhalla API error: " + Interpolate(t.message)
  {
  }

  /** A non-remote error named "ValidationError" is a 400 whose details are its issues, or else its details. */
  lemma NamedValidationError(t: Thrown, requestId: Option<string>, now: int)
    requires !t.isAxiosError && t.name == Some("ValidationError")
    ensures var r := HandleError(Foreign(t), requestId, now);
      && r.code == ValidationFailed && r.error == "ValidationError"
      && r.message == (if t.message.Some? then t.message.value else "")
      && r.details == (if t.issues.Some? then Issues(t.issues.value) else t.details)
  {
  }

  /** Anything else is a 500 with its message or the generic one, and its name and stack as details. */
  lemma UnexpectedError(t: Thrown, requestId: Option<string>, now: int)
    requires !t.isAxiosError && t.name != Some("ValidationError")
    ensures var r := HandleError(Foreign(t), requestId, now);
      && r.code == Internal && r.error == "StandardError"
      && (Truthy(t.message) ==> r.message == t.message.value)
      && (!Truthy(t.message) ==> r.message == UnexpectedMessage)
      && r.details == InternalDetails(t.name, t.stack)
  {
  }
}

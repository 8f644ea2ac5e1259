// The Express error middleware: delegation once headers are out, then a
// fixed priority from validation errors (400) through auth errors (403) and
// errors carrying a status to the generic 500; the 404 for unknown routes;
// the error factory; and the wrapper that forwards a rejected handler to
// `next`. The environment flag is a parameter.
module ErrorHandler {
  import opened Wrappers
  import opened Text

  /** One segment of a Zod issue path: an object key or an array index. */
  datatype PathSegment = Key(name: string) | Index(position: nat)

  datatype ZodIssue = ZodIssue(path: seq<PathSegment>, message: string, code: string)

  /** The error reaching the middleware: a Zod validation error, or any other error. */
  datatype AppError =
    | ZodFailure(issues: seq<ZodIssue>)
    | ApiError(message: string, code: Option<string>, statusCode: Option<int>, stack: string)

  datatype FieldError = FieldError(field: string, message: string, code: string)

  datatype Body =
    | ValidationBody(message: string, errors: seq<FieldError>)
    | AuthBody(message: string, code: string)
    | MessageBody(message: string)
    | ServerBody(message: string, stack: Option<string>, details: Option<string>)

  /** What the middleware does: hand the error to Express's own handler, or answer with JSON. */
  datatype Reply = Delegated(error: AppError) | Json(status: int, body: Body)

  function SegmentText(s: PathSegment): string
  {
    match s
    case Key(name) => name
    case Index(position) => NatToString(position)
  }

  function SegmentTexts(path: seq<PathSegment>): (r: seq<string>)
    ensures |r| == |path|
    ensures forall i :: 0 <= i < |path| ==> r[i] == SegmentText(path[i])
  {
    if |path| == 0 then [] else [SegmentText(path[0])] + SegmentTexts(path[1..])
  }

  /** `err.path.join('.')`. */
  function FieldName(path: seq<PathSegment>): string
  {
    Join(SegmentTexts(path), '.')
  }

  function FieldErrors(issues: seq<ZodIssue>): (r: seq<FieldError>)
    ensures |r| == |issues|
    ensures forall i :: 0 <= i < |issues| ==>
              r[i] == FieldError(FieldName(issues[i].path), issues[i].message, issues[i].code)
  {
    if |issues| == 0 then []
    else [FieldError(FieldName(issues[0].path), issues[0].message, issues[0].code)] + FieldErrors(issues[1..])
  }

  /** `code?.startsWith('auth/')`. */
  predicate AuthCode(e: AppError)
  {
    e.ApiError? && e.code.Some? && |e.code.value| >= 5 && e.code.value[..5] == "auth/"
  }

  /** A truthy `statusCode`: present and not 0. */
  predicate CarriesStatus(e: AppError)
  {
    e.ApiError? && e.statusCode.Some? && e.statusCode.value != 0
  }

  /**
   * `errorHandler`. Headers already sent: the error goes to `next` and nothing is written.
   * Otherwise, in this order: a Zod error is a 400 listing one entry per issue; an 'auth/' code
   * is a 403; a status code is answered with itself and the message (or a stock one); anything
   * else is a 500 that carries the stack and message only in development.
   */
  function HandleError(error: AppError, headersSent: bool, development: bool): (r: Reply)
    ensures headersSent <==> r.Delegated?
    ensures r.Delegated? ==> r.error == error
    ensures !headersSent && error.ZodFailure? ==>
              && r.Json? && r.status == 400 && r.body.ValidationBody? && r.body.message == "Invalid input data."
              && |r.body.errors| == |error.issues|
              && forall i :: 0 <= i < |error.issues| ==>
                   r.body.errors[i] == FieldError(FieldName(error.issues[i].path), error.issues[i].message, error.issues[i].code)
    ensures !headersSent && AuthCode(error) ==> r == Json(403, AuthBody("Invalid or expired token.", error.code.value))
    ensures !headersSent && error.ApiError? && !AuthCode(error) && CarriesStatus(error) ==>
              r == Json(error.statusCode.value, MessageBody(if error.message == "" then "An error occurred" else error.message))
    ensures !headersSent && error.ApiError? && !AuthCode(error) && !CarriesStatus(error) ==>
              && r.Json? && r.status == 500 && r.body.ServerBody? && r.body.message == "Internal server error."
              && (r.body.details.Some? <==> development) && (development ==> r.body.details == Some(error.message))
              && (r.body.stack.Some? <==> development) && (development ==> r.body.stack == Some(error.stack))
  {
    if headersSent then Delegated(error)
    else if error.ZodFailure? then Json(400, ValidationBody("Invalid input data.", FieldErrors(error.issues)))
    else if AuthCode(error) then Json(403, AuthBody("Invalid or expired token.", error.code.value))
    else if CarriesStatus(error) then
      Json(error.statusCode.value, MessageBody(if error.message == "" then "An error occurred" else error.message))
    else if development then Json(500, ServerBody("Internal server error.", Some(error.stack), Some(error.message)))
    else Json(500, ServerBody("Internal server error.", None, None))
  }

  /** A reply written by the middleware has one of the fixed statuses or the error's own. */
  lemma StatusOrigin(error: AppError, development: bool)
    ensures var r := HandleError(error, false, development);
            r.Json? && (r.status in {400, 403, 500} || (CarriesStatus(error) && r.status == error.statusCode.value))
  {
  }

  /** A field path of keys free of '.' is recovered from the reported field name. */
  lemma FieldNameRoundTrip(keys: seq<string>)
    requires |keys| >= 1 && forall k :: 0 <= k < |keys| ==> Free(keys[k], '.')
    ensures Split(FieldName(KeyPath(keys)), '.') == keys
  {
    assert SegmentTexts(KeyPath(keys)) == keys;
    SplitJoin(keys, '.');
  }

  /** A path made of object keys. */
  function KeyPath(keys: seq<string>): (r: seq<PathSegment>)
    ensures |r| == |keys| && forall i :: 0 <= i < |keys| ==> r[i] == Key(keys[i])
  {
    if |keys| == 0 then [] else [Key(keys[0])] + KeyPath(keys[1..])
  }

  /** `createError(message, statusCode)`: an error with that message and status and no code. */
  function CreateError(message: string, statusCode: int, stack: string): (e: AppError)
    ensures e.ApiError? && e.message == message && e.statusCode == Some(statusCode) && e.code.None?
  {
    ApiError(message, None, Some(statusCode), stack)
  }

  /** An error from `createError` with a non-zero status is answered with that status and its message. */
  lemma CreatedErrorAnswered(message: string, statusCode: int, stack: string, development: bool)
    requires statusCode != 0 && message != ""
    ensures HandleError(CreateError(message, statusCode, stack), false, development) == Json(statusCode, MessageBody(message))
  {
  }

  /** `notFoundHandler`: always 404, naming the method and the original URL. */
  function NotFound(httpMethod: string, originalUrl: string): (r: Reply)
    ensures r.Json? && r.status == 404 && r.body.MessageBody?
    ensures Contains(r.body.message, httpMethod) && Contains(r.body.message, originalUrl)
  {
    var tail := " " + originalUrl + " not found.";
    ContainsSuffix("Route ", httpMethod);
    ContainsAppend("Route " + httpMethod, httpMethod, tail);
    ContainsConcat("Route " + httpMethod, " " + originalUrl, " not found.");
    ContainsSuffix(" ", originalUrl);
    ContainsAppend(" " + originalUrl, originalUrl, " not found.");
    ContainsPrepend("Route " + httpMethod, tail, originalUrl);
    Json(404, MessageBody("Route " + httpMethod + tail))
  }

  /** How the wrapped handler's promise settles. */
  datatype Settled = Resolved | Rejected(reason: AppError)

  /** `asyncHandler`: a rejection is passed to `next`; a resolved handler passes nothing on. */
  function AsyncHandler(outcome: Settled): (forwarded: Option<AppError>)
    ensures forwarded.Some? <==> outcome.Rejected?
    ensures outcome.Rejected? ==> forwarded == Some(outcome.reason)
  {
    if outcome.Rejected? then Some(outcome.reason) else None
  }
}

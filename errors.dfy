/** The error taxonomy of the HTTP layer: `AppError` and its five subclasses,
    and the mappers that turn zod issues, Postgres error codes and
    jsonwebtoken error names into response envelopes. */
module Errors {
  import opened Wrappers
  import opened Strings

  /** An `AppError`: message, HTTP status, the operational flag, optional machine code. */
  datatype AppError = AppError(message: string, statusCode: int, isOperational: bool, code: Option<string>)

  /** `new AppError(message, statusCode?, code?)`; an omitted status is 500. */
  function NewAppError(message: string, statusCode: Option<int>, code: Option<string>): (e: AppError)
    ensures e.isOperational
    ensures statusCode.None? ==> e.statusCode == 500
    ensures statusCode.Some? ==> e.statusCode == statusCode.value
    ensures e.message == message && e.code == code
  {
    AppError(message, statusCode.GetOr(500), true, code)
  }

  /** `new ValidationError(message, code?)`: status 400; an omitted or empty
      code (falsy in `code || ...`) becomes "VALIDATION_ERROR". */
  function ValidationError(message: string, code: Option<string>): (e: AppError)
    ensures e.statusCode == 400 && e.isOperational && e.message == message
    ensures code.Some? && code.value != "" ==> e.code == code
    ensures code.None? || code.value == "" ==> e.code == Some("VALIDATION_ERROR")
  {
    NewAppError(message, Some(400), Some(if code.Some? && code.value != "" then code.value else "VALIDATION_ERROR"))
  }

  /** `new AuthenticationError(message?)`: status 401, code "AUTH_ERROR". */
  function AuthenticationError(message: Option<string>): (e: AppError)
    ensures e.statusCode == 401 && e.isOperational && e.code == Some("AUTH_ERROR")
    ensures e.message == message.GetOr("Authentication required")
  {
    NewAppError(message.GetOr("Authentication required"), Some(401), Some("AUTH_ERROR"))
  }

  /** `new AuthorizationError(message?)`: status 403, code "AUTHORIZATION_ERROR". */
  function AuthorizationError(message: Option<string>): (e: AppError)
    ensures e.statusCode == 403 && e.isOperational && e.code == Some("AUTHORIZATION_ERROR")
    ensures e.message == message.GetOr("Insufficient permissions")
  {
    NewAppError(message.GetOr("Insufficient permissions"), Some(403), Some("AUTHORIZATION_ERROR"))
  }

  /** `new NotFoundError(message?)`: status 404, code "NOT_FOUND". */
  function NotFoundError(message: Option<string>): (e: AppError)
    ensures e.statusCode == 404 && e.isOperational && e.code == Some("NOT_FOUND")
    ensures e.message == message.GetOr("Resource not found")
  {
    NewAppError(message.GetOr("Resource not found"), Some(404), Some("NOT_FOUND"))
  }

  /** `new ConflictError(message)`: status 409, code "CONFLICT". */
  function ConflictError(message: string): (e: AppError)
    ensures e.statusCode == 409 && e.isOperational && e.code == Some("CONFLICT") && e.message == message
  {
    NewAppError(message, Some(409), Some("CONFLICT"))
  }

  /** The five subclasses, for stating properties of the family. */
  datatype ErrorClass = ValidationClass | AuthenticationClass | AuthorizationClass | NotFoundClass | ConflictClass

  function Raise(c: ErrorClass, message: string): AppError {
    match c
    case ValidationClass => ValidationError(message, None)
    case AuthenticationClass => AuthenticationError(Some(message))
    case AuthorizationClass => AuthorizationError(Some(message))
    case NotFoundClass => NotFoundError(Some(message))
    case ConflictClass => ConflictError(message)
  }

  /** Every subclass is an operational client error (4xx) with a code, and
      the status alone tells which subclass was raised. */
  lemma SubclassStatusIdentifiesClass(c1: ErrorClass, c2: ErrorClass, m1: string, m2: string)
    ensures 400 <= Raise(c1, m1).statusCode < 500
    ensures Raise(c1, m1).isOperational && Raise(c1, m1).code.Some?
    ensures Raise(c1, m1).statusCode == Raise(c2, m2).statusCode ==> c1 == c2
  {
  }

  // ---------------------------------------------------------------- response envelopes

  /** One entry of a validation failure's `details`. */
  datatype Detail = Detail(field: string, message: string, code: string)

  /** The JSON body of an error response. */
  datatype ErrorResponse = ErrorResponse(error: string, code: string, details: Option<seq<Detail>>)

  /** A segment of a zod issue path: an object key or an array index. */
  datatype PathSegment = Key(name: string) | Index(i: nat)

  datatype ZodIssue = ZodIssue(path: seq<PathSegment>, message: string, code: string)

  /** `String(segment)` as `Array.prototype.join` renders it. */
  function SegmentText(p: PathSegment): string {
    match p
    case Key(k) => k
    case Index(i) => NatToString(i)
  }

  function SegmentTexts(path: seq<PathSegment>): (r: seq<string>)
    ensures |r| == |path|
    ensures forall i :: 0 <= i < |path| ==> r[i] == SegmentText(path[i])
  {
    if |path| == 0 then [] else [SegmentText(path[0])] + SegmentTexts(path[1..])
  }

  /** `err.path.join('.')` */
  function FieldName(path: seq<PathSegment>): string {
    Join(SegmentTexts(path), '.')
  }

  /** A field name determines its path segments when no key holds a '.'. */
  lemma FieldNameRecoversPath(path: seq<PathSegment>)
    requires |path| >= 1
    requires forall i :: 0 <= i < |path| ==> path[i].Key? ==> '.' !in path[i].name
    ensures Split(FieldName(path), '.') == SegmentTexts(path)
  {
    var ts := SegmentTexts(path);
    forall i | 0 <= i < |ts| ensures '.' !in ts[i] {
      if path[i].Index? {
        var d := NatToString(path[i].i);
        assert forall j :: 0 <= j < |d| ==> IsDigit(d[j]);
      }
    }
    SplitJoin(ts, '.');
  }

  function IssueDetails(issues: seq<ZodIssue>): (r: seq<Detail>)
    ensures |r| == |issues|
    ensures forall i :: 0 <= i < |issues| ==>
      r[i] == Detail(FieldName(issues[i].path), issues[i].message, issues[i].code)
  {
    if |issues| == 0 then []
    else [Detail(FieldName(issues[0].path), issues[0].message, issues[0].code)] + IssueDetails(issues[1..])
  }

  /** `handleZodError`: one detail per issue in the same order. */
  function HandleZodError(issues: seq<ZodIssue>): (r: ErrorResponse)
    ensures r.error == "Validation failed" && r.code == "VALIDATION_ERROR"
    ensures r.details.Some? && |r.details.value| == |issues|
    ensures forall i :: 0 <= i < |issues| ==>
      r.details.value[i].field == FieldName(issues[i].path) &&
      r.details.value[i].message == issues[i].message &&
      r.details.value[i].code == issues[i].code
  {
    ErrorResponse("Validation failed", "VALIDATION_ERROR", Some(IssueDetails(issues)))
  }

  /** The Postgres SQLSTATE codes the handler recognises. */
  const KnownPgCodes: seq<string> := ["23505", "23503", "23502", "22001", "08006"]

  /** `handleDatabaseError`: total over every `error.code`, including a missing one. */
  function HandleDatabaseError(pgCode: Option<string>): (r: ErrorResponse)
    ensures r.details.None?
    ensures r.code == "DATABASE_ERROR" <==> pgCode.None? || pgCode.value !in KnownPgCodes
    ensures pgCode == Some("23505") ==> r == ErrorResponse("Resource already exists", "DUPLICATE_ENTRY", None)
    ensures pgCode == Some("23503") ==> r == ErrorResponse("Referenced resource does not exist", "FOREIGN_KEY_VIOLATION", None)
    ensures pgCode == Some("23502") ==> r == ErrorResponse("Required field is missing", "REQUIRED_FIELD_MISSING", None)
    ensures pgCode == Some("22001") ==> r == ErrorResponse("Data too long for field", "DATA_TOO_LONG", None)
    ensures pgCode == Some("08006") ==> r == ErrorResponse("Database connection failed", "DATABASE_CONNECTION_ERROR", None)
  {
    match pgCode
    case Some("23505") => ErrorResponse("Resource already exists", "DUPLICATE_ENTRY", None)
    case Some("23503") => ErrorResponse("Referenced resource does not exist", "FOREIGN_KEY_VIOLATION", None)
    case Some("23502") => ErrorResponse("Required field is missing", "REQUIRED_FIELD_MISSING", None)
    case Some("22001") => ErrorResponse("Data too long for field", "DATA_TOO_LONG", None)
    case Some("08006") => ErrorResponse("Database connection failed", "DATABASE_CONNECTION_ERROR", None)
    case _ => ErrorResponse("Database operation failed", "DATABASE_ERROR", None)
  }

  /** Different recognised SQLSTATE codes reach the client as different codes. */
  lemma DatabaseCodesDistinct(a: string, b: string)
    requires a in KnownPgCodes && b in KnownPgCodes && a != b
    ensures HandleDatabaseError(Some(a)).code != HandleDatabaseError(Some(b)).code
  {
  }

  /** The jsonwebtoken error names the handler recognises. */
  const KnownJwtErrors: seq<string> := ["JsonWebTokenError", "TokenExpiredError", "NotBeforeError"]

  /** `handleJWTError`: total over every `error.name`. */
  function HandleJwtError(name: Option<string>): (r: ErrorResponse)
    ensures r.details.None?
    ensures r.code == "TOKEN_ERROR" <==> name.None? || name.value !in KnownJwtErrors
    ensures name == Some("JsonWebTokenError") ==> r == ErrorResponse("Invalid token", "INVALID_TOKEN", None)
    ensures name == Some("TokenExpiredError") ==> r == ErrorResponse("Token expired", "TOKEN_EXPIRED", None)
    ensures name == Some("NotBeforeError") ==> r == ErrorResponse("Token not active yet", "TOKEN_NOT_ACTIVE", None)
  {
    match name
    case Some("JsonWebTokenError") => ErrorResponse("Invalid token", "INVALID_TOKEN", None)
    case Some("TokenExpiredError") => ErrorResponse("Token expired", "TOKEN_EXPIRED", None)
    case Some("NotBeforeError") => ErrorResponse("Token not active yet", "TOKEN_NOT_ACTIVE", None)
    case _ => ErrorResponse("Token verification failed", "TOKEN_ERROR", None)
  }
}

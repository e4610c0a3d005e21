/**
 * The application shell: the CORS origin callback over the comma-separated
 * `CORS_ORIGIN` list, and the final error handler that turns any thrown error into a
 * JSON response.
 */
module App {
  import opened Js
  import opened Jwt
  import opened AuthMiddleware
  import opened AdminMiddleware
  import opened Multer
  import opened UserModel

  /** What the origin callback passes to `cors`: `(null, true)` or an error. */
  datatype CorsDecision = Allow | Refuse(error: Thrown)

  const NotAllowed := "Not allowed by CORS"

  /** A list of origins that `join(",")` can write as `CORS_ORIGIN`: at least one, none with a comma. */
  predicate Entries(entries: seq<string>) {
    |entries| >= 1 && forall i :: 0 <= i < |entries| ==> ',' !in entries[i]
  }

  /** Splitting a list written with commas gives back its entries. */
  lemma SplitListed(corsOrigin: string)
    ensures forall entries :: Entries(entries) && Join(entries, ',') == corsOrigin ==> Split(corsOrigin, ',') == entries
  {
    forall entries | Entries(entries) && Join(entries, ',') == corsOrigin
      ensures Split(corsOrigin, ',') == entries
    {
      SplitJoin(entries, ',');
    }
  }

  /**
   * The origin callback. Whatever entries the configured list is written from, a
   * falsy origin or one equal to an entry is allowed and any other origin is refused.
   * Every string is such a list (`JoinSplit`), so this decides every call.
   */
  function CorsOrigin(origin: Option<string>, corsOrigin: string): (r: CorsDecision)
    ensures !TruthyStr(origin) ==> r.Allow?
    ensures forall entries :: Entries(entries) && Join(entries, ',') == corsOrigin ==>
      (r.Allow? <==> !TruthyStr(origin) || origin.value in entries)
    ensures r.Refuse? ==> r.error == LibraryError("Error", None, None, NotAllowed)
  {
    SplitListed(corsOrigin);
    if !TruthyStr(origin) || origin.value in Split(corsOrigin, ',') then Allow
    else Refuse(LibraryError("Error", None, None, NotAllowed))
  }

  /** Entries are not trimmed: after ", " the second origin is not allowed. */
  lemma SpacedListRefusesSecond(first: string, second: string)
    requires ',' !in first && ',' !in second && second != "" && first != second
    ensures CorsOrigin(Some(second), first + ", " + second).Refuse?
  {
    assert first + ", " + second == first + [','] + (" " + second);
    SplitAtFirst(first, ',', " " + second);
    SplitNoSeparator(" " + second, ',');
    assert |" " + second| != |second|;
  }

  /** The JSON body of an error response. */
  datatype ErrorBody = ErrorBody(success: bool, message: string, errors: seq<string>, stack: Option<string>)

  /**
   * The error handler: status `err.statusCode || 500`, message `err.message ||
   * "Internal Server Error"`, `errors` defaulting to [], and the stack only in
   * development. `errors` and `stack` are the error's own properties. An `ApiError`
   * keeps its code exactly when the class stores it in `statusCode`; a library error
   * without a `statusCode` (cast, validation, JWT, CORS) answers 500.
   */
  function ErrorResponse(e: Thrown, shape: ApiErrorShape, errors: Option<seq<string>>, stack: string,
                         nodeEnv: Option<string>): (r: (int, ErrorBody))
    ensures r.0 != 0
    ensures e.ApiError? && e.code != 0 ==> r.0 == (if shape.setsStatusCode then e.code else 500)
    ensures e.LibraryError? && e.statusCode.None? ==> r.0 == 500
    ensures !r.1.success
    ensures r.1.message != "" && (e.message != "" ==> r.1.message == e.message)
    ensures errors.Some? ==> r.1.errors == errors.value
    ensures errors.None? ==> r.1.errors == []
    ensures r.1.stack.Some? <==> nodeEnv == Some("development")
    ensures r.1.stack.Some? ==> r.1.stack.value == stack
  {
    (OrInt(StatusCodeOf(e, shape), 500),
     ErrorBody(false, if e.message != "" then e.message else "Internal Server Error", errors.GetOr([]),
               if nodeEnv == Some("development") then Some(stack) else None))
  }

  /**
   * With an `ApiError` that stores its code only in `statusCode`, an admin route
   * without a token, or with a non-admin token, answers 500 with the original message.
   */
  lemma AdminRefusalsAnswer500(authorization: Option<string>, cookie: Option<string>, verify: string -> Verdict,
                               shape: ApiErrorShape, errors: Option<seq<string>>, stack: string,
                               nodeEnv: Option<string>)
    requires shape.setsStatusCode && !shape.setsStatus
    requires shape.name != "TokenExpiredError" && shape.name != "JsonWebTokenError"
    ensures var token := ExtractToken(authorization, cookie);
      var gate := IsAdmin(authorization, cookie, verify, shape);
      (!TruthyStr(token) || (verify(token.value).Decoded? && verify(token.value).role != Some("admin"))) ==>
        gate.Deny? && ErrorResponse(gate.error, shape, errors, stack, nodeEnv).0 == 500
  {
    OwnErrorsRemapped(authorization, cookie, verify, shape);
  }

  /** `verifyJWT`'s missing-token error, thrown outside its `try`, answers 401 under such an `ApiError`. */
  lemma SignedInRefusalAnswers401(authorization: Option<string>, cookie: Option<string>, verify: string -> Verdict,
                                  users: map<string, User>, shape: ApiErrorShape,
                                  errors: Option<seq<string>>, stack: string, nodeEnv: Option<string>)
    requires shape.setsStatusCode
    requires !TruthyStr(ExtractToken(authorization, cookie))
    ensures var gate := VerifyJwt(authorization, cookie, verify, users, shape);
      gate.Deny? && ErrorResponse(gate.error, shape, errors, stack, nodeEnv).0 == 401
  {
  }

  /** A file the upload filter refuses ends as a 500 carrying the filter's message. */
  lemma RefusedUploadAnswer(mimetype: string, originalname: string, shape: ApiErrorShape,
                            errors: Option<seq<string>>, stack: string, nodeEnv: Option<string>)
    requires FileFilter(mimetype, originalname).Reject?
    ensures var e := FileFilter(mimetype, originalname).error;
      ErrorResponse(e, shape, errors, stack, nodeEnv).0 == 500
      && ErrorResponse(e, shape, errors, stack, nodeEnv).1.message == OnlyImages
  {
  }
}

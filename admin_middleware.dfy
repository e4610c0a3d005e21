/**
 * `isAdmin`: the token is found as in `verifyJWT`, must verify and must carry the role
 * "admin". Everything runs inside one `try`, so the application's own errors are
 * caught and thrown again with the code taken from `error.status`.
 */
module AdminMiddleware {
  import opened Js
  import opened Jwt
  import opened AuthMiddleware

  const TokenNotFound := "Authorization token not found"
  const AdminsOnly := "Access denied. Admins only."
  const TokenExpired := "Token has expired, please log in again"
  const InvalidToken := "Invalid token"
  const InternalError := "Internal Server Error"

  /**
   * The `catch` of `isAdmin`: the two JWT errors by name, and any other error again with
   * the code from `error.status || 500`. An application `ApiError` therefore keeps its
   * code only if the class stores it in `status`; a library error without `status`
   * becomes 500. The message is kept unless it is empty.
   */
  function Rethrow(e: Thrown, shape: ApiErrorShape): (r: Thrown)
    ensures r.ApiError? && r.code != 0 && r.message != ""
    ensures NameOf(e, shape) == "TokenExpiredError" ==> r == ApiError(401, TokenExpired)
    ensures NameOf(e, shape) == "JsonWebTokenError" ==> r == ApiError(401, InvalidToken)
    ensures NameOf(e, shape) !in {"TokenExpiredError", "JsonWebTokenError"} ==>
      (e.message != "" ==> r.message == e.message)
      && (e.ApiError? && e.code != 0 ==> r.code == (if shape.setsStatus then e.code else 500))
      && (e.LibraryError? && e.status.None? ==> r.code == 500)
  {
    var name := NameOf(e, shape);
    if name == "TokenExpiredError" then ApiError(401, TokenExpired)
    else if name == "JsonWebTokenError" then ApiError(401, InvalidToken)
    else ApiError(OrInt(StatusOf(e, shape), 500), if e.message != "" then e.message else InternalError)
  }

  /** `isAdmin`; the principal is the decoded payload's role. */
  function IsAdmin(authorization: Option<string>, cookie: Option<string>, verify: string -> Verdict,
                   shape: ApiErrorShape): (r: Gate<string>)
    ensures var token := ExtractToken(authorization, cookie);
      r.Pass? <==> TruthyStr(token) && verify(token.value).Decoded? && verify(token.value).role == Some("admin")
    ensures r.Pass? ==> r.principal == "admin"
    ensures r.Deny? ==> r.error.ApiError?
  {
    var token := ExtractToken(authorization, cookie);
    if !TruthyStr(token) then Deny(Rethrow(ApiError(401, TokenNotFound), shape))
    else
      var v := verify(token.value);
      if !v.Decoded? then Deny(Rethrow(ErrorOf(v), shape))
      else if v.role != Some("admin") then Deny(Rethrow(ApiError(403, AdminsOnly), shape))
      else Pass("admin")
  }

  /**
   * The missing-token and non-admin errors keep their message, but their 401 and 403
   * survive only if `ApiError` stores the code in `status`; otherwise both become 500.
   */
  lemma OwnErrorsRemapped(authorization: Option<string>, cookie: Option<string>, verify: string -> Verdict,
                          shape: ApiErrorShape)
    requires shape.name != "TokenExpiredError" && shape.name != "JsonWebTokenError"
    ensures var token := ExtractToken(authorization, cookie);
      !TruthyStr(token) ==>
        IsAdmin(authorization, cookie, verify, shape)
          == Deny(ApiError(if shape.setsStatus then 401 else 500, TokenNotFound))
    ensures var token := ExtractToken(authorization, cookie);
      TruthyStr(token) && verify(token.value).Decoded? && verify(token.value).role != Some("admin") ==>
        IsAdmin(authorization, cookie, verify, shape)
          == Deny(ApiError(if shape.setsStatus then 403 else 500, AdminsOnly))
  {
  }

  /** An expired or malformed token is refused with 401; a token not yet active with 500. */
  lemma VerifyErrors(authorization: Option<string>, cookie: Option<string>, verify: string -> Verdict,
                     shape: ApiErrorShape)
    requires TruthyStr(ExtractToken(authorization, cookie))
    ensures var v := verify(ExtractToken(authorization, cookie).value);
      var r := IsAdmin(authorization, cookie, verify, shape);
      (v.Expired? ==> r == Deny(ApiError(401, TokenExpired)))
      && (v.Malformed? ==> r == Deny(ApiError(401, InvalidToken)))
      && (v.NotActive? ==> r == Deny(ApiError(500, "jwt not active")))
  {
  }
}

/**
 * `verifyJWT`: where the access token is looked for, and how a failed verification or
 * lookup is turned into the error the request is rejected with.
 */
module AuthMiddleware {
  import opened Js
  import opened Jwt
  import opened Mongo
  import opened UserModel

  /** `authorization?.split(" ")[1]`: the second space-separated piece of the header. */
  function HeaderToken(authorization: Option<string>): (r: Option<string>)
    ensures authorization.None? ==> r.None?
    ensures r.Some? ==> ' ' !in r.value
  {
    if authorization.None? then None
    else
      var parts := Split(authorization.value, ' ');
      if |parts| > 1 then Some(parts[1]) else None
  }

  /** The usual `Bearer <token>` header yields the token, whatever the scheme word is. */
  lemma HeaderTokenOfScheme(scheme: string, token: string)
    requires ' ' !in scheme && ' ' !in token
    ensures HeaderToken(Some(scheme + " " + token)) == Some(token)
  {
    assert scheme + " " + token == scheme + [' '] + token;
    SplitAtFirst(scheme, ' ', token);
    SplitNoSeparator(token, ' ');
  }

  /** With exactly one space in the header, its token is everything after that space. */
  lemma HeaderTokenAfterSpace(a: string)
    ensures forall i :: 0 <= i < |a| && a[i] == ' ' && ' ' !in a[..i] && ' ' !in a[i + 1..] ==>
      HeaderToken(Some(a)) == Some(a[i + 1..])
  {
    forall i | 0 <= i < |a| && a[i] == ' ' && ' ' !in a[..i] && ' ' !in a[i + 1..]
      ensures HeaderToken(Some(a)) == Some(a[i + 1..])
    {
      assert a == a[..i] + " " + a[i + 1..];
      HeaderTokenOfScheme(a[..i], a[i + 1..]);
    }
  }

  /** A header with no space in it has no second piece. */
  lemma BareHeaderNoToken(a: string)
    ensures ' ' !in a ==> HeaderToken(Some(a)).None?
  {
    if ' ' !in a {
      SplitNoSeparator(a, ' ');
    }
  }

  /**
   * `header?.split(" ")[1] || req.cookies.accessToken`: the token is a non-empty,
   * space-free piece of the header, or else the cookie. No header, or one without a
   * space, gives the cookie; `<scheme> <token>` gives the token when it is non-empty.
   */
  function ExtractToken(authorization: Option<string>, cookie: Option<string>): (r: Option<string>)
    ensures r == cookie || (r.Some? && r.value != "" && ' ' !in r.value)
    ensures authorization.None? ==> r == cookie
    ensures authorization.Some? && ' ' !in authorization.value ==> r == cookie
    ensures forall i :: authorization.Some? && 0 <= i < |authorization.value| && authorization.value[i] == ' '
                        && ' ' !in authorization.value[..i] && ' ' !in authorization.value[i + 1..] ==>
      r == (if i + 1 < |authorization.value| then Some(authorization.value[i + 1..]) else cookie)
  {
    if authorization.Some? then
      HeaderTokenAfterSpace(authorization.value);
      BareHeaderNoToken(authorization.value);
      OrStr(HeaderToken(authorization), cookie)
    else
      OrStr(HeaderToken(authorization), cookie)
  }

  /** What a middleware does with a request: call `next()` with a principal attached, or throw. */
  datatype Gate<P> = Pass(principal: P) | Deny(error: Thrown)

  const NoAccessToken := "Unauthorized request: No access token provided"
  const UserNotFound := "Unauthorized request: User not found"
  const AccessTokenExpired := "Access token expired"
  const InvalidAccessToken := "Invalid access token"
  const AccessForbidden := "Access forbidden"

  /** The `catch` of `verifyJWT`: the error's name alone decides the replacement error. */
  function Classify(e: Thrown, shape: ApiErrorShape): (r: Thrown)
    ensures r.ApiError? && (r.code == 401 || r.code == 403)
    ensures r.code == 401 <==> NameOf(e, shape) in {"TokenExpiredError", "JsonWebTokenError"}
  {
    var name := NameOf(e, shape);
    if name == "TokenExpiredError" then ApiError(401, AccessTokenExpired)
    else if name == "JsonWebTokenError" then ApiError(401, InvalidAccessToken)
    else ApiError(403, AccessForbidden)
  }

  /**
   * `verifyJWT`. `verify` is `jwt.verify` with the access secret; the principal is the
   * id of the user found for the token's `_id`.
   */
  function VerifyJwt(authorization: Option<string>, cookie: Option<string>, verify: string -> Verdict,
                     users: map<string, User>, shape: ApiErrorShape): (r: Gate<string>)
    ensures var token := ExtractToken(authorization, cookie);
      r.Pass? <==> TruthyStr(token) && verify(token.value).Decoded?
                   && FindById(users, verify(token.value).id).Found?
    ensures r.Pass? ==> r.principal in users
    ensures !TruthyStr(ExtractToken(authorization, cookie)) ==> r == Deny(ApiError(401, NoAccessToken))
    ensures r.Deny? ==> r.error.ApiError? && (r.error.code == 401 || r.error.code == 403)
  {
    var token := ExtractToken(authorization, cookie);
    if !TruthyStr(token) then Deny(ApiError(401, NoAccessToken))
    else
      match verify(token.value)
      case Decoded(id, _) =>
        (match FindById(users, id)
         case Found(_) => Pass(id.value)
         case Missing => Deny(Classify(ApiError(401, UserNotFound), shape))
         case CastFailure => Deny(Classify(CastError, shape)))
      case Expired => Deny(Classify(ErrorOf(Expired), shape))
      case Malformed(reason) => Deny(Classify(ErrorOf(Malformed(reason)), shape))
      case NotActive => Deny(Classify(ErrorOf(NotActive), shape))
  }

  /** An expired token is 401 "Access token expired", a malformed one 401 "Invalid access token". */
  lemma TokenErrors(authorization: Option<string>, cookie: Option<string>, verify: string -> Verdict,
                    users: map<string, User>, shape: ApiErrorShape)
    requires TruthyStr(ExtractToken(authorization, cookie))
    ensures var v := verify(ExtractToken(authorization, cookie).value);
      (v.Expired? ==> VerifyJwt(authorization, cookie, verify, users, shape) == Deny(ApiError(401, AccessTokenExpired)))
      && (v.Malformed? ==> VerifyJwt(authorization, cookie, verify, users, shape) == Deny(ApiError(401, InvalidAccessToken)))
  {
  }

  /**
   * A valid token whose user no longer exists is refused with 403, not with the 401 thrown
   * for it, unless `ApiError` is named like one of the two JWT errors.
   */
  lemma UnknownUserForbidden(authorization: Option<string>, cookie: Option<string>, verify: string -> Verdict,
                             users: map<string, User>, shape: ApiErrorShape)
    requires TruthyStr(ExtractToken(authorization, cookie))
    requires var v := verify(ExtractToken(authorization, cookie).value);
      v.Decoded? && FindById(users, v.id).Missing?
    requires shape.name != "TokenExpiredError" && shape.name != "JsonWebTokenError"
    ensures VerifyJwt(authorization, cookie, verify, users, shape) == Deny(ApiError(403, AccessForbidden))
  {
  }
}

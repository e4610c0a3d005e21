/** The outcome of `jsonwebtoken.verify`, an oracle here. */
module Jwt {
  import opened Js

  /**
   * A token verifies and decodes to its payload (`_id`, `role`), or `verify` throws one
   * of the library's three errors.
   */
  datatype Verdict =
    | Decoded(id: Option<string>, role: Option<string>)
    | Expired
    | Malformed(reason: string)
    | NotActive

  /** The error `jwt.verify` throws for a verdict other than `Decoded`. */
  function ErrorOf(v: Verdict): (e: Thrown)
    requires !v.Decoded?
    ensures e.LibraryError? && e.statusCode.None? && e.status.None?
    ensures e.name == "TokenExpiredError" <==> v.Expired?
    ensures e.name == "JsonWebTokenError" <==> v.Malformed?
  {
    match v
    case Expired => LibraryError("TokenExpiredError", None, None, "jwt expired")
    case Malformed(reason) => LibraryError("JsonWebTokenError", None, None, reason)
    case NotActive => LibraryError("NotBeforeError", None, None, "jwt not active")
  }
}

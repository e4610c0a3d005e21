/**
 * The user account handlers: registration, login, logout, refresh-token rotation, the
 * OTP lifecycle and password reset. Signed tokens, password checks, `jwt.verify`,
 * `Math.random` and the clock are parameters.
 */
module UserController {
  import opened Js
  import opened Jwt
  import opened Mongo
  import opened UserModel

  /** A user as the handlers return it: `.select("-password -refreshToken")`. */
  datatype PublicUser = PublicUser(
    fullName: Option<string>,
    email: string,
    username: Option<string>,
    otp: Option<string>,
    otpExpiry: Option<int>,
    cartData: Cart)

  function Public(u: User): PublicUser {
    PublicUser(u.fullName, u.email, u.username, u.otp, u.otpExpiry, u.cartData)
  }

  /** The body of a successful account response. */
  datatype AccountReply =
    | Registered(user: PublicUser, accessToken: string, refreshToken: string)
    | LoggedIn(user: PublicUser, accessToken: string, refreshToken: string)
    | Refreshed(accessToken: string, refreshToken: string)
    | Done

  const TokenFailure := "something went wrong while generating tokens"
  const AllFieldsRequired := "all field are required"
  const UsernameInUse := "This username is already taken"
  const EmailInUse := "This email is already registered"
  const IdentifierRequired := "username or email is required"
  const NoSuchUser := "user does not exist"
  const WrongPassword := "invalid Password"
  const NoRefreshToken := "unauthoriazed request"
  const InvalidRefreshToken := "Invalid refreshToken"
  const RefreshTokenExpired := "refreshToken expired"
  const EmailRequired := "Email is required"
  const UserNotFound := "User not found"
  const InvalidOtp := "Invalid OTP"
  const OtpExpired := "OTP expired"
  const ResetRefused := "user not found Or password not reset"

  // ---------------------------------------------------------------------------
  // Tokens

  /**
   * `generateAccessAndRefreshTokens`: store the new refresh token on the user and
   * return both tokens; an unknown user makes the method calls throw, reported as 500.
   */
  method GenerateTokens(users: Collection<User>, userId: string, access: string, refresh: string)
    returns (r: Outcome<AccountReply>)
    modifies users
    ensures userId !in old(users.docs) ==>
      r == Throw(ApiError(500, TokenFailure)) && users.docs == old(users.docs)
    ensures userId in old(users.docs) ==>
      r == Reply(200, Refreshed(access, refresh))
      && users.docs == old(users.docs)[userId := old(users.docs)[userId].(refreshToken := Some(refresh))]
  {
    if userId !in users.docs {
      return Throw(ApiError(500, TokenFailure));
    }
    var user := users.docs[userId];
    user := user.(refreshToken := Some(refresh));
    users.docs := users.docs[userId := user];
    r := Reply(200, Refreshed(access, refresh));
  }

  // ---------------------------------------------------------------------------
  // Registration and login

  predicate UsernameTaken(users: map<string, User>, username: string) {
    exists id :: id in users && users[id].username == Some(username)
  }

  predicate EmailTaken(users: map<string, User>, email: string) {
    exists id :: id in users && users[id].email == email
  }

  /** `[fullName, email, username, password].some(field => !field?.trim())` fails. */
  predicate AllFilled(fullName: Option<string>, email: Option<string>, username: Option<string>, password: Option<string>) {
    !Blank(fullName) && !Blank(email) && !Blank(username) && !Blank(password)
  }

  /** The record `User.create` stores for a registration. */
  function Registrant(fullName: string, email: string, username: string, password: string): User {
    User(Some(fullName), email, Some(username), Some(password), None, None, None, map[])
  }

  /** What `registerUser` decides before anything is written. */
  datatype Admission = Refuse(code: int, message: string) | Admit(user: User)

  /**
   * The checks of `registerUser`, in order: every field non-blank, then the username
   * free, then the email free.
   */
  function Registration(users: map<string, User>, fullName: Option<string>, email: Option<string>,
                        username: Option<string>, password: Option<string>): (r: Admission)
    ensures !AllFilled(fullName, email, username, password) ==> r == Refuse(400, AllFieldsRequired)
    ensures AllFilled(fullName, email, username, password) && UsernameTaken(users, username.value) ==>
      r == Refuse(409, UsernameInUse)
    ensures r.Admit? <==>
      AllFilled(fullName, email, username, password)
      && !UsernameTaken(users, username.value) && !EmailTaken(users, email.value)
    ensures r.Refuse? && r.code == 409 && r.message == EmailInUse ==> EmailTaken(users, email.value)
    ensures r.Admit? ==> r.user == Registrant(fullName.value, email.value, username.value, password.value)
  {
    if !AllFilled(fullName, email, username, password) then Refuse(400, AllFieldsRequired)
    else if UsernameTaken(users, username.value) then Refuse(409, UsernameInUse)
    else if EmailTaken(users, email.value) then Refuse(409, EmailInUse)
    else Admit(Registrant(fullName.value, email.value, username.value, password.value))
  }

  /** A registration never reuses an email or a username already stored. */
  lemma RegistrationKeepsUnique(users: map<string, User>, fullName: Option<string>, email: Option<string>,
                                username: Option<string>, password: Option<string>, id: string, refresh: string)
    requires id !in users
    requires Registration(users, fullName, email, username, password).Admit?
    ensures var u := Registration(users, fullName, email, username, password).user.(refreshToken := Some(refresh));
      (EmailsUnique(users) ==> EmailsUnique(users[id := u]))
      && (UsernamesUnique(users) ==> UsernamesUnique(users[id := u]))
  {
    var u := Registration(users, fullName, email, username, password).user.(refreshToken := Some(refresh));
    InsertKeepsUnique(users, id, u);
  }

  /**
   * `registerUser`: the new user gets the issued refresh token stored. The returned
   * user is the one read before the tokens were issued.
   */
  method RegisterUser(users: Collection<User>, fullName: Option<string>, email: Option<string>,
                      username: Option<string>, password: Option<string>,
                      newId: string, access: string, refresh: string)
    returns (r: Outcome<AccountReply>)
    requires IsObjectId(newId) && newId !in users.docs
    modifies users
    ensures match Registration(old(users.docs), fullName, email, username, password)
      case Refuse(code, message) =>
        r == Throw(ApiError(code, message)) && users.docs == old(users.docs)
      case Admit(created) =>
        r == Reply(201, Registered(Public(created), access, refresh))
        && users.docs == old(users.docs)[newId := created.(refreshToken := Some(refresh))]
    ensures EmailsUnique(old(users.docs)) ==> EmailsUnique(users.docs)
    ensures UsernamesUnique(old(users.docs)) ==> UsernamesUnique(users.docs)
  {
    var admission := Registration(users.docs, fullName, email, username, password);
    if admission.Refuse? {
      return Throw(ApiError(admission.code, admission.message));
    }
    RegistrationKeepsUnique(users.docs, fullName, email, username, password, newId, refresh);
    var created := admission.user;
    users.docs := users.docs[newId := created];
    var issued := GenerateTokens(users, newId, access, refresh);
    r := Reply(201, Registered(Public(created), access, refresh));
  }

  /** The `$or` filter of `loginUser`: the identifier is the user's username or email. */
  predicate Identifies(u: User, identifier: string) {
    u.username == Some(identifier) || u.email == identifier
  }

  /**
   * `loginUser`: `who` is the user `findOne` picks among those the identifier matches;
   * `passwordMatches` is `isPasswordCorrect`. Success stores the new refresh token.
   */
  method LoginUser(users: Collection<User>, identifier: Option<string>, password: Option<string>,
                   passwordMatches: (User, Option<string>) -> bool, access: string, refresh: string)
    returns (r: Outcome<AccountReply>, who: Option<string>)
    modifies users
    ensures !TruthyStr(identifier) ==>
      r == Throw(ApiError(400, IdentifierRequired)) && who.None? && users.docs == old(users.docs)
    ensures TruthyStr(identifier) && (forall id :: id in old(users.docs) ==> !Identifies(old(users.docs)[id], identifier.value)) ==>
      r == Throw(ApiError(404, NoSuchUser)) && who.None? && users.docs == old(users.docs)
    ensures who.Some? ==>
      TruthyStr(identifier) && who.value in old(users.docs) && Identifies(old(users.docs)[who.value], identifier.value)
      && if passwordMatches(old(users.docs)[who.value], password) then
           var updated := old(users.docs)[who.value].(refreshToken := Some(refresh));
           users.docs == old(users.docs)[who.value := updated]
           && r == Reply(200, LoggedIn(Public(updated), access, refresh))
         else
           r == Throw(ApiError(401, WrongPassword)) && users.docs == old(users.docs)
    ensures TruthyStr(identifier) && (exists id :: id in old(users.docs) && Identifies(old(users.docs)[id], identifier.value)) ==>
      who.Some?
    ensures EmailsUnique(old(users.docs)) ==> EmailsUnique(users.docs)
    ensures UsernamesUnique(old(users.docs)) ==> UsernamesUnique(users.docs)
  {
    who := None;
    if !TruthyStr(identifier) {
      return Throw(ApiError(400, IdentifierRequired)), who;
    }
    if forall id :: id in users.docs ==> !Identifies(users.docs[id], identifier.value) {
      return Throw(ApiError(404, NoSuchUser)), who;
    }
    var id :| id in users.docs && Identifies(users.docs[id], identifier.value);
    who := Some(id);
    if !passwordMatches(users.docs[id], password) {
      return Throw(ApiError(401, WrongPassword)), who;
    }
    var issued := GenerateTokens(users, id, access, refresh);
    r := Reply(200, LoggedIn(Public(users.docs[id]), access, refresh));
  }

  /** `logoutUser`: `$unset` the caller's refresh token. */
  method LogoutUser(users: Collection<User>, userId: string) returns (r: Outcome<AccountReply>)
    modifies users
    ensures r == Reply(200, Done)
    ensures userId in old(users.docs) ==>
      users.docs == old(users.docs)[userId := old(users.docs)[userId].(refreshToken := None)]
    ensures userId !in old(users.docs) ==> users.docs == old(users.docs)
    ensures EmailsUnique(old(users.docs)) ==> EmailsUnique(users.docs)
    ensures UsernamesUnique(old(users.docs)) ==> UsernamesUnique(users.docs)
  {
    if userId in users.docs {
      users.docs := users.docs[userId := users.docs[userId].(refreshToken := None)];
    }
    r := Reply(200, Done);
  }

  // ---------------------------------------------------------------------------
  // Refresh

  /** What the `try` of `refreshAccessToken` decides: whose token it is, or the message thrown. */
  datatype RefreshCheck = Holder(id: string) | Refused(message: string)

  /** The checks inside the `try`: the token verifies, names a stored user, and is that user's stored token. */
  function CheckRefresh(users: map<string, User>, token: string, verify: string -> Verdict): (r: RefreshCheck)
    ensures r.Holder? <==>
      verify(token).Decoded? && FindById(users, verify(token).id).Found?
      && FindById(users, verify(token).id).doc.refreshToken == Some(token)
    ensures r.Holder? ==> r.id in users && users[r.id].refreshToken == Some(token)
  {
    match verify(token)
    case Decoded(id, _) =>
      (match FindById(users, id)
       case Found(u) => if Some(token) == u.refreshToken then Holder(id.value) else Refused(RefreshTokenExpired)
       case Missing => Refused(InvalidRefreshToken)
       case CastFailure => Refused(CastError.message))
    case Expired => Refused(ErrorOf(Expired).message)
    case Malformed(reason) => Refused(ErrorOf(Malformed(reason)).message)
    case NotActive => Refused(ErrorOf(NotActive).message)
  }

  /** A user with no stored refresh token, for instance after logout, can refresh with no token at all. */
  lemma NoStoredTokenNoRefresh(users: map<string, User>, token: string, verify: string -> Verdict, id: string)
    requires id in users && users[id].refreshToken.None?
    ensures CheckRefresh(users, token, verify) != Holder(id)
  {
  }

  /**
   * `refreshAccessToken`: the cookie token, else the body token. Every failure inside
   * the `try`, the two 402s included, is thrown again as 401 with its message; success
   * rotates the stored token.
   */
  method RefreshAccessToken(users: Collection<User>, cookieToken: Option<string>, bodyToken: Option<string>,
                            verify: string -> Verdict, access: string, refresh: string)
    returns (r: Outcome<AccountReply>)
    modifies users
    ensures var incoming := OrStr(cookieToken, bodyToken);
      !TruthyStr(incoming) ==> r == Throw(ApiError(401, NoRefreshToken)) && users.docs == old(users.docs)
    ensures var incoming := OrStr(cookieToken, bodyToken);
      TruthyStr(incoming) ==>
        match CheckRefresh(old(users.docs), incoming.value, verify)
        case Holder(id) =>
          r == Reply(200, Refreshed(access, refresh))
          && users.docs == old(users.docs)[id := old(users.docs)[id].(refreshToken := Some(refresh))]
        case Refused(m) =>
          r == Throw(ApiError(401, if m != "" then m else InvalidRefreshToken)) && users.docs == old(users.docs)
    ensures r.Throw? ==> r.error.ApiError? && r.error.code == 401
    ensures EmailsUnique(old(users.docs)) ==> EmailsUnique(users.docs)
    ensures UsernamesUnique(old(users.docs)) ==> UsernamesUnique(users.docs)
  {
    var incoming := OrStr(cookieToken, bodyToken);
    if !TruthyStr(incoming) {
      return Throw(ApiError(401, NoRefreshToken));
    }
    var check := CheckRefresh(users.docs, incoming.value, verify);
    match check
    case Refused(m) =>
      r := Throw(ApiError(401, if m != "" then m else InvalidRefreshToken));
    case Holder(id) =>
      r := GenerateTokens(users, id, access, refresh);
  }

  // ---------------------------------------------------------------------------
  // One-time passwords

  const OtpLifetime := 120000

  /** `Math.floor(100000 + Math.random() * 900000)` for a `Math.random()` result in [0, 1). */
  function OtpValue(random: real): int
    requires 0.0 <= random < 1.0
  {
    (100000.0 + random * 900000.0).Floor
  }

  /** The OTP as stored and mailed: the decimal digits of `OtpValue`. */
  function OtpCode(random: real): string
    requires 0.0 <= random < 1.0
  {
    DecimalString(OtpValue(random) as nat)
  }

  /** Every OTP is a six-digit number from 100000 to 999999. */
  lemma OtpSixDigits(random: real)
    requires 0.0 <= random < 1.0
    ensures 100000 <= OtpValue(random) <= 999999
    ensures |OtpCode(random)| == 6
  {
    var x := 100000.0 + random * 900000.0;
    assert random * 900000.0 < 900000.0;
    assert 100000.0 <= x < 1000000.0;
    DecimalLength(OtpValue(random) as nat, 6);
  }

  /** Every six-digit number is the OTP for some random draw. */
  lemma EveryOtpReachable(n: int)
    requires 100000 <= n <= 999999
    ensures var random := (n - 100000) as real / 900000.0;
      0.0 <= random < 1.0 && OtpValue(random) == n
  {
    var random := (n - 100000) as real / 900000.0;
    assert random * 900000.0 == (n - 100000) as real;
  }

  /** The upserted record for an email nobody holds yet: only the email and the OTP fields. */
  function OtpHolder(email: string, otp: string, expiry: int): User {
    User(None, email, None, None, None, Some(otp), Some(expiry), map[])
  }

  /**
   * `generateOtp`: a fresh code valid for two minutes, set on the user with that email
   * or, through the upsert, on a new record holding only the email. `who` is the record
   * written.
   */
  method GenerateOtp(users: Collection<User>, email: Option<string>, random: real, now: int, newId: string)
    returns (r: Outcome<AccountReply>, who: Option<string>)
    requires 0.0 <= random < 1.0
    requires IsObjectId(newId) && newId !in users.docs
    modifies users
    ensures !TruthyStr(email) ==>
      r == Throw(ApiError(400, EmailRequired)) && who.None? && users.docs == old(users.docs)
    ensures TruthyStr(email) ==>
      r == Reply(200, Done) && who.Some?
      && if EmailTaken(old(users.docs), email.value) then
           who.value in old(users.docs) && old(users.docs)[who.value].email == email.value
           && users.docs == old(users.docs)[who.value :=
                old(users.docs)[who.value].(otp := Some(OtpCode(random)), otpExpiry := Some(now + OtpLifetime))]
         else
           who == Some(newId) && users.docs == old(users.docs)[newId := OtpHolder(email.value, OtpCode(random), now + OtpLifetime)]
    ensures EmailsUnique(old(users.docs)) ==> EmailsUnique(users.docs)
    ensures UsernamesUnique(old(users.docs)) ==> UsernamesUnique(users.docs)
  {
    who := None;
    if !TruthyStr(email) {
      return Throw(ApiError(400, EmailRequired)), who;
    }
    var otp := OtpCode(random);
    var expiry := now + OtpLifetime;
    if EmailTaken(users.docs, email.value) {
      var id :| id in users.docs && users.docs[id].email == email.value;
      users.docs := users.docs[id := users.docs[id].(otp := Some(otp), otpExpiry := Some(expiry))];
      who := Some(id);
    } else {
      users.docs := users.docs[newId := OtpHolder(email.value, otp, expiry)];
      who := Some(newId);
    }
    r := Reply(200, Done);
  }

  /**
   * The two checks of `verifyOtp`, in order: the stored OTP equals the submitted one
   * (both possibly undefined), and the expiry is not in the past (an undefined expiry
   * never is).
   */
  predicate OtpAccepted(u: User, otp: Option<string>, now: int) {
    u.otp == otp && !(u.otpExpiry.Some? && u.otpExpiry.value < now)
  }

  /** A code just generated is accepted for exactly the next two minutes. */
  lemma GeneratedOtpWindow(u: User, random: real, issuedAt: int, now: int)
    requires 0.0 <= random < 1.0
    ensures var issued := u.(otp := Some(OtpCode(random)), otpExpiry := Some(issuedAt + OtpLifetime));
      OtpAccepted(issued, Some(OtpCode(random)), now) <==> now <= issuedAt + 120000
  {
  }

  /** A user who never asked for a code passes verification by sending none. */
  lemma NoOtpPassesWithoutOtp(u: User, now: int)
    requires u.otp.None? && u.otpExpiry.None?
    ensures OtpAccepted(u, None, now)
  {
  }

  /**
   * `findOne({ email })` finds a user. The model reads an absent email as a filter no
   * user matches, the rule it applies to every undefined id or filter value.
   */
  predicate EmailFound(users: map<string, User>, email: Option<string>) {
    email.Some? && EmailTaken(users, email.value)
  }

  /**
   * `verifyOtp`: `who` is the user with the email. A mismatch is reported before an
   * expiry; success blanks the stored OTP but keeps its expiry.
   */
  method VerifyOtp(users: Collection<User>, otp: Option<string>, email: Option<string>, now: int)
    returns (r: Outcome<AccountReply>, who: Option<string>)
    modifies users
    ensures !EmailFound(old(users.docs), email) ==>
      r == Throw(ApiError(404, UserNotFound)) && who.None? && users.docs == old(users.docs)
    ensures EmailFound(old(users.docs), email) ==>
      who.Some? && who.value in old(users.docs) && old(users.docs)[who.value].email == email.value
      && var u := old(users.docs)[who.value];
         if u.otp != otp then r == Throw(ApiError(402, InvalidOtp)) && users.docs == old(users.docs)
         else if !OtpAccepted(u, otp, now) then r == Throw(ApiError(402, OtpExpired)) && users.docs == old(users.docs)
         else r == Reply(200, Done) && users.docs == old(users.docs)[who.value := u.(otp := Some(""))]
    ensures EmailsUnique(old(users.docs)) ==> EmailsUnique(users.docs)
    ensures UsernamesUnique(old(users.docs)) ==> UsernamesUnique(users.docs)
  {
    who := None;
    if !EmailFound(users.docs, email) {
      return Throw(ApiError(404, UserNotFound)), who;
    }
    var id :| id in users.docs && users.docs[id].email == email.value;
    who := Some(id);
    var user := users.docs[id];
    if user.otp != otp {
      return Throw(ApiError(402, InvalidOtp)), who;
    }
    if user.otpExpiry.Some? && user.otpExpiry.value < now {
      return Throw(ApiError(402, OtpExpired)), who;
    }
    user := user.(otp := Some(""));
    users.docs := users.docs[id := user];
    r := Reply(200, Done);
  }

  /** `resetPassword`: any user with the email gets the new password; no OTP is asked for. */
  method ResetPassword(users: Collection<User>, email: Option<string>, newPassword: Option<string>)
    returns (r: Outcome<AccountReply>, who: Option<string>)
    modifies users
    ensures !EmailFound(old(users.docs), email) ==>
      r == Throw(ApiError(403, ResetRefused)) && who.None? && users.docs == old(users.docs)
    ensures EmailFound(old(users.docs), email) ==>
      r == Reply(200, Done) && who.Some? && who.value in old(users.docs) && old(users.docs)[who.value].email == email.value
      && users.docs == old(users.docs)[who.value := old(users.docs)[who.value].(password := newPassword)]
    ensures EmailsUnique(old(users.docs)) ==> EmailsUnique(users.docs)
    ensures UsernamesUnique(old(users.docs)) ==> UsernamesUnique(users.docs)
  {
    who := None;
    if !EmailFound(users.docs, email) {
      return Throw(ApiError(403, ResetRefused)), who;
    }
    var id :| id in users.docs && users.docs[id].email == email.value;
    who := Some(id);
    users.docs := users.docs[id := users.docs[id].(password := newPassword)];
    r := Reply(200, Done);
  }
}

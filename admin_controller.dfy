/**
 * The admin account handlers: registration, login and logout. Admins carry no stored
 * session state: login only issues a signed access token (set as the `accessToken`
 * cookie and returned in the body), and logout only clears that cookie.
 */
module AdminController {
  import opened Js
  import opened Mongo

  /** An admin record as `Admin.create({ fullName, email, password })` stores it. */
  datatype Admin = Admin(fullName: string, email: string, password: string)

  /** An admin as the handlers return it: `.select("-password")`. */
  datatype PublicAdmin = PublicAdmin(fullName: string, email: string)

  function Public(a: Admin): PublicAdmin {
    PublicAdmin(a.fullName, a.email)
  }

  /**
   * The body of a successful admin response. `LoggedIn` also sets the `accessToken`
   * cookie to its token; `LoggedOut` clears that cookie.
   */
  datatype AdminReply = Registered(admin: PublicAdmin) | LoggedIn(admin: PublicAdmin, accessToken: string) | LoggedOut

  /** What `generateToken` gives back: the signed token, or the error it throws. */
  datatype Issued = Token(token: string) | Failed(error: Thrown)

  const AdminNotFound := "Admin not found"
  const AllFieldsRequired := "All fields are required"
  const AdminExists := "Admin with this email already exists"
  const CredentialsRequired := "Email and password are required"
  const UnknownEmail := "Admin Email required"
  const InvalidPassword := "Invalid password"

  /** No two stored admins share an email, so `findOne({ email })` names at most one. */
  predicate EmailsUnique(admins: map<string, Admin>) {
    forall a, b :: a in admins && b in admins && admins[a].email == admins[b].email ==> a == b
  }

  predicate EmailTaken(admins: map<string, Admin>, email: string) {
    exists id :: id in admins && admins[id].email == email
  }

  /** Every stored admin is keyed by the ObjectId Mongo generated for it. */
  predicate Keyed(admins: map<string, Admin>) {
    forall id :: id in admins ==> IsObjectId(id)
  }

  /**
   * `generateToken`: `findById(adminId)` and then `admin.generateAccessToken()`, which is
   * `sign` here; an id that finds nothing is a 404.
   */
  function GenerateToken(admins: map<string, Admin>, adminId: string, sign: (string, Admin) -> string): (r: Issued)
    ensures r.Token? <==> IsObjectId(adminId) && adminId in admins
    ensures r.Token? ==> r.token == sign(adminId, admins[adminId])
    ensures IsObjectId(adminId) && adminId !in admins ==> r == Failed(ApiError(404, AdminNotFound))
    ensures !IsObjectId(adminId) ==> r == Failed(CastError)
  {
    match FindById(admins, Some(adminId))
    case Found(admin) => Token(sign(adminId, admin))
    case Missing => Failed(ApiError(404, AdminNotFound))
    case CastFailure => Failed(CastError)
  }

  /** `[fullName, email, password].some(field => !field?.trim())` fails. */
  predicate AllFilled(fullName: Option<string>, email: Option<string>, password: Option<string>) {
    !Blank(fullName) && !Blank(email) && !Blank(password)
  }

  /**
   * `registerAdmin`: every field non-blank, then the email not yet used; the stored
   * record is the fields as sent, and the reply is that record without its password.
   * `newId` is the ObjectId the driver generates.
   */
  method RegisterAdmin(admins: Collection<Admin>, fullName: Option<string>, email: Option<string>,
                       password: Option<string>, newId: string)
    returns (r: Outcome<AdminReply>)
    requires IsObjectId(newId) && newId !in admins.docs
    modifies admins
    ensures !AllFilled(fullName, email, password) ==>
      r == Throw(ApiError(400, AllFieldsRequired)) && admins.docs == old(admins.docs)
    ensures AllFilled(fullName, email, password) && EmailTaken(old(admins.docs), email.value) ==>
      r == Throw(ApiError(409, AdminExists)) && admins.docs == old(admins.docs)
    ensures AllFilled(fullName, email, password) && !EmailTaken(old(admins.docs), email.value) ==>
      var created := Admin(fullName.value, email.value, password.value);
      r == Reply(201, Registered(Public(created)))
      && admins.docs == old(admins.docs)[newId := created]
    ensures EmailsUnique(old(admins.docs)) ==> EmailsUnique(admins.docs)
    ensures Keyed(old(admins.docs)) ==> Keyed(admins.docs)
  {
    if !AllFilled(fullName, email, password) {
      return Throw(ApiError(400, AllFieldsRequired));
    }
    if EmailTaken(admins.docs, email.value) {
      return Throw(ApiError(409, AdminExists));
    }
    var created := Admin(fullName.value, email.value, password.value);
    admins.Insert(newId, created);
    // `findById(admin._id).select("-password")` reads back the record just inserted.
    match FindById(admins.docs, Some(newId))
    case Found(stored) =>
      r := Reply(201, Registered(Public(stored)));
  }

  /** The registration reply never depends on the password that was sent. */
  lemma RegistrationReplyHidesPassword(fullName: string, email: string, p: string, q: string)
    ensures Public(Admin(fullName, email, p)) == Public(Admin(fullName, email, q))
    ensures Public(Admin(fullName, email, p)).email == email
  {
  }

  /**
   * `loginAdmin`: both credentials present, an admin with that email (`who` is the one
   * `findOne` picks), and `passwordMatches` (`isPasswordCorrect`) holding for it. The
   * store is only read.
   */
  method LoginAdmin(admins: map<string, Admin>, email: Option<string>, password: Option<string>,
                    passwordMatches: (Admin, string) -> bool, sign: (string, Admin) -> string)
    returns (r: Outcome<AdminReply>, who: Option<string>)
    ensures !TruthyStr(email) || !TruthyStr(password) ==>
      r == Throw(ApiError(400, CredentialsRequired)) && who.None?
    ensures TruthyStr(email) && TruthyStr(password) && !EmailTaken(admins, email.value) ==>
      r == Throw(ApiError(404, UnknownEmail)) && who.None?
    ensures TruthyStr(email) && TruthyStr(password) && EmailTaken(admins, email.value) ==> who.Some?
    ensures who.Some? ==>
      TruthyStr(email) && TruthyStr(password) && who.value in admins && admins[who.value].email == email.value
      && if !passwordMatches(admins[who.value], password.value) then
           r == Throw(ApiError(401, InvalidPassword))
         else if IsObjectId(who.value) then
           r == Reply(200, LoggedIn(Public(admins[who.value]), sign(who.value, admins[who.value])))
         else
           r == Throw(CastError)
    ensures EmailsUnique(admins) && who.Some? ==>
      forall id :: id in admins && admins[id].email == email.value ==> who == Some(id)
    ensures Keyed(admins) ==> !(r.Throw? && r.error == ApiError(404, AdminNotFound))
  {
    who := None;
    if !TruthyStr(email) || !TruthyStr(password) {
      return Throw(ApiError(400, CredentialsRequired)), who;
    }
    if !EmailTaken(admins, email.value) {
      return Throw(ApiError(404, UnknownEmail)), who;
    }
    var id :| id in admins && admins[id].email == email.value;
    who := Some(id);
    var admin := admins[id];
    if !passwordMatches(admin, password.value) {
      return Throw(ApiError(401, InvalidPassword)), who;
    }
    var issued := GenerateToken(admins, id, sign);
    if issued.Failed? {
      return Throw(issued.error), who;
    }
    r := Reply(200, LoggedIn(Public(admin), issued.token));
  }

  /** `logoutAdmin`: it only clears the cookie; no stored admin changes. */
  method LogoutAdmin(admins: Collection<Admin>) returns (r: Outcome<AdminReply>)
    ensures r == Reply(200, LoggedOut)
    ensures admins.docs == old(admins.docs)
  {
    r := Reply(200, LoggedOut);
  }
}

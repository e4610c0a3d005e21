/**
 * The user record as the controllers use it. The User model file is not part of this
 * model: its fields are the ones the order, cart and user controllers read and write.
 */
module UserModel {
  import opened Js

  /**
   * `cartData`: item id -> size -> quantity. A quantity is whatever JSON value the
   * client last sent (`None` when it sent none), not necessarily a number.
   */
  type Cart = map<string, map<string, Option<Json>>>

  /**
   * A stored user. A record created by the OTP upsert has only an email, so the other
   * identity fields are optional.
   */
  datatype User = User(
    fullName: Option<string>,
    email: string,
    username: Option<string>,
    password: Option<string>,
    refreshToken: Option<string>,
    otp: Option<string>,
    otpExpiry: Option<int>,
    cartData: Cart)

  /** `User.findByIdAndUpdate(userId, { cartData: {} })`: a missing user is left alone. */
  function ClearCart(users: map<string, User>, userId: string): (r: map<string, User>)
    ensures r.Keys == users.Keys
    ensures userId in users ==> r[userId] == users[userId].(cartData := map[])
    ensures forall id :: id in users && id != userId ==> r[id] == users[id]
  {
    if userId in users then users[userId := users[userId].(cartData := map[])] else users
  }

  /** No two stored users share an email. */
  predicate EmailsUnique(users: map<string, User>) {
    forall a, b :: a in users && b in users && users[a].email == users[b].email ==> a == b
  }

  /** No two stored users share a username. */
  predicate UsernamesUnique(users: map<string, User>) {
    forall a, b :: a in users && b in users && users[a].username.Some? && users[a].username == users[b].username ==> a == b
  }

  /** Adding a user whose email and username nobody holds keeps both unique. */
  lemma InsertKeepsUnique(users: map<string, User>, id: string, u: User)
    requires id !in users
    requires forall other :: other in users ==> users[other].email != u.email
    requires u.username.Some? ==> forall other :: other in users ==> users[other].username != u.username
    ensures EmailsUnique(users) ==> EmailsUnique(users[id := u])
    ensures UsernamesUnique(users) ==> UsernamesUnique(users[id := u])
  {
  }

  /** Rewriting a user without touching its email and username keeps both unique. */
  lemma UpdateKeepsUnique(users: map<string, User>, id: string, u: User)
    requires id in users && u.email == users[id].email && u.username == users[id].username
    ensures EmailsUnique(users) ==> EmailsUnique(users[id := u])
    ensures UsernamesUnique(users) ==> UsernamesUnique(users[id := u])
  {
  }
}

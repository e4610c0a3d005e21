/**
 * Request sequences across the handlers, each proved from the handlers' contracts
 * alone: what a client observes when it calls them one after another.
 */
module Scenarios {
  import opened Js
  import opened Mongo
  import opened OrderModel
  import opened UserModel
  import opened Jwt
  import opened OrderController
  import CartController
  import UserController

  // ---------------------------------------------------------------------------
  // Orders

  /**
   * The webhook marks an order paid, and then the client reports a failed redirect for
   * it: the order ends cancelled although it stays paid.
   */
  method WebhookThenFailedRedirect(orders: Collection<Order>, users: Collection<User>, orderId: string, userId: string)
    returns (first: Outcome<string>, second: Outcome<Order>)
    requires IsObjectId(orderId) && orderId in orders.docs
    modifies orders, users
    ensures first == Reply(200, WebhookReceived)
    ensures second.Reply? && second.status == 400
    ensures orderId in orders.docs && orders.docs[orderId].payment && orders.docs[orderId].status == Cancelled
  {
    first := VerifyStripeWebhook(orders, users, Authentic(WebhookEvent(Completed, Some(orderId))));
    second := VerifyStripePayment(orders, users, userId, Some(orderId), Some(JStr("false")));
  }

  /** A second cancellation of the same order is refused with 404 and changes nothing. */
  method CancelTwice(orders: Collection<Order>, userId: string, orderId: string)
    returns (first: Outcome<Order>, second: Outcome<Order>)
    requires IsObjectId(orderId) && Cancellable(orders.docs, orderId, userId)
    modifies orders
    ensures first.Reply? && first.status == 200 && first.body.status == Cancelled
    ensures second == Throw(ApiError(404, NotCancellable))
    ensures orders.docs == old(orders.docs)[orderId := old(orders.docs)[orderId].(status := Cancelled)]
  {
    first := CancelOrder(orders, userId, orderId);
    second := CancelOrder(orders, userId, orderId);
  }

  /** An admin can move a cancelled order back to "Order Placed": no transition is forbidden. */
  method ReopenCancelled(orders: Collection<Order>, orderId: string) returns (r: Outcome<Order>)
    requires IsObjectId(orderId) && orderId in orders.docs
    requires orders.docs[orderId].status == Cancelled && Valid(orders.docs[orderId])
    modifies orders
    ensures r.Reply? && r.status == 200
    ensures orders.docs == old(orders.docs)[orderId := old(orders.docs)[orderId].(status := OrderPlaced)]
  {
    r := UpdateOrderStatus(orders, Some(orderId), Some(OrderPlaced));
  }

  /** Setting the same status twice: the first call succeeds, the second is a 400 that changes nothing. */
  method SameStatusTwice(orders: Collection<Order>, orderId: string, status: string)
    returns (first: Outcome<Order>, second: Outcome<Order>)
    requires InEnum(status) && IsObjectId(orderId) && orderId in orders.docs
    requires orders.docs[orderId].status != status && Valid(orders.docs[orderId].(status := status))
    modifies orders
    ensures first.Reply? && first.status == 200
    ensures second == Throw(ApiError(400, "Order is already marked as " + status))
    ensures orders.docs == old(orders.docs)[orderId := old(orders.docs)[orderId].(status := status)]
  {
    first := UpdateOrderStatus(orders, Some(orderId), Some(status));
    second := UpdateOrderStatus(orders, Some(orderId), Some(status));
  }

  /**
   * The webhook is not idempotent towards the cart: a redelivered event empties the
   * owner's cart again, losing what was added in between.
   */
  method RedeliveredWebhookEmptiesCart(orders: Collection<Order>, users: Collection<User>, orderId: string,
                                       itemId: string, size: string)
    returns (added: Outcome<Cart>)
    requires IsObjectId(orderId) && orderId in orders.docs
    requires orders.docs[orderId].userId in users.docs
    modifies orders, users
    ensures added.Reply? && CartController.Holds(added.body, itemId, size)
    ensures var owner := old(orders.docs)[orderId].userId;
      owner in users.docs && users.docs[owner].cartData == map[]
    ensures orderId in orders.docs && orders.docs[orderId].payment && orders.docs[orderId].status == Paid
  {
    var owner := orders.docs[orderId].userId;
    var event := Authentic(WebhookEvent(Completed, Some(orderId)));
    var first := VerifyStripeWebhook(orders, users, event);
    added := CartController.AddToCart(users, owner, Some(itemId), Some(size));
    var second := VerifyStripeWebhook(orders, users, event);
  }

  /**
   * A checkout whose session carries the order id in its own metadata: Stripe's
   * completion event then marks the stored order paid.
   */
  method StripeCheckoutPays(orders: Collection<Order>, users: Collection<User>, userId: string,
                            address: Option<Address>, amount: Option<int>, items: Option<seq<OrderItem>>,
                            origin: Option<string>, newId: string, now: int,
                            openSession: SessionParams -> SessionResult)
    returns (placed: Outcome<string>, notified: Outcome<string>)
    requires IsObjectId(newId) && newId !in orders.docs
    requires StripeFieldsPresent(address, amount, items)
    requires Create(Draft(userId, items, address, amount, "Stripe", Some(false), now)).Some?
    modifies orders, users
    ensures notified == Reply(200, WebhookReceived)
    ensures newId in orders.docs && orders.docs[newId].payment && orders.docs[newId].status == Paid
  {
    var sent;
    placed, sent := PlaceOrderStripeCorrected(orders, userId, address, amount, items, origin, newId, now, openSession);
    CorrectedEventNamesOrder(origin, newId, LineItems(items.value));
    notified := VerifyStripeWebhook(orders, users, Authentic(CompletedEvent(sent.value)));
  }

  /**
   * The same checkout through the handler as written: the
   * completion event names no order, the webhook answers 400, and the order stays unpaid.
   */
  method AsWrittenCheckoutNeverPays(orders: Collection<Order>, users: Collection<User>, userId: string,
                                    address: Option<Address>, amount: Option<int>, items: Option<seq<OrderItem>>,
                                    origin: Option<string>, newId: string, now: int,
                                    openSession: SessionParams -> SessionResult)
    returns (placed: Outcome<string>, notified: Outcome<string>)
    requires IsObjectId(newId) && newId !in orders.docs
    requires StripeFieldsPresent(address, amount, items)
    requires Create(Draft(userId, items, address, amount, "Stripe", Some(false), now)).Some?
    modifies orders, users
    ensures notified == Throw(ApiError(400, WebhookUnknownOrder))
    ensures newId in orders.docs && !orders.docs[newId].payment && orders.docs[newId].status == OrderPlaced
  {
    var sent;
    placed, sent := PlaceOrderStripe(orders, userId, address, amount, items, origin, newId, now, openSession);
    AsWrittenEventHasNoOrder(origin, newId, LineItems(items.value));
    notified := VerifyStripeWebhook(orders, users, Authentic(CompletedEvent(sent.value)));
  }

  // ---------------------------------------------------------------------------
  // Accounts

  /** After logout, the refresh token the user held no longer refreshes anything. */
  method LogoutThenRefresh(users: Collection<User>, userId: string, token: string,
                           verify: string -> Verdict, access: string, refresh: string)
    returns (r: Outcome<UserController.AccountReply>)
    requires userId in users.docs
    requires forall id :: id in users.docs && id != userId ==> users.docs[id].refreshToken != Some(token)
    modifies users
    ensures r.Throw? && r.error.ApiError? && r.error.code == 401
    ensures userId in users.docs && users.docs[userId].refreshToken.None?
  {
    var out := UserController.LogoutUser(users, userId);
    r := UserController.RefreshAccessToken(users, Some(token), None, verify, access, refresh);
  }

  /** A refresh rotates the stored token: the token just used is refused the second time. */
  method RotationInvalidatesOldToken(users: Collection<User>, token: string, verify: string -> Verdict,
                                     access: string, refresh: string)
    returns (first: Outcome<UserController.AccountReply>, second: Outcome<UserController.AccountReply>)
    requires token != "" && refresh != token
    requires UserController.CheckRefresh(users.docs, token, verify).Holder?
    modifies users
    ensures first == Reply(200, UserController.Refreshed(access, refresh))
    ensures second.Throw? && second.error == ApiError(401, UserController.RefreshTokenExpired)
  {
    first := UserController.RefreshAccessToken(users, Some(token), None, verify, access, refresh);
    second := UserController.RefreshAccessToken(users, Some(token), None, verify, access, refresh);
  }

  /**
   * Asking for an OTP with an unregistered email creates a record for it, so a later
   * registration with that email is refused as already registered.
   */
  method OtpBlocksRegistration(users: Collection<User>, email: string, random: real, now: int, otpId: string,
                               fullName: string, username: string, password: string, newId: string,
                               access: string, refresh: string)
    returns (otp: Outcome<UserController.AccountReply>, registered: Outcome<UserController.AccountReply>)
    requires 0.0 <= random < 1.0
    requires IsObjectId(otpId) && otpId !in users.docs && IsObjectId(newId) && newId !in users.docs && newId != otpId
    requires !UserController.EmailTaken(users.docs, email)
    requires !UserController.UsernameTaken(users.docs, username)
    requires UserController.AllFilled(Some(fullName), Some(email), Some(username), Some(password))
    modifies users
    ensures otp == Reply(200, UserController.Done)
    ensures registered == Throw(ApiError(409, UserController.EmailInUse))
  {
    var who;
    otp, who := UserController.GenerateOtp(users, Some(email), random, now, otpId);
    assert users.docs[otpId].email == email;
    assert !UserController.UsernameTaken(users.docs, username) by {
      forall id | id in users.docs
        ensures users.docs[id].username != Some(username)
      {
        if id != otpId {
          assert id in old(users.docs);
        }
      }
    }
    registered := UserController.RegisterUser(users, Some(fullName), Some(email), Some(username), Some(password),
                                              newId, access, refresh);
  }
}

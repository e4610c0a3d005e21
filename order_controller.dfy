/**
 * The order handlers: cash-on-delivery and Stripe placement, the Stripe webhook, the
 * redirect verification, owner cancellation, the two listings and the admin status
 * update. Each handler reads and reassigns the order and user collections in place and
 * returns the response it writes or the error it throws.
 */
module OrderController {
  import opened Js
  import opened Mongo
  import opened OrderModel
  import opened UserModel

  const Currency := "INR"
  const DeliveryCharge := 40

  // ---------------------------------------------------------------------------
  // Stripe checkout: line items and session parameters

  /** A checkout line: `price_data.currency`, `product_data.name`, `unit_amount` and `quantity`. */
  datatype LineItem = LineItem(currency: string, name: string, unitAmount: int, quantity: int)

  /** `items.map(...)`: one line per order item, priced in paise. */
  function ItemLines(items: seq<OrderItem>): (lines: seq<LineItem>)
    ensures |lines| == |items|
    ensures forall i :: 0 <= i < |items| ==>
      lines[i] == LineItem(Currency, items[i].name, items[i].price * 100, items[i].quantity)
    decreases |items|
  {
    if items == [] then []
    else [LineItem(Currency, items[0].name, items[0].price * 100, items[0].quantity)] + ItemLines(items[1..])
  }

  const DeliveryLine := LineItem(Currency, "Delivery Charges", DeliveryCharge * 100, 1)

  /**
   * The `line_items` sent to Stripe: one line per item, then the pushed delivery line.
   * The session charges exactly the item prices times quantities plus the 40 rupee
   * delivery charge, whatever `amount` the client stored on the order.
   */
  function LineItems(items: seq<OrderItem>): (lines: seq<LineItem>)
    ensures |lines| == |items| + 1
    ensures forall i :: 0 <= i < |items| ==>
      lines[i] == LineItem(Currency, items[i].name, items[i].price * 100, items[i].quantity)
    ensures lines[|items|] == LineItem("INR", "Delivery Charges", 4000, 1)
    ensures LinesTotal(lines) == 100 * (ItemsTotal(items) + DeliveryCharge)
  {
    ItemLinesTotal(items);
    ItemLines(items) + [DeliveryLine]
  }

  /** What the client says the goods cost, in rupees. */
  function ItemsTotal(items: seq<OrderItem>): int
    decreases |items|
  {
    if items == [] then 0 else items[0].price * items[0].quantity + ItemsTotal(items[1..])
  }

  /** What Stripe charges for a list of lines, in paise. */
  function LinesTotal(lines: seq<LineItem>): int
    decreases |lines|
  {
    if lines == [] then 0 else lines[0].unitAmount * lines[0].quantity + LinesTotal(lines[1..])
  }

  lemma {:induction false} ItemLinesTotal(items: seq<OrderItem>)
    ensures LinesTotal(ItemLines(items) + [DeliveryLine]) == 100 * ItemsTotal(items) + 4000
    decreases |items|
  {
    if items == [] {
      assert ItemLines(items) + [DeliveryLine] == [DeliveryLine];
    } else {
      var head := LineItem(Currency, items[0].name, items[0].price * 100, items[0].quantity);
      ItemLinesTotal(items[1..]);
      assert ItemLines(items) + [DeliveryLine] == [head] + (ItemLines(items[1..]) + [DeliveryLine]);
      assert head.unitAmount * head.quantity == 100 * (items[0].price * items[0].quantity);
    }
  }

  /** The arguments of `stripe.checkout.sessions.create`. */
  datatype SessionParams = SessionParams(
    successUrl: string,
    cancelUrl: string,
    lineItems: seq<LineItem>,
    mode: string,
    metadata: map<string, string>,
    paymentIntentMetadata: map<string, string>)

  /** `${origin}/verify?success=…&orderId=…` */
  function VerifyUrl(origin: Option<string>, success: string, orderId: string): string {
    Show(origin) + "/verify?success=" + success + "&orderId=" + orderId
  }

  /** The session as order.controller.js builds it: the order id only in `payment_intent_data.metadata`. */
  function SessionParamsAsWritten(origin: Option<string>, orderId: string, lines: seq<LineItem>): SessionParams {
    SessionParams(VerifyUrl(origin, "true", orderId), VerifyUrl(origin, "false", orderId), lines,
                  "payment", map[], map["orderId" := orderId])
  }

  /** The session with the order id also in the session's own `metadata`, where the webhook reads it. */
  function SessionParamsCorrected(origin: Option<string>, orderId: string, lines: seq<LineItem>): SessionParams {
    SessionParamsAsWritten(origin, orderId, lines).(metadata := map["orderId" := orderId])
  }

  /** What the Stripe oracle does with a session request. */
  datatype SessionResult = Opened(url: string) | GatewayFailed(error: Thrown)

  const Completed := "checkout.session.completed"

  /** A decoded webhook event: its type and `data.object.metadata.orderId`. */
  datatype WebhookEvent = WebhookEvent(kind: string, orderId: Option<string>)

  /** `stripe.webhooks.constructEvent`: the payload verifies and decodes, or it throws. */
  datatype Delivery = Authentic(event: WebhookEvent) | Forged(reason: string)

  /**
   * The `checkout.session.completed` event Stripe sends for a session opened with `p`:
   * its object is the Checkout Session, whose metadata is the session-level `metadata`
   * (`payment_intent_data.metadata` goes to the PaymentIntent).
   */
  function CompletedEvent(p: SessionParams): WebhookEvent {
    WebhookEvent(Completed, if "orderId" in p.metadata then Some(p.metadata["orderId"]) else None)
  }

  lemma AsWrittenEventHasNoOrder(origin: Option<string>, orderId: string, lines: seq<LineItem>)
    ensures CompletedEvent(SessionParamsAsWritten(origin, orderId, lines)).orderId == None
  {
  }

  lemma CorrectedEventNamesOrder(origin: Option<string>, orderId: string, lines: seq<LineItem>)
    ensures CompletedEvent(SessionParamsCorrected(origin, orderId, lines)).orderId == Some(orderId)
  {
  }

  // ---------------------------------------------------------------------------
  // What every order handler preserves

  /** The fields fixed when an order is created. */
  predicate SameOrigin(a: Order, b: Order) {
    a.userId == b.userId && a.items == b.items && a.address == b.address
    && a.amount == b.amount && a.paymentMethod == b.paymentMethod && a.date == b.date
  }

  /**
   * How the order store may change: no order disappears, the creation fields stay,
   * and `payment` is never set back to false.
   */
  predicate Evolves(before: map<string, Order>, after: map<string, Order>) {
    before.Keys <= after.Keys
    && forall id :: id in before ==> SameOrigin(before[id], after[id]) && (before[id].payment ==> after[id].payment)
  }

  /** Every stored status is an enum value or the webhook's "Paid". */
  predicate StatusesKnown(docs: map<string, Order>) {
    forall id :: id in docs ==> InEnum(docs[id].status) || docs[id].status == Paid
  }

  // ---------------------------------------------------------------------------
  // Handlers

  const PlacedMessage := "Order placed successfully"
  const MissingFields := "Missing required fields for order placement."
  const WebhookReceived := "Stripe webhook received successfully"
  const WebhookUnknownOrder := "Failed to update order status after payment"
  const VerifyMissing := "Order ID and payment success status are required."
  const VerifyUnknownOrder := "Failed to verify payment"
  const CancelUnknownOrder := "Failed to update order status to cancelled"
  const NotCancellable := "Order not found, unauthorized, or already cancelled"
  const NoOrders := "No orders found"
  const BadStatus := "Invalid order status provided"
  const OrderNotFound := "Order not found"

  /** `placeOrder` (route `/place-cod`): store a COD order, then empty the buyer's cart. */
  method PlaceOrder(orders: Collection<Order>, users: Collection<User>, userId: string,
                    address: Option<Address>, amount: Option<int>, items: Option<seq<OrderItem>>,
                    newId: string, now: int)
    returns (r: Outcome<Order>)
    requires IsObjectId(newId) && newId !in orders.docs
    modifies orders, users
    ensures var made := Create(Draft(userId, items, address, amount, "COD", None, now));
      if made.None? then
        r == Throw(ValidationError) && orders.docs == old(orders.docs) && users.docs == old(users.docs)
      else
        r == Reply(200, made.value)
        && orders.docs == old(orders.docs)[newId := made.value]
        && users.docs == ClearCart(old(users.docs), userId)
    ensures r.Reply? ==> r.body.paymentMethod == "COD" && !r.body.payment && r.body.status == OrderPlaced
    ensures r.Reply? ==> userId in users.docs ==> users.docs[userId].cartData == map[]
    ensures Evolves(old(orders.docs), orders.docs)
    ensures StatusesKnown(old(orders.docs)) ==> StatusesKnown(orders.docs)
  {
    var made := Create(Draft(userId, items, address, amount, "COD", None, now));
    if made.None? {
      return Throw(ValidationError);
    }
    orders.docs := orders.docs[newId := made.value];
    users.docs := ClearCart(users.docs, userId);
    r := Reply(200, made.value);
  }

  /** The guard of `placeOrderStripe`: `address`, `amount` and `items` truthy, `items` non-empty. */
  predicate StripeFieldsPresent(address: Option<Address>, amount: Option<int>, items: Option<seq<OrderItem>>) {
    address.Some? && amount.Some? && amount.value != 0 && items.Some? && |items.value| > 0
  }

  /**
   * `placeOrderStripe` (route `/stripe`): store an unpaid Stripe order, then open a
   * checkout session for it. A gateway failure leaves the order stored. The handler is
   * given no user collection: it cannot touch any cart. `sent` is the session request;
   * it names the order only in `payment_intent_data.metadata`.
   */
  method PlaceOrderStripe(orders: Collection<Order>, userId: string,
                          address: Option<Address>, amount: Option<int>, items: Option<seq<OrderItem>>,
                          origin: Option<string>, newId: string, now: int,
                          openSession: SessionParams -> SessionResult)
    returns (r: Outcome<string>, sent: Option<SessionParams>)
    requires IsObjectId(newId) && newId !in orders.docs
    modifies orders
    ensures !StripeFieldsPresent(address, amount, items) ==>
      r == Throw(ApiError(400, MissingFields)) && sent.None? && orders.docs == old(orders.docs)
    ensures StripeFieldsPresent(address, amount, items) ==>
      var made := Create(Draft(userId, items, address, amount, "Stripe", Some(false), now));
      if made.None? then
        r == Throw(ValidationError) && sent.None? && orders.docs == old(orders.docs)
      else
        orders.docs == old(orders.docs)[newId := made.value]
        && !made.value.payment && made.value.status == OrderPlaced
        && sent == Some(SessionParamsAsWritten(origin, newId, LineItems(items.value)))
        && r == match openSession(sent.value)
                case Opened(url) => Reply(200, url)
                case GatewayFailed(e) => Throw(e)
    ensures Evolves(old(orders.docs), orders.docs)
    ensures StatusesKnown(old(orders.docs)) ==> StatusesKnown(orders.docs)
  {
    sent := None;
    if !StripeFieldsPresent(address, amount, items) {
      return Throw(ApiError(400, MissingFields)), sent;
    }
    var made := Create(Draft(userId, items, address, amount, "Stripe", Some(false), now));
    if made.None? {
      return Throw(ValidationError), sent;
    }
    orders.docs := orders.docs[newId := made.value];
    var lines := ItemLines(items.value);
    lines := lines + [DeliveryLine];
    sent := Some(SessionParamsAsWritten(origin, newId, lines));
    var session := openSession(sent.value);
    match session
    case Opened(url) => r := Reply(200, url);
    case GatewayFailed(e) => r := Throw(e);
  }

  /**
   * `placeOrderStripe` with the session's own `metadata` also naming the order, the
   * field the webhook reads; everything else as in `PlaceOrderStripe`.
   */
  method PlaceOrderStripeCorrected(orders: Collection<Order>, userId: string,
                                   address: Option<Address>, amount: Option<int>, items: Option<seq<OrderItem>>,
                                   origin: Option<string>, newId: string, now: int,
                                   openSession: SessionParams -> SessionResult)
    returns (r: Outcome<string>, sent: Option<SessionParams>)
    requires IsObjectId(newId) && newId !in orders.docs
    modifies orders
    ensures !StripeFieldsPresent(address, amount, items) ==>
      r == Throw(ApiError(400, MissingFields)) && sent.None? && orders.docs == old(orders.docs)
    ensures StripeFieldsPresent(address, amount, items) ==>
      var made := Create(Draft(userId, items, address, amount, "Stripe", Some(false), now));
      if made.None? then
        r == Throw(ValidationError) && sent.None? && orders.docs == old(orders.docs)
      else
        orders.docs == old(orders.docs)[newId := made.value]
        && !made.value.payment && made.value.status == OrderPlaced
        && sent == Some(SessionParamsCorrected(origin, newId, LineItems(items.value)))
        && r == match openSession(sent.value)
                case Opened(url) => Reply(200, url)
                case GatewayFailed(e) => Throw(e)
    ensures Evolves(old(orders.docs), orders.docs)
    ensures StatusesKnown(old(orders.docs)) ==> StatusesKnown(orders.docs)
  {
    sent := None;
    if !StripeFieldsPresent(address, amount, items) {
      return Throw(ApiError(400, MissingFields)), sent;
    }
    var made := Create(Draft(userId, items, address, amount, "Stripe", Some(false), now));
    if made.None? {
      return Throw(ValidationError), sent;
    }
    orders.docs := orders.docs[newId := made.value];
    var lines := ItemLines(items.value);
    lines := lines + [DeliveryLine];
    sent := Some(SessionParamsCorrected(origin, newId, lines));
    var session := openSession(sent.value);
    match session
    case Opened(url) => r := Reply(200, url);
    case GatewayFailed(e) => r := Throw(e);
  }

  /**
   * `verifyStripeWebhook` (route `/webhook/stripe`, no guard): a completed checkout
   * marks the named order paid with status "Paid" and empties its owner's cart; other
   * events are acknowledged; a payload that fails verification is answered with 400.
   */
  method VerifyStripeWebhook(orders: Collection<Order>, users: Collection<User>, delivery: Delivery)
    returns (r: Outcome<string>)
    modifies orders, users
    ensures delivery.Forged? ==>
      r == Reply(400, "Webhook Error: " + delivery.reason)
      && orders.docs == old(orders.docs) && users.docs == old(users.docs)
    ensures delivery.Authentic? && delivery.event.kind != Completed ==>
      r == Reply(200, WebhookReceived) && orders.docs == old(orders.docs) && users.docs == old(users.docs)
    ensures delivery.Authentic? && delivery.event.kind == Completed ==>
      match FindById(old(orders.docs), delivery.event.orderId)
      case Found(o) =>
        r == Reply(200, WebhookReceived)
        && orders.docs == old(orders.docs)[delivery.event.orderId.value := o.(payment := true, status := Paid)]
        && users.docs == ClearCart(old(users.docs), o.userId)
      case Missing =>
        r == Throw(ApiError(400, WebhookUnknownOrder))
        && orders.docs == old(orders.docs) && users.docs == old(users.docs)
      case CastFailure =>
        r == Throw(CastError) && orders.docs == old(orders.docs) && users.docs == old(users.docs)
    ensures Evolves(old(orders.docs), orders.docs)
    ensures StatusesKnown(old(orders.docs)) ==> StatusesKnown(orders.docs)
  {
    if delivery.Forged? {
      return Reply(400, "Webhook Error: " + delivery.reason);
    }
    var event := delivery.event;
    if event.kind == Completed {
      match FindById(orders.docs, event.orderId)
      case CastFailure =>
        return Throw(CastError);
      case Missing =>
        return Throw(ApiError(400, WebhookUnknownOrder));
      case Found(o) =>
        var updated := o.(payment := true, status := Paid);
        orders.docs := orders.docs[event.orderId.value := updated];
        users.docs := ClearCart(users.docs, updated.userId);
    }
    r := Reply(200, WebhookReceived);
  }

  /**
   * `verifyStripePayment` (route `/verify-stripe`): the client reports the outcome of
   * the redirect. Exactly the string "true" marks the order paid and empties the
   * caller's cart; any other truthy value cancels the order, paid or not. Nothing
   * checks that the order belongs to the caller.
   */
  method VerifyStripePayment(orders: Collection<Order>, users: Collection<User>, userId: string,
                             orderId: Option<string>, success: Option<Json>)
    returns (r: Outcome<Order>)
    modifies orders, users
    ensures !TruthyStr(orderId) || !Truthy(success) ==>
      r == Throw(ApiError(400, VerifyMissing))
      && orders.docs == old(orders.docs) && users.docs == old(users.docs)
    ensures TruthyStr(orderId) && success == Some(JStr("true")) ==>
      match FindById(old(orders.docs), orderId)
      case Found(o) =>
        r == Reply(200, o.(payment := true))
        && orders.docs == old(orders.docs)[orderId.value := o.(payment := true)]
        && users.docs == ClearCart(old(users.docs), userId)
      case Missing =>
        r == Throw(ApiError(400, VerifyUnknownOrder))
        && orders.docs == old(orders.docs) && users.docs == old(users.docs)
      case CastFailure =>
        r == Throw(CastError) && orders.docs == old(orders.docs) && users.docs == old(users.docs)
    ensures TruthyStr(orderId) && Truthy(success) && success != Some(JStr("true")) ==>
      users.docs == old(users.docs) &&
      match FindById(old(orders.docs), orderId)
      case Found(o) =>
        r == Reply(400, o.(status := Cancelled))
        && orders.docs == old(orders.docs)[orderId.value := o.(status := Cancelled)]
      case Missing =>
        r == Throw(ApiError(400, CancelUnknownOrder)) && orders.docs == old(orders.docs)
      case CastFailure =>
        r == Throw(CastError) && orders.docs == old(orders.docs)
    ensures Evolves(old(orders.docs), orders.docs)
    ensures StatusesKnown(old(orders.docs)) ==> StatusesKnown(orders.docs)
  {
    if !TruthyStr(orderId) || !Truthy(success) {
      return Throw(ApiError(400, VerifyMissing));
    }
    if success == Some(JStr("true")) {
      match FindById(orders.docs, orderId)
      case CastFailure =>
        return Throw(CastError);
      case Missing =>
        return Throw(ApiError(400, VerifyUnknownOrder));
      case Found(o) =>
        var updated := o.(payment := true);
        orders.docs := orders.docs[orderId.value := updated];
        users.docs := ClearCart(users.docs, userId);
        return Reply(200, updated);
    }
    match FindById(orders.docs, orderId)
    case CastFailure =>
      r := Throw(CastError);
    case Missing =>
      r := Throw(ApiError(400, CancelUnknownOrder));
    case Found(o) =>
      var cancelled := o.(status := Cancelled);
      orders.docs := orders.docs[orderId.value := cancelled];
      r := Reply(400, cancelled);
  }

  /** The filter of `cancelOrder`'s `findOneAndUpdate`: the caller's order, not yet cancelled. */
  predicate Cancellable(docs: map<string, Order>, orderId: string, userId: string) {
    orderId in docs && docs[orderId].userId == userId && docs[orderId].status != Cancelled
  }

  /**
   * `cancelOrder` (route `/cancel/:orderId`): the id comes from the path, the owner
   * from the signed-in user. Only the status changes; a delivered order is cancellable.
   */
  method CancelOrder(orders: Collection<Order>, userId: string, orderId: string)
    returns (r: Outcome<Order>)
    modifies orders
    ensures !IsObjectId(orderId) ==> r == Throw(CastError) && orders.docs == old(orders.docs)
    ensures IsObjectId(orderId) && Cancellable(old(orders.docs), orderId, userId) ==>
      var cancelled := old(orders.docs)[orderId].(status := Cancelled);
      r == Reply(200, cancelled) && orders.docs == old(orders.docs)[orderId := cancelled]
    ensures IsObjectId(orderId) && !Cancellable(old(orders.docs), orderId, userId) ==>
      r == Throw(ApiError(404, NotCancellable)) && orders.docs == old(orders.docs)
    ensures Evolves(old(orders.docs), orders.docs)
    ensures StatusesKnown(old(orders.docs)) ==> StatusesKnown(orders.docs)
  {
    if !IsObjectId(orderId) {
      return Throw(CastError);
    }
    if !Cancellable(orders.docs, orderId, userId) {
      return Throw(ApiError(404, NotCancellable));
    }
    var cancelled := orders.docs[orderId].(status := Cancelled);
    orders.docs := orders.docs[orderId := cancelled];
    r := Reply(200, cancelled);
  }

  /** `userOrders` (route `/user-orders`): every order of the caller, possibly none, always 200. */
  method UserOrders(orders: Collection<Order>, userId: string) returns (r: Outcome<map<string, Order>>)
    ensures r.Reply? && r.status == 200
    ensures forall id :: id in r.body <==> id in orders.docs && orders.docs[id].userId == userId
    ensures forall id :: id in r.body ==> r.body[id] == orders.docs[id]
  {
    var docs := orders.docs;
    var mine := map id | id in docs && docs[id].userId == userId :: docs[id];
    r := Reply(200, mine);
  }

  /** `getAllOrders` (route `/list`): every order, or 404 when there are none. */
  method GetAllOrders(orders: Collection<Order>) returns (r: Outcome<map<string, Order>>)
    ensures orders.docs == map[] <==> r.Raised(404)
    ensures r.Reply? ==> r.status == 200 && r.body == orders.docs
  {
    if |orders.docs| == 0 {
      return Throw(ApiError(404, NoOrders));
    }
    r := Reply(200, orders.docs);
  }

  /**
   * `updateOrderStatus` (route `/status`): checks in order that the status is one of the
   * six, that the order exists, and that the status differs from the current one; then
   * sets it, in any direction, and saves (which re-validates the document).
   */
  method UpdateOrderStatus(orders: Collection<Order>, orderId: Option<string>, status: Option<string>)
    returns (r: Outcome<Order>)
    modifies orders
    ensures status.None? || !InEnum(status.value) ==>
      r == Throw(ApiError(400, BadStatus)) && orders.docs == old(orders.docs)
    ensures status.Some? && InEnum(status.value) ==>
      match FindById(old(orders.docs), orderId)
      case CastFailure => r == Throw(CastError) && orders.docs == old(orders.docs)
      case Missing => r == Throw(ApiError(404, OrderNotFound)) && orders.docs == old(orders.docs)
      case Found(o) =>
        if o.status == status.value then
          r == Throw(ApiError(400, "Order is already marked as " + status.value)) && orders.docs == old(orders.docs)
        else if !Valid(o.(status := status.value)) then
          r == Throw(ValidationError) && orders.docs == old(orders.docs)
        else
          r == Reply(200, o.(status := status.value))
          && orders.docs == old(orders.docs)[orderId.value := o.(status := status.value)]
    ensures Evolves(old(orders.docs), orders.docs)
    ensures StatusesKnown(old(orders.docs)) ==> StatusesKnown(orders.docs)
  {
    if status.None? || !InEnum(status.value) {
      return Throw(ApiError(400, BadStatus));
    }
    match FindById(orders.docs, orderId)
    case CastFailure =>
      r := Throw(CastError);
    case Missing =>
      r := Throw(ApiError(404, OrderNotFound));
    case Found(o) =>
      if o.status == status.value {
        return Throw(ApiError(400, "Order is already marked as " + status.value));
      }
      var updated := o.(status := status.value);
      if !Valid(updated) {
        return Throw(ValidationError);
      }
      orders.docs := orders.docs[orderId.value := updated];
      r := Reply(200, updated);
  }
}

/** The order router: which middleware guards each order endpoint, and how its body is parsed. */
module OrderRoute {

  datatype Endpoint =
    | ListOrders | UpdateStatus
    | PlaceCod | PlaceStripe | VerifyStripe | CancelOrder | UserOrders
    | StripeWebhook

  /** `isAdmin`, `verifyJWT`, or no guard at all. */
  datatype Guard = AdminOnly | SignedIn | Open

  /** The router-level body parser: the app's JSON parser, or `express.raw` on the route. */
  datatype BodyParser = AppJson | RawJson

  datatype Route = Route(verb: string, path: string, guard: Guard, parser: BodyParser)

  /** The order router is mounted under this prefix. */
  const Prefix := "/api/v1/orders"

  function RouteOf(e: Endpoint): (r: Route)
    ensures r.guard == AdminOnly <==> e == ListOrders || e == UpdateStatus
    ensures r.guard == Open <==> e == StripeWebhook
    ensures r.parser == RawJson <==> e == StripeWebhook
  {
    match e
    case ListOrders => Route("GET", Prefix + "/list", AdminOnly, AppJson)
    case UpdateStatus => Route("PATCH", Prefix + "/status", AdminOnly, AppJson)
    case PlaceCod => Route("POST", Prefix + "/place-cod", SignedIn, AppJson)
    case PlaceStripe => Route("POST", Prefix + "/stripe", SignedIn, AppJson)
    case VerifyStripe => Route("POST", Prefix + "/verify-stripe", SignedIn, AppJson)
    case CancelOrder => Route("PATCH", Prefix + "/cancel/:orderId", SignedIn, AppJson)
    case UserOrders => Route("GET", Prefix + "/user-orders", SignedIn, AppJson)
    case StripeWebhook => Route("POST", Prefix + "/webhook/stripe", Open, RawJson)
  }

  /**
   * Whether a request reaches the handler, given whether `verifyJWT` and `isAdmin`
   * would call `next()` for it.
   */
  predicate Reaches(e: Endpoint, jwtPasses: bool, adminPasses: bool) {
    match RouteOf(e).guard
    case AdminOnly => adminPasses
    case SignedIn => jwtPasses
    case Open => true
  }

  /** Only the webhook is reachable without credentials; the admin routes ignore `verifyJWT`. */
  lemma ReachWithoutCredentials(e: Endpoint)
    ensures Reaches(e, false, false) <==> e == StripeWebhook
    ensures (e == ListOrders || e == UpdateStatus) ==> !Reaches(e, true, false)
  {
  }
}

# luxoraBackend core in Dafny

A model of the request handlers of the luxoraBackend e-commerce server (Express with
Mongoose). It covers these handlers:

- **Orders:** cash-on-delivery and Stripe placement, the line items sent to Stripe, the
  Stripe webhook, the redirect verification, owner cancellation, the two listings and
  the admin status update.
- **Carts:** the nested item → size → quantity cart.
- **Products:** product intake (image slots, discount price, field coercion and the
  schema), listing, lookup and removal.
- **Accounts:** user registration, login, logout, refresh-token rotation, the OTP
  lifecycle and password reset; admin registration, login and logout.
- **Middlewares and the application shell:** the `verifyJWT` and `isAdmin` middlewares,
  the multer upload filter, the CORS origin callback and the final error handler.

Each Mongo collection is a `Mongo.Collection<T>`: a class whose `docs: map<string, T>`
field the handlers read and reassign. Each handler is a method that takes its
collections and request fields and returns an `Outcome`. An `Outcome` is either the
status and body it answers with (`Reply`) or the error it throws (`Throw`).

JavaScript values the handlers test for truthiness are `Option`s, and numbers and
booleans from the body are a small `Json` type. A request field that is absent is
`None`. The helpers in module `Js` spell out the JavaScript built-ins the code relies
on: `||`, `split`, `trim`, `toLowerCase`, `Number(...)`, `toString()`, and the unseen
`ApiError` class.

The libraries outside the program become parameters (see "Left out"):

- `jwt.verify` is a function from a token to a `Jwt.Verdict`.
- The Stripe session call and `constructEvent` are `SessionResult` and `Delivery` values.
- Cloudinary's upload and destroy, and `JSON.parse` of the sizes field.
- `isPasswordCorrect` and the token signers.
- `Math.random` is a real in [0, 1), and `Date.now` is an `int`.
- Fresh ObjectIds are parameters that are required to be unused.

Where the driver picks one document among several, the model picks with `:|`, so every
choice is proved. This covers `findOne` among several matches, the upsert target, and
the first failing upload in `Promise.all`.

The module `Scenarios` strings handler calls together and proves what a client sees:

- A paid order is cancelled by a failed redirect and ends with payment true and status
  "Cancelled".
- A second cancellation gets 404.
- A cancelled order is reopened, because no status transition is forbidden.
- A redelivered webhook empties the cart again.
- After logout the old refresh token no longer refreshes anything.
- After a refresh the rotated token is refused.
- An OTP request registers the email, so a later registration with it gets 409.

## Model

| member | source | states |
|---|---|---|
| Js.Split | src/app.js:7 | `split(sep)` gives at least one piece, and no piece contains the separator |
| Js.JoinSplit | src/app.js:7 | joining the pieces of a split with the separator restores the string |
| Js.SplitJoin | src/app.js:7 | splitting a join of separator-free pieces gives back exactly those pieces |
| Js.SplitNoSeparator | src/middlewares/auth.middleware.js:7 | a string without the separator splits into itself alone |
| Js.SplitAtFirst | src/middlewares/auth.middleware.js:7 | the piece before the first separator comes first, and the rest splits on its own |
| Js.Trim | src/controllers/user.controller.js:26 | `trim()` is no longer than the string and neither starts nor ends with white space |
| Js.TrimOccurs | src/controllers/user.controller.js:26 | `trim()` is a contiguous part of the string |
| Js.TrimEmptyIffSpace | src/controllers/user.controller.js:26 | a string trims to "" exactly when all of its characters are white space |
| Js.BlankIffTrimsEmpty | src/controllers/user.controller.js:26 | `Blank` holds exactly when `!field?.trim()` holds: the field is absent or trims to "" |
| Js.TrimKeeps | src/models/product.model.js:7 | a string that neither starts nor ends with white space trims to itself |
| Js.ContainsAt | src/middlewares/multer.js:6 | `Contains` (the unanchored regex test for one word) holds exactly when the word occurs at some position |
| Js.ContainsInContext | src/middlewares/multer.js:6 | a word contained in `s` is contained in anything built around `s` |
| Js.DecimalString | src/controllers/user.controller.js:161 | `toString()` of a natural is a non-empty string of decimal digits |
| Js.DecimalLength | src/controllers/user.controller.js:161 | every number from 10^(k-1) to 10^k - 1 prints with exactly k digits |
| Js.DecimalRoundTrip | src/controllers/user.controller.js:161 | reading back the printed digits gives the number |
| Js.ToNumber | src/controllers/product.controller.js:49 | `Number(s)`: undefined gives NaN, blank gives 0, and a trimmed run of digits gives its value |
| Js.ReadTrimmed | src/controllers/product.controller.js:49 | `Number` of trimmed text: empty is 0, a run of digits is its value, NaN only for anything else |
| Js.ToNumberOfDecimal | src/controllers/product.controller.js:49 | `Number` of a printed natural is that natural |
| Jwt.ErrorOf | src/middlewares/auth.middleware.js:14 | the error `jwt.verify` throws carries no HTTP code; it is a TokenExpiredError exactly for an expired token and a JsonWebTokenError exactly for a malformed one |
| Mongo.Collection.Insert | src/controllers/admin.controller.js:30 | `create` adds exactly the new document under its fresh id |
| UserModel.ClearCart | src/controllers/order.controller.js:27 | `findByIdAndUpdate(userId, { cartData: {} })` empties that user's cart, changes no other user, and does nothing for an unknown id |
| UserModel.InsertKeepsUnique | src/controllers/user.controller.js:30-45 | inserting a user whose email and username nobody holds keeps both unique across users |
| UserModel.UpdateKeepsUnique | src/controllers/user.controller.js:15-16 | rewriting a user with the same email and username keeps both unique |
| OrderModel.Create | src/models/order.model.js:4-39 | `Order.create` succeeds exactly when amount is given and ≥ 0 and paymentMethod is non-empty; the result is valid, has status "Order Placed", payment defaulted to false, items and address defaulted, and the given fields copied |
| OrderModel.PaidIsInvalid | src/models/order.model.js:22-26 | an order with the webhook's status "Paid" fails validation, because "Paid" is not in the enum |
| OrderRoute.RouteOf | src/routes/order.route.js:18-29 | exactly `/list` and `/status` are behind `isAdmin`; exactly the webhook has no guard, and only it uses the raw-body parser |
| OrderRoute.ReachWithoutCredentials | src/routes/order.route.js:18-29 | without credentials only the webhook is reachable; a signed-in non-admin cannot reach the admin routes |
| OrderController.ItemLines | src/controllers/order.controller.js:53-60 | one line per order item, in order, in "INR", with unit amount price × 100 and the item's quantity |
| OrderController.LineItems | src/controllers/order.controller.js:53-69 | one line per order item, in order, in "INR", with unit amount price × 100 and the item's quantity, then exactly one "Delivery Charges" line of 4000 paise, quantity 1; Stripe charges 100 × (Σ price × quantity + 40), independent of the client's `amount` |
| OrderController.ItemLinesTotal | src/controllers/order.controller.js:53-69 | the lines cost 100 times the items' price × quantity sum, plus 4000 |
| OrderController.VerifyUrl | src/controllers/order.controller.js:73-74 | the redirect URL `${origin}/verify?success=…&orderId=…`, an absent origin printed as "undefined"; no contract of its own, used by the two session builders below |
| OrderController.SessionParamsAsWritten | src/controllers/order.controller.js:72-78 | the session request as built: both redirect URLs, the line items, mode "payment", empty session metadata and the order id only in `payment_intent_data.metadata`; no contract of its own: `AsWrittenEventHasNoOrder` states what follows from it |
| OrderController.SessionParamsCorrected | src/controllers/order.controller.js:72-78 | the same request with the order id also in the session's own metadata; no contract of its own: `CorrectedEventNamesOrder` states what follows from it |
| OrderController.AsWrittenEventHasNoOrder | src/controllers/order.controller.js:72-97 | the completion event of the session as built names no order, because the id is only in `payment_intent_data.metadata` |
| OrderController.CorrectedEventNamesOrder | src/controllers/order.controller.js:72-97 | with the id also in the session's own metadata, the completion event names the order |
| OrderController.PlaceOrder | src/controllers/order.controller.js:12-29 | a COD order is created exactly when `Order.create` accepts the draft, and the buyer's cart is then emptied; otherwise a ValidationError and nothing changes; orders only evolve and statuses stay known |
| OrderController.PlaceOrderStripe | src/controllers/order.controller.js:31-83 | 400 with nothing stored when address, amount or a non-empty items list is missing; otherwise an unpaid order is stored before the session opens, and the session request as written (`SessionParamsAsWritten`: the order id only in `payment_intent_data.metadata`) is sent with `LineItems` of the items; the reply is the session URL or the gateway error; no cart is touched |
| OrderController.PlaceOrderStripeCorrected | src/controllers/order.controller.js:31-83 | the corrected handler: every outcome as in `PlaceOrderStripe`, except that the request sent is `SessionParamsCorrected`, which also names the order in the session's own metadata |
| OrderController.VerifyStripeWebhook | src/controllers/order.controller.js:85-107 | a forged payload gets 400, and other event types get 200, both with no change; a completed event marks the named order paid with status "Paid" and empties its owner's cart; an unknown id gets 400 and a malformed one a cast error |
| OrderController.VerifyStripePayment | src/controllers/order.controller.js:109-134 | missing fields give 400; exactly "true" sets payment and empties the caller's cart; any other truthy value sets "Cancelled" and answers 400; payment is never cleared |
| OrderController.Cancellable | src/controllers/order.controller.js:140 | the filter of `cancelOrder`: the order exists, belongs to the caller and is not "Cancelled"; no contract of its own: `CancelOrder` states its effect |
| OrderController.CancelOrder | src/controllers/order.controller.js:136-147 | the caller's order, if not already Cancelled, gets status "Cancelled" and nothing else changes; any other order gets 404; a malformed id gets a cast error |
| OrderController.UserOrders | src/controllers/order.controller.js:149-155 | 200 with exactly the caller's orders, possibly none |
| OrderController.GetAllOrders | src/controllers/order.controller.js:157-162 | 404 exactly when the store is empty, otherwise every order |
| OrderController.UpdateOrderStatus | src/controllers/order.controller.js:164-185 | checks in order: a status outside the six gives 400, an unknown order 404, the current status 400; otherwise the status is set in any direction and saved, failing the save's validation when the order is otherwise invalid |
| CartController.PlusOne | src/controllers/cart.controller.js:17 | `+= 1` on a stored quantity: a number gains 1, a string gets "1" appended, a boolean counts as 0 or 1; no contract of its own: `AddOneCounts` states the numeric case |
| CartController.AddOne | src/controllers/cart.controller.js:13-24 | a held size is incremented; an absent item, absent size or falsy quantity becomes 1; the item and the size are then keys |
| CartController.AddOneKeepsOthers | src/controllers/cart.controller.js:13-24 | an add leaves every other size of the item and every other item as it was |
| CartController.AddOneCounts | src/controllers/cart.controller.js:15-20 | one add to a numeric quantity k (0 when not held) leaves k + 1 |
| CartController.SetQuantity | src/controllers/cart.controller.js:40-42 | the one quantity is replaced verbatim and every other entry is kept |
| CartController.AddTimesCounts | src/controllers/cart.controller.js:15-24 | adding an unheld item and size n times leaves quantity n |
| CartController.AddTimesIncrements | src/controllers/cart.controller.js:15-24 | adding to a held quantity q, n times, leaves q + n |
| CartController.BumpCommutes | src/controllers/cart.controller.js:15-20 | increments of two different sizes of one item commute |
| CartController.AddOneCommutesSizes | src/controllers/cart.controller.js:15-20 | adds for two different sizes of one item commute |
| CartController.AddOneCommutesItems | src/controllers/cart.controller.js:13-24 | adds for two different items commute |
| CartController.AddOneCommutes | src/controllers/cart.controller.js:15-24 | adds for different item-size pairs commute |
| CartController.ZeroedEntryRestarts | src/controllers/cart.controller.js:16-42 | after a quantity is set to 0, `updateCart` refuses the entry and `addToCart` restarts it at 1 |
| CartController.AddToCart | src/controllers/cart.controller.js:6-30 | an unknown user gets 404 with no change; otherwise the caller's stored cart becomes `AddOne` of it and is returned |
| CartController.UpdateCart | src/controllers/cart.controller.js:32-48 | an unknown user or an entry not held gets 404 with no change; otherwise the stored cart becomes `SetQuantity` of it |
| CartController.GetUserCarts | src/controllers/cart.controller.js:50-59 | 404 exactly for an unknown user, otherwise the stored cart, unchanged |
| ProductModel.Create | src/models/product.model.js:3-60 | `Product.create` succeeds exactly when the required fields are present and the numbers cast and lie in bounds; the result is valid, its name trimmed, `bestseller`, `discount` and `embedding` defaulted, and the remaining fields copied |
| ProductModel.TrimIdempotent | src/models/product.model.js:7 | trimming twice is trimming once, so a stored name is already trimmed |
| ProductModel.CreateAcceptsValid | src/models/product.model.js:3-60 | every valid product without an embedding is what `create` makes of its own fields |
| ProductController.FirstFiles | src/controllers/product.controller.js:17-19 | at most one file per key |
| ProductController.FirstFilesAppend | src/controllers/product.controller.js:17-19 | the files picked for a list of keys are the picks for its parts, in order |
| ProductController.SlotImages | src/controllers/product.controller.js:17-19 | the images are the first file of image1, image2, image3 and image4, in that order, skipping absent slots |
| ProductController.NoImagesIffEmptySlots | src/controllers/product.controller.js:17-23 | there are no images exactly when none of the four slots holds a file |
| ProductController.DiscountPriceRounds | src/controllers/product.controller.js:44 | the discounted price is price × (100 − discount) / 100 rounded to the nearest integer, halves up |
| ProductController.DiscountPriceNoDiscount | src/controllers/product.controller.js:44 | discount 0 gives the full price |
| ProductController.DiscountPriceBounds | src/controllers/product.controller.js:44 | within the schema's bounds the discounted price lies between 0 and the price |
| ProductController.DiscountPrice | src/controllers/product.controller.js:44 | `Math.round((price * 100 - price * discount) / 100)` on integers; no contract of its own: `DiscountPriceRounds`, `DiscountPriceNoDiscount` and `DiscountPriceBounds` state its rounding and bounds |
| ProductController.StoredDiscount | src/controllers/product.controller.js:51 | `discount ? Number(discount) : 0`; no contract of its own: `EmptyDiscountKeepsPrice` and `MissingDiscountRejected` state its cases |
| ProductController.ProductDraft | src/controllers/product.controller.js:44-57 | the fields handed to `Product.create`: price and discount through `Number`, `bestseller` exactly for "true", the discounted price from the raw arithmetic; no contract of its own: `DecimalFormCreates` and `MissingDiscountRejected` state what `create` makes of it |
| ProductController.MissingDiscountRejected | src/controllers/product.controller.js:44-60 | a form without a discount field never creates a product: the stored discount defaults to 0, but the discounted price is NaN |
| ProductController.EmptyDiscountKeepsPrice | src/controllers/product.controller.js:44-53 | an empty discount is stored as 0 and keeps the full price |
| ProductController.DecimalFormCreates | src/controllers/product.controller.js:44-60 | a filled form with decimal price and an in-range discount creates the product with the rounded price; bestseller is true exactly for "true" |
| ProductController.Buffered | src/controllers/product.controller.js:25-31 | the uploads attempted are exactly the images that have a buffer |
| ProductController.UploadAll | src/controllers/product.controller.js:25-31 | one upload per image, in slot order, of that image's buffer and mimetype |
| ProductController.StoredImages | src/controllers/product.controller.js:37-40 | one stored image per upload, with its `secure_url` and `public_id` |
| ProductController.StoreProduct | src/controllers/product.controller.js:25-66 | settles as `Settles` says; the store changes exactly when it answers 201, and then holds the valid created product under the fresh id |
| ProductController.AddProduct | src/controllers/product.controller.js:9-71 | always replies; 400 for no files or no image; 500 with the message for a missing buffer, any failed upload, a sizes parse error or a validation failure, with no change; 201 with the created valid product, stored under the fresh id |
| ProductController.HandleAllProducts | src/controllers/product.controller.js:74-82 | 404 exactly when the store is empty, otherwise every product |
| ProductController.SingleProduct | src/controllers/product.controller.js:112-126 | 400 exactly for a malformed id, 404 exactly for an unknown one, otherwise the stored product |
| ProductController.RemoveProduct | src/controllers/product.controller.js:84-110 | 400 for a malformed id and 404 for an unknown one, with nothing destroyed; otherwise one destroy per stored image, then exactly that product is deleted, unless a destroy fails, in which case the product stays and a failure is thrown |
| Multer.FileFilter | src/middlewares/multer.js:5-14 | accepts exactly when one of the five image words occurs at some position of the mimetype and one occurs at some position of the lowercased name; a rejection carries the fixed message |
| Multer.LowerCharIdempotent | src/middlewares/multer.js:7 | lowercasing a character twice is lowercasing it once |
| Multer.NameCaseIgnored | src/middlewares/multer.js:7 | a name and its lowercase form are filtered alike |
| Multer.NoSmallLetterNoWord | src/middlewares/multer.js:6 | a word starting with a small letter never occurs in a string without small letters |
| Multer.MimetypeCaseMatters | src/middlewares/multer.js:7 | the mimetype is not lowercased: "IMAGE/PNG" is refused |
| Multer.NameCaseFolded | src/middlewares/multer.js:7 | the name is lowercased: "PHOTO.PNG" with "image/png" is accepted |
| Multer.ToLowerConcat | src/middlewares/multer.js:7 | lowercasing distributes over concatenation |
| Multer.ImageWordInContext | src/middlewares/multer.js:6 | an image word stays found whatever surrounds it |
| Multer.AcceptedInAnyContext | src/middlewares/multer.js:6-7 | the pattern is unanchored: text around an accepted mimetype or name keeps the file accepted |
| AuthMiddleware.HeaderToken | src/middlewares/auth.middleware.js:7 | no header gives no token, and a token never contains a space |
| AuthMiddleware.HeaderTokenOfScheme | src/middlewares/auth.middleware.js:7 | `<scheme> <token>` yields the token |
| AuthMiddleware.ExtractToken | src/middlewares/auth.middleware.js:7 | no header, or one without a space, gives the `accessToken` cookie; a header with exactly one space gives what follows it when that is non-empty, and the cookie otherwise; any token other than the cookie is a non-empty, space-free piece of the header |
| AuthMiddleware.Classify | src/middlewares/auth.middleware.js:24-31 | the replacement error is 401 exactly for the two JWT error names, otherwise 403 |
| AuthMiddleware.VerifyJwt | src/middlewares/auth.middleware.js:6-33 | passes exactly when a token is found, verifies and names a stored user; no token is 401 outside the `try`; every refusal is 401 or 403 |
| AuthMiddleware.TokenErrors | src/middlewares/auth.middleware.js:25-28 | an expired token gets 401 "Access token expired", a malformed one 401 "Invalid access token" |
| AuthMiddleware.UnknownUserForbidden | src/middlewares/auth.middleware.js:16-31 | a valid token whose user is gone gets 403 "Access forbidden", not the 401 thrown for it |
| AdminMiddleware.Rethrow | src/middlewares/admin.middleware.js:20-29 | always an ApiError with a non-zero code and a non-empty message; the two JWT errors become 401; any other error keeps its message when it has one, an ApiError keeps its code only when the class sets `status`, and an error without `status` becomes 500 |
| AdminMiddleware.IsAdmin | src/middlewares/admin.middleware.js:4-30 | passes exactly when a token is found, verifies and carries the role "admin" |
| AdminMiddleware.OwnErrorsRemapped | src/middlewares/admin.middleware.js:8-28 | the missing-token and non-admin errors keep their messages, but their 401 or 403 survives only if ApiError sets `status`; otherwise both become 500 |
| AdminMiddleware.VerifyErrors | src/middlewares/admin.middleware.js:12-28 | expired and malformed tokens get 401, and a token not yet active gets 500 |
| App.CorsOrigin | src/app.js:7-16 | for any list of comma-free entries that `CORS_ORIGIN` joins, allows exactly a falsy origin or one equal to an entry; a refusal carries the "Not allowed by CORS" error |
| App.SpacedListRefusesSecond | src/app.js:7-11 | entries are not trimmed: after ", " the second origin is refused |
| App.ErrorResponse | src/app.js:40-47 | the status is never 0: an ApiError answers with its code exactly when the class stores it in `statusCode`, otherwise 500, and an error without `statusCode` (cast, validation, JWT, CORS) answers 500; `success` is false; the message is never empty and is the error's own when it has one; the given errors or []; the stack exactly in development |
| App.AdminRefusalsAnswer500 | src/app.js:41 | under an ApiError that sets only `statusCode`, an admin route without a token or with a non-admin token answers 500 |
| App.SignedInRefusalAnswers401 | src/app.js:41 | the missing-token refusal of `verifyJWT` answers 401 |
| App.RefusedUploadAnswer | src/app.js:40-47 | a file the filter refuses answers 500 with the filter's message |
| UserController.GenerateTokens | src/controllers/user.controller.js:9-21 | an unknown user gets 500 with no change; otherwise the new refresh token is stored on that user and both tokens are returned |
| UserController.Registration | src/controllers/user.controller.js:23-45 | blank fields 400 first, then a taken username 409, then a taken email 409; admission exactly when all fields are filled and both are free; the record holds the fields |
| UserController.RegistrationKeepsUnique | src/controllers/user.controller.js:30-45 | an admitted registration keeps emails and usernames unique |
| UserController.RegisterUser | src/controllers/user.controller.js:23-64 | a refusal changes nothing; an admission stores the user with the issued refresh token and answers 201 with the public record; uniqueness is kept |
| UserController.LoginUser | src/controllers/user.controller.js:66-105 | no identifier 400, no user whose username or email matches 404, wrong password 401 with no change; otherwise the matched user's refresh token is stored and returned |
| UserController.LogoutUser | src/controllers/user.controller.js:107-121 | the caller's stored refresh token is removed and nothing else changes |
| UserController.CheckRefresh | src/controllers/user.controller.js:130-141 | a token is accepted exactly when it verifies, names a stored user, and equals that user's stored token |
| UserController.NoStoredTokenNoRefresh | src/controllers/user.controller.js:107-141 | a user with no stored token, as after logout, cannot be refreshed with any token |
| UserController.RefreshAccessToken | src/controllers/user.controller.js:123-153 | a missing token gets 401; an accepted token rotates the holder's stored token; every failure inside the `try` (the 402s included) is 401 with its message |
| UserController.OtpSixDigits | src/controllers/user.controller.js:161 | every OTP is a number from 100000 to 999999, printed with six digits |
| UserController.EveryOtpReachable | src/controllers/user.controller.js:161 | every six-digit number is the OTP for some random draw |
| UserController.GenerateOtp | src/controllers/user.controller.js:156-174 | no email 400; otherwise the OTP and expiry now + 120000 are set on the user with the email, or on a new record holding only the email |
| UserController.GeneratedOtpWindow | src/controllers/user.controller.js:161-191 | a generated code is accepted exactly until 120000 ms after it was issued |
| UserController.NoOtpPassesWithoutOtp | src/controllers/user.controller.js:186-191 | a user who never asked for a code passes verification by sending none |
| UserController.VerifyOtp | src/controllers/user.controller.js:177-197 | a missing or unknown email 404; a mismatch 402 before an expiry 402; success sets the stored OTP to "" and keeps the expiry |
| UserController.ResetPassword | src/controllers/user.controller.js:199-210 | any user with the email gets the new password, with no OTP check; a missing or unknown email gets 403 |
| AdminController.GenerateToken | src/controllers/admin.controller.js:8-14 | a token exactly for a stored admin id; an unknown id is 404 |
| AdminController.RegisterAdmin | src/controllers/admin.controller.js:18-38 | blank fields 400, a taken email 409, both with no change; otherwise the record is stored and answered 201 without its password; emails stay unique |
| AdminController.RegistrationReplyHidesPassword | src/controllers/admin.controller.js:30-37 | the registration reply does not depend on the password |
| AdminController.LoginAdmin | src/controllers/admin.controller.js:42-66 | a missing email or password 400, an unknown email 404, a wrong password 401; otherwise a token for the matched admin; the store is only read, and with unique emails the match is the only one |
| AdminController.LogoutAdmin | src/controllers/admin.controller.js:68-70 | answers 200 and changes no stored admin |
| Scenarios.WebhookThenFailedRedirect | src/controllers/order.controller.js:85-134 | a webhook-paid order cancelled by a failed redirect ends paid and "Cancelled" |
| Scenarios.CancelTwice | src/controllers/order.controller.js:136-147 | the second cancellation gets 404 and changes nothing |
| Scenarios.ReopenCancelled | src/controllers/order.controller.js:164-185 | a cancelled order can be set back to "Order Placed" |
| Scenarios.SameStatusTwice | src/controllers/order.controller.js:164-185 | setting the same status a second time gets 400 and changes nothing |
| Scenarios.RedeliveredWebhookEmptiesCart | src/controllers/order.controller.js:95-104 | a redelivered completion event empties the cart again, losing items added in between |
| Scenarios.StripeCheckoutPays | src/controllers/order.controller.js:31-107 | through `PlaceOrderStripeCorrected`, Stripe's completion event for the session sent marks the placed order paid |
| Scenarios.AsWrittenCheckoutNeverPays | src/controllers/order.controller.js:31-101 | through `PlaceOrderStripe` as written, the completion event for the session it sent gets 400 from the webhook and the order stays unpaid |
| Scenarios.LogoutThenRefresh | src/controllers/user.controller.js:107-153 | after logout, the user's old refresh token gets 401 |
| Scenarios.RotationInvalidatesOldToken | src/controllers/user.controller.js:123-153 | a token used for a refresh is refused the second time |
| Scenarios.OtpBlocksRegistration | src/controllers/user.controller.js:23-174 | an OTP request for a new email creates a record, so registering with that email gets 409 |

## Left out

- Stripe, JWT, bcrypt, Cloudinary, `JSON.parse`, `Math.random` and `Date.now` are modelled only as the parameters they return; their internals are not part of this model.
- The welcome and OTP mails (`sendWelcomeEmail`, `sendOtp`) are SMTP I/O, not awaited, and decide nothing, so they are left out.
- Cookies and their options are not modelled. The bodies carry the tokens. `loginUser` sets its access token in a cookie named `token`, which `verifyJWT` does not read (it reads `accessToken`).
- The user and admin Mongoose models and `ApiError` are not part of this model. User fields are taken from their use in the controllers. Schema validation of users and admins, password hashing hooks and token contents are not modelled. `ApiError`'s observable shape is a parameter (`ApiErrorShape`).
- Mongoose internals beyond the rules stated in `Mongo`, `OrderModel.Create` and `ProductModel.Create` are not modelled: validation message texts, the upsert's defaults, and query casting other than ObjectIds.
- An undefined id or filter value matches no document in this model. Mongoose documents this for `findById(undefined)`, which it turns into a query for `_id: null`; for a filter object such as `{ email: undefined }` it may instead drop the condition and match an arbitrary document. The lines below name the handlers where that reading differs.
- UserController.VerifyOtp: a missing email is answered 404 like an unknown one; a match of an arbitrary user through `findOne({ email: undefined })` is not modelled.
- UserController.ResetPassword: a missing email is answered 403 like an unknown one; setting an arbitrary user's password through `findOne({ email: undefined })` is not modelled.
- OrderController.VerifyStripeWebhook: an event without `metadata.orderId` matches no order and gets 400; an update of an arbitrary order through `findByIdAndUpdate(undefined, …)` is not modelled.
- OrderController.CancelOrder: the order id is a string; an absent one, whose filter may reduce to the caller's first order that is not "Cancelled", is not modelled.
- Js.ToNumber: only blank strings and optionally signed runs of decimal digits are numbers; fractions, exponents, hexadecimal and "Infinity" are treated as NaN.
- ProductController.DiscountPrice: integer price and discount only; the rational case of `Math.round` is not modelled.
- Request fields are strings or absent, with these exceptions: the cart quantity and the redirect's `success` flag are `Json` values, the order's `amount` is an integer, its `address` an `Address` record, and its `items` a list of `OrderItem`s with integer price and quantity. An email or identifier sent as a JSON number or object is not modelled.
- OrderController.PlaceOrderStripe: `amount` is an integer or absent and `address` a record or absent; a string amount (truthy even as "0"), a fractional amount and an address that is not an object are not modelled.
- OrderController.ItemLines: prices and quantities are integers; a fractional price, whose `price * 100` Stripe may refuse, a missing price or quantity (NaN), and an `items` value that is not an array are not modelled.
- OrderModel.Create: `amount` is an integer; Mongoose's cast of a numeric string or a fraction is not modelled.
- Js.ToLower: only ASCII letters are lowercased; JavaScript's other case mappings, including those that change the length (U+0130 becomes two characters), are not modelled.
- Js.ReadTrimmed: reads only an empty string, a run of decimal digits, and a sign followed by one; every other text is NaN, as the `Js.ToNumber` line says.
- CartController.AddOne: the cart holds only its own keys; `cartData[itemId]` in JavaScript also finds inherited properties, so an item or size named "__proto__", "constructor" or "toString" is not modelled.
- CartController.AddToCart: inherits the `AddOne` restriction on item and size names.
- CartController.UpdateCart: the same inherited-key restriction applies to its lookup and its assignment.
- CartController.Updatable: an inherited property such as "constructor" would make `cartData[itemId]` truthy in JavaScript; the model sees only stored entries.
- Writes always succeed in this model. The branches that fire only when a write or a lookup right after a write fails are dead in a sequential model and are not modelled. These are: order.controller.js:26 and 51, cart.controller.js:27 and 45, user.controller.js:48-50, product.controller.js:62-64 and 105-107, admin.controller.js:33-35, and the session check at order.controller.js:80.
- Concurrency is not modelled: the webhook and the redirect are sequential calls, never interleaved.
- The global `express.json` at src/app.js:21 runs before the webhook route's `express.raw`. The signature check would then see a parsed object instead of the raw payload; the model takes the verified or forged delivery as given and does not model body parsing.
- `refreshAccessToken` has no route in src/routes/user.route.js; it is modelled as written all the same. `getCurrentUser` answers a constant and is not modelled.
- Logging (`console.log`, `console.error`) is left out.

## Findings

| source | as written | input that shows it | evidently intended | confidence | as-written member | corrected member |
|---|---|---|---|---|---|---|
| src/controllers/order.controller.js:77 | the Stripe session puts the order id only in `payment_intent_data.metadata`, while the webhook reads `session.metadata.orderId` (line 97) from the Checkout Session | any Stripe checkout: the `checkout.session.completed` event carries empty session metadata, so the webhook looks up an undefined order id, which matches no order (the model's rule for undefined ids), and answers 400 (`AsWrittenEventHasNoOrder`, `Scenarios.AsWrittenCheckoutNeverPays`); if Mongoose drops the undefined condition instead, it updates an arbitrary order, the placed one only by chance | the order id is also set in the session's own `metadata`, so the webhook marks the order paid (`CorrectedEventNamesOrder`, `Scenarios.StripeCheckoutPays`) | not executed; high | OrderController.PlaceOrderStripe | OrderController.PlaceOrderStripeCorrected |

# Megamart core in Dafny

A Dafny model of the core of Megamart, a grocery web shop with an Express/Mongoose server and a
React client. The model covers:

- the records the server stores: users, products, categories, orders, payments and reviews;
- the JSON envelopes every handler answers with;
- the handlers over those records: the cart engine, orders and their status, payment
  recording, sign-in by one-time password, user administration, products, categories,
  reviews, photo uploads and the login/order statistics;
- the client logic that drives these handlers: the cart page, the checkout panel, the admin
  lists of orders, users and products, the admin role gate, the OTP login form and the two
  charts' headline figures.

Mongo collections are classes holding a `map` from document id to record. Each handler that
writes is a method that `modifies` its store. Its `ensures` gives the whole new store and the
response, as functions of the old store and the request. A handler that only reads is a
function. The class invariant `Valid()` holds the unique indexes the schemas declare. Request
bodies are values of `Js.Field<T>`, which is absent (`undefined`), `null` or given, so that
JavaScript truthiness (`!x`, `x == null`, `x === undefined`) is modelled exactly.

Anything the code receives from outside becomes a parameter:

- the clock, `Math.random()` and `moment()`'s period starts;
- `jwt.verify`, bcrypt's hash and compare, and the OTP generator;
- the Razorpay gateway, Twilio's SMS outcome, the Cloudinary uploader and multer's stored
  file paths;
- the ids MongoDB assigns to new documents.

Client components are classes whose fields are the React state the modelled handlers change.
Their methods take the answers of the HTTP calls as parameters.

Each Dafny module corresponds to one source file:

- `Js`: helpers for JavaScript and Mongoose semantics;
- `Responder`: server/utils/responder.util.js;
- `GetId`: server/utils/getid.util.js;
- `AuthModel`, `OrderModel`, `PaymentModel`, `ProductModel` and `CategoryModel`: the schema
  files;
- `AuthController`, `UserController`, `CartController`, `OrderController`,
  `PaymentController`, `ProductController` and `CategoryController`: the controllers of the
  same names (`CategoryController` is categoryController.js);
- `AdminCategoryController`: category.Controller.js;
- `ReviewController`, `UploadController` and `LoginStats`: the review, upload and
  statistics controllers;
- `CartView`, `Checkout`, `AdminOrders`, `AdminUsers`, `AdminProducts`, `VerifyRole`,
  `LoginView` and `Graphs`: the client files.

Where the model departs from what a reader of the handlers might expect, it follows the code as
written:

- Query values go through the schema's `trim` setter, so `findOne({ phone })` compares
  trimmed phones.
- Updates through `findByIdAndUpdate` run validators only when the code asks for them
  (products and reviews do, orders and users do not). An order's `status` can therefore hold
  any string.
- Strict mode drops keys the schema does not declare: `image` for a category, `profilePhoto`
  for a user, and `phone` in a shipping address.

## Model

| member | source | states |
|---|---|---|
| Js.Trim | server/models/auth.model.js:15 | `String.prototype.trim` as the schemas' `trim` setter applies it: the result is a contiguous slice of the input, what it drops before and after is all white space, and it neither starts nor ends with white space |
| Js.TrimIsSlice | server/models/category.model.js:4 | the trimmed string is exactly the input with its leading and its trailing run of white space removed |
| Js.TrimStart | server/models/auth.model.js:15 | the leading run of white space is removed: what remains is a suffix of the input, every dropped character is white space and the first kept one is not |
| Js.TrimEnd | server/models/auth.model.js:15 | the trailing run of white space is removed: what remains is a prefix of the input, every dropped character is white space and the last kept one is not |
| Js.TrimEmpty | server/models/auth.model.js:15 | a value trims to the empty string exactly when it is all white space, which is when a `required` trimmed path fails |
| Js.TrimIdempotent | server/models/category.model.js:4 | trimming a value the setter has already trimmed changes nothing, so a trimmed query value meets the stored trimmed value |
| Js.TrimKeepsNoUpper | server/models/auth.model.js:13 | trimming a lower-cased e-mail keeps it free of capitals |
| Js.Lower | client/src/views/admin/order.jsx:36-39 | `toLowerCase` keeps the length, maps every character through the ASCII lower-casing and leaves no capital |
| Js.LowerIdempotent | client/src/views/admin/order.jsx:38-39 | lower-casing twice is lower-casing once, so a lower-cased search term is searched as itself |
| Js.EmptyIncluded | client/src/views/admin/order.jsx:38-39 | every string `includes` the empty search term |
| Js.SelfIncluded | client/src/views/admin/product.jsx:94 | every string `includes` itself |
| Js.Filter | client/src/views/admin/order.jsx:34 | `Array.prototype.filter` keeps exactly the elements that pass, never more than the input, and everything when all pass |
| Js.FilterAppend | client/src/views/admin/order.jsx:43-48 | filtering a concatenation is concatenating the filtered parts, so the kept elements stay in order |
| Js.FilterAgrees | client/src/views/admin/order.jsx:34-41 | two tests that agree on every element keep the same elements |
| Js.Decimal | server/models/order.model.js:51 | a number printed in a template literal is a non-empty string of digits, one digit long exactly for numbers below 10 |
| Js.DecimalValue | server/models/order.model.js:51 | reading the printed digits back gives the number, so the printed text determines the number |
| Js.CastErrors | server/models/payment.model.js:4-5 | the ObjectId cast reports nothing exactly when every given value, the empty string included, is 24 hexadecimal digits; every given value that is not reports its path's cast error, and there is at most one error per path |
| Js.EmptyIdCastFails | server/models/order.model.js:4 | an empty string given for an ObjectId path is that path's cast error, not a missing value |
| Js.GatewayIdNotObjectId | server/controller/payment.controller.js:44-46 | a Razorpay order id, which starts with `order_`, is never an ObjectId |
| Js.DigitsOrder | server/controller/loginStats.controller.js:35 | two digit strings of one length sort as strings in the order of the numbers they denote |
| Responder.SuccessResponse | server/utils/responder.util.js:1-7 | the envelope has exactly the keys `success`, `message` and `data`, with `success` true; `data` defaults to `{}` and the status to 200 |
| Responder.ErrorResponse | server/utils/responder.util.js:8-13 | the envelope has `success` false and the text under `error`, with no `message` key; the status defaults to 500 |
| Responder.Ok | server/utils/responder.util.js:1-7 | a success envelope carrying the given data and status |
| Responder.Fail | server/utils/responder.util.js:8-13 | an error envelope carrying the given text and status |
| Responder.Crash | server/controller/cart.controller.js:53-56 | a handler's `catch` block answers the thrown message with status 500 |
| GetId.UntilSpace | server/utils/getid.util.js:5 | the characters before the first space: a prefix with no space, followed by a space when it is not the whole string |
| GetId.SecondWord | server/utils/getid.util.js:5 | `split(" ")[1]` exists exactly when the header contains a space, and it contains no space |
| GetId.ExtractToken | server/utils/getid.util.js:5 | the token taken from the header or the body is never empty |
| GetId.SchemeIgnored | server/utils/getid.util.js:5 | any first word followed by a space and a token yields that token: the scheme is never checked |
| GetId.BodyTokenFallback | server/utils/getid.util.js:5 | without a header that contains a space, the body's `token` is used |
| GetId.GetRequestingUser | server/utils/getid.util.js:4-21 | an identity is found exactly when a token exists, `jwt.verify` accepts it, the payload has a truthy `_id` and that user is stored; the identity is then that stored user; a token that `jwt.verify` rejects fails with the library's own message; every other failure (no token, no payload, a falsy `_id`, an unknown user) fails with "Unauthorized" |
| AuthModel.ParseRole | server/models/auth.model.js:21-25 | a parsed role is one whose enum name is the string |
| AuthModel.RoleRoundTrip | server/models/auth.model.js:21-25 | every role's enum name parses back to that role |
| AuthModel.NewUser | server/models/auth.model.js:11-28 | a new user validates exactly when its trimmed phone is non-empty, else the error is the `required` message for `phone`; a valid one has the trimmed phone, the given code and expiry, role `customer`, is unverified, has no addresses and is not disabled |
| AuthModel.NormalizeEmail | server/models/auth.model.js:13 | a stored e-mail is the lower-cased input with exactly its leading and trailing white space removed, so it has no capitals and no white space at either end |
| AuthModel.ClearOtp | server/models/auth.model.js:30-34 | `clearOtp` unsets the code and its expiry and changes nothing else |
| AuthModel.StoreKeepsUnique | server/models/auth.model.js:13-15 | storing a user who shares no phone and no e-mail with another keeps both unique indexes |
| AuthModel.PhoneOwner | server/models/auth.model.js:15 | the user holding a phone, if any: none exactly when no stored user has it |
| AuthModel.FindByPhone | server/controller/auth.controller.js:15 | `findOne({ phone })` finds the owner of the trimmed phone |
| AuthModel.UserStore.constructor | server/models/auth.model.js:36 | an empty collection satisfies the unique indexes |
| AuthController.Reply | server/controller/auth.controller.js:24 | `res.json` without a status answers 200 with the body |
| AuthController.Refuse | server/controller/auth.controller.js:10 | `res.status(s).json({ error })` answers `s` with the error body |
| AuthController.SendOutcome | server/controller/auth.controller.js:6-29 | a falsy phone is refused with 400 and a phone that trims to nothing fails the save with 500, both changing nothing; for an existing owner only that user changes, gaining the code's hash and an expiry five minutes on; without one the new user `NewUser` builds is added under the new id when that id is free and every stored user has an e-mail, and otherwise the save fails under the unique e-mail index with 500 and nothing changes; the answer is 200 exactly when the store could be written and the SMS went out, and is then `{ message: "OTP sent successfully." }`, and otherwise 400 or 500 with its error body; the text goes to the phone as given |
| AuthController.SignUpConflict | server/models/auth.model.js:13 | a phone-only sign-up under a free id collides with a stored user exactly when some stored user has no e-mail, since the non-sparse unique index counts a missing e-mail as null |
| AuthController.EmaillessSignUpRefused | server/controller/auth.controller.js:16-27 | a second phone-only sign-up, while another user without an e-mail is stored, answers 500 "Failed to send OTP." and changes nothing |
| AuthController.SentCodeWindow | server/controller/auth.controller.js:13-20 | after a successful send the phone's holder has the texted code's hash, and the code counts as expired at a later time exactly when that time is past five minutes from the send |
| AuthController.SendKeepsUnique | server/controller/auth.controller.js:15-22 | `sendOtp` keeps the unique phone and e-mail indexes |
| AuthController.SendOtp | server/controller/auth.controller.js:6-29 | the handler's answer, new store and text are those `SendOutcome` gives, and the store stays valid |
| AuthController.OtpReply | server/controller/auth.controller.js:31-49 | `getOtp` answers 200 exactly when the phone is truthy, its owner exists and the code has not expired, and then sends the stored hash; a falsy phone is refused with 400 |
| AuthController.GetOtp | server/controller/auth.controller.js:31-49 | the handler answers what `OtpReply` gives and writes nothing |
| AuthController.VerifyOutcome | server/controller/auth.controller.js:51-79 | `verifyOtp` answers 200 exactly when both fields are truthy, the phone trims to something, its owner exists, the code has not expired, a hash is stored and `compare` accepts; then the owner is verified, loses the code and becomes the session's user; any other answer leaves the store unchanged, and the session changes only to the phone's owner |
| AuthController.Session.constructor | server/controller/auth.controller.js:71 | a new session has no user |
| AuthController.VerifyOtp | server/controller/auth.controller.js:51-79 | the handler's answer, store and session are those `VerifyOutcome` gives, and the store stays valid |
| AuthController.SentCodeStored | server/controller/auth.controller.js:15-22 | after a successful send, the same lookup finds a user holding the texted code's hash and its expiry |
| AuthController.SendThenGet | server/controller/auth.controller.js:31-44 | after a successful send, `getOtp` before the expiry answers the texted code's hash |
| AuthController.CodeUsedOnce | server/controller/auth.controller.js:69-78 | a code that signed in once answers 500 the second time, because the stored hash is gone |
| AuthController.SendThenVerify | server/controller/auth.controller.js:51-74 | the texted code signs in before it expires, when `compare` accepts a code against its own hash |
| AuthController.VerifySucceeds | server/controller/auth.controller.js:54-74 | verification signs in when the phone's owner has an unexpired hash that `compare` matches with the code |
| UserController.GetUserById | server/controller/user.controller.js:16-26 | found exactly when the id is stored, answering `{ user }`; otherwise 404 "User not found" |
| UserController.ApplyUserUpdate | server/controller/user.controller.js:28-39 | each key in the body replaces the stored value after the schema's setters: trimmed name and phone, lower-cased and trimmed e-mail; the code, its expiry and the disabled flag are left as stored |
| UserController.EmptyUserUpdate | server/controller/user.controller.js:32 | an empty body leaves the user as stored |
| UserController.UpdateUser | server/controller/user.controller.js:28-39 | an unknown id answers 404; an update that would share another user's phone or e-mail is refused with 500 by the unique index; otherwise the updated user is stored and sent back |
| UserController.RoleCheck | server/controller/user.controller.js:55-65 | a change is let through exactly when the requester is a superadmin, or an admin acting on a customer; each of the three refusals is characterised by its roles |
| UserController.RolePolicy | server/controller/user.controller.js:55-65 | a customer never changes an account, and only a superadmin changes a superadmin's |
| UserController.Requester | server/controller/user.controller.js:48-53 | the requester is found exactly when a token exists, `jwt.verify` accepts it and its `_id` is stored; a missing token or an unknown `_id` is unauthorized; a falsy payload or a rejected token throws |
| UserController.Guard | server/controller/user.controller.js:42-66 | the guards in order: an unknown target 404; no requester 401; a throw 500 with the action's text; a refused role 403 with the action's denial; none fails exactly when the target and requester exist and the roles allow it |
| UserController.SetDisabled | server/controller/user.controller.js:42-108 | a failing guard answers its response and changes nothing; past the guards a stored phone of `""` fails the save's `required` check and answers 500 "Failed to disable user" (or enable) with nothing changed; otherwise only the target's `disabled` flag is set to whether the action disables, the indexes stay valid, and the updated user is sent back |
| UserController.SavedAsWritten | server/controller/user.controller.js:67-68 | as written, the saved user keeps the `disabled` flag it was read with |
| UserController.ToggleAsWrittenLost | server/controller/user.controller.js:67-69 | as written, disabling an enabled user, or enabling a disabled one, reports success and leaves the flag as it was |
| UserController.SetDisabledOnlyFlag | server/controller/user.controller.js:67-69 | the intended change sets the flag to whether the action disables and changes nothing else in the user |
| CartController.CalculateTotalPrice | server/controller/cart.controller.js:7-16 | the loop's total is the sum of `currentPrice × quantity` over the lines whose product is found with a truthy price |
| CartController.FindIndex | server/controller/cart.controller.js:43 | `findIndex` gives -1 exactly when no line is for the product, otherwise the first line for it |
| CartController.AddItem | server/controller/cart.controller.js:43-48 | adding grows the first line for the product by the quantity and keeps the others, or appends a new line when there is none |
| CartController.RemoveItems | server/controller/cart.controller.js:70 | the filter keeps exactly the lines for other products |
| CartController.LinesFor | server/controller/cart.controller.js:70 | the lines the filter drops are all for the removed product |
| CartController.CartStore.constructor | server/controller/cart.controller.js:39-41 | a new store has no carts and is valid |
| CartController.TotalUpdateAt | server/controller/cart.controller.js:95-96 | changing one line changes the total by the difference of that line's values |
| CartController.LineValueAdds | server/controller/cart.controller.js:45 | a line's value is additive in its quantity |
| CartController.AddItemTotal | server/controller/cart.controller.js:43-50 | adding a quantity grows the total by that quantity's value, whether a line grows or a new one is appended |
| CartController.RemoveItemsTotal | server/controller/cart.controller.js:70-71 | the total splits into the kept lines' total and the removed lines' total |
| CartController.RemoveAbsent | server/controller/cart.controller.js:70 | removing a product the cart does not hold keeps every line in order |
| CartController.RemoveAppend | server/controller/cart.controller.js:70 | removal works piece by piece, so the kept lines keep their relative order |
| CartController.AddKeepsOneLine | server/controller/cart.controller.js:43-48 | adding keeps one line per product |
| CartController.RemoveKeepsOneLine | server/controller/cart.controller.js:70 | removing keeps one line per product |
| CartController.GetCart | server/controller/cart.controller.js:18-30 | a failed identity answers its error with 500; a user without a cart 404 "Cart not found"; otherwise the user's cart |
| CartController.AddToCart | server/controller/cart.controller.js:32-57 | a failed identity answers 500 and a falsy product or quantity 400, both changing nothing; otherwise the user's cart, created if absent, gets the added lines and the recomputed total, and is sent back |
| CartController.RemoveFromCart | server/controller/cart.controller.js:59-78 | a failed identity 500, a falsy product 400 and a missing cart 404, each changing nothing; otherwise every line for the product goes and the total is recomputed |
| CartController.QuantityOf | server/controller/cart.controller.js:84-95 | a given quantity is stored as it is, 0 included |
| CartController.UpdateCart | server/controller/cart.controller.js:80-103 | a failed identity 500; a falsy product or an absent quantity 400; a missing cart, or a cart without a line for the product, 404, each changing nothing; otherwise the first line for the product gets the new quantity and the total is recomputed |
| CartView.Populate | server/controller/cart.controller.js:21 | populating succeeds exactly when every line's product exists, giving one populated line per cart line in order |
| CartView.Subtotal | client/src/views/cart.jsx:89-92 | the subtotal of no lines is 0, and of lines with non-negative prices and quantities is non-negative |
| CartView.TotalOriginal | client/src/views/cart.jsx:94-97 | the original total of no lines is 0, and of lines with non-negative prices and quantities is non-negative |
| CartView.TotalItems | client/src/views/cart.jsx:105 | the item count of no lines is 0; over non-negative quantities it is non-negative and at least every line's quantity |
| CartView.SumsAppend | client/src/views/cart.jsx:89-105 | the subtotal, the original total and the item count each add up over a concatenation of carts |
| CartView.MoneySaved | client/src/views/cart.jsx:99 | the saving is never negative and is the excess of the original prices over the subtotal when there is one, else 0 |
| CartView.Total | client/src/views/cart.jsx:101-104 | with shipping, taxes and discount fixed at 0 the total is the subtotal |
| CartView.SubtotalIsServerTotal | client/src/views/cart.jsx:89-92 | when every product resolves, the page's subtotal is the total the server computes with `calculateTotalPrice` |
| CartView.Route | client/src/views/cart.jsx:34-42 | a quantity ≤ 0 sends a removal of that product, any other an update to that quantity |
| CartView.MinusQuantity | client/src/views/cart.jsx:135 | the − button asks for at least 1, one less when above 1, and so never removes the line |
| CartView.PlusQuantity | client/src/views/cart.jsx:143 | the + button asks for one more |
| CartView.CartPage.constructor | client/src/views/cart.jsx:9 | the page starts with no cart and no request sent |
| CartView.CartPage.UpdateQuantity | client/src/views/cart.jsx:34-51 | the routed request is sent; the cart is replaced only when the request succeeded and the refetch returned a cart |
| Checkout.AddressToUse | client/src/components/Checkout.jsx:67 | the new address when one is being added, otherwise the selected one |
| Checkout.PayCheck | client/src/components/Checkout.jsx:69-77 | an absent address or one with a falsy street, city, state, zip code or country is refused first; then a missing or zero total or an empty cart; nothing is refused exactly when all of these are present |
| Checkout.ShippingOf | server/models/order.model.js:18-24 | the stored address keeps the five schema fields and drops `phone` |
| Checkout.ItemAsWritten | client/src/components/Checkout.jsx:81-85 | as written, a posted line stores no product (its id goes under `productId`), with the quantity and the unit price |
| Checkout.ItemsAsWritten | client/src/components/Checkout.jsx:81 | one stored line per cart line, in order |
| Checkout.RequestAsWritten | client/src/components/Checkout.jsx:80-88 | the posted body has no `user`, and carries the lines, the total and the address |
| Checkout.AsWrittenAlwaysRejected | server/controller/order.controller.js:7-9 | every order the panel posts as written is refused by the server's field guard |
| Checkout.Item | client/src/components/Checkout.jsx:81-85 | the corrected line stores the product id under `product`, with the quantity and the unit price |
| Checkout.Items | client/src/components/Checkout.jsx:81 | one corrected line per cart line, in order |
| Checkout.OrderRequest | client/src/components/Checkout.jsx:80-88 | the corrected body carries the signed-in user's id as `user`, the lines, the total and the address |
| Checkout.CorrectedAccepted | server/controller/order.controller.js:4-17 | with the correction, an order from a signed-in user whose cart products are ObjectIds and that passes the panel's guards passes the server's field guard and validates |
| Checkout.PostedTotalIsCartTotal | client/src/components/Checkout.jsx:43-47 | when the cart populates, the total the corrected body posts is the total the server computes for the cart |
| Checkout.CheckoutPanel.constructor | client/src/components/Checkout.jsx:17 | the panel starts without the payment step and with nothing posted |
| Checkout.CheckoutPanel.FetchCart | client/src/components/Checkout.jsx:38-50 | a fetched cart replaces the lines and sets the total to their subtotal; a failed fetch changes nothing |
| Checkout.CheckoutPanel.HandlePay | client/src/components/Checkout.jsx:66-102 | a failing guard posts nothing and changes nothing; otherwise exactly the corrected body is posted, with the fetched lines and their subtotal as the total, and the payment step shows when the server reports the order created |
| OrderModel.StatusNames | server/models/order.model.js:25-29 | the six enum names are distinct and each is one the schema admits |
| OrderModel.NewOrder | server/models/order.model.js:9-47 | a new order validates exactly when it has at least one item, `user` is an ObjectId and every item's product is absent or an ObjectId (an empty one fails the cast); the error is the model's validation message over the cast errors and the `arrayLimit` error in schema order; a valid one has the given fields, status "Payment Pending", payment status "pending" and the creation time |
| OrderModel.EmptyOrderRefused | server/models/order.model.js:45-47 | an order without items is refused, with the `arrayLimit` message among its errors |
| OrderModel.ItemReferences | server/models/order.model.js:3-13 | one ObjectId path per item, named `orderItems.<index>.product`, holding that item's product |
| OrderModel.EmptyProductRefused | server/models/order.model.js:4 | an item whose product is the empty string makes the order fail validation, though `product` is not required |
| OrderModel.RandomSuffix | server/models/order.model.js:51 | `Math.floor(Math.random() * 10000)` lies in 0..9999 |
| OrderModel.OrderIdFor | server/models/order.model.js:51 | the generated id is `ORD-<millis>-<n>` for some n in 0..9999 |
| OrderModel.PreSave | server/models/order.model.js:49-54 | an order with a truthy `orderId` is left alone; any other gets a generated one; only `orderId` changes and it ends up truthy |
| OrderModel.PreSaveKeepsId | server/models/order.model.js:49-54 | saving again keeps the id the first save gave |
| OrderModel.OrderStore.constructor | server/models/order.model.js:10 | an empty collection satisfies the unique `orderId` index |
| OrderController.OrderFor | server/controller/order.controller.js:10-11 | past the guard, the order validates exactly when it has items, `user` is an ObjectId and every item's product is absent or an ObjectId, so an empty product fails; a failure carries the validation message of those errors; a success is the request's four fields with a generated id |
| OrderController.CreateOrder | server/controller/order.controller.js:4-17 | a missing field answers 400 "All order fields are required"; a validation failure (an empty or malformed item product among them) or a duplicate id answers 500; otherwise one order is inserted under the new id and sent back with 201 |
| OrderController.GetOrder | server/controller/order.controller.js:19-33 | found exactly when stored; otherwise 404 "Order not found" |
| OrderController.SetStatus | server/controller/order.controller.js:42 | only `status` changes, to the given string |
| OrderController.UpdateOrderStatus | server/controller/order.controller.js:35-51 | a falsy status answers 400 and an unknown id 404, both changing nothing; otherwise only that order's status changes |
| OrderController.ListOrders | server/controller/order.controller.js:53-65 | a truthy `userId` lists exactly that user's orders, otherwise all; every listed order is the stored one |
| PaymentModel.NewPayment | server/models/payment.model.js:3-11 | a payment validates exactly when every required field is present and `order` and `user` are ObjectIds; the error lists the cast errors of `order` and `user` (an empty one included) and then the missing paths, where a reference counts as missing only when absent; a valid one has the given fields and status "pending" unless one is given |
| PaymentModel.PaymentStore.constructor | server/models/payment.model.js:13 | a new collection is empty |
| PaymentController.OptionsFor | server/controller/payment.controller.js:21-25 | the gateway options carry the amount × 100, the currency ("INR" when absent), and a receipt named after the clock |
| PaymentController.CreatePaymentOrder | server/controller/payment.controller.js:15-35 | a falsy amount answers 400; a gateway throw 500 with its message; no order 500; otherwise the gateway's order with 201 |
| PaymentController.VerifiedPayment | server/controller/payment.controller.js:43-51 | past the guard the payment is the one the schema builds from the request; it validates exactly when the order id and the user id are both ObjectIds, and otherwise fails with the cast errors of those two; a valid one is "completed" with the order id used for both `order` and `razorpayOrderId` |
| PaymentController.GatewayOrderIdRefused | server/controller/payment.controller.js:43-51 | a Razorpay `order_…` id sent as `orderId` makes the payment fail validation, so no payment is recorded for it |
| PaymentController.VerifyPayment | server/controller/payment.controller.js:37-58 | a missing detail answers 400 and stores nothing; a payment that fails validation answers 500 with its message and stores nothing; otherwise exactly one payment is inserted under the new id, or a taken id answers 500; no order is read or written |
| ProductModel.NewProduct | server/models/product.model.js:3-37 | a new product validates exactly when its required fields are present and its category is an ObjectId; the error lists the category's cast error (an empty one included) and then the missing paths, where the category counts as missing only when absent; a valid one has the trimmed name and the defaults for stock, ratings and flags, with an explicit `null` stock kept as `null` |
| ProductModel.ProductStore.constructor | server/models/product.model.js:39 | a new collection is empty |
| ProductController.AddProductCheck | server/controller/product.controller.js:28-46 | the guards in order: a missing field, then a non-numeric price or stock, then a missing main image, each characterised exactly; an empty price or stock text passes all three, as `"" == null` and `isNaN("")` are false; when all pass no number field is NaN and a main image exists |
| ProductController.NumberCast | server/models/product.model.js:6-7 | the Number cast of a field `Number()` can read: the empty text becomes `null`, any other text its number |
| ProductController.DraftOf | server/controller/product.controller.js:38-70 | the built document carries the form's name, description, category and details, each price and the stock as the Number cast makes them (an empty text becomes `null`, not 0), the first main-image file and all gallery files |
| ProductController.EmptyPriceRefused | server/controller/product.controller.js:28-31 | an empty price text passes the handler's guards but the schema refuses it: the save fails and reports that price path as required |
| ProductController.EmptyStockStoredNull | server/models/product.model.js:15 | an empty stock text is stored as `null`, not as the default 0 |
| ProductController.AddProduct | server/controller/product.controller.js:4-78 | a failed guard answers 400 and a failed validation (an empty price among them) or a taken id 500 with its message, changing nothing; otherwise the new product is inserted and sent back with 201 |
| ProductController.GetProductById | server/controller/product.controller.js:80-92 | found exactly when stored; otherwise 404 "Product not found" |
| ProductController.MergeUpdates | server/controller/product.controller.js:97-108 | an empty-string category is removed from the update; uploaded files replace the main image and the gallery; nothing else in the body changes |
| ProductController.UpdateCastErrors | server/controller/product.controller.js:110 | the cast errors of the update: empty exactly when no price, stock or rating text is NaN and the category is absent or an ObjectId; a NaN original price is reported first |
| ProductController.UpdateErrors | server/controller/product.controller.js:110 | the update validators report `required` for a name that trims to nothing, an empty price text and an empty main image, each exactly when it occurs, and nothing else |
| ProductController.ApplyUpdate | server/controller/product.controller.js:110 | each of the thirteen keys present in the update, ratings and flags included, replaces the stored value (the name trimmed, a number text cast, an empty stock or rating text written as `null`), every absent key keeps the stored one, and the update's extra details override the stored ones |
| ProductController.EmptyUpdateIsIdentity | server/controller/product.controller.js:110 | an update with no keys changes nothing |
| ProductController.UpdateIdempotent | server/controller/product.controller.js:110 | applying the same update twice is applying it once |
| ProductController.UpdatesCompose | server/controller/product.controller.js:110 | two updates in a row, the second one accepted by the handler, are one update in which the later one's keys win |
| ProductController.UpdateProduct | server/controller/product.controller.js:94-119 | the first failed cast (a NaN price, stock or rating text, or a category that is not an ObjectId) answers 500 with that cast message; then an empty name, price or main image answers 500 with the validation message; an unknown id 404; each changes nothing; otherwise only that product changes, by the merged update |
| ProductController.DeleteProduct | server/controller/product.controller.js:121-133 | an unknown id answers 404 and changes nothing; otherwise exactly that product is removed and sent back |
| ProductController.ListProducts | server/controller/product.controller.js:135-143 | the whole collection |
| ProductController.ListProductsByCategory | server/controller/product.controller.js:145-154 | exactly the stored products of the category |
| CategoryModel.NewCategory | server/models/category.model.js:3-12 | a new category validates exactly when its trimmed name is non-empty; it is then top-level with the trimmed name |
| CategoryModel.SubCategories | server/models/category.model.js:14-18 | the virtual `subCategories` holds exactly the categories whose parent is the id |
| CategoryModel.TopLevel | server/models/category.model.js:7 | exactly the categories with a `null` parent |
| CategoryModel.ParentPartition | server/models/category.model.js:7-18 | sub-category sets of distinct ids are disjoint and disjoint from the top level, and every category is in exactly one of them |
| CategoryModel.NewCategoryTopLevel | server/models/category.model.js:7 | a freshly validated category is top-level |
| CategoryModel.CategoryStore.constructor | server/models/category.model.js:4 | an empty collection satisfies the unique name index |
| CategoryController.Created | server/controller/categoryController.js:16 | `create` succeeds exactly when the category validates and the new id is free; a validation failure answers its message |
| CategoryController.InsertKeepsUnique | server/models/category.model.js:4 | inserting a name no stored category has keeps the unique name index |
| CategoryController.AddCategory | server/controller/categoryController.js:4-22 | a falsy name answers 400 and a taken name 400 "Category already exists", changing nothing; otherwise the new category is inserted and sent back with 201 |
| CategoryController.GetCategories | server/controller/categoryController.js:24-32 | every stored category, with the handler's message |
| AdminCategoryController.AddCheck | server/controller/category.Controller.js:4-22 | the guards in order: a requester who is not an admin 403, a falsy name 400, no image file 400, a taken name 400; nothing is refused exactly when all pass |
| AdminCategoryController.SuperadminRefused | server/controller/category.Controller.js:5 | a superadmin is refused like any non-admin |
| AdminCategoryController.AddAsWritten | server/controller/category.Controller.js:24-27 | as written: a failing guard answers its refusal; past the guards `cloudinary` is not defined, so the handler answers 500 with that message |
| AdminCategoryController.AsWrittenNeverAdds | server/controller/category.Controller.js:4-40 | as written, no request adds a category: every answer is a refusal (400, 403) or a 500 |
| AdminCategoryController.AddCategory | server/controller/category.Controller.js:4-40 | with the uploader imported, as intended: a failing guard answers its refusal and an upload throw 500, changing nothing; otherwise the category is created without the image URL, which strict mode drops |
| AdminCategoryController.DeleteCategory | server/controller/category.Controller.js:52-68 | a non-admin 403 and an unknown id 404 change nothing; otherwise exactly that category is removed and its sub-categories keep their parent id |
| AdminCategoryController.DeleteKeepsChildren | server/controller/category.Controller.js:59 | deleting a category leaves every other category's sub-categories as they were, minus the deleted one |
| ReviewController.ReviewStore.constructor | server/controller/review.controller.js:1 | a new collection is empty |
| ReviewController.ReviewOf | server/controller/review.controller.js:10 | the new review carries the four request fields, with a non-zero rating |
| ReviewController.AddReview | server/controller/review.controller.js:4-17 | a falsy user, product or rating answers 400; a failing validator or taken id 500; otherwise exactly one review is stored and sent back with 201 |
| ReviewController.ApplyReviewUpdate | server/controller/review.controller.js:23 | each given key replaces the stored value; an empty update changes nothing |
| ReviewController.UpdateReview | server/controller/review.controller.js:19-32 | a failing validator answers 500 and an unknown id 404, changing nothing; otherwise only that review changes |
| ReviewController.DeleteReview | server/controller/review.controller.js:34-46 | an unknown id answers 404; otherwise exactly that review is removed and sent back |
| ReviewController.ListReviews | server/controller/review.controller.js:48-57 | exactly the reviews of the product |
| ReviewController.ListsPartition | server/controller/review.controller.js:51 | every review is in its own product's list and in no other |
| UploadController.AfterUpload | server/controller/uploadController.js:24-38 | only the named product changes: `productMain` replaces its main image and `productImages` appends to its gallery; every other product is unchanged |
| UploadController.GalleryAppends | server/controller/uploadController.js:35-37 | the gallery keeps its images in place and gains the new one last |
| UploadController.UploadPhoto | server/controller/uploadController.js:5-47 | no file 400; `profile` without a user 401, otherwise success with no stored change; a product type without a product id 400; the two product types update the catalog as `AfterUpload` says; any other type 400 |
| LoginStats.RangeOf | server/controller/loginStats.controller.js:7 | the range is the query's when truthy, else "month" |
| LoginStats.StartDate | server/controller/loginStats.controller.js:10-18 | "day", "week" and "month" start at the current period; any other range at the epoch |
| LoginStats.Insert | server/controller/loginStats.controller.js:30-33 | adding a record adds one to its day's count and its amount to its day's sum, and nothing to any other day |
| LoginStats.InsertDays | server/controller/loginStats.controller.js:30-33 | adding a record adds exactly its day to the grouped days |
| LoginStats.InsertAscending | server/controller/loginStats.controller.js:35 | adding a record keeps the groups in strictly ascending day order with positive counts |
| LoginStats.InsertAbove | server/controller/loginStats.controller.js:35 | groups later than a bound stay later than it when a later record is added |
| LoginStats.Group | server/controller/loginStats.controller.js:29-35 | the groups ascend by day, cover exactly the matched records' days, count each day's records and sum their amounts, and add up to all matched records |
| LoginStats.CountOnAscending | server/controller/loginStats.controller.js:35 | in sorted groups a day has one group, whose count and sum are the day's |
| LoginStats.NoLaterDay | server/controller/loginStats.controller.js:35 | a day before every group has no records |
| LoginStats.CivilDate | server/controller/loginStats.controller.js:31 | the calendar date of a day has a month in 1..12, a day in 1..31 and a year from 1970 |
| LoginStats.DaysFromJanuary | server/controller/loginStats.controller.js:31 | the days counted from 1 January are the year's length |
| LoginStats.DateFrom | server/controller/loginStats.controller.js:31 | walking the calendar from a year gives a valid date in that year or later |
| LoginStats.DateInYear | server/controller/loginStats.controller.js:31 | a day within the year falls in that year, on a day that exists in its month |
| LoginStats.DateInYearMonotone | server/controller/loginStats.controller.js:31 | within a year a later day has a later date |
| LoginStats.DateFromMonotone | server/controller/loginStats.controller.js:31 | a later day number has a later calendar date |
| LoginStats.Padded | server/controller/loginStats.controller.js:31 | a number padded to a width has at least that many digits |
| LoginStats.PaddedValue | server/controller/loginStats.controller.js:31 | a number below ten to the width pads to exactly the width, in digits that read back as the number |
| LoginStats.PaddedOrder | server/controller/loginStats.controller.js:31 | padded numbers of one width sort as strings in numeric order |
| LoginStats.DayKey | server/controller/loginStats.controller.js:31 | a `%Y-%m-%d` label has at least ten characters |
| LoginStats.LabelOrder | server/controller/loginStats.controller.js:31-35 | `y-m-d` labels with fields of fixed widths sort by year, then month, then day |
| LoginStats.DayKeyAscending | server/controller/loginStats.controller.js:31-35 | up to the year 9999 a later day has a label that sorts after, as strings |
| LoginStats.DayKeyInjective | server/controller/loginStats.controller.js:30-31 | up to the year 9999 two days share a label exactly when they are the same day, so grouping by label groups by day |
| LoginStats.EpochDate | server/controller/loginStats.controller.js:31 | day 0 is 1970-01-01 |
| LoginStats.LeapDay | server/controller/loginStats.controller.js:31 | day 789 is 1972-02-29 |
| LoginStats.CenturyRule | server/controller/loginStats.controller.js:31 | 2000 has a 29 February and 1900 does not |
| LoginStats.EpochKey | server/controller/loginStats.controller.js:31 | day 0 is labelled "1970-01-01" |
| LoginStats.SeriesOf | server/controller/loginStats.controller.js:76-78 | the label, count and sales arrays are aligned with the groups, position by position |
| LoginStats.LoginEntries | server/controller/loginStats.controller.js:20-28 | exactly the logins that exist and are not before the start, in stored order, one entry each on its day, adding nothing to a sum |
| LoginStats.OrderEntries | server/controller/loginStats.controller.js:62-65 | exactly the orders created since the start, in stored order, one entry each on its day with its total price; the entries' amounts add up to those orders' total prices |
| LoginStats.GetLoginStats | server/controller/loginStats.controller.js:5-46 | `{ labels, counts }` only, aligned with the day groups of the matching logins, each count positive, the counts adding up to the number of logins since the start date |
| LoginStats.GetOrderStats | server/controller/loginStats.controller.js:48-85 | `{ labels, counts, sales }`, aligned with the day groups of the matching orders, each count positive; the counts add up to the number of orders since the start date and the sales to their total prices |
| LoginStats.StatsAccount | server/controller/loginStats.controller.js:29-39 | the counts add up to the matched records and the sales to their amounts; each position holds its day's count and sum; the days ascend |
| LoginStats.LabelsAscend | server/controller/loginStats.controller.js:35 | groups sorted by day have labels sorted as strings, so the model's sort is the `$sort` on `_id` |
| LoginStats.SeriesSums | server/controller/loginStats.controller.js:76-78 | the arrays sum to the groups' counts and sums |
| Graphs.Total | client/src/components/SalesGraph.jsx:47 | the total of no values is 0 and of non-negative values is non-negative |
| Graphs.HalfIndex | client/src/components/SalesGraph.jsx:51 | `Math.floor(length / 2)` splits the series into halves whose lengths differ by at most one |
| Graphs.TotalAppend | client/src/components/SalesGraph.jsx:52-53 | the totals of two adjacent slices add up |
| Graphs.HalvesCoverTotal | client/src/components/LoginGraph.jsx:45-50 | the two halves together add up to the total, with the odd middle value in the second half |
| Graphs.Change | client/src/components/SalesGraph.jsx:54 | with no positive first half, and so with at most one value, the change is 0; otherwise it is non-negative exactly when the second half is at least the first |
| Graphs.GraphPanel.constructor | client/src/components/SalesGraph.jsx:32-33 | the figures start at 0 |
| Graphs.GraphPanel.Show | client/src/components/SalesGraph.jsx:47-55 | the total shown is the series' sum, which is also the sum of the halves, and the change is `Change` |
| AdminOrders.Part | client/src/views/admin/order.jsx:36 | an absent address part contributes the empty string |
| AdminOrders.AddressText | client/src/views/admin/order.jsx:35-36 | the searched address has no capitals and is as long as the five parts joined by single spaces, so an absent part adds only its separator |
| AdminOrders.FilteredOrders | client/src/views/admin/order.jsx:34-41 | exactly the orders whose lower-cased id or address contains the lower-cased term |
| AdminOrders.EmptySearchKeepsAll | client/src/views/admin/order.jsx:34-41 | an empty search keeps every order, in order |
| AdminOrders.SearchFindsId | client/src/views/admin/order.jsx:38 | searching for an order's id, as given or lower-cased, finds it |
| AdminOrders.SearchIgnoresCase | client/src/views/admin/order.jsx:38-39 | the search result does not depend on the term's letter case |
| AdminOrders.ActiveOrders | client/src/views/admin/order.jsx:43-45 | exactly the filtered orders whose status is "pending" or "shipped" |
| AdminOrders.CompletedOrders | client/src/views/admin/order.jsx:46-48 | exactly the filtered orders whose status is "delivered" or "cancelled" |
| AdminOrders.TabsDisjoint | client/src/views/admin/order.jsx:43-48 | no order is in both tabs, and both draw from the search result |
| AdminOrders.StatusTabs | server/models/order.model.js:27 | of the schema's statuses only "shipped" passes the active test and only "delivered" the completed one |
| AdminOrders.EnumStatusesMostlyUnlisted | client/src/views/admin/order.jsx:43-48 | an order in "Payment Pending", "Order Confirmed" or either cancelled status is in neither tab |
| AdminOrders.NewOrderUnlisted | server/models/order.model.js:28 | a newly created order, in its default status, is in neither tab |
| AdminOrders.OrderRow.constructor | client/src/views/admin/order.jsx:146 | the drop-down starts at the order's status |
| AdminOrders.OrderRow.Select | client/src/views/admin/order.jsx:146 | choosing a status sets the selection |
| AdminOrders.OrderRow.UpdateClick | client/src/views/admin/order.jsx:148-154 | a request is sent exactly when the chosen status differs from the current one, naming this order and the chosen status |
| AdminOrders.SentUpdateChangesStatus | server/controller/order.controller.js:42 | a sent update gives the stored order the chosen status, which is a real change |
| AdminUsers.Marked | client/src/views/admin/user.jsx:43-47 | the rows for the user get the new flag and nothing else changes; every other row is kept |
| AdminUsers.MarkedKeepsMirror | client/src/views/admin/user.jsx:36-71 | a list that shows the store still shows it after the server's intended change and the local marking |
| AdminUsers.Toggled | client/src/views/admin/user.jsx:73-75 | the open menu closes and any other opens |
| AdminUsers.ToggleTwice | client/src/views/admin/user.jsx:73-75 | toggling the same user twice reopens that user's menu if it was open, and otherwise leaves no menu open |
| AdminUsers.UserList.constructor | client/src/views/admin/user.jsx:16-18 | the list holds the fetched users with no menu open |
| AdminUsers.UserList.AfterPatch | client/src/views/admin/user.jsx:36-71 | after a successful request the user's rows are marked and the menu closes; after a failure nothing changes |
| AdminUsers.UserList.ToggleDropdown | client/src/views/admin/user.jsx:73-75 | only the open menu changes, as `Toggled` says |
| AdminProducts.Listing | server/controller/product.controller.js:137 | a listed product's category name is present exactly when its category is stored, and is that category's name |
| AdminProducts.CategoryLabel | client/src/views/admin/product.jsx:95 | the label is the populated category's name, or empty without one |
| AdminProducts.FilteredProducts | client/src/views/admin/product.jsx:93-96 | exactly the products whose name or category label contains the term, ignoring letter case |
| AdminProducts.EmptySearchKeepsAll | client/src/views/admin/product.jsx:93-96 | an empty search keeps every product |
| AdminProducts.SearchKeepsOrder | client/src/views/admin/product.jsx:93 | the search keeps the list's relative order |
| AdminProducts.SearchFindsCategory | client/src/views/admin/product.jsx:95 | searching for a category's name finds every product in it |
| AdminProducts.DeleteRequest | client/src/views/admin/product.jsx:81-84 | the delete is sent for the product exactly when the dialog is confirmed |
| AdminProducts.StrikeMeansMarkdown | client/src/views/admin/product.jsx:33 | for a non-negative price the original is struck through exactly when it is higher; no original price shows none |
| VerifyRole.Verify | client/src/util/verifyRole.util.js:4-30 | without a token no request is made, the flag is not set and the user is redirected; otherwise the bearer header is sent and the flag is true exactly when the answer's role is "admin" or "superadmin"; the user is redirected exactly when the flag is not true |
| VerifyRole.FlagOfRole | client/src/util/verifyRole.util.js:17 | for the schema's roles the flag is set exactly for admin and superadmin |
| VerifyRole.HeaderCarriesToken | client/src/util/verifyRole.util.js:13-15 | the header the client sends gives the server's token extraction back the stored token |
| LoginView.JoinFull | client/src/views/login.jsx:55-56 | with one character per box at most, the code is as long as the boxes exactly when no box is empty |
| LoginView.JoinCharacters | client/src/views/login.jsx:55 | joining the boxes of a code typed one character per box gives the code |
| LoginView.FocusAfterChange | client/src/views/login.jsx:33-36 | typing a character into a box before the last moves the focus to the next box; any other change leaves the focus where it was |
| LoginView.FocusAfterKey | client/src/views/login.jsx:39-52 | ArrowRight moves right unless on the last box, ArrowLeft left unless on the first, Backspace left from an empty box; other keys stay |
| LoginView.VerifyRequest | client/src/views/login.jsx:54-80 | the verify request is sent exactly when the code is complete, the current hash arrived and `compare` matches, and it carries the phone and the code |
| LoginView.OtpForm.constructor | client/src/views/login.jsx:9-11 | step 1, an empty number and six empty boxes |
| LoginView.OtpForm.EnterMobile | client/src/views/login.jsx:10 | only the number changes |
| LoginView.OtpForm.SubmitMobile | client/src/views/login.jsx:14-27 | an empty number sends nothing; otherwise it is sent and the step becomes 2 when the send succeeded |
| LoginView.OtpForm.OtpChange | client/src/views/login.jsx:29-37 | only the box changes, and the focus follows `FocusAfterChange` |
| LoginView.OtpForm.KeyDown | client/src/views/login.jsx:39-52 | only the focus changes, as `FocusAfterKey` says |
| LoginView.OtpForm.VerifyPressed | client/src/views/login.jsx:54-80 | the request sent is the one `VerifyRequest` gives, and a sent code has six characters |
| LoginView.TypedCodeIsSent | client/src/views/login.jsx:54-80 | a six-character code typed box by box is sent as typed once the hash matches |
| LoginView.EmptyBoxBlocks | client/src/views/login.jsx:56-59 | an empty box blocks the request whatever the server answers |

## Left out

- I/O, the network, the database engine, concurrency between requests and partial failures
  inside a handler. A handler is atomic here, and its `catch` block is modelled only where
  the failure is one the model can name.
- cart.model.js and review.model.js are not part of this model. The cart and review records
  are the fields the handlers read and write, with no validators.
- Object-id casting is modelled where a document is built (payments, orders, products) and
  where a product update sets its category: a value casts exactly when it is 24 hexadecimal
  digits, so the empty string fails and is not treated as missing. The other forms the ObjectId constructor accepts (a 12-character string, a number)
  are not modelled. The cast message follows Mongoose 8's wording, which differs between
  versions.
- Lookups by id (`findById`, `find({ category })` and the like) treat a malformed id like an
  unknown one. Mongoose answers such an id with a 500 cast error.
- `populate`: handlers return the stored references. Only the cart page's and the admin
  product list's views of the populated data are modelled (`CartView.Populate`,
  `AdminProducts.Listing`).
- Numbers are integers in the source's own unit (whole rupees). Fractional prices and
  quantities, NaN, and quantities sent as strings are not modelled. A product form's number
  fields are texts: one that reads as a number, the empty text (cast to `null`), or one that
  reads as NaN.
- ProductController.UpdateProduct: when several fields fail, the query reports them in the
  update's key order, which is the order the form sent them. The model takes schema order.
  The four flags are taken as booleans already; a text Mongoose's Boolean cast refuses is not
  modelled.
- Money is not converted to paise except where the code does it itself: the gateway's
  `amount * 100` is kept explicit.
- CartController.UpdateCart: a `null` quantity is stored as 0, where Mongoose keeps `null`.
  The totals agree, because JavaScript arithmetic treats `null` as 0 in `calculateTotalPrice`
  and in `+=`; only the echoed line differs.
- The percentage saved on the cart page, and the chart growth figure's exact value, involve
  floating-point division. `Graphs.Change` is stated by its sign and its zero case only.
- Floating point in `Math.random()`: the draw is a real in [0, 1).
- The external services are parameters or left out: the Razorpay gateway, Twilio's delivery,
  Cloudinary, multer, bcrypt, jsonwebtoken, the OTP generator, the clock and `moment()`.
- Timestamps other than an order's `createdAt` are not modelled.
- `disabled` is not a path of the User schema. `UserController.SetDisabled` models the
  intended update; the code as written is a finding below.
- `getUsers` (user.controller.js:6-14) is the identity on the collection and is not modelled
  separately. The admin user list takes its users as a parameter.
- The `verifyOtp` answer carries no token, so the client never stores one. The login form
  models the request, not the token.
- The User schema has no `profilePhoto` and the Category schema has no `image`. Strict mode
  drops both, so the model stores neither.
- `req.user`, which the admin category handlers test, is never set by any route. It is a
  parameter of those handlers.
- The two `getCategories` handlers are identical and are modelled once
  (`CategoryController.GetCategories`).
- The User schema has no `lastLogin`. The login statistics take the stored login times as an
  input sequence.
- LoginStats.Group: the statistics group and sort by day number, where the server groups and
  sorts by the `%Y-%m-%d` label. `LoginStats.DayKeyInjective` and `LoginStats.LabelsAscend`
  show the two agree up to the year 9999; later years, whose labels have five-digit years,
  are not covered. `LoginStats.CivilDate` is the proleptic Gregorian calendar over day
  numbers in UTC, `$dateToString`'s default; no other time zone is applied.
- Js.LexLess compares characters by code point, where JavaScript compares UTF-16 code units.
  The two agree below U+10000, which includes the ASCII labels it is used on.
- `UserController.ApplyUserUpdate` leaves `otp` and `otpExpiresAt` as stored: a body that
  sets them through `updateUser` is not modelled.
- UserController.ApplyUserUpdate: a body's `role` is one of the schema's three roles.
  `updateUser` runs no validators, so the source stores any string given. A string role would
  need every later `save()` of that user to be modelled as failing its enum check, which the
  model does not do.
- Js.Lower maps only A to Z. `toLowerCase` also lower-cases other Unicode capitals, which the
  model leaves unchanged.
- AuthModel.NormalizeEmail lower-cases through `Js.Lower` and so shares its A-to-Z limit.
- The statistics handlers' 500 answers are not modelled.
- `AdminOrders.OrderRow.UpdateClick`: the refetch after a status change is not modelled, and
  the toast for an unchanged status is not modelled.
- `LoginView.OtpForm`: the DOM focus is kept as a field. The resend button, navigation and
  toasts are not modelled.
- `AdminProducts.CategoryLabel`: a populated category is assumed to have a name, which the
  schema requires. A category populated as `null` falls back to the empty label, as the code
  does for a missing reference.
- The client's fetch-time loading and error states, and everything that is only rendering,
  are not modelled.

## Findings

| source | as written | input that shows it | evidently intended | confidence | as-written member | corrected member |
|---|---|---|---|---|---|---|
| client/src/components/Checkout.jsx:80-88 | the order body has no `user` key, and each line sends its product under `productId`, which the order item schema does not declare | any cart and any complete address: the posted body lacks `user`, so `createOrder`'s guard answers 400 | send the signed-in user's id as `user` and the product id under `product` | not executed | Checkout.RequestAsWritten, Checkout.AsWrittenAlwaysRejected | Checkout.OrderRequest, Checkout.CorrectedAccepted |
| server/controller/category.Controller.js:24-27 | `cloudinary.uploader.upload` is called, but the file never imports `cloudinary` | any admin request with a fresh name and an image file: line 25 throws a ReferenceError and the `catch` answers 500 "cloudinary is not defined" | import the uploader, so that the image is uploaded and the category created | not executed | AdminCategoryController.AddAsWritten, AdminCategoryController.AsWrittenNeverAdds | AdminCategoryController.AddCategory |
| server/controller/user.controller.js:67-68 | `targetUser.disabled = true` (and `= false` in `enableUser`) writes a path the User schema does not declare, so the save stores nothing | an admin disabling a customer who is enabled: the answer is "User disabled successfully" and the stored user is still enabled | store the flag, with a `disabled` path in the schema | not executed | UserController.SavedAsWritten, UserController.ToggleAsWrittenLost | UserController.SetDisabled, UserController.SetDisabledOnlyFlag |

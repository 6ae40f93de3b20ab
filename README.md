# Alipay checkout demo — a Dafny model

This project models the checkout demo's payment flow across its two tiers.

The single-page front end (`frontend/src/App.js`) has three parts:
- The **checkout view** holds a cart of line items. It derives subtotal, tax, total and the amount in cents. It builds the payment request and stores a *pending payment handle* (`paymentUrl`, `orderNo`) in session storage when the back end accepts the payment.
- The **processing view** reads that handle. It sends the browser to the gateway's page and polls the status endpoint until the payment is settled.
- The **return view** reads the order number from its query string. It asks for the status once and shows success, failure or a pending notice.

The Spring back end also has three parts:
- The **`Payment` entity** (`Payment.java`) has lifecycle hooks and column constraints.
- The **payments table**, behind the `PaymentRepository` interface.
- The **controller** (`PaymentController.java`) has three endpoints:
  - **create** calls the gateway and saves a PENDING record when the gateway answers `resCd` "0000";
  - **notify** is the gateway's webhook and sets SUCCESS or FAILED from `resCd`;
  - **status** asks the gateway, normalises its `statusCd`, refreshes the record and returns it.

Each file follows the source's own form.
- The cart, the amounts, the request and the decision of each handler are functions over datatypes.
- The views, the entity, the table and the controller are classes whose methods change their fields. Each method's `ensures` ties the new state to those functions.
- Network replies, clocks, `UUID.randomUUID()` and the browser's origin are method parameters.

| file | module | models |
|---|---|---|
| `wrappers.dfy` | `Wrappers` | `Option` (Java's null, a missing JSON key) and map lookup |
| `text.dfy` | `Text` | `filter`, `substring`, `join`, decimal text, Java's `trim` and `replace` |
| `cart.dfy` | `Cart` | `updateQuantity`, `removeItem`, subtotal, tax, total, `totalAmount` |
| `api.dfy` | `PaymentApi` | the request body of `POST /api/payment/alipay` |
| `web.dfy` | `Web` | session storage, route, page location, alerts, fetched URLs; JavaScript truthiness |
| `checkout.dfy` | `Checkout` | wallets, order number, goods fields, `handlePayment` |
| `processing.dfy` | `Processing` | `PaymentProcessing`: mount, redirect timer, one `checkPaymentStatus` step |
| `returnview.dfy` | `ReturnView` | `PaymentReturn`: the query parameter, `fetchPaymentStatus`, colour and icon |
| `payment.dfy` | `PaymentEntity` | the `Payment` entity, its setters, getters and hooks |
| `repository.dfy` | `PaymentStore` | the payments table: lookups, and `save` with its constraints |
| `controller.dfy` | `Controller` | the create, notify and status endpoints |
| `endtoend.dfy` | `EndToEnd` | how the two tiers' answers and routes fit together |

### Behaviour worth knowing

- `updateQuantity` never keeps an item at quantity 0: it drops the item.
- The create endpoint answers in one of three ways. `Controller.CreateOutcome` states the exact conditions.
  - It saves a record and answers 200 with `success: true` when the gateway answers `resCd` "0000", `totalAmount` is present, and the row meets the table's constraints: `pgCno` non-null, `orderNo` unique, the wallet name within 50 characters.
  - It answers 200 with `success: false` when the gateway replies without `resCd` "0000", or with no body. The `error` is then the gateway's `resMsg`, or "Unknown error" without a body.
  - It answers 500 only when an exception is raised: the gateway call fails, or the gateway accepts but `totalAmount` is missing or the row breaks a constraint.
- `Payment.java` declares `id` as a `Long`. Here it is a `nat`: the identity column only issues positive keys, counting from 1 in the repository model.
- `PaymentRequest.java` declares no `walletBrandName`, but the controller reads it. Here it is an optional request field, and the controller defaults it to `ALIPAY_CN`.

## Model

| member | source | states |
|---|---|---|
| Text.Filter | frontend/src/App.js:60 | `filter` never lengthens its input |
| Text.FilterMembers | frontend/src/App.js:65 | an element survives `filter` exactly when it was in the input and the callback accepts it |
| Text.FilterAppend | frontend/src/App.js:60 | `filter` over a concatenation is the concatenation of the filters, so order is kept |
| Text.FilterKeepsAll | frontend/src/App.js:60 | a `filter` that accepts every element returns its input |
| Text.Prefix | frontend/src/App.js:81-82 | `substring(0, n)` is a prefix of length min(n, length) |
| Text.JoinLength | frontend/src/App.js:76-77 | a join is as long as its parts plus one separator per neighbouring pair |
| Text.Split | frontend/src/App.js:480-481 | the pieces of a split are at least one and none holds the separator |
| Text.SplitJoin | frontend/src/App.js:480-481 | joining the pieces with the separator gives the string back |
| Text.RemoveChar | backend/src/java/com/example/payment/controller/PaymentController.java:193 | `replace(" ", "")` leaves no space and keeps every other character that was there |
| Text.TrimStart | backend/src/java/com/example/payment/controller/PaymentController.java:193 | the leading blanks (code points up to U+0020) are dropped and nothing else is |
| Text.TrimEnd | backend/src/java/com/example/payment/controller/PaymentController.java:193 | the trailing blanks are dropped and nothing else is |
| Text.Trim | backend/src/java/com/example/payment/controller/PaymentController.java:193 | the result has no blank at either end and adds no character |
| Text.TrimUnchanged | backend/src/java/com/example/payment/controller/PaymentController.java:193 | `trim` leaves a string without blank ends alone |
| Text.NatToDecimal | frontend/src/App.js:75 | the decimal text of a time stamp is non-empty and all digits |
| Text.DecimalRoundTrip | frontend/src/App.js:75 | reading the decimal text back gives the number |
| Text.NatToDecimalInjective | frontend/src/App.js:75 | different time stamps have different decimal texts |
| Cart.AdjustAll | frontend/src/App.js:56-59 | the `map` keeps the length and applies the clamp-at-zero adjustment item by item |
| Cart.UpdateQuantity | frontend/src/App.js:54-62 | after `updateQuantity` every item has a positive quantity, and every item of another id was already in the cart |
| Cart.RemoveItem | frontend/src/App.js:64-66 | an item is kept exactly when it was in the cart and has another id |
| Cart.UpdateQuantityAbsent | frontend/src/App.js:56-60 | an absent id leaves a cart of positive quantities unchanged |
| Cart.UpdateQuantityAt | frontend/src/App.js:54-62 | in a valid cart the item's quantity becomes q + delta when positive; otherwise the item is removed and the others keep their places |
| Cart.RemoveItemAt | frontend/src/App.js:64-66 | in a valid cart, removing an item's id removes that item alone and keeps the order of the rest |
| Cart.RemoveItemAbsent | frontend/src/App.js:64-66 | removing an absent id changes nothing |
| Cart.UpdateQuantityOthersUnchanged | frontend/src/App.js:56-60 | with the adjusted id set aside, the cart before and after `updateQuantity` is the same sequence: other items keep fields and order |
| Cart.UpdateQuantityKeepsValid | frontend/src/App.js:54-62 | `updateQuantity` keeps positive quantities, non-negative prices and distinct ids |
| Cart.RemoveItemKeepsValid | frontend/src/App.js:64-66 | `removeItem` keeps the cart invariant |
| Cart.SubtotalAppend | frontend/src/App.js:68 | the `reduce` subtotal is additive over concatenation |
| Cart.Subtotal | frontend/src/App.js:68 | the `reduce` sum of line totals is never negative when no line total is |
| Cart.SubtotalNonNegative | frontend/src/App.js:68 | a valid cart's subtotal is never negative |
| Cart.SubtotalAfterUpdate | frontend/src/App.js:54-68 | `updateQuantity` moves the subtotal by exactly the change of that line's total |
| Cart.SubtotalAfterRemove | frontend/src/App.js:64-68 | `removeItem` lowers the subtotal by exactly that line's total |
| Cart.Tax | frontend/src/App.js:69 | tax is a tenth of the subtotal, and lies between 0 and the subtotal when the subtotal is not negative |
| Cart.Total | frontend/src/App.js:68-70 | total = subtotal + 10% tax = 1.1 × subtotal |
| Cart.JsRound | frontend/src/App.js:86 | `Math.round` returns the integer within half a unit, rounding halves up |
| Cart.TotalAmount | frontend/src/App.js:86 | `totalAmount` is within half a cent of total × 100 |
| Cart.SubtotalWhole | frontend/src/App.js:68 | whole prices give a whole subtotal |
| Cart.TotalAmountExact | frontend/src/App.js:86 | with whole prices the amount in cents is exactly 110 × subtotal |
| Cart.InitialCartAmounts | frontend/src/App.js:46-50 | the starting cart is valid with subtotal 185, tax 18.5, total 203.5 and 20350 cents |
| Checkout.WalletCode | frontend/src/App.js:279-286 | every wallet option's value is non-empty and fits the 50-character column |
| Checkout.WalletFromCode | frontend/src/App.js:279-286 | a code names a wallet exactly when it is one of the eight option values |
| Checkout.WalletCodeRoundTrip | frontend/src/App.js:279-286 | the eight option values are distinct: each finds its own wallet |
| Checkout.OrderNumber | frontend/src/App.js:75 | the order number is "ORD" followed by digits |
| Checkout.OrderNumberInjective | frontend/src/App.js:75 | submissions at different milliseconds get different order numbers |
| Checkout.GoodsName | frontend/src/App.js:76-81 | `goodsName` is the prefix of at most 50 characters of the names joined by ", ", and the whole join when it fits |
| Checkout.GoodsDetail | frontend/src/App.js:77-82 | `goodsDetail` is the prefix of at most 100 characters of the "name x quantity" entries joined by ", " |
| Checkout.PaymentRequestFor | frontend/src/App.js:79-88 | every field is present. The order number and "USD" are sent, with the return and notify URLs under the page origin and goods fields that are `GoodsName` and `GoodsDetail` of the cart, the joined names and details cut to 50 and 100 characters. The amount is within half a cent of total × 100, and the wallet code reads back as the chosen wallet |
| Checkout.InitialRequest | frontend/src/App.js:79-88 | the starting cart is sent as 20350 cents in USD, with the order number and wallet code |
| Checkout.SubmissionOutcome | frontend/src/App.js:100-114 | it goes to processing exactly when the response is ok, `success` holds and `paymentUrl` is non-empty; the other cases give the three alert texts |
| Checkout.CheckoutView.constructor | frontend/src/App.js:46-52 | the view starts with the starting cart, not loading, wallet ALIPAY_CN |
| Checkout.CheckoutView.UpdateQuantity | frontend/src/App.js:54-62 | the cart becomes `updateQuantity` of the old cart and stays valid |
| Checkout.CheckoutView.RemoveItem | frontend/src/App.js:64-66 | the cart becomes `removeItem` of the old cart and stays valid |
| Checkout.CheckoutView.SelectWallet | frontend/src/App.js:268 | the selector sets the wallet |
| Checkout.CheckoutView.HandlePayment | frontend/src/App.js:72-118 | sends the request built from the cart. Only on the processing outcome are both handle keys stored and the route moved; otherwise one alert is added. Loading ends false |
| Processing.PollDecision | frontend/src/App.js:366-384 | a poll leaves exactly on an ok response with status SUCCESS or FAILED, for the return route of the order |
| Processing.ProcessingView.constructor | frontend/src/App.js:332-349 | the redirect timer is armed exactly when both handle keys hold non-empty strings; the view then takes them |
| Processing.ProcessingView.RedirectTimerFires | frontend/src/App.js:342-346 | the page goes to the stored payment URL, and the view is redirected and waiting |
| Processing.ProcessingView.CheckPaymentStatus | frontend/src/App.js:353-391 | acts only after the redirect, with an order number, when no check runs and the view is still shown. Then it fetches the status URL. It clears both keys and moves to the return route exactly when the poll leaves; otherwise storage and route are untouched |
| Processing.LeavingClearsHandle | frontend/src/App.js:369-379 | after the keys are removed, no handle is left for a later mount |
| ReturnView.ParamIn | frontend/src/App.js:480-481 | a parameter value comes from the query and never holds the pair separator |
| ReturnView.QueryOf | frontend/src/App.js:480 | `location.search` holds no `#`, and it is empty when no `?` comes before the first `#` (so also for a location without `?`) |
| ReturnView.QueryAfterPath | frontend/src/App.js:480 | the query of `path?rest` is `rest` when the path has neither `?` nor `#` and the rest no `#` |
| ReturnView.ParamInPairs | frontend/src/App.js:480-481 | `get` gives the value of the first `&`-separated pair with that name. It gives nothing exactly when no pair has the name |
| ReturnView.FirstPairWins | frontend/src/App.js:480-481 | in `key=value&rest` the value of `key` is `value`, whatever follows |
| ReturnView.FirstParam | frontend/src/App.js:480-481 | a query that is the single pair `key=value` gives `value` for `key` |
| ReturnView.OrderNoParam | frontend/src/App.js:480-481 | the `orderNo` read from the location holds neither `&` nor `#`, and a location without `?` gives no non-empty order number |
| ReturnView.ReturnRouteRoundTrip | frontend/src/App.js:480-481 | the return route built for an order number gives that number back as its `orderNo` parameter |
| ReturnView.Resolve | frontend/src/App.js:488-532 | no order number gives "No order number found in URL". Success exactly for ok + SUCCESS; failure with the result message for ok + FAILED; pending with two messages otherwise. A non-ok response shows message, else error, else a fixed text; an exception shows its message |
| ReturnView.StatusColor | frontend/src/App.js:543-549 | green exactly for success, red exactly for failure, blue exactly for processing or pending |
| ReturnView.StatusIcon | frontend/src/App.js:551-557 | the tick exactly for success, the cross exactly for failure, the spinner exactly for processing or pending |
| ReturnView.ColorMatchesIcon | frontend/src/App.js:543-557 | green and the tick exactly for success, red and the cross exactly for failure, blue and the spinner otherwise |
| ReturnView.ReturnView.constructor | frontend/src/App.js:471-474 | the view starts processing, "Verifying payment...", no details, loading |
| ReturnView.ReturnView.FetchPaymentStatus | frontend/src/App.js:477-533 | status and message become the resolution for the route's `orderNo`. The status URL is fetched only when there is an order number; details are set only on an ok response. Loading ends false |
| PaymentEntity.Created | backend/src/java/com/example/payment/entity/Payment.java:45-49 | `onCreate` forces PENDING whatever the prior status, stamps `createdAt`, and changes nothing else |
| PaymentEntity.Touched | backend/src/java/com/example/payment/entity/Payment.java:51-54 | `onUpdate` changes `updatedAt` and nothing else |
| PaymentEntity.TouchedKeepsColumns | backend/src/java/com/example/payment/entity/Payment.java:51-54 | `onUpdate` keeps the status and whether the column constraints hold |
| PaymentEntity.CreatedColumns | backend/src/java/com/example/payment/entity/Payment.java:14-49 | after `onCreate`, a row meets the constraints exactly when orderNo, shopTransactionId and pgCno are set and the wallet name fits |
| PaymentEntity.Payment.constructor | backend/src/java/com/example/payment/entity/Payment.java:8-43 | a new entity has every column null |
| PaymentEntity.Payment.Hydrate | backend/src/java/com/example/payment/entity/Payment.java:8-43 | a loaded entity holds exactly the stored row |
| PaymentEntity.Payment.OnCreate | backend/src/java/com/example/payment/entity/Payment.java:45-49 | the entity becomes `Created` of its old state |
| PaymentEntity.Payment.OnUpdate | backend/src/java/com/example/payment/entity/Payment.java:51-54 | the entity becomes `Touched` of its old state |
| PaymentEntity.Payment.SetId | backend/src/java/com/example/payment/entity/Payment.java:57-63 | only `id` changes, and the getter returns the value set |
| PaymentEntity.Payment.SetOrderNo | backend/src/java/com/example/payment/entity/Payment.java:65-71 | only `orderNo` changes, and the getter returns the value set |
| PaymentEntity.Payment.SetShopTransactionId | backend/src/java/com/example/payment/entity/Payment.java:73-79 | only `shopTransactionId` changes, and the getter returns the value set |
| PaymentEntity.Payment.SetPgCno | backend/src/java/com/example/payment/entity/Payment.java:81-87 | only `pgCno` changes, and the getter returns the value set |
| PaymentEntity.Payment.SetGoodsName | backend/src/java/com/example/payment/entity/Payment.java:89-95 | only `goodsName` changes, and the getter returns the value set |
| PaymentEntity.Payment.SetGoodsDetail | backend/src/java/com/example/payment/entity/Payment.java:97-103 | only `goodsDetail` changes, and the getter returns the value set |
| PaymentEntity.Payment.SetCurrency | backend/src/java/com/example/payment/entity/Payment.java:105-111 | only `currency` changes, and the getter returns the value set |
| PaymentEntity.Payment.SetTotalAmount | backend/src/java/com/example/payment/entity/Payment.java:113-119 | only `totalAmount` changes, and the getter returns the value set |
| PaymentEntity.Payment.SetStatus | backend/src/java/com/example/payment/entity/Payment.java:121-127 | only `status` changes, and the getter returns the value set |
| PaymentEntity.Payment.SetPaymentUrl | backend/src/java/com/example/payment/entity/Payment.java:129-135 | only `paymentUrl` changes, and the getter returns the value set |
| PaymentEntity.Payment.SetResultCode | backend/src/java/com/example/payment/entity/Payment.java:137-143 | only `resultCode` changes, and the getter returns the value set |
| PaymentEntity.Payment.SetResultMessage | backend/src/java/com/example/payment/entity/Payment.java:145-151 | only `resultMessage` changes, and the getter returns the value set |
| PaymentEntity.Payment.SetApprovalDate | backend/src/java/com/example/payment/entity/Payment.java:153-159 | only `approvalDate` changes, and the getter returns the value set |
| PaymentEntity.Payment.SetStatusCode | backend/src/java/com/example/payment/entity/Payment.java:161-167 | only `statusCode` changes, and the getter returns the value set |
| PaymentEntity.Payment.SetWalletBrandName | backend/src/java/com/example/payment/entity/Payment.java:169-175 | only `walletBrandName` changes, and the getter returns the value set |
| PaymentEntity.Payment.SetCreatedAt | backend/src/java/com/example/payment/entity/Payment.java:177-183 | only `createdAt` changes, and the getter returns the value set |
| PaymentEntity.Payment.SetUpdatedAt | backend/src/java/com/example/payment/entity/Payment.java:185-191 | only `updatedAt` changes, and the getter returns the value set |
| PaymentStore.StoreKeepsValid | backend/src/java/com/example/payment/entity/Payment.java:10-41 | storing a row that meets the columns and has a fresh order number keeps ids matching keys, the non-null columns, the length limit and `orderNo` uniqueness |
| PaymentStore.Flushed | backend/src/java/com/example/payment/entity/Payment.java:51-54 | the written row holds every column of the entity except possibly `updatedAt`. It is either the stored row untouched or stamped with the save time, and an unchanged entity writes nothing new |
| PaymentStore.PaymentRepository.FindByOrderNo | backend/src/java/com/example/payment/controller/PaymentController.java:153-154 | null exactly when no row has the order number; otherwise a new entity equal to the single row that has it |
| PaymentStore.PaymentRepository.FindByShopTransactionId | backend/src/java/com/example/payment/controller/PaymentController.java:129-130 | the lookup is ambiguous (it throws) exactly when several rows match. It is null when none or several match, and otherwise the single matching row |
| PaymentStore.PaymentRepository.Save | backend/src/java/com/example/payment/entity/Payment.java:10-54 | a new entity goes through `onCreate` and gets the next id. A loaded one is flushed over its row. Either is stored exactly when the columns and uniqueness allow; otherwise the table is unchanged. The table invariant is kept |
| Controller.ShopTransactionId | backend/src/java/com/example/payment/controller/PaymentController.java:44 | the transaction id has 10 hex characters and no '-': the first eight of the UUID and the two after its first hyphen |
| Controller.DashesRemoved | backend/src/java/com/example/payment/controller/PaymentController.java:44 | dropping a UUID's hyphens gives its first group, then its second, then the rest |
| EndToEnd.GatewayReturnCarriesOrderNo | backend/src/java/com/example/payment/controller/PaymentController.java:53 | the return URL sent to the gateway, read as the return view reads its location, gives back the request's order number. This holds for any return URL without `?` or `#` and any order number without `&` or `#` |
| EndToEnd.CheckoutReturnsToOrder | frontend/src/App.js:75-83 | a payment started from the checkout view comes back through the gateway to the return view of the same order number |
| Controller.SavedRecord | backend/src/java/com/example/payment/controller/PaymentController.java:84-96 | the saved record is PENDING, with the request's order number, goods, currency and amount, the defaulted wallet, and the gateway's pgCno and page URL; the rest is empty |
| Controller.CreateOutcome | backend/src/java/com/example/payment/controller/PaymentController.java:82-117 | success exactly when the gateway answers "0000", the amount is present and the record can be stored. A refusal exactly when the gateway answered otherwise, with its resMsg or "Unknown error" for a null body |
| Controller.StatusForResult | backend/src/java/com/example/payment/controller/PaymentController.java:135 | a notification gives SUCCESS exactly for resCd "0000" and FAILED otherwise |
| Controller.Notified | backend/src/java/com/example/payment/controller/PaymentController.java:133-135 | a notified record gets the result code, message and status, and nothing else changes |
| Controller.NormalisedStatusCode | backend/src/java/com/example/payment/controller/PaymentController.java:191-193 | the normalised code has no space and no blank at either end; `Controller.NormalisedSpacedCode` gives its content |
| Controller.NormalisedStatusCodeIdempotent | backend/src/java/com/example/payment/controller/PaymentController.java:193 | normalising twice is normalising once |
| Controller.NormalisedSpacedCode | backend/src/java/com/example/payment/controller/PaymentController.java:191-193 | for a code whose only blanks are spaces, the normalised code is the code with every space removed, wherever it stood: " TS 01 " reads as TS01 |
| Controller.StatusForCode | backend/src/java/com/example/payment/controller/PaymentController.java:194-200 | SUCCESS exactly for TS01, PENDING exactly for TS00, FAILED for any other code |
| Controller.Refreshed | backend/src/java/com/example/payment/controller/PaymentController.java:185-217 | result code and message are overwritten. Status and statusCode change only for a non-null statusCd; approvalDate comes from "approvalDate", else "approval Date". Approval date and wallet change only to non-null values; all else is kept |
| Controller.UpdatesKeepStatusKnown | backend/src/java/com/example/payment/controller/PaymentController.java:133-219 | a refreshed or notified record still has one of PENDING, SUCCESS, FAILED |
| Controller.UpdateAdmissible | backend/src/java/com/example/payment/controller/PaymentController.java:185-219 | an update that keeps the identifying columns can be stored exactly when the wallet name fits 50 characters |
| Controller.PaymentController.NewPayment | backend/src/java/com/example/payment/controller/PaymentController.java:84-94 | the setter calls build `NewRecord` on a new entity |
| Controller.PaymentController.ApplyFindReply | backend/src/java/com/example/payment/controller/PaymentController.java:187-217 | the setter calls turn the entity into `Refreshed` of its old state |
| Controller.PaymentController.ProcessAlipayPayment | backend/src/java/com/example/payment/controller/PaymentController.java:32-118 | returns the gateway call and `CreateOutcome`. The table gains the saved record under the next id exactly on success and is otherwise unchanged; all statuses stay known |
| Controller.PaymentController.HandlePaymentNotification | backend/src/java/com/example/payment/controller/PaymentController.java:121-146 | answers 500 "9999" exactly when the id matches several records, else "0000"/"OK". Only a single matching record changes, to its notified and flushed form |
| Controller.PaymentController.GetPaymentStatus | backend/src/java/com/example/payment/controller/PaymentController.java:149-253 | no record gives 404 with "Payment not found for order: …"; an unreachable gateway gives 404. A non-"0000" reply returns the stored record unchanged. A "0000" reply stores and returns the refreshed record, or 404 when it cannot be saved |
| EndToEnd.CreateCallForCheckout | backend/src/java/com/example/payment/controller/PaymentController.java:47-61 | for a request from the checkout view, the gateway returns to that order's return route, with the chosen wallet and the cart's cents |
| EndToEnd.CheckoutRecordAdmissible | backend/src/java/com/example/payment/controller/PaymentController.java:84-96 | a record from the checkout view is stored exactly when the gateway gives a pgCno and the order number is new |
| EndToEnd.CheckoutFollowsCreate | frontend/src/App.js:98-112 | the checkout view goes to processing exactly when the record was saved and the gateway gave a payment page |
| EndToEnd.CheckoutAlertsOnFailure | frontend/src/App.js:110-111 | a refusal alerts with the gateway's message, and a 500 alerts "Payment failed: Payment processing failed" |
| EndToEnd.OrderNumberHandOver | frontend/src/App.js:480-481 | the return view reads back the order number the processing view put in the route |
| EndToEnd.PollFollowsRecord | frontend/src/App.js:366-380 | the poll leaves exactly when the status endpoint returns a settled record |
| EndToEnd.ReturnFollowsRecord | frontend/src/App.js:501-517 | the return view shows success exactly for a SUCCESS record, failure exactly for a FAILED record or a 404, and pending otherwise |

## Left out

- Rendering, styling, the `App`/`Header`/`Home` routing shell and `frontend/src/index.js` are presentation only.
- Timers and scheduling are left out: the 2 s redirect delay, the 5 s poll interval, the 100 ms return-view delay, effect clean-up, and the effect re-run on `checkingStatus`. The model fires the timer or runs one poll step as a method call.
- Processing.ProcessingView.CheckPaymentStatus: each poll runs to completion. Two polls in flight at once are not modelled, so `checkingStatus` is false between steps.
- The browser's redirect is recorded as the page location; nothing after it is modelled.
- HTTP calls are inputs: `fetch` and `RestTemplate.exchange` become reply datatypes or maps, and exceptions become a reply case.
- JSON values are read as strings. The `ClassCastException` a non-string value would raise at `(String)` is not modelled, and neither is the range of Java's `Integer` for `totalAmount`.
- Controller.PaymentController.GetPaymentStatus: the 404 message for a gateway or save failure is the exception's own text, which the model leaves unknown (`None`). The 500 branch for checked exceptions cannot arise from the modelled calls and is left out.
- Money is exact (`real`). The browser's floating-point arithmetic for `subtotal * 0.1`, `Math.round` and `toFixed` is not modelled.
- Cart.TotalAmount: states the rounding bound on exact reals, not on IEEE doubles.
- Clocks and randomness are parameters: `Date.now()`, `LocalDateTime.now()` and `UUID.randomUUID()`. The UUID is assumed to be in its canonical text form.
- ReturnView.ParamIn: percent-decoding and `+` as space are not modelled; order numbers never need them.
- String lengths count Unicode scalar values. JavaScript's `substring(0, 50)` and `substring(0, 100)` and Java's `String` count UTF-16 code units. The two agree on the ASCII item names and codes the flow uses.
- PaymentStore.PaymentRepository.Save: a loaded entity's row must still exist. Merging an entity whose row was deleted meanwhile is not modelled, nor are database failures other than the declared constraints.
- Transactions and concurrent requests on the back end are not modelled; each endpoint runs alone.
- Logging is not modelled.
- `PaymentResponse.java` is unused, and `findByPgCno` and the `/test` endpoint are outside the modelled flow.
- Cart.ValidCart: the invariant also asks for distinct ids and non-negative prices. The source keeps neither explicitly, but the starting cart has both and both cart operations keep them.

# Order lifecycle of the report-and-book shop backend, in Dafny

The backend sells a report as a PDF (`package_type` `pdf`) or as a printed book (`print`).
It is an Express application with four routers, and each router is modelled as one Dafny module:

- **Orders** (`routes/orders.js`). `POST /create` validates the body and asks the Razorpay
  gateway for an order. The amount goes to the gateway in paise, so it is multiplied by 100.
  It then appends a local order record with status `created` to `data/orders.json` and an
  entry to the order activity log. `GET /:id` looks an order up by its local id or its
  gateway id.
- **Webhooks** (`routes/webhooks.js`). `POST /razorpay` checks the HMAC signature, then
  switches on the event tag:
  - `payment.captured` marks the order `paid`. If no order has the payment's gateway id, it
    logs nothing. Otherwise it logs the capture and, for a `print` order, posts an automatic
    shipment request to the shipment route of this same server. City, state and pincode are
    guessed by splitting the free-text address on commas. The route's answer decides whether
    `SHIPMENT_AUTO_CREATED` or `SHIPMENT_AUTO_ERROR` is logged.
  - `payment.failed` marks the order `failed` and logs the failure, even when no order matches.
  - `order.paid` marks the order `completed` and logs it, even when no order matches.
- **Shipments** (`routes/shipments.js`). One Shiprocket session caches a bearer token for 24
  hours. `POST /create` checks the required fields. It logs a `pdf` order as a digital delivery
  without calling the carrier. Any other order goes to the carrier with a default parcel, and
  the outcome is logged. `GET /track/:awb` asks the carrier for the status of a parcel and logs
  the query. `POST /serviceability` asks the carrier which couriers serve a pincode.
- **Tracking** (`routes/tracking.js`). These are read-only views:
  - the timeline of one order, built from the two logs and sorted by time;
  - the log entries of one AWB (tracking) number;
  - a summary with status and package counts, revenue, and the ten most recent orders,
    captures and shipments.

The JSON files in `data/` are the `seq` fields of one `Store.DataFiles` object. The append
helpers (`saveOrder`, `logActivity`, `logWebhook`, `logShipment`) and `updateOrderStatus` are
methods that reassign those fields. Each state-changing handler is a method whose `ensures` ties
the new files to a pure function of the old ones. The lookups that change nothing (`FindOrder`,
`TrackShipment`, `Summarize`) are pure functions. The properties are proved as lemmas about those functions:
`StatusUpdate`, `Process`, `Timeline`, `Summarize` and others.

The Shiprocket object is the class `Shipments.ShiprocketSession`, with the two fields
`authenticate` updates.

Anything outside the process is a parameter:

- the clock (`now`, an integer);
- generated ids (`uuid(k)` is the k-th uuid of a request);
- today's date as the carrier wants it (`today`);
- the gateway's and the carrier's answers (`GatewayReply`, `LoginReply`, `CarrierReply`),
  including those the carrier gives while the shipment route serves the webhook's own request
  (`Webhooks.CarrierAnswers`);
- the HMAC digest of the body (`expected`).

Requests the handlers send are returned as `sent` values, so "no carrier call was made" is part
of each contract.

A missing JSON field is `None`. JavaScript truthiness of an optional string is `Store.Truthy`,
and `x || fallback` is `Store.OrElse`. Destructuring defaults (`currency = 'INR'`,
`pickup_pincode = "110001"`) apply only when the field is absent. A `null` token is `""` and a
`null` expiry is `0`: `Date.now() > null` compares with `0`.

Four things the handlers do not do, which the model keeps as they are:

- **Status changes are not guarded.** A handler overwrites the status whatever it was, so a
  late `payment.failed` undoes a payment, and a redelivered capture posts the shipment request
  again. See `Webhooks.RedeliveredCaptureShipsAgain` and `Lifecycle.LateFailureRevenue`.
- **Stored amounts are not in paise.** The stored order keeps the request's rupees; only the
  gateway gets paise.
- **The address is not structured.** City, state and pincode are guessed from the free text.
  See `Webhooks.SplitAddress` and the lemmas after it.
- **Carrier calls are not retried.** Each makes one attempt, and a failure goes to the caller.

## Model

| member | source | states |
|---|---|---|
| `Strings.Split` | routes/webhooks.js:97 | `split(',')` always yields at least one part. No part contains a comma. Joining the parts with commas gives back the input. |
| `Strings.SplitAppend` | routes/webhooks.js:97 | Splitting `x + "," + y` is splitting `x` followed by splitting `y`. |
| `Strings.Trim` | routes/webhooks.js:97 | `trim()` leaves neither leading nor trailing white space. The result is empty exactly when the input is all white space. |
| `Strings.TrimIsSlice` | routes/webhooks.js:97 | The trimmed string is the slice of the input that starts right after its leading white space. |
| `Strings.TrimDropsOnlySpace` | routes/webhooks.js:97 | Everything of the input after the trimmed slice is white space, as is everything before it. |
| `Strings.TrimWithoutSpace` | routes/webhooks.js:97 | A string with no white space at either end trims to itself. |
| `Seqs.Filter` | routes/tracking.js:30-35 | `filter` keeps exactly the elements satisfying the predicate. Every kept element comes from the input, no satisfying element is lost, and nothing is duplicated. |
| `Seqs.FilterSingle` | routes/tracking.js:30-35 | Filtering one element keeps it exactly when it satisfies the predicate. |
| `Seqs.FilterAppend` | routes/tracking.js:30-35 | Filtering a concatenation is concatenating the filtered parts, so `filter` keeps the input order and each element's multiplicity. |
| `Seqs.FilterSkips` | routes/tracking.js:30-35 | An element failing the predicate can be removed from anywhere in the input without changing what `filter` returns. |
| `Seqs.SortBy` | routes/tracking.js:138 | `sort` with a key comparator returns a permutation of its input, ordered by key. |
| `Seqs.MostRecent` | routes/tracking.js:224-226 | `sort` newest first followed by `slice(0, n)` keeps `min(n, length)` elements of the input, newest first. No element left out is newer than one kept. |
| `Store.DataFiles.constructor` | routes/orders.js:54-59 | A missing data file reads as an empty list. |
| `Orders.Validate` | routes/orders.js:91-102 | The request is rejected with the missing-fields message exactly when `amount`, `customer_name` or `customer_email` is falsy. It is rejected with the minimum-amount message exactly when the amount is below 1. Otherwise it is accepted. |
| `Orders.GatewayRequest` | routes/orders.js:108-122 | The gateway gets `amount * 100` paise (so at least 100) and the given receipt. The currency defaults to `INR` only when absent. Name and email are sent as given. Each optional note is sent as given when truthy and as `''` otherwise. |
| `Orders.LocalOrder` | routes/orders.js:127-146 | The new record has status `created`, the local id, the gateway's order id, the receipt, the amount in rupees and the request's currency (`INR` when absent). It keeps the customer's name and email and the optional package type, WhatsApp number, address and birth details exactly as sent. Both timestamps are now, and there is no payment data. |
| `Orders.SaveOrder` | routes/orders.js:52-72 | Appends exactly one order at the end and leaves the other files alone. |
| `Orders.LogActivity` | routes/orders.js:22-49 | Appends exactly one `ORDER` entry to the order log. |
| `Orders.CreateOrder` | routes/orders.js:75-202 | An invalid request yields 400, makes no gateway call and leaves all files unchanged. A gateway error yields 500 with its message, appends only an error entry and saves no order. A gateway order yields the gateway's id, amount, currency and receipt plus the local id, and appends the local order and a `created` entry. |
| `Orders.FindOrder` | routes/orders.js:231-235 | Returns `None` (a 404) exactly when no order has that local or gateway id. Otherwise it returns the first order that has it. |
| `Shipments.Refreshed` | routes/shipments.js:37-40 | A fresh token and expiry are kept. A missing or expired token is replaced by the login's token, valid for 24 hours. A rejected login leaves both fields as they were. |
| `Shipments.TokenCachedForADay` | routes/shipments.js:19-46 | After a login at time `t` that yields a token, a later call at or before `t + 86400000` ms keeps that token without logging in. The first call after it logs in again and, on success, takes the new token with a fresh 24-hour expiry. |
| `Shipments.ShiprocketSession.constructor` | routes/shipments.js:11-17 | The session starts with no token and no expiry. |
| `Shipments.ShiprocketSession.Authenticate` | routes/shipments.js:19-35 | A successful login stores the token and sets the expiry to now plus 24 hours. A failed login throws "Shiprocket authentication failed" and changes nothing. |
| `Shipments.ShiprocketSession.GetAuthHeaders` | routes/shipments.js:37-46 | Logs in exactly when the token is missing or `now > tokenExpiry`, otherwise reuses the cached token. The header is `Bearer` followed by the stored token. |
| `Shipments.ShiprocketSession.CreateOrder` | routes/shipments.js:48-86 | The carrier body is sent only when headers were obtained, and it is `Payload` of the order data. The carrier's answer or error is passed on, and a failed login becomes the authentication error. |
| `Shipments.ShiprocketSession.GetServiceability` | routes/shipments.js:104-118 | The query is sent only with valid headers, with the given pickup and delivery pincodes. The carrier's answer or error is passed on. |
| `Shipments.ShiprocketSession.TrackShipment` | routes/shipments.js:88-102 | The tracking query is sent only with valid headers, for the given AWB number. The carrier's answer or error is passed on, and a failed login becomes the authentication error. |
| `Shipments.Payload` | routes/shipments.js:52-73 | The pickup location is always `work`, the country `India` and the payment method `Prepaid`. Shipping is billing and the last name is empty. Length, breadth and height default to 10, 10 and 5 when absent or zero, and are otherwise copied. The order date, billing city, state, email and phone are the order data's. |
| `Shipments.ItemsFor` | routes/shipments.js:226 | Any package type other than `pdf`, unknown or absent included, gets the printed-book item. There is always one item, of one unit, priced at the amount. |
| `Shipments.ShipmentOrderData` | routes/shipments.js:216-232 | The carrier order data copies the order id, name, address, city, pincode, state, email, phone and amount from the request. The date is today. The item follows the package type, and the parcel is always 25 x 20 x 3. |
| `Shipments.CreatedData` | routes/shipments.js:239-246 | A `SHIPMENT_CREATED` entry records the order id and the AWB code, but no courier name. |
| `Shipments.ErrorData` | routes/shipments.js:262-265 | A `SHIPMENT_ERROR` entry records the error but no `order_id`. |
| `Shipments.LogShipment` | routes/shipments.js:124-151 | Appends exactly one entry to the shipment log. |
| `Shipments.ShipmentRoute` | routes/shipments.js:154-272 | Missing `order_id`, `customer_name`, `address` or `pincode` yields 400 before anything else, logs nothing and leaves the session. A `pdf` package logs `DIGITAL_DELIVERY` and makes no carrier call. Any other package refreshes the session, is sent to the carrier only with valid headers, and logs one `SHIPMENT_CREATED` or `SHIPMENT_ERROR` entry. The answer is a 2xx exactly for a digital delivery or a created carrier order. |
| `Shipments.CreateShipment` | routes/shipments.js:154-272 | The answer, the carrier request, the new shipment-log entries and the session fields are those of `ShipmentRoute` on the old session. The order file and the other two logs are unchanged. |
| `Shipments.QueryFor` | routes/shipments.js:303-309 | No query (a 400) exactly when `delivery_pincode` is falsy. The pickup pincode is `110001` only when absent. |
| `Shipments.CheckServiceability` | routes/shipments.js:301-329 | A missing delivery pincode yields 400 without touching the session. Otherwise exactly one authorised query is sent, and its answer or error becomes the response. |
| `Shipments.TrackingData` | routes/shipments.js:281-284 | The `TRACKING_REQUESTED` entry stores the AWB under `awb`, with no `awb_code` and no `order_id`. |
| `Shipments.TrackAwb` | routes/shipments.js:275-298 | The session is refreshed and one query for the AWB is sent when authorised. Only an answered query is logged, as `TRACKING_REQUESTED`. A failed login or query yields 500 and logs nothing. |
| `Webhooks.CheckSignature` | routes/webhooks.js:11-21 | Genuine exactly when the header equals the digest. `timingSafeEqual` throws exactly when the header is missing or of another length. Otherwise the signature is forged. |
| `Webhooks.IndexOfGatewayId` | routes/webhooks.js:63 | `findIndex` returns the first index holding the gateway id, or `None` when no order holds it. |
| `Webhooks.IndexIsFirst` | routes/webhooks.js:63 | An index holding the gateway id with no earlier match is the one `findIndex` returns. |
| `Webhooks.Patch` | routes/webhooks.js:66-72 | Sets the status and the update time. Sets `payment_data` and `payment_id` only when payment data is given. Every other field is unchanged. |
| `Webhooks.StatusUpdate` | routes/webhooks.js:63-79 | Only the first order with the gateway id is patched, whatever its status was. The list length and every other order are unchanged. With no match nothing changes and `null` is returned. |
| `Webhooks.LogWebhook` | routes/webhooks.js:24-51 | Appends exactly one entry to the payment log. |
| `Webhooks.UpdateOrderStatus` | routes/webhooks.js:54-84 | The in-place update leaves the order file equal to `StatusUpdate`'s list and returns its record. The logs are unchanged. |
| `Webhooks.FieldFromEnd` | routes/webhooks.js:104-106 | The k-th comma-separated field from the end is the trimmed field when it is not blank, and the fallback when it is blank or the address has fewer than k fields; a non-empty fallback makes the result non-empty. |
| `Webhooks.SplitAddress` | routes/webhooks.js:96-107 | The guessed city, state and pincode are never empty, thanks to their defaults. |
| `Webhooks.SplitAddressTakesLastThree` | routes/webhooks.js:96-107 | With three or more commas, whatever the street text, the last three comma-separated fields become city, state and pincode. Each is trimmed and replaced by `Unknown`/`Unknown`/`000000` when blank. |
| `Webhooks.SplitAddressThreeParts` | routes/webhooks.js:96-107 | An address with two commas gives its three trimmed fields as city, state and pincode, each defaulted when blank. |
| `Webhooks.SplitAddressTwoParts` | routes/webhooks.js:96-107 | An address with one comma gives `Unknown` as the city and its two trimmed fields as state and pincode. |
| `Webhooks.SplitAddressWithoutComma` | routes/webhooks.js:96-107 | An address without a comma becomes the pincode, and city and state are `Unknown`. |
| `Webhooks.AutoShipment` | routes/webhooks.js:87-110 | A shipment request is built exactly for `print` orders. It carries the gateway id, customer name, address, the guessed city, state and pincode (the pincode always non-empty), the customer's email and WhatsApp number as phone, and the amount. |
| `Webhooks.AfterPayment` | routes/webhooks.js:87-133 | A non-`print` order posts nothing and changes nothing. A `print` order posts its request to the shipment route and logs one `SHIPMENT_AUTO_*` entry carrying the order's gateway id. The entry is `SHIPMENT_AUTO_CREATED` exactly when the request passes the field check, the session is authorised and the carrier creates the order. A request that fails the field check changes neither the shipment log nor the session. One that passes adds one shipment-log entry and refreshes the session. |
| `Webhooks.AfterPaymentShips` | routes/webhooks.js:112-131 | For a `print` order the effect is the shipment route's log entries and session, plus the `SHIPMENT_AUTO_*` entry chosen by whether the route's answer is a 2xx. |
| `Webhooks.Captured` | routes/webhooks.js:198-226 | A capture always answers 200. An unknown order id changes nothing and logs nothing. Otherwise the first matching order alone becomes `paid` with the payment stored, the capture is logged first, and a shipment is attempted exactly when the order is a `print` order. Everything after the capture entry, the posted request, the shipment-log entries and the new session are exactly `AfterPayment` of the updated order. |
| `Webhooks.PaymentFailed` | routes/webhooks.js:229-245 | The first matching order alone becomes `failed` with the payment stored, and nothing changes when none matches. Exactly one `PAYMENT_FAILED` entry is logged either way, carrying the payment id, the order id and the error description. |
| `Webhooks.OrderPaid` | routes/webhooks.js:248-262 | The first matching order alone becomes `completed` at `now` and keeps every other field, its payment data included, and nothing changes when none matches. Exactly one `ORDER_COMPLETED` entry is logged either way, carrying the gateway order id. |
| `Webhooks.Process` | routes/webhooks.js:157-195 | A forged signature yields 400 and changes nothing. A throwing comparison, or a genuine signature on an unreadable body, yields 500 and changes nothing. Every non-200 outcome leaves the orders, both logs and the session alone. A posted shipment comes with exactly two payment-log entries, and without one the shipment log and the session are untouched. |
| `Webhooks.DispatchSetsStatus` | routes/webhooks.js:172-189 | `payment.captured` sets `paid`, `payment.failed` sets `failed` and `order.paid` sets `completed`, each through `StatusUpdate` on the entity's gateway id, with 200. |
| `Webhooks.UnknownTagIgnored` | routes/webhooks.js:185-189 | Any other tag yields 200 and changes no order and no log. |
| `Webhooks.OrderPaidKeepsPayment` | routes/webhooks.js:248-262 | `order.paid` keeps every order's stored payment data and payment id. |
| `Webhooks.ShipmentOnlyForFoundPrintOrders` | routes/webhooks.js:204-220 | A shipment request is posted exactly when a genuine capture finds its order and that order is `print`. |
| `Webhooks.RedeliveredCaptureShipsAgain` | routes/webhooks.js:198-226 | A capture of a found `print` order posts a shipment request. Delivering the same capture again, on the orders and session the first left, posts the same request a second time and leaves the order `paid`: there is no guard on the previous status. When the request passes the field check, each delivery adds its own shipment-log entry. |
| `Webhooks.HandleWebhook` | routes/webhooks.js:157-195 | The route's status code, order file, new payment-log and shipment-log entries, posted shipment and session fields are those of `Process`. The order log is unchanged. |
| `Webhooks.HandlePaymentCaptured` | routes/webhooks.js:198-226 | The files and the session end as `Captured` says: only a found order gets a `PAYMENT_CAPTURED` entry, followed by the effect of `AfterPayment`. |
| `Webhooks.CreateShipmentAfterPayment` | routes/webhooks.js:87-133 | The files and the session end as `AfterPayment` says. The order file and the order log are unchanged. |
| `Webhooks.PostShipment` | routes/webhooks.js:112-131 | The self-call runs the shipment route on the shared session and files, then logs `SHIPMENT_AUTO_CREATED` for a 2xx answer and `SHIPMENT_AUTO_ERROR` otherwise, under the order's gateway id. |
| `Webhooks.HandlePaymentFailed` | routes/webhooks.js:229-245 | Marks the order `failed` and logs `PAYMENT_FAILED` even when no order matches. |
| `Webhooks.HandleOrderPaid` | routes/webhooks.js:248-262 | Marks the order `completed` without payment data and logs `ORDER_COMPLETED`. |
| `Tracking.ForOrder` | routes/tracking.js:30-48 | Keeps exactly the log entries whose `order_id` is the order's gateway id or local id. |
| `Tracking.Recognised` | routes/tracking.js:76-135 | Keeps the entries whose type has a timeline status and drops the rest. |
| `Tracking.RecognisedSingle` | routes/tracking.js:76-135 | A single entry is kept exactly when its type has a timeline status. |
| `Tracking.RecognisedAppend` | routes/tracking.js:76-135 | Recognising a concatenation is concatenating the recognised parts, so log order and multiplicity are kept. |
| `Tracking.RecognisedIsFilter` | routes/tracking.js:76-135 | The recognised entries are exactly what `filter` keeps with the recognised-type test. |
| `Tracking.Entries` | routes/tracking.js:76-135 | Builds one timeline entry per recognised log entry, from its timestamp and status. |
| `Tracking.LastIndexOfKind` | routes/tracking.js:111-116 | Returns the last index of a `SHIPMENT_CREATED` entry, or `None` when there is none. |
| `Tracking.PaymentEvents` | routes/tracking.js:76-101 | The first `forEach` pushes exactly `Entries` of the payment log. |
| `Tracking.ShipmentEvents` | routes/tracking.js:104-135 | The second `forEach` pushes exactly `Entries` of the shipment log. It leaves `awb_code` and `courier_name` as those of the last `SHIPMENT_CREATED` entry. |
| `Tracking.BuildTimeline` | routes/tracking.js:64-135 | The unsorted timeline is "Order Created" followed by the two entry lists. Its length is 1 plus the number of recognised entries. |
| `Tracking.TrackOrder` | routes/tracking.js:8-149 | Returns 404 exactly when no order has the key. Otherwise the timeline is a permutation of the built entries, sorted by timestamp ascending, and contains "Order Created". The AWB code and courier name come from the last `SHIPMENT_CREATED` entry. |
| `Tracking.TrackShipment` | routes/tracking.js:152-183 | Returns 404 exactly when no shipment entry carries the AWB. Otherwise it returns exactly the entries that do. |
| `Tracking.CountStatus` | routes/tracking.js:212-215 | A status count never exceeds the number of orders. |
| `Tracking.CountPackage` | routes/tracking.js:218-219 | A package count never exceeds the number of orders. |
| `Tracking.StatusCountsPartition` | routes/tracking.js:210-216 | The four status counts add up to exactly `total_orders`. |
| `Tracking.PackageCountsBounded` | routes/tracking.js:217-220 | The `pdf` and `print` counts add up to at most `total_orders`. |
| `Tracking.RevenueAppend` | routes/tracking.js:221-223 | The revenue of two lists of orders joined together is the sum of their revenues. |
| `Tracking.RevenueReplace` | routes/tracking.js:221-223 | Replacing one order changes the revenue by the difference of the two orders' contributions. |
| `Tracking.RevenueAtLeastEarningCount` | routes/tracking.js:221-223 | With amounts of at least one rupee, the revenue is at least the number of paid and completed orders. |
| `Tracking.RecentOfKind` | routes/tracking.js:227-234 | The recent captures and recent shipments lists hold 10 entries, or all entries of that type when there are fewer. They are newest first, all of the filtered type and from the log. No entry of that type left out is newer than one kept, and each entry occurs in the list at most as often as among that type's entries. |
| `Tracking.PaymentStatus` | routes/tracking.js:78-92 | A payment-log type has a timeline status exactly when it is `PAYMENT_CAPTURED`, `PAYMENT_FAILED` or `ORDER_COMPLETED`; every other type is skipped. |
| `Tracking.ShipmentStatus` | routes/tracking.js:106-126 | A shipment-log type has a timeline status exactly when it is `DIGITAL_DELIVERY`, `SHIPMENT_CREATED`, `SHIPMENT_AUTO_CREATED` or `SHIPMENT_ERROR`; every other type is skipped. |
| `Tracking.Timeline` | routes/tracking.js:64-135 | The timeline before sorting opens with "Order Created" at the order's creation time, and has one more entry per recognised payment entry and per recognised shipment entry; none after the first comes from the order itself. |
| `Tracking.LastShipment` | routes/tracking.js:111-116 | The AWB code and courier shown are those of the last `SHIPMENT_CREATED` entry, and both are absent when there is none. |
| `Tracking.Revenue` | routes/tracking.js:221-223 | Revenue is 0 when no order is paid or completed, and never negative when no amount is. |
| `Tracking.TrackShipmentSkips` | routes/tracking.js:152-183 | An entry that does not carry the AWB can be removed from anywhere in the log without changing the lookup's answer. |
| `Tracking.Summarize` | routes/tracking.js:186-246 | `total_orders` is the number of orders. Each status count and each package count is the number of orders with that status or type, and the status counts partition the total. Revenue is the sum over `paid` and `completed` orders. The recent-orders list has 10 orders, or all of them when there are fewer, newest first and drawn from the store; no order left out is newer than one kept. The recent captures and shipments are `RecentOfKind` of their logs. |
| `Lifecycle.StatusUpdateRevenue` | routes/webhooks.js:63-79 | A status update moves the revenue by the matched order's new contribution minus its old one. |
| `Lifecycle.CaptureRevenue` | routes/webhooks.js:198-226 | The first capture of an unpaid order adds its amount to the revenue. A redelivered capture adds nothing. |
| `Lifecycle.LateFailureRevenue` | routes/webhooks.js:229-245 | A `payment.failed` for an order already paid takes its amount back out of the revenue. |
| `Lifecycle.NewOrderEarnsNothing` | routes/orders.js:127-149 | Saving a new `created` order leaves the revenue unchanged. |
| `Lifecycle.AutoShipmentPassesValidation` | routes/webhooks.js:99-110 | The automatic request for a `print` order passes the shipment route's field check exactly when the order has a gateway id, a customer name and an address. |
| `Lifecycle.CreatedPrintOrderShips` | routes/orders.js:127-146 | A `print` order created with an address and a non-empty gateway id yields an automatic request the shipment route accepts. |
| `Lifecycle.ShipmentErrorNotOnTimeline` | routes/shipments.js:262-265 | A `SHIPMENT_ERROR` entry concerns no order, so it never reaches a timeline. |
| `Lifecycle.TrackingEntryNeverFound` | routes/shipments.js:281-284 | Wherever a `TRACKING_REQUESTED` entry sits in the shipment log, the AWB lookup of `GET /api/tracking/shipment/:awb` answers as if it were absent, and a log holding only it gives 404, because it stores `awb` and not `awb_code`. |
| `Lifecycle.TrackingEntryInvisible` | routes/shipments.js:281-284 | A `TRACKING_REQUESTED` entry concerns no order and has no timeline status, so it never reaches a timeline. |
| `Lifecycle.AutoShipmentLogNotOnTimeline` | routes/webhooks.js:120-131 | The `SHIPMENT_AUTO_*` entries go to the payment log, where the timeline skips them. "Auto Shipment" would only come from the shipment log. |
| `Lifecycle.CourierNameNeverTracked` | routes/tracking.js:111-116 | When no `SHIPMENT_CREATED` entry records a courier, which is the case for every entry the shipment route writes, the tracked courier name is absent. |
| `Lifecycle.ForOrderSingle` | routes/tracking.js:30-35 | A log holding one entry about the order keeps that entry. |
| `Lifecycle.CapturedOrderTimeline` | routes/tracking.js:68-100 | An order whose only event is its capture has the timeline "Order Created" then "Payment Successful". |

## Left out

- **Files and JSON.** Reading and writing the files is out, including the fallback to an empty
  list when a file does not parse and the swallowed write errors. A file is a sequence that
  every write replaces.
- **Concurrency.** Concurrent requests are out, including races between webhook deliveries;
  handlers run one at a time.
- **HMAC.** The HMAC-SHA256 digest is a parameter. `timingSafeEqual` compares byte lengths;
  the model compares character lengths.
- **Express framing.** The HTTP response bodies are out. Responses are datatypes holding only
  the fields the contracts use.
- **Signed body.** `server.js:62` installs `express.json()` before the webhook router is mounted
  at `server.js:79`, so the route's `express.raw` never sees the raw bytes and
  `req.body.toString()` signs the parsed object's string form. The model takes `expected` as the
  digest of whatever string the handler signs, so it does not decide whether a real gateway
  signature can ever match. Were it to match, `JSON.parse` at `webhooks.js:168` would be handed
  `"[object Object]"` and throw, so the deployed server answers 500 even then. The model's path
  for a genuine signature with a readable event is the webhook router on its own, without the
  JSON middleware in front of it.
- **Floating point.** Floats are out: the `weight` of 0.5, `payment.amount / 100` in the log
  entries, and amounts that are not whole rupees. Amounts are integers.
- **Free-text fields.** These log and response fields are not modelled: the timeline
  `description` strings; the `amount` of the `ORDER` entry and the `input` of its error entry;
  the amount, email and contact of `PAYMENT_CAPTURED`; the amount and `error_code` of
  `PAYMENT_FAILED`; the amount and currency of `ORDER_COMPLETED`; the `shipment_data` of
  `SHIPMENT_AUTO_CREATED` and the `error` of `SHIPMENT_AUTO_ERROR`; the `shiprocket_order_id`
  and `full_response` of `SHIPMENT_CREATED`; the `status` of `TRACKING_REQUESTED`; and the
  `message` and `package_type` of `DIGITAL_DELIVERY`.
- **Google Sheets.** The Google Sheets posts (`sendConfirmationEmail` and the one in order
  creation) are out. The handlers catch their errors, so they change nothing the model
  observes.
- **The webhook's own request.** Outside production the webhook posts to `localhost:3000`,
  which is this server, and that call is modelled as the shipment route run on the same files
  and session. In production it posts to a placeholder domain, which is not modelled. Network
  failures of the call (no answer at all) are out; an answer other than 2xx is modelled.
- **Other routes.** `GET /api/orders`, the `/logs` and `/test` routes, the health route and
  the start-up code of `server.js` are not part of this model. They read data without changing
  any state the model keeps.
- **Receipts and timestamps.** The receipt string (`ORD_<time>_<random>`) is a parameter.
  ISO timestamps are integers. The `order_date` string is the `today` parameter.
- **Object keys.** The item lookup `packageItems[package_type]` would also hit keys inherited
  from `Object.prototype`. Only `pdf` and `print` are modelled.
- Tracking.TrackOrder: the timeline is sorted as a value (`Seqs.SortBy`, a stable insertion
  sort), not in place in an array. The order among entries with equal timestamps is not stated.
- Tracking.Summarize: the in-place `orders.sort` of the summary is modelled as a sorted copy.
  The contract does not state which orders win a tie on `created_at`.
- Tracking.CountStatus: the order status is one of the four values the handlers write, so the
  four counts add up to exactly the total rather than at most the total.

# AdChartView core in Dafny

AdChartView is a Next.js platform that sells stock-tip subscriptions. Admins publish tips in
three categories: equity, futures and options. Users sign in with Google and pay through
Razorpay. A verified payment grants the user read access to one category until an expiry date.
Each new tip is fanned out to that category's active subscribers in three ways: as stored
in-app notifications, as Socket.io events and as OneSignal push requests.

This project models the server side of that system over in-memory tables:

- the route handlers;
- the edge middleware;
- the NextAuth callbacks;
- the Mongoose schemas;
- the derivations of the tips page.

The database is a `Database.Db` class. Each collection is a `seq` field of records. New ids come
from a counter. Handlers that write are methods that modify those fields. Handlers that only read
are functions over the tables.

`Db.Valid()` states the invariants that the table-writing methods preserve:

- ids are distinct and below the counter;
- e-mail addresses are unique, as the schema's unique index requires;
- every subscribed user has a plan type and an expiry.

Every handler answers with a `Response(status, body)`. A request body's absent string counts as
"". A key that an update must leave alone is `None`. An id parameter is absent, malformed (a
failed ObjectId cast, which throws) or given. The socket emits and the push requests are logs
appended to `SocketServer.IoServer.emitted` and `TipsRoute.PushGateway.attempts`.

The module layout follows the source:

- `Common` holds the shared types. `Strings` and `Seqs` hold string and sequence helpers, with
  their lemmas.
- Schemas: `UserModel`, `TipModel`, `SubscriptionModel`, `SubscriptionRecordModel`,
  `TransactionModel`, `LoginHistoryModel`, `NotificationModel`.
- Tables and the transport: `Database`, `SocketServer`.
- Auth: `NextAuth`, `Middleware`.
- Tips, notifications and payment: `TipsRoute`, `NotificationsRoute`, `PaymentVerify`.
- Plans and admin views: `SubscriptionsRoute`, `AdminStats`, `AdminSubscribers`,
  `AdminLoginHistory`.
- User endpoints: `UserUpdate`, `UserCheck`, `SavePushId`.
- OTP and the tips page: `SendOtp`, `VerifyOtp`, `TipsPage`.

## Model

| member | source | states |
|---|---|---|
| Common.ParseCategory | src/models/Tip.ts:6-10 | a string names a category exactly when it is one of "equity", "futures", "options", and then it is that category's name |
| UserModel.NewUser | src/models/User.ts:3-23 | a created user keeps the given name, e-mail and image; role defaults to "user"; `isSubscribed` and `profileCompleted` are false; plan type, expiry, push id, location, age and phone are null |
| UserModel.NewUserInactive | src/models/User.ts:12-19 | a freshly created user is not entitled at any instant, and its entitlement fields are consistent |
| UserModel.ActiveBoundary | src/app/api/tips/route.ts:30-31 | at `planExpiry == now` a user is inactive; before that instant, activity is exactly `isSubscribed` |
| TipModel.CreateTip | src/models/Tip.ts:4-24 | a create succeeds exactly when the category enum and every required path are satisfied; the stored tip copies the input, `isDemo` defaults to false, and both timestamps are `now` |
| TipModel.CreatedTipCategory | src/models/Tip.ts:6-10 | every stored tip's category is one of the three |
| TipModel.ActionIsFreeText | src/models/Tip.ts:12 | the action is not an enum: "WATCH" passes validation |
| SubscriptionModel.CreatePlan | src/models/Subscription.ts:3-16 | a create succeeds exactly when name, price and duration are present and the plan type is in the enum; description is optional; a created plan has no undeclared `isActive` path |
| SubscriptionRecordModel.CreateRecord | src/models/SubscriptionRecord.ts:3-10 | a record is stored exactly when user, plan, payment and amount are present; the user and plan references are kept as given, well-formed or not; status defaults to "success" |
| TransactionModel.CreateTransaction | src/models/Transaction.ts:4-13 | a transaction is stored exactly when user, amount and status are present; currency defaults to "USD"; `transactionDate` and `createdAt` default to the creation time; `subscriptionId` is optional |
| LoginHistoryModel.CreateLogin | src/models/LoginHistory.ts:4-10 | a login is stored exactly when it names a user; `loginAt` defaults to the creation time and `success` to true; ip and user agent are optional |
| Database.Db.constructor | src/models/User.ts:6 | the empty database satisfies the table invariants |
| Database.Db.InsertUser | src/lib/nextauth.ts:24-29 | appends one user with a fresh id and an unused address, and keeps the invariants |
| Database.Db.ReplaceUser | src/app/api/user/update/route.ts:32-36 | replaces one user in place, with the same id and address, and keeps the invariants |
| Database.Db.InsertTip | src/app/api/tips/route.ts:73-85 | appends one tip with a fresh id |
| Database.Db.ReplaceTip | src/app/api/tips/route.ts:223-237 | replaces one tip in place, with the same id |
| Database.Db.RemoveTip | src/app/api/tips/route.ts:174 | removes exactly that tip; the table then holds every other tip |
| Database.Db.InsertPlan | src/app/api/subscriptions/route.ts:15 | appends one plan with a fresh id |
| Database.Db.RemovePlan | src/app/api/subscriptions/route.ts:24 | removes exactly that plan; the table then holds every other plan |
| Database.Db.InsertRecord | src/app/api/payment/verify/route.ts:34-41 | appends one audit record with a fresh id |
| Database.Db.InsertLogin | src/lib/nextauth.ts:34-41 | appends one login record with a fresh id |
| Database.Db.InsertNotifications | src/app/api/tips/route.ts:103-105 | appends a batch of notifications with consecutive fresh ids |
| Database.Db.ReplaceNotifications | src/app/api/notifications/route.ts:24 | rewrites the notification table pointwise, with the same ids |
| SocketServer.IoServer.Emit | src/lib/socketServer.ts:13-15 | an emit appends exactly that event to the server's log |
| SocketServer.Registry.constructor | src/lib/socketServer.ts:5 | the handle starts as null |
| SocketServer.Registry.InitSocket | src/lib/socketServer.ts:7-27 | the first call stores a fresh handle on the given server and returns it; later calls return the stored handle and replace nothing; afterwards the handle is set |
| SocketServer.Registry.GetIO | src/lib/socketServer.ts:29-35 | returns the handle, which is null exactly when `initSocket` never ran |
| NextAuth.RoleFor | src/lib/nextauth.ts:28 | the role is "admin" exactly for the configured address, otherwise "user" |
| NextAuth.SignIn | src/lib/nextauth.ts:19-47 | a user is created only when none has that address, with the role above; an existing user is left as it is; without a logging failure, one successful login record for that user is appended, with an empty ip stored as null; a failing log is swallowed; the result is always true |
| NextAuth.JwtCallback | src/lib/nextauth.ts:49-57 | without a provider user the token passes through; with one, the role is the stored role, or "user" when the user is missing or the role is empty, and the id is set exactly when the user is stored |
| NextAuth.SessionCallback | src/lib/nextauth.ts:59-63 | the session carries the token's role and id |
| NextAuth.SessionCarriesStoredRole | src/lib/nextauth.ts:49-63 | with unique addresses, a signed-in user's session holds that user's stored role and id |
| NextAuth.Redirect | src/lib/nextauth.ts:65-69 | "admin" goes to `/admin/dashboard`, "user" goes to `/user`, anything else goes to the base URL |
| Middleware.RouteAlwaysNext | src/middleware.ts:11-21 | as written, every path that begins with "/" is let through whatever the token (the "/" entry is a prefix of all of them) |
| Middleware.AdminOpenWithoutToken | src/middleware.ts:11-21 | as written, `/admin/dashboard` opens with no token |
| Middleware.MatchedNeverPublic | src/middleware.ts:11-18 | no path the matcher selects is public or a static asset under the intended test |
| Middleware.AdminAreaGuarded | src/middleware.ts:24-35 | with the intended public test, the admin area opens exactly for an admin token; no token goes to "/", any other role goes to "/login" |
| Middleware.UserAreaGuarded | src/middleware.ts:24-41 | with the intended public test, the user area opens exactly for a "user" token, and any other token, admins included, goes to "/" |
| Middleware.UnmatchedPass | src/middleware.ts:48-50 | paths outside `/admin` and `/user` never reach the middleware and pass |
| PaymentVerify.ParseDuration | src/app/api/payment/verify/route.ts:45-57 | the unit is months exactly when the lower-cased text contains "month", else years when it contains "year", else days when it contains "day", else none; the count is the magnitude of the lower-cased text |
| PaymentVerify.ParseDurationIgnoresCase | src/app/api/payment/verify/route.ts:45 | the parse does not depend on letter case |
| PaymentVerify.ThreeMonths | src/app/api/payment/verify/route.ts:45-52 | "3 Months" is three months, and "3 MONTHS" parses like "3 months" |
| PaymentVerify.Lifetime | src/app/api/payment/verify/route.ts:48-57 | "Lifetime" has magnitude 1 and no extension |
| PaymentVerify.YearAndMonths | src/app/api/payment/verify/route.ts:48-52 | "1 year 6 months" is one month: the first number and the first-ranked unit come from different parts of the text |
| PaymentVerify.Expiry | src/app/api/payment/verify/route.ts:44-57 | without a unit keyword, the expiry is `now` |
| PaymentVerify.ExpiryNotBefore | src/app/api/payment/verify/route.ts:44-57 | for a monotone calendar, the expiry is never before `now` |
| PaymentVerify.SignedString | src/app/api/payment/verify/route.ts:20 | the signed text is the order id, a bar, then the payment id |
| PaymentVerify.Grant | src/app/api/payment/verify/route.ts:60-64 | the user becomes subscribed to the plan's type until the expiry, and no other field changes |
| PaymentVerify.Post | src/app/api/payment/verify/route.ts:8-74 | on a signature mismatch: 400 and nothing written; on a rejected record: 500 and nothing written; otherwise exactly one "success" record is appended first; then a malformed plan id or a plan id that finds nothing gives 500 with the user unchanged; with the plan found, a malformed user id gives 500 with the user unchanged, and a well-formed one gives 200 with that user's entitlement overwritten |
| PaymentVerify.GrantToSpec | src/app/api/payment/verify/route.ts:60-64 | after a grant, the paying user is subscribed to the plan's category until the computed expiry, keeps id, address and role, and every other user is unchanged |
| PaymentVerify.GrantActive | src/app/api/payment/verify/route.ts:44-64 | the paying user is active at `now` exactly when the expiry is strictly later; a duration without a unit grants an entitlement that is already over |
| TipsRoute.VisibleTipsSpec | src/app/api/tips/route.ts:23-39 | the listing is newest first; an admin gets every tip (as a multiset); an active user gets exactly the tips of their plan's category, demo tips included, each as often as it is stored; an inactive user gets exactly the demo tips, each as often as it is stored |
| TipsRoute.ActiveSeesOnlyOwnCategory | src/app/api/tips/route.ts:31-35 | an active subscriber never receives a tip of another category |
| TipsRoute.Get | src/app/api/tips/route.ts:10-40 | without a session: 401; with no user for the address: 404; otherwise 200 with the visible tips of the user with that address |
| TipsRoute.Recipients | src/app/api/tips/route.ts:88-93 | a user is a recipient exactly when active, on that category's plan and registered for push, whether or not the tip is a demo |
| TipsRoute.RecipientsCanRead | src/app/api/tips/route.ts:88-93 | every recipient of a new tip can read it |
| TipsRoute.TipMessage | src/app/api/tips/route.ts:98 | the message is "New ", the category, " tip added: ", then the stock name |
| TipsRoute.NotificationsFor | src/app/api/tips/route.ts:96-101 | one unseen notification per recipient, in order, each for that recipient with the message and consecutive fresh ids; no recipients means no notifications |
| TipsRoute.EventsFor | src/app/api/tips/route.ts:110-116 | one `newNotification` event per recipient, in order |
| TipsRoute.PushesFor | src/app/api/tips/route.ts:122-137 | one push request per recipient, in order |
| TipsRoute.Broadcast | src/app/api/tips/route.ts:108-119 | the emit loop appends exactly the recipients' events to the server's log |
| TipsRoute.SendPushes | src/app/api/tips/route.ts:122-137 | the push loop sends one request per recipient in order; a rejected fetch stops it right after that request was sent |
| TipsRoute.Post | src/app/api/tips/route.ts:43-147 | 401 without a session and 403 for a non-admin, with nothing written; a rejected body gives 500 with nothing written; otherwise the tip and the recipients' notifications are stored, events are emitted only when the transport exists, and pushes are sent; the answer is 201 with the tip, or 500 after the first rejected push, with the writes kept |
| TipsRoute.ApplyUpdate | src/app/api/tips/route.ts:223-237 | each of the nine listed fields takes the given value, or keeps the stored one when the body leaves it out; the id, the creator and the creation time are kept; `updatedAt` becomes `now` |
| TipsRoute.ApplyUpdateProps | src/app/api/tips/route.ts:223-237 | an update is idempotent; a given category is stored unvalidated; an update naming no field changes only `updatedAt` |
| TipsRoute.Put | src/app/api/tips/route.ts:190-250 | 401, then 403, then 400 without an id, 500 for a malformed id, 404 for an unknown id; otherwise exactly that tip is replaced by its update and returned; on any failure the table is unchanged |
| TipsRoute.Delete | src/app/api/tips/route.ts:151-187 | 401, then 403, then 400 without an id, 500 for a malformed id, 404 for an unknown id; otherwise exactly that tip is removed |
| NotificationsRoute.OwnNotificationsSpec | src/app/api/notifications/route.ts:12-14 | a user's listing is exactly their own notifications, each as often as it is stored, newest first |
| NotificationsRoute.Get | src/app/api/notifications/route.ts:7-17 | without a session: 401; otherwise 200 with exactly the session user's notifications |
| NotificationsRoute.MarkSeen | src/app/api/notifications/route.ts:24 | the table keeps its length |
| NotificationsRoute.MarkSeenSpec | src/app/api/notifications/route.ts:24 | afterwards all of the user's notifications are seen; other users' are untouched; nothing but `seen` changes; a second run changes nothing |
| NotificationsRoute.ListingAfterMarkSeen | src/app/api/notifications/route.ts:12-24 | after marking, the user's listing has as many entries as before, all seen |
| NotificationsRoute.SameOwnCount | src/app/api/notifications/route.ts:12-14 | tables that agree on owners hold as many notifications of each user |
| NotificationsRoute.Patch | src/app/api/notifications/route.ts:19-27 | without a session: 401 with nothing changed; otherwise 200 Success and the user's notifications are marked seen |
| SubscriptionsRoute.Get | src/app/api/subscriptions/route.ts:5-10 | the answer is always a 200 listing |
| SubscriptionsRoute.GetSpec | src/app/api/subscriptions/route.ts:7 | the listing holds every plan once, newest first |
| SubscriptionsRoute.Post | src/app/api/subscriptions/route.ts:12-17 | anyone may create a plan; a valid body is appended and returned, and a rejected one throws with nothing written |
| SubscriptionsRoute.Delete | src/app/api/subscriptions/route.ts:19-26 | no id: 400 "Missing ID" with nothing removed; a malformed id throws; otherwise exactly the plan with that id, if any, is removed, and the answer is success either way |
| AdminStats.SumAmountsAppend | src/app/api/admin/stats/route.ts:25 | the sum of amounts is additive over concatenation |
| AdminStats.Revenue | src/app/api/admin/stats/route.ts:23-32 | with no completed transaction the revenue is 0 |
| AdminStats.RevenueAppend | src/app/api/admin/stats/route.ts:23-26 | a new transaction adds its amount to revenue exactly when it is completed |
| AdminStats.RevenueNonNegative | src/app/api/admin/stats/route.ts:23-32 | with non-negative amounts, revenue is non-negative |
| AdminStats.SumNonNegative | src/app/api/admin/stats/route.ts:25 | a sum of non-negative amounts is non-negative |
| AdminStats.Get | src/app/api/admin/stats/route.ts:11-43 | without an admin session: 403; otherwise the user, tip and login counts are the table sizes, `demoTips` is the number of demo tips (so at most `totalTips`), `activeSubscribers` is the number of plans whose `isActive` is true, and the revenue is that of the completed transactions |
| AdminStats.DemoTipsExtremes | src/app/api/admin/stats/route.ts:33 | if every tip is a demo, the demo count is the tip count; if none is, it is 0 |
| AdminStats.CreatedPlansNeverActive | src/app/api/admin/stats/route.ts:22 | plans made by the catalogue route never count as active subscribers |
| AdminSubscribers.Populate | src/app/api/admin/subscribers/route.ts:16-24 | the user's address is present exactly when the reference resolves, and then it and the name come from that user; otherwise both are absent |
| AdminSubscribers.Rows | src/app/api/admin/subscribers/route.ts:19-28 | one projected row per selected document, in order |
| AdminSubscribers.Get | src/app/api/admin/subscribers/route.ts:7-31 | the intended listing, with the four paths declared: without an admin session, 403; otherwise the rows of the active plans |
| AdminSubscribers.RowsCount | src/app/api/admin/subscribers/route.ts:15 | there are as many rows as active plans, and every row is active |
| AdminSubscribers.RowsOrder | src/app/api/admin/subscribers/route.ts:17 | rows come by `subscribedAt` descending |
| AdminSubscribers.RowsExact | src/app/api/admin/subscribers/route.ts:15-28 | a plan has a row exactly when it is active |
| AdminSubscribers.RowAsWritten | src/app/api/admin/subscribers/route.ts:19-28 | a row read from a hydrated strict document keeps its id and has no user address or name, no dates and no flag |
| AdminSubscribers.GetAsWritten | src/app/api/admin/subscribers/route.ts:7-31 | as written against the declared schema: 403 without an admin session; a thrown 500 exactly when `strictPopulate` is on and a plan is selected; otherwise one id-only row per selected plan, in order |
| AdminSubscribers.AsWrittenLosesActivePlan | src/app/api/admin/subscribers/route.ts:15-28 | with an active plan, the handler as written throws or lists that plan without its details, while the intended listing holds its full row |
| Common.OrNull | src/app/api/admin/login-history/route.ts:33-34 | the `or null` default is present exactly when the stored string is present and non-empty |
| AdminLoginHistory.JoinUser | src/app/api/admin/login-history/route.ts:24-35 | a user that is not stored yields "Unknown" and nulls; the address shown is never empty |
| AdminLoginHistory.Rows | src/app/api/admin/login-history/route.ts:22-38 | one joined row per record, in order |
| AdminLoginHistory.Get | src/app/api/admin/login-history/route.ts:8-48 | without an admin session: 403; otherwise the joined rows of all records by `loginAt` descending |
| AdminLoginHistory.RowsSpec | src/app/api/admin/login-history/route.ts:19-38 | one row per record, newest first, every record represented, with id, time, ip, agent and success copied |
| UserUpdate.TargetEmail | src/app/api/user/update/route.ts:18 | the body's address when given, otherwise the session's |
| UserUpdate.ApplyProfile | src/app/api/user/update/route.ts:24-29 | location, age and phone come from the body where given, and `profileCompleted` becomes true |
| UserUpdate.ApplyProfileKeeps | src/app/api/user/update/route.ts:24-29 | identity, role, entitlement and push id are untouched, and the update is idempotent |
| UserUpdate.Post | src/app/api/user/update/route.ts:7-53 | no address: 401 with nothing changed; no user for it: 404 with nothing changed; otherwise only that user is updated and returned |
| UserCheck.Get | src/app/api/user/check/route.ts:7-17 | no session address: true; otherwise the stored flag of the first user with that address, or false when there is none |
| UserCheck.GetWithUniqueEmails | src/app/api/user/check/route.ts:13-16 | with unique addresses, the answer is the stored flag of the user with the session's address |
| SavePushId.SetPushId | src/app/api/saveOneSignalId/route.ts:13-19 | only `oneSignalUserId` changes, to the supplied value; a body without the key changes nothing |
| SavePushId.Post | src/app/api/saveOneSignalId/route.ts:7-22 | no session address: 401 with nothing changed; otherwise only the matching user's push id is set, and the answer is success even when no user matched |
| Strings.StripLeadingZeros | src/app/api/twilio/send-otp/route.ts:19 | the result is a suffix of the input; all the removed characters are '0'; the result does not begin with '0' |
| SendOtp.Destination | src/app/api/twilio/send-otp/route.ts:18-19 | the destination begins with "+91", followed by the number without its leading zeros |
| SendOtp.LeadingZeroIrrelevant | src/app/api/twilio/send-otp/route.ts:19 | a leading zero does not change the destination |
| SendOtp.NoLeadingZeroKept | src/app/api/twilio/send-otp/route.ts:19 | a number that does not start with '0' is sent whole |
| SendOtp.DestinationIdempotent | src/app/api/twilio/send-otp/route.ts:19 | normalising an already normalised number changes nothing |
| SendOtp.InteriorZerosKept | src/app/api/twilio/send-otp/route.ts:19 | "007080" goes to "+917080": only the leading zeros go |
| SendOtp.Post | src/app/api/twilio/send-otp/route.ts:10-33 | an empty phone gives 400 with no vendor call; otherwise the vendor is called for the destination, and its id yields 200 while a throw yields 500 |
| VerifyOtp.Post | src/app/api/twilio/verify-otp/route.ts:10-36 | a missing phone or code gives 400 with no vendor call; status "approved" yields 200; any other status yields 400 "Invalid OTP"; a throw yields 500; success happens exactly on approval |
| VerifyOtp.SameDestination | src/app/api/twilio/verify-otp/route.ts:18 | the code is checked against the same destination as the send, "+91" and the number without its leading zeros |
| TipsPage.Load | src/app/tips/page.tsx:30-51 | the subscriber view is shown exactly when the fetch succeeds with a non-empty list that has no demo tip; a successful fetch of a list stores exactly that list as the page's tips; a failed fetch leaves no tips and the demo banner |
| TipsPage.ActiveWithDemoSeesBanner | src/app/tips/page.tsx:39-43 | a listing from the tips API that holds a demo tip shows the demo banner, even to an active subscriber |
| TipsPage.TabsPartition | src/app/tips/page.tsx:60-62 | a tip is in a tab exactly when its category names that tab; other categories are in no tab |
| TipsPage.TabSizes | src/app/tips/page.tsx:60-106 | the three tab counts add up to the number of tips with one of the three categories |
| TipsPage.DisplayAction | src/app/tips/page.tsx:115 | the shown action is "SELL" exactly when the upper-cased action is "SELL", otherwise "BUY" |
| TipsPage.DisplayActionExamples | src/app/tips/page.tsx:115-147 | "sell" and "Sell" show as SELL, and "WATCH" shows as BUY |

## Left out

- HMAC-SHA256 (Node `crypto`) is a function parameter `hmac`. Its definition is not modelled.
- JavaScript `Date` arithmetic is abstract: a `Calendar` of three add-functions. Monotonicity is
  a hypothesis, `Monotone`. Month-end overflow is not modelled.
- PaymentVerify.Expiry and PaymentVerify.Monotone describe only expiries inside the `Date` range.
  The calendar is total, and the magnitude is an exact integer, whereas `parseInt` gives a float.
  A duration such as "300000 years" makes `setFullYear` give an Invalid Date. Casting that date
  into `planExpiry` then throws, so the source answers 500 with the record written and the user
  unchanged. PaymentVerify.Post does not model that 500: it answers 200 and grants.
- Every clock read in one request is the same instant, `now`.
- Vendor SDKs and the network become parameters:
  - the Twilio verify client is an oracle that gives an id or a status, or throws;
  - each OneSignal `fetch` is a request appended to a log, and `failAt` is the first one that
    rejects;
  - the OneSignal app id, API key and site URL are configuration and are not kept in the
    request.
- The Socket.io transport is only a singleton handle with an event log. Connections, CORS and
  delivery are out.
- The database connection is out, and so is the `dropIndexes` call in the plan listing. That call
  changes indexes only, not documents.
- An exception's message text is out. A throw becomes a `Fault` tag: a validation failure, the
  null plan, a rejected fetch, a vendor error or a failed ObjectId cast.
- A cast error on a value other than an id parameter is out. The model's inputs are already typed.
- JSON `null` in an update body is not modelled. `TipsRoute.TipUpdate` and `UserUpdate.ProfileBody`
  distinguish only a given value from a left-out key. Mongoose writes an explicit `null`, and the
  model cannot express that.
- PaymentVerify.SignedString: an absent `razorpay_payment_id` is "", so the model signs "order|".
  JavaScript signs "order|undefined".
- TipsPage.DisplayAction and Strings.ToUpper: case mapping covers ASCII letters only. JavaScript's
  `toUpperCase` is Unicode-aware, so "ſell" (with U+017F) shows SELL in the page but BUY in the
  model. Strings.ToLower is ASCII-only in the same way. This does not affect
  `PaymentVerify.ParseDuration`, because no other character lower-cases into the letters of
  "month", "year" or "day".
- The Notification schema file is not part of this model. Its fields are taken from their use when
  tips are posted: owner, message, seen and creation time.
- The OAuth profile's ip and the user agent are parameters of `NextAuth.SignIn`. The source reads
  `navigator`, which does not exist on the server.
- Every session is assumed to carry the id and role that the session callback copies from the
  token.
- NextAuth.Redirect: NextAuth passes `url` and `baseUrl` to this callback but no `token`. In
  practice it always returns `baseUrl`. The model states the mapping the code writes.
- PaymentVerify.Post: a `userId` that matches no user still answers success. `findByIdAndUpdate`
  then updates nothing. This follows the code, which has no not-found branch.
- PaymentVerify.Post: the order id is not kept in the audit record, because the record schema has
  no such path.
- SubscriptionsRoute.Post: the body's undeclared keys are not represented. Strict mode drops them.
- AdminSubscribers.Get and AdminStats.Get read `isActive`, `userId`, `subscribedAt` and
  `expiresAt`, which the plan schema does not declare. Both filter on `isActive`, which assumes
  `strictQuery` off (the Mongoose 7 default; under Mongoose 6 the filter would be dropped). The
  Mongoose version is not part of this model.
- AdminSubscribers.Get gives the intended rows, as if the schema declared the four paths. It is
  not what the code returns. The code as written is `AdminSubscribers.GetAsWritten`, recorded
  under "## Findings".
- `TipsRoute.Put` follows Mongoose's update semantics: keys left out of the body are dropped, and
  `findByIdAndUpdate` runs no validators. That is why any category string can be stored.
- Prices and amounts are integers, not floating point.
- Request concurrency is out. `Promise.all` in the stats and login-history reads and races between
  payments are not modelled. Each handler is one sequential step.
- The user interface is out, apart from the tips page's subscribed inference, category tabs and
  action mapping. So are the React hooks, process bootstrap (`server.ts`, the socket route) and
  the Razorpay order route.
- The loading state and the unused `planType` state of the tips page are out.

## Findings

| source | as written | input that shows it | evidently intended | confidence | as-written member | corrected member |
|---|---|---|---|---|---|---|
| src/middleware.ts:11-21 | the public list contains "/" and is tested with `startsWith`, so every path passes before the token and role checks | `/admin/dashboard` with no token is let through | only the home page itself is public; admin and user areas are guarded by role | not executed | Middleware.RouteAlwaysNext, Middleware.AdminOpenWithoutToken | Middleware.AdminAreaGuarded, Middleware.UserAreaGuarded |
| src/app/api/admin/subscribers/route.ts:15-28 | the handler populates and reads `userId`, `subscribedAt`, `expiresAt` and `isActive`, which the strict plan schema does not declare, on hydrated documents | an admin request while one plan document stores `isActive: true` | the listing shows each active plan's user, dates and flag, so the schema should declare these paths | not executed; medium, since the outcome depends on the Mongoose version (`strictPopulate` on gives a 500, off gives id-only rows) | AdminSubscribers.GetAsWritten, AdminSubscribers.AsWrittenLosesActivePlan | AdminSubscribers.Get, AdminSubscribers.RowsExact |

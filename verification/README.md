# OrderPing message pipeline — a Dafny model

OrderPing is a multi-tenant dashboard where merchants record orders and
notify their customers over WhatsApp. This project models its core in
Dafny and proves properties of that model. The modelled core is:

- **Order actions** (`actions/orders.ts`). `createOrder` checks the
  caller's role, reads and validates the form, and normalises the WhatsApp
  number. It then finds or creates the customer and inserts the order.
  `updateOrderStatus` changes the status of one order.
- **Workspace guard** (`lib/auth/guard.ts`). It finds the signed-in user's
  active workspace and role, or redirects to sign-in or onboarding.
- **Phone utilities** (`lib/utils/phone.ts`). These normalise, validate and
  display numbers in E.164 form, with India as the default country.
- **Gupshup client** (`lib/providers/whatsapp/gupshup.ts`). It builds the
  form-encoded request and maps the HTTP exchange to
  `{ ok, providerMessageId | error }`.
- **Outbox dispatcher**, in two copies: the Next.js job route
  (`app/api/jobs/send-whatsapp/route.ts`) and the Supabase edge function
  (`supabase/functions/send-whatsapp/index.ts`). Each picks up to ten
  QUEUED messages, oldest first, whose customer has not opted out. It sends
  each one's template and records SENT or FAILED.
- **Webhooks.**
  - Gupshup (`app/api/webhooks/gupshup/route.ts`): delivery receipts and
    STOP opt-outs.
  - Razorpay (`app/api/webhooks/razorpay/route.ts`): an HMAC-gated
    subscription and invoice reconciler.

## How the model is built

Database tables are sequences of immutable rows (module `Types`). Every
PostgREST `update(...).eq(...)` is modelled as a function from the old
table to the new one.

Anything outside the code is a parameter:

- whether a query, insert or update fails — supabase-js reports a failure as `{ error }` instead of throwing, and the outbox updates, both webhooks' writes and the Razorpay owner lookup never read it;
- the ids and timestamps the database assigns;
- the clock;
- how each HTTP exchange with the provider ended;
- what `JSON.parse` produced;
- the HMAC digest.

Modules follow the source files:

| module | models |
|---|---|
| `Text` | `replace(/\D/g,'')`, `toString`, `slice(-k)`, `includes`, `toLowerCase` |
| `JsValues` | `Object.values`, `String(v)`, property access on parsed JSON |
| `Phone` | `lib/utils/phone.ts` |
| `Provider` | `lib/providers/whatsapp/gupshup.ts` |
| `Outbox` | the outbox row patches |
| `Dispatch` | batch selection and the per-row loop shared by both dispatchers |
| `JobRoute` | the job route |
| `EdgeFunction` | the edge function |
| `GupshupWebhook` | the Gupshup webhook |
| `RazorpayWebhook` | the Razorpay webhook |
| `Guard` | `lib/auth/guard.ts` |
| `Orders` | `actions/orders.ts` |

### Behaviour of the code worth knowing

- **Invoice writes.** `upsert` is called without `onConflict`. With no unique constraint on `razorpay_invoice_id`, every invoice event inserts a new row, so a replayed event is recorded twice (`RazorpayWebhook.InvoiceReplayDuplicates`).
- **Status updates.** `updateOrderStatus` checks no role, so a viewer can change a status (`Orders.ViewerCanUpdateStatus`). It writes no order event.
- **Opt-out scope.** The opt-out update filters only on `whatsapp_number`, so one STOP opts the number out in every workspace (`GupshupWebhook.StopOptsOut`).
- **Ignored write errors.** When the SENT update of a message the provider accepted is refused, the row stays QUEUED, exactly as before the send, but is counted in `processed`. A QUEUED row is what the batch query selects, so a later run can send the message a second time (`JobRoute.UnrecordedSendIsResent`).

## Model

| member | source | states |
|---|---|---|
| Phone.FormatE164 | lib/utils/phone.ts:1-21 | the result is either the input unchanged or "+" and digits only; when changed, it has at least 12 characters and its digits are the input's digits, with "91" prepended only in the ten-digit case |
| Phone.FormatTenDigits | lib/utils/phone.ts:10-13 | any input with exactly ten digits, however punctuated, becomes "+91" followed by those digits |
| Phone.FormatIndianCountryCode | lib/utils/phone.ts:5-8 | twelve digits starting "91" become "+" and the digits, whether or not a "+" was typed |
| Phone.FormatOtherCountryCode | lib/utils/phone.ts:15-18 | more than ten digits typed without "+" gain a "+" |
| Phone.FormatVerbatim | lib/utils/phone.ts:20 | every other input is returned exactly as typed, punctuation included |
| Phone.FormatSpacedExample | lib/utils/phone.ts:1-13 | "98765 43210" normalises to "+919876543210" |
| Phone.FormatKeepsIndianE164 | lib/utils/phone.ts:5-8 | a "+91" number with twelve digits is already normal: normalising returns it unchanged |
| Phone.FormatInternationalExample | lib/utils/phone.ts:5-8 | "+919876543210" is already normal and is returned unchanged |
| Phone.FormatTextExample | lib/utils/phone.ts:20 | text without digits ("abc") is returned as typed, not rejected |
| Phone.FormatIdempotent | lib/utils/phone.ts:1-21 | normalising an already normalised number changes nothing |
| Phone.ValidateIff | lib/utils/phone.ts:23-26 | the left-to-right matcher accepts exactly "+", a digit 1-9 and then 7 to 15 more digits (the pattern `^\+[1-9][0-9]{7,15}$`) |
| Phone.ValidateAdmitsSixteenDigits | lib/utils/phone.ts:24 | the pattern admits 16 digits after "+", one more than ITU-T E.164 allows |
| Phone.ValidateDigitCount | lib/utils/phone.ts:23-26 | a validated number is "+" followed by 8 to 16 digits |
| Phone.FormatIndianIsValid | lib/utils/phone.ts:5-13 | both Indian branches of normalisation always produce a number the validator accepts |
| Phone.FormatOtherBranchMayBeInvalid | lib/utils/phone.ts:15-18 | the other-country branch can produce a number the validator refuses (leading zero, or more than 16 digits), so createOrder's phone check is not redundant |
| Phone.FormatDisplay | lib/utils/phone.ts:28-34 | a number not starting "+91" is shown unchanged; a "+91" number grows by exactly two characters and starts "+91 " |
| Phone.DisplayOnlyInsertsSpaces | lib/utils/phone.ts:29-31 | display inserts a space after "+91" and another five characters later (fewer if the number is short); deleting them gives back the input |
| Phone.DisplayOfIndianNumber | lib/utils/phone.ts:29-31 | a normalised ten-digit Indian number displays as "+91 XXXXX YYYYY" |
| Text.ContainsIff | app/api/webhooks/gupshup/route.ts:28 | the substring scan used for `includes` finds a match exactly when the pattern occurs at some position |
| Text.DecimalRoundTrip | actions/orders.ts:133 | reading back the numeral that `toString` writes for a non-negative integer gives that integer |
| Text.SuffixValue | actions/orders.ts:133 | the last k digits that `slice(-k)` keeps denote the number modulo 10^k |
| Text.DecimalInjective | actions/orders.ts:133 | two digit strings of the same length that denote the same number are equal |
| JsValues.ObjectValues | app/api/jobs/send-whatsapp/route.ts:35 | `Object.values` fails exactly on null; an object gives one value per distinct key, in first-occurrence order, holding the key's last value (what property access reads); an array gives its elements |
| JsValues.TemplateParams | app/api/jobs/send-whatsapp/route.ts:35-36 | building template parameters throws exactly for a null payload; otherwise there is one parameter per value |
| JsValues.StringPayloadParams | app/api/jobs/send-whatsapp/route.ts:35-36 | a payload with distinct keys whose values are all strings yields exactly those strings, in key order |
| JsValues.ObjectValuesOfDistinct | app/api/jobs/send-whatsapp/route.ts:35 | with distinct keys, `Object.values` gives the entries' values in order |
| JsValues.DuplicateKeyCountsOnce | app/api/jobs/send-whatsapp/route.ts:35-36 | a key given twice yields one parameter, holding the later value |
| JsValues.NumberParam | app/api/jobs/send-whatsapp/route.ts:36 | a number value becomes its decimal numeral, which reads back as the number |
| JsValues.Get | app/api/webhooks/gupshup/route.ts:14-26 | property access on parsed JSON yields a value exactly when the value is an object that has the key |
| Provider.MapExchange | lib/providers/whatsapp/gupshup.ts:53-71 | the result is ok exactly when the body parsed to a non-null value and the status is 2xx; ok carries the body's `messageId` and no error; not ok carries an error and no id |
| Provider.MapExchangeErrors | lib/providers/whatsapp/gupshup.ts:53-71 | the error text for each failure: the thrown Error's message or "Unknown error", the JSON parse error (even on a non-2xx status), the TypeError of reading a property of a null body (even on 2xx), a truthy `message`, or "HTTP <status>" |
| Provider.ProviderMessageReported | lib/providers/whatsapp/gupshup.ts:55-60 | a non-2xx reply whose body carries a non-empty string message reports exactly that message |
| Provider.NullBodyFails | lib/providers/whatsapp/gupshup.ts:53-71 | a 2xx reply whose body is JSON null is a failure carrying the TypeError of reading `messageId`, not a success |
| Provider.StatusErrorNamesStatus | lib/providers/whatsapp/gupshup.ts:58 | when the body has no truthy message, the error is "HTTP " followed by a numeral that reads back as the status |
| Provider.SendTemplate | lib/providers/whatsapp/gupshup.ts:29-72 | a POST to baseUrl + "/msg" carrying the API key header, whose result is the exchange mapping |
| Provider.SendText | lib/providers/whatsapp/gupshup.ts:74-114 | the same POST target, API key and result mapping for a text message |
| Provider.TemplateFormFields | lib/providers/whatsapp/gupshup.ts:31-42 | the form has exactly channel, source, destination and message, holding "whatsapp", the source, the recipient and the template message |
| Provider.TemplateMessageContents | lib/providers/whatsapp/gupshup.ts:35-41 | the template message has type "template", the template id, and the parameters as JSON strings in order |
| Provider.SendTextDiffersOnlyInMessage | lib/providers/whatsapp/gupshup.ts:74-114 | sendText makes the same request as sendTemplate except for the message field, and maps results identically |
| Outbox.UpdateById | app/api/jobs/send-whatsapp/route.ts:47-66 | an update by id changes only rows with that id, each to the patched row with the patch's status |
| Outbox.UpdateByProviderId | app/api/webhooks/gupshup/route.ts:17-20 | an update by provider message id changes only rows carrying that id; rows with a null id never match |
| Dispatch.Eligibles | app/api/jobs/send-whatsapp/route.ts:21-22 | keeps exactly the QUEUED rows whose customer has not opted out, each exactly as often as the join holds it |
| Dispatch.SortByAge | app/api/jobs/send-whatsapp/route.ts:23 | the ordering is a permutation of its input, oldest first |
| Dispatch.SelectBatchSpec | app/api/jobs/send-whatsapp/route.ts:13-24 | the batch holds min(10, number eligible) rows; all are QUEUED with a customer who has not opted out; they are oldest first and drawn from the join |
| Dispatch.SelectBatchOldest | app/api/jobs/send-whatsapp/route.ts:23-24 | every eligible row left behind is no older than any row taken |
| Dispatch.OptedOutNeverSelected | app/api/jobs/send-whatsapp/route.ts:22 | a customer who opted out is never in a batch |
| Dispatch.BacklogTakesTen | app/api/jobs/send-whatsapp/route.ts:24 | with at least ten eligible rows, exactly ten are taken and the rest stay queued |
| Dispatch.DrainCounts | app/api/jobs/send-whatsapp/route.ts:32-82 | the processed count is the number of rows whose attempt reached the provider, one request each; rows that raised are not counted |
| Dispatch.DrainFrame | app/api/jobs/send-whatsapp/route.ts:46-81 | rows outside the batch are unchanged; every changed row is SENT or FAILED, never DELIVERED or QUEUED |
| Dispatch.DrainRowEffect | app/api/jobs/send-whatsapp/route.ts:32-82 | with distinct message ids, a batch row's outbox row ends as that row's own outcome patch applied to it when the update was accepted, and untouched when the database refused it, whatever the other rows did |
| Dispatch.RowOutcome | app/api/jobs/send-whatsapp/route.ts:47-81 | per row: a refused update leaves the row as it was; otherwise on success SENT with the provider id, attempts unchanged; on provider error FAILED with the error and attempts + 1; on exception FAILED with its message and attempts + 1; the attempt time is set |
| Dispatch.UnrecordedSendStaysQueued | app/api/jobs/send-whatsapp/route.ts:47-68 | a message the provider accepted whose SENT update is refused stays QUEUED and is still counted |
| JobRoute.RouteAttempt | app/api/jobs/send-whatsapp/route.ts:33-44 | a row raises exactly when its payload is null (the TypeError message); otherwise its result is the mapped provider exchange |
| JobRoute.RoutePost | app/api/jobs/send-whatsapp/route.ts:10-92 | the reply is 500 exactly when the query rejects; a query error or an empty batch writes nothing; the processed count equals the number of requests sent |
| JobRoute.RoutePostProcessed | app/api/jobs/send-whatsapp/route.ts:30-84 | processed equals the number of batch rows with a non-null payload, and is at most ten |
| JobRoute.RoutePostFrame | app/api/jobs/send-whatsapp/route.ts:46-81 | only batch rows are written, and each changed row is SENT or FAILED |
| JobRoute.RouteRequestTarget | app/api/jobs/send-whatsapp/route.ts:39-44 | each request goes to the configured base URL, with the configured key, source number and the customer's number; a missing variable appears as "undefined" |
| JobRoute.EmptyBatchIsQuiet | app/api/jobs/send-whatsapp/route.ts:26-28 | with nothing eligible, or a query error, the reply is `{ processed: 0 }` with 200 and nothing is written |
| JobRoute.UnrecordedSendIsResent | app/api/jobs/send-whatsapp/route.ts:13-68 | when the SENT update of an accepted message is refused, the reply still counts it and its outbox row is left exactly as it was, still QUEUED |
| EdgeFunction.EdgeSendTemplateIsClient | supabase/functions/send-whatsapp/index.ts:14-53 | the inline copy of sendTemplate makes the same request and returns the same result as the shared client, for every exchange |
| EdgeFunction.EdgeServe | supabase/functions/send-whatsapp/index.ts:55-157 | OPTIONS is answered with no database work; every reply carries the CORS headers; the reply is 500 exactly for a non-OPTIONS request with an empty database URL or key, or a rejected query |
| EdgeFunction.EdgeMatchesRoute | supabase/functions/send-whatsapp/index.ts:60-146 | with every variable set, the edge function writes the same outbox, sends the same requests and reports the same count and status as the job route |
| EdgeFunction.MissingApiKeyDiffers | supabase/functions/send-whatsapp/index.ts:96 | with the API key unset, the route sends "undefined" and the edge function sends an empty key; the results agree |
| EdgeFunction.PreflightIsInert | supabase/functions/send-whatsapp/index.ts:56-58 | a preflight request writes nothing and carries only the CORS headers |
| GupshupWebhook.OptOut | app/api/webhooks/gupshup/route.ts:29-32 | every customer with the number gets the opt-out stamp, and nobody else changes |
| GupshupWebhook.EventsAreExclusive | app/api/webhooks/gupshup/route.ts:14-24 | no event is both a delivery receipt and an incoming text |
| GupshupWebhook.FailureIff | app/api/webhooks/gupshup/route.ts:9-44 | the handler fails exactly on a non-JSON or null body, or a text event whose text is neither missing, null nor a string; a failure writes nothing |
| GupshupWebhook.DeliveryReceipt | app/api/webhooks/gupshup/route.ts:14-21 | a receipt marks DELIVERED exactly the rows carrying its message id, whatever their status, and nothing else; if the database refuses the update nothing changes and the reply is still a success |
| GupshupWebhook.RefusedUpdateIsSilent | app/api/webhooks/gupshup/route.ts:14-36 | a refused update writes nothing and gives the same reply as an accepted one |
| GupshupWebhook.UnknownReceiptIsNoop | app/api/webhooks/gupshup/route.ts:17-20 | a receipt for a message id no row carries changes nothing |
| GupshupWebhook.StopOptsOut | app/api/webhooks/gupshup/route.ts:24-34 | a text asking to stop opts out every customer with the sender's number, in every workspace, and nobody else; if the database refuses the update nobody is opted out and the reply is still a success |
| GupshupWebhook.OtherMessagesAreIgnored | app/api/webhooks/gupshup/route.ts:23-36 | any other event, or a text without a keyword, is acknowledged with no write |
| GupshupWebhook.ShoutedStop | app/api/webhooks/gupshup/route.ts:25-28 | matching ignores ASCII case: "STOP" opts out |
| GupshupWebhook.SubstringStop | app/api/webhooks/gupshup/route.ts:28 | matching is by substring: "nonstop" opts out |
| GupshupWebhook.RepeatedOptOut | app/api/webhooks/gupshup/route.ts:29-32 | a second STOP replaces the stamp with the later time |
| RazorpayWebhook.EpochSecondsToMs | app/api/webhooks/razorpay/route.ts:50 | a time is produced exactly when the field converts to a number whose milliseconds are within the range a Date can hold |
| RazorpayWebhook.CheckSignature | app/api/webhooks/razorpay/route.ts:10-29 | a request passes only with a configured secret and a signature equal to the HMAC of the raw body |
| RazorpayWebhook.InvalidSignatureIff | app/api/webhooks/razorpay/route.ts:21-29 | 401 exactly when the signature is missing or empty, or differs from the body's digest under a set secret; nothing is written |
| RazorpayWebhook.MissingSecretFails | app/api/webhooks/razorpay/route.ts:10-29 | a signed request with the secret unset fails with 500 before parsing |
| RazorpayWebhook.WritesRequireSignature | app/api/webhooks/razorpay/route.ts:19-81 | any write happens only for a request carrying the body's digest under the configured secret |
| RazorpayWebhook.HandleRazorpay | app/api/webhooks/razorpay/route.ts:19-89 | any non-success reply (401 or 500) leaves subscriptions and invoices untouched |
| RazorpayWebhook.HandleEvent | app/api/webhooks/razorpay/route.ts:31-88 | a 500 writes nothing; the invoice table only ever gains one row at its end |
| RazorpayWebhook.UpdateSubscriptions | app/api/webhooks/razorpay/route.ts:46-52 | the update touches only the workspace's subscriptions; the table keeps its length |
| RazorpayWebhook.HandleEventRoutes | app/api/webhooks/razorpay/route.ts:34-57 | "subscription." events go to the subscription branch, "invoice." events to the invoice branch, and others are acknowledged with no write |
| RazorpayWebhook.OwningWorkspace | app/api/webhooks/razorpay/route.ts:39-45 | the `.single()` lookup yields a workspace exactly when it succeeds and one subscription carries the customer id, and the workspace is that subscription's |
| RazorpayWebhook.SubscriptionEventUpdatesWorkspace | app/api/webhooks/razorpay/route.ts:34-54 | for a customer owned by exactly one subscription, every subscription of that workspace gets the event's status and period end (seconds × 1000), and other workspaces are unchanged; a failed lookup or update changes nothing and still answers success |
| RazorpayWebhook.UnownedCustomerIgnored | app/api/webhooks/razorpay/route.ts:39-67 | a customer id carried by no subscription, or by several (`.single()` then gives no data), is acknowledged with no write |
| RazorpayWebhook.UnknownStatusChangesNothing | app/api/webhooks/razorpay/route.ts:46-52 | a status outside trialing, active, past_due or cancelled makes the whole update fail, period end included |
| RazorpayWebhook.NullPeriodEndIsEpoch | app/api/webhooks/razorpay/route.ts:50 | a null current_end is read as 0, so the period end becomes the epoch |
| RazorpayWebhook.MissingEpochFails | app/api/webhooks/razorpay/route.ts:50-76 | a missing or non-numeric epoch field is NaN and makes toISOString throw |
| RazorpayWebhook.InvoiceEventAppendsRow | app/api/webhooks/razorpay/route.ts:57-79 | an invoice event for an owned customer appends one row with the workspace, invoice id, amount, status, short URL and issue time; a failed lookup or a refused upsert changes nothing and still answers success |
| RazorpayWebhook.InvoiceReplayDuplicates | app/api/webhooks/razorpay/route.ts:68-77 | replaying a recorded invoice event inserts a second row with the same invoice id and amount, unless the replay's lookup or insert fails, which leaves the table as it was |
| RazorpayWebhook.EventFamiliesDisjoint | app/api/webhooks/razorpay/route.ts:34-57 | no event type starts with both "subscription." and "invoice." |
| RazorpayWebhook.OtherEventsIgnored | app/api/webhooks/razorpay/route.ts:81 | an event of any other type is acknowledged with no write |
| Guard.RequireAuth | lib/auth/guard.ts:5-14 | a user is returned exactly when the session has one; otherwise the result is a redirect to "/sign-in" |
| Guard.FindMembership | lib/auth/guard.ts:63-65 | finds a membership exactly when the user belongs to the workspace, and returns the first such row |
| Guard.GrantedIff | lib/auth/guard.ts:16-76 | access is granted exactly when the user is signed in, both lookups succeed, and the active workspace is non-empty and one of the user's memberships |
| Guard.GrantedRole | lib/auth/guard.ts:63-75 | a granted caller acts in the profile's active workspace, with the role of the first membership row for it |
| Guard.GuardOrder | lib/auth/guard.ts:9-52 | checks run in order: sign-in, membership error, no memberships (before the profile is read), then profile error |
| Guard.RoleErrorUnreachable | lib/auth/guard.ts:67-69 | the "Failed to get workspace role" error can never be thrown |
| Orders.ParseIntOfNumeral | actions/orders.ts:75 | parseInt reads a plain numeral back as its number |
| Orders.MissingQuantityIsOne | actions/orders.ts:75 | a missing or empty quantity orders one item |
| Orders.FirstIssue | actions/orders.ts:39-88 | no issue exactly when every schema constraint holds |
| Orders.FirstIssueOrder | actions/orders.ts:39-88 | the reported message is that of the earliest failing field in schema order |
| Orders.OrderNumberShape | actions/orders.ts:133 | an order number is "ORD-" and up to eight digits (exactly eight once the clock reaches 10^7 ms), denoting the clock modulo 10^8 |
| Orders.OrderNumberRepeats | actions/orders.ts:133 | two orders created 10^8 ms (about 27.8 hours) apart get the same number |
| Orders.CreateOrder | actions/orders.ts:54-171 | never completes without a redirect or an error; appends at most one order and at most one customer, and changes no existing row |
| Orders.WritesRequireChecks | actions/orders.ts:59-110 | nothing is written unless the role may create orders, the form is valid, the normalised number validates and the lookup succeeded |
| Orders.CreateOrderRejections | actions/orders.ts:59-94 | the permission, validation and phone rejections, in that order, each with its message and no write |
| Orders.ViewerCannotCreate | actions/orders.ts:59-61 | a viewer is refused whatever the form holds |
| Orders.CreateOrderSucceedsIff | actions/orders.ts:54-171 | the action reaches its final redirect exactly when the caller may create orders, the form and normalised number are valid, the lookup succeeds, a customer is reused or inserted, and the order insert succeeds |
| Orders.CreateOrderSuccess | actions/orders.ts:96-163 | in that case the redirect names the new order, which is RECEIVED, created by the caller in their workspace, numbered from the clock, and belongs to a workspace customer holding the normalised, valid number |
| Orders.CustomerReuse | actions/orders.ts:98-130 | an existing customer is reused, and the order points at it, only when exactly one row matches; with zero or several a new customer is created with the generated id, the workspace, the form's name, the normalised number and the opt-in time, not opted out, and the order points at it |
| Orders.FailedOrderKeepsNewCustomer | actions/orders.ts:112-159 | a failed order insert leaves behind the customer created just before it |
| Orders.UpdateOrderStatus | actions/orders.ts:173-192 | only an order with that id in the caller's workspace can change, and only its status and updated_at; an unsuccessful call writes nothing |
| Orders.UpdateOrderStatusIff | actions/orders.ts:182-187 | the update completes exactly when the caller is granted, the database reports no error and exactly one order matches; an id from another workspace raises PGRST116 untouched |
| Orders.UpdateOrderStatusEffect | actions/orders.ts:177-185 | a completed update sets the new status and time on the matched order |
| Orders.ViewerCanUpdateStatus | actions/orders.ts:173-185 | no role is checked: a viewer's status update goes through |
| Types.ParseSubscriptionStatus | lib/supabase/database.types.ts:368-378 | a status text is accepted exactly when it is the text of one of the four subscription statuses, and maps back to it |

## Left out

- **Network, database and clock.** These are inputs: query, insert, update and lookup failures (the handlers ignore the `{ error }` of updates, as the code does), generated ids and timestamps, the HTTP exchange, and `Date.now()`. Logging (`console.*`) and `revalidatePath` have no observable effect in the model.
- **Serialisation.**
  - `JSON.stringify`, `URLSearchParams` percent-encoding, `JSON.parse` of request bodies, and `toISOString` formatting are not modelled. Times are integers of milliseconds, and a parsed body is an input.
  - `toISOString`'s RangeError is modelled, because the Razorpay handler depends on it.
- **HMAC-SHA256.** The digest is a parameter. So is the timing behaviour of the string comparison.
- **Floating point.**
  - JSON numbers are integers.
  - The price field's `parseFloat(...) * 100` rounding is an input (`OrderForm.pricePaise`).
  - `Number()` of strings is modelled only for empty and plain-digit strings.
  - `Number()` of arrays is treated as NaN, although JavaScript converts `[]` and one-element arrays.
- **parseInt.** Leading white space is modelled as space, tab, CR and LF only. Other Unicode white space is not.
- **`toLowerCase`.** It is modelled for ASCII letters only.
- **Type-to-column coercions.**
  - Non-string values in the invoice's text columns, and non-number amounts, are treated as an insert the database refuses. PostgreSQL would coerce some of them.
  - The subscription status column is treated as accepting only its four declared values. The database's actual constraint is not part of this model.
- **PostgREST join.** The inner join of outbox, customers, templates and workspaces is an input (`Dispatch.Candidate`). The order among rows with equal `created_at` is the join order, which the database leaves unspecified.
- **Module load of the Next.js routes.** The routes call `createClient` with `!`-forced environment variables at load time, and a missing variable fails there, outside any handler. The model covers handlers whose module loaded. The edge function's per-request `createClient` failure is modelled.
- **Concurrency.** Two dispatcher runs at once, and the interleaving of the webhook with the dispatcher, are not modelled. Each call is atomic in the model.
- **Other parts of the repository.** Enqueueing outbox rows on status changes, order events, database triggers and row-level security are not part of the code modelled here. Failures the user's session causes are inputs.
- **Dispatch.SelectBatchSpec:** the batch's order among equal `created_at` values is not pinned down, because the database leaves it unspecified.
- **Provider.MapExchange:** a truthy `message` or a `messageId` that is not a string is carried as its `String(...)` text. The client passes the raw value on, and the database's conversion of it is not modelled. A null `messageId` is treated like a missing one and keeps the stored `provider_message_id`, whereas the update would write null there.
- **RazorpayWebhook.InvoiceReplayDuplicates:** assumes `invoices` has no unique constraint on `razorpay_invoice_id`. The schema's constraints are not part of this model. With such a constraint, the replayed upsert is refused, which is the `writeFails` case, and no row is added.
- **Object key order.** JavaScript enumerates integer-like keys (such as "1") before other keys, in ascending order. `JsValues.ObjectValues` keeps first-occurrence order for every key.
- **EdgeFunction.EdgeServe:** `createClient` is modelled as rejecting only an empty URL or key. Newer 2.x releases of supabase-js also reject a malformed URL, which would give a 500 as well.

/** The Razorpay webhook `POST /api/webhooks/razorpay`
    (app/api/webhooks/razorpay/route.ts): check the HMAC-SHA256 signature of
    the raw body, then apply `subscription.*` events to the subscriptions of
    the workspace that owns the Razorpay customer and record `invoice.*`
    events as invoice rows. */
module RazorpayWebhook {
  import opened Wrappers
  import opened Text
  import opened Types
  import opened JsValues

  /** The hex digest `createHmac('sha256', secret).update(body).digest('hex')`
      as a function of the secret and the body; the hash itself is not
      modelled. */
  type Hmac = (string, string) -> string

  /** The request: the raw body, the `x-razorpay-signature` header, and what
      `JSON.parse` makes of the body (`None` for a SyntaxError). */
  datatype WebhookRequest = WebhookRequest(body: string, signature: Option<string>, parsed: Option<Json>)

  /** `{ error: 'Invalid signature' }` with 401, `{ success: true }` with 200,
      or `{ error: 'Webhook processing failed' }` with 500. */
  datatype RazorpayReply = InvalidSignature | Success | ProcessingFailed

  function HttpStatus(r: RazorpayReply): int {
    match r
    case InvalidSignature => 401
    case Success => 200
    case ProcessingFailed => 500
  }

  /** What the database does for one event: whether the `.single()` owner
      lookup returned an error, whether the write (the subscription update or
      the invoice upsert) was refused, and the id and `created_at` it generates
      for an inserted invoice. supabase-js reports both failures as
      `{ error }`, and the handler reads neither. */
  datatype DbOutcome = DbOutcome(lookupFails: bool, writeFails: bool, newId: Id, now: Timestamp)

  datatype RazorpayRun = RazorpayRun(reply: RazorpayReply, subscriptions: seq<Subscription>, invoices: seq<Invoice>)

  // ---------------------------------------------------------------------------
  // JavaScript conversions the handler relies on
  // ---------------------------------------------------------------------------

  /** `Number(v)` for the values an epoch field can hold; `None` is NaN. A
      string counts only when it is empty or plain decimal digits. */
  function ToNumber(v: Option<Json>): Option<int> {
    if v.None? then None
    else match v.value
      case JNull => Some(0)
      case JBool(b) => Some(if b then 1 else 0)
      case JNumber(n) => Some(n)
      case JString(s) => if s == "" then Some(0) else if AllDigits(s) then Some(DecimalValue(s)) else None
      case JArray(_) => None
      case JObject(_) => None
  }

  /** The largest distance from the epoch a `Date` can hold, in milliseconds
      (ECMA-262, section 21.4.1.1). */
  const MaxTimeMs: int := 8_640_000_000_000_000

  /** `new Date(v * 1000).toISOString()` as the instant it denotes, or `None`
      when `toISOString` throws a RangeError (NaN or out of range). */
  function EpochSecondsToMs(v: Option<Json>): (r: Option<Timestamp>)
    ensures r.Some? ==> -MaxTimeMs <= r.value <= MaxTimeMs
    ensures r.Some? <==> ToNumber(v).Some? && -MaxTimeMs <= ToNumber(v).value * 1000 <= MaxTimeMs
  {
    var n := ToNumber(v);
    if n.None? then None
    else
      var ms := n.value * 1000;
      if -MaxTimeMs <= ms <= MaxTimeMs then Some(ms) else None
  }

  // ---------------------------------------------------------------------------
  // The signature gate
  // ---------------------------------------------------------------------------

  /** The outcome of the gate: pass, reject with 401, or throw (a missing
      secret makes `createHmac` throw, and the handler answers 500). */
  datatype Gate = Pass | Reject | Throw

  function CheckSignature(req: WebhookRequest, secret: Option<string>, hmac: Hmac): (g: Gate)
    ensures g == Pass ==> secret.Some? && req.signature == Some(hmac(secret.value, req.body))
  {
    if req.signature.None? || req.signature.value == "" then Reject
    else if secret.None? then Throw
    else if req.signature.value == hmac(secret.value, req.body) then Pass
    else Reject
  }

  // ---------------------------------------------------------------------------
  // Event handling
  // ---------------------------------------------------------------------------

  /** `event.payload.<kind>.entity`, or `None` when one of the steps reads a
      property of `undefined` or `null` (a TypeError). */
  function Entity(event: Json, kind: string): Option<Json> {
    var payload := Get(event, "payload");
    if payload.None? || payload.value.JNull? then None
    else
      var holder := Get(payload.value, kind);
      if holder.None? || holder.value.JNull? then None
      else
        var entity := Get(holder.value, "entity");
        if entity.None? || entity.value.JNull? then None else entity
  }

  /** The subscriptions whose Razorpay customer id is `cid`. */
  function WithCustomer(subscriptions: seq<Subscription>, cid: string): (r: seq<Subscription>)
    ensures forall s :: s in r <==> s in subscriptions && s.razorpayCustomerId == Some(cid)
    decreases |subscriptions|
  {
    if |subscriptions| == 0 then []
    else
      var rest := WithCustomer(subscriptions[1..], cid);
      assert forall s :: s in subscriptions <==> s == subscriptions[0] || s in subscriptions[1..];
      if subscriptions[0].razorpayCustomerId == Some(cid) then [subscriptions[0]] + rest else rest
  }

  /** `select('workspace_id').eq('razorpay_customer_id', cid).single()`: the
      workspace when the lookup succeeds and exactly one subscription matches,
      and no data otherwise. */
  function OwningWorkspace(subscriptions: seq<Subscription>, cid: string, lookupFails: bool): (r: Option<Id>)
    ensures r.Some? <==> !lookupFails && |WithCustomer(subscriptions, cid)| == 1
    ensures r.Some? ==> exists s :: s in subscriptions && s.razorpayCustomerId == Some(cid) && s.workspaceId == r.value
  {
    var m := WithCustomer(subscriptions, cid);
    if !lookupFails && |m| == 1 then
      assert m[0] in m;
      Some(m[0].workspaceId)
    else None
  }

  /** `update({ status, current_period_end }).eq('workspace_id', ws)`. A
      missing status is left out of the patch; a status outside the column's
      four values (or null) makes the whole update fail, and the failure is
      ignored. */
  function UpdateSubscriptions(subscriptions: seq<Subscription>, ws: Id, status: Option<Json>,
                               periodEnd: Timestamp): (r: seq<Subscription>)
    ensures |r| == |subscriptions|
    ensures forall i :: 0 <= i < |subscriptions| && subscriptions[i].workspaceId != ws ==> r[i] == subscriptions[i]
  {
    var parsed := if status.Some? && status.value.JString? then ParseSubscriptionStatus(status.value.s) else None;
    if status.Some? && parsed.None? then subscriptions
    else
      seq(|subscriptions|, i requires 0 <= i < |subscriptions| =>
        if subscriptions[i].workspaceId != ws then subscriptions[i]
        else subscriptions[i].(status := if parsed.Some? then parsed.value else subscriptions[i].status,
                               currentPeriodEnd := Some(periodEnd)))
  }

  /** A text column written from a JSON field: a string is stored, null or a
      missing field stores null, anything else is refused. */
  function TextColumn(v: Option<Json>): Option<Option<string>> {
    if v.None? || v.value.JNull? then Some(None)
    else if v.value.JString? then Some(Some(v.value.s))
    else None
  }

  /** The row `upsert` writes for an invoice entity, or `None` when the
      database refuses it (a non-numeric amount or a non-text text column). */
  function InvoiceRow(entity: Json, ws: Id, issuedAt: Timestamp, db: DbOutcome): (r: Option<Invoice>)
    ensures r.Some? ==> r.value.workspaceId == ws && r.value.issuedAt == Some(issuedAt)
    ensures r.Some? ==> Some(r.value.razorpayInvoiceId) == TextColumn(Get(entity, "id"))
    ensures r.Some? ==> Get(entity, "amount") == Some(JNumber(r.value.amountPaise))
  {
    var id := TextColumn(Get(entity, "id"));
    var amount := Get(entity, "amount");
    var status := TextColumn(Get(entity, "status"));
    var url := TextColumn(Get(entity, "short_url"));
    if id.None? || amount.None? || !amount.value.JNumber? || status.None? || url.None? then None
    else Some(Invoice(db.newId, ws, id.value, amount.value.n, status.value, url.value, Some(issuedAt), db.now))
  }

  predicate IsSubscriptionEvent(kind: string) { StartsWith(kind, "subscription.") }
  predicate IsInvoiceEvent(kind: string) { StartsWith(kind, "invoice.") }

  /** A `subscription.*` event whose entity was read. */
  function SubscriptionEvent(entity: Json, subscriptions: seq<Subscription>, invoices: seq<Invoice>,
                             db: DbOutcome): (r: RazorpayRun)
    ensures r.invoices == invoices
  {
    match OwningWorkspace(subscriptions, FilterText(Get(entity, "customer_id")), db.lookupFails)
    case None => RazorpayRun(Success, subscriptions, invoices)
    case Some(ws) =>
      var end := EpochSecondsToMs(Get(entity, "current_end"));
      if end.None? then RazorpayRun(ProcessingFailed, subscriptions, invoices)
      else if db.writeFails then RazorpayRun(Success, subscriptions, invoices)
      else RazorpayRun(Success, UpdateSubscriptions(subscriptions, ws, Get(entity, "status"), end.value), invoices)
  }

  /** An `invoice.*` event whose entity was read. */
  function InvoiceEvent(entity: Json, subscriptions: seq<Subscription>, invoices: seq<Invoice>,
                        db: DbOutcome): (r: RazorpayRun)
    ensures r.subscriptions == subscriptions
    ensures r.invoices == invoices || (|r.invoices| == |invoices| + 1 && r.invoices[..|invoices|] == invoices)
  {
    match OwningWorkspace(subscriptions, FilterText(Get(entity, "customer_id")), db.lookupFails)
    case None => RazorpayRun(Success, subscriptions, invoices)
    case Some(ws) =>
      var issued := EpochSecondsToMs(Get(entity, "issued_at"));
      if issued.None? then RazorpayRun(ProcessingFailed, subscriptions, invoices)
      else
        var row := InvoiceRow(entity, ws, issued.value, db);
        if row.None? || db.writeFails then RazorpayRun(Success, subscriptions, invoices)
        else
          assert (invoices + [row.value])[..|invoices|] == invoices;
          RazorpayRun(Success, subscriptions, invoices + [row.value])
  }

  /** The event type, when `event.event` is a string. */
  function EventKind(event: Json): Option<string> {
    var kind := Get(event, "event");
    if kind.Some? && kind.value.JString? then Some(kind.value.s) else None
  }

  /** The verified part of the handler, from `JSON.parse` on. A body that is
      not JSON, is null, or has no string `event` fails with 500, as does an
      event whose `payload.<kind>.entity` path meets undefined or null. */
  function HandleEvent(parsed: Option<Json>, subscriptions: seq<Subscription>, invoices: seq<Invoice>,
                       db: DbOutcome): (r: RazorpayRun)
    ensures r.reply != InvalidSignature
    ensures r.reply == ProcessingFailed ==> r.subscriptions == subscriptions && r.invoices == invoices
    ensures r.invoices == invoices || (|r.invoices| == |invoices| + 1 && r.invoices[..|invoices|] == invoices)
  {
    var failed := RazorpayRun(ProcessingFailed, subscriptions, invoices);
    if parsed.None? || parsed.value.JNull? || EventKind(parsed.value).None? then failed
    else
      var event := parsed.value;
      var kind := EventKind(event).value;
      if IsSubscriptionEvent(kind) then
        var entity := Entity(event, "subscription");
        if entity.None? then failed else SubscriptionEvent(entity.value, subscriptions, invoices, db)
      else if IsInvoiceEvent(kind) then
        var entity := Entity(event, "invoice");
        if entity.None? then failed else InvoiceEvent(entity.value, subscriptions, invoices, db)
      else RazorpayRun(Success, subscriptions, invoices)
  }

  /** `POST`. */
  function HandleRazorpay(req: WebhookRequest, secret: Option<string>, hmac: Hmac,
                          subscriptions: seq<Subscription>, invoices: seq<Invoice>,
                          db: DbOutcome): (r: RazorpayRun)
    ensures r.reply != Success ==> r.subscriptions == subscriptions && r.invoices == invoices
  {
    match CheckSignature(req, secret, hmac)
    case Reject => RazorpayRun(InvalidSignature, subscriptions, invoices)
    case Throw => RazorpayRun(ProcessingFailed, subscriptions, invoices)
    case Pass => HandleEvent(req.parsed, subscriptions, invoices, db)
  }

  // ---------------------------------------------------------------------------
  // Properties
  // ---------------------------------------------------------------------------

  /** The request is refused with 401 exactly when the signature header is
      missing or empty, or the secret is set and the header differs from the
      digest of the body; then nothing is written. */
  lemma InvalidSignatureIff(req: WebhookRequest, secret: Option<string>, hmac: Hmac,
                            subscriptions: seq<Subscription>, invoices: seq<Invoice>, db: DbOutcome)
    ensures var r := HandleRazorpay(req, secret, hmac, subscriptions, invoices, db);
      && (r.reply == InvalidSignature <==>
            || req.signature.None? || req.signature.value == ""
            || (secret.Some? && req.signature.value != hmac(secret.value, req.body)))
      && (r.reply == InvalidSignature ==> r.subscriptions == subscriptions && r.invoices == invoices)
  {
  }

  /** A signed request with the secret unset fails with 500 before the body
      is parsed. */
  lemma MissingSecretFails(req: WebhookRequest, hmac: Hmac, subscriptions: seq<Subscription>,
                           invoices: seq<Invoice>, db: DbOutcome)
    requires req.signature.Some? && req.signature.value != ""
    ensures HandleRazorpay(req, None, hmac, subscriptions, invoices, db)
      == RazorpayRun(ProcessingFailed, subscriptions, invoices)
  {
  }

  /** Every write is gated: anything the handler writes was sent with the
      digest of its body under the configured secret. */
  lemma WritesRequireSignature(req: WebhookRequest, secret: Option<string>, hmac: Hmac,
                               subscriptions: seq<Subscription>, invoices: seq<Invoice>, db: DbOutcome)
    ensures var r := HandleRazorpay(req, secret, hmac, subscriptions, invoices, db);
      (r.subscriptions != subscriptions || r.invoices != invoices) ==>
        secret.Some? && req.signature == Some(hmac(secret.value, req.body))
  {
  }

  /** A subscription event for a customer owned by exactly one subscription
      sets the status and the period end on every subscription of that
      workspace and leaves other workspaces alone. When the lookup or the
      update fails nothing changes, and the reply is a success all the same. */
  lemma SubscriptionEventUpdatesWorkspace(entity: Json, cid: string, owner: Subscription,
                                          status: SubscriptionStatus, endSeconds: int,
                                          subscriptions: seq<Subscription>, invoices: seq<Invoice>, db: DbOutcome)
    requires Get(entity, "customer_id") == Some(JString(cid))
    requires WithCustomer(subscriptions, cid) == [owner]
    requires Get(entity, "status") == Some(JString(SubscriptionStatusText(status)))
    requires Get(entity, "current_end") == Some(JNumber(endSeconds))
    requires -MaxTimeMs <= endSeconds * 1000 <= MaxTimeMs
    ensures db.lookupFails || db.writeFails ==>
      SubscriptionEvent(entity, subscriptions, invoices, db) == RazorpayRun(Success, subscriptions, invoices)
    ensures var r := SubscriptionEvent(entity, subscriptions, invoices, db);
      !db.lookupFails && !db.writeFails ==>
      && r.reply == Success && r.invoices == invoices && |r.subscriptions| == |subscriptions|
      && (forall i :: 0 <= i < |subscriptions| && subscriptions[i].workspaceId == owner.workspaceId ==>
            r.subscriptions[i] == subscriptions[i].(status := status, currentPeriodEnd := Some(endSeconds * 1000)))
      && (forall i :: 0 <= i < |subscriptions| && subscriptions[i].workspaceId != owner.workspaceId ==>
            r.subscriptions[i] == subscriptions[i])
  {
    var t := SubscriptionStatusText(status);
    assert ParseSubscriptionStatus(t) == Some(status) by {
      match status
      case Trialing =>
      case Active =>
      case PastDue =>
      case Cancelled =>
    }
    assert FilterText(Get(entity, "customer_id")) == cid;
    assert db.lookupFails || OwningWorkspace(subscriptions, cid, db.lookupFails) == Some(owner.workspaceId);
    assert EpochSecondsToMs(Get(entity, "current_end")) == Some(endSeconds * 1000);
  }

  /** Which branch a verified, parsed event takes. */
  lemma HandleEventRoutes(event: Json, kind: string, subscriptions: seq<Subscription>, invoices: seq<Invoice>,
                          db: DbOutcome)
    requires event != JNull && EventKind(event) == Some(kind)
    ensures var r := HandleEvent(Some(event), subscriptions, invoices, db);
      && (IsSubscriptionEvent(kind) && Entity(event, "subscription").Some? ==>
            r == SubscriptionEvent(Entity(event, "subscription").value, subscriptions, invoices, db))
      && (IsInvoiceEvent(kind) && Entity(event, "invoice").Some? ==>
            r == InvoiceEvent(Entity(event, "invoice").value, subscriptions, invoices, db))
      && (!IsSubscriptionEvent(kind) && !IsInvoiceEvent(kind) ==> r == RazorpayRun(Success, subscriptions, invoices))
  {
    EventFamiliesDisjoint(kind);
  }

  /** A customer id that no subscription carries, or that two or more carry,
      is acknowledged without any write. */
  lemma UnownedCustomerIgnored(entity: Json, cid: string, subscriptions: seq<Subscription>,
                               invoices: seq<Invoice>, db: DbOutcome)
    requires Get(entity, "customer_id") == Some(JString(cid))
    requires |WithCustomer(subscriptions, cid)| != 1
    ensures SubscriptionEvent(entity, subscriptions, invoices, db) == RazorpayRun(Success, subscriptions, invoices)
    ensures InvoiceEvent(entity, subscriptions, invoices, db) == RazorpayRun(Success, subscriptions, invoices)
  {
    assert FilterText(Get(entity, "customer_id")) == cid;
  }

  /** A status outside the column's values makes the whole subscription update
      fail, period end included. */
  lemma UnknownStatusChangesNothing(subscriptions: seq<Subscription>, ws: Id, t: string, periodEnd: Timestamp)
    requires ParseSubscriptionStatus(t).None?
    ensures UpdateSubscriptions(subscriptions, ws, Some(JString(t)), periodEnd) == subscriptions
  {
  }

  /** A null `current_end` is read as 0, so the period end becomes the epoch. */
  lemma NullPeriodEndIsEpoch(v: Option<Json>)
    requires v == Some(JNull)
    ensures EpochSecondsToMs(v) == Some(0)
  {
  }

  /** A missing or non-numeric `current_end` / `issued_at` is NaN and fails
      the request with 500. */
  lemma MissingEpochFails(v: Option<Json>)
    requires v.None? || (v.Some? && (v.value.JObject? || v.value.JArray?))
    ensures EpochSecondsToMs(v).None?
  {
  }

  /** An invoice event for an owned customer appends one row carrying the
      workspace, the invoice id, the amount in paise, the status, the short
      URL as PDF link and the issue time; an existing row with the same
      invoice id is not updated. When the lookup or the upsert fails nothing
      changes, and the reply is a success all the same. */
  lemma InvoiceEventAppendsRow(entity: Json, cid: string, owner: Subscription,
                               invoiceId: string, amount: int, issuedSeconds: int,
                               subscriptions: seq<Subscription>, invoices: seq<Invoice>, db: DbOutcome)
    requires Get(entity, "customer_id") == Some(JString(cid))
    requires WithCustomer(subscriptions, cid) == [owner]
    requires Get(entity, "id") == Some(JString(invoiceId))
    requires Get(entity, "amount") == Some(JNumber(amount))
    requires TextColumn(Get(entity, "status")).Some? && TextColumn(Get(entity, "short_url")).Some?
    requires Get(entity, "issued_at") == Some(JNumber(issuedSeconds))
    requires -MaxTimeMs <= issuedSeconds * 1000 <= MaxTimeMs
    ensures db.lookupFails || db.writeFails ==>
      InvoiceEvent(entity, subscriptions, invoices, db) == RazorpayRun(Success, subscriptions, invoices)
    ensures var r := InvoiceEvent(entity, subscriptions, invoices, db);
      !db.lookupFails && !db.writeFails ==>
      && r.reply == Success && r.subscriptions == subscriptions
      && |r.invoices| == |invoices| + 1 && r.invoices[..|invoices|] == invoices
      && var row := r.invoices[|invoices|];
      && row.workspaceId == owner.workspaceId
      && row.razorpayInvoiceId == Some(invoiceId)
      && row.amountPaise == amount
      && row.status == TextColumn(Get(entity, "status")).value
      && row.pdfUrl == TextColumn(Get(entity, "short_url")).value
      && row.issuedAt == Some(issuedSeconds * 1000)
  {
    assert FilterText(Get(entity, "customer_id")) == cid;
    assert db.lookupFails || OwningWorkspace(subscriptions, cid, db.lookupFails) == Some(owner.workspaceId);
    assert EpochSecondsToMs(Get(entity, "issued_at")) == Some(issuedSeconds * 1000);
  }

  /** Replaying an invoice event records the invoice a second time, unless
      the replay's lookup or insert fails. */
  lemma InvoiceReplayDuplicates(entity: Json, subscriptions: seq<Subscription>, invoices: seq<Invoice>,
                                first: DbOutcome, second: DbOutcome)
    requires InvoiceEvent(entity, subscriptions, invoices, first).invoices != invoices
    ensures var once := InvoiceEvent(entity, subscriptions, invoices, first).invoices;
      (second.lookupFails || second.writeFails) ==> InvoiceEvent(entity, subscriptions, once, second).invoices == once
    ensures var once := InvoiceEvent(entity, subscriptions, invoices, first).invoices;
      var twice := InvoiceEvent(entity, subscriptions, once, second).invoices;
      !second.lookupFails && !second.writeFails ==>
      && |twice| == |invoices| + 2
      && twice[|invoices|].razorpayInvoiceId == twice[|invoices| + 1].razorpayInvoiceId
      && twice[|invoices|].amountPaise == twice[|invoices| + 1].amountPaise
  {
  }

  /** The two event families are disjoint: one event never both updates a
      subscription and records an invoice. */
  lemma EventFamiliesDisjoint(kind: string)
    ensures !(IsSubscriptionEvent(kind) && IsInvoiceEvent(kind))
  {
    if IsSubscriptionEvent(kind) {
      assert kind[..13] == "subscription.";
      assert kind[0] == kind[..13][0] == 's';
      assert |kind| >= 8 ==> kind[..8][0] == 's';
    }
  }

  /** Any other event type is acknowledged and ignored. */
  lemma OtherEventsIgnored(event: Json, kind: string, subscriptions: seq<Subscription>, invoices: seq<Invoice>,
                           db: DbOutcome)
    requires EventKind(event) == Some(kind)
    requires !IsSubscriptionEvent(kind) && !IsInvoiceEvent(kind)
    ensures HandleEvent(Some(event), subscriptions, invoices, db) == RazorpayRun(Success, subscriptions, invoices)
  {
  }
}

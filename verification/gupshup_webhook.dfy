/** The Gupshup webhook `POST /api/webhooks/gupshup`
    (app/api/webhooks/gupshup/route.ts): a delivery receipt marks the outbox
    rows carrying the provider's message id DELIVERED; an incoming text
    containing "stop" or "unsubscribe" stamps `opted_out_at` on every
    customer with the sender's number. */
module GupshupWebhook {
  import opened Wrappers
  import opened Text
  import opened Types
  import opened JsValues
  import opened Outbox

  /** `{ success: true }` with status 200, or
      `{ error: 'Webhook processing failed' }` with status 500. */
  datatype WebhookReply = Success | WebhookFailed

  datatype WebhookRun = WebhookRun(reply: WebhookReply, outbox: seq<OutboxMessage>, customers: seq<Customer>)

  function HttpStatus(r: WebhookReply): int {
    if r.WebhookFailed? then 500 else 200
  }

  /** `body.payload?.type`: `undefined` when the payload is missing or null. */
  function PayloadType(body: Json): Option<Json> {
    var payload := Get(body, "payload");
    if payload.None? || payload.value.JNull? then None else Get(payload.value, "type")
  }

  predicate IsDeliveryReceipt(body: Json) {
    Get(body, "type") == Some(JString("message-event")) && PayloadType(body) == Some(JString("delivered"))
  }

  predicate IsIncomingText(body: Json) {
    Get(body, "type") == Some(JString("message")) && PayloadType(body) == Some(JString("text"))
  }

  /** The opt-out keywords, matched anywhere in the lower-cased text. */
  predicate AsksToStop(text: string) {
    var m := LowerAscii(text);
    Contains(m, "stop") || Contains(m, "unsubscribe")
  }

  /** `update({ opted_out_at: now }).eq('whatsapp_number', number)` on the
      customers table, across every workspace. */
  function OptOut(customers: seq<Customer>, number: string, now: Timestamp): (r: seq<Customer>)
    ensures |r| == |customers|
    ensures forall i :: 0 <= i < |customers| ==>
      r[i] == if customers[i].whatsappNumber == number then customers[i].(optedOutAt := Some(now)) else customers[i]
  {
    seq(|customers|, i requires 0 <= i < |customers| =>
      if customers[i].whatsappNumber == number then customers[i].(optedOutAt := Some(now)) else customers[i])
  }

  /** `POST`; `body` is `None` when the request body is not JSON, `now` is
      the clock reading for the opt-out stamp, and `updateFails` says whether
      the database refused the handler's update. supabase-js reports that as
      `{ error }`, which the handler ignores: the reply is still a success. */
  function HandleWebhook(body: Option<Json>, now: Timestamp, updateFails: bool, outbox: seq<OutboxMessage>,
                         customers: seq<Customer>): (r: WebhookRun)
  {
    if body.None? || body.value.JNull? then WebhookRun(WebhookFailed, outbox, customers)
    else
      var b := body.value;
      var outbox' :=
        if IsDeliveryReceipt(b) && !updateFails then
          UpdateByProviderId(outbox, FilterText(Get(Get(b, "payload").value, "id")), MarkDelivered)
        else outbox;
      if IsIncomingText(b) then
        var payload := Get(b, "payload").value;
        var text := Get(payload, "text");
        var source := FilterText(Get(payload, "source"));
        if text.None? || text.value.JNull? then WebhookRun(Success, outbox', customers)
        else if !text.value.JString? then WebhookRun(WebhookFailed, outbox', customers)
        else if AsksToStop(text.value.s) then
          WebhookRun(Success, outbox', if updateFails then customers else OptOut(customers, source, now))
        else WebhookRun(Success, outbox', customers)
      else WebhookRun(Success, outbox', customers)
  }

  /** A delivery receipt and an incoming text are never the same event. */
  lemma EventsAreExclusive(body: Json)
    ensures !(IsDeliveryReceipt(body) && IsIncomingText(body))
  {
  }

  /** The handler fails exactly when the body is not a JSON value other than
      null, or when an incoming text's `text` is present, not null and not a
      string (`toLowerCase` is not a function); a failure writes nothing. */
  lemma FailureIff(body: Option<Json>, now: Timestamp, updateFails: bool, outbox: seq<OutboxMessage>, customers: seq<Customer>)
    ensures var r := HandleWebhook(body, now, updateFails, outbox, customers);
      && (r.reply.WebhookFailed? <==>
            || body.None? || body.value.JNull?
            || (IsIncomingText(body.value)
                && var t := Get(Get(body.value, "payload").value, "text");
                   t.Some? && !t.value.JNull? && !t.value.JString?))
      && (r.reply.WebhookFailed? ==> r.outbox == outbox && r.customers == customers)
  {
    if body.Some? && !body.value.JNull? {
      EventsAreExclusive(body.value);
    }
  }

  /** A refused update is invisible to the caller: the reply is the one the
      applied update would have given, and nothing is written. */
  lemma RefusedUpdateIsSilent(body: Option<Json>, now: Timestamp, outbox: seq<OutboxMessage>, customers: seq<Customer>)
    ensures var refused := HandleWebhook(body, now, true, outbox, customers);
      && refused.reply == HandleWebhook(body, now, false, outbox, customers).reply
      && refused.outbox == outbox && refused.customers == customers
  {
  }

  /** A delivery receipt sets DELIVERED on exactly the rows carrying the
      receipt's message id — whatever status they had — and touches nothing
      else; when the database refuses the update nothing changes, and the
      reply is a success all the same. */
  lemma DeliveryReceipt(body: Json, pid: string, now: Timestamp, updateFails: bool, outbox: seq<OutboxMessage>, customers: seq<Customer>)
    requires IsDeliveryReceipt(body)
    requires Get(Get(body, "payload").value, "id") == Some(JString(pid))
    ensures updateFails ==> HandleWebhook(Some(body), now, updateFails, outbox, customers) == WebhookRun(Success, outbox, customers)
    ensures var r := HandleWebhook(Some(body), now, updateFails, outbox, customers);
      !updateFails ==>
      && r.reply == Success && r.customers == customers && |r.outbox| == |outbox|
      && (forall i :: 0 <= i < |outbox| && outbox[i].providerMessageId == Some(pid) ==>
            r.outbox[i] == outbox[i].(status := MessageStatus.Delivered))
      && (forall i :: 0 <= i < |outbox| && outbox[i].providerMessageId != Some(pid) ==>
            r.outbox[i] == outbox[i])
  {
    EventsAreExclusive(body);
  }

  /** A receipt for a message id no outbox row carries changes nothing. */
  lemma UnknownReceiptIsNoop(body: Json, pid: string, now: Timestamp, updateFails: bool, outbox: seq<OutboxMessage>, customers: seq<Customer>)
    requires IsDeliveryReceipt(body)
    requires Get(Get(body, "payload").value, "id") == Some(JString(pid))
    requires forall i :: 0 <= i < |outbox| ==> outbox[i].providerMessageId != Some(pid)
    ensures HandleWebhook(Some(body), now, updateFails, outbox, customers) == WebhookRun(Success, outbox, customers)
  {
    DeliveryReceipt(body, pid, now, updateFails, outbox, customers);
  }

  /** An incoming text asking to stop opts out every customer with the
      sender's number, in every workspace, and nobody else; when the database
      refuses the update nobody is opted out, and the reply is a success all
      the same. */
  lemma StopOptsOut(body: Json, text: string, number: string, now: Timestamp, updateFails: bool,
                    outbox: seq<OutboxMessage>, customers: seq<Customer>)
    requires IsIncomingText(body)
    requires Get(Get(body, "payload").value, "text") == Some(JString(text))
    requires Get(Get(body, "payload").value, "source") == Some(JString(number))
    requires AsksToStop(text)
    ensures updateFails ==> HandleWebhook(Some(body), now, updateFails, outbox, customers) == WebhookRun(Success, outbox, customers)
    ensures var r := HandleWebhook(Some(body), now, updateFails, outbox, customers);
      !updateFails ==>
      && r.reply == Success && r.outbox == outbox && |r.customers| == |customers|
      && (forall i :: 0 <= i < |customers| && customers[i].whatsappNumber == number ==>
            r.customers[i].optedOutAt == Some(now) && r.customers[i].workspaceId == customers[i].workspaceId)
      && (forall i :: 0 <= i < |customers| && customers[i].whatsappNumber != number ==>
            r.customers[i] == customers[i])
  {
    EventsAreExclusive(body);
  }

  /** An incoming text without an opt-out keyword, and any event that is
      neither kind, writes nothing. */
  lemma OtherMessagesAreIgnored(body: Json, now: Timestamp, updateFails: bool, outbox: seq<OutboxMessage>, customers: seq<Customer>)
    requires body != JNull && !IsDeliveryReceipt(body)
    requires IsIncomingText(body) ==>
      var t := Get(Get(body, "payload").value, "text");
      t.None? || t.value.JNull? || (t.value.JString? && !AsksToStop(t.value.s))
    ensures HandleWebhook(Some(body), now, updateFails, outbox, customers) == WebhookRun(Success, outbox, customers)
  {
  }

  /** Matching ignores ASCII case: "STOP" opts out. */
  lemma ShoutedStop(text: string)
    requires text == "STOP"
    ensures AsksToStop(text)
  {
    var m := LowerAscii(text);
    assert m == "stop";
    assert OccursAt(m, "stop", 0);
    ContainsIff(m, "stop");
  }

  /** Matching is by substring, so any word containing "stop" opts out. */
  lemma SubstringStop(text: string)
    requires text == "nonstop"
    ensures AsksToStop(text)
  {
    var m := LowerAscii(text);
    assert m == "nonstop";
    assert OccursAt(m, "stop", 3);
    ContainsIff(m, "stop");
  }

  /** A second STOP from the same number re-stamps the opt-out with the later
      time: the stamp records the latest request, not the first. */
  lemma RepeatedOptOut(customers: seq<Customer>, number: string, first: Timestamp, second: Timestamp)
    ensures OptOut(OptOut(customers, number, first), number, second) == OptOut(customers, number, second)
  {
  }
}

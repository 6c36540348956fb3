/** The rows and enumerations of the OrderPing database, as declared in
    lib/supabase/database.types.ts. Only the columns the modelled operations
    read or write are kept in full; every row is an immutable value and every
    table is a sequence of rows in storage order. */
module Types {
  import opened Wrappers

  /** Row identifiers (UUIDs in the database). */
  type Id = string

  /** A point in time in milliseconds since the Unix epoch. The database stores
      ISO-8601 text produced by `Date.prototype.toISOString`; that formatting is
      order-preserving and is not modelled. */
  type Timestamp = int

  // ---------------------------------------------------------------------------
  // Enumerations (database.types.ts, `Enums` and the inline unions)
  // ---------------------------------------------------------------------------

  datatype OrderStatus = Received | Packed | Shipped | Delivered | Cancelled

  datatype MessageStatus = Queued | Sent | Delivered | Failed

  datatype TemplateCode = OrderReceived | StatusUpdate | DeliveredThanks

  datatype ReminderType = OverdueStatus | FeedbackAfterDelivery

  datatype Role = Owner | Admin | Editor | Viewer

  datatype SubscriptionStatus = Trialing | Active | PastDue | Cancelled

  /** The text the database stores for a subscription status. */
  function SubscriptionStatusText(s: SubscriptionStatus): string {
    match s
    case Trialing => "trialing"
    case Active => "active"
    case PastDue => "past_due"
    case Cancelled => "cancelled"
  }

  /** What the database's enumerated column accepts: exactly the four texts
      above; any other text makes the write fail. */
  function ParseSubscriptionStatus(t: string): (r: Option<SubscriptionStatus>)
    ensures r.Some? ==> SubscriptionStatusText(r.value) == t
    ensures r.None? ==> forall s: SubscriptionStatus :: SubscriptionStatusText(s) != t
  {
    if t == "trialing" then Some(Trialing)
    else if t == "active" then Some(Active)
    else if t == "past_due" then Some(PastDue)
    else if t == "cancelled" then Some(SubscriptionStatus.Cancelled)
    else None
  }

  // ---------------------------------------------------------------------------
  // JSON values (the `Json` type of database.types.ts)
  // ---------------------------------------------------------------------------

  /** A JSON value. Numbers are restricted to integers; object entries are kept
      in the order JavaScript enumerates them. */
  datatype Json =
    | JNull
    | JBool(b: bool)
    | JNumber(n: int)
    | JString(s: string)
    | JArray(items: seq<Json>)
    | JObject(entries: seq<(string, Json)>)

  // ---------------------------------------------------------------------------
  // Rows
  // ---------------------------------------------------------------------------

  /** A `customers` row. A customer is identified by (workspace, number). */
  datatype Customer = Customer(
    id: Id,
    workspaceId: Id,
    name: string,
    whatsappNumber: string,
    lastOptinAt: Option<Timestamp>,
    optedOutAt: Option<Timestamp>,
    lastMessageAt: Option<Timestamp>,
    createdAt: Timestamp)

  /** An `orders` row. */
  datatype Order = Order(
    id: Id,
    workspaceId: Id,
    customerId: Id,
    orderNumber: string,
    productTitle: string,
    productSku: Option<string>,
    quantity: int,
    pricePaise: int,
    shippingName: Option<string>,
    shippingAddress: Option<string>,
    pincode: Option<string>,
    city: Option<string>,
    state: Option<string>,
    expectedDeliveryDate: Option<string>,
    status: OrderStatus,
    createdBy: Option<Id>,
    createdAt: Timestamp,
    updatedAt: Timestamp)

  /** A `message_outbox` row: one attempted customer notification. */
  datatype OutboxMessage = OutboxMessage(
    id: Id,
    workspaceId: Id,
    orderId: Option<Id>,
    customerId: Option<Id>,
    templateCode: TemplateCode,
    payload: Json,
    destination: Option<string>,
    providerMessageId: Option<string>,
    status: MessageStatus,
    errorCode: Option<string>,
    attempts: int,
    lastAttemptAt: Option<Timestamp>,
    createdAt: Timestamp)

  /** A `subscriptions` row: the billing state of one workspace. */
  datatype Subscription = Subscription(
    id: Id,
    workspaceId: Id,
    plan: string,
    status: SubscriptionStatus,
    currentPeriodEnd: Option<Timestamp>,
    razorpayCustomerId: Option<string>,
    razorpaySubscriptionId: Option<string>,
    createdAt: Timestamp)

  /** An `invoices` row. */
  datatype Invoice = Invoice(
    id: Id,
    workspaceId: Id,
    razorpayInvoiceId: Option<string>,
    amountPaise: int,
    status: Option<string>,
    pdfUrl: Option<string>,
    issuedAt: Option<Timestamp>,
    createdAt: Timestamp)

  /** The `workspace_id, role` projection of a `workspace_members` row. */
  datatype Membership = Membership(workspaceId: Id, role: Role)

  /** The `active_workspace_id` projection of a `profiles` row. */
  datatype Profile = Profile(activeWorkspaceId: Option<Id>)
}

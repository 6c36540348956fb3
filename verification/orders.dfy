/** The order server actions (actions/orders.ts): `createOrder` checks the
    caller's role, reads and validates the form, normalises the WhatsApp
    number, finds or creates the customer and inserts the order;
    `updateOrderStatus` changes one order's status in the caller's
    workspace. */
module Orders {
  import opened Wrappers
  import opened Text
  import opened Types
  import opened Phone
  import opened Guard

  // ---------------------------------------------------------------------------
  // Outcomes and the outside world
  // ---------------------------------------------------------------------------

  /** How a server action ends: normally, with a redirect (`redirect` throws
      a special Error the action's `catch` rethrows), or with an Error. */
  datatype Outcome = Completed | Redirected(path: string) | Thrown(message: string)

  /** The tables an action can write and how it ended. */
  datatype ActionRun = ActionRun(outcome: Outcome, customers: seq<Customer>, orders: seq<Order>)

  const PermissionError := "You do not have permission to create orders"
  const NameRequired := "Customer name is required"
  const NumberRequired := "WhatsApp number is required"
  const TitleRequired := "Product title is required"
  const QuantityNotNumber := "Expected number, received nan"
  const QuantityTooSmall := "Quantity must be at least 1"
  const PriceNegative := "Price must be non-negative"
  const InvalidNumber := "Invalid WhatsApp number format"
  const LookupError := "Failed to check existing customer"
  const CustomerInsertError := "Failed to create customer"
  const OrderInsertError := "Failed to create order"

  /** The PostgREST error `.single()` reports when the statement did not
      return exactly one row (code PGRST116). */
  const SingleRowError := "JSON object requested, multiple (or no) rows returned"

  /** What the database and the clock contribute to one `createOrder` call:
      whether the customer lookup fails with an error other than PGRST116,
      whether each insert fails, the ids and timestamps the database assigns,
      `new Date()` for the opt-in stamp and `Date.now()` for the order
      number. */
  datatype CreateWorld = CreateWorld(
    lookupFails: bool,
    customerInsertFails: bool,
    orderInsertFails: bool,
    newCustomerId: Id,
    newOrderId: Id,
    optinAt: Timestamp,
    clock: nat,
    dbNow: Timestamp)

  // ---------------------------------------------------------------------------
  // Reading the form
  // ---------------------------------------------------------------------------

  /** The submitted form; `None` is a field that is not present. */
  datatype OrderForm = OrderForm(
    customerName: Option<string>,
    whatsappNumber: Option<string>,
    productTitle: Option<string>,
    productSku: Option<string>,
    quantity: Option<string>,
    pricePaise: int,
    shippingName: Option<string>,
    shippingAddress: Option<string>,
    pincode: Option<string>,
    city: Option<string>,
    state: Option<string>,
    expectedDeliveryDate: Option<string>)

  /** The `data` object the action validates. `quantity` is `None` for NaN. */
  datatype OrderData = OrderData(
    customerName: string,
    whatsappNumber: string,
    productTitle: string,
    productSku: Option<string>,
    quantity: Option<int>,
    pricePaise: int,
    shippingName: Option<string>,
    shippingAddress: Option<string>,
    pincode: Option<string>,
    city: Option<string>,
    state: Option<string>,
    expectedDeliveryDate: Option<string>)

  /** `formData.get(k)?.toString() || ''`. */
  function TextOrEmpty(v: Option<string>): string {
    if v.None? then "" else v.value
  }

  /** `formData.get(k) || null`: an absent or empty field is null. */
  function NullIfEmpty(v: Option<string>): (r: Option<string>)
    ensures r.Some? ==> r.value != ""
  {
    if v.None? || v.value == "" then None else v
  }

  predicate IsSpace(c: char) {
    c == ' ' || c == '\t' || c == '\n' || c == '\r'
  }

  function SkipSpaces(s: string): (r: string)
    ensures |r| <= |s|
    ensures |r| > 0 ==> !IsSpace(r[0])
    decreases |s|
  {
    if |s| > 0 && IsSpace(s[0]) then SkipSpaces(s[1..]) else s
  }

  /** The longest prefix of decimal digits. */
  function DigitPrefix(s: string): (r: string)
    ensures AllDigits(r) && |r| <= |s| && r == s[..|r|]
    ensures |r| < |s| ==> !IsDigit(s[|r|])
    decreases |s|
  {
    if |s| > 0 && IsDigit(s[0]) then [s[0]] + DigitPrefix(s[1..]) else ""
  }

  /** `parseInt(s, 10)`: leading white space, an optional sign, then as many
      digits as there are; NaN (`None`) when there are none. */
  function ParseInt(s: string): Option<int> {
    var t := SkipSpaces(s);
    var negative := |t| > 0 && t[0] == '-';
    var rest := if |t| > 0 && (t[0] == '-' || t[0] == '+') then t[1..] else t;
    var digits := DigitPrefix(rest);
    var magnitude: int := if digits == "" then 0 else DecimalValue(digits);
    if digits == "" then None
    else if negative then Some(-magnitude)
    else Some(magnitude)
  }

  /** A plain numeral is read back as the number it denotes. */
  lemma ParseIntOfNumeral(n: nat)
    ensures ParseInt(NatToDecimal(n)) == Some(n)
  {
    var s := NatToDecimal(n);
    assert SkipSpaces(s) == s;
    assert DigitPrefix(s) == s by {
      DigitPrefixAll(s);
    }
    DecimalRoundTrip(n);
  }

  lemma {:induction false} DigitPrefixAll(s: string)
    requires AllDigits(s)
    ensures DigitPrefix(s) == s
    decreases |s|
  {
    if |s| > 0 {
      assert AllDigits(s[1..]);
      DigitPrefixAll(s[1..]);
    }
  }

  /** The `data` object built from the form. */
  function ReadForm(f: OrderForm): (d: OrderData)
    ensures d.customerName == "" <==> f.customerName.None? || f.customerName.value == ""
  {
    OrderData(
      TextOrEmpty(f.customerName),
      TextOrEmpty(f.whatsappNumber),
      TextOrEmpty(f.productTitle),
      NullIfEmpty(f.productSku),
      ParseInt(if f.quantity.None? || f.quantity.value == "" then "1" else f.quantity.value),
      f.pricePaise,
      NullIfEmpty(f.shippingName),
      NullIfEmpty(f.shippingAddress),
      NullIfEmpty(f.pincode),
      NullIfEmpty(f.city),
      NullIfEmpty(f.state),
      NullIfEmpty(f.expectedDeliveryDate))
  }

  /** A form without a quantity orders one item. */
  lemma MissingQuantityIsOne(f: OrderForm)
    requires f.quantity.None? || f.quantity == Some("")
    ensures ReadForm(f).quantity == Some(1)
  {
    ParseIntOfNumeral(1);
  }

  // ---------------------------------------------------------------------------
  // Validation (the zod schema)
  // ---------------------------------------------------------------------------

  /** What the schema requires of every field. */
  predicate Valid(d: OrderData) {
    && d.customerName != "" && d.whatsappNumber != "" && d.productTitle != ""
    && d.quantity.Some? && d.quantity.value >= 1 && d.pricePaise >= 0
  }

  /** `issues[0].message`: the message of the first field, in the schema's
      order, that fails. */
  function FirstIssue(d: OrderData): (r: Option<string>)
    ensures r.None? <==> Valid(d)
  {
    if d.customerName == "" then Some(NameRequired)
    else if d.whatsappNumber == "" then Some(NumberRequired)
    else if d.productTitle == "" then Some(TitleRequired)
    else if d.quantity.None? then Some(QuantityNotNumber)
    else if d.quantity.value < 1 then Some(QuantityTooSmall)
    else if d.pricePaise < 0 then Some(PriceNegative)
    else None
  }

  /** The reported issue belongs to the earliest failing field: a later
      field's problem is reported only when every earlier field passes. */
  lemma FirstIssueOrder(d: OrderData)
    ensures d.customerName == "" ==> FirstIssue(d) == Some(NameRequired)
    ensures FirstIssue(d) == Some(NumberRequired) <==> d.customerName != "" && d.whatsappNumber == ""
    ensures FirstIssue(d) == Some(TitleRequired) <==>
      d.customerName != "" && d.whatsappNumber != "" && d.productTitle == ""
    ensures FirstIssue(d) == Some(PriceNegative) <==>
      Valid(d.(pricePaise := 0)) && d.pricePaise < 0
  {
  }

  // ---------------------------------------------------------------------------
  // Order numbers
  // ---------------------------------------------------------------------------

  /** `` `ORD-${Date.now().toString().slice(-8)}` ``. */
  function OrderNumber(clock: nat): string {
    "ORD-" + TakeLast(NatToDecimal(clock), 8)
  }

  /** An order number is "ORD-" and up to eight digits — exactly eight once
      the clock has reached 10^7 ms — denoting the clock modulo 10^8. */
  lemma OrderNumberShape(clock: nat)
    ensures var n := OrderNumber(clock);
      && 5 <= |n| <= 12 && n[..4] == "ORD-" && AllDigits(n[4..])
      && DecimalValue(n[4..]) == clock % Pow10(8)
      && (clock >= Pow10(7) ==> |n| == 12)
  {
    var s := NatToDecimal(clock);
    var n := OrderNumber(clock);
    assert n[4..] == TakeLast(s, 8);
    SuffixValue(s, 8);
    DecimalRoundTrip(clock);
    if clock >= Pow10(7) {
      DecimalLength(clock, 8);
    }
  }

  /** Order numbers repeat: two creations 10^8 ms (about 27.8 hours) apart
      get the same number, so the number does not identify an order. */
  lemma OrderNumberRepeats(clock: nat)
    requires clock >= Pow10(7)
    ensures OrderNumber(clock) == OrderNumber(clock + Pow10(8))
  {
    var later := clock + Pow10(8);
    OrderNumberShape(clock);
    OrderNumberShape(later);
    assert later % Pow10(8) == clock % Pow10(8) by {
      var q, r := clock / Pow10(8), clock % Pow10(8);
      assert later == (q + 1) * Pow10(8) + r;
      ModOfShifted(q + 1, Pow10(8), r);
    }
    var a, b := OrderNumber(clock)[4..], OrderNumber(later)[4..];
    DecimalInjective(a, b);
    assert OrderNumber(clock) == OrderNumber(clock)[..4] + a;
    assert OrderNumber(later) == OrderNumber(later)[..4] + b;
  }

  // ---------------------------------------------------------------------------
  // createOrder
  // ---------------------------------------------------------------------------

  predicate CanCreateOrders(role: Role) {
    role == Owner || role == Admin || role == Editor
  }

  /** `select('id').eq('workspace_id', ws).eq('whatsapp_number', phone)`. */
  function CustomersWith(customers: seq<Customer>, ws: Id, phone: string): (r: seq<Customer>)
    ensures forall c :: c in r <==> c in customers && c.workspaceId == ws && c.whatsappNumber == phone
    decreases |customers|
  {
    if |customers| == 0 then []
    else
      var rest := CustomersWith(customers[1..], ws, phone);
      assert forall c :: c in customers <==> c == customers[0] || c in customers[1..];
      if customers[0].workspaceId == ws && customers[0].whatsappNumber == phone then [customers[0]] + rest else rest
  }

  /** The order row inserted for validated data. */
  function NewOrder(user: Id, ws: Id, customerId: Id, d: OrderData, w: CreateWorld): Order
    requires Valid(d)
  {
    Order(w.newOrderId, ws, customerId, OrderNumber(w.clock), d.productTitle, d.productSku,
          d.quantity.value, d.pricePaise, d.shippingName, d.shippingAddress, d.pincode, d.city,
          d.state, d.expectedDeliveryDate, Received, Some(user), w.dbNow, w.dbNow)
  }

  /** Insert the order for `customerId`; the customer table as it stands is
      kept whatever happens, so a customer created just before a failed order
      insert remains. */
  function PlaceOrder(user: Id, ws: Id, customerId: Id, d: OrderData, w: CreateWorld,
                      customers: seq<Customer>, orders: seq<Order>): (r: ActionRun)
    requires Valid(d)
    ensures r.customers == customers
  {
    if w.orderInsertFails then ActionRun(Thrown(OrderInsertError), customers, orders)
    else ActionRun(Redirected("/orders/" + w.newOrderId), customers, orders + [NewOrder(user, ws, customerId, d, w)])
  }

  /** `createOrder(formData)`, after `requireWorkspace` produced `guard`. */
  function CreateOrder(guard: GuardOutcome, form: OrderForm, w: CreateWorld,
                       customers: seq<Customer>, orders: seq<Order>): (r: ActionRun)
    ensures r.outcome != Completed
    ensures r.orders == orders || (|r.orders| == |orders| + 1 && r.orders[..|orders|] == orders)
    ensures r.customers == customers || (|r.customers| == |customers| + 1 && r.customers[..|customers|] == customers)
  {
    match guard
    case GuardRedirect(path) => ActionRun(Redirected(path), customers, orders)
    case GuardThrow(m) => ActionRun(Thrown(m), customers, orders)
    case Granted(user, ws, role) =>
      if !CanCreateOrders(role) then ActionRun(Thrown(PermissionError), customers, orders)
      else
        var d := ReadForm(form);
        match FirstIssue(d)
        case Some(m) => ActionRun(Thrown(m), customers, orders)
        case None =>
          var phone := FormatE164(d.whatsappNumber);
          if !ValidateE164(phone) then ActionRun(Thrown(InvalidNumber), customers, orders)
          else if w.lookupFails then ActionRun(Thrown(LookupError), customers, orders)
          else
            var existing := CustomersWith(customers, ws, phone);
            if |existing| == 1 then
              PlaceOrder(user, ws, existing[0].id, d, w, customers, orders)
            else if w.customerInsertFails then ActionRun(Thrown(CustomerInsertError), customers, orders)
            else
              var c := Customer(w.newCustomerId, ws, d.customerName, phone, Some(w.optinAt), None, None, w.dbNow);
              assert (customers + [c])[..|customers|] == customers;
              var r := PlaceOrder(user, ws, c.id, d, w, customers + [c], orders);
              assert r.orders == orders || r.orders[..|orders|] == orders;
              r
  }

  /** Nothing is written unless the caller may create orders, the form is
      valid and the normalised number passes validation. */
  lemma WritesRequireChecks(guard: GuardOutcome, form: OrderForm, w: CreateWorld,
                            customers: seq<Customer>, orders: seq<Order>)
    ensures var r := CreateOrder(guard, form, w, customers, orders);
      (r.customers != customers || r.orders != orders) ==>
        && guard.Granted? && CanCreateOrders(guard.role)
        && Valid(ReadForm(form))
        && ValidateE164(FormatE164(ReadForm(form).whatsappNumber))
        && !w.lookupFails
  {
  }

  /** The rejections, in the order the action makes them. */
  lemma CreateOrderRejections(guard: GuardOutcome, form: OrderForm, w: CreateWorld,
                              customers: seq<Customer>, orders: seq<Order>)
    requires guard.Granted?
    ensures var r := CreateOrder(guard, form, w, customers, orders);
      var d := ReadForm(form);
      && (!CanCreateOrders(guard.role) ==> r == ActionRun(Thrown(PermissionError), customers, orders))
      && (CanCreateOrders(guard.role) && !Valid(d) ==>
            r == ActionRun(Thrown(FirstIssue(d).value), customers, orders))
      && (CanCreateOrders(guard.role) && Valid(d) && !ValidateE164(FormatE164(d.whatsappNumber)) ==>
            r == ActionRun(Thrown(InvalidNumber), customers, orders))
  {
  }

  /** A viewer is refused whatever the form holds. */
  lemma ViewerCannotCreate(user: Id, ws: Id, form: OrderForm, w: CreateWorld,
                           customers: seq<Customer>, orders: seq<Order>)
    ensures CreateOrder(Granted(user, ws, Viewer), form, w, customers, orders)
      == ActionRun(Thrown(PermissionError), customers, orders)
  {
  }

  /** The conditions under which `createOrder` reaches its final redirect:
      the caller may create orders, the form and the normalised number are
      valid, the lookup succeeds, a customer is found or created, and the
      order insert succeeds. */
  predicate SucceedsWith(guard: GuardOutcome, form: OrderForm, w: CreateWorld, customers: seq<Customer>) {
    var d := ReadForm(form);
    var phone := FormatE164(d.whatsappNumber);
    && guard.Granted? && CanCreateOrders(guard.role)
    && FirstIssue(d).None? && ValidateE164(phone)
    && !w.lookupFails && !w.orderInsertFails
    && (|CustomersWith(customers, guard.workspaceId, phone)| == 1 || !w.customerInsertFails)
  }

  /** The action redirects to a new order exactly under those conditions;
      every other redirect is the guard's. */
  lemma CreateOrderSucceedsIff(guard: GuardOutcome, form: OrderForm, w: CreateWorld,
                               customers: seq<Customer>, orders: seq<Order>)
    ensures var r := CreateOrder(guard, form, w, customers, orders);
      r.outcome.Redirected? && !guard.GuardRedirect? <==> SucceedsWith(guard, form, w, customers)
  {
  }

  /** On success the action redirects to the new order, which is RECEIVED,
      created by the caller in the caller's workspace, and belongs to a
      customer of that workspace holding the normalised, valid number. */
  lemma CreateOrderSuccess(guard: GuardOutcome, form: OrderForm, w: CreateWorld,
                           customers: seq<Customer>, orders: seq<Order>)
    requires SucceedsWith(guard, form, w, customers)
    ensures var r := CreateOrder(guard, form, w, customers, orders);
      var phone := FormatE164(ReadForm(form).whatsappNumber);
      && r.outcome == Redirected("/orders/" + w.newOrderId)
      && |r.orders| == |orders| + 1
      && var o := r.orders[|orders|];
      && o.id == w.newOrderId && o.workspaceId == guard.workspaceId && o.status == Received
      && o.createdBy == Some(guard.userId) && o.orderNumber == OrderNumber(w.clock)
      && ValidateE164(phone)
      && exists c :: c in r.customers && c.id == o.customerId
           && c.workspaceId == guard.workspaceId && c.whatsappNumber == phone
  {
    var r := CreateOrder(guard, form, w, customers, orders);
    var d := ReadForm(form);
    var phone := FormatE164(d.whatsappNumber);
    var existing := CustomersWith(customers, guard.workspaceId, phone);
    if |existing| == 1 {
      assert existing[0] in existing;
    } else {
      assert r.customers[|customers|] in r.customers;
    }
  }

  /** An existing customer is reused only when exactly one row matches the
      workspace and number; with two or more (the `.single()` lookup then
      reports PGRST116, like no row at all) yet another customer is created. */
  lemma CustomerReuse(user: Id, ws: Id, role: Role, form: OrderForm, w: CreateWorld,
                      customers: seq<Customer>, orders: seq<Order>)
    requires CanCreateOrders(role) && Valid(ReadForm(form))
    requires ValidateE164(FormatE164(ReadForm(form).whatsappNumber))
    requires !w.lookupFails && !w.customerInsertFails
    ensures var r := CreateOrder(Granted(user, ws, role), form, w, customers, orders);
      var n := |CustomersWith(customers, ws, FormatE164(ReadForm(form).whatsappNumber))|;
      && (n == 1 ==> r.customers == customers)
      && (n != 1 ==> |r.customers| == |customers| + 1
                     && var c := r.customers[|customers|];
                     && c.id == w.newCustomerId
                     && c.whatsappNumber == FormatE164(ReadForm(form).whatsappNumber)
                     && c.workspaceId == ws
                     && c.name == ReadForm(form).customerName
                     && c.lastOptinAt == Some(w.optinAt)
                     && c.optedOutAt.None? && c.lastMessageAt.None?)
      && (n == 1 && !w.orderInsertFails ==>
            r.orders[|orders|].customerId == CustomersWith(customers, ws, FormatE164(ReadForm(form).whatsappNumber))[0].id)
      && (n != 1 && !w.orderInsertFails ==> r.orders[|orders|].customerId == w.newCustomerId)
  {
  }

  /** A failed order insert does not undo the customer created just before
      it. */
  lemma FailedOrderKeepsNewCustomer(user: Id, ws: Id, role: Role, form: OrderForm, w: CreateWorld,
                                    customers: seq<Customer>, orders: seq<Order>)
    requires CanCreateOrders(role) && Valid(ReadForm(form))
    requires ValidateE164(FormatE164(ReadForm(form).whatsappNumber))
    requires !w.lookupFails && !w.customerInsertFails && w.orderInsertFails
    requires |CustomersWith(customers, ws, FormatE164(ReadForm(form).whatsappNumber))| == 0
    ensures var r := CreateOrder(Granted(user, ws, role), form, w, customers, orders);
      && r.outcome == Thrown(OrderInsertError)
      && r.orders == orders
      && |r.customers| == |customers| + 1
  {
  }

  // ---------------------------------------------------------------------------
  // updateOrderStatus
  // ---------------------------------------------------------------------------

  /** The orders the update's `match({ id, workspace_id })` selects. */
  function Matching(orders: seq<Order>, id: Id, ws: Id): (n: nat)
    ensures n <= |orders|
    ensures n == 0 <==> forall i :: 0 <= i < |orders| ==> !(orders[i].id == id && orders[i].workspaceId == ws)
    decreases |orders|
  {
    if |orders| == 0 then 0
    else
      var rest := Matching(orders[1..], id, ws);
      assert (forall i :: 0 <= i < |orders[1..]| ==> !(orders[1..][i].id == id && orders[1..][i].workspaceId == ws))
        <==> (forall i :: 1 <= i < |orders| ==> !(orders[i].id == id && orders[i].workspaceId == ws)) by {
        forall i | 1 <= i < |orders| ensures orders[1..][i - 1] == orders[i] { }
      }
      (if orders[0].id == id && orders[0].workspaceId == ws then 1 else 0) + rest
  }

  /** `updateOrderStatus(orderId, status)`, after `requireWorkspace` produced
      `guard`. `dbError` is an error the update itself reports (network,
      row-level security); `now` is `new Date()`. With `.select().single()`
      the statement succeeds only when exactly one row matches, and otherwise
      its error is thrown and nothing is written. */
  function UpdateOrderStatus(guard: GuardOutcome, orderId: Id, status: OrderStatus, dbError: Option<string>,
                             now: Timestamp, orders: seq<Order>): (r: (Outcome, seq<Order>))
    ensures |r.1| == |orders|
    ensures r.0 != Completed ==> r.1 == orders
    ensures forall i :: 0 <= i < |orders| && r.1[i] != orders[i] ==>
      guard.Granted? && orders[i].id == orderId && orders[i].workspaceId == guard.workspaceId
      && r.1[i] == orders[i].(status := status, updatedAt := now)
  {
    match guard
    case GuardRedirect(path) => (Redirected(path), orders)
    case GuardThrow(m) => (Thrown(m), orders)
    case Granted(_, ws, _) =>
      if dbError.Some? then (Thrown(dbError.value), orders)
      else if Matching(orders, orderId, ws) != 1 then (Thrown(SingleRowError), orders)
      else
        (Completed, seq(|orders|, i requires 0 <= i < |orders| =>
          if orders[i].id == orderId && orders[i].workspaceId == ws
          then orders[i].(status := status, updatedAt := now) else orders[i]))
  }

  /** The update completes exactly when the caller is granted, the database
      reports no error and exactly one order with that id is in the caller's
      workspace; an order id from another workspace is refused untouched. */
  lemma UpdateOrderStatusIff(guard: GuardOutcome, orderId: Id, status: OrderStatus, dbError: Option<string>,
                             now: Timestamp, orders: seq<Order>)
    ensures var r := UpdateOrderStatus(guard, orderId, status, dbError, now, orders);
      r.0 == Completed <==> guard.Granted? && dbError.None? && Matching(orders, orderId, guard.workspaceId) == 1
    ensures guard.Granted? && dbError.None? && Matching(orders, orderId, guard.workspaceId) == 0 ==>
      UpdateOrderStatus(guard, orderId, status, dbError, now, orders) == (Thrown(SingleRowError), orders)
  {
  }

  /** A completed update sets the new status on the matched order. */
  lemma UpdateOrderStatusEffect(guard: GuardOutcome, orderId: Id, status: OrderStatus, now: Timestamp,
                                orders: seq<Order>, i: nat)
    requires guard.Granted? && i < |orders|
    requires orders[i].id == orderId && orders[i].workspaceId == guard.workspaceId
    requires Matching(orders, orderId, guard.workspaceId) == 1
    ensures var r := UpdateOrderStatus(guard, orderId, status, None, now, orders);
      r.0 == Completed && r.1[i].status == status && r.1[i].updatedAt == now
  {
  }

  /** Unlike `createOrder`, the status update checks no role: a viewer's
      update goes through. */
  lemma ViewerCanUpdateStatus(user: Id, ws: Id, orderId: Id, status: OrderStatus, now: Timestamp, orders: seq<Order>)
    requires Matching(orders, orderId, ws) == 1
    ensures UpdateOrderStatus(Granted(user, ws, Viewer), orderId, status, None, now, orders).0 == Completed
  {
  }
}

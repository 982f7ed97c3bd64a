/**
 * The order lifecycle as decisions on one loaded order: placing, the vendor's
 * status update, the customer's cancel, mock pay and refund, delivery
 * assignment, the manual delivery status and reorder. Each decision takes the
 * result of the `findById` lookup (None when the order is absent) and the
 * acting identity, and yields the document to save or the error response.
 * The store (OrderRoutes.OrderStore) applies them.
 */
module OrderLifecycle {
  import opened Common
  import opened OrderModel

  /**
   * The body of a place-order request. `items` is None when it is absent or
   * not an array. The handler reads only `vendorId` and `items`; the client
   * also sends a total, a payment status and an address.
   */
  datatype OrderRequest = OrderRequest(
    vendorId: string,
    items: Option<seq<LineItem>>,
    clientTotal: Option<int>,
    clientPaymentStatus: Option<string>,
    deliveryAddress: Option<string>)

  /** Whose orders a listing returns. */
  datatype Audience = ByCustomer(customer: Id) | ByVendor(vendor: Id)

  predicate Matches(a: Audience, o: Order)
  {
    match a
    case ByCustomer(c) => o.customer == c
    case ByVendor(v) => o.vendor == v
  }

  predicate Priced(l: LineItem)
  {
    l.price.Some? && l.quantity.Some?
  }

  /** Price times quantity of one fully priced line. */
  function LineTotal(l: LineItem): int
    requires Priced(l)
  {
    l.price.value * l.quantity.value
  }

  /**
   * `items.reduce((sum, item) => sum + item.price * item.quantity, 0)`.
   * None stands for the NaN a missing price or quantity produces.
   */
  function Total(items: seq<LineItem>): (t: Option<int>)
    ensures t.Some? <==> forall i :: 0 <= i < |items| ==> Priced(items[i])
  {
    if items == [] then Some(0)
    else
      var rest := Total(items[..|items| - 1]);
      var last := items[|items| - 1];
      if rest.Some? && Priced(last) then Some(rest.value + LineTotal(last)) else None
  }

  /** The sum splits over any split of the item list. */
  lemma {:induction false} TotalAppend(a: seq<LineItem>, b: seq<LineItem>)
    requires Total(a).Some? && Total(b).Some?
    ensures Total(a + b) == Some(Total(a).value + Total(b).value)
    decreases |b|
  {
    if b == [] {
      assert a + b == a;
    } else {
      var b' := b[..|b| - 1];
      assert (a + b)[..|a + b| - 1] == a + b';
      assert Total(b').Some? by {
        forall i | 0 <= i < |b'| ensures Priced(b'[i]) { assert b'[i] == b[i]; }
      }
      TotalAppend(a, b');
    }
  }

  /** The handler's guards, in order: 400 on a malformed body, 404 on an unknown vendor. */
  function PlaceOrder(customer: Id, req: OrderRequest, vendorExists: bool): (r: Result<OrderDraft>)
    ensures (r.Err? && r.code == 400) <==> (req.vendorId == "" || req.items.None? || req.items.value == [])
    ensures (r.Err? && r.code == 404) <==>
            (req.vendorId != "" && req.items.Some? && req.items.value != [] && !vendorExists)
    ensures r.Ok? <==> req.vendorId != "" && req.items.Some? && req.items.value != [] && vendorExists
    ensures r.Ok? ==> && r.value.customer == customer
                      && r.value.vendor == req.vendorId
                      && r.value.items == req.items.value
                      && r.value.totalPrice == Total(req.items.value)
                      && r.value.status == Some(StatusName(Ordered))
                      && r.value.paymentStatus == Some(PaymentName(Pending))
  {
    if req.vendorId == "" || req.items.None? || req.items.value == [] then
      Err(400, "Vendor and items are required")
    else if !vendorExists then
      Err(404, "Vendor not found")
    else
      var items := req.items.value;
      Ok(OrderDraft(customer, req.vendorId, items, Total(items), Some("Ordered"), Some("Pending")))
  }

  /** What the client claims about total and payment never reaches the stored order. */
  lemma ClientClaimsIgnored(customer: Id, r1: OrderRequest, r2: OrderRequest, vendorExists: bool)
    requires r1.vendorId == r2.vendorId && r1.items == r2.items
    ensures PlaceOrder(customer, r1, vendorExists) == PlaceOrder(customer, r2, vendorExists)
  {
  }

  /**
   * A placed order that passes validation is Ordered, Pending, owned by the
   * acting customer and the requested vendor, and priced at the sum of its
   * lines.
   */
  lemma PlacedOrderShape(customer: Id, req: OrderRequest, id: Id, now: nat)
    requires PlaceOrder(customer, req, true).Ok?
    requires Validate(id, PlaceOrder(customer, req, true).value, now).Ok?
    ensures var o := Validate(id, PlaceOrder(customer, req, true).value, now).value;
            && o.status == Ordered && o.paymentStatus == Pending
            && o.customer == customer && o.vendor == req.vendorId
            && Some(o.totalPrice) == Total(req.items.value)
            && |o.items| == |req.items.value|
  {
  }

  /** One line of two pizzas at 200 gives a pending order worth 400. */
  lemma PizzaScenario(customer: Id, vendor: Id, id: Id, now: nat)
    requires customer != "" && vendor != ""
    ensures var req := OrderRequest(vendor, Some([LineItem("Pizza", Some(200), Some(2))]), None, None, Some("12 Main St"));
            var o := Validate(id, PlaceOrder(customer, req, true).value, now);
            o.Ok? && o.value.totalPrice == 400 && o.value.status == Ordered && o.value.paymentStatus == Pending
  {
    var items := [LineItem("Pizza", Some(200), Some(2))];
    assert items[..0] == [];
    assert Total(items) == Some(400);
  }

  /**
   * The vendor's status update: 404, then 403 for another vendor's order;
   * the requested value is written whatever the current status, and a value
   * outside the enum fails validation on save (500).
   */
  function UpdateStatus(found: Option<Order>, vendor: Id, requested: string): (r: Result<Order>)
    ensures found.None? ==> r == Err(404, "Order not found")
    ensures found.Some? && found.value.vendor != vendor ==> r == Err(403, "Access denied")
    ensures found.Some? && found.value.vendor == vendor ==>
              (r.Ok? <==> ParseStatus(requested).Some?) && (r.Err? ==> r.code == 500)
    ensures r.Ok? ==> (StatusName(r.value.status) == requested
                       && r.value.(status := found.value.status) == found.value)
  {
    match found
    case None => Err(404, "Order not found")
    case Some(o) =>
      if o.vendor != vendor then Err(403, "Access denied")
      else
        match ParseStatus(requested)
        case None => Err(500, "Order validation failed")
        case Some(s) => Ok(o.(status := s))
  }

  /**
   * There is no transition table: the owning vendor may move an order from
   * any status to any status, Delivered and Cancelled included.
   */
  lemma AnyTransitionAccepted(o: Order, s: Status)
    ensures UpdateStatus(Some(o), o.vendor, StatusName(s)) == Ok(o.(status := s))
  {
    StatusNamesRoundTrip(s);
  }

  /** The customer's cancel: 404, 403 for another customer, 400 unless exactly Ordered. */
  function Cancel(found: Option<Order>, customer: Id): (r: Result<Order>)
    ensures found.None? ==> r == Err(404, "Order not found")
    ensures found.Some? && found.value.customer != customer ==> r == Err(403, "Access denied")
    ensures found.Some? && found.value.customer == customer ==>
              (r.Ok? <==> found.value.status == Ordered)
    ensures r.Err? && found.Some? && found.value.customer == customer ==>
              r == Err(400, "Order cannot be cancelled at this stage")
    ensures r.Ok? ==> r.value.status == Cancelled && r.value.(status := found.value.status) == found.value
  {
    match found
    case None => Err(404, "Order not found")
    case Some(o) =>
      if o.customer != customer then Err(403, "Access denied")
      else if o.status != Ordered then Err(400, "Order cannot be cancelled at this stage")
      else Ok(o.(status := Cancelled))
  }

  /** The mock payment: 404, otherwise Paid whatever the prior payment status. */
  function MarkPaid(found: Option<Order>): (r: Result<Order>)
    ensures r.Ok? <==> found.Some?
    ensures r.Err? ==> r == Err(404, "Order not found")
    ensures r.Ok? ==> r.value.paymentStatus == Paid && r.value.(paymentStatus := found.value.paymentStatus) == found.value
  {
    match found
    case None => Err(404, "Order not found")
    case Some(o) => Ok(o.(paymentStatus := Paid))
  }

  /** Paying twice leaves the same order as paying once. */
  lemma PayIdempotent(o: Order)
    ensures MarkPaid(Some(MarkPaid(Some(o)).value)) == MarkPaid(Some(o))
  {
  }

  /** The receipt the pay handler returns beside the order. */
  datatype Receipt = Receipt(id: Id, amount: int, status: PaymentStatus, paymentId: string)

  /**
   * The receipt of a saved order: the order's total and payment status, and
   * the fresh mock payment id. The id is not a schema path, so it appears here
   * only and is never stored.
   */
  function MakeReceipt(o: Order, paymentId: string): (rc: Receipt)
    ensures rc.id == o.id && rc.amount == o.totalPrice && rc.status == o.paymentStatus
    ensures rc.paymentId == paymentId
  {
    Receipt(o.id, o.totalPrice, o.paymentStatus, paymentId)
  }

  /** "MOCK_PAYMENT_" followed by the clock reading. */
  function MockPaymentId(timestamp: string): (id: string)
    ensures |id| == 13 + |timestamp| && id[13..] == timestamp
  {
    "MOCK_PAYMENT_" + timestamp
  }

  /**
   * The mock refund: 404, otherwise the handler writes "Refunded", which the
   * payment enum does not allow, so the save fails with 500. It never succeeds.
   */
  function MarkRefunded(found: Option<Order>): (r: Result<Order>)
    ensures r.Err?
    ensures found.None? <==> r == Err(404, "Order not found")
    ensures found.Some? ==> r.code == 500
  {
    match found
    case None => Err(404, "Order not found")
    case Some(o) =>
      match ParsePayment("Refunded")
      case None => Err(500, "Order validation failed")
      case Some(p) => Ok(o.(paymentStatus := p))
  }

  /** Delivery assignment: 404, otherwise Out for Delivery from any status. */
  function Assign(found: Option<Order>): (r: Result<Order>)
    ensures r.Ok? <==> found.Some?
    ensures r.Err? ==> r == Err(404, "Order not found")
    ensures r.Ok? ==> r.value.status == OutForDelivery && r.value.(status := found.value.status) == found.value
  {
    match found
    case None => Err(404, "Order not found")
    case Some(o) => Ok(o.(status := OutForDelivery))
  }

  /**
   * The manual delivery status: 404, otherwise the requested value with no
   * owner or transition check; a value outside the enum fails on save and the
   * handler answers 500 "Server error".
   */
  function ManualStatus(found: Option<Order>, requested: string): (r: Result<Order>)
    ensures found.None? ==> r == Err(404, "Order not found")
    ensures found.Some? ==> (r.Ok? <==> ParseStatus(requested).Some?)
    ensures found.Some? && r.Err? ==> r == Err(500, "Server error")
    ensures r.Ok? ==> (StatusName(r.value.status) == requested
                       && r.value.(status := found.value.status) == found.value)
  {
    match found
    case None => Err(404, "Order not found")
    case Some(o) =>
      match ParseStatus(requested)
      case None => Err(500, "Server error")
      case Some(s) => Ok(o.(status := s))
  }

  /** Payment and delivery handlers each change exactly one field. */
  lemma PaymentAndDeliveryIndependent(o: Order)
    ensures MarkPaid(Some(o)).value.status == o.status
    ensures MarkPaid(Some(o)).value.items == o.items && MarkPaid(Some(o)).value.totalPrice == o.totalPrice
    ensures Assign(Some(o)).value.paymentStatus == o.paymentStatus
  {
  }

  /**
   * The document reorder builds: the acting customer, the old vendor and
   * items, status "Ordered". The handler passes `total` (not a schema path)
   * instead of `totalPrice`, and `deliveryAddress` is not a schema path
   * either, so neither reaches the draft.
   */
  function ReorderDraft(prev: Order, customer: Id): (d: OrderDraft)
    ensures d.customer == customer && d.vendor == prev.vendor
    ensures |d.items| == |prev.items| && forall i :: 0 <= i < |d.items| ==> d.items[i] == FromItem(prev.items[i])
    ensures d.status == Some(StatusName(Ordered)) && d.totalPrice.None? && d.paymentStatus.None?
  {
    OrderDraft(customer, prev.vendor, seq(|prev.items|, i requires 0 <= i < |prev.items| => FromItem(prev.items[i])),
               None, Some("Ordered"), None)
  }

  /** Every reorder draft fails validation: `totalPrice` is required. */
  lemma ReorderAlwaysRejected(prev: Order, customer: Id, id: Id, now: nat)
    ensures Validate(id, ReorderDraft(prev, customer), now) == Err(500, "Order validation failed")
  {
  }
}

/**
 * The Order document (backend/models/Order.js): its two enums, the line-item
 * shape, the defaults and the required paths. A document is only stored
 * after `Validate` accepts it; a rejected save surfaces as HTTP 500.
 */
module OrderModel {
  import opened Common

  datatype Status = Ordered | Preparing | OutForDelivery | Delivered | Cancelled

  datatype PaymentStatus = Pending | Paid | Failed

  /** The string each status value is stored and sent as. */
  function StatusName(s: Status): string
  {
    match s
    case Ordered => "Ordered"
    case Preparing => "Preparing"
    case OutForDelivery => "Out for Delivery"
    case Delivered => "Delivered"
    case Cancelled => "Cancelled"
  }

  function PaymentName(p: PaymentStatus): string
  {
    match p
    case Pending => "Pending"
    case Paid => "Paid"
    case Failed => "Failed"
  }

  /** The schema's enum check on `status`: only the five listed strings are accepted. */
  function ParseStatus(s: string): (r: Option<Status>)
    ensures r.Some? ==> StatusName(r.value) == s
    ensures r.None? ==> forall t: Status :: StatusName(t) != s
  {
    if s == "Ordered" then Some(Ordered)
    else if s == "Preparing" then Some(Preparing)
    else if s == "Out for Delivery" then Some(OutForDelivery)
    else if s == "Delivered" then Some(Delivered)
    else if s == "Cancelled" then Some(Cancelled)
    else None
  }

  /** The schema's enum check on `paymentStatus`: Pending, Paid or Failed. */
  function ParsePayment(s: string): (r: Option<PaymentStatus>)
    ensures r.Some? ==> PaymentName(r.value) == s
    ensures r.None? ==> forall p: PaymentStatus :: PaymentName(p) != s
  {
    if s == "Pending" then Some(Pending)
    else if s == "Paid" then Some(Paid)
    else if s == "Failed" then Some(Failed)
    else None
  }

  lemma StatusNamesRoundTrip(s: Status)
    ensures ParseStatus(StatusName(s)) == Some(s)
  {
  }

  /** A line item as a request body carries it; a missing number is None. */
  datatype LineItem = LineItem(itemName: string, price: Option<int>, quantity: Option<int>)

  /** A stored line item. */
  datatype OrderItem = OrderItem(itemName: string, price: int, quantity: int)

  /** A stored order; `createdAt` and `updatedAt` are the schema's timestamps. */
  datatype Order = Order(
    id: Id,
    customer: Id,
    vendor: Id,
    items: seq<OrderItem>,
    totalPrice: int,
    status: Status,
    paymentStatus: PaymentStatus,
    createdAt: nat,
    updatedAt: nat)

  /**
   * The fields a handler passes to `new Order({...})`, before casting and
   * validation. Paths the schema does not declare are not represented: Mongoose
   * drops them.
   */
  datatype OrderDraft = OrderDraft(
    customer: Id,
    vendor: Id,
    items: seq<LineItem>,
    totalPrice: Option<int>,
    status: Option<string>,
    paymentStatus: Option<string>)

  const DefaultQuantity: int := 1

  predicate ItemValid(l: LineItem)
  {
    Present(l.itemName) && l.price.Some?
  }

  /** Every required path is present and each enum path names an allowed value. */
  predicate DraftValid(d: OrderDraft)
  {
    && Present(d.customer)
    && Present(d.vendor)
    && d.totalPrice.Some?
    && (forall i :: 0 <= i < |d.items| ==> ItemValid(d.items[i]))
    && (d.status.None? || ParseStatus(d.status.value).Some?)
    && (d.paymentStatus.None? || ParsePayment(d.paymentStatus.value).Some?)
  }

  /** A validated line item, with the quantity default applied. */
  function ToItem(l: LineItem): OrderItem
    requires ItemValid(l)
  {
    OrderItem(l.itemName, l.price.value, if l.quantity.Some? then l.quantity.value else DefaultQuantity)
  }

  /** A stored line item as a new draft would receive it (used when copying items). */
  function FromItem(it: OrderItem): LineItem
  {
    LineItem(it.itemName, Some(it.price), Some(it.quantity))
  }

  /**
   * Casting and validating a draft as `order.save()` does. On success the
   * document gets its id and both timestamps; on failure nothing is stored.
   */
  function Validate(id: Id, d: OrderDraft, now: nat): (r: Result<Order>)
    ensures r.Ok? <==> DraftValid(d)
    ensures r.Err? ==> r.code == 500
    ensures r.Ok? ==> && r.value.id == id
                      && r.value.customer == d.customer
                      && r.value.vendor == d.vendor
                      && r.value.totalPrice == d.totalPrice.value
                      && r.value.createdAt == now
                      && r.value.updatedAt == now
    ensures r.Ok? ==> r.value.status == (if d.status.None? then Ordered else ParseStatus(d.status.value).value)
    ensures r.Ok? ==> r.value.paymentStatus ==
                      (if d.paymentStatus.None? then Pending else ParsePayment(d.paymentStatus.value).value)
    ensures r.Ok? ==> |r.value.items| == |d.items|
    ensures r.Ok? ==> forall i :: 0 <= i < |d.items| ==>
                        && r.value.items[i].itemName == d.items[i].itemName
                        && Some(r.value.items[i].price) == d.items[i].price
                        && r.value.items[i].quantity ==
                           (if d.items[i].quantity.None? then DefaultQuantity else d.items[i].quantity.value)
  {
    if !DraftValid(d) then Err(500, "Order validation failed")
    else
      var items := seq(|d.items|, i requires 0 <= i < |d.items| => ToItem(d.items[i]));
      Ok(Order(
        id, d.customer, d.vendor, items, d.totalPrice.value,
        if d.status.None? then Ordered else ParseStatus(d.status.value).value,
        if d.paymentStatus.None? then Pending else ParsePayment(d.paymentStatus.value).value,
        now, now))
  }

  /** Stored items survive a copy into a new draft unchanged. */
  lemma CopiedItemsRoundTrip(id: Id, d: OrderDraft, now: nat, items: seq<OrderItem>)
    requires d.items == seq(|items|, i requires 0 <= i < |items| => FromItem(items[i]))
    requires DraftValid(d)
    ensures Validate(id, d, now).value.items == items
  {
    var r := Validate(id, d, now).value;
    assert |r.items| == |items|;
    forall i | 0 <= i < |items| ensures r.items[i] == items[i] {
      assert d.items[i] == FromItem(items[i]);
    }
  }
}

/**
 * The mock payment routes. The clock reading in the payment id is a
 * parameter.
 */
module PaymentRoutes {
  import opened Common
  import opened OrderModel
  import OL = OrderLifecycle
  import OrderRoutes

  /**
   * POST /api/payment/pay/:orderId. The order is saved as Paid; the receipt
   * carries the saved total and payment status and the mock payment id,
   * which is not a schema path and so is not stored.
   */
  method Pay(store: OrderRoutes.OrderStore, orderId: Id, timestamp: string)
    returns (r: Result<Order>, receipt: Option<OL.Receipt>)
    requires store.Valid()
    modifies store
    ensures store.Valid() && store.log == old(store.log)
    ensures var d := OL.MarkPaid(old(store.Find(orderId)));
            && (d.Err? ==> r == d && store.orders == old(store.orders))
            && (d.Ok? ==> && r == Ok(OrderRoutes.Saved(old(store.orders)[orderId], d.value, old(store.clock)))
                          && store.orders == old(store.orders)[orderId := r.value])
    ensures receipt.Some? <==> r.Ok?
    ensures r.Ok? ==> receipt == Some(OL.MakeReceipt(r.value, OL.MockPaymentId(timestamp)))
  {
    var d := OL.MarkPaid(store.Find(orderId));
    var out;
    r, out := store.Apply(orderId, d, (o: Order) => []);
    receipt := if r.Ok? then Some(OL.MakeReceipt(r.value, OL.MockPaymentId(timestamp))) else None;
  }

  /**
   * Paying an order that is already Paid modifies no path, so the saved
   * document, update stamp included, is the stored one.
   */
  lemma RepayKeepsDocument(o: Order, now: nat)
    requires o.paymentStatus == Paid
    ensures var d := OL.MarkPaid(Some(o));
            d.Ok? && OrderRoutes.Saved(o, d.value, now) == o
  {
  }

  /** POST /api/payment/refund/:orderId: the store never changes. */
  method Refund(store: OrderRoutes.OrderStore, orderId: Id) returns (r: Result<Order>)
    requires store.Valid()
    modifies store
    ensures store.Valid()
    ensures r == OL.MarkRefunded(old(store.Find(orderId)))
    ensures store.orders == old(store.orders) && store.log == old(store.log)
  {
    var d := OL.MarkRefunded(store.Find(orderId));
    var out;
    r, out := store.Apply(orderId, d, (o: Order) => []);
  }
}

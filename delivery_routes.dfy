/**
 * The mock delivery routes. Both broadcast the saved order to every client
 * rather than to a room.
 */
module DeliveryRoutes {
  import opened Common
  import opened OrderModel
  import OL = OrderLifecycle
  import opened Notify
  import OrderRoutes

  /** POST /api/delivery/assign/:orderId. */
  method Assign(store: OrderRoutes.OrderStore, orderId: Id)
    returns (r: Result<Order>, out: seq<Emission>)
    requires store.Valid()
    modifies store
    ensures store.Valid() && store.log == old(store.log)
    ensures var d := OL.Assign(old(store.Find(orderId)));
            && (d.Err? ==> r == d && store.orders == old(store.orders) && out == [])
            && (d.Ok? ==> && r == Ok(OrderRoutes.Saved(old(store.orders)[orderId], d.value, old(store.clock)))
                          && store.orders == old(store.orders)[orderId := r.value]
                          && out == BroadcastEvents(r.value))
  {
    var d := OL.Assign(store.Find(orderId));
    r, out := store.Apply(orderId, d, BroadcastEvents);
  }

  /**
   * Assigning an order that is already Out for Delivery modifies no path, so
   * the saved document, update stamp included, is the stored one.
   */
  lemma ReassignKeepsDocument(o: Order, now: nat)
    requires o.status == OutForDelivery
    ensures var d := OL.Assign(Some(o));
            d.Ok? && OrderRoutes.Saved(o, d.value, now) == o
  {
  }

  /** PUT /api/delivery/status/:orderId. */
  method ManualStatus(store: OrderRoutes.OrderStore, orderId: Id, requested: string)
    returns (r: Result<Order>, out: seq<Emission>)
    requires store.Valid()
    modifies store
    ensures store.Valid() && store.log == old(store.log)
    ensures var d := OL.ManualStatus(old(store.Find(orderId)), requested);
            && (d.Err? ==> r == d && store.orders == old(store.orders) && out == [])
            && (d.Ok? ==> && r == Ok(OrderRoutes.Saved(old(store.orders)[orderId], d.value, old(store.clock)))
                          && store.orders == old(store.orders)[orderId := r.value]
                          && out == BroadcastEvents(r.value))
  {
    var d := OL.ManualStatus(store.Find(orderId), requested);
    r, out := store.Apply(orderId, d, BroadcastEvents);
  }
}

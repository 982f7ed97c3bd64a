/**
 * The order collection and the order route handlers. Each handler loads an
 * order, applies the decision from OrderLifecycle, saves the result and
 * returns the response together with the real-time emissions it makes. The
 * acting customer or vendor is a parameter.
 */
module OrderRoutes {
  import opened Common
  import opened OrderModel
  import OL = OrderLifecycle
  import opened Notify
  import Timeline

  /** The creation stamp the listings sort on. */
  function CreatedAt(o: Order): nat
  {
    o.createdAt
  }

  /**
   * The document `save()` leaves under `timestamps: true`: the update stamp
   * moves to `now` only when some path differs from the stored document;
   * otherwise the document is left exactly as stored.
   */
  function Saved(stored: Order, o: Order, now: nat): (s: Order)
    ensures o == stored ==> s == stored
    ensures o != stored ==> s == o.(updatedAt := now)
  {
    if o == stored then o else o.(updatedAt := now)
  }

  class OrderStore {
    /** The stored orders, by id. */
    var orders: map<Id, Order>
    /** The ids in insertion order. */
    var log: seq<Id>
    /** A logical clock standing for the timestamps the schema maintains. */
    var clock: nat

    ghost predicate Valid()
      reads this
    {
      && (forall i :: 0 <= i < |log| ==> log[i] in orders)
      && (forall id :: id in orders ==> id in log)
      && (forall id :: id in orders ==> orders[id].id == id)
      && (forall id :: id in orders ==> orders[id].createdAt < clock && orders[id].updatedAt < clock)
      && (forall i, j :: 0 <= i < j < |log| ==> orders[log[i]].createdAt < orders[log[j]].createdAt)
    }

    constructor ()
      ensures Valid() && orders == map[] && log == [] && clock == 0
    {
      orders := map[];
      log := [];
      clock := 0;
    }

    /** `Order.findById`. */
    function Find(id: Id): (r: Option<Order>)
      reads this
      ensures r.Some? <==> id in orders
      ensures r.Some? ==> r.value == orders[id]
    {
      if id in orders then Some(orders[id]) else None
    }

    /**
     * `Order.find(filter).sort({ createdAt: -1 })`: exactly the stored orders
     * of the audience, newest first.
     */
    function List(a: OL.Audience): (r: seq<Order>)
      reads this
      requires Valid()
      ensures forall o :: o in r <==> o in orders.Values && OL.Matches(a, o)
      ensures Timeline.StrictlyNewestFirst(r, CreatedAt)
    {
      var keep := (o: Order) => OL.Matches(a, o);
      Timeline.LatestComplete(orders, log, keep);
      Timeline.LatestNewestFirst(orders, log, keep, CreatedAt);
      Timeline.Latest(orders, log, keep)
    }

    /** `new Order(draft).save()` under a fresh id: validation, then insertion stamped now. */
    method Insert(d: OrderDraft, freshId: Id) returns (r: Result<Order>)
      requires Valid() && freshId !in orders
      modifies this
      ensures Valid()
      ensures r == Validate(freshId, d, old(clock))
      ensures r.Ok? ==> orders == old(orders)[freshId := r.value] && log == old(log) + [freshId]
      ensures r.Err? ==> orders == old(orders) && log == old(log)
    {
      r := Validate(freshId, d, clock);
      if r.Ok? {
        orders := orders[freshId := r.value];
        log := log + [freshId];
        clock := clock + 1;
      }
    }

    /**
     * `order.save()` of a loaded order: a document that differs from the
     * stored one is written with the update stamp at now; an unmodified one
     * leaves the collection as it was.
     */
    method Save(o: Order) returns (saved: Order)
      requires Valid() && o.id in orders && o.createdAt == orders[o.id].createdAt
      modifies this
      ensures Valid()
      ensures saved == Saved(old(orders)[o.id], o, old(clock))
      ensures orders == old(orders)[o.id := saved] && log == old(log)
      ensures o == old(orders)[o.id] ==> orders == old(orders)
    {
      if o == orders[o.id] {
        saved := o;
        return;
      }
      saved := o.(updatedAt := clock);
      orders := orders[o.id := saved];
      clock := clock + 1;
    }

    /**
     * POST /api/order. On a rejected request nothing is stored and nothing is
     * emitted; otherwise the validated order is stored and announced in its
     * vendor's room.
     */
    method PlaceOrder(customer: Id, req: OL.OrderRequest, vendors: set<Id>, freshId: Id)
      returns (r: Result<Order>, out: seq<Emission>)
      requires Valid() && freshId !in orders
      modifies this
      ensures Valid()
      ensures var d := OL.PlaceOrder(customer, req, req.vendorId in vendors);
              && (d.Err? ==> r == Err(d.code, d.msg))
              && (d.Ok? ==> r == Validate(freshId, d.value, old(clock)))
      ensures r.Ok? ==> && orders == old(orders)[freshId := r.value] && log == old(log) + [freshId]
                        && out == NewOrderEvents(r.value)
      ensures r.Err? ==> orders == old(orders) && log == old(log) && out == []
    {
      var d := OL.PlaceOrder(customer, req, req.vendorId in vendors);
      if d.Err? {
        r := Err(d.code, d.msg);
        out := [];
        return;
      }
      r := Insert(d.value, freshId);
      out := if r.Ok? then NewOrderEvents(r.value) else [];
    }

    /**
     * Applies a decision on the loaded order: on success the order is saved
     * and the emissions for the saved document are returned.
     */
    method Apply(orderId: Id, d: Result<Order>, events: Order -> seq<Emission>)
      returns (r: Result<Order>, out: seq<Emission>)
      requires Valid()
      requires d.Ok? ==> orderId in orders && d.value.id == orderId && d.value.createdAt == orders[orderId].createdAt
      modifies this
      ensures Valid() && log == old(log)
      ensures d.Err? ==> r == d && orders == old(orders) && out == []
      ensures d.Ok? ==> && r == Ok(Saved(old(orders)[orderId], d.value, old(clock)))
                        && orders == old(orders)[orderId := r.value]
                        && out == events(r.value)
    {
      if d.Err? {
        r, out := d, [];
      } else {
        var saved := Save(d.value);
        r, out := Ok(saved), events(saved);
      }
    }

    /** PUT /api/order/:orderId/status by the acting vendor. */
    method UpdateStatus(orderId: Id, vendor: Id, requested: string)
      returns (r: Result<Order>, out: seq<Emission>)
      requires Valid()
      modifies this
      ensures Valid() && log == old(log)
      ensures var d := OL.UpdateStatus(old(Find(orderId)), vendor, requested);
              && (d.Err? ==> r == d && orders == old(orders) && out == [])
              && (d.Ok? ==> && r == Ok(Saved(old(orders)[orderId], d.value, old(clock)))
                            && orders == old(orders)[orderId := r.value]
                            && out == StatusEvents(r.value))
    {
      var d := OL.UpdateStatus(Find(orderId), vendor, requested);
      r, out := Apply(orderId, d, StatusEvents);
    }

    /** PUT /api/order/:orderId/cancel by the acting customer. */
    method Cancel(orderId: Id, customer: Id)
      returns (r: Result<Order>, out: seq<Emission>)
      requires Valid()
      modifies this
      ensures Valid() && log == old(log)
      ensures var d := OL.Cancel(old(Find(orderId)), customer);
              && (d.Err? ==> r == d && orders == old(orders) && out == [])
              && (d.Ok? ==> && r == Ok(Saved(old(orders)[orderId], d.value, old(clock)))
                            && orders == old(orders)[orderId := r.value]
                            && out == CancelEvents(r.value))
    {
      var d := OL.Cancel(Find(orderId), customer);
      r, out := Apply(orderId, d, CancelEvents);
    }
  }
}

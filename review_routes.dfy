/**
 * The review routes: the delivered-order gate for adding a review, the
 * vendor's and the customer's review listings, and the vendor response. The
 * acting user's id is a parameter.
 */
module ReviewRoutes {
  import opened Common
  import opened OrderModel
  import opened ReviewModel
  import Timeline
  import OrderRoutes

  /** The body of POST /api/review. */
  datatype ReviewRequest = ReviewRequest(
    vendorId: string,
    orderId: Id,
    rating: Option<int>,
    comment: string,
    image: Option<string>)

  /** Whose reviews a listing returns. */
  datatype ReviewAudience = ForVendor(vendor: Id) | ByCustomer(customer: Id)

  predicate Matches(a: ReviewAudience, rv: Review)
  {
    match a
    case ForVendor(v) => rv.vendor == v
    case ByCustomer(c) => rv.customer == c
  }

  /** The checks on the reviewed order, in order: 404, 403, 400. */
  function ReviewGate(found: Option<Order>, user: Id): (r: Result<Order>)
    ensures found.None? ==> r == Err(404, "Order not found")
    ensures found.Some? && found.value.customer != user ==> r == Err(403, "Not authorized to review this order")
    ensures found.Some? && found.value.customer == user && found.value.status != Delivered ==>
              r == Err(400, "Order not delivered yet")
    ensures r.Ok? <==> found.Some? && found.value.customer == user && found.value.status == Delivered
    ensures r.Ok? ==> r.value == found.value
  {
    match found
    case None => Err(404, "Order not found")
    case Some(o) =>
      if o.customer != user then Err(403, "Not authorized to review this order")
      else if o.status != Delivered then Err(400, "Order not delivered yet")
      else Ok(o)
  }

  /**
   * The review document built after the gate: the acting user as customer,
   * the vendor as sent, the reviewed order, and an empty image when none is
   * sent. The vendor is taken from the request, not from the order.
   */
  function ReviewDraftOf(user: Id, req: ReviewRequest): (d: ReviewDraft)
    ensures d.customer == user && d.order == req.orderId && d.vendor == req.vendorId
    ensures d.rating == req.rating && d.comment == req.comment
    ensures d.image.Some? && (Truthy(req.image) ==> d.image == req.image) && (!Truthy(req.image) ==> d.image == Some(""))
  {
    ReviewDraft(user, req.vendorId, req.orderId, req.rating, req.comment, Some(OrDefault(req.image, "")))
  }

  /**
   * A review that validates after the gate passed on the order looked up by
   * the request's order id is a review of that delivered order, by its
   * customer, and is in range.
   */
  lemma ReviewedOrderDelivered(found: Option<Order>, user: Id, req: ReviewRequest, id: Id, now: nat)
    requires found.Some? ==> found.value.id == req.orderId
    requires ReviewGate(found, user).Ok?
    requires ReviewModel.Validate(id, ReviewDraftOf(user, req), now).Ok?
    ensures var rv := ReviewModel.Validate(id, ReviewDraftOf(user, req), now).value;
            && rv.order == found.value.id
            && found.value.status == Delivered && found.value.customer == rv.customer == user
            && MinRating <= rv.rating <= MaxRating && rv.vendorResponse == ""
  {
  }

  class ReviewStore {
    var reviews: map<Id, Review>
    var log: seq<Id>
    var clock: nat

    ghost predicate Valid()
      reads this
    {
      && (forall i :: 0 <= i < |log| ==> log[i] in reviews)
      && (forall id :: id in reviews ==> id in log)
      && (forall id :: id in reviews ==> reviews[id].id == id)
      && (forall id :: id in reviews ==> reviews[id].createdAt < clock && reviews[id].updatedAt < clock)
      && (forall i, j :: 0 <= i < j < |log| ==> reviews[log[i]].createdAt < reviews[log[j]].createdAt)
    }

    constructor ()
      ensures Valid() && reviews == map[] && log == [] && clock == 0
    {
      reviews := map[];
      log := [];
      clock := 0;
    }

    /**
     * `Review.find(filter).sort({ createdAt: -1 })`: exactly the reviews of
     * the audience, newest first.
     */
    function List(a: ReviewAudience): (r: seq<Review>)
      reads this
      requires Valid()
      ensures forall rv :: rv in r <==> rv in reviews.Values && Matches(a, rv)
      ensures Timeline.StrictlyNewestFirst(r, (rv: Review) => rv.createdAt)
    {
      var keep := (rv: Review) => Matches(a, rv);
      Timeline.LatestComplete(reviews, log, keep);
      Timeline.LatestNewestFirst(reviews, log, keep, (rv: Review) => rv.createdAt);
      Timeline.Latest(reviews, log, keep)
    }

    /**
     * POST /api/review: the gate runs on the order stored under the
     * request's order id. Nothing is stored unless the gate passes and the
     * review validates; a stored review is of a delivered order of its
     * author.
     */
    method AddReview(orders: OrderRoutes.OrderStore, user: Id, req: ReviewRequest, freshId: Id)
      returns (r: Result<Review>)
      requires Valid() && freshId !in reviews
      modifies this
      ensures Valid()
      ensures var g := ReviewGate(orders.Find(req.orderId), user);
              && (g.Err? ==> r == Err(g.code, g.msg))
              && (g.Ok? ==> r == ReviewModel.Validate(freshId, ReviewDraftOf(user, req), old(clock)))
      ensures r.Ok? ==> && req.orderId in orders.orders
                        && orders.orders[req.orderId].customer == user
                        && orders.orders[req.orderId].status == Delivered
                        && r.value.order == req.orderId && r.value.customer == user
      ensures r.Ok? ==> reviews == old(reviews)[freshId := r.value] && log == old(log) + [freshId]
      ensures r.Err? ==> reviews == old(reviews) && log == old(log)
    {
      var g := ReviewGate(orders.Find(req.orderId), user);
      if g.Err? {
        return Err(g.code, g.msg);
      }
      r := ReviewModel.Validate(freshId, ReviewDraftOf(user, req), clock);
      if r.Ok? {
        reviews := reviews[freshId := r.value];
        log := log + [freshId];
        clock := clock + 1;
      }
    }

    /**
     * PUT /api/review/response/:reviewId: only the response and the update
     * stamp change; posting the stored response again modifies no path, so
     * the review is left as it was.
     */
    method Respond(reviewId: Id, response: string) returns (r: Result<Review>)
      requires Valid()
      modifies this
      ensures Valid() && log == old(log)
      ensures reviewId !in old(reviews) ==> r == Err(404, "Review not found") && reviews == old(reviews)
      ensures reviewId in old(reviews) && old(reviews)[reviewId].vendorResponse == response ==>
                r == Ok(old(reviews)[reviewId]) && reviews == old(reviews)
      ensures reviewId in old(reviews) && old(reviews)[reviewId].vendorResponse != response ==>
                && r == Ok(old(reviews)[reviewId].(vendorResponse := response, updatedAt := old(clock)))
                && reviews == old(reviews)[reviewId := r.value]
    {
      if reviewId !in reviews {
        return Err(404, "Review not found");
      }
      if reviews[reviewId].vendorResponse == response {
        return Ok(reviews[reviewId]);
      }
      var saved := reviews[reviewId].(vendorResponse := response, updatedAt := clock);
      reviews := reviews[reviewId := saved];
      clock := clock + 1;
      r := Ok(saved);
    }
  }
}

/** The Review document (backend/models/Review.js): references, rating bounds and defaults. */
module ReviewModel {
  import opened Common

  const MinRating: int := 1
  const MaxRating: int := 5

  datatype Review = Review(
    id: Id,
    customer: Id,
    vendor: Id,
    order: Id,
    rating: int,
    comment: string,
    image: Option<string>,
    vendorResponse: string,
    createdAt: nat,
    updatedAt: nat)

  /** The fields passed to `new Review({...})`. */
  datatype ReviewDraft = ReviewDraft(
    customer: Id,
    vendor: Id,
    order: Id,
    rating: Option<int>,
    comment: string,
    image: Option<string>)

  predicate DraftValid(d: ReviewDraft)
  {
    && Present(d.customer)
    && Present(d.vendor)
    && Present(d.order)
    && d.rating.Some?
    && MinRating <= d.rating.value <= MaxRating
    && Present(d.comment)
  }

  /** Validation on `review.save()`; a new review starts without a vendor response. */
  function Validate(id: Id, d: ReviewDraft, now: nat): (r: Result<Review>)
    ensures r.Ok? <==> DraftValid(d)
    ensures r.Err? ==> r.code == 500
    ensures r.Ok? ==> && r.value.id == id
                      && r.value.customer == d.customer
                      && r.value.vendor == d.vendor
                      && r.value.order == d.order
                      && MinRating <= r.value.rating <= MaxRating
                      && Some(r.value.rating) == d.rating
                      && r.value.comment == d.comment
                      && r.value.image == d.image
                      && r.value.vendorResponse == ""
                      && r.value.createdAt == now == r.value.updatedAt
  {
    if DraftValid(d) then
      Ok(Review(id, d.customer, d.vendor, d.order, d.rating.value, d.comment, d.image, "", now, now))
    else
      Err(500, "Review validation failed")
  }
}

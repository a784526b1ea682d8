/** service/ReviewService.java over model/Review.java: customers review the
    bookings they completed, one review per booking. */
module Reviews {
  import opened Wrappers
  import opened Ids
  import opened Events
  import opened BookingModel
  import PS = ProviderServiceModel

  /** One row of `REVIEWS`. Customer, service and booking are NOT NULL
      references, and BOOKING_ID is unique. */
  datatype Review = Review(
    id: ReviewId,
    customerId: CustomerId,
    serviceId: ServiceId,
    bookingId: BookingId,
    rating: int,
    comment: Option<string>,
    createdAt: Instant)

  type ReviewTable = map<ReviewId, Review>

  /** Rows are keyed by their id, and no two rows share a booking. */
  predicate ReviewsValid(t: ReviewTable) {
    && (forall id :: id in t ==> t[id].id == id)
    && (forall a, b :: a in t && b in t && t[a].bookingId == t[b].bookingId ==> a == b)
  }

  /** The reviews of booking `b`: what booking.getReview() reads through the
      inverse side of the one-to-one link. */
  function ReviewsOfBooking(t: ReviewTable, b: BookingId): set<ReviewId> {
    set id | id in t && t[id].bookingId == b
  }

  /** Some review points at booking `b`. */
  predicate HasReview(t: ReviewTable, b: BookingId) {
    exists id :: id in t && t[id].bookingId == b
  }

  lemma HasReviewIff(t: ReviewTable, b: BookingId)
    ensures HasReview(t, b) <==> ReviewsOfBooking(t, b) != {}
  {
    if HasReview(t, b) {
      var id :| id in t && t[id].bookingId == b;
      assert id in ReviewsOfBooking(t, b);
    } else {
      assert forall x :: x !in ReviewsOfBooking(t, b);
    }
  }

  /** The unique BOOKING_ID column: a booking links to at most one review. */
  lemma AtMostOneReviewPerBooking(t: ReviewTable, b: BookingId)
    requires ReviewsValid(t)
    ensures |ReviewsOfBooking(t, b)| <= 1
  {
    HasReviewIff(t, b);
    if HasReview(t, b) {
      var a :| a in t && t[a].bookingId == b;
      forall x | x in ReviewsOfBooking(t, b)
        ensures x == a
      {
        assert x in t && t[x].bookingId == b;
      }
      assert a in ReviewsOfBooking(t, b);
      assert ReviewsOfBooking(t, b) == {a};
    }
  }

  /** Long.intValue(): the low 32 bits, read as a signed int. */
  function IntValue(x: int): (r: int)
    ensures -0x8000_0000 <= r < 0x8000_0000
    ensures -0x8000_0000 <= x < 0x8000_0000 ==> r == x
    ensures (r - x) % 0x1_0000_0000 == 0
  {
    var low := x % 0x1_0000_0000;
    if low < 0x8000_0000 then low else low - 0x1_0000_0000
  }

  /** ReviewDTO: rating 1..5 is enforced by bean validation before the service runs. */
  datatype ReviewRequest = ReviewRequest(
    customerId: int,
    serviceId: ServiceId,
    bookingId: BookingId,
    rating: int,
    comment: Option<string>)

  datatype ReviewError =
    | BookingNotFound(bookingId: BookingId)
    | CustomerNotFound(customerId: int)
    | NotBookingsCustomer
    | ServiceNotFound(serviceId: ServiceId)
    | ServiceMismatch
    | NotCompleted
    | AlreadyReviewed
    | ReviewNotFound(reviewId: ReviewId)
    | NotOwner
    | NotificationFailed

  /** createReview's checks, first failure first: booking, customer (looked
      up by the request id's intValue), customer owns the booking, service,
      service is the booking's, booking COMPLETED, no review yet. */
  function CreateReviewCheck(req: ReviewRequest, bookings: map<BookingId, ServiceBooking>,
                             customers: set<CustomerId>, catalog: PS.Catalog, reviews: ReviewTable): (r: Outcome<ReviewError>)
    ensures r == Pass <==>
      && req.bookingId in bookings
      && IntValue(req.customerId) in customers
      && bookings[req.bookingId].customerId == IntValue(req.customerId)
      && req.serviceId in catalog
      && bookings[req.bookingId].serviceId == req.serviceId
      && bookings[req.bookingId].status == Completed
      && ReviewsOfBooking(reviews, req.bookingId) == {}
    ensures req.bookingId !in bookings ==> r == Fail(BookingNotFound(req.bookingId))
    ensures (
      && req.bookingId in bookings
      && IntValue(req.customerId) !in customers)
      ==> r == Fail(CustomerNotFound(req.customerId))
    ensures (
      && req.bookingId in bookings
      && IntValue(req.customerId) in customers
      && bookings[req.bookingId].customerId != IntValue(req.customerId))
      ==> r == Fail(NotBookingsCustomer)
    ensures (
      && req.bookingId in bookings
      && IntValue(req.customerId) in customers
      && bookings[req.bookingId].customerId == IntValue(req.customerId)
      && req.serviceId !in catalog)
      ==> r == Fail(ServiceNotFound(req.serviceId))
    ensures (
      && req.bookingId in bookings
      && IntValue(req.customerId) in customers
      && bookings[req.bookingId].customerId == IntValue(req.customerId)
      && req.serviceId in catalog
      && bookings[req.bookingId].serviceId != req.serviceId)
      ==> r == Fail(ServiceMismatch)
    ensures (
      && req.bookingId in bookings
      && IntValue(req.customerId) in customers
      && bookings[req.bookingId].customerId == IntValue(req.customerId)
      && req.serviceId in catalog
      && bookings[req.bookingId].serviceId == req.serviceId
      && bookings[req.bookingId].status != Completed)
      ==> r == Fail(NotCompleted)
    ensures (
      && req.bookingId in bookings
      && IntValue(req.customerId) in customers
      && bookings[req.bookingId].customerId == IntValue(req.customerId)
      && req.serviceId in catalog
      && bookings[req.bookingId].serviceId == req.serviceId
      && bookings[req.bookingId].status == Completed
      && ReviewsOfBooking(reviews, req.bookingId) != {})
      ==> r == Fail(AlreadyReviewed)
  {
    if req.bookingId !in bookings then Fail(BookingNotFound(req.bookingId))
    else
      var booking := bookings[req.bookingId];
      var customerId := IntValue(req.customerId);
      if customerId !in customers then Fail(CustomerNotFound(req.customerId))
      else if booking.customerId != customerId then Fail(NotBookingsCustomer)
      else if req.serviceId !in catalog then Fail(ServiceNotFound(req.serviceId))
      else if booking.serviceId != req.serviceId then Fail(ServiceMismatch)
      else if booking.status != Completed then Fail(NotCompleted)
      else if HasReview(reviews, req.bookingId) then HasReviewIff(reviews, req.bookingId); Fail(AlreadyReviewed)
      else HasReviewIff(reviews, req.bookingId); Pass
  }

  /** The review createReview saves under `id`. */
  function SavedReview(id: ReviewId, req: ReviewRequest, now: Instant): Review {
    Review(id, IntValue(req.customerId), req.serviceId, req.bookingId, req.rating, req.comment, now)
  }

  /** Saving a review that passed the checks keeps one review per booking,
      links the booking to exactly that review, and a second request for the
      same booking is then rejected. */
  lemma SecondReviewRejected(req: ReviewRequest, bookings: map<BookingId, ServiceBooking>, customers: set<CustomerId>,
                             catalog: PS.Catalog, reviews: ReviewTable, id: ReviewId, now: Instant, again: ReviewRequest)
    requires ReviewsValid(reviews) && id !in reviews
    requires CreateReviewCheck(req, bookings, customers, catalog, reviews) == Pass
    requires again.bookingId == req.bookingId
    ensures var after := reviews[id := SavedReview(id, req, now)];
      && ReviewsValid(after)
      && ReviewsOfBooking(after, req.bookingId) == {id}
      && CreateReviewCheck(again, bookings, customers, catalog, after).Fail?
  {
    var after := reviews[id := SavedReview(id, req, now)];
    assert id in ReviewsOfBooking(after, req.bookingId);
    assert ReviewsOfBooking(after, again.bookingId) != {};
  }

  /** updateReview as a table change: the review must exist and belong to
      the caller; only its rating and comment change. */
  function EditReview(t: ReviewTable, id: ReviewId, customerId: int, rating: int, comment: Option<string>): (r: Result<ReviewTable, ReviewError>)
    ensures id !in t ==> r == Err(ReviewNotFound(id))
    ensures id in t && t[id].customerId != customerId ==> r == Err(NotOwner)
    ensures r.Ok? ==>
      && id in t && t[id].customerId == customerId
      && r.value.Keys == t.Keys
      && (forall k :: k in t && k != id ==> r.value[k] == t[k])
      && r.value[id].rating == rating && r.value[id].comment == comment
      && r.value[id].(rating := t[id].rating, comment := t[id].comment) == t[id]
    ensures r.Ok? && ReviewsValid(t) ==> ReviewsValid(r.value)
  {
    if id !in t then Err(ReviewNotFound(id))
    else if t[id].customerId != customerId then Err(NotOwner)
    else Ok(t[id := t[id].(rating := rating, comment := comment)])
  }

  /** deleteReview as a table change: the review must exist and belong to the
      caller, whose id is compared through intValue; the row goes, and with
      it the booking's link. */
  function RemoveReview(t: ReviewTable, id: ReviewId, customerId: int): (r: Result<ReviewTable, ReviewError>)
    ensures id !in t ==> r == Err(ReviewNotFound(id))
    ensures id in t && t[id].customerId != IntValue(customerId) ==> r == Err(NotOwner)
    ensures r.Ok? ==> id in t && r.value == t - {id}
    ensures r.Ok? && ReviewsValid(t) ==> ReviewsValid(r.value) && ReviewsOfBooking(r.value, t[id].bookingId) == {}
  {
    if id !in t then Err(ReviewNotFound(id))
    else if t[id].customerId != IntValue(customerId) then Err(NotOwner)
    else
      assert ReviewsValid(t) ==> forall k :: k in t && k != id ==> t[k].bookingId != t[id].bookingId;
      Ok(t - {id})
  }

  /** existsByBookingId: an error for an unknown booking, otherwise whether
      that booking has a review. */
  function ExistsByBookingId(bookings: map<BookingId, ServiceBooking>, reviews: ReviewTable, bookingId: BookingId): (r: Result<bool, ReviewError>)
    ensures bookingId !in bookings <==> r == Err(BookingNotFound(bookingId))
    ensures r.Ok? ==> (r.value <==> ReviewsOfBooking(reviews, bookingId) != {})
  {
    if bookingId !in bookings then Err(BookingNotFound(bookingId))
    else
      HasReviewIff(reviews, bookingId);
      Ok(HasReview(reviews, bookingId))
  }

  /** The REVIEWS table. */
  class ReviewRepository {
    var reviews: ReviewTable
    var nextId: ReviewId

    ghost predicate Valid()
      reads this
    {
      ReviewsValid(reviews) && forall id :: id in reviews ==> id < nextId
    }

    constructor ()
      ensures Valid() && reviews == map[]
    {
      reviews := map[];
      nextId := 1;
    }
  }

  class ReviewService {
    const repo: ReviewRepository
    const log: EventLog

    constructor (repo: ReviewRepository, log: EventLog)
      ensures this.repo == repo && this.log == log
    {
      this.repo := repo;
      this.log := log;
    }

    /** createReview. The service runs without a transaction: when the
        NEW_REVIEW notice to the service's provider throws, the review is
        already saved and the caller still gets the error. */
    method CreateReview(req: ReviewRequest, bookings: map<BookingId, ServiceBooking>, customers: set<CustomerId>,
                        catalog: PS.Catalog, now: Instant, noticeFails: bool) returns (r: Result<ReviewId, ReviewError>)
      requires repo.Valid() && PS.CatalogValid(catalog)
      modifies repo, log
      ensures repo.Valid()
      ensures var check := CreateReviewCheck(req, bookings, customers, catalog, old(repo.reviews));
        if check.Fail? then
          r == Err(check.error) && repo.reviews == old(repo.reviews) && repo.nextId == old(repo.nextId)
          && log.events == old(log.events)
        else
          var id := old(repo.nextId);
          && repo.reviews == old(repo.reviews)[id := SavedReview(id, req, now)]
          && repo.nextId == id + 1
          && ReviewsOfBooking(repo.reviews, req.bookingId) == {id}
          && (noticeFails ==> r == Err(NotificationFailed) && log.events == old(log.events))
          && (!noticeFails ==>
                r == Ok(id)
                && log.events == old(log.events) + [Notified(catalog[req.serviceId].serviceProvider.value, ServiceProvider, NewReview)])
    {
      var check := CreateReviewCheck(req, bookings, customers, catalog, repo.reviews);
      if check.Fail? {
        r := Err(check.error);
        return;
      }
      var id := repo.nextId;
      SecondReviewRejected(req, bookings, customers, catalog, repo.reviews, id, now, req);
      repo.reviews := repo.reviews[id := SavedReview(id, req, now)];
      repo.nextId := id + 1;
      if noticeFails {
        r := Err(NotificationFailed);
        return;
      }
      log.events := log.events + [Notified(catalog[req.serviceId].serviceProvider.value, ServiceProvider, NewReview)];
      r := Ok(id);
    }

    /** updateReview. */
    method UpdateReview(id: ReviewId, customerId: int, rating: int, comment: Option<string>) returns (r: Outcome<ReviewError>)
      requires repo.Valid()
      modifies repo
      ensures repo.Valid() && repo.nextId == old(repo.nextId)
      ensures var e := EditReview(old(repo.reviews), id, customerId, rating, comment);
        if e.Ok? then r == Pass && repo.reviews == e.value
        else r == Fail(e.error) && repo.reviews == old(repo.reviews)
    {
      if id !in repo.reviews {
        r := Fail(ReviewNotFound(id));
        return;
      }
      var existing := repo.reviews[id];
      if existing.customerId != customerId {
        r := Fail(NotOwner);
        return;
      }
      repo.reviews := repo.reviews[id := existing.(rating := rating, comment := comment)];
      r := Pass;
    }

    /** deleteReview. */
    method DeleteReview(id: ReviewId, customerId: int) returns (r: Outcome<ReviewError>)
      requires repo.Valid()
      modifies repo
      ensures repo.Valid() && repo.nextId == old(repo.nextId)
      ensures var e := RemoveReview(old(repo.reviews), id, customerId);
        if e.Ok? then r == Pass && repo.reviews == e.value
        else r == Fail(e.error) && repo.reviews == old(repo.reviews)
    {
      if id !in repo.reviews {
        r := Fail(ReviewNotFound(id));
        return;
      }
      if repo.reviews[id].customerId != IntValue(customerId) {
        r := Fail(NotOwner);
        return;
      }
      repo.reviews := repo.reviews - {id};
      r := Pass;
    }
  }
}

/** model/ServiceBooking.java and model/LoyaltyTracker.java: the two entities of
    the booking lifecycle, with their field defaults and JPA lifecycle hooks. */
module BookingModel {
  import opened Wrappers
  import opened Ids

  /** model/BookingStatus.java. */
  datatype BookingStatus = Pending | Confirmed | Completed | Cancelled | Rejected

  /** One row of `service_bookings`. The booking's review link is the inverse
      side of Review.booking (mappedBy), so it is not a column here: it is
      derived from the review table (Reviews.ReviewsOfBooking). */
  datatype ServiceBooking = ServiceBooking(
    id: Option<BookingId>,
    customerId: CustomerId,
    serviceId: ServiceId,
    bookingDateTime: Instant,
    bookingNotes: Option<string>,
    status: BookingStatus,
    statusComment: Option<string>,
    discountApplied: bool,
    discountPercentage: Option<real>,
    originalPrice: Option<real>,
    discountedPrice: Option<real>,
    createdAt: Option<Instant>,
    updatedAt: Option<Instant>)

  /** `new ServiceBooking()` at instant `now`, before its references are set:
      bookingDateTime defaults to the construction instant, status to PENDING,
      discountApplied to false; the price snapshot and timestamps are null. */
  function NewServiceBooking(customerId: CustomerId, serviceId: ServiceId, now: Instant): ServiceBooking {
    ServiceBooking(None, customerId, serviceId, now, None, Pending, None, false, None, None, None, None, None)
  }

  /** @PrePersist onCreate: both timestamps become `now`. */
  function BookingOnCreate(b: ServiceBooking, now: Instant): ServiceBooking {
    b.(createdAt := Some(now), updatedAt := Some(now))
  }

  /** @PreUpdate onUpdate: only updatedAt is refreshed. */
  function BookingOnUpdate(b: ServiceBooking, now: Instant): ServiceBooking {
    b.(updatedAt := Some(now))
  }

  lemma NewBookingDefaults(c: CustomerId, s: ServiceId, now: Instant)
    ensures var b := NewServiceBooking(c, s, now);
      && b.status == Pending && !b.discountApplied && b.bookingDateTime == now
      && b.discountPercentage == None && b.originalPrice == None && b.discountedPrice == None
  {
  }

  lemma BookingHooks(b: ServiceBooking, now: Instant, later: Instant)
    ensures BookingOnCreate(b, now).createdAt == BookingOnCreate(b, now).updatedAt == Some(now)
    ensures var u := BookingOnUpdate(BookingOnCreate(b, now), later);
      u.createdAt == Some(now) && u.updatedAt == Some(later)
      && u.(updatedAt := None, createdAt := None) == b.(updatedAt := None, createdAt := None)
  {
  }

  /** One row of `loyalty_trackers`; (customerId, providerId) is a unique key. */
  datatype LoyaltyTracker = LoyaltyTracker(
    customerId: CustomerId,
    providerId: ProviderId,
    completedBookingsCount: int,
    createdAt: Option<Instant>,
    updatedAt: Option<Instant>)

  /** `new LoyaltyTracker()` with its references set: the count defaults to 0. */
  function NewTracker(c: CustomerId, p: ProviderId): LoyaltyTracker {
    LoyaltyTracker(c, p, 0, None, None)
  }

  function TrackerOnCreate(t: LoyaltyTracker, now: Instant): LoyaltyTracker {
    t.(createdAt := Some(now), updatedAt := Some(now))
  }

  function TrackerOnUpdate(t: LoyaltyTracker, now: Instant): LoyaltyTracker {
    t.(updatedAt := Some(now))
  }
}

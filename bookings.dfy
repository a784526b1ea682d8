/** service/ServiceBookingService.java: creating bookings and moving them
    through their statuses, with the loyalty ledger called where the count
    changes. */
module Bookings {
  import opened Wrappers
  import opened Ids
  import opened Events
  import opened BookingModel
  import opened Loyalty
  import PS = ProviderServiceModel

  /** The exceptions the service throws, one constructor per throw site. */
  datatype BookingError =
    | CustomerIdOutOfRange(customerId: CustomerId) // ArithmeticException from Math.toIntExact
    | CustomerNotFound(customerId: CustomerId)   // UserValidationException
    | ServiceNotFound(serviceId: ServiceId)      // ProviderServiceException
    | ServiceNotApproved                         // IllegalArgumentException
    | BookingNotFound(bookingId: BookingId)      // BookingNotFoundException
    | TerminalStatus(current: BookingStatus)     // "Cannot change status of a ... booking"
    | MustConfirmFirst                           // "Cannot mark a pending booking as completed ..."
    | NotificationFailed                         // an exception out of createNotification

  /** Math.toIntExact succeeds exactly on the range of a Java int; the
      request's customer id is a Long. */
  predicate InIntRange(x: int) {
    -0x8000_0000 <= x < 0x8000_0000
  }

  /** ServiceBookingDTO as createBooking reads it. */
  datatype BookingRequest = BookingRequest(
    customerId: CustomerId,
    providerServiceId: ServiceId,
    bookingDateTime: Instant,
    bookingNotes: Option<string>,
    applyLoyaltyDiscount: Option<bool>)

  // ---------------------------------------------------------------------
  // The status transition check.

  /** validateStatusTransition: leaving CANCELLED or COMPLETED is refused,
      and so is PENDING -> COMPLETED; everything else is accepted. */
  function ValidateStatusTransition(current: BookingStatus, requested: BookingStatus): (r: Outcome<BookingError>)
    ensures r.Fail? <==> current in {Cancelled, Completed} || (current == Pending && requested == Completed)
    ensures r.Fail? && current in {Cancelled, Completed} ==> r.error == TerminalStatus(current)
    ensures r.Fail? && current !in {Cancelled, Completed} ==> r.error == MustConfirmFirst
  {
    if current == Cancelled || current == Completed then Fail(TerminalStatus(current))
    else if current == Pending && requested == Completed then Fail(MustConfirmFirst)
    else Pass
  }

  predicate TransitionAllowed(current: BookingStatus, requested: BookingStatus) {
    ValidateStatusTransition(current, requested).Pass?
  }

  /** Every accepted (from, to) pair, listed out: 4 from PENDING and all 5
      from CONFIRMED and from REJECTED. */
  const AcceptedTransitions: set<(BookingStatus, BookingStatus)> :=
    {(Pending, Pending), (Pending, Confirmed), (Pending, Cancelled), (Pending, Rejected),
     (Confirmed, Pending), (Confirmed, Confirmed), (Confirmed, Completed), (Confirmed, Cancelled), (Confirmed, Rejected),
     (Rejected, Pending), (Rejected, Confirmed), (Rejected, Completed), (Rejected, Cancelled), (Rejected, Rejected)}

  /** The transitions of the booking state machine as designed: PENDING to
      CONFIRMED, REJECTED or CANCELLED; CONFIRMED to COMPLETED or CANCELLED. */
  const DesignedTransitions: set<(BookingStatus, BookingStatus)> :=
    {(Pending, Confirmed), (Pending, Rejected), (Pending, Cancelled), (Confirmed, Completed), (Confirmed, Cancelled)}

  lemma TransitionTable(current: BookingStatus, requested: BookingStatus)
    ensures TransitionAllowed(current, requested) <==> (current, requested) in AcceptedTransitions
  {
  }

  /** The check accepts every designed transition, and more: REJECTED is not
      terminal and CONFIRMED may go back to PENDING. */
  lemma TransitionsVersusDesign()
    ensures forall t :: t in DesignedTransitions ==> TransitionAllowed(t.0, t.1)
    ensures TransitionAllowed(Rejected, Completed) && (Rejected, Completed) !in DesignedTransitions
    ensures TransitionAllowed(Confirmed, Pending) && (Confirmed, Pending) !in DesignedTransitions
  {
  }

  /** How many times the ledger is asked to count a booking that starts in
      `s` and then receives the status requests in `requests`, in order: once
      per accepted request for COMPLETED. */
  function LedgerRuns(s: BookingStatus, requests: seq<BookingStatus>): nat
    decreases |requests|
  {
    if requests == [] then 0
    else if TransitionAllowed(s, requests[0])
    then (if requests[0] == Completed then 1 else 0) + LedgerRuns(requests[0], requests[1..])
    else LedgerRuns(s, requests[1..])
  }

  /** A completed booking stays completed: no later request is accepted. */
  lemma {:induction false} CompletedIsFinal(requests: seq<BookingStatus>)
    ensures LedgerRuns(Completed, requests) == 0
    decreases |requests|
  {
    if requests != [] {
      CompletedIsFinal(requests[1..]);
    }
  }

  /** No double counting: whatever requests arrive, the ledger counts a
      booking at most once, and never one that is already completed. */
  lemma {:induction false} LedgerRunsAtMostOnce(s: BookingStatus, requests: seq<BookingStatus>)
    ensures LedgerRuns(s, requests) <= 1
    ensures s == Completed ==> LedgerRuns(s, requests) == 0
    decreases |requests|
  {
    if requests == [] {
    } else if TransitionAllowed(s, requests[0]) {
      if requests[0] == Completed {
        CompletedIsFinal(requests[1..]);
      } else {
        LedgerRunsAtMostOnce(requests[0], requests[1..]);
      }
    } else {
      LedgerRunsAtMostOnce(s, requests[1..]);
    }
  }

  // ---------------------------------------------------------------------
  // What a request does besides changing the booking.

  /** The price snapshot a saved booking carries: the service price is always
      recorded; a discount fixes the percentage and the discounted price,
      otherwise the booking pays the full price. */
  predicate SnapshotConsistent(b: ServiceBooking) {
    && b.originalPrice.Some?
    && (if b.discountApplied
        then b.discountPercentage == Some(DISCOUNT_PERCENTAGE)
             && b.discountedPrice == Some(CalculateDiscountedPrice(b.originalPrice))
        else b.discountPercentage == None && b.discountedPrice == b.originalPrice)
  }

  /** The notifications and e-mail of a successful createBooking, in order. The
      discount notifications come first; of the confirmation block, the e-mail
      is handed off asynchronously, and when a notification fails the rest of
      the block is skipped. */
  function CreationEvents(c: CustomerId, p: ProviderId, applied: bool, noticeFails: bool): seq<Event> {
    DiscountNotices(c, p, applied) + [EmailedUser(BookingConfirmationEmail, c)] + CreatedNotices(c, p, noticeFails)
  }

  /** The two notices of a discounted booking. */
  function DiscountNotices(c: CustomerId, p: ProviderId, applied: bool): seq<Event> {
    if applied then [Notified(c, Customer, LoyaltyDiscount), Notified(p, ServiceProvider, BookingCreated)] else []
  }

  /** The BOOKING_CREATED notices to customer and provider, none when the
      notification service throws. */
  function CreatedNotices(c: CustomerId, p: ProviderId, noticeFails: bool): seq<Event> {
    if noticeFails then [] else [Notified(c, Customer, BookingCreated), Notified(p, ServiceProvider, BookingCreated)]
  }

  /** The statuses whose update sends a notification. */
  predicate Notifies(s: BookingStatus) {
    s in {Completed, Confirmed, Cancelled}
  }

  /** The notifications of an accepted status update, keyed on the new status;
      `eligibleNow` says the ledger just brought the pair to the threshold. */
  function StatusEvents(s: BookingStatus, c: CustomerId, p: ProviderId, eligibleNow: bool): seq<Event> {
    match s
    case Completed =>
      (if eligibleNow then [Notified(c, Customer, LoyaltyDiscount)] else []) + [Notified(c, Customer, BookingCompleted)]
    case Confirmed => [Notified(c, Customer, BookingConfirmed)]
    case Cancelled => [Notified(c, Customer, BookingCancelled), Notified(p, ServiceProvider, BookingCancelled)]
    case _ => []
  }

  /** The completion e-mail of lines 241-275 is never sent: the COMPLETED
      branch has returned before it. */
  lemma NoCompletionEmail(s: BookingStatus, c: CustomerId, p: ProviderId, eligibleNow: bool)
    ensures forall e :: e in StatusEvents(s, c, p, eligibleNow) ==> e.Notified?
    ensures Notifies(s) <==> |StatusEvents(s, c, p, eligibleNow)| > 0
  {
  }

  /** The tracker table after an accepted status update of booking `b` (in its
      state before the update) of a service offered by `p`. */
  function LedgerEffect(m: TrackerTable, b: ServiceBooking, newStatus: BookingStatus, p: ProviderId,
                        preserveLoyalty: bool, preserveFails: bool, now: Instant): TrackerTable {
    if newStatus == Completed && !b.discountApplied then Incremented(m, b.customerId, p, now)
    else if newStatus == Cancelled && b.discountApplied && preserveLoyalty && !preserveFails
    then Preserved(m, b.customerId, p, now)
    else m
  }

  /** A status update touches only the booking's own (customer, provider)
      count: completing an undiscounted booking adds one, cancelling a
      discounted one with preserveLoyalty raises a count below 4 to exactly 4
      (so the customer stays eligible), and
      every other update leaves the count alone. */
  lemma LedgerEffectCounts(m: TrackerTable, b: ServiceBooking, newStatus: BookingStatus, p: ProviderId,
                           preserveLoyalty: bool, preserveFails: bool, now: Instant)
    requires TableValid(m)
    ensures var r := LedgerEffect(m, b, newStatus, p, preserveLoyalty, preserveFails, now);
      var k := (b.customerId, p);
      && TableValid(r)
      && (forall k' :: k' != k ==> CountIn(r, k') == CountIn(m, k'))
      && (newStatus == Completed && !b.discountApplied ==> CountIn(r, k) == CountIn(m, k) + 1)
      && (newStatus == Cancelled && b.discountApplied && preserveLoyalty && !preserveFails ==>
            && CountIn(r, k) == (if CountIn(m, k) < BOOKINGS_REQUIRED_FOR_DISCOUNT
                                 then BOOKINGS_REQUIRED_FOR_DISCOUNT else CountIn(m, k))
            && Eligible(CountIn(r, k)))
      && (newStatus != Completed && newStatus != Cancelled ==> r == m)
  {
    var c := b.customerId;
    if newStatus == Completed && !b.discountApplied {
      IncrementedCount(m, c, p, now);
    } else if newStatus == Cancelled && b.discountApplied && preserveLoyalty && !preserveFails {
      PreservedEffect(m, c, p, now, now);
      if CountIn(m, (c, p)) < BOOKINGS_REQUIRED_FOR_DISCOUNT {
        WithCountEffect(m, c, p, BOOKINGS_REQUIRED_FOR_DISCOUNT, now);
      } else {
        TouchedEffect(m, c, p, now, now);
      }
    }
  }

  // ---------------------------------------------------------------------
  // The service object.

  class ServiceBookingService {
    /** The service_bookings table. */
    var bookings: map<BookingId, ServiceBooking>
    /** The id the next saved booking gets. */
    var nextId: BookingId
    const loyalty: LoyaltyService
    const log: EventLog

    ghost predicate Valid()
      reads this, loyalty
    {
      && loyalty.Valid()
      && loyalty.log == log
      && (forall id :: id in bookings ==>
            bookings[id].id == Some(id) && id < nextId && SnapshotConsistent(bookings[id]))
    }

    /** Nothing changed: what a request that throws leaves behind once its
        transaction has rolled back. */
    twostate predicate Untouched()
      reads this, loyalty, log
    {
      && bookings == old(bookings) && nextId == old(nextId)
      && loyalty.trackers == old(loyalty.trackers)
      && log.events == old(log.events)
    }

    constructor (loyalty: LoyaltyService)
      requires loyalty.Valid()
      ensures Valid() && bookings == map[] && nextId == 1
      ensures this.loyalty == loyalty && log == loyalty.log
    {
      bookings := map[];
      nextId := 1;
      this.loyalty := loyalty;
      log := loyalty.log;
    }

    /** getBookingById. */
    function GetBookingById(id: BookingId): (r: Result<ServiceBooking, BookingError>)
      reads this
      ensures r.Ok? <==> id in bookings
      ensures r.Ok? ==> r.value == bookings[id]
      ensures r.Err? ==> r.error == BookingNotFound(id)
    {
      if id in bookings then Ok(bookings[id]) else Err(BookingNotFound(id))
    }

    /** createBooking. `customers` are the stored customer ids and `services`
        the catalog; `noticeFails` says the notification service throws. */
    method CreateBooking(request: BookingRequest, customers: set<CustomerId>, services: PS.Catalog,
                         now: Instant, noticeFails: bool)
      returns (r: Result<ServiceBooking, BookingError>)
      requires Valid() && PS.CatalogValid(services)
      modifies this, loyalty, log
      ensures Valid()
      ensures !InIntRange(request.customerId) ==>
        r == Err(CustomerIdOutOfRange(request.customerId)) && Untouched()
      ensures InIntRange(request.customerId) && request.customerId !in customers ==>
        r == Err(CustomerNotFound(request.customerId)) && Untouched()
      ensures InIntRange(request.customerId) && request.customerId in customers && request.providerServiceId !in services ==>
        r == Err(ServiceNotFound(request.providerServiceId)) && Untouched()
      ensures InIntRange(request.customerId) && request.customerId in customers && request.providerServiceId in services
              && services[request.providerServiceId].status != PS.Approved ==>
        r == Err(ServiceNotApproved) && Untouched()
      ensures InIntRange(request.customerId) && request.customerId in customers && request.providerServiceId in services
              && services[request.providerServiceId].status == PS.Approved ==>
        var s := services[request.providerServiceId];
        var c := request.customerId;
        var p := s.serviceProvider.value;
        var apply := Eligible(old(loyalty.Count(c, p))) && request.applyLoyaltyDiscount == Some(true);
        if apply && noticeFails then
          r == Err(NotificationFailed) && Untouched()
        else
          && r.Ok?
          && r.value.id == Some(old(nextId))
          && r.value.customerId == c && r.value.serviceId == request.providerServiceId
          && r.value.bookingDateTime == request.bookingDateTime
          && r.value.bookingNotes == request.bookingNotes
          && r.value.status == Pending && r.value.statusComment == None
          && r.value.discountApplied == apply
          && r.value.originalPrice == s.price
          && (apply ==> r.value.discountPercentage == Some(DISCOUNT_PERCENTAGE)
                        && r.value.discountedPrice == Some(CalculateDiscountedPrice(s.price)))
          && (!apply ==> r.value.discountPercentage == None && r.value.discountedPrice == s.price)
          && r.value.createdAt == Some(now) && r.value.updatedAt == Some(now)
          && bookings == old(bookings)[old(nextId) := r.value]
          && nextId == old(nextId) + 1
          && loyalty.trackers == (if apply then Reset(old(loyalty.trackers), c, p, now)
                                  else Touched(old(loyalty.trackers), c, p, now))
          && log.events == old(log.events) + CreationEvents(c, p, apply, noticeFails)
    {
      if !InIntRange(request.customerId) {
        r := Err(CustomerIdOutOfRange(request.customerId));
        return;
      }
      if request.customerId !in customers {
        r := Err(CustomerNotFound(request.customerId));
        return;
      }
      if request.providerServiceId !in services {
        r := Err(ServiceNotFound(request.providerServiceId));
        return;
      }
      var s := services[request.providerServiceId];
      if s.status != PS.Approved {
        r := Err(ServiceNotApproved);
        return;
      }
      var c := request.customerId;
      var p := s.serviceProvider.value;
      // A failing discount notification rolls the whole transaction back;
      // the model settles that before it touches any state.
      if noticeFails && Eligible(loyalty.Count(c, p)) && request.applyLoyaltyDiscount == Some(true) {
        r := Err(NotificationFailed);
        return;
      }
      var booking := NewServiceBooking(c, request.providerServiceId, now);
      booking := booking.(bookingDateTime := request.bookingDateTime, bookingNotes := request.bookingNotes,
                          status := Pending);
      ghost var events0 := log.events;
      var eligible := loyalty.ShouldApplyDiscount(c, p, now);
      var apply := eligible && request.applyLoyaltyDiscount.Some? && request.applyLoyaltyDiscount.value;
      if apply {
        booking := booking.(discountApplied := true, discountPercentage := Some(DISCOUNT_PERCENTAGE),
                            originalPrice := s.price, discountedPrice := Some(CalculateDiscountedPrice(s.price)));
        log.events := log.events + [Notified(c, Customer, LoyaltyDiscount), Notified(p, ServiceProvider, BookingCreated)];
        loyalty.ResetLoyaltyCounter(c, p, now);
        TouchedEffect(old(loyalty.trackers), c, p, now, now);
      } else {
        booking := booking.(discountApplied := false, originalPrice := s.price, discountedPrice := s.price);
      }
      assert log.events == events0 + DiscountNotices(c, p, apply);
      var saved := Insert(booking, now);
      log.events := log.events + [EmailedUser(BookingConfirmationEmail, c)];
      if !noticeFails {
        log.events := log.events + [Notified(c, Customer, BookingCreated), Notified(p, ServiceProvider, BookingCreated)];
      }
      AppendThree(events0, DiscountNotices(c, p, apply), [EmailedUser(BookingConfirmationEmail, c)], CreatedNotices(c, p, noticeFails));
      r := Ok(saved);
    }

    /** serviceBookingRepository.save of a new row: the next id, stamped by @PrePersist. */
    method Insert(b: ServiceBooking, now: Instant) returns (saved: ServiceBooking)
      requires Valid() && SnapshotConsistent(b)
      modifies this
      ensures Valid()
      ensures saved == BookingOnCreate(b.(id := Some(old(nextId))), now)
      ensures bookings == old(bookings)[old(nextId) := saved] && nextId == old(nextId) + 1
    {
      saved := BookingOnCreate(b.(id := Some(nextId)), now);
      bookings := bookings[nextId := saved];
      nextId := nextId + 1;
    }

    /** updateBookingStatus. `services` is the catalog, through which the
        booking reaches its provider; `noticeFails` says the notification
        service throws and `preserveFails` that preserveLoyaltyDiscount does. */
    method UpdateBookingStatus(bookingId: BookingId, newStatus: BookingStatus, comment: Option<string>,
                               preserveLoyalty: bool, services: PS.Catalog, now: Instant,
                               noticeFails: bool, preserveFails: bool)
      returns (r: Result<ServiceBooking, BookingError>)
      requires Valid() && PS.CatalogValid(services)
      requires bookingId in bookings ==> bookings[bookingId].serviceId in services
      modifies this, loyalty, log
      ensures Valid()
      ensures bookingId !in old(bookings) ==> r == Err(BookingNotFound(bookingId)) && Untouched()
      ensures bookingId in old(bookings) ==>
        var b := old(bookings)[bookingId];
        var check := ValidateStatusTransition(b.status, newStatus);
        var p := services[b.serviceId].serviceProvider.value;
        if check.Fail? then
          r == Err(check.error) && Untouched()
        else if noticeFails && Notifies(newStatus) then
          r == Err(NotificationFailed) && Untouched()
        else
          var updated := b.(status := newStatus, statusComment := comment, updatedAt := Some(now));
          var eligibleNow := newStatus == Completed && !b.discountApplied
                             && old(loyalty.Count(b.customerId, p)) + 1 == BOOKINGS_REQUIRED_FOR_DISCOUNT;
          && r == Ok(updated)
          && bookings == old(bookings)[bookingId := updated]
          && nextId == old(nextId)
          && loyalty.trackers == LedgerEffect(old(loyalty.trackers), b, newStatus, p, preserveLoyalty, preserveFails, now)
          && log.events == old(log.events) + StatusEvents(newStatus, b.customerId, p, eligibleNow)
    {
      if bookingId !in bookings {
        r := Err(BookingNotFound(bookingId));
        return;
      }
      var booking := bookings[bookingId];
      var check := ValidateStatusTransition(booking.status, newStatus);
      if check.Fail? {
        r := Err(check.error);
        return;
      }
      // Each of these statuses sends a notification outside any try block:
      // its failure rolls the transaction back.
      if noticeFails && Notifies(newStatus) {
        r := Err(NotificationFailed);
        return;
      }
      var c := booking.customerId;
      var p := services[booking.serviceId].serviceProvider.value;
      var discounted := booking.discountApplied;
      booking := booking.(status := newStatus, statusComment := comment, updatedAt := Some(now));
      if newStatus == Completed {
        var counted := loyalty.ProcessCompletedBooking(booking, p, now, false);
        log.events := log.events + [Notified(c, Customer, BookingCompleted)];
        booking := BookingOnUpdate(booking, now);
        bookings := bookings[bookingId := booking];
        r := Ok(booking);
        return;
      } else if newStatus == Confirmed {
        log.events := log.events + [Notified(c, Customer, BookingConfirmed)];
      } else if newStatus == Cancelled {
        if discounted && preserveLoyalty {
          // A failure here is caught and logged; the update goes on.
          if !preserveFails {
            loyalty.PreserveLoyaltyDiscount(c, p, now);
          }
        }
        log.events := log.events + [Notified(c, Customer, BookingCancelled), Notified(p, ServiceProvider, BookingCancelled)];
      }
      booking := BookingOnUpdate(booking, now);
      bookings := bookings[bookingId := booking];
      r := Ok(booking);
    }

    /** cancelBooking (deprecated): a cancellation with the comment
        "Cancelled by system" that never preserves the loyalty discount. */
    method CancelBooking(bookingId: BookingId, services: PS.Catalog, now: Instant, noticeFails: bool)
      returns (r: Outcome<BookingError>)
      requires Valid() && PS.CatalogValid(services)
      requires bookingId in bookings ==> bookings[bookingId].serviceId in services
      modifies this, loyalty, log
      ensures Valid()
      ensures r == Pass <==>
        bookingId in old(bookings) && TransitionAllowed(old(bookings)[bookingId].status, Cancelled) && !noticeFails
      ensures r == Pass ==>
        && bookings == old(bookings)[bookingId := old(bookings)[bookingId].(
             status := Cancelled, statusComment := Some("Cancelled by system"), updatedAt := Some(now))]
        && loyalty.trackers == old(loyalty.trackers)
      ensures r.Fail? ==> Untouched()
    {
      var result := UpdateBookingStatus(bookingId, Cancelled, Some("Cancelled by system"), false, services, now, noticeFails, false);
      r := if result.Ok? then Pass else Fail(result.error);
    }
  }
}

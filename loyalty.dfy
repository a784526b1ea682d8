/** service/LoyaltyService.java: the per (customer, provider) loyalty ledger.
    Every fourth completed, undiscounted booking with the same provider earns
    a 20% discount on a later booking; applying the discount resets the count. */
module Loyalty {
  import opened Wrappers
  import opened Ids
  import opened Money
  import opened Events
  import opened BookingModel

  const BOOKINGS_REQUIRED_FOR_DISCOUNT: int := 4
  const DISCOUNT_PERCENTAGE: real := 0.20

  /** A customer has earned the discount once the count reaches the threshold. */
  predicate Eligible(count: int) {
    count >= BOOKINGS_REQUIRED_FOR_DISCOUNT
  }

  /** calculateDiscountedPrice: null prices cost 0; otherwise the price less
      20%, rounded half-up to cents. */
  function CalculateDiscountedPrice(originalPrice: Option<real>): (r: real)
    ensures originalPrice == None ==> r == 0.0
    ensures originalPrice.Some? ==>
      var p := originalPrice.value;
      IsCents(r) && -0.005 <= r - p * (1.0 - DISCOUNT_PERCENTAGE) <= 0.005
  {
    match originalPrice
    case None => 0.0
    case Some(p) => RoundHalfUp2(p - p * DISCOUNT_PERCENTAGE)
  }

  /** On a whole-cent, non-negative price the discount never makes the price
      negative and never raises it. */
  lemma DiscountedPriceBounds(p: real)
    requires IsCents(p) && p >= 0.0
    ensures 0.0 <= CalculateDiscountedPrice(Some(p)) <= p
  {
    var k := (p * 100.0).Floor;
    assert k >= 0;
    var x := p - p * DISCOUNT_PERCENTAGE;
    assert x * 100.0 == 0.8 * (k as real);
    assert x * 100.0 + 0.5 <= (k as real) + 0.5;
    FloorMonotone(x * 100.0 + 0.5, (k as real) + 0.5);
    FloorOfIntPlusHalf(k);
    RoundHalfUpWithin(x, k);
  }

  /** The floor is monotone. */
  lemma FloorMonotone(a: real, b: real)
    requires a <= b
    ensures a.Floor <= b.Floor
  {
  }

  lemma FloorOfIntPlusHalf(k: int)
    ensures ((k as real) + 0.5).Floor == k
  {
  }

  /** Rounding a non-negative amount of at most k cents stays within [0, k cents]. */
  lemma RoundHalfUpWithin(x: real, k: int)
    requires x >= 0.0 && (x * 100.0 + 0.5).Floor <= k
    ensures 0.0 <= RoundHalfUp2(x) <= (k as real) / 100.0
  {
  }

  /** Sample prices: 100.00 -> 80.00, 50.00 -> 40.00, 19.99 -> 15.99 and a
      missing price -> 0. */
  lemma DiscountedPriceExamples()
    ensures CalculateDiscountedPrice(Some(100.0)) == 80.0
    ensures CalculateDiscountedPrice(Some(50.0)) == 40.0
    ensures CalculateDiscountedPrice(Some(19.99)) == 15.99
    ensures CalculateDiscountedPrice(None) == 0.0
  {
    RoundCentsIdentity(80.0);
    RoundCentsIdentity(40.0);
    assert (15.992 * 100.0 + 0.5).Floor == 1599;
  }

  /** Below a cent the rounding can raise the price: 0.007 becomes 0.01. */
  lemma SubCentPriceRoundsUp()
    ensures CalculateDiscountedPrice(Some(0.007)) == 0.01
    ensures CalculateDiscountedPrice(Some(0.007)) > 0.007
  {
    assert (0.0056 * 100.0 + 0.5).Floor == 1;
  }

  // ---------------------------------------------------------------------
  // The loyalty_trackers table and the repository operations on it.

  type Pair = (CustomerId, ProviderId)
  type TrackerTable = map<Pair, LoyaltyTracker>

  /** Every row sits under its own (customer, provider) key — the unique
      constraint — has a non-negative count and has been stamped by @PrePersist. */
  predicate TableValid(m: TrackerTable) {
    forall k :: k in m ==>
      && m[k].customerId == k.0 && m[k].providerId == k.1
      && m[k].completedBookingsCount >= 0
      && m[k].createdAt.Some? && m[k].updatedAt.Some?
  }

  /** The count recorded for a pair; a pair without a row counts 0, which is
      the count its row gets when it is created. */
  function CountIn(m: TrackerTable, k: Pair): int {
    if k in m then m[k].completedBookingsCount else 0
  }

  /** loyaltyTrackerRepository.save: a new row gets both timestamps; an
      existing row is written (and gets a new updatedAt) only when its
      state differs from the stored one, as Hibernate's dirty check does. */
  function SaveTracker(m: TrackerTable, t: LoyaltyTracker, now: Instant): TrackerTable {
    var k := (t.customerId, t.providerId);
    if k !in m then m[k := TrackerOnCreate(t, now)]
    else if m[k] == t then m
    else m[k := TrackerOnUpdate(t, now)]
  }

  /** The table after getOrCreateLoyaltyTracker. */
  function Touched(m: TrackerTable, c: CustomerId, p: ProviderId, now: Instant): TrackerTable {
    if (c, p) in m then m else SaveTracker(m, NewTracker(c, p), now)
  }

  /** getOrCreateLoyaltyTracker followed by setting the count to n and saving. */
  function WithCount(m: TrackerTable, c: CustomerId, p: ProviderId, n: int, now: Instant): TrackerTable {
    var m1 := Touched(m, c, p, now);
    SaveTracker(m1, m1[(c, p)].(completedBookingsCount := n), now)
  }

  /** The table after processCompletedBooking counts a booking. */
  function Incremented(m: TrackerTable, c: CustomerId, p: ProviderId, now: Instant): TrackerTable {
    WithCount(m, c, p, CountIn(m, (c, p)) + 1, now)
  }

  /** The table after resetLoyaltyCounter. */
  function Reset(m: TrackerTable, c: CustomerId, p: ProviderId, now: Instant): TrackerTable {
    WithCount(m, c, p, 0, now)
  }

  /** The table after preserveLoyaltyDiscount: a count below the threshold is
      raised to it, a count at or above it is left alone. */
  function Preserved(m: TrackerTable, c: CustomerId, p: ProviderId, now: Instant): TrackerTable {
    if CountIn(m, (c, p)) < BOOKINGS_REQUIRED_FOR_DISCOUNT
    then WithCount(m, c, p, BOOKINGS_REQUIRED_FOR_DISCOUNT, now)
    else Touched(m, c, p, now)
  }

  /** Setting a count writes exactly that count for the pair, keeps the row's
      identity and creation time, and changes no other pair's row. */
  lemma WithCountEffect(m: TrackerTable, c: CustomerId, p: ProviderId, n: int, now: Instant)
    requires TableValid(m) && n >= 0
    ensures var r := WithCount(m, c, p, n, now);
      && TableValid(r)
      && r.Keys == m.Keys + {(c, p)}
      && CountIn(r, (c, p)) == n
      && r[(c, p)].createdAt == (if (c, p) in m then m[(c, p)].createdAt else Some(now))
      && (forall k :: k in m && k != (c, p) ==> r[k] == m[k])
  {
  }

  /** getOrCreateLoyaltyTracker changes a table at most by adding the pair's
      zero row; asking twice creates nothing more. */
  lemma TouchedEffect(m: TrackerTable, c: CustomerId, p: ProviderId, now: Instant, later: Instant)
    requires TableValid(m)
    ensures var r := Touched(m, c, p, now);
      && TableValid(r)
      && r.Keys == m.Keys + {(c, p)}
      && (forall k :: k in m ==> r[k] == m[k])
      && CountIn(r, (c, p)) == CountIn(m, (c, p))
      && Touched(r, c, p, later) == r
  {
  }

  /** Counting a booking adds exactly one to the pair's count. */
  lemma IncrementedCount(m: TrackerTable, c: CustomerId, p: ProviderId, now: Instant)
    requires TableValid(m)
    ensures TableValid(Incremented(m, c, p, now))
    ensures CountIn(Incremented(m, c, p, now), (c, p)) == CountIn(m, (c, p)) + 1
    ensures forall k :: k != (c, p) ==> CountIn(Incremented(m, c, p, now), k) == CountIn(m, k)
  {
    WithCountEffect(m, c, p, CountIn(m, (c, p)) + 1, now);
  }

  /** Resetting leaves the pair at 0, and resetting again — at any later
      instant — changes nothing, not even updatedAt. */
  lemma {:induction false} ResetIdempotent(m: TrackerTable, c: CustomerId, p: ProviderId, now: Instant, later: Instant)
    requires TableValid(m)
    ensures CountIn(Reset(m, c, p, now), (c, p)) == 0
    ensures Reset(Reset(m, c, p, now), c, p, later) == Reset(m, c, p, now)
  {
    var r := Reset(m, c, p, now);
    WithCountEffect(m, c, p, 0, now);
    assert (c, p) in r && r[(c, p)].completedBookingsCount == 0;
    assert Touched(r, c, p, later) == r;
    assert r[(c, p)].(completedBookingsCount := 0) == r[(c, p)];
  }

  /** Preserving raises a count below the threshold to exactly the threshold
      and leaves any other count alone, so the customer is eligible and the
      count never drops; no other pair's row changes, and preserving again
      changes nothing. */
  lemma PreservedEffect(m: TrackerTable, c: CustomerId, p: ProviderId, now: Instant, later: Instant)
    requires TableValid(m)
    ensures var r := Preserved(m, c, p, now);
      && TableValid(r)
      && CountIn(r, (c, p)) == (if CountIn(m, (c, p)) < BOOKINGS_REQUIRED_FOR_DISCOUNT
                                then BOOKINGS_REQUIRED_FOR_DISCOUNT else CountIn(m, (c, p)))
      && Eligible(CountIn(r, (c, p)))
      && CountIn(r, (c, p)) >= CountIn(m, (c, p))
      && (forall k :: k in m && k != (c, p) ==> r[k] == m[k])
      && Preserved(r, c, p, later) == r
  {
    var r := Preserved(m, c, p, now);
    if CountIn(m, (c, p)) < BOOKINGS_REQUIRED_FOR_DISCOUNT {
      WithCountEffect(m, c, p, BOOKINGS_REQUIRED_FOR_DISCOUNT, now);
    } else {
      TouchedEffect(m, c, p, now, later);
    }
    TouchedEffect(r, c, p, later, later);
  }

  /** Earning the discount again: after a reset, four counted completions
      with the same provider make the customer eligible, three do not. */
  lemma {:induction false} FourCompletionsEarnDiscount(m: TrackerTable, c: CustomerId, p: ProviderId, t0: Instant, t1: Instant, t2: Instant, t3: Instant, t4: Instant)
    requires TableValid(m)
    ensures var r0 := Reset(m, c, p, t0);
      var r3 := Incremented(Incremented(Incremented(r0, c, p, t1), c, p, t2), c, p, t3);
      !Eligible(CountIn(r3, (c, p))) && Eligible(CountIn(Incremented(r3, c, p, t4), (c, p)))
  {
    var r0 := Reset(m, c, p, t0);
    WithCountEffect(m, c, p, 0, t0);
    var r1 := Incremented(r0, c, p, t1);
    IncrementedCount(r0, c, p, t1);
    var r2 := Incremented(r1, c, p, t2);
    IncrementedCount(r1, c, p, t2);
    var r3 := Incremented(r2, c, p, t3);
    IncrementedCount(r2, c, p, t3);
    IncrementedCount(r3, c, p, t4);
  }

  // ---------------------------------------------------------------------
  // The service object.

  class LoyaltyService {
    /** The loyalty_trackers table. */
    var trackers: TrackerTable
    /** Where notifications go. */
    const log: EventLog

    ghost predicate Valid()
      reads this
    {
      TableValid(trackers)
    }

    constructor (log: EventLog)
      ensures Valid() && trackers == map[] && this.log == log
    {
      trackers := map[];
      this.log := log;
    }

    /** The count currently recorded for a pair. */
    function Count(c: CustomerId, p: ProviderId): int
      reads this
    {
      CountIn(trackers, (c, p))
    }

    /** getOrCreateLoyaltyTracker: the pair's row, created with count 0 and
        saved when missing. */
    method GetOrCreateLoyaltyTracker(c: CustomerId, p: ProviderId, now: Instant) returns (t: LoyaltyTracker)
      requires Valid()
      modifies this
      ensures Valid()
      ensures trackers == Touched(old(trackers), c, p, now)
      ensures (c, p) in trackers && t == trackers[(c, p)]
      ensures t.completedBookingsCount == old(Count(c, p))
    {
      if (c, p) in trackers {
        t := trackers[(c, p)];
        return;
      }
      var created := NewTracker(c, p);
      trackers := SaveTracker(trackers, created, now);
      t := trackers[(c, p)];
    }

    /** shouldApplyDiscount: whether the pair's count has reached the threshold. */
    method ShouldApplyDiscount(c: CustomerId, p: ProviderId, now: Instant) returns (eligible: bool)
      requires Valid()
      modifies this
      ensures Valid()
      ensures trackers == Touched(old(trackers), c, p, now)
      ensures eligible <==> Eligible(old(Count(c, p)))
    {
      var t := GetOrCreateLoyaltyTracker(c, p, now);
      eligible := t.completedBookingsCount >= BOOKINGS_REQUIRED_FOR_DISCOUNT;
    }

    /** getCompletedBookingsCount. */
    method GetCompletedBookingsCount(c: CustomerId, p: ProviderId, now: Instant) returns (n: int)
      requires Valid()
      modifies this
      ensures Valid()
      ensures trackers == Touched(old(trackers), c, p, now)
      ensures n == old(Count(c, p)) && n >= 0
    {
      var t := GetOrCreateLoyaltyTracker(c, p, now);
      n := t.completedBookingsCount;
    }

    /** processCompletedBooking for a booking of a service offered by provider
        p. Only a COMPLETED booking without a discount is counted; when the
        count reaches the threshold the customer is notified. If that
        notification fails (`noticeFails`) the transaction rolls back: the
        result is false and nothing has changed. */
    method ProcessCompletedBooking(booking: ServiceBooking, p: ProviderId, now: Instant, noticeFails: bool)
      returns (ok: bool)
      requires Valid()
      modifies this, log
      ensures Valid()
      ensures var c := booking.customerId;
        var counted := booking.status == Completed && !booking.discountApplied;
        var reaches := old(Count(c, p)) + 1 == BOOKINGS_REQUIRED_FOR_DISCOUNT;
        && (ok <==> !(counted && reaches && noticeFails))
        && trackers == (if counted && ok then Incremented(old(trackers), c, p, now) else old(trackers))
        && log.events == old(log.events)
             + (if counted && ok && reaches then [Notified(c, Customer, LoyaltyDiscount)] else [])
    {
      if booking.status != Completed || booking.discountApplied {
        ok := true;
        return;
      }
      var c := booking.customerId;
      if noticeFails && Count(c, p) + 1 == BOOKINGS_REQUIRED_FOR_DISCOUNT {
        ok := false;
        return;
      }
      var t := GetOrCreateLoyaltyTracker(c, p, now);
      var oldCount := t.completedBookingsCount;
      trackers := SaveTracker(trackers, t.(completedBookingsCount := oldCount + 1), now);
      if oldCount + 1 == BOOKINGS_REQUIRED_FOR_DISCOUNT {
        log.events := log.events + [Notified(c, Customer, LoyaltyDiscount)];
      }
      ok := true;
    }

    /** preserveLoyaltyDiscount: restores eligibility after a discounted
        booking is cancelled. */
    method PreserveLoyaltyDiscount(c: CustomerId, p: ProviderId, now: Instant)
      requires Valid()
      modifies this
      ensures Valid()
      ensures trackers == Preserved(old(trackers), c, p, now)
    {
      var t := GetOrCreateLoyaltyTracker(c, p, now);
      if t.completedBookingsCount < BOOKINGS_REQUIRED_FOR_DISCOUNT {
        trackers := SaveTracker(trackers, t.(completedBookingsCount := BOOKINGS_REQUIRED_FOR_DISCOUNT), now);
      }
      PreservedEffect(old(trackers), c, p, now, now);
    }

    /** resetLoyaltyCounter: the pair's count back to 0 once its discount is used. */
    method ResetLoyaltyCounter(c: CustomerId, p: ProviderId, now: Instant)
      requires Valid()
      modifies this
      ensures Valid()
      ensures trackers == Reset(old(trackers), c, p, now)
    {
      var t := GetOrCreateLoyaltyTracker(c, p, now);
      trackers := SaveTracker(trackers, t.(completedBookingsCount := 0), now);
      WithCountEffect(old(trackers), c, p, 0, now);
    }
  }
}

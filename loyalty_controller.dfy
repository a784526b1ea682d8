/** controller/LoyaltyController.java: the loyalty progress read-outs and the
    repair endpoint that rebuilds a customer's counters from their completed
    bookings. */
module LoyaltyProgress {
  import opened Wrappers
  import opened Ids
  import opened Events
  import opened BookingModel
  import opened Loyalty
  import PS = ProviderServiceModel

  /** bookingsNeededForDiscount as getLoyaltyProgress computes it, from the count. */
  function BookingsNeeded(count: int): int {
    if count >= BOOKINGS_REQUIRED_FOR_DISCOUNT then 0 else BOOKINGS_REQUIRED_FOR_DISCOUNT - count
  }

  /** bookingsNeededForDiscount as getAllLoyaltyProgress computes it, from the
      eligibility flag. */
  function BookingsNeededFromFlag(eligible: bool, count: int): int {
    if eligible then 0 else BOOKINGS_REQUIRED_FOR_DISCOUNT - count
  }

  /** The number of bookings still needed is 0 exactly when the customer is
      eligible, lies between 0 and 4 for any non-negative count, and the two
      endpoints' formulas agree. */
  lemma BookingsNeededRange(count: int)
    requires count >= 0
    ensures 0 <= BookingsNeeded(count) <= BOOKINGS_REQUIRED_FOR_DISCOUNT
    ensures BookingsNeeded(count) == 0 <==> Eligible(count)
    ensures BookingsNeeded(count) == BookingsNeededFromFlag(Eligible(count), count)
    ensures !Eligible(count) ==> count + BookingsNeeded(count) == BOOKINGS_REQUIRED_FOR_DISCOUNT
  {
  }

  datatype ProgressError = CustomerNotFound | ServiceProviderNotFound

  /** One progress entry of the response. */
  datatype Progress = Progress(
    providerId: ProviderId,
    completedBookings: int,
    bookingsNeededForDiscount: int,
    eligibleForDiscount: bool)

  /** One provider's entry of the repair response. */
  datatype FixResult = FixResult(fixedBookings: int, newStatus: int)

  /** The tracker table after getOrCreateLoyaltyTracker for the customer and
      each provider of `ps`, in order. */
  function TouchedAll(m: TrackerTable, c: CustomerId, ps: seq<ProviderId>, now: Instant): TrackerTable
    decreases |ps|
  {
    if ps == [] then m else Touched(TouchedAll(m, c, ps[..|ps| - 1], now), c, ps[|ps| - 1], now)
  }

  /** Reading progress creates zero rows where missing and changes no count. */
  lemma {:induction false} TouchedAllKeepsCounts(m: TrackerTable, c: CustomerId, ps: seq<ProviderId>, now: Instant)
    requires TableValid(m)
    ensures TableValid(TouchedAll(m, c, ps, now))
    ensures forall k :: CountIn(TouchedAll(m, c, ps, now), k) == CountIn(m, k)
    decreases |ps|
  {
    if ps != [] {
      var m1 := TouchedAll(m, c, ps[..|ps| - 1], now);
      TouchedAllKeepsCounts(m, c, ps[..|ps| - 1], now);
      TouchedEffect(m1, c, ps[|ps| - 1], now, now);
    }
  }

  /** The query's condition: COMPLETED, booked by c, for a service of p. */
  predicate CompletedWithProvider(b: ServiceBooking, services: PS.Catalog, c: CustomerId, p: ProviderId) {
    b.status == Completed && b.customerId == c && b.serviceId in services
    && services[b.serviceId].serviceProvider == Some(p)
  }

  /** findCompletedBookingsByCustomerAndProvider over the bookings `rows`, in
      row order: the COMPLETED bookings of customer c for a service of provider p. */
  function CompletedWith(rows: seq<ServiceBooking>, services: PS.Catalog, c: CustomerId, p: ProviderId): (r: seq<ServiceBooking>)
    ensures forall b :: b in r <==> b in rows && CompletedWithProvider(b, services, c, p)
    ensures |r| <= |rows|
    decreases |rows|
  {
    if rows == [] then []
    else
      var b := rows[|rows| - 1];
      var rest := CompletedWith(rows[..|rows| - 1], services, c, p);
      if CompletedWithProvider(b, services, c, p) then rest + [b]
      else rest
  }

  /** The bookings of `xs` that did not use a discount: those the ledger counts. */
  function Undiscounted(xs: seq<ServiceBooking>): (n: nat)
    ensures n <= |xs|
    decreases |xs|
  {
    if xs == [] then 0
    else Undiscounted(xs[..|xs| - 1]) + (if xs[|xs| - 1].discountApplied then 0 else 1)
  }

  /** The repair's report for provider p: how many of the customer's
      completed bookings with p it replays, and the count they rebuild.
      Every replayed booking is reported, counted or not, so the report
      never shows fewer fixed bookings than the rebuilt count. */
  function Replay(rows: seq<ServiceBooking>, services: PS.Catalog, c: CustomerId, p: ProviderId): (fr: FixResult)
    ensures 0 <= fr.newStatus <= fr.fixedBookings
  {
    var xs := CompletedWith(rows, services, c, p);
    FixResult(|xs|, Undiscounted(xs))
  }

  /** The response of a repair over `providers`. */
  function Expected(rows: seq<ServiceBooking>, services: PS.Catalog, c: CustomerId, providers: seq<ProviderId>): map<ProviderId, FixResult> {
    map p | p in providers :: Replay(rows, services, c, p)
  }

  /** The discount notice a replay leaves behind: one, once the count has
      reached the threshold. */
  function ReplayNotice(c: CustomerId, count: int): seq<Event> {
    if Eligible(count) then [Notified(c, Customer, LoyaltyDiscount)] else []
  }

  lemma UndiscountedStep(xs: seq<ServiceBooking>, j: nat)
    requires j < |xs|
    ensures Undiscounted(xs[..j + 1]) == Undiscounted(xs[..j]) + (if xs[j].discountApplied then 0 else 1)
  {
    TakeOneMore(xs, j);
  }

  /** The discount notices a repair over `ps` sends, in provider order, given
      its report. */
  function Notices(c: CustomerId, ps: seq<ProviderId>, results: map<ProviderId, FixResult>): seq<Event>
    decreases |ps|
  {
    if ps == [] then []
    else
      var p := ps[|ps| - 1];
      Notices(c, ps[..|ps| - 1], results) + (if p in results then ReplayNotice(c, results[p].newStatus) else [])
  }

  /** The notices depend only on the report's entries for `ps`. */
  lemma {:induction false} NoticesFrame(c: CustomerId, ps: seq<ProviderId>, r1: map<ProviderId, FixResult>, r2: map<ProviderId, FixResult>)
    requires forall q :: q in ps ==> q in r1 && q in r2 && r1[q] == r2[q]
    ensures Notices(c, ps, r1) == Notices(c, ps, r2)
    decreases |ps|
  {
    if ps != [] {
      assert ps[|ps| - 1] in ps;
      NoticesFrame(c, ps[..|ps| - 1], r1, r2);
    }
  }

  /** Replaying one more provider appends its notice. */
  lemma NoticesStep(c: CustomerId, ps: seq<ProviderId>, results: map<ProviderId, FixResult>, p: ProviderId, fr: FixResult)
    requires forall q :: q in ps ==> q in results
    requires p in results ==> results[p] == fr
    ensures Notices(c, ps + [p], results[p := fr]) == Notices(c, ps, results) + ReplayNotice(c, fr.newStatus)
  {
    assert (ps + [p])[..|ps|] == ps;
    NoticesFrame(c, ps, results, results[p := fr]);
  }

  /** NoticesStep for the i-th provider of a loop over `providers`. */
  lemma NoticesTurn(c: CustomerId, providers: seq<ProviderId>, i: nat, results: map<ProviderId, FixResult>, fr: FixResult)
    requires i < |providers|
    requires forall q :: q in providers[..i] ==> q in results
    requires providers[i] in results ==> results[providers[i]] == fr
    ensures Notices(c, providers[..i + 1], results[providers[i] := fr]) == Notices(c, providers[..i], results) + ReplayNotice(c, fr.newStatus)
  {
    TakeOneMore(providers, i);
    NoticesStep(c, providers[..i], results, providers[i], fr);
  }

  class LoyaltyController {
    const loyalty: LoyaltyService

    constructor (loyalty: LoyaltyService)
      ensures this.loyalty == loyalty
    {
      this.loyalty := loyalty;
    }

    /** getLoyaltyProgress: a missing customer, then a missing provider, is an
        error before the ledger is called; otherwise the pair's count, how many
        bookings are still needed and whether the discount is available. */
    method GetLoyaltyProgress(c: CustomerId, p: ProviderId, customers: set<CustomerId>, providers: seq<ProviderId>, now: Instant)
      returns (r: Result<Progress, ProgressError>)
      requires loyalty.Valid()
      modifies loyalty
      ensures loyalty.Valid()
      ensures c !in customers ==> r == Err(CustomerNotFound) && loyalty.trackers == old(loyalty.trackers)
      ensures c in customers && p !in providers ==>
        r == Err(ServiceProviderNotFound) && loyalty.trackers == old(loyalty.trackers)
      ensures c in customers && p in providers ==>
        var n := old(loyalty.Count(c, p));
        && r == Ok(Progress(p, n, BookingsNeeded(n), Eligible(n)))
        && loyalty.trackers == Touched(old(loyalty.trackers), c, p, now)
    {
      if c !in customers {
        r := Err(CustomerNotFound);
        return;
      }
      if p !in providers {
        r := Err(ServiceProviderNotFound);
        return;
      }
      var completed := loyalty.GetCompletedBookingsCount(c, p, now);
      var eligible := loyalty.ShouldApplyDiscount(c, p, now);
      var needed := if completed >= 4 then 0 else 4 - completed;
      r := Ok(Progress(p, completed, needed, eligible));
    }

    /** getAllLoyaltyProgress: one entry per provider, in the providers' order. */
    method GetAllLoyaltyProgress(c: CustomerId, customers: set<CustomerId>, providers: seq<ProviderId>, now: Instant)
      returns (r: Result<seq<Progress>, ProgressError>)
      requires loyalty.Valid()
      modifies loyalty
      ensures loyalty.Valid()
      ensures c !in customers ==> r == Err(CustomerNotFound) && loyalty.trackers == old(loyalty.trackers)
      ensures c in customers ==>
        && r.Ok? && |r.value| == |providers|
        && (forall i :: 0 <= i < |providers| ==>
              var n := old(loyalty.Count(c, providers[i]));
              r.value[i] == Progress(providers[i], n, BookingsNeeded(n), Eligible(n)))
        && loyalty.trackers == TouchedAll(old(loyalty.trackers), c, providers, now)
    {
      if c !in customers {
        r := Err(CustomerNotFound);
        return;
      }
      var results: seq<Progress> := [];
      var i := 0;
      while i < |providers|
        invariant 0 <= i <= |providers|
        invariant loyalty.Valid()
        invariant loyalty.trackers == TouchedAll(old(loyalty.trackers), c, providers[..i], now)
        invariant |results| == i
        invariant forall j :: 0 <= j < i ==>
          var n := old(loyalty.Count(c, providers[j]));
          results[j] == Progress(providers[j], n, BookingsNeeded(n), Eligible(n))
      {
        var p := providers[i];
        TouchedAllKeepsCounts(old(loyalty.trackers), c, providers[..i], now);
        var completed := loyalty.GetCompletedBookingsCount(c, p, now);
        var eligible := loyalty.ShouldApplyDiscount(c, p, now);
        TouchedEffect(TouchedAll(old(loyalty.trackers), c, providers[..i], now), c, p, now, now);
        results := results + [Progress(p, completed, if eligible then 0 else 4 - completed, eligible)];
        assert providers[..i + 1][..i] == providers[..i];
        i := i + 1;
      }
      assert providers[..i] == providers;
      r := Ok(results);
    }

    /** Resets the (c, p) counter and replays the provider's completed
        bookings of the customer through the ledger. */
    method ReplayProvider(c: CustomerId, p: ProviderId, rows: seq<ServiceBooking>, services: PS.Catalog, now: Instant)
      returns (fr: FixResult)
      requires loyalty.Valid()
      modifies loyalty, loyalty.log
      ensures loyalty.Valid()
      ensures fr == Replay(rows, services, c, p) && CountIn(loyalty.trackers, (c, p)) == fr.newStatus
      ensures OnlyPairChanged(old(loyalty.trackers), loyalty.trackers, c, p)
      ensures loyalty.log.events == old(loyalty.log.events) + ReplayNotice(c, fr.newStatus)
    {
      loyalty.ResetLoyaltyCounter(c, p, now);
      WithCountEffect(old(loyalty.trackers), c, p, 0, now);
      var xs := CompletedWith(rows, services, c, p);
      var fixed := 0;
      while fixed < |xs|
        invariant 0 <= fixed <= |xs|
        invariant loyalty.Valid()
        invariant ReplayedSoFar(old(loyalty.trackers), loyalty.trackers, c, p, xs[..fixed])
        invariant loyalty.log.events == old(loyalty.log.events) + ReplayNotice(c, Undiscounted(xs[..fixed]))
      {
        assert xs[fixed] in xs;
        ReplayBooking(c, p, xs, fixed, now, old(loyalty.trackers), old(loyalty.log.events));
        fixed := fixed + 1;
      }
      assert xs[..fixed] == xs;
      var count := loyalty.GetCompletedBookingsCount(c, p, now);
      fr := FixResult(fixed, count);
    }

    /** One turn of the replay loop: processCompletedBooking for xs[j]. */
    method ReplayBooking(c: CustomerId, p: ProviderId, xs: seq<ServiceBooking>, j: nat, now: Instant,
                         ghost m0: TrackerTable, ghost log0: seq<Event>)
      requires j < |xs| && loyalty.Valid()
      requires xs[j].status == Completed && xs[j].customerId == c
      requires ReplayedSoFar(m0, loyalty.trackers, c, p, xs[..j])
      requires loyalty.log.events == log0 + ReplayNotice(c, Undiscounted(xs[..j]))
      modifies loyalty, loyalty.log
      ensures loyalty.Valid()
      ensures ReplayedSoFar(m0, loyalty.trackers, c, p, xs[..j + 1])
      ensures loyalty.log.events == log0 + ReplayNotice(c, Undiscounted(xs[..j + 1]))
    {
      UndiscountedStep(xs, j);
      ghost var before := loyalty.trackers;
      var counted := loyalty.ProcessCompletedBooking(xs[j], p, now, false);
      CountStep(m0, before, loyalty.trackers, c, p, xs[j], now);
    }

    /** fixLoyaltyTracking: for every provider, the customer's counter is rebuilt
        from their completed bookings with that provider. Afterwards each
        provider's count is the number of those bookings that used no
        discount, the response reports each replay, every other customer's
        or provider's row is untouched, and a discount notice went out for
        each provider whose rebuilt count reaches the threshold. */
    method FixLoyaltyTracking(c: CustomerId, customers: set<CustomerId>, providers: seq<ProviderId>,
                              rows: seq<ServiceBooking>, services: PS.Catalog, now: Instant)
      returns (r: Result<map<ProviderId, FixResult>, ProgressError>)
      requires loyalty.Valid()
      modifies loyalty, loyalty.log
      ensures loyalty.Valid()
      ensures c !in customers ==>
        r == Err(CustomerNotFound) && loyalty.trackers == old(loyalty.trackers)
        && loyalty.log.events == old(loyalty.log.events)
      ensures c in customers ==>
        && r == Ok(Expected(rows, services, c, providers))
        && (forall p :: p in providers ==> CountIn(loyalty.trackers, (c, p)) == r.value[p].newStatus)
        && OthersKept(old(loyalty.trackers), loyalty.trackers, r.value, c)
        && loyalty.log.events == old(loyalty.log.events) + Notices(c, providers, r.value)
    {
      if c !in customers {
        r := Err(CustomerNotFound);
        return;
      }
      var results := ReplayAll(c, providers, rows, services, now);
      r := Ok(results);
    }

    /** The repair's loop over every provider, in order. */
    method ReplayAll(c: CustomerId, providers: seq<ProviderId>, rows: seq<ServiceBooking>, services: PS.Catalog, now: Instant)
      returns (results: map<ProviderId, FixResult>)
      requires loyalty.Valid()
      modifies loyalty, loyalty.log
      ensures loyalty.Valid()
      ensures results == Expected(rows, services, c, providers)
      ensures Rebuilt(old(loyalty.trackers), loyalty.trackers, results, c)
      ensures loyalty.log.events == old(loyalty.log.events) + Notices(c, providers, results)
    {
      results := map[];
      var i := 0;
      while i < |providers|
        invariant 0 <= i <= |providers|
        invariant loyalty.Valid()
        invariant ReportSoFar(results, providers[..i], rows, services, c)
        invariant Rebuilt(old(loyalty.trackers), loyalty.trackers, results, c)
        invariant loyalty.log.events == old(loyalty.log.events) + Notices(c, providers[..i], results)
      {
        results := ReplayNext(c, providers, i, results, rows, services, now, old(loyalty.trackers), old(loyalty.log.events));
        i := i + 1;
      }
      assert providers[..i] == providers;
      ReportComplete(results, providers, rows, services, c);
    }

    /** One turn of the repair loop: replays providers[i]. */
    method ReplayNext(c: CustomerId, providers: seq<ProviderId>, i: nat, results: map<ProviderId, FixResult>,
                      rows: seq<ServiceBooking>, services: PS.Catalog, now: Instant,
                      ghost m0: TrackerTable, ghost log0: seq<Event>)
      returns (results': map<ProviderId, FixResult>)
      requires i < |providers| && loyalty.Valid()
      requires ReportSoFar(results, providers[..i], rows, services, c)
      requires Rebuilt(m0, loyalty.trackers, results, c)
      requires loyalty.log.events == log0 + Notices(c, providers[..i], results)
      modifies loyalty, loyalty.log
      ensures loyalty.Valid()
      ensures ReportSoFar(results', providers[..i + 1], rows, services, c)
      ensures Rebuilt(m0, loyalty.trackers, results', c)
      ensures loyalty.log.events == log0 + Notices(c, providers[..i + 1], results')
    {
      var p := providers[i];
      ghost var before := loyalty.trackers;
      var fr := ReplayProvider(c, p, rows, services, now);
      RebuiltStep(m0, before, loyalty.trackers, results, c, p, fr);
      ReportStep(results, providers[..i], rows, services, c, p, fr);
      NoticesTurn(c, providers, i, results, fr);
      TakeOneMore(providers, i);
      results' := results[p := fr];
    }
  }

  /** The report once the providers of `done` are replayed: one entry per
      provider, each the replay's. */
  ghost predicate ReportSoFar(results: map<ProviderId, FixResult>, done: seq<ProviderId>,
                              rows: seq<ServiceBooking>, services: PS.Catalog, c: CustomerId) {
    && (forall p :: p in results <==> p in done)
    && (forall p :: p in results ==> results[p] == Replay(rows, services, c, p))
  }

  lemma ReportStep(results: map<ProviderId, FixResult>, done: seq<ProviderId>,
                    rows: seq<ServiceBooking>, services: PS.Catalog, c: CustomerId, p: ProviderId, fr: FixResult)
    requires ReportSoFar(results, done, rows, services, c) && fr == Replay(rows, services, c, p)
    ensures ReportSoFar(results[p := fr], done + [p], rows, services, c)
  {
  }

  /** A report over all the providers is the repair's response. */
  lemma ReportComplete(results: map<ProviderId, FixResult>, providers: seq<ProviderId>,
                       rows: seq<ServiceBooking>, services: PS.Catalog, c: CustomerId)
    requires ReportSoFar(results, providers, rows, services, c)
    ensures results == Expected(rows, services, c, providers)
  {
    assert results.Keys == Expected(rows, services, c, providers).Keys;
  }

  /** The replay loop's state once the bookings `done` are processed. */
  ghost predicate ReplayedSoFar(m0: TrackerTable, m: TrackerTable, c: CustomerId, p: ProviderId, done: seq<ServiceBooking>) {
    CountIn(m, (c, p)) == Undiscounted(done) && OnlyPairChanged(m0, m, c, p)
  }

  /** After a replay for (c, p) the pair has a row and every other row is as before. */
  ghost predicate OnlyPairChanged(before: TrackerTable, after: TrackerTable, c: CustomerId, p: ProviderId) {
    && after.Keys == before.Keys + {(c, p)}
    && forall k :: k in before && k != (c, p) ==> after[k] == before[k]
  }

  /** One replayed booking of customer c: counted unless it used a discount,
      and still only the pair's row differs from the table before the repair. */
  lemma CountStep(m0: TrackerTable, m: TrackerTable, m': TrackerTable, c: CustomerId, p: ProviderId,
                  b: ServiceBooking, now: Instant)
    requires TableValid(m) && OnlyPairChanged(m0, m, c, p) && b.status == Completed && b.customerId == c
    requires CountIn(m, (c, p)) >= 0
    requires m' == (if b.discountApplied then m else Incremented(m, c, p, now))
    ensures TableValid(m') && OnlyPairChanged(m0, m', c, p)
    ensures CountIn(m', (c, p)) == CountIn(m, (c, p)) + (if b.discountApplied then 0 else 1)
  {
    if !b.discountApplied {
      WithCountEffect(m, c, p, CountIn(m, (c, p)) + 1, now);
    }
  }

  /** Rows outside the customer's reported providers are as in `m0`, and no
      other row is new. */
  ghost predicate OthersKept(m0: TrackerTable, m: TrackerTable, results: map<ProviderId, FixResult>, c: CustomerId) {
    && (forall k :: k in m0 && !(k.0 == c && k.1 in results) ==> k in m && m[k] == m0[k])
    && (forall k :: k in m ==> k in m0 || (k.0 == c && k.1 in results))
  }

  /** The repair loop's state: each reported provider's count is the one
      reported, and every other row is as before the repair. */
  ghost predicate Rebuilt(m0: TrackerTable, m: TrackerTable, results: map<ProviderId, FixResult>, c: CustomerId) {
    && (forall p :: p in results ==> CountIn(m, (c, p)) == results[p].newStatus)
    && OthersKept(m0, m, results, c)
  }

  lemma RebuiltStep(m0: TrackerTable, m: TrackerTable, m': TrackerTable, results: map<ProviderId, FixResult>,
                    c: CustomerId, p: ProviderId, fr: FixResult)
    requires Rebuilt(m0, m, results, c)
    requires OnlyPairChanged(m, m', c, p) && CountIn(m', (c, p)) == fr.newStatus
    ensures Rebuilt(m0, m', results[p := fr], c)
  {
    forall q | q in results && q != p
      ensures CountIn(m', (c, q)) == results[q].newStatus
    {
      assert (c, q) != (c, p);
    }
  }
}

/** service/ProviderServiceService.java: providers list services, admins
    approve or reject them, and deleting a service takes its reviews with it. */
module ProviderCatalog {
  import opened Wrappers
  import opened Ids
  import opened Events
  import opened Text
  import opened ProviderServiceModel
  import R = Reviews

  /** ProviderServiceDTO. `pdf` and `image` are the names the file store gives
      a non-empty upload; None when nothing (or an empty file) was uploaded. */
  datatype ServiceForm = ServiceForm(
    serviceName: Option<string>,
    description: Option<string>,
    price: Option<real>,
    category: Option<string>,
    serviceProviderId: ProviderId,
    pdf: Option<string>,
    image: Option<string>)

  datatype CatalogError =
    | ProviderNotFound
    | ServiceNotFound(serviceId: ServiceId)
    | MissingRequiredColumn
    | EmptyPath
    | NotificationFailed
    | ReferencedByBooking(serviceId: ServiceId)  // the bookings' NOT NULL foreign key refuses the delete

  /** updateServiceFromDTO: copies the non-null name, description, price and
      category, always sets the provider, and puts a row that was never saved
      into PENDING; a saved row keeps its status. */
  function FromForm(s: ProviderService, form: ServiceForm): (r: ProviderService)
    ensures r.serviceName == (if form.serviceName.Some? then form.serviceName else s.serviceName)
    ensures r.description == (if form.description.Some? then form.description else s.description)
    ensures r.price == (if form.price.Some? then form.price else s.price)
    ensures r.category == (if form.category.Some? then form.category else s.category)
    ensures r.serviceProvider == Some(form.serviceProviderId)
    ensures r.status == (if s.id.None? then Pending else s.status)
    ensures r.id == s.id && r.pdfPath == s.pdfPath && r.imagePath == s.imagePath
    ensures r.adminFeedback == s.adminFeedback && r.createdAt == s.createdAt && r.updatedAt == s.updatedAt
  {
    var t := s.(
      serviceName := if form.serviceName.Some? then form.serviceName else s.serviceName,
      description := if form.description.Some? then form.description else s.description,
      price := if form.price.Some? then form.price else s.price,
      serviceProvider := Some(form.serviceProviderId),
      category := if form.category.Some? then form.category else s.category);
    if s.id.None? then t.(status := Pending) else t
  }

  /** The uploaded files replace the stored names. */
  function WithFiles(s: ProviderService, form: ServiceForm): ProviderService {
    s.(pdfPath := if form.pdf.Some? then form.pdf else s.pdfPath,
       imagePath := if form.image.Some? then form.image else s.imagePath)
  }

  /** A new service is PENDING whatever the form says, and editing a saved
      service never moves its status; a form of nulls changes nothing but
      the provider. */
  lemma StatusRules(s: ProviderService, form: ServiceForm)
    ensures FromForm(NewProviderService(), form).status == Pending
    ensures s.id.Some? ==> WithFiles(FromForm(s, form), form).status == s.status
    ensures form.serviceName.None? && form.description.None? && form.price.None? && form.category.None?
            && form.pdf.None? && form.image.None? && s.id.Some?
            ==> WithFiles(FromForm(s, form), form) == s.(serviceProvider := Some(form.serviceProviderId))
  {
  }

  /** approveService's change: APPROVED, and the feedback replaced only by a
      value that is not blank after trim. */
  function Approve(s: ProviderService, feedback: Option<string>): (r: ProviderService)
    ensures r.status == Approved
    ensures r.adminFeedback == (if feedback.Some? && !IsBlank(feedback.value) then feedback else s.adminFeedback)
    ensures r.(status := s.status, adminFeedback := s.adminFeedback) == s
  {
    var t := s.(status := Approved);
    if feedback.None? then t
    else
      TrimEmptyIffBlank(feedback.value);
      if Trim(feedback.value) != "" then t.(adminFeedback := feedback) else t
  }

  /** rejectService's change: REJECTED, and the feedback always overwritten,
      null included. */
  function Reject(s: ProviderService, feedback: Option<string>): (r: ProviderService)
    ensures r.status == Rejected && r.adminFeedback == feedback
    ensures r.(status := s.status, adminFeedback := s.adminFeedback) == s
  {
    s.(status := Rejected, adminFeedback := feedback)
  }

  /** Approving twice with the same feedback is approving once; a rejection
      after an approval erases the approval's feedback. */
  lemma ReviewDecisions(s: ProviderService, feedback: Option<string>, reason: Option<string>)
    ensures Approve(Approve(s, feedback), feedback) == Approve(s, feedback)
    ensures Reject(Approve(s, feedback), reason) == Reject(s, reason)
  {
  }

  /** save of a loaded row: @PreUpdate refreshes updatedAt only when the row
      changed (Hibernate's dirty check). */
  function SaveExisting(before: ProviderService, after: ProviderService, now: Instant): (r: ProviderService)
    ensures after == before ==> r == before
    ensures after != before ==> r == after.(updatedAt := Some(now))
  {
    if after == before then before else after.(updatedAt := Some(now))
  }

  /** getServiceImage and getServicePdf: a null or empty path is rejected
      before any file is read; otherwise the file at that path is read. */
  function FilePath(path: Option<string>): (r: Result<string, CatalogError>)
    ensures r.Err? <==> path.None? || path.value == ""
    ensures r.Ok? ==> r.value == path.value
  {
    if path.None? || path.value == "" then Err(EmptyPath) else Ok(path.value)
  }

  /** The reviews of service `id`, and what remains once they are gone. */
  function ReviewsOfService(t: R.ReviewTable, id: ServiceId): set<ReviewId> {
    set r | r in t && t[r].serviceId == id
  }

  function WithoutService(t: R.ReviewTable, id: ServiceId): (r: R.ReviewTable)
    ensures forall k :: k in r <==> k in t && t[k].serviceId != id
    ensures forall k :: k in r ==> r[k] == t[k]
    ensures R.ReviewsValid(t) ==> R.ReviewsValid(r)
  {
    map k | k in t && t[k].serviceId != id :: t[k]
  }

  class ProviderServiceService {
    /** The provider_services table. */
    var catalog: Catalog
    var nextId: ServiceId
    const reviews: R.ReviewRepository
    const log: EventLog

    ghost predicate Valid()
      reads this, reviews
    {
      CatalogValid(catalog) && (forall id :: id in catalog ==> id < nextId) && reviews.Valid()
    }

    /** What a request that throws leaves behind once its transaction has
        rolled back. */
    twostate predicate Untouched()
      reads this, reviews, log
    {
      && catalog == old(catalog) && nextId == old(nextId)
      && reviews.reviews == old(reviews.reviews) && reviews.nextId == old(reviews.nextId)
      && log.events == old(log.events)
    }

    constructor (reviews: R.ReviewRepository, log: EventLog)
      requires reviews.Valid()
      ensures Valid() && catalog == map[] && this.reviews == reviews && this.log == log
    {
      catalog := map[];
      nextId := 1;
      this.reviews := reviews;
      this.log := log;
    }

    /** createService: the provider must exist; the new row is PENDING and
        stamped `now`; the first admin findAll returns (`admins` is every
        admin) gets one SERVICE_PENDING notice, whose failure is swallowed. A
        form without name or price fails on the NOT NULL columns. */
    method CreateService(form: ServiceForm, providers: set<ProviderId>, admins: set<UserId>, now: Instant, noticeFails: bool)
      returns (r: Result<ServiceId, CatalogError>)
      requires Valid()
      modifies this, log
      ensures Valid()
      ensures form.serviceProviderId !in providers ==> r == Err(ProviderNotFound) && Untouched()
      ensures form.serviceProviderId in providers && (form.serviceName.None? || form.price.None?) ==>
        r == Err(MissingRequiredColumn) && Untouched()
      ensures form.serviceProviderId in providers && form.serviceName.Some? && form.price.Some? ==>
        var id := old(nextId);
        && r == Ok(id) && nextId == id + 1
        && catalog == old(catalog)[id := WithFiles(FromForm(NewProviderService(), form), form)
                                          .(id := Some(id), createdAt := Some(now), updatedAt := Some(now))]
        && catalog[id].status == Pending
        && (admins == {} || noticeFails ==> log.events == old(log.events))
        && (admins != {} && !noticeFails ==>
              exists a :: a in admins && log.events == old(log.events) + [Notified(a, Admin, ServicePending)])
    {
      if form.serviceProviderId !in providers {
        r := Err(ProviderNotFound);
        return;
      }
      var service := FromForm(NewProviderService(), form);
      service := WithFiles(service, form);
      if service.serviceName.None? || service.price.None? {
        r := Err(MissingRequiredColumn);
        return;
      }
      var id := nextId;
      service := service.(id := Some(id), createdAt := Some(now), updatedAt := Some(now));
      catalog := catalog[id := service];
      nextId := id + 1;
      r := Ok(id);
      if service.status == Pending && admins != {} {
        var first := Pick(admins);
        if !noticeFails {
          log.events := log.events + [Notified(first, Admin, ServicePending)];
        }
      }
    }

    /** updateService: the service, then the provider, must exist; the form
        is applied, new files replace the stored ones, and the row is saved. */
    method UpdateService(serviceId: ServiceId, form: ServiceForm, providers: set<ProviderId>, now: Instant)
      returns (r: Outcome<CatalogError>)
      requires Valid()
      modifies this
      ensures Valid() && nextId == old(nextId)
      ensures serviceId !in old(catalog) ==> r == Fail(ServiceNotFound(serviceId)) && catalog == old(catalog)
      ensures serviceId in old(catalog) && form.serviceProviderId !in providers ==>
        r == Fail(ProviderNotFound) && catalog == old(catalog)
      ensures serviceId in old(catalog) && form.serviceProviderId in providers ==>
        var s := old(catalog)[serviceId];
        r == Pass && catalog == old(catalog)[serviceId := SaveExisting(s, WithFiles(FromForm(s, form), form), now)]
        && catalog[serviceId].status == s.status
    {
      if serviceId !in catalog {
        r := Fail(ServiceNotFound(serviceId));
        return;
      }
      var existing := catalog[serviceId];
      if form.serviceProviderId !in providers {
        r := Fail(ProviderNotFound);
        return;
      }
      var updated := WithFiles(FromForm(existing, form), form);
      catalog := catalog[serviceId := SaveExisting(existing, updated, now)];
      r := Pass;
    }

    /** approveService: the service must exist; the SERVICE_APPROVED notice
        to its provider is part of the transaction, so its failure undoes the
        approval. */
    method ApproveService(serviceId: ServiceId, feedback: Option<string>, now: Instant, noticeFails: bool)
      returns (r: Outcome<CatalogError>)
      requires Valid()
      modifies this, log
      ensures Valid()
      ensures serviceId !in old(catalog) ==> r == Fail(ServiceNotFound(serviceId)) && Untouched()
      ensures serviceId in old(catalog) && noticeFails ==> r == Fail(NotificationFailed) && Untouched()
      ensures serviceId in old(catalog) && !noticeFails ==>
        var s := old(catalog)[serviceId];
        && r == Pass && nextId == old(nextId)
        && catalog == old(catalog)[serviceId := SaveExisting(s, Approve(s, feedback), now)]
        && log.events == old(log.events) + [Notified(s.serviceProvider.value, ServiceProvider, ServiceApproved)]
    {
      if serviceId !in catalog {
        r := Fail(ServiceNotFound(serviceId));
        return;
      }
      if noticeFails {
        r := Fail(NotificationFailed);
        return;
      }
      var s := catalog[serviceId];
      var saved := SaveExisting(s, Approve(s, feedback), now);
      assert Stored(serviceId, saved);
      catalog := catalog[serviceId := saved];
      log.events := log.events + [Notified(s.serviceProvider.value, ServiceProvider, ServiceApproved)];
      r := Pass;
    }

    /** rejectService: as approveService, with REJECTED and the feedback
        always stored. */
    method RejectService(serviceId: ServiceId, feedback: Option<string>, now: Instant, noticeFails: bool)
      returns (r: Outcome<CatalogError>)
      requires Valid()
      modifies this, log
      ensures Valid()
      ensures serviceId !in old(catalog) ==> r == Fail(ServiceNotFound(serviceId)) && Untouched()
      ensures serviceId in old(catalog) && noticeFails ==> r == Fail(NotificationFailed) && Untouched()
      ensures serviceId in old(catalog) && !noticeFails ==>
        var s := old(catalog)[serviceId];
        && r == Pass && nextId == old(nextId)
        && catalog == old(catalog)[serviceId := SaveExisting(s, Reject(s, feedback), now)]
        && log.events == old(log.events) + [Notified(s.serviceProvider.value, ServiceProvider, ServiceRejected)]
    {
      if serviceId !in catalog {
        r := Fail(ServiceNotFound(serviceId));
        return;
      }
      if noticeFails {
        r := Fail(NotificationFailed);
        return;
      }
      var s := catalog[serviceId];
      var saved := SaveExisting(s, Reject(s, feedback), now);
      assert Stored(serviceId, saved);
      catalog := catalog[serviceId := saved];
      log.events := log.events + [Notified(s.serviceProvider.value, ServiceProvider, ServiceRejected)];
      r := Pass;
    }

    /** deleteService: the service must exist; each of its reviews is
        unlinked from its booking and deleted, then the service row goes and
        its provider gets a SERVICE_REJECTED notice. `booked` holds the ids
        of the services some booking references: their rows are held by the
        bookings' NOT NULL, non-cascading foreign key, so the delete of such a
        service fails when it reaches the database. The method is one
        transaction, so that failure, like a failing notice, undoes
        everything. */
    method DeleteService(serviceId: ServiceId, booked: set<ServiceId>, noticeFails: bool) returns (r: Outcome<CatalogError>)
      requires Valid()
      modifies this, reviews, log
      ensures Valid()
      ensures serviceId !in old(catalog) ==> r == Fail(ServiceNotFound(serviceId)) && Untouched()
      ensures serviceId in old(catalog) && noticeFails ==> r == Fail(NotificationFailed) && Untouched()
      ensures serviceId in old(catalog) && !noticeFails && serviceId in booked ==>
        r == Fail(ReferencedByBooking(serviceId)) && Untouched()
      // the foreign key holds afterwards: no booked service leaves the catalog
      ensures forall id :: id in booked && id in old(catalog) ==> id in catalog
      ensures serviceId in old(catalog) && !noticeFails && serviceId !in booked ==>
        && r == Pass && nextId == old(nextId) && reviews.nextId == old(reviews.nextId)
        && catalog == old(catalog) - {serviceId}
        && reviews.reviews == WithoutService(old(reviews.reviews), serviceId)
        && log.events == old(log.events) + [Notified(old(catalog)[serviceId].serviceProvider.value, ServiceProvider, ServiceRejected)]
    {
      if serviceId !in catalog {
        r := Fail(ServiceNotFound(serviceId));
        return;
      }
      if noticeFails {
        r := Fail(NotificationFailed);
        return;
      }
      if serviceId in booked {
        r := Fail(ReferencedByBooking(serviceId));
        return;
      }
      var service := catalog[serviceId];
      var doomed := ReviewsOfService(reviews.reviews, serviceId);
      ghost var before := reviews.reviews;
      while doomed != {}
        invariant doomed <= ReviewsOfService(before, serviceId)
        invariant reviews.reviews.Keys == before.Keys - (ReviewsOfService(before, serviceId) - doomed)
        invariant forall k :: k in reviews.reviews ==> reviews.reviews[k] == before[k]
        invariant reviews.Valid() && reviews.nextId == old(reviews.nextId)
        modifies reviews
        decreases doomed
      {
        var review := Pick(doomed);
        reviews.reviews := reviews.reviews - {review};
        doomed := doomed - {review};
      }
      assert reviews.reviews.Keys == WithoutService(before, serviceId).Keys;
      assert forall k :: k in reviews.reviews ==> reviews.reviews[k] == WithoutService(before, serviceId)[k];
      assert reviews.reviews == WithoutService(before, serviceId);
      catalog := catalog - {serviceId};
      log.events := log.events + [Notified(service.serviceProvider.value, ServiceProvider, ServiceRejected)];
      r := Pass;
    }
  }
}

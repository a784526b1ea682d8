/** model/ProviderService.java: a provider's catalog listing. */
module ProviderServiceModel {
  import opened Wrappers
  import opened Ids

  /** model/ServiceStatus.java. */
  datatype ServiceStatus = Pending | Approved | Rejected

  /** One row of `provider_services`. `id` is null until the row is first
      saved; `serviceName` and `price` are NOT NULL columns, so every saved row
      has them. The `service_provider_id` join column is nullable, but every
      save goes through updateServiceFromDTO, which always sets the provider,
      so every saved row has one too (see Stored). */
  datatype ProviderService = ProviderService(
    id: Option<ServiceId>,
    serviceName: Option<string>,
    description: Option<string>,
    price: Option<real>,
    pdfPath: Option<string>,
    imagePath: Option<string>,
    serviceProvider: Option<ProviderId>,
    category: Option<string>,
    status: ServiceStatus,
    adminFeedback: Option<string>,
    createdAt: Option<Instant>,
    updatedAt: Option<Instant>)

  /** `new ProviderService()`: every field null except the status default PENDING. */
  function NewProviderService(): ProviderService {
    ProviderService(None, None, None, None, None, None, None, None, Pending, None, None, None)
  }

  /** A row as the database holds it: id assigned, the NOT NULL columns
      filled, and the provider set by every save path. */
  predicate Stored(id: ServiceId, s: ProviderService) {
    s.id == Some(id) && s.serviceName.Some? && s.price.Some? && s.serviceProvider.Some?
  }

  /** The catalog table `provider_services`, keyed by id. */
  type Catalog = map<ServiceId, ProviderService>

  predicate CatalogValid(catalog: Catalog) {
    forall id :: id in catalog ==> Stored(id, catalog[id])
  }
}

/**
 * `OrganizationService`: organizations and the products inside them. A create or delete
 * is a database transaction followed by a best-effort change of the authorization
 * entries: a failure of the transaction propagates and no authorization call is made; a
 * failure of the authorization calls is logged and swallowed, so the caller's result
 * depends only on the transaction.
 *
 * Failures are parameters: `storageFails` says whether the transaction fails,
 * `permissionsFail` and `rolesFail` whether the two authorization calls throw.
 */
module OrganizationServices {
  import opened Common
  import opened Organizations
  import opened Hierarchy
  import opened Authorization

  class OrganizationService {
    const organizationRepository: DaoOrganizationRepository
    const productRepository: ProductRepository
    const authorizationService: AuthorizationService

    ghost predicate Valid()
      reads this, organizationRepository, productRepository
    {
      organizationRepository.Valid() && productRepository.Valid()
    }

    constructor (organizationRepository: DaoOrganizationRepository, productRepository: ProductRepository,
                 authorizationService: AuthorizationService)
      requires organizationRepository.Valid() && productRepository.Valid()
      ensures Valid()
      ensures this.organizationRepository == organizationRepository
      ensures this.productRepository == productRepository
      ensures this.authorizationService == authorizationService
    {
      this.organizationRepository := organizationRepository;
      this.productRepository := productRepository;
      this.authorizationService := authorizationService;
    }

    /**
     * `createOrganization`: the created organization, whatever the authorization calls do;
     * its permissions and then its roles are created under its new id.
     */
    method CreateOrganization(name: string, description: Option<string>,
                              storageFails: bool, permissionsFail: bool, rolesFail: bool)
      returns (r: Result<Organization>)
      requires Valid()
      modifies organizationRepository, authorizationService
      ensures Valid()
      ensures storageFails ==>
                r == Failure(StorageFailure)
                && organizationRepository.organizations == old(organizationRepository.organizations)
                && authorizationService.state == old(authorizationService.state)
      ensures !storageFails ==>
                r == Success(Organization(old(organizationRepository.nextId), name, description))
                && r.value.id !in old(organizationRepository.organizations)
                && organizationRepository.organizations == old(organizationRepository.organizations)[r.value.id := r.value]
                && GetOrganization(r.value.id) == Some(r.value)
                && authorizationService.state
                   == ProvisionBestEffort(old(authorizationService.state), OrganizationScope(r.value.id), permissionsFail, rolesFail)
    {
      if storageFails {
        return Failure(StorageFailure);
      }
      var organization := organizationRepository.Create(name, description);
      var ok := authorizationService.CreatePermissions(OrganizationScope(organization.id), permissionsFail);
      if ok {
        ok := authorizationService.CreateRoles(OrganizationScope(organization.id), rolesFail);
      }
      // A failure of either call is logged and swallowed.
      r := Success(organization);
    }

    /**
     * `createProduct`: the product created under `organizationId`, whatever the authorization
     * calls do; its permissions and then its roles are created under its new id.
     */
    method CreateProduct(name: string, description: Option<string>, organizationId: int,
                         storageFails: bool, permissionsFail: bool, rolesFail: bool)
      returns (r: Result<Product>)
      requires Valid()
      modifies productRepository, authorizationService
      ensures Valid()
      ensures storageFails ==>
                r == Failure(StorageFailure)
                && productRepository.products == old(productRepository.products)
                && authorizationService.state == old(authorizationService.state)
      ensures !storageFails ==>
                r == Success(Product(old(productRepository.nextId), organizationId, name, description))
                && r.value.id !in old(productRepository.products)
                && productRepository.products == old(productRepository.products)[r.value.id := r.value]
                && authorizationService.state
                   == ProvisionBestEffort(old(authorizationService.state), ProductScope(r.value.id), permissionsFail, rolesFail)
    {
      if storageFails {
        return Failure(StorageFailure);
      }
      var product := productRepository.Create(name, description, organizationId);
      var ok := authorizationService.CreatePermissions(ProductScope(product.id), permissionsFail);
      if ok {
        ok := authorizationService.CreateRoles(ProductScope(product.id), rolesFail);
      }
      // A failure of either call is logged and swallowed.
      r := Success(product);
    }

    /**
     * `deleteOrganization`: a failed delete (unknown id, failed transaction) propagates and
     * makes no authorization call; after a delete, failures of the cleanup are swallowed.
     */
    method DeleteOrganization(organizationId: int, storageFails: bool, permissionsFail: bool, rolesFail: bool)
      returns (r: Result<()>)
      requires Valid()
      modifies organizationRepository, authorizationService
      ensures Valid()
      ensures storageFails ==> r == Failure(StorageFailure)
      ensures !storageFails && organizationId !in old(organizationRepository.organizations) ==>
                r == Failure(EntityNotFound(organizationId))
      ensures r.Failure? ==>
                organizationRepository.organizations == old(organizationRepository.organizations)
                && authorizationService.state == old(authorizationService.state)
      ensures !storageFails && organizationId in old(organizationRepository.organizations) ==>
                r == Success(())
                && organizationRepository.organizations == old(organizationRepository.organizations) - {organizationId}
                && authorizationService.state
                   == DeprovisionBestEffort(old(authorizationService.state), OrganizationScope(organizationId), permissionsFail, rolesFail)
    {
      if storageFails {
        return Failure(StorageFailure);
      }
      r := organizationRepository.Delete(organizationId);
      if r.Failure? {
        return;
      }
      var ok := authorizationService.DeletePermissions(OrganizationScope(organizationId), permissionsFail);
      if ok {
        ok := authorizationService.DeleteRoles(OrganizationScope(organizationId), rolesFail);
      }
      // A failure of either call is logged and swallowed.
    }

    /** `getOrganization`: the organization, or null when it does not exist. */
    function GetOrganization(organizationId: int): (r: Option<Organization>)
      reads this, organizationRepository
      ensures r.Some? <==> organizationId in organizationRepository.organizations
      ensures r.Some? ==> r.value == organizationRepository.organizations[organizationId]
    {
      organizationRepository.Get(organizationId)
    }

    /** `listOrganizations`: every stored organization, order and paging aside. */
    function ListOrganizations(): (r: set<Organization>)
      reads this, organizationRepository
      requires organizationRepository.Valid()
      ensures forall id :: id in organizationRepository.organizations ==> organizationRepository.organizations[id] in r
      ensures forall org :: org in r ==> GetOrganization(org.id) == Some(org)
    {
      organizationRepository.All()
    }

    /** `listProductsForOrganization`: the products whose parent is `organizationId`, order and paging aside. */
    function ListProductsForOrganization(organizationId: int): (r: set<Product>)
      reads this, productRepository
      requires productRepository.Valid()
      ensures forall id :: id in productRepository.products && productRepository.products[id].organizationId == organizationId
                ==> productRepository.products[id] in r
      ensures forall p :: p in r ==> p.organizationId == organizationId && productRepository.Get(p.id) == Some(p)
    {
      productRepository.ListForOrganization(organizationId)
    }

    /**
     * `updateOrganization`: name and description default to Absent, so an omitted field is
     * left as it is; an unknown id or a failed transaction propagates and changes nothing.
     */
    method UpdateOrganization(organizationId: int, storageFails: bool,
                              name: OptionalValue<string> := Absent,
                              description: OptionalValue<Option<string>> := Absent)
      returns (r: Result<Organization>)
      requires Valid()
      modifies organizationRepository
      ensures Valid()
      ensures storageFails ==> r == Failure(StorageFailure)
      ensures !storageFails && organizationId !in old(organizationRepository.organizations) ==>
                r == Failure(EntityNotFound(organizationId))
      ensures r.Failure? ==> organizationRepository.organizations == old(organizationRepository.organizations)
      ensures !storageFails && organizationId in old(organizationRepository.organizations) ==>
                r == Success(ApplyUpdate(old(organizationRepository.organizations)[organizationId], name, description))
                && organizationRepository.organizations == old(organizationRepository.organizations)[organizationId := r.value]
    {
      if storageFails {
        return Failure(StorageFailure);
      }
      r := organizationRepository.Update(organizationId, name, description);
    }
  }

  /** A call of `updateOrganization` with both fields omitted returns the organization unchanged. */
  method UpdateWithDefaultsKeepsOrganization(service: OrganizationService, organizationId: int)
    returns (r: Result<Organization>)
    requires service.Valid()
    modifies service.organizationRepository
    ensures old(service.GetOrganization(organizationId)).Some? ==>
              r == Success(old(service.GetOrganization(organizationId)).value)
              && service.GetOrganization(organizationId) == old(service.GetOrganization(organizationId))
  {
    r := service.UpdateOrganization(organizationId, false);
  }
}

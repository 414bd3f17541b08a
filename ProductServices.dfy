/**
 * The hierarchy `ProductService`: products and the repositories inside them, with the same
 * best-effort authorization pattern as the organization service: the database transaction
 * decides the result; the permission and role calls that follow it are attempted in that
 * order, and their failures are logged and swallowed.
 */
module ProductServices {
  import opened Common
  import opened Hierarchy
  import opened Authorization

  class ProductService {
    const productRepository: ProductRepository
    const repositoryRepository: RepositoryRepository
    const authorizationService: AuthorizationService

    ghost predicate Valid()
      reads this, productRepository, repositoryRepository
    {
      productRepository.Valid() && repositoryRepository.Valid()
    }

    constructor (productRepository: ProductRepository, repositoryRepository: RepositoryRepository,
                 authorizationService: AuthorizationService)
      requires productRepository.Valid() && repositoryRepository.Valid()
      ensures Valid()
      ensures this.productRepository == productRepository
      ensures this.repositoryRepository == repositoryRepository
      ensures this.authorizationService == authorizationService
    {
      this.productRepository := productRepository;
      this.repositoryRepository := repositoryRepository;
      this.authorizationService := authorizationService;
    }

    /**
     * `createRepository`: the repository created under `productId`, whatever the authorization
     * calls do; its permissions and then its roles are created under its new id.
     */
    method CreateRepository(repositoryType: RepositoryType, url: string, productId: int,
                            storageFails: bool, permissionsFail: bool, rolesFail: bool)
      returns (r: Result<Repository>)
      requires Valid()
      modifies repositoryRepository, authorizationService
      ensures Valid()
      ensures storageFails ==>
                r == Failure(StorageFailure)
                && repositoryRepository.repositories == old(repositoryRepository.repositories)
                && authorizationService.state == old(authorizationService.state)
      ensures !storageFails ==>
                r == Success(Repository(old(repositoryRepository.nextId), productId, repositoryType, url))
                && r.value.id !in old(repositoryRepository.repositories)
                && repositoryRepository.repositories == old(repositoryRepository.repositories)[r.value.id := r.value]
                && authorizationService.state
                   == ProvisionBestEffort(old(authorizationService.state), RepositoryScope(r.value.id), permissionsFail, rolesFail)
    {
      if storageFails {
        return Failure(StorageFailure);
      }
      var repository := repositoryRepository.Create(repositoryType, url, productId);
      var ok := authorizationService.CreatePermissions(RepositoryScope(repository.id), permissionsFail);
      if ok {
        ok := authorizationService.CreateRoles(RepositoryScope(repository.id), rolesFail);
      }
      // A failure of either call is logged and swallowed.
      r := Success(repository);
    }

    /**
     * `deleteProduct`: a failed delete (unknown id, failed transaction) propagates and makes no
     * authorization call; after a delete, failures of the cleanup are swallowed.
     */
    method DeleteProduct(productId: int, storageFails: bool, permissionsFail: bool, rolesFail: bool)
      returns (r: Result<()>)
      requires Valid()
      modifies productRepository, authorizationService
      ensures Valid()
      ensures storageFails ==> r == Failure(StorageFailure)
      ensures !storageFails && productId !in old(productRepository.products) ==>
                r == Failure(EntityNotFound(productId))
      ensures r.Failure? ==>
                productRepository.products == old(productRepository.products)
                && authorizationService.state == old(authorizationService.state)
      ensures !storageFails && productId in old(productRepository.products) ==>
                r == Success(())
                && productRepository.products == old(productRepository.products) - {productId}
                && GetProduct(productId) == None
                && authorizationService.state
                   == DeprovisionBestEffort(old(authorizationService.state), ProductScope(productId), permissionsFail, rolesFail)
    {
      if storageFails {
        return Failure(StorageFailure);
      }
      r := productRepository.Delete(productId);
      if r.Failure? {
        return;
      }
      var ok := authorizationService.DeletePermissions(ProductScope(productId), permissionsFail);
      if ok {
        ok := authorizationService.DeleteRoles(ProductScope(productId), rolesFail);
      }
      // A failure of either call is logged and swallowed.
    }

    /** `getProduct`: the product, or null when it does not exist. */
    function GetProduct(productId: int): (r: Option<Product>)
      reads this, productRepository
      ensures r.Some? <==> productId in productRepository.products
      ensures r.Some? ==> r.value == productRepository.products[productId]
    {
      productRepository.Get(productId)
    }

    /** `listRepositoriesForProduct`: the repositories whose parent is `productId`, order and paging aside. */
    function ListRepositoriesForProduct(productId: int): (r: set<Repository>)
      reads this, repositoryRepository
      requires repositoryRepository.Valid()
      ensures forall id :: id in repositoryRepository.repositories && repositoryRepository.repositories[id].productId == productId
                ==> repositoryRepository.repositories[id] in r
      ensures forall repo :: repo in r ==>
                repo.productId == productId && repo.id in repositoryRepository.repositories
                && repositoryRepository.repositories[repo.id] == repo
    {
      repositoryRepository.ListForProduct(productId)
    }

    /**
     * `updateProduct`: name and description default to Absent, so an omitted field is left
     * as it is; an unknown id or a failed transaction propagates and changes nothing.
     */
    method UpdateProduct(productId: int, storageFails: bool,
                         name: OptionalValue<string> := Absent,
                         description: OptionalValue<Option<string>> := Absent)
      returns (r: Result<Product>)
      requires Valid()
      modifies productRepository
      ensures Valid()
      ensures storageFails ==> r == Failure(StorageFailure)
      ensures !storageFails && productId !in old(productRepository.products) ==>
                r == Failure(EntityNotFound(productId))
      ensures r.Failure? ==> productRepository.products == old(productRepository.products)
      ensures !storageFails && productId in old(productRepository.products) ==>
                r == Success(ApplyProductUpdate(old(productRepository.products)[productId], name, description))
                && productRepository.products == old(productRepository.products)[productId := r.value]
    {
      if storageFails {
        return Failure(StorageFailure);
      }
      r := productRepository.Update(productId, name, description);
    }
  }

  /** A call of `updateProduct` with both fields omitted returns the product unchanged. */
  method UpdateWithDefaultsKeepsProduct(service: ProductService, productId: int) returns (r: Result<Product>)
    requires service.Valid()
    modifies service.productRepository
    ensures old(service.GetProduct(productId)).Some? ==>
              r == Success(old(service.GetProduct(productId)).value)
              && service.GetProduct(productId) == old(service.GetProduct(productId))
  {
    r := service.UpdateProduct(productId, false);
  }
}

/**
 * The product and repository tables the hierarchy services delegate to. Their DAO
 * implementations are not part of this model: they are plain tables keyed by id, changed
 * in place, with the same "unknown id fails" rule as the organization table. A database
 * refusal (a foreign key to a missing parent, a lost connection) is not decided here; the
 * services take it as a failure flag of the whole transaction.
 */
module Hierarchy {
  import opened Common

  datatype Product = Product(id: int, organizationId: int, name: string, description: Option<string>)

  datatype RepositoryType = Git | GitRepo | Mercurial | Subversion

  datatype Repository = Repository(id: int, productId: int, repositoryType: RepositoryType, url: string)

  /** The product after an update: Absent fields stay, Present ones are set, Present(None) clears the description. */
  function ApplyProductUpdate(product: Product, name: OptionalValue<string>, description: OptionalValue<Option<string>>)
    : (r: Product)
    ensures r.id == product.id && r.organizationId == product.organizationId
    ensures name.Absent? ==> r.name == product.name
    ensures name.Present? ==> r.name == name.value
    ensures description.Absent? ==> r.description == product.description
    ensures description.Present? ==> r.description == description.value
  {
    product.(name := IfPresent(name, product.name), description := IfPresent(description, product.description))
  }

  class ProductRepository {
    var products: map<int, Product>
    var nextId: int

    ghost predicate Valid()
      reads this
    {
      forall id :: id in products ==> products[id].id == id && id < nextId
    }

    constructor ()
      ensures Valid() && products == map[]
    {
      products := map[];
      nextId := 1;
    }

    method Create(name: string, description: Option<string>, organizationId: int) returns (product: Product)
      requires Valid()
      modifies this
      ensures Valid()
      ensures product == Product(old(nextId), organizationId, name, description)
      ensures product.id !in old(products)
      ensures products == old(products)[product.id := product]
    {
      product := Product(nextId, organizationId, name, description);
      products := products[nextId := product];
      nextId := nextId + 1;
    }

    function Get(id: int): (r: Option<Product>)
      reads this
      ensures r.Some? <==> id in products
      ensures r.Some? ==> r.value == products[id]
    {
      if id in products then Some(products[id]) else None
    }

    /** The products of one organization, in no particular order. */
    function ListForOrganization(organizationId: int): (r: set<Product>)
      reads this
      requires Valid()
      ensures forall p :: p in r <==> p.id in products && products[p.id] == p && p.organizationId == organizationId
    {
      set id | id in products && products[id].organizationId == organizationId :: products[id]
    }

    method Update(id: int, name: OptionalValue<string>, description: OptionalValue<Option<string>>)
      returns (r: Result<Product>)
      requires Valid()
      modifies this
      ensures Valid() && nextId == old(nextId)
      ensures id !in old(products) ==> r == Failure(EntityNotFound(id)) && products == old(products)
      ensures id in old(products) ==>
                r == Success(ApplyProductUpdate(old(products)[id], name, description))
                && products == old(products)[id := r.value]
    {
      if id !in products {
        return Failure(EntityNotFound(id));
      }
      var product := ApplyProductUpdate(products[id], name, description);
      products := products[id := product];
      r := Success(product);
    }

    method Delete(id: int) returns (r: Result<()>)
      requires Valid()
      modifies this
      ensures Valid() && nextId == old(nextId)
      ensures id !in old(products) ==> r == Failure(EntityNotFound(id)) && products == old(products)
      ensures id in old(products) ==> r == Success(()) && products == old(products) - {id}
    {
      if id !in products {
        return Failure(EntityNotFound(id));
      }
      products := products - {id};
      r := Success(());
    }
  }

  class RepositoryRepository {
    var repositories: map<int, Repository>
    var nextId: int

    ghost predicate Valid()
      reads this
    {
      forall id :: id in repositories ==> repositories[id].id == id && id < nextId
    }

    constructor ()
      ensures Valid() && repositories == map[]
    {
      repositories := map[];
      nextId := 1;
    }

    method Create(repositoryType: RepositoryType, url: string, productId: int) returns (repository: Repository)
      requires Valid()
      modifies this
      ensures Valid()
      ensures repository == Repository(old(nextId), productId, repositoryType, url)
      ensures repository.id !in old(repositories)
      ensures repositories == old(repositories)[repository.id := repository]
    {
      repository := Repository(nextId, productId, repositoryType, url);
      repositories := repositories[nextId := repository];
      nextId := nextId + 1;
    }

    /** The repositories of one product, in no particular order. */
    function ListForProduct(productId: int): (r: set<Repository>)
      reads this
      requires Valid()
      ensures forall repo :: repo in r <==> repo.id in repositories && repositories[repo.id] == repo && repo.productId == productId
    {
      set id | id in repositories && repositories[id].productId == productId :: repositories[id]
    }
  }
}

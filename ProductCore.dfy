/**
  The product core service (ProductServiceImpl) over its repository. The
  repository is a map from product id to the stored entity: the database's
  unique index on `productId` is what makes a second create of the same id
  fail, so the map's keys are that index.

  The store-level functions `CreateIn`, `GetFrom` and `DeleteFrom` state what each
  operation does to a store; the class's methods are proved to do exactly
  that to their `repository` field.
 */
module ProductCore {
  import opened Api
  import opened Text
  import opened ProductMapper

  type Store = map<int, ProductEntity>

  /** Every entry is stored under its own product id. */
  ghost predicate Keyed(store: Store)
  {
    forall k :: k in store ==> store[k].productId == k
  }

  function DuplicateKeyMessage(productId: int): string
  {
    "Duplicate key, Product Id: " + IntToString(productId)
  }

  function InvalidProductIdMessage(productId: int): string
  {
    "Invalid productId: " + IntToString(productId)
  }

  function NoProductFoundMessage(productId: int): string
  {
    "No product found for productId: " + IntToString(productId)
  }

  /** What a create answers and the store it leaves. */
  datatype Created = Created(result: Result<Product>, store: Store)

  /** Creates `body`: a new id adds exactly one entry and answers the body
      without its address; an id already stored is refused and the store is
      left as it was. */
  function CreateIn(store: Store, body: Product): (r: Created)
    ensures body.productId in store ==>
              r.result == Err(InvalidInput(DuplicateKeyMessage(body.productId))) && r.store == store
    ensures body.productId !in store ==>
              && r.result == Ok(body.(serviceAddress := None))
              && r.store.Keys == store.Keys + {body.productId}
              && |r.store| == |store| + 1
              && r.store[body.productId] == DtoToEntity(body)
              && forall k :: k in store ==> r.store[k] == store[k]
  {
    var entity := DtoToEntity(body);
    if entity.productId in store then Created(Err(InvalidInput(DuplicateKeyMessage(body.productId))), store)
    else Created(Ok(EntityToDto(entity)), store[entity.productId := entity])
  }

  /** Reads a product: ids below 1 are refused before any lookup, an absent id
      is not found, and a stored one is answered with this service's address. */
  function GetFrom(store: Store, productId: int, serviceAddress: string): (r: Result<Product>)
    ensures productId < 1 ==> r == Err(InvalidInput(InvalidProductIdMessage(productId)))
    ensures productId >= 1 && productId !in store ==> r == Err(NotFound(NoProductFoundMessage(productId)))
    ensures productId >= 1 && productId in store ==>
              && r.Ok?
              && r.value.productId == store[productId].productId
              && r.value.name == store[productId].name
              && r.value.weight == store[productId].weight
              && r.value.serviceAddress == Some(serviceAddress)
    ensures Keyed(store) && r.Ok? ==> r.value.productId == productId
  {
    if productId < 1 then Err(InvalidInput(InvalidProductIdMessage(productId)))
    else if productId !in store then Err(NotFound(NoProductFoundMessage(productId)))
    else Ok(EntityToDto(store[productId]).(serviceAddress := Some(serviceAddress)))
  }

  /** Deletes the entry of `productId` if there is one; every other entry stays. */
  function DeleteFrom(store: Store, productId: int): (s: Store)
    ensures productId !in s
    ensures s.Keys == store.Keys - {productId}
    ensures forall k :: k in s ==> s[k] == store[k]
    ensures |s| == if productId in store then |store| - 1 else |store|
  {
    store - {productId}
  }

  lemma CreateKeepsKeyed(store: Store, body: Product)
    requires Keyed(store)
    ensures Keyed(CreateIn(store, body).store)
  {
  }

  lemma DeleteKeepsKeyed(store: Store, productId: int)
    requires Keyed(store)
    ensures Keyed(DeleteFrom(store, productId))
  {
  }

  /** Deleting twice is deleting once, and never fails. */
  lemma DeleteIdempotent(store: Store, productId: int)
    ensures DeleteFrom(DeleteFrom(store, productId), productId) == DeleteFrom(store, productId)
  {
  }

  /** A product just created is read back with its id, name and weight and
      this service's address. */
  lemma CreateThenGet(store: Store, body: Product, serviceAddress: string)
    requires body.productId >= 1 && body.productId !in store
    ensures GetFrom(CreateIn(store, body).store, body.productId, serviceAddress) ==
              Ok(body.(serviceAddress := Some(serviceAddress)))
  {
  }

  /** A product just deleted is not found. */
  lemma DeleteThenGet(store: Store, productId: int, serviceAddress: string)
    requires productId >= 1
    ensures GetFrom(DeleteFrom(store, productId), productId, serviceAddress) == Err(NotFound(NoProductFoundMessage(productId)))
  {
  }

  class ProductServiceImpl {
    var repository: Store
    const serviceAddress: string

    ghost predicate Valid()
      reads this
    {
      Keyed(repository)
    }

    constructor (serviceAddress: string)
      ensures Valid()
      ensures repository == map[] && this.serviceAddress == serviceAddress
    {
      repository := map[];
      this.serviceAddress := serviceAddress;
    }

    method CreateProduct(body: Product) returns (r: Result<Product>)
      requires Valid()
      modifies this
      ensures Valid()
      ensures Created(r, repository) == CreateIn(old(repository), body)
    {
      var entity := DtoToEntity(body);
      if entity.productId in repository {
        r := Err(InvalidInput(DuplicateKeyMessage(body.productId)));
      } else {
        repository := repository[entity.productId := entity];
        r := Ok(EntityToDto(entity));
      }
    }

    /** A read; `GetFrom` is its one definition, and the store is only read. */
    method GetProduct(productId: int) returns (r: Result<Product>)
      ensures r == GetFrom(repository, productId, serviceAddress)
    {
      r := GetFrom(repository, productId, serviceAddress);
    }

    method DeleteProduct(productId: int)
      requires Valid()
      modifies this
      ensures Valid()
      ensures repository == DeleteFrom(old(repository), productId)
    {
      if productId in repository {
        repository := repository - {productId};
      }
    }
  }
}

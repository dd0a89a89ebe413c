/**
  The review service's read path (ReviewServiceImpl.getReview): a guard on
  the product id, the repository's query by product id, the entity-to-API
  mapping, and the loop that stamps every returned review with the service's
  address in place.
 */
module ReviewCore {
  import opened Api
  import opened Text

  /** A stored review: the API fields without the address, plus the store's
      own id and version. */
  datatype ReviewEntity = ReviewEntity(
    id: Option<string>, version: Option<int>,
    productId: int, reviewId: int, author: string, subject: string, content: string)

  /** The mapping of a stored review to the API: the shared fields are copied,
      the address is left unset. */
  function EntityToApi(e: ReviewEntity): (r: Review)
    ensures r.productId == e.productId && r.reviewId == e.reviewId
    ensures r.author == e.author && r.subject == e.subject && r.content == e.content
    ensures r.serviceAddress == None
  {
    Review(e.productId, e.reviewId, e.author, e.subject, e.content, None)
  }

  /** The repository's query: the stored reviews of `productId`, in the order
      they are stored. */
  function FindByProductId(entities: seq<ReviewEntity>, productId: int): (r: seq<ReviewEntity>)
    ensures |r| <= |entities|
    ensures forall i :: 0 <= i < |r| ==> r[i].productId == productId
    ensures forall e :: e in r <==> e in entities && e.productId == productId
  {
    if entities == [] then []
    else
      var last := entities[|entities| - 1];
      FindByProductId(entities[..|entities| - 1], productId) + (if last.productId == productId then [last] else [])
  }

  /** The query keeps the stored order: querying two runs of the store one
      after the other gives the first run's matches before the second's. */
  lemma {:induction false} FindByProductIdAppend(a: seq<ReviewEntity>, b: seq<ReviewEntity>, productId: int)
    ensures FindByProductId(a + b, productId) == FindByProductId(a, productId) + FindByProductId(b, productId)
  {
    if b == [] {
      assert a + b == a;
    } else {
      var b' := b[..|b| - 1];
      assert (a + b)[..|a + b| - 1] == a + b';
      FindByProductIdAppend(a, b', productId);
    }
  }

  /** A store that holds only reviews of `productId` is returned whole; a store
      that holds none of them gives the empty list. */
  lemma {:induction false} FindByProductIdAllOrNone(entities: seq<ReviewEntity>, productId: int)
    ensures (forall i :: 0 <= i < |entities| ==> entities[i].productId == productId) ==>
              FindByProductId(entities, productId) == entities
    ensures (forall i :: 0 <= i < |entities| ==> entities[i].productId != productId) ==>
              FindByProductId(entities, productId) == []
  {
    if entities != [] {
      FindByProductIdAllOrNone(entities[..|entities| - 1], productId);
      assert entities == entities[..|entities| - 1] + [entities[|entities| - 1]];
    }
  }

  class ReviewServiceImpl {
    var repository: seq<ReviewEntity>
    const serviceAddress: string

    constructor (repository: seq<ReviewEntity>, serviceAddress: string)
      ensures this.repository == repository && this.serviceAddress == serviceAddress
    {
      this.repository := repository;
      this.serviceAddress := serviceAddress;
    }

    /** The reviews of `productId`: one per stored review of that product, in
        stored order, each carrying this service's address. Ids below 1 are
        refused before the store is queried; a product with no reviews gives
        the empty list. The store is only read. */
    method GetReview(productId: int) returns (r: Result<seq<Review>>)
      ensures productId < 1 <==> r.Err?
      ensures productId < 1 ==> r.error == InvalidInput("Invalid productId: " + IntToString(productId))
      ensures r.Ok? ==> |r.value| == |FindByProductId(repository, productId)|
      ensures r.Ok? ==> forall j :: 0 <= j < |r.value| ==>
                r.value[j] == EntityToApi(FindByProductId(repository, productId)[j]).(serviceAddress := Some(serviceAddress))
      ensures r.Ok? ==> forall j :: 0 <= j < |r.value| ==>
                r.value[j].productId == productId && r.value[j].serviceAddress == Some(serviceAddress)
    {
      if productId < 1 {
        return Err(InvalidInput("Invalid productId: " + IntToString(productId)));
      }

      var entityList := FindByProductId(repository, productId);
      var reviews := new Review[|entityList|](j requires 0 <= j < |entityList| => EntityToApi(entityList[j]));
      var i := 0;
      while i < reviews.Length
        invariant 0 <= i <= reviews.Length
        invariant forall j :: 0 <= j < i ==> reviews[j] == EntityToApi(entityList[j]).(serviceAddress := Some(serviceAddress))
        invariant forall j :: i <= j < reviews.Length ==> reviews[j] == EntityToApi(entityList[j])
      {
        reviews[i] := reviews[i].(serviceAddress := Some(serviceAddress));
        i := i + 1;
      }
      var result := reviews[..];
      forall j | 0 <= j < |result|
        ensures result[j].productId == productId && result[j].serviceAddress == Some(serviceAddress)
      {
        assert result[j] == EntityToApi(entityList[j]).(serviceAddress := Some(serviceAddress));
      }
      return Ok(result);
    }
  }
}

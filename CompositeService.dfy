/**
  The composite product service (ProductCompositeServiceImpl): it reads one
  product aggregate from the three core services and splits a composite write
  or delete into one event per entity.

  The three reads are made one after the other, as the service makes them,
  and each is evaluated eagerly.
 */
module CompositeService {
  import opened Api
  import opened Text
  import opened Outbox
  import opened CompositeIntegration
  import ErrorHandling

  // ---------------------------------------------------------------------------
  // Reading an aggregate

  /** The HTTP client the reads go through: one reply per request URL. */
  datatype WebClient = WebClient(
    products: string -> Result<Option<Product>>,
    recommendations: string -> Result<seq<Recommendation>>,
    reviews: string -> Result<seq<Review>>)

  function RecommendationSummaryOf(r: Recommendation): RecommendationSummary
  {
    RecommendationSummary(r.recommendationId, r.author, r.rating, r.content)
  }

  function ReviewSummaryOf(r: Review): ReviewSummary
  {
    ReviewSummary(r.reviewId, r.author, r.subject, r.content)
  }

  /** One summary per recommendation, in order, keeping id, author, rating and content. */
  function RecommendationSummaries(rs: seq<Recommendation>): (r: seq<RecommendationSummary>)
    ensures |r| == |rs|
    ensures forall i :: 0 <= i < |rs| ==>
              && r[i].recommendationId == rs[i].recommendationId
              && r[i].author == rs[i].author
              && r[i].rating == rs[i].rating
              && r[i].content == rs[i].content
  {
    if rs == [] then []
    else RecommendationSummaries(rs[..|rs| - 1]) + [RecommendationSummaryOf(rs[|rs| - 1])]
  }

  /** One summary per review, in order, keeping id, author, subject and content. */
  function ReviewSummaries(rs: seq<Review>): (r: seq<ReviewSummary>)
    ensures |r| == |rs|
    ensures forall i :: 0 <= i < |rs| ==>
              && r[i].reviewId == rs[i].reviewId
              && r[i].author == rs[i].author
              && r[i].subject == rs[i].subject
              && r[i].content == rs[i].content
  {
    if rs == [] then []
    else ReviewSummaries(rs[..|rs| - 1]) + [ReviewSummaryOf(rs[|rs| - 1])]
  }

  /** The address reported for a list of recommendations: that of its first
      element, or "" for an absent or empty list. */
  function RecommendationsAddress(rs: Option<seq<Recommendation>>): Option<string>
  {
    if rs.Some? && |rs.value| > 0 then rs.value[0].serviceAddress else Some("")
  }

  /** The address reported for a list of reviews, chosen the same way. */
  function ReviewsAddress(rs: Option<seq<Review>>): Option<string>
  {
    if rs.Some? && |rs.value| > 0 then rs.value[0].serviceAddress else Some("")
  }

  /** Merges a product with its recommendations and reviews. */
  function CreateProductAggregate(
    product: Product, recommendations: Option<seq<Recommendation>>, reviews: Option<seq<Review>>,
    serviceAddress: string): (a: ProductAggregate)
    ensures a.productId == product.productId && a.name == product.name && a.weight == product.weight
    ensures a.recommendations.Some? <==> recommendations.Some?
    ensures recommendations.Some? ==>
              && |a.recommendations.value| == |recommendations.value|
              && forall i :: 0 <= i < |recommendations.value| ==>
                   a.recommendations.value[i] == RecommendationSummaryOf(recommendations.value[i])
    ensures a.reviews.Some? <==> reviews.Some?
    ensures reviews.Some? ==>
              && |a.reviews.value| == |reviews.value|
              && forall i :: 0 <= i < |reviews.value| ==> a.reviews.value[i] == ReviewSummaryOf(reviews.value[i])
    ensures a.serviceAddresses.Some?
    ensures a.serviceAddresses.value.compositeAddress == serviceAddress
    ensures a.serviceAddresses.value.productAddress == product.serviceAddress
    ensures a.serviceAddresses.value.recommendationAddress ==
              if recommendations.Some? && |recommendations.value| > 0 then recommendations.value[0].serviceAddress
              else Some("")
    ensures a.serviceAddresses.value.reviewAddress ==
              if reviews.Some? && |reviews.value| > 0 then reviews.value[0].serviceAddress else Some("")
  {
    var recommendationSummaries :=
      if recommendations.None? then None else Some(RecommendationSummaries(recommendations.value));
    var reviewSummaries := if reviews.None? then None else Some(ReviewSummaries(reviews.value));
    var addresses := ServiceAddresses(
      serviceAddress, product.serviceAddress, ReviewsAddress(reviews), RecommendationsAddress(recommendations));
    ProductAggregate(product.productId, product.name, product.weight, recommendationSummaries, reviewSummaries,
                     Some(addresses))
  }

  // ---------------------------------------------------------------------------
  // Splitting a write into events

  /** The product a composite create sends: the aggregate's scalar fields, no address. */
  function ProductOf(body: ProductAggregate): Product
  {
    Product(body.productId, body.name, body.weight, None)
  }

  /** The recommendation a summary becomes, under the aggregate's product id. */
  function RecommendationOf(productId: int, s: RecommendationSummary): Recommendation
  {
    Recommendation(productId, s.recommendationId, s.author, s.rating, s.content, None)
  }

  /** The review a summary becomes, under the aggregate's product id. */
  function ReviewOf(productId: int, s: ReviewSummary): Review
  {
    Review(productId, s.reviewId, s.author, s.subject, s.content, None)
  }

  /** One recommendation create per summary, in list order. */
  function RecommendationSends(productId: int, ss: seq<RecommendationSummary>): (r: seq<Sent>)
    ensures |r| == |ss|
  {
    if ss == [] then []
    else RecommendationSends(productId, ss[..|ss| - 1]) + [RecommendationCreated(RecommendationOf(productId, ss[|ss| - 1]))]
  }

  /** One review create per summary, in list order. */
  function ReviewSends(productId: int, ss: seq<ReviewSummary>): (r: seq<Sent>)
    ensures |r| == |ss|
  {
    if ss == [] then []
    else ReviewSends(productId, ss[..|ss| - 1]) + [ReviewCreated(ReviewOf(productId, ss[|ss| - 1]))]
  }

  /** The items of a list the request may leave out. */
  function OrEmpty<T>(xs: Option<seq<T>>): seq<T>
  {
    if xs.Some? then xs.value else []
  }

  /** Everything a composite create sends, in order: the product, then its
      recommendations, then its reviews. */
  function CreateSends(body: ProductAggregate): seq<Sent>
  {
    [ProductCreated(ProductOf(body))]
    + RecommendationSends(body.productId, OrEmpty(body.recommendations))
    + ReviewSends(body.productId, OrEmpty(body.reviews))
  }

  /** Everything a composite delete sends: product, recommendations, reviews. */
  function DeleteSends(productId: int): seq<Sent>
  {
    [Deleted(PRODUCTS_BINDING, productId), Deleted(RECOMMENDATIONS_BINDING, productId), Deleted(REVIEWS_BINDING, productId)]
  }

  // ---------------------------------------------------------------------------
  // What a write sends, binding by binding

  lemma {:induction false} RecommendationSendsAt(productId: int, ss: seq<RecommendationSummary>, i: nat)
    requires i < |ss|
    ensures RecommendationSends(productId, ss)[i] == RecommendationCreated(RecommendationOf(productId, ss[i]))
  {
    if i < |ss| - 1 {
      RecommendationSendsAt(productId, ss[..|ss| - 1], i);
    }
  }

  lemma {:induction false} ReviewSendsAt(productId: int, ss: seq<ReviewSummary>, i: nat)
    requires i < |ss|
    ensures ReviewSends(productId, ss)[i] == ReviewCreated(ReviewOf(productId, ss[i]))
  {
    if i < |ss| - 1 {
      ReviewSendsAt(productId, ss[..|ss| - 1], i);
    }
  }

  /** Recommendation creates all go to the recommendations binding, in order. */
  lemma {:induction false} RecommendationSendsQueues(productId: int, ss: seq<RecommendationSummary>, binding: string)
    ensures binding != RECOMMENDATIONS_BINDING ==> SentTo(RecommendationSends(productId, ss), binding) == []
    ensures binding == RECOMMENDATIONS_BINDING ==>
              var q := SentTo(RecommendationSends(productId, ss), binding);
              && |q| == |ss|
              && forall i :: 0 <= i < |ss| ==> q[i] == RecommendationCreated(RecommendationOf(productId, ss[i])).message
  {
    if ss != [] {
      var init := ss[..|ss| - 1];
      var last := RecommendationCreated(RecommendationOf(productId, ss[|ss| - 1]));
      assert RecommendationSends(productId, ss) == RecommendationSends(productId, init) + [last];
      RecommendationSendsQueues(productId, init, binding);
      OneSendTouchesOneQueue(RecommendationSends(productId, init), last, binding);
      assert last.binding == RECOMMENDATIONS_BINDING;
      if binding == RECOMMENDATIONS_BINDING {
        var q := SentTo(RecommendationSends(productId, ss), binding);
        var qInit := SentTo(RecommendationSends(productId, init), binding);
        assert q == qInit + [last.message];
        forall i | 0 <= i < |ss|
          ensures q[i] == RecommendationCreated(RecommendationOf(productId, ss[i])).message
        {
          if i < |init| {
            assert q[i] == qInit[i];
            assert ss[i] == init[i];
          }
        }
      }
    }
  }

  /** Review creates all go to the reviews binding, in order. */
  lemma {:induction false} ReviewSendsQueues(productId: int, ss: seq<ReviewSummary>, binding: string)
    ensures binding != REVIEWS_BINDING ==> SentTo(ReviewSends(productId, ss), binding) == []
    ensures binding == REVIEWS_BINDING ==>
              var q := SentTo(ReviewSends(productId, ss), binding);
              && |q| == |ss|
              && forall i :: 0 <= i < |ss| ==> q[i] == ReviewCreated(ReviewOf(productId, ss[i])).message
  {
    if ss != [] {
      var init := ss[..|ss| - 1];
      var last := ReviewCreated(ReviewOf(productId, ss[|ss| - 1]));
      assert ReviewSends(productId, ss) == ReviewSends(productId, init) + [last];
      ReviewSendsQueues(productId, init, binding);
      OneSendTouchesOneQueue(ReviewSends(productId, init), last, binding);
      assert last.binding == REVIEWS_BINDING;
      if binding == REVIEWS_BINDING {
        var q := SentTo(ReviewSends(productId, ss), binding);
        var qInit := SentTo(ReviewSends(productId, init), binding);
        assert q == qInit + [last.message];
        forall i | 0 <= i < |ss|
          ensures q[i] == ReviewCreated(ReviewOf(productId, ss[i])).message
        {
          if i < |init| {
            assert q[i] == qInit[i];
            assert ss[i] == init[i];
          }
        }
      }
    }
  }

  /** On any binding, a composite create's queue is what its product part
      sent there, then what its recommendations sent, then its reviews. */
  lemma CreateSendsSplit(body: ProductAggregate, binding: string)
    ensures SentTo(CreateSends(body), binding) ==
              SentTo([ProductCreated(ProductOf(body))], binding)
              + SentTo(RecommendationSends(body.productId, OrEmpty(body.recommendations)), binding)
              + SentTo(ReviewSends(body.productId, OrEmpty(body.reviews)), binding)
  {
    var first := [ProductCreated(ProductOf(body))];
    var recs := RecommendationSends(body.productId, OrEmpty(body.recommendations));
    SentToAppend(first + recs, ReviewSends(body.productId, OrEmpty(body.reviews)), binding);
    SentToAppend(first, recs, binding);
  }

  /** A composite create sends one event per entity: the product, each
      supplied recommendation and each supplied review. */
  lemma CreateSendsCount(body: ProductAggregate)
    ensures |CreateSends(body)| == 1 + |OrEmpty(body.recommendations)| + |OrEmpty(body.reviews)|
  {
  }

  /** Exactly one product CREATE reaches the products binding. */
  lemma CreateSendsProductQueue(body: ProductAggregate)
    ensures SentTo(CreateSends(body), PRODUCTS_BINDING) == [ProductCreated(ProductOf(body)).message]
  {
    CreateSendsSplit(body, PRODUCTS_BINDING);
    OneSendTouchesOneQueue([], ProductCreated(ProductOf(body)), PRODUCTS_BINDING);
    assert [] + [ProductCreated(ProductOf(body))] == [ProductCreated(ProductOf(body))];
    RecommendationSendsQueues(body.productId, OrEmpty(body.recommendations), PRODUCTS_BINDING);
    ReviewSendsQueues(body.productId, OrEmpty(body.reviews), PRODUCTS_BINDING);
  }

  /** One recommendation CREATE per supplied summary reaches the
      recommendations binding, in list order; none for an absent list. */
  lemma CreateSendsRecommendationQueue(body: ProductAggregate)
    ensures var q := SentTo(CreateSends(body), RECOMMENDATIONS_BINDING);
            var ss := OrEmpty(body.recommendations);
            && |q| == |ss|
            && forall i :: 0 <= i < |ss| ==> q[i] == RecommendationCreated(RecommendationOf(body.productId, ss[i])).message
  {
    CreateSendsSplit(body, RECOMMENDATIONS_BINDING);
    OneSendTouchesOneQueue([], ProductCreated(ProductOf(body)), RECOMMENDATIONS_BINDING);
    assert [] + [ProductCreated(ProductOf(body))] == [ProductCreated(ProductOf(body))];
    RecommendationSendsQueues(body.productId, OrEmpty(body.recommendations), RECOMMENDATIONS_BINDING);
    ReviewSendsQueues(body.productId, OrEmpty(body.reviews), RECOMMENDATIONS_BINDING);
  }

  /** One review CREATE per supplied summary reaches the reviews binding, in
      list order; none for an absent list. */
  lemma CreateSendsReviewQueue(body: ProductAggregate)
    ensures var q := SentTo(CreateSends(body), REVIEWS_BINDING);
            var ss := OrEmpty(body.reviews);
            && |q| == |ss|
            && forall i :: 0 <= i < |ss| ==> q[i] == ReviewCreated(ReviewOf(body.productId, ss[i])).message
  {
    CreateSendsSplit(body, REVIEWS_BINDING);
    OneSendTouchesOneQueue([], ProductCreated(ProductOf(body)), REVIEWS_BINDING);
    assert [] + [ProductCreated(ProductOf(body))] == [ProductCreated(ProductOf(body))];
    RecommendationSendsQueues(body.productId, OrEmpty(body.recommendations), REVIEWS_BINDING);
    ReviewSendsQueues(body.productId, OrEmpty(body.reviews), REVIEWS_BINDING);
  }

  /** A composite create sends nothing to any other binding. */
  lemma CreateSendsNothingElse(body: ProductAggregate, binding: string)
    requires binding != PRODUCTS_BINDING && binding != RECOMMENDATIONS_BINDING && binding != REVIEWS_BINDING
    ensures SentTo(CreateSends(body), binding) == []
  {
    CreateSendsSplit(body, binding);
    OneSendTouchesOneQueue([], ProductCreated(ProductOf(body)), binding);
    assert [] + [ProductCreated(ProductOf(body))] == [ProductCreated(ProductOf(body))];
    RecommendationSendsQueues(body.productId, OrEmpty(body.recommendations), binding);
    ReviewSendsQueues(body.productId, OrEmpty(body.reviews), binding);
  }

  /** The product id an event's entity carries. */
  function PayloadProductId(p: Payload): int
  {
    match p
    case ProductPayload(e) => e.productId
    case RecommendationPayload(e) => e.productId
    case ReviewPayload(e) => e.productId
  }

  /** The service address an event's entity carries. */
  function PayloadAddress(p: Payload): Option<string>
  {
    match p
    case ProductPayload(e) => e.serviceAddress
    case RecommendationPayload(e) => e.serviceAddress
    case ReviewPayload(e) => e.serviceAddress
  }

  /** Every event of a composite create is a CREATE keyed and partitioned by the
      aggregate's product id, and its entity carries that id (never one taken
      from a summary) and no service address. */
  lemma CreateSendsKeyed(body: ProductAggregate, i: nat)
    requires i < |CreateSends(body)|
    ensures var m := CreateSends(body)[i].message;
      && m.partitionKey == body.productId
      && m.payload.key == body.productId
      && m.payload.eventType == Create
      && m.payload.data.Some?
      && PayloadProductId(m.payload.data.value) == body.productId
      && PayloadAddress(m.payload.data.value) == None
  {
    var recs := OrEmpty(body.recommendations);
    var revs := OrEmpty(body.reviews);
    if 1 <= i < 1 + |recs| {
      RecommendationSendsAt(body.productId, recs, i - 1);
    } else if 1 + |recs| <= i {
      ReviewSendsAt(body.productId, revs, i - 1 - |recs|);
    }
  }

  /** A composite delete puts exactly one DELETE, keyed by the id and without
      data, on each of the three bindings, and nothing anywhere else. */
  lemma DeleteSendsQueues(productId: int, binding: string)
    ensures binding in {PRODUCTS_BINDING, RECOMMENDATIONS_BINDING, REVIEWS_BINDING} ==>
              SentTo(DeleteSends(productId), binding) == [Message(Event(Delete, productId, None), productId)]
    ensures binding !in {PRODUCTS_BINDING, RECOMMENDATIONS_BINDING, REVIEWS_BINDING} ==>
              SentTo(DeleteSends(productId), binding) == []
  {
    var d := DeleteSends(productId);
    OneSendTouchesOneQueue([], d[0], binding);
    assert [] + [d[0]] == d[..1];
    OneSendTouchesOneQueue(d[..1], d[1], binding);
    assert d[..1] + [d[1]] == d[..2];
    OneSendTouchesOneQueue(d[..2], d[2], binding);
    assert d[..2] + [d[2]] == d;
  }

  /** A create followed by a delete of the same product reaches the products
      binding in that order, and so does every later delete. */
  lemma CreateThenDeleteInOrder(body: ProductAggregate)
    ensures SentTo(CreateSends(body) + DeleteSends(body.productId), PRODUCTS_BINDING) ==
              [ProductCreated(ProductOf(body)).message, Deleted(PRODUCTS_BINDING, body.productId).message]
  {
    SentToAppend(CreateSends(body), DeleteSends(body.productId), PRODUCTS_BINDING);
    CreateSendsProductQueue(body);
    DeleteSendsQueues(body.productId, PRODUCTS_BINDING);
  }

  /** A create followed by a delete of the same product reaches the
      recommendations binding as the create's recommendations, in order,
      then the DELETE. */
  lemma CreateThenDeleteRecommendationsInOrder(body: ProductAggregate)
    ensures var q := SentTo(CreateSends(body) + DeleteSends(body.productId), RECOMMENDATIONS_BINDING);
            var ss := OrEmpty(body.recommendations);
            && |q| == |ss| + 1
            && (forall i :: 0 <= i < |ss| ==> q[i] == RecommendationCreated(RecommendationOf(body.productId, ss[i])).message)
            && q[|ss|] == Deleted(RECOMMENDATIONS_BINDING, body.productId).message
  {
    SentToAppend(CreateSends(body), DeleteSends(body.productId), RECOMMENDATIONS_BINDING);
    CreateSendsRecommendationQueue(body);
    DeleteSendsQueues(body.productId, RECOMMENDATIONS_BINDING);
  }

  /** A create followed by a delete of the same product reaches the reviews
      binding as the create's reviews, in order, then the DELETE. */
  lemma CreateThenDeleteReviewsInOrder(body: ProductAggregate)
    ensures var q := SentTo(CreateSends(body) + DeleteSends(body.productId), REVIEWS_BINDING);
            var ss := OrEmpty(body.reviews);
            && |q| == |ss| + 1
            && (forall i :: 0 <= i < |ss| ==> q[i] == ReviewCreated(ReviewOf(body.productId, ss[i])).message)
            && q[|ss|] == Deleted(REVIEWS_BINDING, body.productId).message
  {
    SentToAppend(CreateSends(body), DeleteSends(body.productId), REVIEWS_BINDING);
    CreateSendsReviewQueue(body);
    DeleteSendsQueues(body.productId, REVIEWS_BINDING);
  }

  /** Deleting twice sends two DELETEs on each binding, one per request. */
  lemma DeleteTwiceSendsTwice(productId: int, binding: string)
    requires binding in {PRODUCTS_BINDING, RECOMMENDATIONS_BINDING, REVIEWS_BINDING}
    ensures SentTo(DeleteSends(productId) + DeleteSends(productId), binding) ==
              [Deleted(binding, productId).message, Deleted(binding, productId).message]
  {
    SentToAppend(DeleteSends(productId), DeleteSends(productId), binding);
    DeleteSendsQueues(productId, binding);
  }

  class ProductCompositeServiceImpl {
    const serviceAddress: string
    const integration: ProductCompositeIntegration

    ghost predicate Valid()
      reads integration.streamBridge
    {
      integration.Valid()
    }

    constructor (serviceAddress: string, integration: ProductCompositeIntegration)
      requires integration.Valid()
      ensures Valid()
      ensures this.serviceAddress == serviceAddress && this.integration == integration
    {
      this.serviceAddress := serviceAddress;
      this.integration := integration;
    }

    /** Reads the aggregate of `productId`. */
    function GetProduct(productId: int, webClient: WebClient): (r: Result<ProductAggregate>)
      ensures integration.GetProduct(productId, webClient.products).Err? ==>
                r == Err(integration.GetProduct(productId, webClient.products).error)
      ensures integration.GetProduct(productId, webClient.products) == Ok(None) ==>
                r == Err(NotFound("No product found for productId: " + IntToString(productId)))
      ensures integration.GetProduct(productId, webClient.products).Ok?
              && integration.GetProduct(productId, webClient.products).value.Some? ==>
                r == Ok(CreateProductAggregate(
                       integration.GetProduct(productId, webClient.products).value.value,
                       Some(integration.GetRecommendations(productId, webClient.recommendations)),
                       Some(integration.GetReviews(productId, webClient.reviews)),
                       serviceAddress))
    {
      match integration.GetProduct(productId, webClient.products)
      case Err(e) => Err(e)
      case Ok(None) => Err(NotFound("No product found for productId: " + IntToString(productId)))
      case Ok(Some(product)) =>
        var recommendations := integration.GetRecommendations(productId, webClient.recommendations);
        var reviews := integration.GetReviews(productId, webClient.reviews);
        Ok(CreateProductAggregate(product, Some(recommendations), Some(reviews), serviceAddress))
    }

    /** The read fails exactly when the product read fails or finds nothing,
        and then with the same error whatever the other two reads return. */
    lemma GetProductFailsOnlyWithProduct(
      productId: int, webClient: WebClient,
      recommendations: string -> Result<seq<Recommendation>>, reviews: string -> Result<seq<Review>>)
      ensures GetProduct(productId, webClient).Err? <==>
                integration.GetProduct(productId, webClient.products).Err?
                || integration.GetProduct(productId, webClient.products) == Ok(None)
      ensures var other := WebClient(webClient.products, recommendations, reviews);
              GetProduct(productId, webClient).Err? ==> GetProduct(productId, other) == GetProduct(productId, webClient)
    {
    }

    /** A product read that finds nothing fails the whole read with NotFound. */
    lemma GetProductNotFound(productId: int, webClient: WebClient)
      requires webClient.products(integration.ProductUrl(productId)) == Ok(None)
      ensures GetProduct(productId, webClient) == Err(NotFound("No product found for productId: " + IntToString(productId)))
    {
    }

    /** NotFound and InvalidInput from the product read reach the caller with
        their message unchanged; an upstream 404 or 422 response becomes
        NotFound or InvalidInput with the message of its error body. */
    lemma GetProductPropagatesProductErrors(productId: int, webClient: WebClient, e: Exception)
      requires webClient.products(integration.ProductUrl(productId)) == Err(e)
      ensures e.NotFound? || e.InvalidInput? ==> GetProduct(productId, webClient) == Err(e)
      ensures e.ResponseError? && e.status == NOT_FOUND ==>
                GetProduct(productId, webClient) == Err(NotFound(integration.GetErrorMessage(e)))
      ensures e.ResponseError? && e.status == UNPROCESSABLE_ENTITY ==>
                GetProduct(productId, webClient) == Err(InvalidInput(integration.GetErrorMessage(e)))
    {
    }

    /** With the product found, the aggregate copies its scalar fields and its
        address, and reports this service's own address. */
    lemma GetProductCopiesProduct(productId: int, webClient: WebClient, p: Product)
      requires webClient.products(integration.ProductUrl(productId)) == Ok(Some(p))
      ensures GetProduct(productId, webClient).Ok?
      ensures var a := GetProduct(productId, webClient).value;
        && a.productId == p.productId && a.name == p.name && a.weight == p.weight
        && a.serviceAddresses.Some?
        && a.serviceAddresses.value.productAddress == p.serviceAddress
        && a.serviceAddresses.value.compositeAddress == serviceAddress
    {
    }

    /** With the product found, a failed recommendation read gives no
        recommendations and an empty recommendation address, and a failed
        review read gives no reviews and an empty review address; the read
        still succeeds. */
    lemma GetProductDegradesSecondaryFailures(productId: int, webClient: WebClient, p: Product)
      requires webClient.products(integration.ProductUrl(productId)) == Ok(Some(p))
      ensures GetProduct(productId, webClient).Ok?
      ensures webClient.recommendations(integration.RecommendationsUrl(productId)).Err? ==>
                && GetProduct(productId, webClient).value.recommendations == Some([])
                && GetProduct(productId, webClient).value.serviceAddresses.value.recommendationAddress == Some("")
      ensures webClient.reviews(integration.ReviewsUrl(productId)).Err? ==>
                && GetProduct(productId, webClient).value.reviews == Some([])
                && GetProduct(productId, webClient).value.serviceAddresses.value.reviewAddress == Some("")
    {
      var a := GetProduct(productId, webClient).value;
      if webClient.recommendations(integration.RecommendationsUrl(productId)).Err? {
        assert a.recommendations.value == [];
      }
      if webClient.reviews(integration.ReviewsUrl(productId)).Err? {
        assert a.reviews.value == [];
      }
    }

    /** With everything found, one summary per recommendation and per review,
        in order, and each list's address is that of its first element. */
    lemma GetProductSummarizesAll(
      productId: int, webClient: WebClient, p: Product, rs: seq<Recommendation>, vs: seq<Review>)
      requires webClient.products(integration.ProductUrl(productId)) == Ok(Some(p))
      requires webClient.recommendations(integration.RecommendationsUrl(productId)) == Ok(rs)
      requires webClient.reviews(integration.ReviewsUrl(productId)) == Ok(vs)
      ensures GetProduct(productId, webClient).Ok?
      ensures var a := GetProduct(productId, webClient).value;
        && a.recommendations == Some(RecommendationSummaries(rs))
        && a.reviews == Some(ReviewSummaries(vs))
        && a.serviceAddresses.value.recommendationAddress == (if |rs| > 0 then rs[0].serviceAddress else Some(""))
        && a.serviceAddresses.value.reviewAddress == (if |vs| > 0 then vs[0].serviceAddress else Some(""))
    {
    }

    /** A product the core service does not have reaches the composite's
        caller as a 404 whose message is the one the core service wrote, on
        the composite's own request path. */
    lemma NotFoundReachesCaller(
      productId: int, webClient: WebClient, corePath: string, compositePath: string, message: string,
      raw: string, body: string)
      requires integration.mapper(body) == ErrorHandling.ErrorResponse(corePath, NotFound(message))
      requires webClient.products(integration.ProductUrl(productId)) == Err(ResponseError(NOT_FOUND, raw, body))
      ensures GetProduct(productId, webClient) == Err(NotFound(message))
      ensures ErrorHandling.ErrorResponse(compositePath, GetProduct(productId, webClient).error) ==
                Some(HttpErrorInfo(404, compositePath, message))
    {
      integration.HandleExceptionRecoversUpstreamError(corePath, NotFound(message), raw, body);
    }

    /** A composite create: the product first, then each supplied
        recommendation, then each supplied review. */
    method CreateProduct(body: ProductAggregate)
      requires Valid()
      modifies integration.streamBridge
      ensures Valid()
      ensures integration.streamBridge.history == old(integration.streamBridge.history) + CreateSends(body)
    {
      var product := Product(body.productId, body.name, body.weight, None);
      var _ := integration.CreateProduct(product);
      if body.recommendations.Some? {
        CreateRecommendations(body.productId, body.recommendations.value);
      }
      if body.reviews.Some? {
        CreateReviews(body.productId, body.reviews.value);
      }
    }

    /** The recommendations part of a composite create: one CREATE per
        summary, in list order, under the aggregate's product id. */
    method CreateRecommendations(productId: int, rs: seq<RecommendationSummary>)
      requires Valid()
      modifies integration.streamBridge
      ensures Valid()
      ensures integration.streamBridge.history ==
                old(integration.streamBridge.history) + RecommendationSends(productId, rs)
    {
      ghost var start := integration.streamBridge.history;
      var i := 0;
      while i < |rs|
        invariant 0 <= i <= |rs|
        invariant Valid()
        invariant integration.streamBridge.history == start + RecommendationSends(productId, rs[..i])
      {
        var r := rs[i];
        var recommendation := Recommendation(productId, r.recommendationId, r.author, r.rating, r.content, None);
        var _ := integration.CreateRecommendation(recommendation);
        assert rs[..i + 1][..i] == rs[..i];
        i := i + 1;
      }
      assert rs[..|rs|] == rs;
    }

    /** The reviews part of a composite create: one CREATE per summary, in
        list order, under the aggregate's product id. */
    method CreateReviews(productId: int, vs: seq<ReviewSummary>)
      requires Valid()
      modifies integration.streamBridge
      ensures Valid()
      ensures integration.streamBridge.history == old(integration.streamBridge.history) + ReviewSends(productId, vs)
    {
      ghost var start := integration.streamBridge.history;
      var i := 0;
      while i < |vs|
        invariant 0 <= i <= |vs|
        invariant Valid()
        invariant integration.streamBridge.history == start + ReviewSends(productId, vs[..i])
      {
        var v := vs[i];
        var review := Review(productId, v.reviewId, v.author, v.subject, v.content, None);
        var _ := integration.CreateReview(review);
        assert vs[..i + 1][..i] == vs[..i];
        i := i + 1;
      }
      assert vs[..|vs|] == vs;
    }

    /** A composite delete: one DELETE each for products, recommendations and reviews. */
    method DeleteProduct(productId: int)
      requires Valid()
      modifies integration.streamBridge
      ensures Valid()
      ensures integration.streamBridge.history == old(integration.streamBridge.history) + DeleteSends(productId)
    {
      integration.DeleteProduct(productId);
      integration.DeleteRecommendations(productId);
      integration.DeleteReviews(productId);
    }
  }
}

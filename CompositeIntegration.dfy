/**
  The composite service's gateway to the three core services
  (ProductCompositeIntegration): reads go to the core services over HTTP,
  writes become events on the stream bridge.

  The HTTP client is a parameter of each read: a function from the request URL
  to the upstream's reply (a value, or the exception the call raised). The
  JSON reader that parses an upstream error body is the `mapper` constant.
 */
module CompositeIntegration {
  import opened Api
  import opened Text
  import opened Outbox
  import ErrorHandling

  const PRODUCTS_BINDING: string := "products-out-0"
  const RECOMMENDATIONS_BINDING: string := "recommendations-out-0"
  const REVIEWS_BINDING: string := "reviews-out-0"

  /** The base URL of a core service. */
  function ServiceUrl(host: string, port: string): string
  {
    "http://" + host + ":" + port
  }

  /** A base URL is the scheme, then the host, a colon and the port, each at a
      fixed place, so host and port can be read back from it. */
  lemma ServiceUrlShape(host: string, port: string)
    ensures ServiceUrl(host, port)[..7] == "http://"
    ensures ServiceUrl(host, port)[7..7 + |host|] == host
    ensures ServiceUrl(host, port)[7 + |host|] == ':'
    ensures ServiceUrl(host, port)[8 + |host|..] == port
  {
  }

  /** The message that carries `event`, with its key as the partition key header. */
  function MessageOf(event: Event<Payload>): Message
  {
    Message(event, event.key)
  }

  /** The send that creates `body` in the product service. */
  function ProductCreated(body: Product): Sent
  {
    Sent(PRODUCTS_BINDING, MessageOf(Event(Create, body.productId, Some(ProductPayload(body)))))
  }

  /** The send that creates `body` in the recommendation service. */
  function RecommendationCreated(body: Recommendation): Sent
  {
    Sent(RECOMMENDATIONS_BINDING, MessageOf(Event(Create, body.productId, Some(RecommendationPayload(body)))))
  }

  /** The send that creates `body` in the review service. */
  function ReviewCreated(body: Review): Sent
  {
    Sent(REVIEWS_BINDING, MessageOf(Event(Create, body.productId, Some(ReviewPayload(body)))))
  }

  /** The send that deletes everything keyed by `productId` behind `binding`. */
  function Deleted(binding: string, productId: int): Sent
  {
    Sent(binding, MessageOf(Event(Delete, productId, None)))
  }

  /** Every send built here is keyed by its entity's product id, carries that
      key as its partition key, and carries data exactly when it creates. */
  lemma SendsAreKeyed(p: Product, r: Recommendation, v: Review, binding: string, id: int)
    ensures ProductCreated(p).message.partitionKey == ProductCreated(p).message.payload.key == p.productId
    ensures RecommendationCreated(r).message.partitionKey == RecommendationCreated(r).message.payload.key == r.productId
    ensures ReviewCreated(v).message.partitionKey == ReviewCreated(v).message.payload.key == v.productId
    ensures Deleted(binding, id).message.partitionKey == Deleted(binding, id).message.payload.key == id
    ensures ProductCreated(p).message.payload.data == Some(ProductPayload(p))
    ensures RecommendationCreated(r).message.payload.data == Some(RecommendationPayload(r))
    ensures ReviewCreated(v).message.payload.data == Some(ReviewPayload(v))
    ensures Deleted(binding, id).message.payload.data == None
  {
  }

  class ProductCompositeIntegration {
    const mapper: string -> Option<HttpErrorInfo>
    const streamBridge: StreamBridge
    const productServiceUrl: string
    const recommendationServiceUrl: string
    const reviewServiceUrl: string

    ghost predicate Valid()
      reads streamBridge
    {
      streamBridge.Valid()
    }

    constructor (
      mapper: string -> Option<HttpErrorInfo>, streamBridge: StreamBridge,
      productServiceHost: string, productServicePort: string,
      recommendationServiceHost: string, recommendationServicePort: string,
      reviewServiceHost: string, reviewServicePort: string)
      requires streamBridge.Valid()
      ensures Valid()
      ensures this.mapper == mapper && this.streamBridge == streamBridge
      ensures productServiceUrl == "http://" + productServiceHost + ":" + productServicePort
      ensures recommendationServiceUrl == "http://" + recommendationServiceHost + ":" + recommendationServicePort
      ensures reviewServiceUrl == "http://" + reviewServiceHost + ":" + reviewServicePort
    {
      this.mapper := mapper;
      this.streamBridge := streamBridge;
      productServiceUrl := ServiceUrl(productServiceHost, productServicePort);
      recommendationServiceUrl := ServiceUrl(recommendationServiceHost, recommendationServicePort);
      reviewServiceUrl := ServiceUrl(reviewServiceHost, reviewServicePort);
    }

    function ProductUrl(productId: int): string
    {
      productServiceUrl + "/product/" + IntToString(productId)
    }

    function RecommendationsUrl(productId: int): string
    {
      recommendationServiceUrl + "/recommendation?productId=" + IntToString(productId)
    }

    function ReviewsUrl(productId: int): string
    {
      reviewServiceUrl + "/review?productId=" + IntToString(productId)
    }

    /** Each upstream URL names exactly one product id: different ids never
        share a URL. */
    lemma UrlsDetermineProductId(a: int, b: int)
      ensures ProductUrl(a) == ProductUrl(b) ==> a == b
      ensures RecommendationsUrl(a) == RecommendationsUrl(b) ==> a == b
      ensures ReviewsUrl(a) == ReviewsUrl(b) ==> a == b
    {
      PrefixedIdInjective(productServiceUrl + "/product/", a, b);
      PrefixedIdInjective(recommendationServiceUrl + "/recommendation?productId=", a, b);
      PrefixedIdInjective(reviewServiceUrl + "/review?productId=", a, b);
    }

    /** The message of an upstream error: the `message` of the error body when
        it parses, else the exception's own message. */
    function GetErrorMessage(exception: Exception): (m: string)
      requires exception.ResponseError?
      ensures mapper(exception.body).Some? ==> m == mapper(exception.body).value.message
      ensures mapper(exception.body).None? ==> m == exception.message
    {
      match mapper(exception.body)
      case Some(info) => info.message
      case None => exception.message
    }

    /** Classifies a failed upstream call: 404 becomes NotFound and 422
        InvalidInput, each with the upstream's message; anything else is
        returned unchanged. */
    function HandleException(exception: Exception): (r: Exception)
      ensures !exception.ResponseError? ==> r == exception
      ensures exception.ResponseError? && exception.status == NOT_FOUND ==> r == NotFound(GetErrorMessage(exception))
      ensures exception.ResponseError? && exception.status == UNPROCESSABLE_ENTITY ==> r == InvalidInput(GetErrorMessage(exception))
      ensures exception.ResponseError? && exception.status != NOT_FOUND && exception.status != UNPROCESSABLE_ENTITY ==> r == exception
    {
      if !exception.ResponseError? then exception
      else if exception.status == NOT_FOUND then NotFound(GetErrorMessage(exception))
      else if exception.status == UNPROCESSABLE_ENTITY then InvalidInput(GetErrorMessage(exception))
      else exception
    }

    /** When a core service fails with NotFound or InvalidInput and its error
        body parses back to what its exception handler wrote, the composite
        raises the same exception with the same message. Any other handled
        failure (BadRequest) comes back as the raw response error. */
    lemma HandleExceptionRecoversUpstreamError(path: string, upstream: Exception, raw: string, body: string)
      requires ErrorHandling.IsHandled(upstream)
      requires mapper(body) == ErrorHandling.ErrorResponse(path, upstream)
      ensures var ex := ResponseError(ErrorHandling.StatusFor(upstream), raw, body);
        && (upstream.NotFound? || upstream.InvalidInput? ==> HandleException(ex) == upstream)
        && (upstream.BadRequest? ==> HandleException(ex) == ex)
    {
      ErrorHandling.ErrorResponseFaithful(path, upstream);
    }

    /** Reads a product: an error response is classified, any other failure
        propagates as it is, and an empty body reads as `None`. */
    function GetProduct(productId: int, webClient: string -> Result<Option<Product>>): (r: Result<Option<Product>>)
      ensures webClient(ProductUrl(productId)).Ok? ==> r == webClient(ProductUrl(productId))
      ensures webClient(ProductUrl(productId)).Err? ==>
                r == Err(HandleException(webClient(ProductUrl(productId)).error))
    {
      match webClient(ProductUrl(productId))
      case Ok(p) => Ok(p)
      case Err(ex) => if ex.ResponseError? then Err(HandleException(ex)) else Err(ex)
    }

    /** Reads the recommendations of a product; any failure reads as none. */
    function GetRecommendations(productId: int, webClient: string -> Result<seq<Recommendation>>): (r: seq<Recommendation>)
      ensures webClient(RecommendationsUrl(productId)).Ok? ==> r == webClient(RecommendationsUrl(productId)).value
      ensures webClient(RecommendationsUrl(productId)).Err? ==> r == []
    {
      match webClient(RecommendationsUrl(productId))
      case Ok(rs) => rs
      case Err(_) => []
    }

    /** Reads the reviews of a product; any failure reads as none. */
    function GetReviews(productId: int, webClient: string -> Result<seq<Review>>): (r: seq<Review>)
      ensures webClient(ReviewsUrl(productId)).Ok? ==> r == webClient(ReviewsUrl(productId)).value
      ensures webClient(ReviewsUrl(productId)).Err? ==> r == []
    {
      match webClient(ReviewsUrl(productId))
      case Ok(vs) => vs
      case Err(_) => []
    }

    /** Hands `event` to the stream bridge on `bindingName`, with the event's
        key as the `partitionKey` header. */
    method SendMessage(bindingName: string, event: Event<Payload>)
      requires Valid()
      modifies streamBridge
      ensures Valid()
      ensures streamBridge.history == old(streamBridge.history) + [Sent(bindingName, Message(event, event.key))]
    {
      var message := Message(event, event.key);
      streamBridge.Send(bindingName, message);
    }

    method CreateProduct(body: Product) returns (r: Product)
      requires Valid()
      modifies streamBridge
      ensures Valid()
      ensures r == body
      ensures streamBridge.history == old(streamBridge.history) + [ProductCreated(body)]
    {
      SendMessage(PRODUCTS_BINDING, Event(Create, body.productId, Some(ProductPayload(body))));
      r := body;
    }

    method CreateRecommendation(body: Recommendation) returns (r: Recommendation)
      requires Valid()
      modifies streamBridge
      ensures Valid()
      ensures r == body
      ensures streamBridge.history == old(streamBridge.history) + [RecommendationCreated(body)]
    {
      SendMessage(RECOMMENDATIONS_BINDING, Event(Create, body.productId, Some(RecommendationPayload(body))));
      r := body;
    }

    method CreateReview(body: Review) returns (r: Review)
      requires Valid()
      modifies streamBridge
      ensures Valid()
      ensures r == body
      ensures streamBridge.history == old(streamBridge.history) + [ReviewCreated(body)]
    {
      SendMessage(REVIEWS_BINDING, Event(Create, body.productId, Some(ReviewPayload(body))));
      r := body;
    }

    method DeleteProduct(productId: int)
      requires Valid()
      modifies streamBridge
      ensures Valid()
      ensures streamBridge.history == old(streamBridge.history) + [Deleted(PRODUCTS_BINDING, productId)]
    {
      SendMessage(PRODUCTS_BINDING, Event(Delete, productId, None));
    }

    method DeleteRecommendations(productId: int)
      requires Valid()
      modifies streamBridge
      ensures Valid()
      ensures streamBridge.history == old(streamBridge.history) + [Deleted(RECOMMENDATIONS_BINDING, productId)]
    {
      SendMessage(RECOMMENDATIONS_BINDING, Event(Delete, productId, None));
    }

    method DeleteReviews(productId: int)
      requires Valid()
      modifies streamBridge
      ensures Valid()
      ensures streamBridge.history == old(streamBridge.history) + [Deleted(REVIEWS_BINDING, productId)]
    {
      SendMessage(REVIEWS_BINDING, Event(Delete, productId, None));
    }
  }
}

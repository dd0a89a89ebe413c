/**
  The value types shared by the services: the API records (products,
  recommendations, reviews and the composite aggregate), the change events
  sent between services, the exceptions the services raise and the error body
  they answer with.

  Java references that the services leave null on purpose (a `serviceAddress`
  that a mapper ignores, an absent list in a composite request, the data of a
  DELETE event) are `Option`s; every other field is a plain value.
 */
module Api {

  datatype Option<+T> = None | Some(value: T)

  /** The exceptions the services throw, as far as the model tells them apart. */
  datatype Exception =
    | NotFound(message: string)            // NotFoundException
    | InvalidInput(message: string)        // InvalidInputException
    | BadRequest(message: string)          // BadRequestException
    | EventProcessing(message: string)     // EventProcessingException
    /** A WebClientResponseException: the upstream answered with an HTTP error
        status; `message` is the exception's own message, `body` the response body. */
    | ResponseError(status: int, message: string, body: string)
    | NullPointer                          // dereferencing a null reference
    | Unexpected(message: string)          // any other failure (transport, timeout, ...)

  /** A call that returns a value or throws. */
  datatype Result<+T> = Ok(value: T) | Err(error: Exception)

  /** A call that returns nothing or throws. */
  datatype Outcome = Done | Fail(error: Exception)

  // Core API records (api/.../core)

  datatype Product = Product(productId: int, name: string, weight: int, serviceAddress: Option<string>)

  datatype Recommendation = Recommendation(
    productId: int, recommendationId: int, author: string, rating: int, content: string,
    serviceAddress: Option<string>)

  datatype Review = Review(
    productId: int, reviewId: int, author: string, subject: string, content: string,
    serviceAddress: Option<string>)

  // Composite API records (api/.../composite)

  /** Four fields, as the composite service constructs it (with `content`). */
  datatype RecommendationSummary = RecommendationSummary(
    recommendationId: int, author: string, rating: int, content: string)

  datatype ReviewSummary = ReviewSummary(reviewId: int, author: string, subject: string, content: string)

  /** The addresses of the instances that served each part of an aggregate. */
  datatype ServiceAddresses = ServiceAddresses(
    compositeAddress: string, productAddress: Option<string>,
    reviewAddress: Option<string>, recommendationAddress: Option<string>)

  datatype ProductAggregate = ProductAggregate(
    productId: int, name: string, weight: int,
    recommendations: Option<seq<RecommendationSummary>>,
    reviews: Option<seq<ReviewSummary>>,
    serviceAddresses: Option<ServiceAddresses>)

  // Events

  /** CREATE and DELETE are the types the services send; `Unknown` stands for
      any other value a consumer may receive. */
  datatype EventType = Create | Delete | Unknown(name: string)

  function EventTypeName(t: EventType): string
  {
    match t
    case Create => "CREATE"
    case Delete => "DELETE"
    case Unknown(n) => n
  }

  /** A change event; its creation timestamp is not modelled. */
  datatype Event<+T> = Event(eventType: EventType, key: int, data: Option<T>)

  /** The entity a composite-side event carries. */
  datatype Payload =
    | ProductPayload(product: Product)
    | RecommendationPayload(recommendation: Recommendation)
    | ReviewPayload(review: Review)

  /** A message handed to the stream bridge: an event and its `partitionKey` header. */
  datatype Message = Message(payload: Event<Payload>, partitionKey: int)

  /** The error body every service answers with (HttpErrorInfo); its timestamp
      is not modelled. */
  datatype HttpErrorInfo = HttpErrorInfo(httpStatus: int, path: string, message: string)

  const BAD_REQUEST: int := 400
  const NOT_FOUND: int := 404
  const UNPROCESSABLE_ENTITY: int := 422
}

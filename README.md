# Product composite microservices: a Dafny model

This project models the core of a set of Spring microservices for a product
catalogue:

- **The composite service** reads one product aggregate from three core
  services over HTTP. The core services are product, recommendation and
  review.
- **Composite writes** are split into events. Each event is published on a
  stream binding: `products-out-0`, `recommendations-out-0` or
  `reviews-out-0`.
- **The product service** stores products keyed by product id. It consumes
  the CREATE and DELETE events of its binding.
- **The review service** answers the reviews of a product, each stamped with
  its own address.
- **The mappers** convert between API records and stored entities.
- **The shared exception handler** turns the API exceptions into HTTP error
  bodies.

Modules, one per source component:

| module | models |
|---|---|
| `Api` | The API records and events, the exception kinds, and `Result`/`Option`. A nullable Java reference is an `Option` where null matters. |
| `Text` | Java's decimal rendering of an `int`, with a parse that undoes it. Messages and URLs built from an id therefore determine the id. |
| `ErrorHandling` | `GlobalControllerExceptionHandler` |
| `Outbox` | The stream bridge, as a class that keeps one queue of messages per binding. It records every send in a ghost history. |
| `CompositeIntegration` | `ProductCompositeIntegration`. The HTTP client is a parameter of each read: a function from the request URL to a reply or an exception. The JSON reader of an error body is the constant `mapper`. |
| `CompositeService` | `ProductCompositeServiceImpl`. Reads and the aggregate merge are functions. Create and delete are methods that loop over the request and send through the integration. |
| `ProductMapper`, `RecommendationMapper` | The two mappers, as field copies with round-trip lemmas. |
| `ProductCore` | `ProductServiceImpl` as a class over a map from product id to entity. The map's keys play the role of the unique index on `productId`. The store functions `CreateIn`, `GetFrom` and `DeleteFrom` specify its methods. |
| `MessageProcessor` | The consumer of `MessageProcessorConfig`. `Process` states what one event does to the product store. |
| `ReviewCore` | `ReviewServiceImpl.getReview`. The address is stamped in place over an array. |

Where two source files disagree, the model follows the code that runs:
`api/src/main/java/com/akt/api/composite/product/RecommendationSummary.java:5-13`
declares three fields, but `ProductCompositeServiceImpl.java:102-103`
constructs a summary with four, adding `content`. The model uses four.

## Model

| member | source | states |
|---|---|---|
| Text.IntToString | microservices/product-service/src/main/java/com/akt/microservices/core/product/services/ProductServiceImpl.java:52 | An id renders as a non-empty string that starts with a digit exactly when the id is non-negative, and with `-` exactly when it is negative. The rendering is canonical: no leading zero, except for `0` itself. |
| Text.ParseNatToString | microservices/product-service/src/main/java/com/akt/microservices/core/product/services/ProductServiceImpl.java:52 | Parsing the decimal digits of a natural gives the natural back. Proved by induction on the digits. |
| Text.ParseIntToString | microservices/product-service/src/main/java/com/akt/microservices/core/product/services/ProductServiceImpl.java:52 | Parsing the rendering of any `int` gives the `int` back. |
| Text.IntToStringInjective | microservices/product-service/src/main/java/com/akt/microservices/core/product/services/ProductServiceImpl.java:52 | Two ids render the same only if they are equal. |
| Text.PrefixedIdInjective | microservices/product-composite-service/src/main/java/com/akt/microservices/composite/product/services/ProductCompositeIntegration.java:77 | A fixed prefix followed by a rendered id determines the id. |
| ErrorHandling.StatusFor | util/src/main/java/com/akt/util/http/GlobalControllerExceptionHandler.java:22-44 | Each handled kind gets its own status: BadRequest exactly 400, NotFound exactly 404, InvalidInput exactly 422. |
| ErrorHandling.CreateHttpErrorInfo | util/src/main/java/com/akt/util/http/GlobalControllerExceptionHandler.java:46-54 | The error body carries the given status, the request path and the exception's message, all unchanged. |
| ErrorHandling.HandleBadRequestExceptions | util/src/main/java/com/akt/util/http/GlobalControllerExceptionHandler.java:22-28 | A BadRequest becomes status 400 with the path and its message. |
| ErrorHandling.HandleNotFoundExceptions | util/src/main/java/com/akt/util/http/GlobalControllerExceptionHandler.java:30-36 | A NotFound becomes status 404 with the path and its message. |
| ErrorHandling.HandleInvalidInputException | util/src/main/java/com/akt/util/http/GlobalControllerExceptionHandler.java:38-44 | An InvalidInput becomes status 422 with the path and its message. |
| ErrorHandling.ErrorResponse | util/src/main/java/com/akt/util/http/GlobalControllerExceptionHandler.java:22-44 | The advice answers an exception exactly when it is one of the three handled kinds. |
| ErrorHandling.ErrorResponseFaithful | util/src/main/java/com/akt/util/http/GlobalControllerExceptionHandler.java:22-54 | Every handled exception is answered with its own status, the path and its own message. The status is one of 400, 404 and 422. |
| Outbox.SentToAppend | microservices/product-composite-service/src/main/java/com/akt/microservices/composite/product/services/ProductCompositeIntegration.java:229-235 | The queue of a binding after two runs of sends is the first run's messages for it, then the second run's. Proved by induction. |
| Outbox.OneSendTouchesOneQueue | microservices/product-composite-service/src/main/java/com/akt/microservices/composite/product/services/ProductCompositeIntegration.java:234 | One send appends its message to its own binding's queue and leaves every other queue unchanged. |
| Outbox.SentToIn | microservices/product-composite-service/src/main/java/com/akt/microservices/composite/product/services/ProductCompositeIntegration.java:234 | A message is in a binding's queue if and only if a send of it to that binding is in the history. |
| Outbox.StreamBridge.Send | microservices/product-composite-service/src/main/java/com/akt/microservices/composite/product/services/ProductCompositeIntegration.java:234 | The message is appended to its binding's queue. Every other queue is unchanged, and the queues stay equal to the history projected per binding. |
| CompositeIntegration.ServiceUrlShape | microservices/product-composite-service/src/main/java/com/akt/microservices/composite/product/services/ProductCompositeIntegration.java:71-73 | A base URL is `http://`, then the host, then `:`, then the port, each at a fixed position. |
| CompositeIntegration.SendsAreKeyed | microservices/product-composite-service/src/main/java/com/akt/microservices/composite/product/services/ProductCompositeIntegration.java:120-195 | Each created or deleted event is keyed by the product id. That key is also the message's partition key. A create carries its body; a delete carries no data. |
| CompositeIntegration.ProductCompositeIntegration.constructor | microservices/product-composite-service/src/main/java/com/akt/microservices/composite/product/services/ProductCompositeIntegration.java:71-73 | The three base URLs are `"http://" + host + ":" + port`. |
| CompositeIntegration.ProductCompositeIntegration.UrlsDetermineProductId | microservices/product-composite-service/src/main/java/com/akt/microservices/composite/product/services/ProductCompositeIntegration.java:76-118 | Different product ids never share a product, recommendation or review URL. |
| CompositeIntegration.ProductCompositeIntegration.GetErrorMessage | microservices/product-composite-service/src/main/java/com/akt/microservices/composite/product/services/ProductCompositeIntegration.java:197-203 | The message is the parsed error body's message when the body parses, and the exception's own message otherwise. |
| CompositeIntegration.ProductCompositeIntegration.HandleException | microservices/product-composite-service/src/main/java/com/akt/microservices/composite/product/services/ProductCompositeIntegration.java:205-227 | 404 becomes NotFound and 422 becomes InvalidInput, each with the upstream message. Any other status, or an exception that is not an error response, is returned unchanged. |
| CompositeIntegration.ProductCompositeIntegration.HandleExceptionRecoversUpstreamError | microservices/product-composite-service/src/main/java/com/akt/microservices/composite/product/services/ProductCompositeIntegration.java:205-227 | Suppose a core service's NotFound or InvalidInput reaches the composite as its handler's error body. The composite then raises the same exception with the same message. A BadRequest stays a raw response error. |
| CompositeIntegration.ProductCompositeIntegration.GetProduct | microservices/product-composite-service/src/main/java/com/akt/microservices/composite/product/services/ProductCompositeIntegration.java:76-86 | Reads the product URL for the id. A reply is returned as it is. A failure is classified by `HandleException`. |
| CompositeIntegration.ProductCompositeIntegration.GetRecommendations | microservices/product-composite-service/src/main/java/com/akt/microservices/composite/product/services/ProductCompositeIntegration.java:88-102 | Reads the recommendation URL for the id. Any failure reads as the empty list. |
| CompositeIntegration.ProductCompositeIntegration.GetReviews | microservices/product-composite-service/src/main/java/com/akt/microservices/composite/product/services/ProductCompositeIntegration.java:104-118 | Reads the review URL for the id. Any failure reads as the empty list. |
| CompositeIntegration.ProductCompositeIntegration.SendMessage | microservices/product-composite-service/src/main/java/com/akt/microservices/composite/product/services/ProductCompositeIntegration.java:229-235 | Exactly one message is sent on the binding: the event, with the event's key as partition key. |
| CompositeIntegration.ProductCompositeIntegration.CreateProduct | microservices/product-composite-service/src/main/java/com/akt/microservices/composite/product/services/ProductCompositeIntegration.java:120-132 | Exactly one product CREATE is sent on `products-out-0`, and the body is returned unchanged. |
| CompositeIntegration.ProductCompositeIntegration.CreateRecommendation | microservices/product-composite-service/src/main/java/com/akt/microservices/composite/product/services/ProductCompositeIntegration.java:134-147 | Exactly one recommendation CREATE is sent on `recommendations-out-0`, and the body is returned unchanged. |
| CompositeIntegration.ProductCompositeIntegration.CreateReview | microservices/product-composite-service/src/main/java/com/akt/microservices/composite/product/services/ProductCompositeIntegration.java:149-162 | Exactly one review CREATE is sent on `reviews-out-0`, and the body is returned unchanged. |
| CompositeIntegration.ProductCompositeIntegration.DeleteProduct | microservices/product-composite-service/src/main/java/com/akt/microservices/composite/product/services/ProductCompositeIntegration.java:164-173 | Exactly one DELETE without data is sent on `products-out-0`. |
| CompositeIntegration.ProductCompositeIntegration.DeleteRecommendations | microservices/product-composite-service/src/main/java/com/akt/microservices/composite/product/services/ProductCompositeIntegration.java:175-184 | Exactly one DELETE without data is sent on `recommendations-out-0`. |
| CompositeIntegration.ProductCompositeIntegration.DeleteReviews | microservices/product-composite-service/src/main/java/com/akt/microservices/composite/product/services/ProductCompositeIntegration.java:186-195 | Exactly one DELETE without data is sent on `reviews-out-0`. |
| CompositeService.RecommendationSummaries | microservices/product-composite-service/src/main/java/com/akt/microservices/composite/product/services/ProductCompositeServiceImpl.java:100-104 | One summary per recommendation, in order. Each keeps the id, author, rating and content. |
| CompositeService.ReviewSummaries | microservices/product-composite-service/src/main/java/com/akt/microservices/composite/product/services/ProductCompositeServiceImpl.java:107-111 | One summary per review, in order. Each keeps the id, author, subject and content. |
| CompositeService.CreateProductAggregate | microservices/product-composite-service/src/main/java/com/akt/microservices/composite/product/services/ProductCompositeServiceImpl.java:90-121 | The aggregate copies the product's scalar fields. It summarizes each list elementwise, and a null list stays null. The composite address is the service's own. The product address is the product's. Each list address is its first element's, or `""` when the list is null or empty. |
| CompositeService.RecommendationSendsAt | microservices/product-composite-service/src/main/java/com/akt/microservices/composite/product/services/ProductCompositeServiceImpl.java:57-62 | The i-th recommendation send creates the i-th summary under the aggregate's product id. |
| CompositeService.ReviewSendsAt | microservices/product-composite-service/src/main/java/com/akt/microservices/composite/product/services/ProductCompositeServiceImpl.java:64-69 | The i-th review send creates the i-th summary under the aggregate's product id. |
| CompositeService.RecommendationSendsQueues | microservices/product-composite-service/src/main/java/com/akt/microservices/composite/product/services/ProductCompositeServiceImpl.java:57-62 | All recommendation creates go to `recommendations-out-0`, one per summary, in order. No other binding receives any. |
| CompositeService.ReviewSendsQueues | microservices/product-composite-service/src/main/java/com/akt/microservices/composite/product/services/ProductCompositeServiceImpl.java:64-69 | All review creates go to `reviews-out-0`, one per summary, in order. No other binding receives any. |
| CompositeService.CreateSendsSplit | microservices/product-composite-service/src/main/java/com/akt/microservices/composite/product/services/ProductCompositeServiceImpl.java:54-69 | On every binding, a composite create's queue is the product part, then the recommendations part, then the reviews part. |
| CompositeService.CreateSendsCount | microservices/product-composite-service/src/main/java/com/akt/microservices/composite/product/services/ProductCompositeServiceImpl.java:54-69 | A composite create sends 1 + (number of recommendations) + (number of reviews) events. A null list counts as zero. |
| CompositeService.CreateSendsProductQueue | microservices/product-composite-service/src/main/java/com/akt/microservices/composite/product/services/ProductCompositeServiceImpl.java:54-55 | Exactly one product CREATE reaches `products-out-0`. It holds the aggregate's id, name and weight and no address. |
| CompositeService.CreateSendsRecommendationQueue | microservices/product-composite-service/src/main/java/com/akt/microservices/composite/product/services/ProductCompositeServiceImpl.java:57-62 | `recommendations-out-0` receives one CREATE per supplied summary, in list order, and none for a null list. |
| CompositeService.CreateSendsReviewQueue | microservices/product-composite-service/src/main/java/com/akt/microservices/composite/product/services/ProductCompositeServiceImpl.java:64-69 | `reviews-out-0` receives one CREATE per supplied summary, in list order, and none for a null list. |
| CompositeService.CreateSendsNothingElse | microservices/product-composite-service/src/main/java/com/akt/microservices/composite/product/services/ProductCompositeServiceImpl.java:54-69 | A composite create sends nothing to any other binding. |
| CompositeService.CreateSendsKeyed | microservices/product-composite-service/src/main/java/com/akt/microservices/composite/product/services/ProductCompositeServiceImpl.java:54-66 | Every event of a composite create is a CREATE. Its key and partition key are the aggregate's product id. Its entity carries that id, never one from a summary, and no address. |
| CompositeService.DeleteSendsQueues | microservices/product-composite-service/src/main/java/com/akt/microservices/composite/product/services/ProductCompositeServiceImpl.java:83-85 | A composite delete puts exactly one DELETE, keyed by the id and without data, on each of the three bindings, and nothing on any other binding. |
| CompositeService.CreateThenDeleteInOrder | microservices/product-composite-service/src/main/java/com/akt/microservices/composite/product/services/ProductCompositeServiceImpl.java:48-88 | A create followed by a delete reaches `products-out-0` as that CREATE, then that DELETE. |
| CompositeService.CreateThenDeleteRecommendationsInOrder | microservices/product-composite-service/src/main/java/com/akt/microservices/composite/product/services/ProductCompositeServiceImpl.java:48-88 | A create followed by a delete reaches `recommendations-out-0` as the create's recommendation CREATEs, in list order, then the DELETE. |
| CompositeService.CreateThenDeleteReviewsInOrder | microservices/product-composite-service/src/main/java/com/akt/microservices/composite/product/services/ProductCompositeServiceImpl.java:48-88 | A create followed by a delete reaches `reviews-out-0` as the create's review CREATEs, in list order, then the DELETE. |
| CompositeService.DeleteTwiceSendsTwice | microservices/product-composite-service/src/main/java/com/akt/microservices/composite/product/services/ProductCompositeServiceImpl.java:80-88 | Deleting twice puts two identical DELETEs on each binding. |
| CompositeService.ProductCompositeServiceImpl.GetProduct | microservices/product-composite-service/src/main/java/com/akt/microservices/composite/product/services/ProductCompositeServiceImpl.java:33-46 | A failed product read fails the whole read with the same error. A product read that finds nothing fails with NotFound "No product found for productId: " + id. Otherwise the read is the aggregate of the product with the two list reads. |
| CompositeService.ProductCompositeServiceImpl.GetProductFailsOnlyWithProduct | microservices/product-composite-service/src/main/java/com/akt/microservices/composite/product/services/ProductCompositeServiceImpl.java:36-43 | The read fails exactly when the product read fails or finds nothing. It then fails with the same error whatever the other two reads return. |
| CompositeService.ProductCompositeServiceImpl.GetProductNotFound | microservices/product-composite-service/src/main/java/com/akt/microservices/composite/product/services/ProductCompositeServiceImpl.java:38-40 | An empty product reply fails with NotFound and the message built from the id. |
| CompositeService.ProductCompositeServiceImpl.GetProductPropagatesProductErrors | microservices/product-composite-service/src/main/java/com/akt/microservices/composite/product/services/ProductCompositeServiceImpl.java:36 | A NotFound or InvalidInput from the product read reaches the caller unchanged. An upstream 404 or 422 becomes NotFound or InvalidInput with its error body's message. |
| CompositeService.ProductCompositeServiceImpl.GetProductCopiesProduct | microservices/product-composite-service/src/main/java/com/akt/microservices/composite/product/services/ProductCompositeServiceImpl.java:45 | With the product found, the aggregate carries its id, name, weight and address, and the composite's own address. |
| CompositeService.ProductCompositeServiceImpl.GetProductDegradesSecondaryFailures | microservices/product-composite-service/src/main/java/com/akt/microservices/composite/product/services/ProductCompositeServiceImpl.java:42-45 | With the product found, a failed recommendation or review read gives an empty list and an empty address for it, and the read still succeeds. |
| CompositeService.ProductCompositeServiceImpl.GetProductSummarizesAll | microservices/product-composite-service/src/main/java/com/akt/microservices/composite/product/services/ProductCompositeServiceImpl.java:42-45 | With every read successful, the aggregate holds the summaries of all recommendations and reviews. Each list address is its first element's, or `""` for an empty list. |
| CompositeService.ProductCompositeServiceImpl.NotFoundReachesCaller | microservices/product-composite-service/src/main/java/com/akt/microservices/composite/product/services/ProductCompositeServiceImpl.java:36 | A product the core service lacks reaches the composite's caller as a 404. Its message is the one the core service wrote, and its path is the composite's own request path. |
| CompositeService.ProductCompositeServiceImpl.CreateProduct | microservices/product-composite-service/src/main/java/com/akt/microservices/composite/product/services/ProductCompositeServiceImpl.java:48-77 | The sends are exactly `CreateSends(body)`: the product, then each supplied recommendation in order, then each supplied review in order. The lemmas above state what each binding receives. |
| CompositeService.ProductCompositeServiceImpl.CreateRecommendations | microservices/product-composite-service/src/main/java/com/akt/microservices/composite/product/services/ProductCompositeServiceImpl.java:57-62 | The loop over the supplied recommendations sends exactly one CREATE per summary, in list order, each under the aggregate's product id and without an address. |
| CompositeService.ProductCompositeServiceImpl.CreateReviews | microservices/product-composite-service/src/main/java/com/akt/microservices/composite/product/services/ProductCompositeServiceImpl.java:64-69 | The loop over the supplied reviews sends exactly one CREATE per summary, in list order, each under the aggregate's product id and without an address. |
| CompositeService.ProductCompositeServiceImpl.DeleteProduct | microservices/product-composite-service/src/main/java/com/akt/microservices/composite/product/services/ProductCompositeServiceImpl.java:80-88 | The sends are exactly the product, recommendations and reviews DELETEs for the id, in that order. |
| ProductMapper.DtoToEntity | microservices/product-service/src/main/java/com/akt/microservices/core/product/services/ProductMapper.java:12-16 | The entity copies id, name and weight, and has no database id or version. |
| ProductMapper.EntityToDto | microservices/product-service/src/main/java/com/akt/microservices/core/product/services/ProductMapper.java:18-21 | The DTO copies id, name and weight, and has no address. |
| ProductMapper.DtoRoundTrip | microservices/product-service/src/main/java/com/akt/microservices/core/product/services/ProductMapper.java:12-21 | A DTO comes back unchanged except that its address is lost. A DTO without an address comes back identical. |
| ProductMapper.EntityRoundTrip | microservices/product-service/src/main/java/com/akt/microservices/core/product/services/ProductMapper.java:12-21 | An entity comes back unchanged except for its database id and version. |
| RecommendationMapper.DtoToEntity | microservices/recommendation-service/src/main/java/com/akt/microservices/core/recommendation/services/RecommendationMapper.java:14-18 | The entity copies the five API fields, and has no database id or version. |
| RecommendationMapper.EntityToDto | microservices/recommendation-service/src/main/java/com/akt/microservices/core/recommendation/services/RecommendationMapper.java:20-23 | The DTO copies the five fields, and has no address. |
| RecommendationMapper.DtoListToEntityList | microservices/recommendation-service/src/main/java/com/akt/microservices/core/recommendation/services/RecommendationMapper.java:25 | The list is mapped element by element, same length, same order. |
| RecommendationMapper.EntityListToDtoList | microservices/recommendation-service/src/main/java/com/akt/microservices/core/recommendation/services/RecommendationMapper.java:27 | The list is mapped element by element, same length, same order. |
| RecommendationMapper.DtoRoundTrip | microservices/recommendation-service/src/main/java/com/akt/microservices/core/recommendation/services/RecommendationMapper.java:14-23 | A DTO comes back unchanged except for its address. |
| RecommendationMapper.DtoListRoundTrip | microservices/recommendation-service/src/main/java/com/akt/microservices/core/recommendation/services/RecommendationMapper.java:25-27 | A list comes back element by element with only the addresses dropped. A list without addresses comes back identical. Proved by induction. |
| ProductCore.CreateIn | microservices/product-service/src/main/java/com/akt/microservices/core/product/services/ProductServiceImpl.java:32-45 | An id already stored is refused with InvalidInput "Duplicate key, Product Id: " + id, and the store is unchanged. A new id adds exactly that one entry and keeps every other entry. It answers the body without its address. |
| ProductCore.GetFrom | microservices/product-service/src/main/java/com/akt/microservices/core/product/services/ProductServiceImpl.java:48-64 | An id below 1 fails with InvalidInput "Invalid productId: " + id before any lookup. An absent id fails with NotFound. A stored id answers its fields with this service's address. In a store keyed by product id, the answer carries the requested id. |
| ProductCore.DeleteFrom | microservices/product-service/src/main/java/com/akt/microservices/core/product/services/ProductServiceImpl.java:67-70 | The id is absent afterwards and every other entry is kept. Deleting an absent id changes nothing. |
| ProductCore.CreateKeepsKeyed | microservices/product-service/src/main/java/com/akt/microservices/core/product/services/ProductServiceImpl.java:36-37 | Creating keeps every entry stored under its own product id. |
| ProductCore.DeleteKeepsKeyed | microservices/product-service/src/main/java/com/akt/microservices/core/product/services/ProductServiceImpl.java:69 | Deleting keeps every entry stored under its own product id. |
| ProductCore.DeleteIdempotent | microservices/product-service/src/main/java/com/akt/microservices/core/product/services/ProductServiceImpl.java:67-70 | Deleting twice is the same as deleting once. |
| ProductCore.CreateThenGet | microservices/product-service/src/main/java/com/akt/microservices/core/product/services/ProductServiceImpl.java:32-64 | A product just created is read back with its id, name and weight and this service's address. |
| ProductCore.DeleteThenGet | microservices/product-service/src/main/java/com/akt/microservices/core/product/services/ProductServiceImpl.java:48-70 | A product just deleted is not found. |
| ProductCore.ProductServiceImpl.CreateProduct | microservices/product-service/src/main/java/com/akt/microservices/core/product/services/ProductServiceImpl.java:32-45 | The answer and the new repository are exactly those of `CreateIn` on the old repository. |
| ProductCore.ProductServiceImpl.GetProduct | microservices/product-service/src/main/java/com/akt/microservices/core/product/services/ProductServiceImpl.java:48-64 | The answer is exactly `GetFrom` on the repository, and the repository is only read. |
| ProductCore.ProductServiceImpl.DeleteProduct | microservices/product-service/src/main/java/com/akt/microservices/core/product/services/ProductServiceImpl.java:67-70 | The new repository is exactly `DeleteFrom` of the old one. |
| MessageProcessor.Process | microservices/product-service/src/main/java/com/akt/microservices/core/product/services/MessageProcessorConfig.java:27-54 | CREATE creates the event's product, and a refusal of the create fails the event with the same error. CREATE without data fails with a null reference. DELETE deletes the key and succeeds. Any other type fails with EventProcessing "Incorrect event type: ..." and leaves the store unchanged. |
| MessageProcessor.ProcessKeepsKeyed | microservices/product-service/src/main/java/com/akt/microservices/core/product/services/MessageProcessorConfig.java:32-49 | Every event keeps every entry stored under its own id. |
| MessageProcessor.SecondCreateFails | microservices/product-service/src/main/java/com/akt/microservices/core/product/services/MessageProcessorConfig.java:33-37 | A redelivered CREATE fails with InvalidInput "Duplicate key, Product Id: " + id and changes nothing. |
| MessageProcessor.CreateThenDeleteRemoves | microservices/product-service/src/main/java/com/akt/microservices/core/product/services/MessageProcessorConfig.java:33-43 | A CREATE then a DELETE of a new id both succeed and restore the store, and a further DELETE succeeds and changes nothing. |
| MessageProcessor.ProcessCreateNew | microservices/product-service/src/main/java/com/akt/microservices/core/product/services/MessageProcessorConfig.java:33-37 | A CREATE for an id not yet stored succeeds and stores exactly the mapped entity under that id. |
| MessageProcessor.DeleteUndoesAdd | microservices/product-service/src/main/java/com/akt/microservices/core/product/services/ProductServiceImpl.java:67-70 | Deleting an id just added gives back the store it was added to. |
| MessageProcessor.RedeliveryLeavesStore | microservices/product-service/src/main/java/com/akt/microservices/core/product/services/MessageProcessorConfig.java:32-49 | Processing any event a second time leaves the store as the first time left it. |
| MessageProcessor.CompositeCreateReachesProductStore | microservices/product-composite-service/src/main/java/com/akt/microservices/composite/product/services/ProductCompositeServiceImpl.java:54-55 | Take the product event a composite create sends for a new, valid id. Processing it succeeds, and a read of the id returns the aggregate's id, name and weight with the product service's address. |
| MessageProcessor.MessageProcessorConfig.MessageProcessor | microservices/product-service/src/main/java/com/akt/microservices/core/product/services/MessageProcessorConfig.java:27-54 | The outcome and the new repository are exactly those of `Process` on the old repository. |
| ReviewCore.EntityToApi | microservices/review-service/src/main/java/com/akt/microservices/core/review/services/ReviewServiceImpl.java:42 | A stored review maps to the API record with the same five fields and no address. |
| ReviewCore.FindByProductId | microservices/review-service/src/main/java/com/akt/microservices/core/review/services/ReviewServiceImpl.java:41 | The query returns exactly the stored reviews of the product: a review is in the answer if and only if it is stored with that id. |
| ReviewCore.FindByProductIdAppend | microservices/review-service/src/main/java/com/akt/microservices/core/review/services/ReviewServiceImpl.java:41 | The query keeps the stored order: the matches of one part of the store come before those of a later part. Proved by induction. |
| ReviewCore.FindByProductIdAllOrNone | microservices/review-service/src/main/java/com/akt/microservices/core/review/services/ReviewServiceImpl.java:41-47 | A store holding only the product's reviews is returned whole. A store holding none of them gives the empty list, not an error. |
| ReviewCore.ReviewServiceImpl.GetReview | microservices/review-service/src/main/java/com/akt/microservices/core/review/services/ReviewServiceImpl.java:36-48 | An id below 1 fails with InvalidInput "Invalid productId: " + id, and only then. Otherwise the answer has one review per stored review of the product, in stored order, each with that product id and this service's address. The repository is not modified. |

## Left out

- Transport: the HTTP client, the message broker and the publishing scheduler are not modelled. A read's reply is an input. A send is always accepted.
- Reactive evaluation: Monos and Fluxes are modelled as the values they produce, evaluated eagerly and in program order. The source issues the three reads of a composite read one after the other (`ProductCompositeServiceImpl.java:36-43`), and so does the model. A Flux that emits some elements before failing is modelled as failing as a whole.
- Mono types in the source: the composite service uses the integration's `Mono` results as plain values, and the consumer calls `.block()` on the product service's plain results. The model follows the evident synchronous reading.
- JSON: the parsing of an upstream error body is the abstract function `mapper`, and an unparsable body is `None`.
- Timestamps: the event's `eventCreatedAt` and the error body's timestamp are not modelled.
- CompositeIntegration.ProductCompositeIntegration.HandleException: an upstream status code that Spring's `HttpStatus` cannot resolve raises a null-pointer exception in the source. The model returns the exception unchanged, as it does for other statuses.
- Database: the id and version the database assigns to a new entity are not modelled. An entity keeps the `None` it was created with.
- Event types: `Event.java` is not part of this model. Its event type gets an extra `Unknown` variant so that the consumer's default branch is reachable.
- `ServiceAddresses.java` is not part of this model. Its field order is taken from the positional call at `ProductCompositeServiceImpl.java:117-118`: composite, product, review, recommendation.
- `ReviewMapper.java` is not part of this model. `ReviewCore.EntityToApi` assumes the same field copy that the recommendation mapper does.
- `RecommendationServiceImpl` and the review service's write path are not part of this model.
- Integer width: Java's 32-bit `int` is modelled as an unbounded integer. Ids are never computed on, so no overflow can arise.
- Bootstrap, configuration, health checks, logging, and the HTTP status (200 or 202) of composite writes are not modelled.

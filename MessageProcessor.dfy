/**
  The product service's event consumer (MessageProcessorConfig): a CREATE
  event creates its data, a DELETE event deletes its key, any other type is
  refused. Failures of the service propagate to the consumer's caller.

  `Process` states what one event does to a store; the consumer method is
  proved to do exactly that to the service's repository.
 */
module MessageProcessor {
  import opened Api
  import opened ProductMapper
  import opened ProductCore
  import CompositeIntegration
  import CompositeService

  function IncorrectEventTypeMessage(t: EventType): string
  {
    "Incorrect event type: " + EventTypeName(t) + ". Expected a CREATE or DELETE event"
  }

  /** What processing an event answers and the store it leaves. */
  datatype Processed = Processed(outcome: Outcome, store: Store)

  function Process(store: Store, event: Event<Product>): (r: Processed)
    ensures event.eventType == Create && event.data.Some? ==>
              && r.store == CreateIn(store, event.data.value).store
              && (r.outcome.Fail? <==> CreateIn(store, event.data.value).result.Err?)
              && (r.outcome.Fail? ==> r.outcome.error == CreateIn(store, event.data.value).result.error)
    ensures event.eventType == Create && event.data.None? ==> r == Processed(Fail(NullPointer), store)
    ensures event.eventType == Delete ==> r == Processed(Done, DeleteFrom(store, event.key))
    ensures event.eventType.Unknown? ==>
              r == Processed(Fail(EventProcessing(IncorrectEventTypeMessage(event.eventType))), store)
  {
    match event.eventType
    case Create =>
      if event.data.None? then Processed(Fail(NullPointer), store)
      else
        var created := CreateIn(store, event.data.value);
        Processed(if created.result.Err? then Fail(created.result.error) else Done, created.store)
    case Delete => Processed(Done, DeleteFrom(store, event.key))
    case Unknown(_) => Processed(Fail(EventProcessing(IncorrectEventTypeMessage(event.eventType))), store)
  }

  /** A helper for the lemmas: the effect of a short run of events, stopped
      at the first failure. The consumer itself takes each message on its
      own, and a failed message does not hold back later ones. */
  function ProcessAll(store: Store, events: seq<Event<Product>>): Processed
    decreases |events|
  {
    if events == [] then Processed(Done, store)
    else
      var first := Process(store, events[0]);
      if first.outcome.Fail? then first else ProcessAll(first.store, events[1..])
  }

  /** Every event leaves every entry stored under its own id. */
  lemma ProcessKeepsKeyed(store: Store, event: Event<Product>)
    requires Keyed(store)
    ensures Keyed(Process(store, event).store)
  {
    if event.eventType == Create && event.data.Some? {
      CreateKeepsKeyed(store, event.data.value);
    }
  }

  /** A CREATE for an id already stored fails with InvalidInput and changes nothing. */
  lemma SecondCreateFails(store: Store, product: Product)
    ensures var once := Process(store, Event(Create, product.productId, Some(product))).store;
            Process(once, Event(Create, product.productId, Some(product))) ==
              Processed(Fail(InvalidInput("Duplicate key, Product Id: " + Text.IntToString(product.productId))), once)
  {
  }

  /** CREATE then DELETE of the same id leaves the id absent, and a further
      DELETE succeeds and changes nothing. */
  lemma CreateThenDeleteRemoves(store: Store, product: Product)
    requires product.productId !in store
    ensures var events := [Event(Create, product.productId, Some(product)), Event(Delete, product.productId, None)];
            var r := ProcessAll(store, events);
            && r.outcome == Done
            && product.productId !in r.store
            && r.store == store
            && Process(r.store, Event(Delete, product.productId, None)) == Processed(Done, r.store)
  {
    var id := product.productId;
    var events := [Event(Create, id, Some(product)), Event(Delete, id, None)];
    var added := store[id := DtoToEntity(product)];
    ProcessCreateNew(store, product);
    DeleteUndoesAdd(store, id, DtoToEntity(product));
    assert events[1..] == [events[1]];
    assert ProcessAll(store, events) == ProcessAll(added, [events[1]]);
    assert Process(added, events[1]) == Processed(Done, store);
    assert [events[1]][1..] == [];
  }

  /** A CREATE for an id not yet stored succeeds and stores its product. */
  lemma ProcessCreateNew(store: Store, product: Product)
    requires product.productId !in store
    ensures Process(store, Event(Create, product.productId, Some(product))) ==
              Processed(Done, store[product.productId := DtoToEntity(product)])
  {
  }

  /** Deleting an id just added gives back the store it was added to. */
  lemma DeleteUndoesAdd(store: Store, id: int, e: ProductEntity)
    requires id !in store
    ensures DeleteFrom(store[id := e], id) == store
  {
  }

  /** The transport delivers at least once: processing any event a second time
      leaves the store as the first time did. */
  lemma RedeliveryLeavesStore(store: Store, event: Event<Product>)
    ensures var once := Process(store, event).store;
            Process(once, event).store == once
  {
    if event.eventType == Create && event.data.Some? {
      var p := event.data.value;
      assert p.productId in CreateIn(store, p).store;
    }
  }

  /** A bridge between the two event types: the product event a
      composite-side event becomes when the product service reads it off the
      products binding. */
  function AsProductEvent(event: Event<Payload>): Event<Product>
  {
    var data := if event.data.Some? && event.data.value.ProductPayload? then Some(event.data.value.product) else None;
    Event(event.eventType, event.key, data)
  }

  /** A composite create whose product id is new makes the product service
      store it and answer reads of it with the aggregate's name and weight. */
  lemma CompositeCreateReachesProductStore(
    store: Store, body: ProductAggregate, serviceAddress: string)
    requires body.productId >= 1 && body.productId !in store
    ensures var event := AsProductEvent(CompositeIntegration.ProductCreated(CompositeService.ProductOf(body)).message.payload);
            var r := Process(store, event);
            && r.outcome == Done
            && GetFrom(r.store, body.productId, serviceAddress) ==
                 Ok(Product(body.productId, body.name, body.weight, Some(serviceAddress)))
  {
  }

  class MessageProcessorConfig {
    const productService: ProductServiceImpl

    constructor (productService: ProductServiceImpl)
      ensures this.productService == productService
    {
      this.productService := productService;
    }

    /** Consumes one event from the products binding. It dispatches on the
        event type as `Process` does, but changes the store through the
        product service's own methods; `Process` is the specification it is
        proved against. */
    method MessageProcessor(event: Event<Product>) returns (r: Outcome)
      requires productService.Valid()
      modifies productService
      ensures productService.Valid()
      ensures Processed(r, productService.repository) == Process(old(productService.repository), event)
    {
      match event.eventType {
        case Create =>
          if event.data.None? {
            return Fail(NullPointer);
          }
          var product := event.data.value;
          var created := productService.CreateProduct(product);
          r := if created.Err? then Fail(created.error) else Done;
        case Delete =>
          var productId := event.key;
          productService.DeleteProduct(productId);
          r := Done;
        case Unknown(_) =>
          var errorMessage := IncorrectEventTypeMessage(event.eventType);
          r := Fail(EventProcessing(errorMessage));
      }
    }
  }
}

/** The checkout publisher (`MessageQueueService`): projects a cart into a
    flat event, serialises it, and appends it to the `cart.checkout` queue.
    The broker is the sequence of bodies waiting in that queue. */
module Publisher {
  import opened Primitives
  import opened Carts
  import opened Wire

  /** One line of the published event: the four scalar fields and nothing else. */
  datatype EventItem = EventItem(productId: ProductId, productName: string, quantity: Int32, price: Cents)

  /** The flat, cycle-free event built from a cart at checkout time. */
  datatype CheckoutEvent = CheckoutEvent(userId: UserId, items: seq<EventItem>)

  function ProjectItem(i: CartItem): EventItem {
    EventItem(i.productId, i.productName, i.quantity, i.price)
  }

  /** The event for `cart`: its user and its lines, same length, same order. */
  function BuildEvent(cart: Cart): (e: CheckoutEvent)
    ensures e.userId == cart.userId
    ensures |e.items| == |cart.items|
    ensures forall k :: 0 <= k < |e.items| ==>
      && e.items[k].productId == cart.items[k].productId
      && e.items[k].productName == cart.items[k].productName
      && e.items[k].quantity == cart.items[k].quantity
      && e.items[k].price == cart.items[k].price
  {
    CheckoutEvent(cart.userId, seq(|cart.items|, k requires 0 <= k < |cart.items| => ProjectItem(cart.items[k])))
  }

  function WriteItem(i: EventItem): ItemJson {
    ItemJson(Some(i.productId), Some(i.productName), Some(i.quantity), Some(i.price))
  }

  /** The JSON body of an event: every property is written, none is null. */
  function Serialize(e: CheckoutEvent): (b: Body)
    ensures b.Object? && b.message.userId == Some(e.userId)
    ensures b.message.items.Present? && |b.message.items.value| == |e.items|
    ensures forall k :: 0 <= k < |e.items| ==> b.message.items.value[k] == Some(WriteItem(e.items[k]))
  {
    Object(MessageJson(Some(e.userId), Present(seq(|e.items|, k requires 0 <= k < |e.items| => Some(WriteItem(e.items[k]))))))
  }

  /** `PublishCheckoutEventAsync`. A null or empty cart is logged and returns
      normally without touching the broker. Otherwise, when the broker step
      fails (`brokerFails`) the exception is rethrown and nothing is queued;
      when it succeeds exactly one body, the serialised event, is appended. */
  function PublishCheckoutEvent(queue: seq<Body>, cart: Option<Cart>, brokerFails: bool): (r: Result<seq<Body>>)
    ensures (cart.None? || cart.value.items == []) ==> r == Ok(queue)
    ensures cart.Some? && cart.value.items != [] ==> (r.Ok? <==> !brokerFails)
    ensures cart.Some? && cart.value.items != [] && !brokerFails ==>
      r == Ok(queue + [Serialize(BuildEvent(cart.value))])
    ensures r.Err? ==> r.fault == PublishFailed
    ensures r.Ok? ==> |queue| <= |r.value| <= |queue| + 1 && r.value[..|queue|] == queue
    ensures r.Ok? && |r.value| == |queue| + 1 ==> cart.Some? && r.value[|queue|] == Serialize(BuildEvent(cart.value))
  {
    match cart
    case None => Ok(queue)
    case Some(c) =>
      if c.items == [] then Ok(queue)
      else if brokerFails then Err(PublishFailed)
      else Ok(queue + [Serialize(BuildEvent(c))])
  }

  /** The publisher's `_disposed` flag. */
  datatype Lifecycle = Lifecycle(disposed: bool)

  /** `Dispose`: the first call sets the flag and logs (second component true);
      every later call returns at once and changes nothing. */
  function Dispose(p: Lifecycle): (r: (Lifecycle, bool))
    ensures r.0.disposed
    ensures r.1 <==> !p.disposed
    ensures p.disposed ==> r == (p, false)
  {
    if p.disposed then (p, false) else (Lifecycle(true), true)
  }

  /** Disposing twice is the same as disposing once, and the second call does nothing. */
  lemma DisposeIdempotent(p: Lifecycle)
    ensures Dispose(Dispose(p).0).0 == Dispose(p).0
    ensures !Dispose(Dispose(p).0).1
  {
  }
}

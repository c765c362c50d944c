/** The checkout consumer (`OrderProcessingService`): for each delivery from
    `cart.checkout` it deserialises a `CheckoutMessage`, may append one order
    to the order store, and settles the delivery by ack or by nack-with-requeue
    (manual acknowledgement). */
module Consumer {
  import opened Primitives
  import opened Wire
  import opened Orders

  datatype CheckoutItem = CheckoutItem(productId: ProductId, productName: string, quantity: Int32, price: Cents)

  /** `items` is None when the body carried an explicit `"Items": null`. */
  /** `Items` is a list reference whose elements are references too: `None` is null. */
  datatype CheckoutMessage = CheckoutMessage(userId: UserId, items: Option<seq<Option<CheckoutItem>>>)

  /** An item with the class's defaults for absent properties: empty strings and zeros. */
  function ReadItem(j: ItemJson): (i: CheckoutItem)
    ensures i.productId == (if j.productId.Some? then j.productId.value else "")
    ensures i.productName == (if j.productName.Some? then j.productName.value else "")
    ensures i.quantity == (if j.quantity.Some? then j.quantity.value else 0)
    ensures i.price == (if j.price.Some? then j.price.value else 0)
  {
    CheckoutItem(j.productId.GetOr(""), j.productName.GetOr(""), j.quantity.GetOr(0), j.price.GetOr(0))
  }

  /** A list element: `null` stays null, an object is read with defaults. */
  function ReadEntry(e: Option<ItemJson>): (r: Option<CheckoutItem>)
    ensures r.None? <==> e.None?
    ensures e.Some? ==> r == Some(ReadItem(e.value))
  {
    match e
    case None => None
    case Some(j) => Some(ReadItem(j))
  }

  function ReadItems(js: seq<Option<ItemJson>>): (r: seq<Option<CheckoutItem>>)
    ensures |r| == |js|
    ensures forall k :: 0 <= k < |js| ==> r[k] == ReadEntry(js[k])
  {
    seq(|js|, k requires 0 <= k < |js| => ReadEntry(js[k]))
  }

  /** Some element of the list is null. */
  predicate HasNull<T>(xs: seq<Option<T>>) {
    exists k :: 0 <= k < |xs| && xs[k].None?
  }

  /** The elements of a list none of whose elements is null. */
  function Unwrap<T>(xs: seq<Option<T>>): (r: seq<T>)
    requires !HasNull(xs)
    ensures |r| == |xs|
    ensures forall k :: 0 <= k < |xs| ==> xs[k] == Some(r[k])
  {
    seq(|xs|, k requires 0 <= k < |xs| => xs[k].value)
  }

  /** `JsonSerializer.Deserialize<CheckoutMessage>`: rejected text throws, the
      literal `null` yields null, and an object yields a message whose absent
      `UserId` is "" and whose absent `Items` is the empty list. */
  function Deserialize(b: Body): (r: Result<Option<CheckoutMessage>>)
    ensures r.Err? <==> b.Malformed?
    ensures r.Err? ==> r.fault == MalformedPayload
    ensures r == Ok(None) <==> b.NullLiteral?
    ensures b.Object? ==> r.Ok? && r.value.Some? && r.value.value.userId == b.message.userId.GetOr("")
    ensures b.Object? && b.message.items.Missing? ==> r.value.value.items == Some([])
    ensures b.Object? && b.message.items.Null? ==> r.value.value.items == None
    ensures b.Object? && b.message.items.Present? ==> r.value.value.items == Some(ReadItems(b.message.items.value))
  {
    match b
    case Malformed => Err(MalformedPayload)
    case NullLiteral => Ok(None)
    case Object(m) =>
      var items := match m.items
        case Missing => Some([])
        case Null => None
        case Present(js) => Some(ReadItems(js));
      Ok(Some(CheckoutMessage(m.userId.GetOr(""), items)))
  }

  function ToOrderItem(i: CheckoutItem): OrderItem {
    OrderItem(i.productId, i.productName, i.quantity, i.price)
  }

  /** The order built from a message's user and items, stamped with `now`. */
  function NewOrder(userId: UserId, now: int, items: seq<CheckoutItem>): (o: Order)
    ensures o.userId == userId && o.createdAt == now && |o.items| == |items|
    ensures forall k :: 0 <= k < |items| ==> o.items[k] == ToOrderItem(items[k])
  {
    Order(userId, now, seq(|items|, k requires 0 <= k < |items| => ToOrderItem(items[k])))
  }

  /** How a delivery is settled. */
  datatype Settlement = Ack | NackRequeue

  datatype Handled = Handled(orders: seq<Order>, settlement: Settlement)

  /** A body that becomes an order: an object whose `Items` is a non-empty list. */
  predicate Actionable(b: Body) {
    && b.Object? && b.message.items.Present?
    && |b.message.items.value| > 0
    && !HasNull(b.message.items.value)
  }

  /** A body the handler can never accept: unreadable text, `"Items": null`
      (calling `Any()` on a null list throws), or a list with a null element
      (reading `ProductId` from it throws while the order is built). */
  predicate Poison(b: Body) {
    || b.Malformed?
    || (b.Object? && b.message.items.Null?)
    || (b.Object? && b.message.items.Present? && HasNull(b.message.items.value))
  }

  /** The order an actionable body becomes when persisted at time `now`. */
  function OrderOf(b: Body, now: int): (o: Order)
    requires Actionable(b)
    ensures o.userId == b.message.userId.GetOr("") && o.createdAt == now
    ensures |o.items| == |b.message.items.value|
    ensures forall k :: 0 <= k < |o.items| ==> o.items[k] == ToOrderItem(ReadItem(b.message.items.value[k].value))
  {
    NewOrder(b.message.userId.GetOr(""), now, Unwrap(ReadItems(b.message.items.value)))
  }

  /** The `ReceivedAsync` handler for one delivery. An exception anywhere
      (unreadable JSON, a null item list, a failed save) is caught and the
      delivery is nacked with requeue; otherwise it is acked. A null list
      element throws before the save, whatever the store would do. */
  function HandleDelivery(orders: seq<Order>, b: Body, now: int, persistFails: bool): (h: Handled)
    ensures h.settlement == NackRequeue <==> Poison(b) || (Actionable(b) && persistFails)
    ensures Actionable(b) && !persistFails ==> h.orders == orders + [OrderOf(b, now)]
    ensures !(Actionable(b) && !persistFails) ==> h.orders == orders
  {
    match Deserialize(b)
    case Err(_) => Handled(orders, NackRequeue)
    case Ok(None) => Handled(orders, Ack)
    case Ok(Some(m)) =>
      match m.items
      case None => Handled(orders, NackRequeue)
      case Some(items) =>
        if |items| == 0 then Handled(orders, Ack)
        else if HasNull(items) then Handled(orders, NackRequeue)
        else if persistFails then Handled(orders, NackRequeue)
        else Handled(orders + [NewOrder(m.userId, now, Unwrap(items))], Ack)
  }

  /** The broker side of the queue and the order store. */
  datatype Consumed = Consumed(queue: seq<Body>, orders: seq<Order>)

  /** One delivery of the ready message at index `i`. The consumer sets no
      prefetch limit, so the broker may hand out any ready message, not only
      the oldest. An ack removes that message and keeps the others in order;
      a nack with requeue returns it to its place for a later redelivery. */
  function Deliver(queue: seq<Body>, i: nat, orders: seq<Order>, now: int, persistFails: bool): (c: Consumed)
    requires i < |queue|
    ensures HandleDelivery(orders, queue[i], now, persistFails).settlement == Ack ==>
      |c.queue| == |queue| - 1 && c.queue[..i] == queue[..i] && c.queue[i..] == queue[i + 1..]
    ensures HandleDelivery(orders, queue[i], now, persistFails).settlement == NackRequeue ==> c.queue == queue
    ensures c.orders == HandleDelivery(orders, queue[i], now, persistFails).orders
  {
    var h := HandleDelivery(orders, queue[i], now, persistFails);
    Consumed(if h.settlement == Ack then queue[..i] + queue[i + 1..] else queue, h.orders)
  }

  /** Deliveries of `bodies` in turn, every save succeeding, all at clock `now`. */
  function HandleAll(orders: seq<Order>, bodies: seq<Body>, now: int): seq<Order>
    decreases |bodies|
  {
    if |bodies| == 0 then orders
    else HandleAll(HandleDelivery(orders, bodies[0], now, false).orders, bodies[1..], now)
  }

  /** How many of `bodies` are actionable. */
  function CountActionable(bodies: seq<Body>): nat
    decreases |bodies|
  {
    if |bodies| == 0 then 0
    else (if Actionable(bodies[0]) then 1 else 0) + CountActionable(bodies[1..])
  }

  /** With no save failures, every actionable delivery adds exactly one order
      and nothing else adds any; earlier orders are kept as they were. */
  lemma {:induction false} HandleAllCount(orders: seq<Order>, bodies: seq<Body>, now: int)
    ensures |HandleAll(orders, bodies, now)| == |orders| + CountActionable(bodies)
    ensures HandleAll(orders, bodies, now)[..|orders|] == orders
    decreases |bodies|
  {
    if |bodies| > 0 {
      var next := HandleDelivery(orders, bodies[0], now, false).orders;
      HandleAllCount(next, bodies[1..], now);
      assert next[..|orders|] == orders;
    }
  }

  /** No deduplication: delivering the same actionable body twice stores two
      orders with the same user and the same items. */
  lemma RedeliveryDuplicates(orders: seq<Order>, b: Body, t1: int, t2: int)
    requires Actionable(b)
    ensures var once := HandleDelivery(orders, b, t1, false);
            var twice := HandleDelivery(once.orders, b, t2, false);
            && once.settlement == Ack && twice.settlement == Ack
            && |twice.orders| == |orders| + 2
            && twice.orders[|orders|].userId == twice.orders[|orders| + 1].userId
            && twice.orders[|orders|].items == twice.orders[|orders| + 1].items
  {
  }

  /** A poison body is redelivered forever: each of its deliveries leaves the
      queue and the order store exactly as they were. */
  lemma PoisonIsRedelivered(queue: seq<Body>, i: nat, orders: seq<Order>, now: int, persistFails: bool)
    requires i < |queue| && Poison(queue[i])
    ensures Deliver(queue, i, orders, now, persistFails) == Consumed(queue, orders)
  {
  }

  /** A poison body does not block the queue: an actionable body behind it is
      still delivered, stored as an order and acked, and the poison body stays. */
  lemma PoisonDoesNotBlock(poison: Body, b: Body, orders: seq<Order>, now: int)
    requires Poison(poison) && Actionable(b)
    ensures var c := Deliver([poison, b], 1, orders, now, false);
            c.queue == [poison] && c.orders == orders + [OrderOf(b, now)]
  {
    var c := Deliver([poison, b], 1, orders, now, false);
    assert c.queue == [poison, b][..1];
  }
}

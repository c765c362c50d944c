/** The two services joined through the queue: what a checkout turns into
    once the consumer has handled the published message. */
module Pipeline {
  import opened Primitives
  import opened Carts
  import opened Orders
  import Publisher
  import Consumer
  import opened CartService

  /** The value of a cart's lines, `Quantity * Price` summed: the reference
      the order total is compared with. */
  function CartValue(items: seq<CartItem>): int
    decreases |items|
  {
    if |items| == 0 then 0 else items[0].quantity * items[0].price + CartValue(items[1..])
  }

  /** The consumer reads back exactly what the publisher wrote: the same
      user and the same lines, field for field, in the same order. */
  lemma EventRoundTrip(e: Publisher.CheckoutEvent)
    ensures var r := Consumer.Deserialize(Publisher.Serialize(e));
            && r.Ok? && r.value.Some?
            && r.value.value.userId == e.userId
            && r.value.value.items.Some?
            && |r.value.value.items.value| == |e.items|
            && forall k :: 0 <= k < |e.items| ==>
                 r.value.value.items.value[k] == Some(Consumer.CheckoutItem(
                   e.items[k].productId, e.items[k].productName, e.items[k].quantity, e.items[k].price))
  {
  }

  /** Order lines that match cart lines one for one have the cart's value. */
  lemma {:induction false} SumLinesMatchesCartValue(o: seq<OrderItem>, c: seq<CartItem>)
    requires |o| == |c|
    requires forall k :: 0 <= k < |o| ==> o[k].quantity == c[k].quantity && o[k].price == c[k].price
    ensures SumLines(o) == CartValue(c)
    decreases |o|
  {
    if |o| > 0 {
      SumLinesMatchesCartValue(o[1..], c[1..]);
    }
  }

  /** A clean checkout of a non-empty cart queues a body that the consumer,
      when its save succeeds, turns into exactly one order for the same user
      with the same lines, whose total is the cart's value; the delivery is acked. */
  lemma CheckoutBecomesOrder(s: CartState, u: UserId, orders: seq<Order>, now: int)
    requires u in s.store && s.store[u] != []
    ensures var c := Checkout(s, u, NoFaults);
            var body := c.state.queue[|c.state.queue| - 1];
            var h := Consumer.HandleDelivery(orders, body, now, false);
            && |c.state.queue| == |s.queue| + 1
            && h.settlement == Consumer.Ack
            && |h.orders| == |orders| + 1
            && h.orders[..|orders|] == orders
            && h.orders[|orders|].userId == u
            && |h.orders[|orders|].items| == |s.store[u]|
            && (forall k :: 0 <= k < |s.store[u]| ==>
                  h.orders[|orders|].items[k] == OrderItem(s.store[u][k].productId, s.store[u][k].productName,
                                                           s.store[u][k].quantity, s.store[u][k].price))
            && Total(h.orders[|orders|]) == CartValue(s.store[u])
  {
    var c := Checkout(s, u, NoFaults);
    var body := Publisher.Serialize(Publisher.BuildEvent(Cart(u, s.store[u])));
    assert c.state.queue[|c.state.queue| - 1] == body;
    assert Consumer.Actionable(body);
    var o := Consumer.OrderOf(body, now);
    SumLinesMatchesCartValue(o.items, s.store[u]);
  }

  /** Delivering the body a clean checkout queued removes exactly that body,
      leaving the messages queued before it, and stores that one order. */
  lemma CheckoutThenDeliver(s: CartState, u: UserId, orders: seq<Order>, now: int)
    requires u in s.store && s.store[u] != []
    ensures var c := Checkout(s, u, NoFaults);
            var d := Consumer.Deliver(c.state.queue, |s.queue|, orders, now, false);
            && d.queue == s.queue
            && |d.orders| == |orders| + 1
            && d.orders[|orders|].userId == u
            && Total(d.orders[|orders|]) == CartValue(s.store[u])
  {
    CheckoutBecomesOrder(s, u, orders, now);
  }

  /** The walk-through: "u1" starts with no cart; adding two "Widget"s at 9.99
      and then three more gives one line of five (49.95); checkout queues one
      event with that line, and the next read returns an empty cart. */
  lemma WidgetScenario()
    ensures var s0 := CartState(map[], map[], []);
            var s1 := AddItem(s0, "u1", AddCartItemRequest("p1", "Widget", 2, 999), NoFaults).state;
            var g1 := GetCart(s1, "u1", NoFaults);
            var s2 := AddItem(s1, "u1", AddCartItemRequest("p1", "Widget", 3, 999), NoFaults).state;
            var g2 := GetCart(s2, "u1", NoFaults);
            var s3 := Checkout(s2, "u1", NoFaults).state;
            var g3 := GetCart(s3, "u1", NoFaults);
            && g1.result == Ok(CartDto("u1", [CartItemDto("p1", "Widget", 2, 999)]))
            && CartValue(s1.store["u1"]) == 1998
            && g2.result == Ok(CartDto("u1", [CartItemDto("p1", "Widget", 5, 999)]))
            && CartValue(s2.store["u1"]) == 4995
            && s3.queue == [Publisher.Serialize(Publisher.CheckoutEvent("u1", [Publisher.EventItem("p1", "Widget", 5, 999)]))]
            && g3.result == Ok(CartDto("u1", []))
  {
    var s0 := CartState(map[], map[], []);
    var r1 := AddCartItemRequest("p1", "Widget", 2, 999);
    var s1 := AddItem(s0, "u1", r1, NoFaults).state;
    assert MergeItem([], r1) == [CartItem("p1", "Widget", 2, 999)];
    assert s1.store["u1"] == [CartItem("p1", "Widget", 2, 999)];
    assert MapToCartDto(Cart("u1", s1.store["u1"])) == CartDto("u1", [CartItemDto("p1", "Widget", 2, 999)]);
    assert s1.store["u1"][1..] == [];
    var r2 := AddCartItemRequest("p1", "Widget", 3, 999);
    assert IndexOf(s1.store["u1"], "p1") == Some(0);
    assert MergeItem(s1.store["u1"], r2) == [CartItem("p1", "Widget", 5, 999)];
    var s2 := AddItem(s1, "u1", r2, NoFaults).state;
    assert s2.store["u1"] == [CartItem("p1", "Widget", 5, 999)];
    assert MapToCartDto(Cart("u1", s2.store["u1"])) == CartDto("u1", [CartItemDto("p1", "Widget", 5, 999)]);
    assert s2.store["u1"][1..] == [];
    assert Publisher.BuildEvent(Cart("u1", s2.store["u1"])) == Publisher.CheckoutEvent("u1", [Publisher.EventItem("p1", "Widget", 5, 999)]);
  }
}

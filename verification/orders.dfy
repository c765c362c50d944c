/** The order service's records and the derived `Order.Total`. */
module Orders {
  import opened Primitives

  datatype OrderItem = OrderItem(productId: ProductId, productName: string, quantity: Int32, price: Cents)

  /** A persisted order. The store-assigned `Id` is not modelled: an order's
      position in the order store stands in for it. `createdAt` is an opaque
      clock reading taken by the consumer. */
  datatype Order = Order(userId: UserId, createdAt: int, items: seq<OrderItem>)

  /** One line's contribution, `Quantity * Price`, exact in cents. */
  function LineTotal(i: OrderItem): int {
    i.quantity * i.price
  }

  /** The sum of the line totals, first line first. */
  function SumLines(items: seq<OrderItem>): int
    decreases |items|
  {
    if |items| == 0 then 0 else LineTotal(items[0]) + SumLines(items[1..])
  }

  /** `Order.Total`: derived from the current items, never stored. */
  function Total(o: Order): (t: int)
    ensures o.items == [] ==> t == 0
  {
    SumLines(o.items)
  }

  /** Appending a line raises the total by exactly that line's amount. */
  lemma {:induction false} SumLinesAppend(items: seq<OrderItem>, i: OrderItem)
    ensures SumLines(items + [i]) == SumLines(items) + LineTotal(i)
    decreases |items|
  {
    if |items| == 0 {
      assert items + [i] == [i];
    } else {
      assert (items + [i])[1..] == items[1..] + [i];
      SumLinesAppend(items[1..], i);
    }
  }

  /** The total is additive over concatenation of item lists. */
  lemma {:induction false} SumLinesConcat(a: seq<OrderItem>, b: seq<OrderItem>)
    ensures SumLines(a + b) == SumLines(a) + SumLines(b)
    decreases |a|
  {
    if |a| == 0 {
      assert a + b == b;
    } else {
      assert (a + b)[1..] == a[1..] + b;
      SumLinesConcat(a[1..], b);
    }
  }

  /** Adding an item to an order raises `Total` by that item's `Quantity * Price`. */
  lemma TotalAppend(o: Order, i: OrderItem)
    ensures Total(o.(items := o.items + [i])) == Total(o) + LineTotal(i)
  {
    SumLinesAppend(o.items, i);
  }

  /** The total does not depend on the order of the items. */
  lemma {:induction false} SumLinesPermutation(a: seq<OrderItem>, b: seq<OrderItem>)
    requires multiset(a) == multiset(b)
    ensures SumLines(a) == SumLines(b)
    decreases |a|
  {
    if |a| == 0 {
      assert |b| == |multiset(b)| == 0;
    } else {
      var x := a[0];
      assert x in multiset(b);
      var j :| 0 <= j < |b| && b[j] == x;
      var rest := b[..j] + b[j+1..];
      assert b == b[..j] + [x] + b[j+1..];
      assert a == [x] + a[1..];
      assert multiset(b) == multiset(b[..j]) + multiset{x} + multiset(b[j+1..]);
      assert multiset(a) == multiset{x} + multiset(a[1..]);
      assert multiset(rest) == multiset(b[..j]) + multiset(b[j+1..]);
      assert multiset(a[1..]) == multiset(a) - multiset{x};
      assert multiset(rest) == multiset(b) - multiset{x};
      SumLinesPermutation(a[1..], rest);
      SumLinesConcat(b[..j] + [x], b[j+1..]);
      SumLinesConcat(b[..j], [x]);
      SumLinesConcat(b[..j], b[j+1..]);
    }
  }

  /** Two orders whose items are a permutation of each other have the same total. */
  lemma TotalPermutation(o: Order, p: Order)
    requires multiset(o.items) == multiset(p.items)
    ensures Total(o) == Total(p)
  {
    SumLinesPermutation(o.items, p.items);
  }
}

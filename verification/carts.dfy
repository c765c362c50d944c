/** The shopping-cart service's records: a cart line, the add request, and
    the cart projection (`CartDto`) that is cached and returned to callers. */
module Carts {
  import opened Primitives

  /** A cart line; the store's own `Id`/`CartId` keys are not modelled. */
  datatype CartItem = CartItem(productId: ProductId, productName: string, quantity: Int32, price: Cents)

  /** A cart as loaded with its lines; the store keeps one per user. */
  datatype Cart = Cart(userId: UserId, items: seq<CartItem>)

  /** The body of an add-item call. */
  datatype AddCartItemRequest = AddCartItemRequest(productId: ProductId, productName: string, quantity: Int32, price: Cents)

  datatype CartItemDto = CartItemDto(productId: ProductId, productName: string, quantity: Int32, price: Cents)

  /** The externally visible shape of a cart; `Items` defaults to empty. */
  datatype CartDto = CartDto(userId: UserId, items: seq<CartItemDto>)

  /** Index of the FIRST line carrying `pid`, as `FirstOrDefault` finds it. */
  function IndexOf(items: seq<CartItem>, pid: ProductId): (r: Option<nat>)
    ensures r.Some? ==> r.value < |items| && items[r.value].productId == pid
    ensures r.Some? ==> forall j :: 0 <= j < r.value ==> items[j].productId != pid
    ensures r.None? <==> forall j :: 0 <= j < |items| ==> items[j].productId != pid
    decreases |items|
  {
    if |items| == 0 then None
    else if items[0].productId == pid then Some(0)
    else
      match IndexOf(items[1..], pid)
      case None => None
      case Some(k) => Some(k + 1)
  }

  /** The product ids that appear on some line. */
  function Products(items: seq<CartItem>): set<ProductId> {
    set k | 0 <= k < |items| :: items[k].productId
  }

  /** No product appears on two lines. */
  predicate UniqueProducts(items: seq<CartItem>) {
    forall i, j :: 0 <= i < j < |items| ==> items[i].productId != items[j].productId
  }

  /** Every line has a positive quantity. */
  predicate PositiveQuantities(items: seq<CartItem>) {
    forall k :: 0 <= k < |items| ==> items[k].quantity > 0
  }

  /** What one line contributes to the total held for `pid`. */
  function Contribution(line: CartItem, pid: ProductId): int {
    if line.productId == pid then line.quantity else 0
  }

  /** Total quantity held for `pid` across all lines: the reference notion of
      "how many of this product are in the cart". */
  function QuantityOf(items: seq<CartItem>, pid: ProductId): int
    decreases |items|
  {
    if |items| == 0 then 0 else Contribution(items[0], pid) + QuantityOf(items[1..], pid)
  }

  /** Replacing one line changes the total by the difference of the two lines' contributions. */
  lemma {:induction false} QuantityOfUpdate(items: seq<CartItem>, i: nat, line: CartItem, pid: ProductId)
    requires i < |items|
    ensures QuantityOf(items[i := line], pid) == QuantityOf(items, pid) - Contribution(items[i], pid) + Contribution(line, pid)
    decreases |items|
  {
    if i == 0 {
      assert items[i := line][1..] == items[1..];
    } else {
      assert items[i := line][1..] == items[1..][i - 1 := line];
      QuantityOfUpdate(items[1..], i - 1, line, pid);
    }
  }

  /** The total is additive over concatenation. */
  lemma {:induction false} QuantityOfAppend(a: seq<CartItem>, b: seq<CartItem>, pid: ProductId)
    ensures QuantityOf(a + b, pid) == QuantityOf(a, pid) + QuantityOf(b, pid)
    decreases |a|
  {
    if |a| == 0 {
      assert a + b == b;
    } else {
      assert (a + b)[1..] == a[1..] + b;
      QuantityOfAppend(a[1..], b, pid);
    }
  }

  /** A product on no line has total quantity zero. */
  lemma {:induction false} QuantityOfAbsent(items: seq<CartItem>, pid: ProductId)
    requires forall k :: 0 <= k < |items| ==> items[k].productId != pid
    ensures QuantityOf(items, pid) == 0
    decreases |items|
  {
    if |items| > 0 {
      QuantityOfAbsent(items[1..], pid);
    }
  }
}

/** The cart service (`CartService`): cache-aside reads, store-first writes,
    and checkout that publishes before it deletes. Every operation is a pure
    transition of the three stores it touches, driven by failure oracles. */
module CartService {
  import opened Primitives
  import opened Carts
  import opened Wire
  import Publisher

  /** The text in a cache slot as the JSON reader sees it. `Blank` is the
      empty string, which the read path treats like an absent key. */
  datatype CachedText = Blank | Encoded(dto: CartDto) | CachedNull | Unreadable

  /** A cache slot; `expires` records whether the write set the 24-hour expiry. */
  datatype CacheSlot = CacheSlot(text: CachedText, expires: bool)

  /** The relational store: at most one cart per user, with its lines in load order. */
  type Store = map<UserId, seq<CartItem>>

  type Cache = map<UserId, CacheSlot>

  /** Store, cache, and the `cart.checkout` queue. */
  datatype CartState = CartState(store: Store, cache: Cache, queue: seq<Body>)

  /** Failure oracles for one call: each flag says that the corresponding
      external call throws if the operation reaches it.
      - cacheRead: the cache read at the start of `GetCart`
      - cacheWrite: the cache write or eviction
      - cartInsert: the save that materialises a new empty cart
      - storeSave: the save of changed lines, or of the checkout delete
      - broker: the connection, declaration or publish inside the publisher */
  datatype Faults = Faults(cacheRead: bool, cacheWrite: bool, cartInsert: bool, storeSave: bool, broker: bool)

  const NoFaults := Faults(false, false, false, false, false)

  /** The state after a call, and what the call returned or threw. */
  datatype Step<T> = Step(state: CartState, result: Result<T>)

  /** The lines the store holds for `u`, none when it holds no cart. */
  function LinesOf(store: Store, u: UserId): seq<CartItem> {
    if u in store then store[u] else []
  }

  function ItemToDto(i: CartItem): CartItemDto {
    CartItemDto(i.productId, i.productName, i.quantity, i.price)
  }

  /** `MapToCartDto`: the cart's user and its lines field for field, in order. */
  function MapToCartDto(cart: Cart): (d: CartDto)
    ensures d.userId == cart.userId
    ensures |d.items| == |cart.items|
    ensures forall k :: 0 <= k < |d.items| ==>
      && d.items[k].productId == cart.items[k].productId
      && d.items[k].productName == cart.items[k].productName
      && d.items[k].quantity == cart.items[k].quantity
      && d.items[k].price == cart.items[k].price
  {
    CartDto(cart.userId, seq(|cart.items|, k requires 0 <= k < |cart.items| => ItemToDto(cart.items[k])))
  }

  /** Reading a projection back as a cart (the inverse of `MapToCartDto`). */
  function CartOfDto(d: CartDto): Cart {
    Cart(d.userId, seq(|d.items|, k requires 0 <= k < |d.items| =>
      CartItem(d.items[k].productId, d.items[k].productName, d.items[k].quantity, d.items[k].price)))
  }

  /** The projection loses nothing: reading it back yields the same cart. */
  lemma ProjectionRoundTrip(c: Cart)
    ensures CartOfDto(MapToCartDto(c)) == c
  {
    assert CartOfDto(MapToCartDto(c)).items == c.items;
  }

  /** What the read path makes of the slot for `u` when the read itself
      succeeds: a hit (the stored projection, or an empty cart for `u` when
      the text is the literal `null`), or None to fall back to the store. */
  function ReadCache(cache: Cache, u: UserId): Option<CartDto> {
    if u !in cache then None
    else match cache[u].text
      case Encoded(d) => Some(d)
      case CachedNull => Some(CartDto(u, []))
      case Blank => None
      case Unreadable => None
  }

  /** `GetCartAsync`. A failed cache read is NOT caught and propagates. A hit
      returns the cached projection and changes nothing. A miss or unreadable
      entry loads the store cart, materialising an empty one if there is none
      (a failed insert propagates), caches its projection with the 24-hour
      expiry (a failed cache write is swallowed) and returns the projection. */
  function GetCart(s: CartState, u: UserId, f: Faults): (r: Step<CartDto>)
    ensures r.state.queue == s.queue
    ensures r.state.store - {u} == s.store - {u} && r.state.cache - {u} == s.cache - {u}
    ensures f.cacheRead ==> r == Step(s, Err(CacheUnavailable))
    ensures !f.cacheRead && ReadCache(s.cache, u).Some? ==> r == Step(s, Ok(ReadCache(s.cache, u).value))
    ensures !f.cacheRead && ReadCache(s.cache, u).None? ==>
      && (r.result.Err? <==> u !in s.store && f.cartInsert)
      && (r.result.Err? ==> r == Step(s, Err(StoreWriteFailed)))
      && (r.result.Ok? ==> u in r.state.store && r.state.store[u] == LinesOf(s.store, u))
      && (r.result.Ok? ==> r.result.value == MapToCartDto(Cart(u, LinesOf(s.store, u))))
      && (r.result.Ok? && f.cacheWrite ==> r.state.cache == s.cache)
      && (r.result.Ok? && !f.cacheWrite ==> r.state.cache == s.cache[u := CacheSlot(Encoded(r.result.value), true)])
  {
    if f.cacheRead then Step(s, Err(CacheUnavailable))
    else match ReadCache(s.cache, u)
      case Some(d) => Step(s, Ok(d))
      case None =>
        if u !in s.store && f.cartInsert then Step(s, Err(StoreWriteFailed))
        else
          var items := LinesOf(s.store, u);
          var dto := MapToCartDto(Cart(u, items));
          var cache' := if f.cacheWrite then s.cache else s.cache[u := CacheSlot(Encoded(dto), true)];
          Step(CartState(s.store[u := items], cache', s.queue), Ok(dto))
  }

  /** The line for a product not yet in the cart, carrying the request's fields. */
  function NewLine(req: AddCartItemRequest): CartItem {
    CartItem(req.productId, req.productName, req.quantity, req.price)
  }

  /** The line edit of `AddItemAsync`: the first line with the requested
      product gets `Quantity += request.Quantity` (unchecked 32-bit addition)
      and keeps its name and price; with no such line one new line is appended.
      Every other line is untouched. */
  function MergeItem(items: seq<CartItem>, req: AddCartItemRequest): (res: seq<CartItem>)
    ensures req.productId in Products(items) ==>
      && |res| == |items|
      && (forall k :: 0 <= k < |items| ==>
            && res[k].productId == items[k].productId
            && res[k].productName == items[k].productName
            && res[k].price == items[k].price)
      && (exists i :: 0 <= i < |items| && items[i].productId == req.productId
            && (forall j :: 0 <= j < i ==> items[j].productId != req.productId)
            && res[i].quantity == AddWrapping(items[i].quantity, req.quantity)
            && (forall k :: 0 <= k < |items| && k != i ==> res[k] == items[k]))
    ensures req.productId !in Products(items) ==>
      && |res| == |items| + 1
      && res[..|items|] == items
      && res[|items|] == CartItem(req.productId, req.productName, req.quantity, req.price)
    ensures Products(res) == Products(items) + {req.productId}
  {
    match IndexOf(items, req.productId)
    case Some(i) =>
      assert items[i].productId in Products(items);
      var line := items[i];
      var res := items[i := line.(quantity := AddWrapping(line.quantity, req.quantity))];
      assert forall k :: 0 <= k < |res| ==> res[k].productId == items[k].productId;
      assert Products(res) == Products(items);
      res
    case None =>
      assert req.productId !in Products(items);
      var res := items + [NewLine(req)];
      assert res[|items|].productId == req.productId;
      assert forall k :: 0 <= k < |items| ==> res[k] == items[k];
      res
  }

  /** `AddItemAsync`. Loads the store cart (materialising an empty one, a
      failed insert propagating), edits its lines with `MergeItem`, saves (a
      failed save propagates, leaving any freshly created empty cart in the
      store), then overwrites the cache with the new projection, without an
      expiry; a failed cache write is swallowed. */
  function AddItem(s: CartState, u: UserId, req: AddCartItemRequest, f: Faults): (r: Step<()>)
    ensures r.state.queue == s.queue
    ensures r.state.store - {u} == s.store - {u} && r.state.cache - {u} == s.cache - {u}
    ensures r.result.Ok? <==> !(u !in s.store && f.cartInsert) && !f.storeSave
    ensures r.result.Err? ==> r.result.fault == StoreWriteFailed && r.state.cache == s.cache
    ensures r.result.Err? && (u in s.store || f.cartInsert) ==> r.state.store == s.store
    ensures r.result.Err? && u !in s.store && !f.cartInsert ==> r.state.store == s.store[u := []]
    ensures r.result.Ok? ==> u in r.state.store && r.state.store[u] == MergeItem(LinesOf(s.store, u), req)
    ensures r.result.Ok? && f.cacheWrite ==> r.state.cache == s.cache
    ensures r.result.Ok? && !f.cacheWrite ==>
      r.state.cache == s.cache[u := CacheSlot(Encoded(MapToCartDto(Cart(u, r.state.store[u]))), false)]
  {
    if u !in s.store && f.cartInsert then Step(s, Err(StoreWriteFailed))
    else
      var items := LinesOf(s.store, u);
      if f.storeSave then Step(s.(store := s.store[u := items]), Err(StoreWriteFailed))
      else
        var items' := MergeItem(items, req);
        var cache' := if f.cacheWrite then s.cache
                      else s.cache[u := CacheSlot(Encoded(MapToCartDto(Cart(u, items'))), false)];
        Step(CartState(s.store[u := items'], cache', s.queue), Ok(()))
  }

  /** The lines with the one at index `i` taken out, the rest in order. */
  function RemoveAt(items: seq<CartItem>, i: nat): (res: seq<CartItem>)
    requires i < |items|
    ensures |res| == |items| - 1
    ensures forall k :: 0 <= k < i ==> res[k] == items[k]
    ensures forall k :: i <= k < |res| ==> res[k] == items[k + 1]
  {
    items[..i] + items[i + 1..]
  }

  /** `RemoveItemAsync`. With no store cart, or no line for `pid`, nothing
      changes and the call returns normally. Otherwise the first line for
      `pid` is deleted and saved (a failed save propagates), then the cache
      is overwritten with the new projection; a failed cache write here is
      NOT caught, so the call throws after the store change. */
  function RemoveItem(s: CartState, u: UserId, pid: ProductId, f: Faults): (r: Step<()>)
    ensures r.state.queue == s.queue
    ensures r.state.store - {u} == s.store - {u} && r.state.cache - {u} == s.cache - {u}
    ensures u !in s.store || pid !in Products(s.store[u]) ==> r == Step(s, Ok(()))
    ensures u in s.store && pid in Products(s.store[u]) ==>
      && (f.storeSave ==> r == Step(s, Err(StoreWriteFailed)))
      && (!f.storeSave ==>
            && u in r.state.store
            && (exists i :: 0 <= i < |s.store[u]| && s.store[u][i].productId == pid
                  && (forall j :: 0 <= j < i ==> s.store[u][j].productId != pid)
                  && r.state.store[u] == s.store[u][..i] + s.store[u][i + 1..]))
      && (!f.storeSave && f.cacheWrite ==> r.state.cache == s.cache && r.result == Err(CacheWriteFailed))
      && (!f.storeSave && !f.cacheWrite ==>
            && r.result == Ok(())
            && r.state.cache == s.cache[u := CacheSlot(Encoded(MapToCartDto(Cart(u, r.state.store[u]))), false)])
  {
    if u !in s.store then Step(s, Ok(()))
    else match IndexOf(s.store[u], pid)
      case None =>
        assert pid !in Products(s.store[u]);
        Step(s, Ok(()))
      case Some(i) =>
        assert s.store[u][i].productId in Products(s.store[u]);
        if f.storeSave then Step(s, Err(StoreWriteFailed))
        else
          var items' := RemoveAt(s.store[u], i);
          var store' := s.store[u := items'];
          if f.cacheWrite then Step(s.(store := store'), Err(CacheWriteFailed))
          else Step(CartState(store', s.cache[u := CacheSlot(Encoded(MapToCartDto(Cart(u, items'))), false)], s.queue), Ok(()))
  }

  /** `CheckoutAsync`. A missing or empty store cart is a logged no-op.
      Otherwise the cart is published first; if that throws, nothing else
      happens. Only then is the cart deleted and saved (a failed save
      propagates with the event already queued), and only then is the cache
      entry evicted (a failed eviction propagates, leaving the old entry). */
  function Checkout(s: CartState, u: UserId, f: Faults): (r: Step<()>)
    ensures r.state.store - {u} == s.store - {u} && r.state.cache - {u} == s.cache - {u}
    ensures u !in s.store || s.store[u] == [] ==> r == Step(s, Ok(()))
    ensures u in s.store && s.store[u] != [] && f.broker ==> r == Step(s, Err(PublishFailed))
    ensures u in s.store && s.store[u] != [] && !f.broker ==>
      && r.state.queue == s.queue + [Publisher.Serialize(Publisher.BuildEvent(Cart(u, s.store[u])))]
      && (f.storeSave ==> r.state.store == s.store && r.state.cache == s.cache && r.result == Err(StoreWriteFailed))
      && (!f.storeSave ==> r.state.store == s.store - {u})
      && (!f.storeSave && f.cacheWrite ==> r.state.cache == s.cache && r.result == Err(CacheWriteFailed))
      && (!f.storeSave && !f.cacheWrite ==> r.state.cache == s.cache - {u} && r.result == Ok(()))
    // publish precedes delete: the store never loses a cart without a queued event
    ensures r.state.store != s.store ==> |r.state.queue| == |s.queue| + 1
    ensures r.state.queue == s.queue || |r.state.queue| == |s.queue| + 1
  {
    if u !in s.store || s.store[u] == [] then Step(s, Ok(()))
    else
      var cart := Cart(u, s.store[u]);
      match Publisher.PublishCheckoutEvent(s.queue, Some(cart), f.broker)
      case Err(e) => Step(s, Err(e))
      case Ok(queue') =>
        if f.storeSave then Step(s.(queue := queue'), Err(StoreWriteFailed))
        else
          var store' := s.store - {u};
          if f.cacheWrite then Step(CartState(store', s.cache, queue'), Err(CacheWriteFailed))
          else Step(CartState(store', s.cache - {u}, queue'), Ok(()))
  }
}

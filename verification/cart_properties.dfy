/** Properties of the cart service: the line invariants that adds and removes
    keep, quantities as the sum of what was added, and when the cache agrees
    with the store (and the code paths where it does not). */
module CartProperties {
  import opened Primitives
  import opened Carts
  import opened CartService

  // ---------------------------------------------------------------------------
  // Lines of one cart

  /** Under unique product ids, the total for a product on line `i` is that line's quantity. */
  lemma {:induction false} QuantityOfUniqueLine(items: seq<CartItem>, i: nat)
    requires UniqueProducts(items) && i < |items|
    ensures QuantityOf(items, items[i].productId) == items[i].quantity
  {
    var p := items[i].productId;
    assert items == items[..i] + ([items[i]] + items[i + 1..]);
    QuantityOfAppend(items[..i], [items[i]] + items[i + 1..], p);
    QuantityOfAppend([items[i]], items[i + 1..], p);
    QuantityOfAbsent(items[..i], p);
    QuantityOfAbsent(items[i + 1..], p);
    assert [items[i]][1..] == [];
  }

  /** Adding never creates a second line for a product. */
  lemma MergeKeepsProductsUnique(items: seq<CartItem>, req: AddCartItemRequest)
    requires UniqueProducts(items)
    ensures UniqueProducts(MergeItem(items, req))
  {
    var res := MergeItem(items, req);
    if req.productId !in Products(items) {
      forall i, j | 0 <= i < j < |res|
        ensures res[i].productId != res[j].productId
      {
        if j == |items| {
          assert items[i].productId in Products(items);
        }
      }
    }
  }

  /** With positive lines, a positive request that does not overflow leaves every line positive. */
  lemma MergeKeepsQuantitiesPositive(items: seq<CartItem>, req: AddCartItemRequest)
    requires PositiveQuantities(items) && req.quantity > 0
    requires forall k :: 0 <= k < |items| && items[k].productId == req.productId ==>
      items[k].quantity + req.quantity < 0x8000_0000
    ensures PositiveQuantities(MergeItem(items, req))
  {
  }

  /** Without overflow, an add raises the requested product's total by the
      requested quantity and leaves every other product's total alone. */
  lemma {:induction false} MergeQuantity(items: seq<CartItem>, req: AddCartItemRequest, p: ProductId)
    requires forall k :: 0 <= k < |items| && items[k].productId == req.productId ==>
      -0x8000_0000 <= items[k].quantity + req.quantity < 0x8000_0000
    ensures QuantityOf(MergeItem(items, req), p) == QuantityOf(items, p) + (if p == req.productId then req.quantity else 0)
  {
    match IndexOf(items, req.productId)
    case Some(i) =>
      var line := items[i].(quantity := AddWrapping(items[i].quantity, req.quantity));
      assert MergeItem(items, req) == items[i := line];
      QuantityOfUpdate(items, i, line, p);
    case None =>
      assert MergeItem(items, req) == items + [NewLine(req)];
      QuantityOfAppend(items, [NewLine(req)], p);
      assert [NewLine(req)][1..] == [];
  }

  /** The lines after a sequence of adds, as `AddItemAsync` calls applied in turn. */
  function AddAll(items: seq<CartItem>, reqs: seq<AddCartItemRequest>): seq<CartItem>
    decreases |reqs|
  {
    if |reqs| == 0 then items else AddAll(MergeItem(items, reqs[0]), reqs[1..])
  }

  /** The sum of the quantities requested for `p`. */
  function Requested(reqs: seq<AddCartItemRequest>, p: ProductId): int
    decreases |reqs|
  {
    if |reqs| == 0 then 0
    else (if reqs[0].productId == p then reqs[0].quantity else 0) + Requested(reqs[1..], p)
  }

  lemma {:induction false} RequestedNonNegative(reqs: seq<AddCartItemRequest>, p: ProductId)
    requires forall k :: 0 <= k < |reqs| ==> reqs[k].quantity >= 0
    ensures Requested(reqs, p) >= 0
    decreases |reqs|
  {
    if |reqs| > 0 {
      RequestedNonNegative(reqs[1..], p);
    }
  }

  /** Repeated adds for one product end in a single line whose quantity is the
      sum of everything added, provided no running total passes `int.MaxValue`;
      product ids stay unique throughout. */
  lemma {:induction false} AddAllQuantities(items: seq<CartItem>, reqs: seq<AddCartItemRequest>, p: ProductId)
    requires UniqueProducts(items)
    requires forall k :: 0 <= k < |reqs| ==> reqs[k].quantity >= 0
    requires forall q :: QuantityOf(items, q) + Requested(reqs, q) < 0x8000_0000
    ensures UniqueProducts(AddAll(items, reqs))
    ensures QuantityOf(AddAll(items, reqs), p) == QuantityOf(items, p) + Requested(reqs, p)
    decreases |reqs|
  {
    if |reqs| > 0 {
      var r := reqs[0];
      RequestedNonNegative(reqs[1..], r.productId);
      assert Requested(reqs, r.productId) == r.quantity + Requested(reqs[1..], r.productId);
      forall k | 0 <= k < |items| && items[k].productId == r.productId
        ensures -0x8000_0000 <= items[k].quantity + r.quantity < 0x8000_0000
      {
        QuantityOfUniqueLine(items, k);
      }
      var next := MergeItem(items, r);
      MergeKeepsProductsUnique(items, r);
      forall q
        ensures QuantityOf(next, q) + Requested(reqs[1..], q) < 0x8000_0000
      {
        MergeQuantity(items, r, q);
        assert Requested(reqs, q) == (if r.productId == q then r.quantity else 0) + Requested(reqs[1..], q);
      }
      MergeQuantity(items, r, p);
      AddAllQuantities(next, reqs[1..], p);
    }
  }

  /** Removing a line keeps product ids unique and leaves no line for that product. */
  lemma RemoveKeepsProductsUnique(items: seq<CartItem>, i: nat)
    requires UniqueProducts(items) && i < |items|
    ensures UniqueProducts(RemoveAt(items, i))
    ensures items[i].productId !in Products(RemoveAt(items, i))
    ensures PositiveQuantities(items) ==> PositiveQuantities(RemoveAt(items, i))
  {
    var res := RemoveAt(items, i);
    forall a, b | 0 <= a < b < |res|
      ensures res[a].productId != res[b].productId
    {
      var a' := if a < i then a else a + 1;
      var b' := if b < i then b else b + 1;
      assert res[a] == items[a'] && res[b] == items[b'];
    }
  }

  /** Under unique ids, cutting out line `i` zeroes its product's total and
      leaves every other product's total as it was. */
  lemma {:induction false} RemoveQuantity(items: seq<CartItem>, i: nat, p: ProductId)
    requires UniqueProducts(items) && i < |items|
    ensures QuantityOf(RemoveAt(items, i), p) == (if p == items[i].productId then 0 else QuantityOf(items, p))
  {
    assert items == items[..i] + ([items[i]] + items[i + 1..]);
    assert RemoveAt(items, i) == items[..i] + items[i + 1..];
    QuantityOfAppend(items[..i], [items[i]] + items[i + 1..], p);
    QuantityOfAppend([items[i]], items[i + 1..], p);
    QuantityOfAppend(items[..i], items[i + 1..], p);
    assert [items[i]][1..] == [];
    if p == items[i].productId {
      QuantityOfAbsent(items[..i], p);
      QuantityOfAbsent(items[i + 1..], p);
    }
  }

  /** Whenever its save is not the step that fails, a remove leaves the user
      holding none of `pid` and exactly as much of every other product as before. */
  lemma RemoveItemQuantities(s: CartState, u: UserId, pid: ProductId, f: Faults, q: ProductId)
    requires UniqueProducts(LinesOf(s.store, u))
    requires !f.storeSave
    ensures QuantityOf(LinesOf(RemoveItem(s, u, pid, f).state.store, u), q) ==
              (if q == pid then 0 else QuantityOf(LinesOf(s.store, u), q))
  {
    var r := RemoveItem(s, u, pid, f);
    if u in s.store && pid in Products(s.store[u]) {
      var i :| 0 <= i < |s.store[u]| && s.store[u][i].productId == pid
            && (forall j :: 0 <= j < i ==> s.store[u][j].productId != pid)
            && r.state.store[u] == s.store[u][..i] + s.store[u][i + 1..];
      RemoveQuantity(s.store[u], i, q);
    } else {
      QuantityOfAbsent(LinesOf(s.store, u), pid);
    }
  }

  // ---------------------------------------------------------------------------
  // The store invariant

  /** Every stored cart has unique product ids and positive quantities. */
  ghost predicate StoreInvariant(store: Store) {
    forall u :: u in store ==> UniqueProducts(store[u]) && PositiveQuantities(store[u])
  }

  /** An add of a positive quantity that does not overflow keeps the invariant. */
  lemma AddItemKeepsInvariant(s: CartState, u: UserId, req: AddCartItemRequest, f: Faults)
    requires StoreInvariant(s.store)
    requires req.quantity > 0
    requires forall k :: 0 <= k < |LinesOf(s.store, u)| && LinesOf(s.store, u)[k].productId == req.productId ==>
      LinesOf(s.store, u)[k].quantity + req.quantity < 0x8000_0000
    ensures StoreInvariant(AddItem(s, u, req, f).state.store)
  {
    var r := AddItem(s, u, req, f);
    if r.result.Ok? {
      MergeKeepsProductsUnique(LinesOf(s.store, u), req);
      MergeKeepsQuantitiesPositive(LinesOf(s.store, u), req);
    }
    forall v | v in r.state.store
      ensures UniqueProducts(r.state.store[v]) && PositiveQuantities(r.state.store[v])
    {
      if v != u {
        assert v in r.state.store - {u};
      }
    }
  }

  /** Adding to an existing line whose quantity is already `int.MaxValue` wraps
      it round to `int.MinValue`: the positivity of quantities needs the
      no-overflow hypothesis above. */
  lemma AddItemCanWrapQuantity(u: UserId)
    ensures var s := CartState(map[u := [CartItem("p", "n", 0x7FFF_FFFF, 100)]], map[], []);
            var r := AddItem(s, u, AddCartItemRequest("p", "n", 1, 100), NoFaults);
            r.result.Ok? && r.state.store[u][0].quantity == -0x8000_0000
  {
    var items := [CartItem("p", "n", 0x7FFF_FFFF, 100)];
    assert IndexOf(items, "p") == Some(0);
  }

  /** Removing keeps the invariant, whatever fails. */
  lemma RemoveItemKeepsInvariant(s: CartState, u: UserId, pid: ProductId, f: Faults)
    requires StoreInvariant(s.store)
    ensures StoreInvariant(RemoveItem(s, u, pid, f).state.store)
  {
    var r := RemoveItem(s, u, pid, f);
    if u in s.store && pid in Products(s.store[u]) && !f.storeSave {
      var i :| 0 <= i < |s.store[u]| && s.store[u][i].productId == pid
            && (forall j :: 0 <= j < i ==> s.store[u][j].productId != pid)
            && r.state.store[u] == s.store[u][..i] + s.store[u][i + 1..];
      RemoveKeepsProductsUnique(s.store[u], i);
    }
    forall v | v in r.state.store
      ensures UniqueProducts(r.state.store[v]) && PositiveQuantities(r.state.store[v])
    {
      if v != u {
        assert v in r.state.store - {u};
      }
    }
  }

  /** Reading keeps the invariant, whatever fails: at most it adds an empty cart. */
  lemma GetCartKeepsInvariant(s: CartState, u: UserId, f: Faults)
    requires StoreInvariant(s.store)
    ensures StoreInvariant(GetCart(s, u, f).state.store)
  {
    var g := GetCart(s, u, f).state.store;
    forall v | v in g
      ensures UniqueProducts(g[v]) && PositiveQuantities(g[v])
    {
      if v != u {
        assert v in g - {u};
      }
    }
  }

  /** Checking out keeps the invariant, whatever fails: at most it deletes a cart. */
  lemma CheckoutKeepsInvariant(s: CartState, u: UserId, f: Faults)
    requires StoreInvariant(s.store)
    ensures StoreInvariant(Checkout(s, u, f).state.store)
  {
    var c := Checkout(s, u, f).state.store;
    forall v | v in c
      ensures UniqueProducts(c[v]) && PositiveQuantities(c[v])
    {
      if v != u {
        assert v in c - {u};
      }
    }
  }

  // ---------------------------------------------------------------------------
  // Cache coherence

  /** Every slot holding an encoded projection holds the projection of the
      store's current cart for that user. */
  ghost predicate Coherent(s: CartState) {
    forall u :: u in s.cache && s.cache[u].text.Encoded? ==>
      u in s.store && s.cache[u].text.dto == MapToCartDto(Cart(u, s.store[u]))
  }

  /** Coherence for `v` carries over when neither `v`'s store cart nor its slot changed. */
  lemma CoherentElsewhere(s: CartState, t: CartState, u: UserId)
    requires Coherent(s)
    requires t.store - {u} == s.store - {u} && t.cache - {u} == s.cache - {u}
    requires u in t.cache && t.cache[u].text.Encoded? ==>
      u in t.store && t.cache[u].text.dto == MapToCartDto(Cart(u, t.store[u]))
    ensures Coherent(t)
  {
    forall v | v in t.cache && t.cache[v].text.Encoded?
      ensures v in t.store && t.cache[v].text.dto == MapToCartDto(Cart(v, t.store[v]))
    {
      if v != u {
        assert v in t.cache - {u};
        assert v in s.cache && s.cache[v] == t.cache[v];
        assert v in s.store - {u};
        assert v in t.store - {u};
      }
    }
  }

  /** Reading keeps the cache coherent, even when its cache write fails. */
  lemma GetCartKeepsCoherent(s: CartState, u: UserId, f: Faults)
    requires Coherent(s)
    ensures Coherent(GetCart(s, u, f).state)
  {
    CoherentElsewhere(s, GetCart(s, u, f).state, u);
  }

  /** An add whose cache write succeeds keeps the cache coherent. */
  lemma AddItemKeepsCoherent(s: CartState, u: UserId, req: AddCartItemRequest, f: Faults)
    requires Coherent(s) && !f.cacheWrite
    ensures Coherent(AddItem(s, u, req, f).state)
  {
    CoherentElsewhere(s, AddItem(s, u, req, f).state, u);
  }

  /** A remove whose cache write succeeds keeps the cache coherent. */
  lemma RemoveItemKeepsCoherent(s: CartState, u: UserId, pid: ProductId, f: Faults)
    requires Coherent(s) && !f.cacheWrite
    ensures Coherent(RemoveItem(s, u, pid, f).state)
  {
    CoherentElsewhere(s, RemoveItem(s, u, pid, f).state, u);
  }

  /** A checkout whose eviction succeeds keeps the cache coherent. */
  lemma CheckoutKeepsCoherent(s: CartState, u: UserId, f: Faults)
    requires Coherent(s) && !f.cacheWrite
    ensures Coherent(Checkout(s, u, f).state)
  {
    CoherentElsewhere(s, Checkout(s, u, f).state, u);
  }

  /** On a coherent cache, a successful read returns the projection of the
      store's cart, unless the slot holds the literal `null` (then an empty
      cart for the user is returned whatever the store holds). */
  lemma GetCartAgreesWithStore(s: CartState, u: UserId, f: Faults)
    requires Coherent(s)
    requires u !in s.cache || s.cache[u].text != CachedNull
    ensures var r := GetCart(s, u, f);
            r.result.Ok? ==> u in r.state.store && r.result.value == MapToCartDto(Cart(u, r.state.store[u]))
  {
  }

  /** A slot holding the literal `null` is a hit: the read returns an empty
      cart for the user, whatever the store holds, and changes nothing. */
  lemma GetCartNullEntryIsEmptyCart(s: CartState, u: UserId, f: Faults)
    requires u in s.cache && s.cache[u].text == CachedNull && !f.cacheRead
    ensures GetCart(s, u, f) == Step(s, Ok(CartDto(u, [])))
  {
  }

  /** A failed cache write on the read path changes neither the returned
      cart nor the store. */
  lemma GetCartIgnoresCacheWriteFailure(s: CartState, u: UserId, f: Faults)
    ensures GetCart(s, u, f).result == GetCart(s, u, f.(cacheWrite := !f.cacheWrite)).result
    ensures GetCart(s, u, f).state.store == GetCart(s, u, f.(cacheWrite := !f.cacheWrite)).state.store
  {
  }

  /** An add whose cache write fails still reports success, and the old
      projection stays cached: the next read serves a cart without the new line. */
  lemma AddItemCacheFailureServesStaleCart(u: UserId)
    ensures var before := CartDto(u, []);
            var s := CartState(map[u := []], map[u := CacheSlot(Encoded(before), true)], []);
            var r := AddItem(s, u, AddCartItemRequest("p", "n", 1, 100), NoFaults.(cacheWrite := true));
            && r.result.Ok?
            && r.state.store[u] == [CartItem("p", "n", 1, 100)]
            && GetCart(r.state, u, NoFaults).result == Ok(before)
            && !Coherent(r.state)
  {
    var before := CartDto(u, []);
    var s := CartState(map[u := []], map[u := CacheSlot(Encoded(before), true)], []);
    var r := AddItem(s, u, AddCartItemRequest("p", "n", 1, 100), NoFaults.(cacheWrite := true));
    assert r.state.store[u] == [CartItem("p", "n", 1, 100)];
    assert |MapToCartDto(Cart(u, r.state.store[u])).items| == 1;
  }

  /** A checkout whose eviction fails has already queued the event and deleted
      the store cart, yet reports failure; the stale projection stays cached,
      so the next read serves the checked-out cart. */
  lemma CheckoutEvictionFailureServesStaleCart(u: UserId)
    ensures var items := [CartItem("p", "n", 2, 999)];
            var dto := MapToCartDto(Cart(u, items));
            var s := CartState(map[u := items], map[u := CacheSlot(Encoded(dto), true)], []);
            var r := Checkout(s, u, NoFaults.(cacheWrite := true));
            && r.result == Err(CacheWriteFailed)
            && |r.state.queue| == 1
            && u !in r.state.store
            && GetCart(r.state, u, NoFaults).result == Ok(dto)
            && !Coherent(r.state)
  {
  }

  /** After a clean checkout the next clean read materialises and returns an empty cart. */
  lemma CheckoutThenGetCartIsEmpty(s: CartState, u: UserId)
    requires u in s.store && s.store[u] != []
    ensures var c := Checkout(s, u, NoFaults);
            var g := GetCart(c.state, u, NoFaults);
            c.result == Ok(()) && g.result == Ok(CartDto(u, [])) && g.state.store[u] == []
  {
    var c := Checkout(s, u, NoFaults);
    assert u !in c.state.cache;
    assert u !in c.state.store;
  }
}

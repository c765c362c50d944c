# Checkout pipeline model

A Dafny model of the checkout pipeline of the ShoppingCartMicroservices system.
The shopping-cart service keeps carts in a relational store and mirrors them into
a Redis-style cache. On checkout it publishes a flat checkout event to the
`cart.checkout` broker queue and deletes the cart. The order service consumes
that queue and turns each well-formed event into an order. The order's `Total`
is derived from its items.

The model is functional. Each operation is a pure function from the state to a
new state plus an outcome: `Ok(value)` or `Err(fault)`, where the fault stands
for the exception the C# code raises. The state has four parts:

- the cart store: `map<UserId, seq<CartItem>>`
- the cache: `map<UserId, CacheSlot>`. A slot holds an encoded projection, the
  literal `null`, unreadable text or the empty string, plus a flag saying
  whether the 24-hour expiry was set.
- the broker queue: `seq<Body>`, one JSON body per queued message
- the order store: `seq<Order>`

Each external call that can throw is driven by a boolean failure oracle:

- `Faults.cacheRead`, `cacheWrite`, `cartInsert`, `storeSave` and `broker` for
  the cart service
- `persistFails` for the consumer

Clock readings (`CreatedAt`) are passed in as plain parameters.

Files, one module each:
- `primitives.dfy`: `Int32` and unchecked addition, cents, `Option`, `Result`, `Fault`.
- `carts.dfy`: cart records, `IndexOf` (first matching line), quantity totals.
- `wire.dfy`: the JSON shape of a `cart.checkout` body.
- `publisher.dfy`: `MessageQueueService`, which covers event projection, serialisation, publish and `Dispose`.
- `orders.dfy`: `Order`, `OrderItem` and `Total`.
- `consumer.dfy`: the `ReceivedAsync` handler, deserialisation defaults, ack/nack and redelivery.
- `cart_service.dfy`: `CartService`, which covers `GetCart`, `AddItem`, `RemoveItem`, `Checkout` and `MapToCartDto`.
- `cart_properties.dfy`: line invariants, quantity sums, cache coherence, and the stale-cache paths.
- `pipeline.dfy`: publisher-to-consumer round trip, order totals, and the Widget walk-through.

Where the system's stated design and its code disagree, the model follows the code:
- A failed cache READ in `GetCartAsync` is not caught (`CartService.cs:30`). It propagates as `CacheUnavailable`.
- A failed cache write in `RemoveItemAsync` is not caught (`CartService.cs:144`). The call throws after the store change.
- A failed cache eviction in `CheckoutAsync` propagates after the store delete (`CartService.cs:160`). The stale projection stays cached and is served by the next read. See `CartProperties.CheckoutEvictionFailureServesStaleCart`.
- `AddItemAsync` and `RemoveItemAsync` write the cache without an expiry. Only `GetCartAsync` sets the 24-hour expiry.
- The consumer nacks with requeue, instead of dropping, in three cases: a body the JSON reader rejects; a body whose `Items` is an explicit `null` (`Any()` on a null list throws); and a body whose `Items` list has a `null` element (reading `ProductId` from it throws while the order is built, before the save). Such a body is redelivered forever. A body that is the literal `null`, or whose `Items` is absent or empty, is acked and dropped.
- There is no deduplication. Delivering the same body twice stores two orders.
- `Quantity += request.Quantity` is unchecked 32-bit `int` addition. A line at `int.MaxValue` wraps to a negative quantity. See `CartProperties.AddItemCanWrapQuantity`.
- A failure of the second save in `AddItemAsync` (line 110) leaves the empty cart created by the first save (line 84) in the store.

Every delivery ends in exactly one settlement, because `Settlement` has exactly two constructors: `Ack` and `NackRequeue`.

## Model

| member | source | states |
|---|---|---|
| `Primitives.AddWrapping` | ShoppingCart.API/Services/CartService.cs:91 | C#'s unchecked `+=` on `int`: the exact sum when it fits in 32 bits; otherwise it wraps to the opposite sign |
| `Carts.IndexOf` | ShoppingCart.API/Services/CartService.cs:88 | `FirstOrDefault` by product id: the index of the first line with that product; none exactly when no line has it |
| `CartService.MapToCartDto` | ShoppingCart.API/Services/CartService.cs:169-182 | the projection keeps the user and every line's four fields, with the same length and order |
| `CartService.ProjectionRoundTrip` | ShoppingCart.API/Services/CartService.cs:169-182 | reading a projection back yields the original cart, so the cached shape loses nothing |
| `CartService.GetCart` | ShoppingCart.API/Services/CartService.cs:27-72 | a failed cache read throws and changes nothing. A hit returns the cached cart and changes nothing. A miss or corrupt entry returns the projection of the store cart and materialises an empty cart if there is none; a failed insert throws. A miss then caches the projection with expiry; a failed cache write leaves the cache as it was. No other user is touched and nothing is published |
| `CartService.MergeItem` | ShoppingCart.API/Services/CartService.cs:88-108 | for a known product: the same number of lines, only the first matching line's quantity changes (by the wrapped sum), and names and prices are kept. For a new product: exactly one line is appended, carrying the request's fields. The product set gains exactly the requested id |
| `CartService.AddItem` | ShoppingCart.API/Services/CartService.cs:74-121 | succeeds exactly when neither the insert nor the save fails. On success the store cart is the merged lines. The cache then holds their projection without expiry, or is unchanged if the cache write failed (which is swallowed). A failed save keeps a freshly created empty cart and leaves the cache alone. Other users are untouched |
| `CartService.RemoveItem` | ShoppingCart.API/Services/CartService.cs:123-147 | a missing cart or product is a no-op with normal return. Otherwise exactly the first line with that product is cut out and the others keep their order. A failed save changes nothing. A failed cache write throws after the store change |
| `CartService.Checkout` | ShoppingCart.API/Services/CartService.cs:149-167 | a missing or empty cart is a no-op. A failed publish changes nothing. Otherwise exactly one body, the serialised snapshot of the cart, is queued. Then the cart is deleted unless the save fails, and the cache entry is evicted unless eviction fails (which throws). The store never loses a cart without a queued event |
| `CartProperties.MergeKeepsProductsUnique` | ShoppingCart.API/Services/CartService.cs:88-108 | an add never creates a second line for a product |
| `CartProperties.MergeKeepsQuantitiesPositive` | ShoppingCart.API/Services/CartService.cs:88-108 | positive lines stay positive under a positive add that does not overflow |
| `CartProperties.MergeQuantity` | ShoppingCart.API/Services/CartService.cs:88-108 | the requested product's total grows by the requested quantity; every other product's total is unchanged |
| `CartProperties.AddAllQuantities` | ShoppingCart.API/Services/CartService.cs:74-121 | after any sequence of adds, each product's quantity is what was there plus the sum of everything added for it, and ids stay unique |
| `CartProperties.RemoveKeepsProductsUnique` | ShoppingCart.API/Services/CartService.cs:135-139 | removing a line keeps ids unique and quantities positive, and leaves no line for the removed product |
| `CartProperties.RemoveQuantity` | ShoppingCart.API/Services/CartService.cs:135-139 | with unique ids, cutting out a line zeroes that product's total and leaves every other product's total unchanged |
| `CartProperties.RemoveItemQuantities` | ShoppingCart.API/Services/CartService.cs:123-147 | unless its save fails, a remove leaves the user with none of the product and exactly as much of every other product, whether or not the cart or line existed |
| `CartProperties.AddItemKeepsInvariant` | ShoppingCart.API/Services/CartService.cs:74-121 | every stored cart keeps unique product ids and positive quantities across an add of a positive, non-overflowing quantity, whatever fails |
| `CartProperties.AddItemCanWrapQuantity` | ShoppingCart.API/Services/CartService.cs:91 | adding 1 to a line at `int.MaxValue` succeeds and leaves quantity `int.MinValue` |
| `CartProperties.RemoveItemKeepsInvariant` | ShoppingCart.API/Services/CartService.cs:123-147 | removes keep the store invariant, whatever fails |
| `CartProperties.GetCartKeepsInvariant` | ShoppingCart.API/Services/CartService.cs:46-55 | reads keep the store invariant, whatever fails |
| `CartProperties.CheckoutKeepsInvariant` | ShoppingCart.API/Services/CartService.cs:152-160 | checkouts keep the store invariant, whatever fails |
| `CartProperties.GetCartKeepsCoherent` | ShoppingCart.API/Services/CartService.cs:57-69 | if every cached projection matches the store before a read, it still does afterwards, even when the cache write fails |
| `CartProperties.AddItemKeepsCoherent` | ShoppingCart.API/Services/CartService.cs:110-120 | an add whose cache write succeeds keeps the cache coherent with the store |
| `CartProperties.RemoveItemKeepsCoherent` | ShoppingCart.API/Services/CartService.cs:138-145 | a remove whose cache write succeeds keeps the cache coherent |
| `CartProperties.CheckoutKeepsCoherent` | ShoppingCart.API/Services/CartService.cs:157-160 | a checkout whose eviction succeeds keeps the cache coherent |
| `CartProperties.GetCartAgreesWithStore` | ShoppingCart.API/Services/CartService.cs:30-57 | on a coherent cache, every successful read returns the projection of the store's cart, except when the slot holds `null` |
| `CartProperties.GetCartNullEntryIsEmptyCart` | ShoppingCart.API/Services/CartService.cs:35 | a cached `null` is a hit that returns an empty cart for the user and changes nothing |
| `CartProperties.GetCartIgnoresCacheWriteFailure` | ShoppingCart.API/Services/CartService.cs:58-71 | a failed cache write on the read path changes neither the returned cart nor the store |
| `CartProperties.AddItemCacheFailureServesStaleCart` | ShoppingCart.API/Services/CartService.cs:112-120 | when an add's cache write fails, the add still reports success, the next read serves the old cart, and the cache is no longer coherent |
| `CartProperties.CheckoutEvictionFailureServesStaleCart` | ShoppingCart.API/Services/CartService.cs:157-160 | a failed eviction throws after the event was queued and the store cart deleted, and the next read serves the checked-out cart |
| `CartProperties.CheckoutThenGetCartIsEmpty` | ShoppingCart.API/Services/CartService.cs:155-160 | after a clean checkout of a non-empty cart, the next clean read returns an empty cart and materialises it in the store |
| `Publisher.BuildEvent` | ShoppingCart.API/Services/MessageQueueService.cs:48-58 | the event carries the cart's user and its lines projected field for field, with the same length and order |
| `Publisher.Serialize` | ShoppingCart.API/Services/MessageQueueService.cs:59 | the body is an object whose every property is written: the user id, and one item object per event line |
| `Publisher.PublishCheckoutEvent` | ShoppingCart.API/Services/MessageQueueService.cs:19-72 | a null or empty cart returns normally with nothing queued. Otherwise it fails exactly when the broker step fails, and then rethrows with nothing queued. On success exactly one body, the serialised event, is appended and earlier messages are kept |
| `Publisher.Dispose` | ShoppingCart.API/Services/MessageQueueService.cs:74-79 | afterwards the publisher is disposed; only the first call acts; a call on a disposed publisher changes nothing |
| `Orders.Total` | Order.API/Models/Order.cs:9 | the total of an order with no items is 0 |
| `Orders.TotalAppend` | Order.API/Models/Order.cs:9 | adding an item raises `Total` by exactly that item's `Quantity * Price` |
| `Orders.TotalPermutation` | Order.API/Models/Order.cs:9 | `Total` is the same for any reordering of the items |
| `Consumer.Deserialize` | Order.API/Services/OrderProcessingService.cs:106-118 | unreadable text throws, the literal `null` gives null, and an object gives a message. An absent `UserId` reads as "" and an absent `Items` as an empty list; an explicit `Items: null` stays null. A present list is read element by element: a `null` element stays null, and in an item object each absent property takes its default: `""` for the ids and names, 0 for quantity and price |
| `Consumer.NewOrder` | Order.API/Services/OrderProcessingService.cs:60-71 | the order carries the message's user, the consumer's clock reading, and the items copied field for field |
| `Consumer.HandleDelivery` | Order.API/Services/OrderProcessingService.cs:47-89 | a delivery is nacked with requeue exactly when the body is unreadable, has a null item list, has a null element in its item list, or is actionable and the save fails. Exactly one order is appended exactly when the body has a non-empty item list with no null element and the save succeeds; otherwise the order store is unchanged |
| `Consumer.Deliver` | Order.API/Services/OrderProcessingService.cs:82-93 | the broker may hand out any ready message, since no prefetch limit is set. An ack removes exactly that message and keeps the others in order. A nack with requeue leaves the queue as it was. The order store changes as the handler says |
| `Consumer.HandleAllCount` | Order.API/Services/OrderProcessingService.cs:55-82 | across any run of deliveries with no save failures, the order count grows by exactly the number of actionable bodies, and earlier orders are kept |
| `Consumer.RedeliveryDuplicates` | Order.API/Services/OrderProcessingService.cs:60-74 | delivering the same actionable body twice acks both times and stores two orders with the same user and items |
| `Consumer.PoisonIsRedelivered` | Order.API/Services/OrderProcessingService.cs:84-88 | every delivery of a poison body leaves the queue and the orders exactly as they were, so it is redelivered without end |
| `Consumer.PoisonDoesNotBlock` | Order.API/Services/OrderProcessingService.cs:82-93 | an actionable body queued behind a poison body is still delivered, stored as an order and acked, while the poison body stays queued |
| `Pipeline.EventRoundTrip` | ShoppingCart.API/Services/MessageQueueService.cs:48-59 | the consumer reads back the publisher's user and lines, field for field and in order |
| `Pipeline.CheckoutBecomesOrder` | Order.API/Services/OrderProcessingService.cs:55-82 | the body queued by a clean checkout becomes, after a successful save, one acked order for the same user with the cart's lines, and its `Total` equals the cart's value |
| `Pipeline.CheckoutThenDeliver` | Order.API/Services/OrderProcessingService.cs:82 | delivering the body a clean checkout queued removes exactly that body, keeps the earlier messages, and stores one order whose total is the cart's value |
| `Pipeline.WidgetScenario` | ShoppingCart.API/Services/CartService.cs:74-166 | the walk-through: 2 then 3 Widgets at 9.99 give one line of 5 (49.95); checkout queues that line; the next read is empty |

## Left out

- Broker plumbing is left out: connection factories, channels, `AutomaticRecoveryEnabled`, queue declaration and the `BackgroundService` loop and cancellation. The broker is the one `cart.checkout` queue as a sequence, and a failure anywhere in connect, declare or publish is the single `broker` oracle.
- A failure after `BasicPublishAsync` has already queued the message (for example while disposing the channel) is not modelled. A publish failure always leaves the queue unchanged.
- Which ready message the broker delivers next is left open: `Consumer.Deliver` takes its index as a parameter, and a requeued message keeps its place.
- A failure of `BasicAckAsync` itself, which would lead to a nack and a redelivered duplicate, is not modelled.
- EF Core change tracking is left out: `SaveChangesAsync`, store-assigned `Id`/`CartId`/`OrderId`, and schema configuration. Stores are maps and sequences. Store reads are assumed to succeed. The order of a cart's lines is the order the model stores them in.
- User ids are compared by exact string equality. Database collation is not modelled.
- JSON bytes, UTF-8 and property-name matching are abstract. Explicit `null` for string or number properties, and numbers out of `int` range, are not modelled. Only an absent property (which takes its default), a null `Items` list and a null element of `Items` are.
- Cache expiry timing and the wall clock are left out. Only a flag records whether the 24-hour expiry was requested.
- Prices are whole cents. Rounding of request prices to `decimal(18,2)` by the database, and `decimal` overflow in `Total`, are not modelled.
- Logging, controllers and dependency wiring are left out. `AddCartItemRequest` is declared elsewhere in ShoppingCart.API; its four fields are read off `CartService.cs:97-103`.
- Concurrent requests for the same user and interleavings across processes are left out. The model is sequential.
- CartProperties.MergeKeepsQuantitiesPositive: positivity is proved only when the add does not pass `int.MaxValue`, because the code's unchecked addition wraps (shown by `CartProperties.AddItemCanWrapQuantity`).
- CartProperties.AddItemKeepsInvariant: holds only for positive, non-overflowing requested quantities. The code itself accepts any `int` quantity, including zero and negatives, and wraps on overflow.
- CartProperties.AddAllQuantities: stated for non-negative requested quantities whose running totals stay within `int`, for the same reason.
- CartProperties.MergeQuantity: stated only when the sum does not wrap, because the code's unchecked addition wraps past either end of `int`; negative requests are covered.

/** The `cart.checkout` message as the JSON reader sees it: just the shape
    that matters to the consumer, with bytes and UTF-8 left abstract. */
module Wire {
  import opened Primitives

  /** A JSON property that is absent, explicitly `null`, or has a value. */
  datatype Field<+T> = Missing | Null | Present(value: T)

  /** One element of `Items`; an absent scalar property reads as its default. */
  datatype ItemJson = ItemJson(
    productId: Option<ProductId>,
    productName: Option<string>,
    quantity: Option<Int32>,
    price: Option<Cents>)

  /** `Items` may be absent, `null`, or a list whose elements may each be `null` (`None`). */
  datatype MessageJson = MessageJson(userId: Option<UserId>, items: Field<seq<Option<ItemJson>>>)

  /** A delivered body: text the reader rejects, the literal `null`, or an object. */
  datatype Body = Malformed | NullLiteral | Object(message: MessageJson)
}

/** `OrderItemMapper`: order items to their dtos, and cart items copied into
    new order items. */
module OrderItemMapper {
  import opened Base
  import opened Schema

  /** `OrderItemDto`: the item, its stock's id, its product's name and
      description, and quantity × unit price. */
  datatype OrderItemDto = OrderItemDto(orderItemId: Id, productStockId: Id, productName: NString,
                                       productDescription: NString, priceAtTimeOfOrder: int,
                                       quantity: int, totalPrice: int)

  /** The order item's stock and that stock's product exist: `toDto`
      dereferences both. */
  predicate Resolves(t: Tables, oi: OrderItem) {
    oi.stockId in t.stocks && t.stocks[oi.stockId].productId in t.products
  }

  /** Every order item of the table resolves. */
  predicate AllResolve(t: Tables) {
    forall k :: k in t.orderItems ==> Resolves(t, t.orderItems[k])
  }

  /** The references of every order item resolve in a valid store. */
  lemma ValidResolves(t: Tables)
    requires References(t)
    ensures AllResolve(t)
  {
  }

  /** `toDto`: null for null; otherwise the item's columns, its stock id, the
      stock's product's name and description, and the line total. */
  function ToDto(t: Tables, oi: Option<OrderItem>): (r: Option<OrderItemDto>)
    requires oi.Some? ==> Resolves(t, oi.value)
    ensures r.None? <==> oi.None?
    ensures oi.Some? ==> (r.value.orderItemId == oi.value.id && r.value.productStockId == oi.value.stockId
      && r.value.quantity == oi.value.quantity && r.value.priceAtTimeOfOrder == oi.value.priceAtTimeOfOrder
      && r.value.totalPrice == oi.value.quantity * oi.value.priceAtTimeOfOrder)
    ensures oi.Some? ==>
      var p := t.products[t.stocks[oi.value.stockId].productId];
      r.value.productName == p.name && r.value.productDescription == p.description
  {
    match oi
    case None => None
    case Some(x) =>
      var p := t.products[t.stocks[x.stockId].productId];
      Some(OrderItemDto(x.id, x.stockId, p.name, p.description, x.priceAtTimeOfOrder,
                        x.quantity, x.quantity * x.priceAtTimeOfOrder))
  }

  /** `toDtoList`: one dto per item, in the same order. */
  function ToDtoList(t: Tables, ois: seq<OrderItem>): (r: seq<OrderItemDto>)
    requires forall x :: x in ois ==> Resolves(t, x)
    ensures |r| == |ois|
    ensures forall i :: 0 <= i < |ois| ==> Some(r[i]) == ToDto(t, Some(ois[i]))
  {
    if ois == [] then [] else [ToDto(t, Some(ois[0])).value] + ToDtoList(t, ois[1..])
  }

  /** `fromCartItem`: an unsaved item of the order with the cart item's stock,
      quantity and unit price. */
  function FromCartItem(c: CartItem, orderId: Id): (r: OrderItem)
    ensures r.id == Unsaved && r.orderId == orderId && r.stockId == c.stockId
    ensures r.quantity == c.quantity && r.priceAtTimeOfOrder == c.priceAtTimeOfAdd
  {
    OrderItem(Unsaved, orderId, c.stockId, c.quantity, c.priceAtTimeOfAdd)
  }

  /** `fromCartItems`: one order item per cart item, in the same order. */
  function FromCartItems(cs: seq<CartItem>, orderId: Id): (r: seq<OrderItem>)
    ensures |r| == |cs|
    ensures forall i {:trigger r[i]} :: 0 <= i < |cs| ==> r[i] == FromCartItem(cs[i], orderId)
  {
    seq(|cs|, i requires 0 <= i < |cs| => FromCartItem(cs[i], orderId))
  }

  /** Σ quantity × priceAtTimeOfOrder. */
  function OrderTotal(ois: seq<OrderItem>): int {
    if ois == [] then 0 else ois[0].quantity * ois[0].priceAtTimeOfOrder + OrderTotal(ois[1..])
  }

  /** Σ totalPrice over item dtos. */
  function TotalPriceSum(ds: seq<OrderItemDto>): int {
    if ds == [] then 0 else ds[0].totalPrice + TotalPriceSum(ds[1..])
  }

  /** Copying cart items into an order keeps the total: the order items'
      total equals the total of the cart items they were made from. */
  lemma {:induction false} FromCartItemsTotal(cs: seq<CartItem>, orderId: Id)
    ensures OrderTotal(FromCartItems(cs, orderId)) == CartTotal(cs)
  {
    if cs != [] {
      FromCartItemsTotal(cs[1..], orderId);
      assert FromCartItems(cs, orderId)[1..] == FromCartItems(cs[1..], orderId);
    }
  }

  /** Numbering the items on save does not change their total. */
  lemma {:induction false} NumberedTotal(ois: seq<OrderItem>, start: Id)
    ensures OrderTotal(Numbered(ois, start)) == OrderTotal(ois)
  {
    if ois != [] {
      NumberedTotal(ois[1..], start + 1);
      assert Numbered(ois, start)[1..] == Numbered(ois[1..], start + 1);
    }
  }

  /** The line totals of the dtos add up to the order total of the items. */
  lemma {:induction false} ToDtoListTotal(t: Tables, ois: seq<OrderItem>)
    requires forall x :: x in ois ==> Resolves(t, x)
    ensures TotalPriceSum(ToDtoList(t, ois)) == OrderTotal(ois)
  {
    if ois != [] {
      ToDtoListTotal(t, ois[1..]);
      assert ToDtoList(t, ois)[1..] == ToDtoList(t, ois[1..]);
    }
  }
}

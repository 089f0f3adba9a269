/** `CartItemMapper`: a cart item to its dto, with the line total. */
module CartItemMapper {
  import opened Base
  import opened Schema
  import ProductMapper

  /** `CartItemDto`: the item, its stock as a dto and quantity × unit price. */
  datatype CartItemDto = CartItemDto(cartItemId: Id, productStock: Option<ProductMapper.ProductStockDto>,
                                     quantity: int, priceAtTimeOfAdd: int, totalPrice: int)

  /** The stock row a cart item refers to, if the table holds it. */
  function StockOf(t: Tables, c: CartItem): Option<ProductStock> {
    if c.stockId in t.stocks then Some(t.stocks[c.stockId]) else None
  }

  /** `toDto`: null for null; otherwise the item's columns, its stock's dto
      and the line total quantity × priceAtTimeOfAdd. */
  function ToDto(t: Tables, c: Option<CartItem>): (r: Option<CartItemDto>)
    ensures r.None? <==> c.None?
    ensures c.Some? ==> (r.value.cartItemId == c.value.id && r.value.quantity == c.value.quantity
      && r.value.priceAtTimeOfAdd == c.value.priceAtTimeOfAdd
      && r.value.totalPrice == c.value.quantity * c.value.priceAtTimeOfAdd)
    ensures c.Some? ==> r.value.productStock == ProductMapper.ToStockDto(t, StockOf(t, c.value))
  {
    match c
    case None => None
    case Some(x) =>
      Some(CartItemDto(x.id, ProductMapper.ToStockDto(t, StockOf(t, x)), x.quantity,
                       x.priceAtTimeOfAdd, x.quantity * x.priceAtTimeOfAdd))
  }

  /** `toDtoList`: one dto per item, in the same order. */
  function ToDtoList(t: Tables, cs: seq<CartItem>): (r: seq<CartItemDto>)
    ensures |r| == |cs|
    ensures forall i :: 0 <= i < |cs| ==> Some(r[i]) == ToDto(t, Some(cs[i]))
  {
    if cs == [] then [] else [ToDto(t, Some(cs[0])).value] + ToDtoList(t, cs[1..])
  }

  /** Σ totalPrice over item dtos. */
  function TotalPriceSum(ds: seq<CartItemDto>): int {
    if ds == [] then 0 else ds[0].totalPrice + TotalPriceSum(ds[1..])
  }

  /** Σ quantity over item dtos. */
  function QuantitySum(ds: seq<CartItemDto>): int {
    if ds == [] then 0 else ds[0].quantity + QuantitySum(ds[1..])
  }

  /** The line totals of the dtos add up to the cart total of the items, and
      their quantities to the item count. */
  lemma {:induction false} ToDtoListSums(t: Tables, cs: seq<CartItem>)
    ensures TotalPriceSum(ToDtoList(t, cs)) == CartTotal(cs)
    ensures QuantitySum(ToDtoList(t, cs)) == ItemCount(cs)
  {
    if cs != [] {
      ToDtoListSums(t, cs[1..]);
      assert ToDtoList(t, cs)[1..] == ToDtoList(t, cs[1..]);
    }
  }
}

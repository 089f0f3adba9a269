/** `CustomerService`: the shopping cart of a customer (add, change, remove,
    clear, show) and the catalogue of products in stock. */
module CustomerService {
  import opened Base
  import opened Persons
  import opened Schema
  import opened Repositories
  import ProductMapper
  import CartItemMapper

  /** `ShoppingCartDto`. */
  datatype ShoppingCartDto = ShoppingCartDto(cartId: Id, customerId: Id, customerName: string,
                                             cartItems: seq<CartItemMapper.CartItemDto>,
                                             totalAmount: int, totalItems: int)

  // ---------------------------------------------------------------------
  // Queries
  // ---------------------------------------------------------------------

  /** The customer's cart items, as `cartItemRepository.findByCart` lists them. */
  function CartItems(t: Tables, customerId: Id): seq<CartItem>
    requires customerId in t.carts
  {
    ItemsOfCart(t.cartItems, t.carts[customerId], t.nextId)
  }

  /** Σ quantity × priceAtTimeOfAdd over the customer's cart; 0 without a cart. */
  function CartAmount(t: Tables, customerId: Id): int {
    if customerId in t.carts then CartSum(t.cartItems, t.carts[customerId], t.nextId) else 0
  }

  /** Σ quantity over the customer's cart; 0 without a cart. */
  function CartQuantity(t: Tables, customerId: Id): int {
    if customerId in t.carts then CartCount(t.cartItems, t.carts[customerId], t.nextId) else 0
  }

  /** `getCartDto`: the customer's cart with its items in table order, whose
      amount is the sum of the item dtos' line totals and whose item count is
      the sum of their quantities as an `int` stream sums them, wrapping. */
  function Snapshot(t: Tables, customerId: Id): (d: ShoppingCartDto)
    requires customerId in t.customers && customerId in t.carts
    ensures d.cartId == t.carts[customerId] && d.customerId == customerId
    ensures d.customerName == FullName(t.customers[customerId].firstName, t.customers[customerId].lastName)
    ensures d.cartItems == CartItemMapper.ToDtoList(t, CartItems(t, customerId))
    ensures d.totalAmount == CartItemMapper.TotalPriceSum(d.cartItems) == CartAmount(t, customerId)
    ensures d.totalItems == Int32(CartItemMapper.QuantitySum(d.cartItems)) == Int32(CartQuantity(t, customerId))
  {
    var items := CartItems(t, customerId);
    var c := t.customers[customerId];
    CartItemMapper.ToDtoListSums(t, items);
    ScanSums(t.cartItems, t.carts[customerId], t.nextId);
    ShoppingCartDto(t.carts[customerId], customerId, FullName(c.firstName, c.lastName),
                    CartItemMapper.ToDtoList(t, items), CartTotal(items), Int32(ItemCount(items)))
  }

  /** `getCart`: null for an unknown customer or a customer without a cart,
      otherwise the snapshot of the cart. */
  function GetCart(t: Tables, customerId: Id): (r: Option<ShoppingCartDto>)
    ensures r.None? <==> customerId !in t.customers || customerId !in t.carts
    ensures r.Some? ==> r.value == Snapshot(t, customerId)
  {
    if customerId !in t.customers || customerId !in t.carts then None else Some(Snapshot(t, customerId))
  }

  /** `productStockRepository.findByAmountGreaterThan(0)`: the ids of the
      stocks with a positive amount, ascending. */
  function AvailableStockIds(t: Tables): (r: seq<Id>)
    ensures forall i :: 0 <= i < |r| ==> r[i] in t.stocks && t.stocks[r[i]].amount > 0
  {
    var r := KeysWhere(t.stocks, (s: ProductStock) => s.amount > 0, t.nextId);
    assert forall i :: 0 <= i < |r| ==> r[i] in r;
    r
  }

  /** When every stock id is below `nextId`, the scan lists every stock with a
      positive amount exactly once, and nothing else. */
  lemma AvailableStockIdsExactly(t: Tables)
    requires KeysBelow(t.stocks, t.nextId)
    ensures forall k :: k in AvailableStockIds(t) <==> k in t.stocks && t.stocks[k].amount > 0
    ensures forall i, j :: 0 <= i < j < |AvailableStockIds(t)| ==> AvailableStockIds(t)[i] != AvailableStockIds(t)[j]
  {
  }

  /** `getAllAvailableProducts`: the dtos of the stocks with a positive
      amount, one per stock id of the scan, in the same order. */
  function AvailableProducts(t: Tables): (r: seq<ProductMapper.ProductStockDto>)
    ensures |r| == |AvailableStockIds(t)|
    ensures forall i :: 0 <= i < |r| ==>
      Some(r[i]) == ProductMapper.ToStockDto(t, Some(t.stocks[AvailableStockIds(t)[i]]))
    ensures forall i :: 0 <= i < |r| ==> r[i].amount > 0
  {
    var ids := AvailableStockIds(t);
    ProductMapper.ToStockDtoList(t, RowsAt(t.stocks, ids))
  }

  // ---------------------------------------------------------------------
  // The invariant under the cart's writes
  // ---------------------------------------------------------------------

  /** Creating a cart for a customer without one, under the next id and
      linked both ways, keeps the invariant. */
  lemma NewCartKeepsValid(t: Tables, customerId: Id)
    requires Valid(t) && customerId in t.customers && customerId !in t.carts
    ensures Valid(WithCart(t, customerId))
  {
  }

  /** `cartItem.setQuantity(q)` and `cartItemRepository.save`: one item's
      quantity overwritten; nothing else changes. */
  function QuantitySet(t: Tables, k: Id, q: int): Tables
    requires k in t.cartItems
  {
    t.(cartItems := t.cartItems[k := t.cartItems[k].(quantity := q)])
  }

  /** `cartItemRepository.save` of a new item under the next id. */
  function ItemSaved(t: Tables, cartId: Id, stockId: Id, quantity: int, price: int): Tables {
    t.(cartItems := t.cartItems[t.nextId := CartItem(t.nextId, cartId, stockId, quantity, price)],
       nextId := t.nextId + 1)
  }

  /** Changing an item's quantity keeps the invariant. */
  lemma SetQuantityKeepsValid(t: Tables, k: Id, q: int)
    requires Valid(t) && k in t.cartItems
    ensures Valid(QuantitySet(t, k, q))
  {
  }

  /** Adding, under the next id, an item for a (cart, stock) pair the cart
      does not hold yet keeps the invariant; in particular a cart still holds
      at most one item per stock. */
  lemma NewItemKeepsValid(t: Tables, cartId: Id, stockId: Id, quantity: int, price: int)
    requires Valid(t) && stockId in t.stocks && cartId in t.cartOwners
    requires FindItem(t.cartItems, cartId, stockId, t.nextId).None?
    ensures Valid(ItemSaved(t, cartId, stockId, quantity, price))
  {
  }

  /** Deleting one item keeps the invariant. */
  lemma RemoveItemKeepsValid(t: Tables, k: Id)
    requires Valid(t)
    ensures Valid(t.(cartItems := t.cartItems - {k}))
  {
  }

  /** The tables after `cartItemRepository.deleteByCart`. */
  function CartItemsDeleted(t: Tables, cartId: Id): Tables {
    t.(cartItems := WithoutCart(t.cartItems, cartId))
  }

  /** Deleting all the items of a cart keeps the invariant. */
  lemma WithoutCartKeepsValid(t: Tables, cartId: Id)
    requires Valid(t)
    ensures Valid(CartItemsDeleted(t, cartId))
  {
  }

  // ---------------------------------------------------------------------
  // Operations
  // ---------------------------------------------------------------------

  /** The customer's existing item for the stock, if the customer has a cart
      and it holds one. */
  function ExistingItem(t: Tables, customerId: Id, stockId: Id): Option<Id> {
    if customerId in t.carts then FindItem(t.cartItems, t.carts[customerId], stockId, t.nextId) else None
  }

  /** The unit price a new cart item records: the stock's product's current price. */
  function PriceOf(t: Tables, stockId: Id): int
    requires stockId in t.stocks && t.stocks[stockId].productId in t.products
  {
    t.products[t.stocks[stockId].productId].price
  }

  /** The "get or create shopping cart" step of `addToCart`: the customer's
      cart is created empty under the next id when the customer has none. */
  function WithCart(t: Tables, customerId: Id): (r: Tables)
    ensures customerId in r.carts
  {
    if customerId in t.carts then t
    else t.(carts := t.carts[customerId := t.nextId], cartOwners := t.cartOwners[t.nextId := customerId],
            nextId := t.nextId + 1)
  }

  /** The tables after a successful `addToCart`: the cart exists, and either
      the cart's item for the stock has `quantity` more, an `int` addition
      that wraps, or a new item for the stock with `quantity` at the
      product's current price is saved. */
  function AddedToCart(t: Tables, customerId: Id, stockId: Id, quantity: int): (r: Tables)
    requires stockId in t.stocks && t.stocks[stockId].productId in t.products
    ensures r.customers == t.customers && r.sellers == t.sellers && r.products == t.products
    ensures r.stocks == t.stocks && r.orders == t.orders && r.orderItems == t.orderItems
  {
    var t1 := WithCart(t, customerId);
    var cartId := t1.carts[customerId];
    match FindItem(t1.cartItems, cartId, stockId, t1.nextId)
    case Some(k) => QuantitySet(t1, k, Int32(t1.cartItems[k].quantity + quantity))
    case None => ItemSaved(t1, cartId, stockId, quantity, PriceOf(t, stockId))
  }

  /** The merged quantity check of `addToCart` fails: the cart already holds
      the stock, and the stock cannot cover the merged quantity, the `int`
      sum of the item's quantity and `quantity`. */
  predicate MergedShort(t: Tables, customerId: Id, stockId: Id, quantity: int)
    requires stockId in t.stocks
  {
    var e := ExistingItem(t, customerId, stockId);
    e.Some? && e.value in t.cartItems && t.stocks[stockId].amount < Int32(t.cartItems[e.value].quantity + quantity)
  }

  /** A fresh cart holds no item, so the cart's item for a stock exists in
      the tables with the cart exactly when it did before. */
  lemma WithCartExisting(t: Tables, customerId: Id, stockId: Id)
    requires CartItemRefs(t.cartItems, t.stocks, t.cartOwners) && KeysBelow(t.cartOwners, t.nextId)
    ensures var t1 := WithCart(t, customerId);
      FindItem(t1.cartItems, t1.carts[customerId], stockId, t1.nextId) == ExistingItem(t, customerId, stockId)
  {
  }

  /** A successful `addToCart` touches one item of the customer's cart: an
      existing item for the stock gets `quantity` more, wrapped into an
      `int`, and keeps its recorded price; otherwise a new item for the stock records `quantity` and the
      product's current price. Every other item is left as it was. */
  lemma AddedToCartItem(t: Tables, customerId: Id, stockId: Id, quantity: int)
    requires CartItemRefs(t.cartItems, t.stocks, t.cartOwners) && KeysBelow(t.cartOwners, t.nextId)
    requires KeysBelow(t.cartItems, t.nextId)
    requires stockId in t.stocks && t.stocks[stockId].productId in t.products
    ensures var r := AddedToCart(t, customerId, stockId, quantity);
      && customerId in r.carts
      && (customerId in t.carts ==> r.carts == t.carts)
      && match ExistingItem(t, customerId, stockId)
         case Some(k) =>
           && k in t.cartItems && t.cartItems[k].stockId == stockId && t.cartItems[k].cartId == r.carts[customerId]
           && r.cartItems == t.cartItems[k := t.cartItems[k].(quantity := Int32(t.cartItems[k].quantity + quantity))]
           && r.nextId == t.nextId
         case None =>
           var n := WithCart(t, customerId).nextId;
           && n !in t.cartItems && r.nextId == n + 1
           && r.cartItems == t.cartItems[n := CartItem(n, r.carts[customerId], stockId, quantity, PriceOf(t, stockId))]
  {
    WithCartExisting(t, customerId, stockId);
  }

  /** The merged quantity is an `int` sum: one more of a stock whose cart
      item is at `Integer.MAX_VALUE` passes the merged check against any
      stock that is not negative, and the item is stored at
      `Integer.MIN_VALUE`. */
  lemma MergeWrapsPastCheck(t: Tables, customerId: Id, stockId: Id, k: Id)
    requires CartItemRefs(t.cartItems, t.stocks, t.cartOwners) && KeysBelow(t.cartOwners, t.nextId)
    requires KeysBelow(t.cartItems, t.nextId)
    requires stockId in t.stocks && t.stocks[stockId].productId in t.products && t.stocks[stockId].amount >= 0
    requires ExistingItem(t, customerId, stockId) == Some(k) && t.cartItems[k].quantity == IntMax
    ensures !MergedShort(t, customerId, stockId, 1)
    ensures AddedToCart(t, customerId, stockId, 1).cartItems[k].quantity == IntMin
  {
    AddedToCartItem(t, customerId, stockId, 1);
  }

  /** How much a successful `addToCart` raises the quantity of the cart's item
      for the stock: `quantity`, unless the merged quantity leaves the range
      of an `int` and wraps. `AddedToCartTotals` shows that the cart's
      totals move by exactly this much. */
  function Added(t: Tables, customerId: Id, stockId: Id, quantity: int): (n: int)
    requires CartItemRefs(t.cartItems, t.stocks, t.cartOwners)
    ensures ExistingItem(t, customerId, stockId).None? ==> n == quantity
    ensures ExistingItem(t, customerId, stockId).Some? ==>
      var q := t.cartItems[ExistingItem(t, customerId, stockId).value].quantity;
      q + n == Int32(q + quantity) && (IntMin <= q + quantity <= IntMax ==> n == quantity)
  {
    match ExistingItem(t, customerId, stockId)
    case Some(k) => Int32(t.cartItems[k].quantity + quantity) - t.cartItems[k].quantity
    case None => quantity
  }

  /** Adding `quantity` of a stock raises the cart's item count by what it
      adds to the item (`quantity` when nothing wraps) and its amount by that
      × the unit price the item records. */
  lemma AddedToCartTotals(t: Tables, customerId: Id, stockId: Id, quantity: int)
    requires CartItemRefs(t.cartItems, t.stocks, t.cartOwners) && KeysBelow(t.cartOwners, t.nextId)
    requires KeysBelow(t.cartItems, t.nextId)
    requires stockId in t.stocks && t.stocks[stockId].productId in t.products
    ensures var r := AddedToCart(t, customerId, stockId, quantity);
      var price := match ExistingItem(t, customerId, stockId)
                   case Some(k) => t.cartItems[k].priceAtTimeOfAdd
                   case None => PriceOf(t, stockId);
      var n := Added(t, customerId, stockId, quantity);
      && CartQuantity(r, customerId) == CartQuantity(t, customerId) + n
      && CartAmount(r, customerId) == CartAmount(t, customerId) + n * price
  {
    WithCartExisting(t, customerId, stockId);
    match ExistingItem(t, customerId, stockId)
    case Some(k) =>
      MergedTotals(t, customerId, stockId, quantity, k);
    case None =>
      if customerId in t.carts {
        NewItemTotals(t, customerId, stockId, quantity);
      } else {
        var t1 := WithCart(t, customerId);
        SumsOfEmptyCart(t1.cartItems, t1.carts[customerId], t1.nextId);
        NewItemTotals(t1, customerId, stockId, quantity);
      }
  }

  /** Raising the quantity of the cart's item `k` to the `int` sum of it and
      `quantity` raises the cart's sums by the difference and the difference
      × the item's recorded price. */
  lemma MergedTotals(t: Tables, customerId: Id, stockId: Id, quantity: int, k: Id)
    requires customerId in t.carts && stockId in t.stocks && t.stocks[stockId].productId in t.products
    requires FindItem(t.cartItems, t.carts[customerId], stockId, t.nextId) == Some(k)
    ensures var r := AddedToCart(t, customerId, stockId, quantity);
      var n := Int32(t.cartItems[k].quantity + quantity) - t.cartItems[k].quantity;
      && CartQuantity(r, customerId) == CartQuantity(t, customerId) + n
      && CartAmount(r, customerId) == CartAmount(t, customerId) + n * t.cartItems[k].priceAtTimeOfAdd
  {
    QuantitySetTotals(t, customerId, stockId, k, Int32(t.cartItems[k].quantity + quantity));
  }

  /** Setting the quantity of the cart's item `k` to `q` moves the cart's
      sums by the difference and the difference × the item's recorded price. */
  lemma QuantitySetTotals(t: Tables, customerId: Id, stockId: Id, k: Id, q: int)
    requires customerId in t.carts
    requires FindItem(t.cartItems, t.carts[customerId], stockId, t.nextId) == Some(k)
    ensures var r := QuantitySet(t, k, q);
      var x := t.cartItems[k];
      && CartQuantity(r, customerId) == CartQuantity(t, customerId) + (q - x.quantity)
      && CartAmount(r, customerId) == CartAmount(t, customerId) + (q - x.quantity) * x.priceAtTimeOfAdd
  {
    var x := t.cartItems[k];
    SumsUpdate(t.cartItems, k, x.(quantity := q), t.carts[customerId], t.nextId);
    assert q * x.priceAtTimeOfAdd - x.quantity * x.priceAtTimeOfAdd == (q - x.quantity) * x.priceAtTimeOfAdd;
  }

  /** Saving a new item for the stock in the customer's existing cart raises
      the cart's sums by `quantity` and `quantity` × the product's price. */
  lemma NewItemTotals(t: Tables, customerId: Id, stockId: Id, quantity: int)
    requires customerId in t.carts && stockId in t.stocks && t.stocks[stockId].productId in t.products
    requires KeysBelow(t.cartItems, t.nextId)
    requires FindItem(t.cartItems, t.carts[customerId], stockId, t.nextId).None?
    ensures var r := AddedToCart(t, customerId, stockId, quantity);
      && CartQuantity(r, customerId) == CartQuantity(t, customerId) + quantity
      && CartAmount(r, customerId) == CartAmount(t, customerId) + quantity * PriceOf(t, stockId)
  {
    var id := t.nextId;
    var item := CartItem(id, t.carts[customerId], stockId, quantity, PriceOf(t, stockId));
    SumsAdd(t.cartItems, id, item, t.carts[customerId], id + 1);
    SumsBeyond(t.cartItems, t.carts[customerId], id, id + 1);
  }

  /** `AddedToCart` when the cart holds item `k` for the stock: that item's
      quantity is raised. */
  lemma AddedToCartMerged(t: Tables, customerId: Id, stockId: Id, quantity: int, k: Id)
    requires stockId in t.stocks && t.stocks[stockId].productId in t.products
    requires var t1 := WithCart(t, customerId); FindItem(t1.cartItems, t1.carts[customerId], stockId, t1.nextId) == Some(k)
    ensures var t1 := WithCart(t, customerId);
      AddedToCart(t, customerId, stockId, quantity) == QuantitySet(t1, k, Int32(t1.cartItems[k].quantity + quantity))
  {
  }

  /** `AddedToCart` when the cart holds no item for the stock: a new item is
      saved under the next id. */
  lemma AddedToCartNew(t: Tables, customerId: Id, stockId: Id, quantity: int)
    requires stockId in t.stocks && t.stocks[stockId].productId in t.products
    requires var t1 := WithCart(t, customerId); FindItem(t1.cartItems, t1.carts[customerId], stockId, t1.nextId).None?
    ensures var t1 := WithCart(t, customerId);
      AddedToCart(t, customerId, stockId, quantity) ==
        ItemSaved(t1, t1.carts[customerId], stockId, quantity, PriceOf(t, stockId))
  {
  }

  /** A successful `addToCart` keeps the invariant. */
  lemma AddedToCartKeepsValid(t: Tables, customerId: Id, stockId: Id, quantity: int)
    requires Valid(t) && customerId in t.customers && stockId in t.stocks
    ensures Valid(AddedToCart(t, customerId, stockId, quantity))
  {
    if customerId !in t.carts {
      NewCartKeepsValid(t, customerId);
    }
    var t1 := WithCart(t, customerId);
    var cartId := t1.carts[customerId];
    match FindItem(t1.cartItems, cartId, stockId, t1.nextId)
    case Some(k) =>
      SetQuantityKeepsValid(t1, k, Int32(t1.cartItems[k].quantity + quantity));
    case None =>
      NewItemKeepsValid(t1, cartId, stockId, quantity, PriceOf(t, stockId));
  }

  // ---------------------------------------------------------------------
  // Repeated adds of one stock
  // ---------------------------------------------------------------------

  /** The part of the invariant the cart tables need: items name a stock and
      a cart, the customer/cart link holds both ways, ids are below `nextId`,
      and a cart holds at most one item per stock. `Valid` implies it. */
  predicate CartSound(t: Tables) {
    && CartItemRefs(t.cartItems, t.stocks, t.cartOwners) && CartsLinked(t.carts, t.cartOwners)
    && KeysBelow(t.cartOwners, t.nextId) && KeysBelow(t.cartItems, t.nextId) && OneItemPerStock(t.cartItems)
  }

  /** A successful `addToCart` keeps the cart tables sound. */
  lemma AddedToCartSound(t: Tables, customerId: Id, stockId: Id, quantity: int)
    requires CartSound(t) && stockId in t.stocks && t.stocks[stockId].productId in t.products
    ensures CartSound(AddedToCart(t, customerId, stockId, quantity))
  {
    var t1 := WithCart(t, customerId);
    assert CartSound(t1);
    var cartId := t1.carts[customerId];
    match FindItem(t1.cartItems, cartId, stockId, t1.nextId)
    case Some(k) =>
      ItemQuantitySound(t1, k, Int32(t1.cartItems[k].quantity + quantity));
    case None =>
      ItemSavedSound(t1, cartId, stockId, quantity, PriceOf(t, stockId));
  }

  /** Changing an item's quantity keeps the cart tables sound. */
  lemma ItemQuantitySound(t: Tables, k: Id, q: int)
    requires CartSound(t) && k in t.cartItems
    ensures CartSound(QuantitySet(t, k, q))
  {
  }

  /** Saving a new item for a (cart, stock) pair the cart does not hold yet
      keeps the cart tables sound. */
  lemma ItemSavedSound(t: Tables, cartId: Id, stockId: Id, quantity: int, price: int)
    requires CartSound(t) && stockId in t.stocks && cartId in t.cartOwners
    requires FindItem(t.cartItems, cartId, stockId, t.nextId).None?
    ensures CartSound(ItemSaved(t, cartId, stockId, quantity, price))
  {
  }

  /** The sum of the first `n` quantities of `qs`. */
  function Total(qs: seq<int>, n: nat): int
    requires n <= |qs|
  {
    if n == 0 then 0 else Total(qs, n - 1) + qs[n - 1]
  }

  /** The quantity one item holds after one add per each of the first `n`
      quantities of `qs`: the first add stores its quantity, and each later
      one the `int` sum. */
  function Stored(qs: seq<int>, n: nat): int
    requires 1 <= n <= |qs|
  {
    if n == 1 then qs[0] else Int32(Total(qs, n))
  }

  /** The stored quantity is the wrapped sum, and the plain sum when that
      fits an `int`. */
  lemma StoredSum(qs: seq<int>, n: nat)
    requires 1 <= n <= |qs|
    ensures Int32(Stored(qs, n)) == Int32(Total(qs, n))
    ensures IntMin <= Total(qs, n) <= IntMax ==> Stored(qs, n) == Total(qs, n)
  {
  }

  /** `rs` is a run of successful `addToCart` calls from `t`, one per
      quantity in `qs`, all by the same customer for the same stock:
      `rs[i + 1]` is `rs[i]` after adding `qs[i]`. */
  predicate AddRun(t: Tables, customerId: Id, stockId: Id, qs: seq<int>, rs: seq<Tables>)
    requires stockId in t.stocks && t.stocks[stockId].productId in t.products
  {
    && |rs| == |qs| + 1 && rs[0] == t
    && forall i {:trigger qs[i]} :: 0 <= i < |qs| ==>
         rs[i].stocks == t.stocks && rs[i].products == t.products && rs[i + 1] == AddedToCart(rs[i], customerId, stockId, qs[i])
  }

  /** Tables `r` hold, for the customer and the stock, the one item `k` at
      quantity `q` and at the price the stock's product had in `t`, and the
      customer's cart totals exceed those in `t` by that item's share. */
  predicate Accumulated(t: Tables, r: Tables, customerId: Id, stockId: Id, k: Id, q: int)
    requires stockId in t.stocks && t.stocks[stockId].productId in t.products
  {
    && ExistingItem(r, customerId, stockId) == Some(k) && k in r.cartItems
    && r.cartItems[k].quantity == q && r.cartItems[k].priceAtTimeOfAdd == PriceOf(t, stockId)
    && CartQuantity(r, customerId) == CartQuantity(t, customerId) + q
    && CartAmount(r, customerId) == CartAmount(t, customerId) + q * PriceOf(t, stockId)
  }

  /** Every table of a run from sound tables is sound, with the same stocks
      and products. */
  lemma {:induction false} RunSound(t: Tables, customerId: Id, stockId: Id, qs: seq<int>, rs: seq<Tables>, i: nat)
    requires CartSound(t) && stockId in t.stocks && t.stocks[stockId].productId in t.products
    requires AddRun(t, customerId, stockId, qs, rs) && i <= |qs|
    ensures CartSound(rs[i]) && rs[i].stocks == t.stocks && rs[i].products == t.products
  {
    if i > 0 {
      RunSound(t, customerId, stockId, qs, rs, i - 1);
      AddedToCartSound(rs[i - 1], customerId, stockId, qs[i - 1]);
    }
  }

  /** Repeated adds of one stock, starting from a cart that does not hold it,
      build one item: the first add creates it under the next id, its
      quantity is `Stored(qs, |qs|)`, the `int`-wrapped sum of all the quantities
      and their plain sum whenever that fits an `int`, it keeps the unit
      price of the first add, and the cart's totals grow by that quantity and
      quantity × price. */
  lemma RepeatedAddsSum(t: Tables, customerId: Id, stockId: Id, qs: seq<int>, rs: seq<Tables>)
    requires CartSound(t) && stockId in t.stocks && t.stocks[stockId].productId in t.products
    requires ExistingItem(t, customerId, stockId).None? && |qs| > 0 && AddRun(t, customerId, stockId, qs, rs)
    ensures Accumulated(t, rs[|qs|], customerId, stockId, WithCart(t, customerId).nextId, Stored(qs, |qs|))
    ensures IntMin <= Total(qs, |qs|) <= IntMax ==>
      rs[|qs|].cartItems[WithCart(t, customerId).nextId].quantity == Total(qs, |qs|)
  {
    RunPrefix(t, customerId, stockId, qs, rs, |qs|);
    StoredSum(qs, |qs|);
  }

  /** `RepeatedAddsSum` after the first `i` adds of the run. */
  lemma {:induction false} RunPrefix(t: Tables, customerId: Id, stockId: Id, qs: seq<int>, rs: seq<Tables>, i: nat)
    requires CartSound(t) && stockId in t.stocks && t.stocks[stockId].productId in t.products
    requires ExistingItem(t, customerId, stockId).None? && AddRun(t, customerId, stockId, qs, rs) && 1 <= i <= |qs|
    ensures Accumulated(t, rs[i], customerId, stockId, WithCart(t, customerId).nextId, Stored(qs, i))
  {
    assert rs[i] == AddedToCart(rs[i - 1], customerId, stockId, qs[i - 1]);
    if i == 1 {
      FirstAdd(t, customerId, stockId, qs[0]);
    } else {
      RunPrefix(t, customerId, stockId, qs, rs, i - 1);
      RunSound(t, customerId, stockId, qs, rs, i - 1);
      AddedAgain(t, rs[i - 1], customerId, stockId, WithCart(t, customerId).nextId, Stored(qs, i - 1), qs[i - 1]);
      WrappedTotal(qs, i);
    }
  }

  /** The stored quantity after `n - 1` adds, raised by the next one with
      `int` wrap, is the stored quantity after `n`. */
  lemma WrappedTotal(qs: seq<int>, n: nat)
    requires 2 <= n <= |qs|
    ensures Int32(Stored(qs, n - 1) + qs[n - 1]) == Stored(qs, n)
  {
    if n > 2 {
      Int32Add(Total(qs, n - 1), qs[n - 1]);
    } else {
      assert Total(qs, 1) == qs[0];
    }
  }

  /** The first add of a stock the cart does not hold creates its item
      under the next id with the quantity and the product's price. */
  lemma FirstAdd(t: Tables, customerId: Id, stockId: Id, quantity: int)
    requires CartSound(t) && stockId in t.stocks && t.stocks[stockId].productId in t.products
    requires ExistingItem(t, customerId, stockId).None?
    ensures Accumulated(t, AddedToCart(t, customerId, stockId, quantity), customerId, stockId, WithCart(t, customerId).nextId, quantity)
  {
    var r := AddedToCart(t, customerId, stockId, quantity);
    AddedToCartItem(t, customerId, stockId, quantity);
    AddedToCartTotals(t, customerId, stockId, quantity);
    AddedToCartSound(t, customerId, stockId, quantity);
    AddedOnce(r, customerId, stockId, WithCart(t, customerId).nextId);
  }

  /** One more add keeps `Accumulated`: the item `k` found for the stock is
      raised to the `int` sum and keeps the first add's price, and the cart
      totals move with it. */
  lemma AddedAgain(t: Tables, r0: Tables, customerId: Id, stockId: Id, k: Id, q: int, quantity: int)
    requires stockId in t.stocks && t.stocks[stockId].productId in t.products
    requires CartSound(r0) && r0.stocks == t.stocks && r0.products == t.products
    requires Accumulated(t, r0, customerId, stockId, k, q)
    ensures Accumulated(t, AddedToCart(r0, customerId, stockId, quantity), customerId, stockId, k, Int32(q + quantity))
  {
    NextAdd(r0, customerId, stockId, quantity, k);
    Telescoped(CartAmount(t, customerId), CartAmount(r0, customerId),
               CartAmount(AddedToCart(r0, customerId, stockId, quantity), customerId),
               q, Int32(q + quantity), PriceOf(t, stockId), r0.cartItems[k].priceAtTimeOfAdd);
  }

  /** Raising an item from `q0` to `q1` at price `p` after adding it at `q0`
      amounts to adding it at `q1`. */
  lemma Telescoped(a0: int, a1: int, a2: int, q0: int, q1: int, p: int, p1: int)
    requires a1 == a0 + q0 * p && a2 == a1 + (q1 - q0) * p1 && p1 == p
    ensures a2 == a0 + q1 * p
  {
    assert (q1 - q0) * p == q1 * p - q0 * p;
  }

  /** A later add of a stock the cart holds as item `k` keeps finding `k`,
      raises its quantity to the `int` sum and keeps its price. */
  lemma NextAdd(t: Tables, customerId: Id, stockId: Id, quantity: int, k: Id)
    requires CartSound(t) && stockId in t.stocks && t.stocks[stockId].productId in t.products
    requires ExistingItem(t, customerId, stockId) == Some(k) && k in t.cartItems
    ensures var r := AddedToCart(t, customerId, stockId, quantity);
      var x := t.cartItems[k];
      && ExistingItem(r, customerId, stockId) == Some(k) && k in r.cartItems
      && r.cartItems[k].quantity == Int32(x.quantity + quantity)
      && r.cartItems[k].priceAtTimeOfAdd == x.priceAtTimeOfAdd
      && CartQuantity(r, customerId) == CartQuantity(t, customerId) + (Int32(x.quantity + quantity) - x.quantity)
      && CartAmount(r, customerId) == CartAmount(t, customerId) + (Int32(x.quantity + quantity) - x.quantity) * x.priceAtTimeOfAdd
  {
    var r := AddedToCart(t, customerId, stockId, quantity);
    AddedToCartItem(t, customerId, stockId, quantity);
    AddedToCartTotals(t, customerId, stockId, quantity);
    AddedToCartSound(t, customerId, stockId, quantity);
    AddedOnce(r, customerId, stockId, k);
  }

  /** Adding 3 and then 4 of a stock priced 5 to a cart without it leaves one
      item of 7 at price 5, and raises the cart's quantity by 7 and its total
      amount by 35. */
  lemma ThreeThenFour(t: Tables, customerId: Id, stockId: Id)
    requires CartSound(t) && stockId in t.stocks && t.stocks[stockId].productId in t.products
    requires ExistingItem(t, customerId, stockId).None? && PriceOf(t, stockId) == 5
    ensures var r := AddedToCart(AddedToCart(t, customerId, stockId, 3), customerId, stockId, 4);
      var k := WithCart(t, customerId).nextId;
      && ExistingItem(r, customerId, stockId) == Some(k) && k in r.cartItems
      && r.cartItems[k].quantity == 7 && r.cartItems[k].priceAtTimeOfAdd == 5
      && CartQuantity(r, customerId) == CartQuantity(t, customerId) + 7
      && CartAmount(r, customerId) == CartAmount(t, customerId) + 35
  {
    FirstAdd(t, customerId, stockId, 3);
    AddedToCartSound(t, customerId, stockId, 3);
    AddedAgain(t, AddedToCart(t, customerId, stockId, 3), customerId, stockId, WithCart(t, customerId).nextId, 3, 4);
  }

  /** Once the cart holds item `k` for the stock, it is the item `addToCart`
      finds for it. */
  lemma AddedOnce(t: Tables, customerId: Id, stockId: Id, k: Id)
    requires CartSound(t) && customerId in t.carts && k in t.cartItems
    requires t.cartItems[k].cartId == t.carts[customerId] && t.cartItems[k].stockId == stockId
    ensures ExistingItem(t, customerId, stockId) == Some(k)
  {
    assert k < t.nextId;
  }

  /** `shoppingCartRepository.save` of a new cart when the customer has none. */
  method GetOrCreateCart(db: Store, customerId: Id) returns (cartId: Id)
    requires db.Valid() && customerId in db.customers
    modifies db
    ensures db.Valid()
    ensures db.State() == WithCart(old(db.State()), customerId)
    ensures customerId in old(db.carts) ==> unchanged(db)
    ensures cartId == db.carts[customerId]
  {
    if customerId in db.carts {
      cartId := db.carts[customerId];
    } else {
      NewCartKeepsValid(db.State(), customerId);
      cartId := SaveCart(db, customerId);
    }
  }

  /** `shoppingCartRepository.save` of a new cart for a customer without one:
      linked both ways, under the next id. */
  method SaveCart(db: Store, customerId: Id) returns (cartId: Id)
    requires customerId !in db.carts
    modifies db
    ensures cartId == old(db.nextId)
    ensures db.State() == WithCart(old(db.State()), customerId)
  {
    cartId := db.nextId;
    db.carts := db.carts[customerId := cartId];
    db.cartOwners := db.cartOwners[cartId := customerId];
    db.nextId := db.nextId + 1;
  }

  /** `cartItem.setQuantity(n)` and `cartItemRepository.save`: one item's
      quantity overwritten in place. */
  method SetQuantity(db: Store, k: Id, quantity: int)
    requires db.Valid() && k in db.cartItems
    modifies db
    ensures db.Valid()
    ensures db.State() == QuantitySet(old(db.State()), k, quantity)
  {
    SetQuantityKeepsValid(db.State(), k, quantity);
    db.cartItems := db.cartItems[k := db.cartItems[k].(quantity := quantity)];
  }

  /** `cartItemRepository.save` of a new item for a (cart, stock) pair the
      cart does not hold yet, under the next id. */
  method SaveNewItem(db: Store, cartId: Id, stockId: Id, quantity: int, price: int)
    requires db.Valid() && stockId in db.stocks && cartId in db.cartOwners
    requires FindItem(db.cartItems, cartId, stockId, db.nextId).None?
    modifies db
    ensures db.Valid()
    ensures db.State() == ItemSaved(old(db.State()), cartId, stockId, quantity, price)
  {
    var item := CartItem(db.nextId, cartId, stockId, quantity, price);
    NewItemKeepsValid(db.State(), cartId, stockId, quantity, price);
    db.cartItems := db.cartItems[db.nextId := item];
    db.nextId := db.nextId + 1;
  }

  /** `addToCart`. Fails, changing nothing, for an unknown customer, an
      unknown stock, a stock with less than `quantity` left, or, when the cart
      already holds the stock, less than the merged quantity left. Otherwise
      the tables become `AddedToCart` of the old ones and the customer's cart
      is returned. */
  method AddToCart(db: Store, customerId: Id, stockId: Id, quantity: int)
    returns (r: Result<ShoppingCartDto, Error>)
    requires db.Valid()
    modifies db
    ensures db.Valid()
    ensures r.Err? ==> unchanged(db)
    ensures r == Err(CustomerNotFound) <==> customerId !in old(db.customers)
    ensures r == Err(ProductNotFound) <==> customerId in old(db.customers) && stockId !in old(db.stocks)
    ensures r == Err(InsufficientStock) <==>
      customerId in old(db.customers) && stockId in old(db.stocks) && old(db.stocks[stockId].amount) < quantity
    ensures r == Err(InsufficientStockForQuantity) <==>
      customerId in old(db.customers) && stockId in old(db.stocks) && old(db.stocks[stockId].amount) >= quantity &&
      MergedShort(old(db.State()), customerId, stockId, quantity)
    ensures r.Err? ==>
      r == Err(CustomerNotFound) || r == Err(ProductNotFound) || r == Err(InsufficientStock) ||
      r == Err(InsufficientStockForQuantity)
    ensures r.Ok? ==> stockId in old(db.stocks) && db.State() == AddedToCart(old(db.State()), customerId, stockId, quantity)
    ensures r.Ok? ==> customerId in db.customers && customerId in db.carts && r.value == Snapshot(db.State(), customerId)
  {
    if customerId !in db.customers {
      return Err(CustomerNotFound);
    }
    if stockId !in db.stocks {
      return Err(ProductNotFound);
    }
    if db.stocks[stockId].amount < quantity {
      return Err(InsufficientStock);
    }
    r := AddAvailable(db, customerId, stockId, quantity);
  }

  /** The part of `addToCart` after the customer, the stock and its amount
      have been checked: the cart is fetched or created, the merged quantity
      is checked when the cart holds the stock, and the item is saved. */
  method AddAvailable(db: Store, customerId: Id, stockId: Id, quantity: int)
    returns (r: Result<ShoppingCartDto, Error>)
    requires db.Valid() && customerId in db.customers && stockId in db.stocks
    modifies db
    ensures db.Valid()
    ensures r.Err? ==> unchanged(db) && r == Err(InsufficientStockForQuantity)
    ensures r.Err? <==> MergedShort(old(db.State()), customerId, stockId, quantity)
    ensures r.Ok? ==> db.State() == AddedToCart(old(db.State()), customerId, stockId, quantity)
    ensures r.Ok? ==> customerId in db.customers && customerId in db.carts && r.value == Snapshot(db.State(), customerId)
  {
    var stock := db.stocks[stockId];
    var price := db.products[stock.productId].price;
    ghost var t0 := db.State();
    assert price == PriceOf(t0, stockId);
    WithCartExisting(t0, customerId, stockId);
    var cartId := GetOrCreateCart(db, customerId);
    ghost var t1 := db.State();
    var existing := FindItem(db.cartItems, cartId, stockId, db.nextId);
    if existing.Some? {
      var item := db.cartItems[existing.value];
      var newQuantity := Int32(item.quantity + quantity);
      if stock.amount < newQuantity {
        return Err(InsufficientStockForQuantity);
      }
      SetQuantity(db, existing.value, newQuantity);
      AddedToCartMerged(t0, customerId, stockId, quantity, existing.value);
      assert db.State() == AddedToCart(t0, customerId, stockId, quantity);
    } else {
      SaveNewItem(db, cartId, stockId, quantity, price);
      AddedToCartNew(t0, customerId, stockId, quantity);
      assert db.State() == AddedToCart(t0, customerId, stockId, quantity);
    }
    r := Ok(Snapshot(db.State(), customerId));
  }

  // ---------------------------------------------------------------------
  // Removing, changing and clearing items
  // ---------------------------------------------------------------------

  /** Deleting the customer's item `k` lowers the customer's item count by
      its quantity and the amount by its line total, and leaves every other
      customer's sums as they were. */
  lemma RemovedTotals(t: Tables, customerId: Id, k: Id)
    requires References(t) && KeysBelow(t.cartItems, t.nextId) && OwnsItem(t, customerId, k)
    ensures var r := t.(cartItems := t.cartItems - {k});
      && CartQuantity(r, customerId) == CartQuantity(t, customerId) - t.cartItems[k].quantity
      && CartAmount(r, customerId) == CartAmount(t, customerId) - LineTotal(t.cartItems[k])
    ensures forall d :: d != customerId ==>
      CartQuantity(t.(cartItems := t.cartItems - {k}), d) == CartQuantity(t, d) &&
      CartAmount(t.(cartItems := t.cartItems - {k}), d) == CartAmount(t, d)
  {
    OwnerHasCart(t, customerId, k);
    forall d | d in t.carts
      ensures CartQuantity(t.(cartItems := t.cartItems - {k}), d) ==
        CartQuantity(t, d) - (if d == customerId then t.cartItems[k].quantity else 0)
      ensures CartAmount(t.(cartItems := t.cartItems - {k}), d) ==
        CartAmount(t, d) - (if d == customerId then LineTotal(t.cartItems[k]) else 0)
    {
      SumsRemove(t.cartItems, k, t.carts[d], t.nextId);
    }
  }

  /** Setting the quantity of the customer's item `k` to `quantity` moves the
      customer's item count and amount by the difference, and leaves every
      other customer's sums as they were. */
  lemma UpdatedTotals(t: Tables, customerId: Id, k: Id, quantity: int)
    requires References(t) && KeysBelow(t.cartItems, t.nextId) && OwnsItem(t, customerId, k)
    ensures var x := t.cartItems[k];
      var r := t.(cartItems := t.cartItems[k := x.(quantity := quantity)]);
      && CartQuantity(r, customerId) == CartQuantity(t, customerId) - x.quantity + quantity
      && CartAmount(r, customerId) == CartAmount(t, customerId) + (quantity - x.quantity) * x.priceAtTimeOfAdd
    ensures forall d :: d != customerId ==>
      var r := t.(cartItems := t.cartItems[k := t.cartItems[k].(quantity := quantity)]);
      CartQuantity(r, d) == CartQuantity(t, d) && CartAmount(r, d) == CartAmount(t, d)
  {
    OwnerHasCart(t, customerId, k);
    var x := t.cartItems[k];
    var y := x.(quantity := quantity);
    forall d | d in t.carts
      ensures CartQuantity(t.(cartItems := t.cartItems[k := y]), d) ==
        CartQuantity(t, d) + (if d == customerId then quantity - x.quantity else 0)
      ensures CartAmount(t.(cartItems := t.cartItems[k := y]), d) ==
        CartAmount(t, d) + (if d == customerId then LineTotal(y) - LineTotal(x) else 0)
    {
      SumsUpdate(t.cartItems, k, y, t.carts[d], t.nextId);
    }
    assert LineTotal(y) - LineTotal(x) == (quantity - x.quantity) * x.priceAtTimeOfAdd;
  }

  /** Clearing the customer's cart leaves it without items and with zero
      sums, and leaves every other customer's cart as it was. */
  lemma ClearedCart(t: Tables, customerId: Id)
    requires CartsLinked(t.carts, t.cartOwners) && customerId in t.carts
    ensures var r := CartItemsDeleted(t, t.carts[customerId]);
      && CartItems(r, customerId) == [] && CartQuantity(r, customerId) == 0 && CartAmount(r, customerId) == 0
    ensures forall d :: d in t.carts && d != customerId ==>
      CartItems(CartItemsDeleted(t, t.carts[customerId]), d) == CartItems(t, d)
  {
    var cartId := t.carts[customerId];
    var m := WithoutCart(t.cartItems, cartId);
    ItemsOfEmptyCart(m, cartId, t.nextId);
    SumsOfEmptyCart(m, cartId, t.nextId);
    forall d | d in t.carts && d != customerId
      ensures CartItems(t.(cartItems := m), d) == CartItems(t, d)
    {
      WithoutCartKeepsOthers(t.cartItems, cartId, t.carts[d], t.nextId);
    }
  }

  /** `cartItemRepository.delete` of one item. */
  method DeleteItem(db: Store, k: Id)
    requires db.Valid()
    modifies db
    ensures db.Valid()
    ensures db.State() == old(db.State()).(cartItems := old(db.cartItems) - {k})
  {
    RemoveItemKeepsValid(db.State(), k);
    db.cartItems := db.cartItems - {k};
  }

  /** `removeFromCart`. Fails, changing nothing, for an unknown customer, an
      unknown item, or an item in another customer's cart; otherwise deletes
      the item and returns the customer's cart. */
  method RemoveFromCart(db: Store, customerId: Id, cartItemId: Id)
    returns (r: Result<ShoppingCartDto, Error>)
    requires db.Valid()
    modifies db
    ensures db.Valid()
    ensures r.Err? ==> unchanged(db)
    ensures r == Err(CustomerNotFound) <==> customerId !in old(db.customers)
    ensures r == Err(CartItemNotFound) <==> customerId in old(db.customers) && cartItemId !in old(db.cartItems)
    ensures r == Err(NotCustomersItem) <==>
      customerId in old(db.customers) && cartItemId in old(db.cartItems) && !OwnsItem(old(db.State()), customerId, cartItemId)
    ensures r.Err? ==> r == Err(CustomerNotFound) || r == Err(CartItemNotFound) || r == Err(NotCustomersItem)
    ensures r.Ok? ==> OwnsItem(old(db.State()), customerId, cartItemId)
    ensures r.Ok? ==> db.State() == old(db.State()).(cartItems := old(db.cartItems) - {cartItemId})
    ensures r.Ok? ==> customerId in db.customers && customerId in db.carts && r.value == Snapshot(db.State(), customerId)
  {
    if customerId !in db.customers {
      return Err(CustomerNotFound);
    }
    if cartItemId !in db.cartItems {
      return Err(CartItemNotFound);
    }
    if db.cartOwners[db.cartItems[cartItemId].cartId] != customerId {
      return Err(NotCustomersItem);
    }
    OwnerHasCart(db.State(), customerId, cartItemId);
    DeleteItem(db, cartItemId);
    r := Ok(Snapshot(db.State(), customerId));
  }

  /** `updateCartItemQuantity`. A quantity of zero or less removes the item,
      as `removeFromCart` does. Otherwise it fails, changing nothing, for an
      unknown customer, an unknown item, an item in another customer's cart,
      or a stock with less than `quantity` left; and else overwrites the
      item's quantity and returns the customer's cart. */
  method UpdateCartItemQuantity(db: Store, customerId: Id, cartItemId: Id, quantity: int)
    returns (r: Result<ShoppingCartDto, Error>)
    requires db.Valid()
    modifies db
    ensures db.Valid()
    ensures r.Err? ==> unchanged(db)
    ensures r == Err(CustomerNotFound) <==> customerId !in old(db.customers)
    ensures r == Err(CartItemNotFound) <==> customerId in old(db.customers) && cartItemId !in old(db.cartItems)
    ensures r == Err(NotCustomersItem) <==>
      customerId in old(db.customers) && cartItemId in old(db.cartItems) && !OwnsItem(old(db.State()), customerId, cartItemId)
    ensures r == Err(InsufficientStockForQuantity) <==>
      quantity > 0 && customerId in old(db.customers) && OwnsItem(old(db.State()), customerId, cartItemId) &&
      StockShort(old(db.State()), cartItemId, quantity)
    ensures r.Err? ==>
      r == Err(CustomerNotFound) || r == Err(CartItemNotFound) || r == Err(NotCustomersItem) ||
      r == Err(InsufficientStockForQuantity)
    ensures r.Ok? ==> OwnsItem(old(db.State()), customerId, cartItemId)
    ensures r.Ok? && quantity <= 0 ==> db.State() == old(db.State()).(cartItems := old(db.cartItems) - {cartItemId})
    ensures r.Ok? && quantity > 0 ==> db.State() == QuantitySet(old(db.State()), cartItemId, quantity)
    ensures r.Ok? ==> customerId in db.customers && customerId in db.carts && r.value == Snapshot(db.State(), customerId)
  {
    if quantity <= 0 {
      r := RemoveFromCart(db, customerId, cartItemId);
      return;
    }
    if customerId !in db.customers {
      return Err(CustomerNotFound);
    }
    if cartItemId !in db.cartItems {
      return Err(CartItemNotFound);
    }
    var item := db.cartItems[cartItemId];
    if db.cartOwners[item.cartId] != customerId {
      return Err(NotCustomersItem);
    }
    if db.stocks[item.stockId].amount < quantity {
      return Err(InsufficientStockForQuantity);
    }
    OwnerHasCart(db.State(), customerId, cartItemId);
    SetQuantity(db, cartItemId, quantity);
    r := Ok(Snapshot(db.State(), customerId));
  }

  /** The stock of item `k` holds less than `quantity`. */
  predicate StockShort(t: Tables, k: Id, quantity: int) {
    k in t.cartItems && t.cartItems[k].stockId in t.stocks && t.stocks[t.cartItems[k].stockId].amount < quantity
  }

  /** `cartItemRepository.deleteByCart`. */
  method DeleteCartItems(db: Store, cartId: Id)
    modifies db
    ensures db.State() == CartItemsDeleted(old(db.State()), cartId)
  {
    db.cartItems := WithoutCart(db.cartItems, cartId);
  }

  /** `clearCart`: false, changing nothing, for an unknown customer or a
      customer without a cart; otherwise every item of the customer's cart is
      deleted and the result is true. */
  method ClearCart(db: Store, customerId: Id) returns (cleared: bool)
    requires db.Valid()
    modifies db
    ensures db.Valid()
    ensures cleared <==> customerId in old(db.customers) && customerId in old(db.carts)
    ensures !cleared ==> unchanged(db)
    ensures cleared ==> db.State() == CartItemsDeleted(old(db.State()), old(db.carts[customerId]))
  {
    if customerId !in db.customers || customerId !in db.carts {
      return false;
    }
    WithoutCartKeepsValid(db.State(), db.carts[customerId]);
    DeleteCartItems(db, db.carts[customerId]);
    cleared := true;
  }
}

/** `OrderService`: checkout of a customer's cart into a confirmed order that
    takes the ordered quantities off the stocks, order status changes, and
    order lookups. */
module OrderService {
  import opened Base
  import opened Schema
  import opened Repositories
  import OrderItemMapper
  import OrderMapper
  import CustomerService

  // ---------------------------------------------------------------------
  // Stock validation and bookkeeping
  // ---------------------------------------------------------------------

  /** Every item names a stock of the table. */
  predicate InStock(stocks: map<Id, ProductStock>, items: seq<CartItem>) {
    forall i :: 0 <= i < |items| ==> items[i].stockId in stocks
  }

  /** Item `x`'s stock holds less than the item's quantity. */
  predicate Short(stocks: map<Id, ProductStock>, x: CartItem) {
    x.stockId in stocks && stocks[x.stockId].amount < x.quantity
  }

  /** The index of the first item whose stock is short, if there is one:
      where the validation loop of `checkout` stops. */
  function FirstShort(stocks: map<Id, ProductStock>, items: seq<CartItem>): (r: Option<nat>)
    ensures r.Some? ==> r.value < |items| && Short(stocks, items[r.value])
    ensures r.Some? ==> forall j :: 0 <= j < r.value ==> !Short(stocks, items[j])
    ensures r.None? <==> forall j :: 0 <= j < |items| ==> !Short(stocks, items[j])
  {
    if items == [] then None
    else if Short(stocks, items[0]) then Some(0)
    else
      match FirstShort(stocks, items[1..])
      case Some(j) => Some(j + 1)
      case None => None
  }

  /** Σ quantity of the items that name stock `s`. */
  function Ordered(items: seq<CartItem>, s: Id): int {
    if items == [] then 0
    else
      var x := items[|items| - 1];
      Ordered(items[..|items| - 1], s) + (if x.stockId == s then x.quantity else 0)
  }

  /** `productStock.setAmount(productStock.getAmount() - quantity)`: the
      stock with `quantity` taken off its amount in `int` arithmetic. */
  function Lowered(p: ProductStock, quantity: int): (r: ProductStock)
    ensures r.id == p.id && r.productId == p.productId && r.sellerId == p.sellerId
    ensures r.amount == Int32(p.amount - quantity)
  {
    p.(amount := Int32(p.amount - quantity))
  }

  /** The stock update loop of `checkout`: each item's stock, in turn, loses
      the item's quantity, in Java `int` arithmetic. */
  function Decremented(stocks: map<Id, ProductStock>, items: seq<CartItem>): (r: map<Id, ProductStock>)
    requires InStock(stocks, items)
    ensures r.Keys == stocks.Keys
  {
    if items == [] then stocks
    else
      var x := items[|items| - 1];
      var m := Decremented(stocks, items[..|items| - 1]);
      m[x.stockId := Lowered(m[x.stockId], x.quantity)]
  }

  /** Some item names stock `s`. */
  predicate Names(items: seq<CartItem>, s: Id) {
    exists i :: 0 <= i < |items| && items[i].stockId == s
  }

  /** Of a stock no item names, nothing is ordered. */
  lemma {:induction false} OrderedUnnamed(items: seq<CartItem>, s: Id)
    requires !Names(items, s)
    ensures Ordered(items, s) == 0
  {
    if items != [] {
      var pre := items[..|items| - 1];
      assert forall i :: 0 <= i < |pre| ==> pre[i] == items[i];
      OrderedUnnamed(pre, s);
    }
  }

  /** After the loop every stock an item names has lost exactly the total
      quantity ordered of it, the difference wrapped once into an `int`;
      every other stock is untouched, and nothing but amounts changes. */
  lemma DecrementedExactly(stocks: map<Id, ProductStock>, items: seq<CartItem>)
    requires InStock(stocks, items)
    ensures forall i :: 0 <= i < |items| ==>
      Decremented(stocks, items)[items[i].stockId] ==
        Lowered(stocks[items[i].stockId], Ordered(items, items[i].stockId))
    ensures forall s :: s in stocks && (forall i :: 0 <= i < |items| ==> items[i].stockId != s) ==>
      Decremented(stocks, items)[s] == stocks[s]
  {
    forall i | 0 <= i < |items|
      ensures Decremented(stocks, items)[items[i].stockId] ==
        Lowered(stocks[items[i].stockId], Ordered(items, items[i].stockId))
    {
      assert Names(items, items[i].stockId);
      DecrementedAt(stocks, items, items[i].stockId);
    }
    forall s | s in stocks && (forall i :: 0 <= i < |items| ==> items[i].stockId != s)
      ensures Decremented(stocks, items)[s] == stocks[s]
    {
      DecrementedAt(stocks, items, s);
    }
  }

  /** `DecrementedExactly` for one stock, stated with `Names`, by induction
      on the items. */
  lemma {:induction false} DecrementedAt(stocks: map<Id, ProductStock>, items: seq<CartItem>, s: Id)
    requires InStock(stocks, items) && s in stocks
    ensures Names(items, s) ==>
      Decremented(stocks, items)[s] == Lowered(stocks[s], Ordered(items, s))
    ensures !Names(items, s) ==> Decremented(stocks, items)[s] == stocks[s]
  {
    if items != [] {
      var pre := items[..|items| - 1];
      var x := items[|items| - 1];
      DecrementedAt(stocks, pre, s);
      NamesLast(items, s);
      if s == x.stockId {
        if Names(pre, s) {
          Int32Add(stocks[s].amount - Ordered(pre, s), -x.quantity);
        } else {
          OrderedUnnamed(pre, s);
        }
      }
    }
  }

  /** A stock is named by some items when it is named by all but the last
      or by the last. */
  lemma NamesLast(items: seq<CartItem>, s: Id)
    requires items != []
    ensures Names(items, s) <==> Names(items[..|items| - 1], s) || items[|items| - 1].stockId == s
  {
    var pre := items[..|items| - 1];
    if Names(pre, s) {
      var i :| 0 <= i < |pre| && pre[i].stockId == s;
      assert items[i].stockId == s;
    }
    if Names(items, s) && items[|items| - 1].stockId != s {
      var i :| 0 <= i < |items| && items[i].stockId == s;
      assert pre[i].stockId == s;
    }
  }

  /** When the items name distinct stocks, the total ordered of an item's
      stock is that item's quantity, and of any other stock nothing. */
  lemma {:induction false} OrderedDistinct(items: seq<CartItem>, s: Id)
    requires DistinctStocks(items)
    ensures forall i :: 0 <= i < |items| && items[i].stockId == s ==> Ordered(items, s) == items[i].quantity
    ensures (forall i :: 0 <= i < |items| ==> items[i].stockId != s) ==> Ordered(items, s) == 0
  {
    if items != [] {
      var pre := items[..|items| - 1];
      assert forall i :: 0 <= i < |pre| ==> pre[i] == items[i];
      OrderedDistinct(pre, s);
    }
  }

  /** What the stock loop leaves of the stocks `before` it, given items
      that name distinct stocks and passed the validation: every item asked
      for no more than its stock held; its stock ends as it was but for the
      amount, which is the old amount minus the item's quantity wrapped into
      an `int`, and so that difference whenever it fits an `int`; every stock
      no item names is unchanged, and no stock is added or removed. */
  predicate TakenOnce(before: map<Id, ProductStock>, after: map<Id, ProductStock>, items: seq<CartItem>)
    requires InStock(before, items)
  {
    && after.Keys == before.Keys
    && (forall i :: 0 <= i < |items| ==> items[i].quantity <= before[items[i].stockId].amount)
    && (forall i :: 0 <= i < |items| ==>
          after[items[i].stockId] == Lowered(before[items[i].stockId], items[i].quantity))
    && (forall i :: 0 <= i < |items| && before[items[i].stockId].amount - items[i].quantity <= IntMax ==>
          after[items[i].stockId].amount == before[items[i].stockId].amount - items[i].quantity)
    && (forall s :: s in before && (forall i :: 0 <= i < |items| ==> items[i].stockId != s) ==>
          after[s] == before[s])
  }

  /** When no item is short and the items name distinct stocks (as
      `addToCart` keeps them), the loop takes each item's quantity from its
      stock once, as `TakenOnce` spells out: the difference is not negative,
      and the new amount is it wrapped into an `int`. */
  lemma CheckedStockNotNegative(stocks: map<Id, ProductStock>, items: seq<CartItem>)
    requires InStock(stocks, items) && DistinctStocks(items) && FirstShort(stocks, items).None?
    ensures TakenOnce(stocks, Decremented(stocks, items), items)
  {
    DecrementedExactly(stocks, items);
    forall i | 0 <= i < |items|
      ensures Ordered(items, items[i].stockId) == items[i].quantity
    {
      OrderedDistinct(items, items[i].stockId);
    }
  }

  /** Two items for one stock each pass the validation, yet together take
      the stock below zero: the distinct-stock premise above is needed. */
  lemma DuplicateStockGoesNegative()
    ensures var stocks := map[7 := ProductStock(7, 1, 2, 1)];
      var items := [CartItem(3, 5, 7, 1, 100), CartItem(4, 5, 7, 1, 100)];
      && InStock(stocks, items) && FirstShort(stocks, items).None?
      && Decremented(stocks, items)[7].amount == -1
  {
    var stocks := map[7 := ProductStock(7, 1, 2, 1)];
    var items := [CartItem(3, 5, 7, 1, 100), CartItem(4, 5, 7, 1, 100)];
    assert items[..1] == [items[0]] && items[..1][..0] == [];
  }

  /** An item of quantity `Integer.MIN_VALUE` passes the validation against
      a stock of 5, and the subtraction wraps that stock to 5 plus
      `Integer.MIN_VALUE`: the difference is not negative, the stored amount
      is. */
  lemma MinQuantityWrapsStock()
    ensures var stocks := map[7 := ProductStock(7, 1, 2, 5)];
      var items := [CartItem(3, 5, 7, IntMin, 100)];
      && InStock(stocks, items) && DistinctStocks(items) && FirstShort(stocks, items).None?
      && Decremented(stocks, items)[7].amount == 5 + IntMin < 0
  {
    var items := [CartItem(3, 5, 7, IntMin, 100)];
    assert items[..0] == [];
  }

  // ---------------------------------------------------------------------
  // The outcome of a checkout
  // ---------------------------------------------------------------------

  /** What `checkout` reads of a cart: the cart exists, and its items are
      stored under their ids and name stocks. */
  predicate CartReadable(t: Tables, customerId: Id) {
    customerId in t.carts && CartItemsKeyed(t.cartItems) && CartItemRefs(t.cartItems, t.stocks, t.cartOwners)
  }

  /** Every item of a readable cart names a stock. */
  lemma CartInStock(t: Tables, customerId: Id)
    requires CartReadable(t, customerId)
    ensures InStock(t.stocks, CustomerService.CartItems(t, customerId))
  {
    ItemsOfCartRows(t.cartItems, t.carts[customerId], t.nextId);
  }

  /** The tables after `orderRepository.save` of a new order: it is stored
      under the next id, carrying that id. */
  function OrderSaved(t: Tables, o: Order): Tables {
    t.(orders := t.orders[t.nextId := o.(id := t.nextId)], nextId := t.nextId + 1)
  }

  /** The tables after `orderItemRepository.saveAll` of new order items. */
  function OrderItemsSaved(t: Tables, ois: seq<OrderItem>): Tables {
    t.(orderItems := SaveAll(t.orderItems, ois, t.nextId), nextId := t.nextId + |ois|)
  }

  /** The tables after the stock update loop of `checkout`. */
  function StocksTaken(t: Tables, items: seq<CartItem>): Tables
    requires InStock(t.stocks, items)
  {
    t.(stocks := Decremented(t.stocks, items))
  }

  /** The tables after the order's payment status and status are set to
      confirmed and it is saved. */
  function OrderConfirmed(t: Tables, orderId: Id): Tables
    requires orderId in t.orders
  {
    t.(orders := t.orders[orderId := t.orders[orderId].(paymentStatus := Some("CONFIRMED"), status := Confirmed)])
  }

  /** The tables after a successful `checkout`: its writes, in the order it
      issues them. The order made from the cart's items and the request is
      saved under the next id, one order item per cart item under the ids
      after it, every item's stock loses the item's quantity, the cart's
      items are deleted and the order is confirmed. */
  function CheckedOut(t: Tables, customerId: Id, req: OrderMapper.CheckoutRequest, now: int): Tables
    requires CartReadable(t, customerId)
  {
    var items := CustomerService.CartItems(t, customerId);
    CartInStock(t, customerId);
    OrderConfirmed(
      CustomerService.CartItemsDeleted(
        StocksTaken(
          OrderItemsSaved(OrderSaved(t, OrderMapper.FromCartItemsAndRequest(customerId, items, req, now)),
                          OrderItemMapper.FromCartItems(items, t.nextId)),
          items),
        t.carts[customerId]),
      t.nextId)
  }

  /** A checkout that passed validation takes from each stock of the cart
      exactly its item's quantity, since a cart holds one item per stock, in
      `int` arithmetic, and leaves every other stock as it was. */
  lemma CheckoutStocks(t: Tables, customerId: Id, req: OrderMapper.CheckoutRequest, now: int)
    requires CartReadable(t, customerId) && OneItemPerStock(t.cartItems)
    requires FirstShort(t.stocks, CustomerService.CartItems(t, customerId)).None?
    ensures var items := CustomerService.CartItems(t, customerId);
      InStock(t.stocks, items) && TakenOnce(t.stocks, CheckedOut(t, customerId, req, now).stocks, items)
  {
    var items := CustomerService.CartItems(t, customerId);
    CartInStock(t, customerId);
    CartItemsDistinctStocks(t.cartItems, t.carts[customerId], t.nextId);
    CheckedOutStocks(t, customerId, req, now);
    CheckedStockNotNegative(t.stocks, items);
  }

  /** Of the writes of a checkout only the stock loop touches the stocks. */
  lemma CheckedOutStocks(t: Tables, customerId: Id, req: OrderMapper.CheckoutRequest, now: int)
    requires CartReadable(t, customerId)
    ensures InStock(t.stocks, CustomerService.CartItems(t, customerId))
    ensures CheckedOut(t, customerId, req, now).stocks == Decremented(t.stocks, CustomerService.CartItems(t, customerId))
  {
    CartInStock(t, customerId);
  }

  /** The new order is stored under an id no order had, confirmed, with the
      request's fields and the cart's amount as its total; the other orders
      are kept as they were. */
  lemma CheckoutOrder(t: Tables, customerId: Id, req: OrderMapper.CheckoutRequest, now: int)
    requires CartReadable(t, customerId) && KeysBelow(t.orders, t.nextId)
    ensures var r := CheckedOut(t, customerId, req, now);
      var o := r.orders[t.nextId];
      && t.nextId !in t.orders && r.orders.Keys == t.orders.Keys + {t.nextId}
      && (forall k :: k in t.orders ==> r.orders[k] == t.orders[k])
      && o.id == t.nextId && o.customerId == customerId && o.orderDate == now
      && o.totalAmount == CustomerService.CartAmount(t, customerId)
      && o.status == Confirmed && o.paymentStatus == Some("CONFIRMED")
      && o.shippingAddress == req.shippingAddress && o.billingAddress == req.billingAddress
      && o.paymentMethod == req.paymentMethod && o.orderNotes == req.orderNotes
  {
    ScanSums(t.cartItems, t.carts[customerId], t.nextId);
  }

  /** The new order's items are one per cart item, in the cart's order, each
      with the cart item's stock, quantity and unit price, under the ids
      after the order's. */
  lemma CheckoutOrderItems(t: Tables, customerId: Id, req: OrderMapper.CheckoutRequest, now: int)
    requires CartReadable(t, customerId)
    requires KeysBelow(t.orders, t.nextId) && KeysBelow(t.orderItems, t.nextId)
    requires OrderItemRefs(t.orderItems, t.stocks, t.orders)
    ensures var items := CustomerService.CartItems(t, customerId);
      var r := CheckedOut(t, customerId, req, now);
      var placed := ItemsOfOrder(r.orderItems, t.nextId, r.nextId);
      && |placed| == |items|
      && (forall i :: 0 <= i < |items| ==>
            placed[i] == OrderItem(t.nextId + 1 + i, t.nextId, items[i].stockId, items[i].quantity,
                                   items[i].priceAtTimeOfAdd))
  {
    NoItemsOfNextOrder(t);
    CheckedOutItemRows(t, customerId, req, now);
    SavedCartItems(t.orderItems, CustomerService.CartItems(t, customerId), t.nextId);
  }

  /** No stored order item belongs to the order about to be saved, and none
      has an id above it. */
  lemma NoItemsOfNextOrder(t: Tables)
    requires KeysBelow(t.orders, t.nextId) && KeysBelow(t.orderItems, t.nextId)
    requires OrderItemRefs(t.orderItems, t.stocks, t.orders)
    ensures forall k :: k in t.orderItems ==> k <= t.nextId && t.orderItems[k].orderId != t.nextId
  {
    forall k | k in t.orderItems ensures k <= t.nextId && t.orderItems[k].orderId != t.nextId {
      assert t.orderItems[k].orderId in t.orders;
    }
  }

  /** The order items stored before the checkout are kept. */
  lemma CheckoutKeepsOrderItems(t: Tables, customerId: Id, req: OrderMapper.CheckoutRequest, now: int)
    requires CartReadable(t, customerId) && KeysBelow(t.orderItems, t.nextId)
    ensures var r := CheckedOut(t, customerId, req, now);
      forall k :: k in t.orderItems ==> k in r.orderItems && r.orderItems[k] == t.orderItems[k]
  {
    CheckedOutItemRows(t, customerId, req, now);
    KeptOnSave(t.orderItems, OrderItemMapper.FromCartItems(CustomerService.CartItems(t, customerId), t.nextId), t.nextId + 1);
  }

  /** `checkout` stores the copies of the cart's items with `saveAll` under
      the ids after the order's, and hands out one id per item. */
  lemma CheckedOutItemRows(t: Tables, customerId: Id, req: OrderMapper.CheckoutRequest, now: int)
    requires CartReadable(t, customerId)
    ensures var items := CustomerService.CartItems(t, customerId);
      var r := CheckedOut(t, customerId, req, now);
      && r.orderItems == SaveAll(t.orderItems, OrderItemMapper.FromCartItems(items, t.nextId), t.nextId + 1)
      && r.nextId == t.nextId + 1 + |items|
  {
  }

  /** Saving the copies of `items` for order `orderId` under the ids after
      it, in a table that holds no item of that order and no id above it,
      gives the order exactly those items, in order. */
  lemma SavedCartItems(m: map<Id, OrderItem>, items: seq<CartItem>, orderId: Id)
    requires forall k :: k in m ==> k <= orderId && m[k].orderId != orderId
    ensures var r := SaveAll(m, OrderItemMapper.FromCartItems(items, orderId), orderId + 1);
      var placed := ItemsOfOrder(r, orderId, orderId + 1 + |items|);
      && |placed| == |items|
      && (forall i :: 0 <= i < |items| ==>
            placed[i] == OrderItem(orderId + 1 + i, orderId, items[i].stockId, items[i].quantity,
                                   items[i].priceAtTimeOfAdd))
  {
    SavedInOrder(m, items, orderId);
    NumberedCopies(items, orderId);
  }

  /** The saved copies are the order's items, numbered from `orderId + 1`. */
  lemma SavedInOrder(m: map<Id, OrderItem>, items: seq<CartItem>, orderId: Id)
    requires forall k :: k in m ==> k <= orderId && m[k].orderId != orderId
    ensures var ois := OrderItemMapper.FromCartItems(items, orderId);
      ItemsOfOrder(SaveAll(m, ois, orderId + 1), orderId, orderId + 1 + |items|) == Numbered(ois, orderId + 1)
  {
    var ois := OrderItemMapper.FromCartItems(items, orderId);
    assert forall i :: 0 <= i < |ois| ==> ois[i].orderId == orderId;
    SavedItemsOfOrder(m, ois, orderId, orderId + 1);
  }

  /** The numbered copies of the cart items, one per item, in order. */
  lemma NumberedCopies(items: seq<CartItem>, orderId: Id)
    ensures var placed := Numbered(OrderItemMapper.FromCartItems(items, orderId), orderId + 1);
      && |placed| == |items|
      && forall i :: 0 <= i < |items| ==>
           placed[i] == OrderItem(orderId + 1 + i, orderId, items[i].stockId, items[i].quantity,
                                  items[i].priceAtTimeOfAdd)
  {
  }

  /** Saving new rows under ids above every stored one keeps the stored rows. */
  lemma KeptOnSave(m: map<Id, OrderItem>, ois: seq<OrderItem>, start: Id)
    requires forall k :: k in m ==> k < start
    ensures forall k :: k in m ==> k in SaveAll(m, ois, start) && SaveAll(m, ois, start)[k] == m[k]
  {
    SaveAllAt(m, ois, start);
  }

  /** The customer keeps the cart, and the cart is left without items. */
  lemma CheckoutCart(t: Tables, customerId: Id, req: OrderMapper.CheckoutRequest, now: int)
    requires CartReadable(t, customerId)
    ensures var r := CheckedOut(t, customerId, req, now);
      && r.carts == t.carts && r.cartOwners == t.cartOwners
      && CustomerService.CartItems(r, customerId) == []
      && CustomerService.CartAmount(r, customerId) == 0 && CustomerService.CartQuantity(r, customerId) == 0
  {
    var r := CheckedOut(t, customerId, req, now);
    ItemsOfEmptyCart(r.cartItems, t.carts[customerId], r.nextId);
    SumsOfEmptyCart(r.cartItems, t.carts[customerId], r.nextId);
  }

  // ---------------------------------------------------------------------
  // The invariant under the order writes
  // ---------------------------------------------------------------------

  /** Saving an order of a known customer under the next id keeps the invariant. */
  lemma SaveOrderKeepsValid(t: Tables, o: Order)
    requires Valid(t) && o.customerId in t.customers
    ensures Valid(OrderSaved(t, o))
  {
  }

  /** Saving order items that name known stocks and orders under the next
      ids keeps the invariant. */
  lemma SaveItemsKeepsValid(t: Tables, ois: seq<OrderItem>)
    requires Valid(t)
    requires forall i :: 0 <= i < |ois| ==> ois[i].stockId in t.stocks && ois[i].orderId in t.orders
    ensures Valid(OrderItemsSaved(t, ois))
  {
    var r := SaveAll(t.orderItems, ois, t.nextId);
    SaveAllAt(t.orderItems, ois, t.nextId);
    forall k | k in r
      ensures r[k].id == k && r[k].stockId in t.stocks && r[k].orderId in t.orders
    {
      if k !in t.orderItems {
        var i := k - t.nextId;
        assert r[t.nextId + i] == ois[i].(id := t.nextId + i);
      }
    }
  }

  /** Taking quantities off stocks keeps the invariant: only amounts change. */
  lemma DecrementedKeepsValid(t: Tables, items: seq<CartItem>)
    requires Valid(t) && InStock(t.stocks, items)
    ensures Valid(StocksTaken(t, items))
  {
    DecrementedExactly(t.stocks, items);
  }

  /** Rewriting an order's columns other than its id and customer keeps the invariant. */
  lemma OrderUpdateKeepsValid(t: Tables, k: Id, o: Order)
    requires Valid(t) && k in t.orders && o.id == k && o.customerId == t.orders[k].customerId
    ensures Valid(t.(orders := t.orders[k := o]))
  {
  }

  /** A checkout keeps the invariant. */
  lemma CheckoutKeepsValid(t: Tables, customerId: Id, req: OrderMapper.CheckoutRequest, now: int)
    requires Valid(t) && customerId in t.carts
    ensures Valid(CheckedOut(t, customerId, req, now))
  {
    var items := CustomerService.CartItems(t, customerId);
    CartInStock(t, customerId);
    var orderId := t.nextId;
    var o := OrderMapper.FromCartItemsAndRequest(customerId, items, req, now);
    SaveOrderKeepsValid(t, o);
    var t1 := OrderSaved(t, o);
    var ois := OrderItemMapper.FromCartItems(items, orderId);
    SaveItemsKeepsValid(t1, ois);
    var t2 := OrderItemsSaved(t1, ois);
    DecrementedKeepsValid(t2, items);
    var t3 := StocksTaken(t2, items);
    CustomerService.WithoutCartKeepsValid(t3, t.carts[customerId]);
    var t4 := CustomerService.CartItemsDeleted(t3, t.carts[customerId]);
    OrderUpdateKeepsValid(t4, orderId, t4.orders[orderId].(paymentStatus := Some("CONFIRMED"), status := Confirmed));
  }

  // ---------------------------------------------------------------------
  // Checkout
  // ---------------------------------------------------------------------

  /** The validation loop of `checkout`: the index of the first item whose
      stock holds less than its quantity, if any. */
  method ValidateStock(db: Store, items: seq<CartItem>) returns (short: Option<nat>)
    requires InStock(db.stocks, items)
    ensures short == FirstShort(db.stocks, items)
  {
    var i := 0;
    while i < |items|
      invariant 0 <= i <= |items|
      invariant forall j :: 0 <= j < i ==> !Short(db.stocks, items[j])
    {
      var stock := db.stocks[items[i].stockId];
      if stock.amount < items[i].quantity {
        return Some(i);
      }
      i := i + 1;
    }
    return None;
  }

  /** `orderRepository.save` of a new order. */
  method SaveOrder(db: Store, o: Order) returns (orderId: Id)
    modifies db
    ensures orderId == old(db.nextId)
    ensures db.State() == OrderSaved(old(db.State()), o)
  {
    orderId := db.nextId;
    db.orders := db.orders[orderId := o.(id := orderId)];
    db.nextId := db.nextId + 1;
  }

  /** `orderItemRepository.saveAll` of new order items. */
  method SaveOrderItems(db: Store, ois: seq<OrderItem>)
    modifies db
    ensures db.State() == OrderItemsSaved(old(db.State()), ois)
  {
    db.orderItems := SaveAll(db.orderItems, ois, db.nextId);
    db.nextId := db.nextId + |ois|;
  }

  /** The stock update loop of `checkout`: each item's stock, in turn, is set
      to its amount minus the item's quantity, an `int` subtraction, and
      saved. */
  method DecrementStocks(db: Store, items: seq<CartItem>)
    requires InStock(db.stocks, items)
    modifies db
    ensures db.State() == StocksTaken(old(db.State()), items)
  {
    var i := 0;
    while i < |items|
      invariant 0 <= i <= |items|
      invariant InStock(old(db.stocks), items[..i])
      invariant db.State() == StocksTaken(old(db.State()), items[..i])
    {
      var x := items[i];
      assert items[..i + 1][..i] == items[..i];
      db.stocks := db.stocks[x.stockId := Lowered(db.stocks[x.stockId], x.quantity)];
      i := i + 1;
    }
    assert items[..|items|] == items;
  }

  /** `setPaymentStatus("CONFIRMED")`, `setStatus(CONFIRMED)` and
      `orderRepository.save`. */
  method ConfirmOrder(db: Store, orderId: Id)
    requires orderId in db.orders
    modifies db
    ensures db.State() == OrderConfirmed(old(db.State()), orderId)
  {
    db.orders := db.orders[orderId := db.orders[orderId].(paymentStatus := Some("CONFIRMED"), status := Confirmed)];
  }

  /** The writes of a `checkout` that passed validation, in the order
      `checkout` issues them. */
  method PlaceOrder(db: Store, customerId: Id, req: OrderMapper.CheckoutRequest, now: int)
    returns (orderId: Id)
    requires CartReadable(db.State(), customerId)
    modifies db
    ensures orderId == old(db.nextId)
    ensures db.State() == CheckedOut(old(db.State()), customerId, req, now)
  {
    var cartId := db.carts[customerId];
    var items := CustomerService.CartItems(db.State(), customerId);
    CartInStock(db.State(), customerId);
    orderId := SaveOrder(db, OrderMapper.FromCartItemsAndRequest(customerId, items, req, now));
    SaveOrderItems(db, OrderItemMapper.FromCartItems(items, orderId));
    DecrementStocks(db, items);
    CustomerService.DeleteCartItems(db, cartId);
    ConfirmOrder(db, orderId);
  }

  /** The name of the product of the first item whose stock is short, as the
      failure message of `checkout` quotes it. */
  function ShortProductName(t: Tables, customerId: Id): NString
    requires CartReadable(t, customerId) && StocksOfProducts(t.stocks, t.products)
    requires FirstShort(t.stocks, CustomerService.CartItems(t, customerId)).Some?
  {
    var items := CustomerService.CartItems(t, customerId);
    CartInStock(t, customerId);
    t.products[t.stocks[items[FirstShort(t.stocks, items).value].stockId].productId].name
  }

  /** `checkout`. Fails, changing nothing, for an unknown customer, a
      customer without a cart, an empty cart, or a cart item whose stock
      holds less than its quantity (naming the first such item's product);
      otherwise the tables become `CheckedOut` of the old ones and the dto of
      the new order is returned. */
  method Checkout(db: Store, customerId: Id, req: OrderMapper.CheckoutRequest, now: int)
    returns (r: Result<OrderMapper.OrderDto, Error>)
    requires db.Valid()
    modifies db
    ensures db.Valid()
    ensures r.Err? ==> unchanged(db)
    ensures r == Err(CustomerNotFound) <==> customerId !in old(db.customers)
    ensures r == Err(CartNotFound) <==> customerId in old(db.customers) && customerId !in old(db.carts)
    ensures r == Err(CartEmpty) <==>
      customerId in old(db.customers) && customerId in old(db.carts) &&
      CustomerService.CartItems(old(db.State()), customerId) == []
    ensures r.Err? && r.error.InsufficientStockForProduct? <==>
      customerId in old(db.customers) && customerId in old(db.carts) &&
      CustomerService.CartItems(old(db.State()), customerId) != [] &&
      FirstShort(old(db.stocks), CustomerService.CartItems(old(db.State()), customerId)).Some?
    ensures r.Err? && r.error.InsufficientStockForProduct? ==>
      r.error.productName == ShortProductName(old(db.State()), customerId)
    ensures r.Err? ==>
      r == Err(CustomerNotFound) || r == Err(CartNotFound) || r == Err(CartEmpty) || r.error.InsufficientStockForProduct?
    ensures r.Ok? ==> customerId in old(db.carts) && db.State() == CheckedOut(old(db.State()), customerId, req, now)
    ensures r.Ok? ==> old(db.nextId) in db.orders && r.value == OrderMapper.Render(db.State(), db.orders[old(db.nextId)])
  {
    if customerId !in db.customers {
      return Err(CustomerNotFound);
    }
    if customerId !in db.carts {
      return Err(CartNotFound);
    }
    var items := ItemsOfCart(db.cartItems, db.carts[customerId], db.nextId);
    if items == [] {
      return Err(CartEmpty);
    }
    CartInStock(db.State(), customerId);
    var short := ValidateStock(db, items);
    if short.Some? {
      var stock := db.stocks[items[short.value].stockId];
      return Err(InsufficientStockForProduct(db.products[stock.productId].name));
    }
    CheckoutKeepsValid(db.State(), customerId, req, now);
    var orderId := PlaceOrder(db, customerId, req, now);
    ValidRenderable(db.State(), orderId);
    r := Ok(OrderMapper.Render(db.State(), db.orders[orderId]));
  }

  /** In a valid store every order can be rendered. */
  lemma ValidRenderable(t: Tables, orderId: Id)
    requires Valid(t) && orderId in t.orders
    ensures OrderMapper.Renderable(t, t.orders[orderId])
  {
    OrderItemMapper.ValidResolves(t);
  }

  // ---------------------------------------------------------------------
  // Status changes and lookups
  // ---------------------------------------------------------------------

  /** The tables with one order's status replaced; no other column and no
      other row changes. */
  function StatusSet(t: Tables, orderId: Id, s: OrderStatus): Tables
    requires orderId in t.orders
  {
    t.(orders := t.orders[orderId := t.orders[orderId].(status := s)])
  }

  /** Replacing a status keeps the integrity constraints. */
  lemma StatusSetKeepsValid(t: Tables, orderId: Id, s: OrderStatus)
    requires Valid(t) && orderId in t.orders
    ensures Valid(StatusSet(t, orderId, s))
  {
    OrderUpdateKeepsValid(t, orderId, t.orders[orderId].(status := s));
  }

  /** A status change shows in that order's dto as the new status and
      nothing else, and in no other order's dto. */
  lemma StatusSetDto(t: Tables, orderId: Id, s: OrderStatus)
    requires Valid(t) && orderId in t.orders
    ensures OrderMapper.Renderable(t, t.orders[orderId])
    ensures OrderMapper.Render(StatusSet(t, orderId, s), StatusSet(t, orderId, s).orders[orderId])
            == OrderMapper.Render(t, t.orders[orderId]).(status := s)
    ensures forall k :: k in t.orders && k != orderId ==> StatusSet(t, orderId, s).orders[k] == t.orders[k]
    ensures forall o :: OrderMapper.Renderable(t, o) ==>
      OrderMapper.Render(StatusSet(t, orderId, s), o) == OrderMapper.Render(t, o)
  {
    ValidRenderable(t, orderId);
  }

  /** `updateOrderStatus`: fails with "Order not found", changing nothing,
      for an unknown order; otherwise sets that order's status to any new
      status whatever the old one was, and returns the order's dto. */
  method UpdateOrderStatus(db: Store, orderId: Id, s: OrderStatus) returns (r: Result<OrderMapper.OrderDto, Error>)
    requires db.Valid()
    modifies db
    ensures db.Valid()
    ensures r.Err? <==> orderId !in old(db.orders)
    ensures r.Err? ==> unchanged(db) && r.error == OrderNotFound
    ensures r.Ok? ==> db.State() == StatusSet(old(db.State()), orderId, s)
    ensures r.Ok? ==> orderId in db.orders && r.value == OrderMapper.Render(db.State(), db.orders[orderId])
  {
    if orderId !in db.orders {
      return Err(OrderNotFound);
    }
    StatusSetKeepsValid(db.State(), orderId, s);
    db.orders := db.orders[orderId := db.orders[orderId].(status := s)];
    ValidRenderable(db.State(), orderId);
    r := Ok(OrderMapper.Render(db.State(), db.orders[orderId]));
  }

  /** `getOrderById`: null for an unknown order, otherwise the dto of the
      order stored under that id. */
  function GetOrderById(t: Tables, orderId: Id): (r: Option<OrderMapper.OrderDto>)
    requires Valid(t)
    ensures r.None? <==> orderId !in t.orders
    ensures r.Some? ==> OrderMapper.Renderable(t, t.orders[orderId]) && r.value == OrderMapper.Render(t, t.orders[orderId])
    ensures r.Some? ==> r.value.orderId == orderId && r.value.status == t.orders[orderId].status
  {
    if orderId in t.orders then
      ValidRenderable(t, orderId);
      OrderMapper.ToDto(t, Some(t.orders[orderId]))
    else
      None
  }

  /** No order follows one dated earlier. */
  predicate NewestFirst(os: seq<Order>) {
    forall i, j :: 0 <= i < j < |os| ==> os[i].orderDate >= os[j].orderDate
  }

  /** An order dated no earlier than the first of newest-first orders can
      go in front of them. */
  lemma PrependNewest(x: Order, os: seq<Order>)
    requires NewestFirst(os)
    requires os != [] ==> x.orderDate >= os[0].orderDate
    ensures NewestFirst([x] + os)
  {
  }

  /** `o` placed into newest-first orders just before the first one dated no
      later than it. */
  function InsertByDate(o: Order, os: seq<Order>): (r: seq<Order>)
    requires NewestFirst(os)
    ensures r != [] && (r[0] == o || (os != [] && r[0] == os[0]))
    ensures NewestFirst(r)
    ensures multiset(r) == multiset(os) + multiset{o}
  {
    if os == [] || os[0].orderDate <= o.orderDate then
      PrependNewest(o, os);
      [o] + os
    else
      var rest := InsertByDate(o, os[1..]);
      PrependNewest(os[0], rest);
      assert os == [os[0]] + os[1..];
      [os[0]] + rest
  }

  /** The orders sorted newest first. */
  function SortByDate(os: seq<Order>): (r: seq<Order>)
    ensures NewestFirst(r)
    ensures multiset(r) == multiset(os)
  {
    if os == [] then []
    else
      assert os == [os[0]] + os[1..];
      InsertByDate(os[0], SortByDate(os[1..]))
  }

  /** The ids of the customer's orders, ascending. */
  function OrderIdsOf(t: Tables, customerId: Id): (r: seq<Id>)
    ensures forall i :: 0 <= i < |r| ==> r[i] in t.orders && t.orders[r[i]].customerId == customerId
    ensures forall i, j :: 0 <= i < j < |r| ==> r[i] < r[j]
  {
    var r := KeysWhere(t.orders, (o: Order) => o.customerId == customerId, t.nextId);
    assert forall i :: 0 <= i < |r| ==> r[i] in r;
    r
  }

  /** `orderRepository.findByCustomerPersonIdOrderByOrderDateDesc`: the
      customer's orders, newest first. */
  function CustomerOrders(t: Tables, customerId: Id): (r: seq<Order>)
    ensures NewestFirst(r)
    ensures multiset(r) == multiset(RowsAt(t.orders, OrderIdsOf(t, customerId)))
  {
    SortByDate(RowsAt(t.orders, OrderIdsOf(t, customerId)))
  }

  /** Every order the query returns is the customer's, stored under its id. */
  lemma CustomerOrdersRows(t: Tables, customerId: Id)
    requires OrdersKeyed(t.orders)
    ensures forall i :: 0 <= i < |CustomerOrders(t, customerId)| ==>
      var o := CustomerOrders(t, customerId)[i];
      o.customerId == customerId && o.id in t.orders && t.orders[o.id] == o
  {
    var ids := OrderIdsOf(t, customerId);
    var rows := RowsAt(t.orders, ids);
    var r := CustomerOrders(t, customerId);
    forall i | 0 <= i < |r|
      ensures r[i].customerId == customerId && r[i].id in t.orders && t.orders[r[i].id] == r[i]
    {
      assert r[i] in multiset(rows);
      var j :| 0 <= j < |rows| && rows[j] == r[i];
    }
  }

  /** When every order id is below `nextId`, the query returns every order of
      the customer, and as many orders as the customer has ids. */
  lemma CustomerOrdersComplete(t: Tables, customerId: Id)
    requires KeysBelow(t.orders, t.nextId)
    ensures forall k :: k in t.orders && t.orders[k].customerId == customerId ==>
      t.orders[k] in CustomerOrders(t, customerId)
    ensures forall k :: k in OrderIdsOf(t, customerId) <==> k in t.orders && t.orders[k].customerId == customerId
    ensures |CustomerOrders(t, customerId)| == |OrderIdsOf(t, customerId)|
  {
    var ids := OrderIdsOf(t, customerId);
    var rows := RowsAt(t.orders, ids);
    var r := CustomerOrders(t, customerId);
    forall k | k in t.orders && t.orders[k].customerId == customerId
      ensures t.orders[k] in r
    {
      assert k in ids;
      var i :| 0 <= i < |ids| && ids[i] == k;
      assert rows[i] in multiset(r);
    }
    assert |r| == |multiset(r)| == |multiset(rows)| == |rows|;
  }

  /** In a valid store every order of the table can be rendered. */
  lemma ValidRowsRenderable(t: Tables, os: seq<Order>)
    requires Valid(t)
    requires forall i :: 0 <= i < |os| ==> os[i].id in t.orders && t.orders[os[i].id] == os[i]
    ensures forall i :: 0 <= i < |os| ==> OrderMapper.Renderable(t, os[i])
  {
    OrderItemMapper.ValidResolves(t);
  }

  /** `getCustomerOrders`: the dtos of the customer's orders, newest first;
      empty for a customer without orders or an unknown customer. */
  function GetCustomerOrders(t: Tables, customerId: Id): (r: seq<OrderMapper.OrderDto>)
    requires Valid(t)
    ensures |r| == |CustomerOrders(t, customerId)|
    ensures forall i :: 0 <= i < |r| ==> r[i].customerId == customerId
    ensures forall i, j :: 0 <= i < j < |r| ==> r[i].orderDate >= r[j].orderDate
    ensures forall i :: 0 <= i < |r| ==>
      OrderMapper.Renderable(t, CustomerOrders(t, customerId)[i]) &&
      r[i] == OrderMapper.Render(t, CustomerOrders(t, customerId)[i])
  {
    var os := CustomerOrders(t, customerId);
    CustomerOrdersRows(t, customerId);
    ValidRowsRenderable(t, os);
    OrderMapper.ToDtoList(t, os)
  }

  /** The ids of every order, ascending. */
  function AllOrderIds(t: Tables): (r: seq<Id>)
    ensures forall i :: 0 <= i < |r| ==> r[i] in t.orders
    ensures forall i, j :: 0 <= i < j < |r| ==> r[i] < r[j]
  {
    var r := KeysWhere(t.orders, (o: Order) => true, t.nextId);
    assert forall i :: 0 <= i < |r| ==> r[i] in r;
    r
  }

  /** When every order id is below `nextId`, the scan lists every order. */
  lemma AllOrderIdsExactly(t: Tables)
    requires KeysBelow(t.orders, t.nextId)
    ensures forall k :: k in AllOrderIds(t) <==> k in t.orders
  {
  }

  /** `getAllOrders` over `orderRepository.findAll`: the dtos of every order,
      in ascending id order. */
  function GetAllOrders(t: Tables): (r: seq<OrderMapper.OrderDto>)
    requires Valid(t)
    ensures |r| == |AllOrderIds(t)|
    ensures forall i :: 0 <= i < |r| ==>
      OrderMapper.Renderable(t, t.orders[AllOrderIds(t)[i]]) &&
      r[i] == OrderMapper.Render(t, t.orders[AllOrderIds(t)[i]])
  {
    var os := RowsAt(t.orders, AllOrderIds(t));
    ValidRowsRenderable(t, os);
    OrderMapper.ToDtoList(t, os)
  }
}

/** The relational side of the store: the rows of every table the services
    read and write, the tables as maps keyed by id, the integrity constraints
    the services keep, the repository queries they issue, and the errors they
    raise. References between rows are foreign keys (ids). */
module Schema {
  import opened Base
  import opened Persons

  /** The id an entity has before the store saves it (Java's unset id). */
  const Unsaved: Id := 0

  /** `OrderStatus`. */
  datatype OrderStatus = Pending | Confirmed | Processing | Shipped | Delivered | Cancelled | Refunded

  /** A `Product` row. Prices are integers (cents). */
  datatype Product = Product(id: Id, name: NString, description: NString, price: int)

  /** A `ProductStock` row: which seller offers which product, and how many. */
  datatype ProductStock = ProductStock(id: Id, productId: Id, sellerId: Id, amount: int)

  /** A `CartItem` row; the unit price is the one recorded when it was first added. */
  datatype CartItem = CartItem(id: Id, cartId: Id, stockId: Id, quantity: int, priceAtTimeOfAdd: int)

  /** An `Order` row (table `customer_order`); its items are the `OrderItem`
      rows that name it. `orderDate` is a timestamp. */
  datatype Order = Order(id: Id, customerId: Id, orderDate: int, totalAmount: int,
                         shippingAddress: NString, billingAddress: NString,
                         paymentMethod: NString, paymentStatus: NString,
                         status: OrderStatus, orderNotes: NString)

  /** An `OrderItem` row; the unit price is copied from the cart item. */
  datatype OrderItem = OrderItem(id: Id, orderId: Id, stockId: Id, quantity: int, priceAtTimeOfOrder: int)

  /** A snapshot of every table the services use. `carts` is the
      `Customer.cart` link (customer id to cart id) and `cartOwners` the
      `ShoppingCart.customer` link (cart id to customer id); `nextId` is the
      next identifier the store hands out (one sequence for all tables). */
  datatype Tables = Tables(customers: map<Id, Profile>,
                           sellers: map<Id, Profile>,
                           carts: map<Id, Id>,
                           cartOwners: map<Id, Id>,
                           products: map<Id, Product>,
                           stocks: map<Id, ProductStock>,
                           cartItems: map<Id, CartItem>,
                           orders: map<Id, Order>,
                           orderItems: map<Id, OrderItem>,
                           nextId: Id)

  /** The failures the services raise, one per `RuntimeException` message,
      plus the store's refusal to delete a row that is still referenced. */
  datatype Error =
    | CustomerNotFound
    | ProductNotFound
    | InsufficientStock
    | InsufficientStockForQuantity
    | CartItemNotFound
    | NotCustomersItem
    | CartNotFound
    | CartEmpty
    | InsufficientStockForProduct(productName: NString)
    | OrderNotFound
    | EmailExists
    | SellerNotFound
    | StockNotFound
    | NotSellersProduct
    | StockReferenced

  /** The exception message of each failure. */
  function Message(e: Error): string {
    match e
    case CustomerNotFound => "Customer not found"
    case ProductNotFound => "Product not found"
    case InsufficientStock => "Insufficient stock"
    case InsufficientStockForQuantity => "Insufficient stock for requested quantity"
    case CartItemNotFound => "Cart item not found"
    case NotCustomersItem => "Cart item does not belong to this customer"
    case CartNotFound => "Shopping cart not found"
    case CartEmpty => "Shopping cart is empty"
    case InsufficientStockForProduct(name) => "Insufficient stock for product: " + Show(name)
    case OrderNotFound => "Order not found"
    case EmailExists => "Email already exists"
    case SellerNotFound => "Seller not found"
    case StockNotFound => "Product stock not found"
    case NotSellersProduct => "Product does not belong to this seller"
    case StockReferenced => "Product stock is still referenced"
  }

  // ---------------------------------------------------------------------
  // Integrity constraints
  // ---------------------------------------------------------------------

  // Each constraint is stated over the tables it mentions, so that a write
  // to one table leaves the constraints on the others syntactically intact.

  /** Every key of a table is below `n`. */
  predicate KeysBelow<V>(m: map<Id, V>, n: Id) {
    forall k :: k in m ==> k < n
  }

  /** Every id in use is below `nextId`, so `nextId` is always fresh. */
  predicate IdsBelowNext(t: Tables) {
    && KeysBelow(t.customers, t.nextId)
    && KeysBelow(t.sellers, t.nextId)
    && KeysBelow(t.cartOwners, t.nextId)
    && KeysBelow(t.products, t.nextId)
    && KeysBelow(t.stocks, t.nextId)
    && KeysBelow(t.cartItems, t.nextId)
    && KeysBelow(t.orders, t.nextId)
    && KeysBelow(t.orderItems, t.nextId)
  }

  /** Every product is stored under its own id. */
  predicate ProductsKeyed(m: map<Id, Product>) {
    forall k :: k in m ==> m[k].id == k
  }

  /** Every stock is stored under its own id. */
  predicate StocksKeyed(m: map<Id, ProductStock>) {
    forall k :: k in m ==> m[k].id == k
  }

  /** Every cart item is stored under its own id. */
  predicate CartItemsKeyed(m: map<Id, CartItem>) {
    forall k :: k in m ==> m[k].id == k
  }

  /** Every order is stored under its own id. */
  predicate OrdersKeyed(m: map<Id, Order>) {
    forall k :: k in m ==> m[k].id == k
  }

  /** Every order item is stored under its own id. */
  predicate OrderItemsKeyed(m: map<Id, OrderItem>) {
    forall k :: k in m ==> m[k].id == k
  }

  /** A row stored under a key carries that key as its id. */
  predicate KeysMatch(t: Tables) {
    && ProductsKeyed(t.products)
    && StocksKeyed(t.stocks)
    && CartItemsKeyed(t.cartItems)
    && OrdersKeyed(t.orders)
    && OrderItemsKeyed(t.orderItems)
  }

  /** The two directions of the one-to-one customer/cart link agree: a
      customer's cart is owned by that customer, and an owned cart is its
      owner's cart. */
  predicate CartsLinked(carts: map<Id, Id>, cartOwners: map<Id, Id>) {
    && (forall c :: c in carts ==> carts[c] in cartOwners && cartOwners[carts[c]] == c)
    && (forall a :: a in cartOwners ==> cartOwners[a] in carts && carts[cartOwners[a]] == a)
  }

  /** A cart belongs to a customer. */
  predicate CartsOfCustomers(carts: map<Id, Id>, customers: map<Id, Profile>) {
    forall c :: c in carts ==> c in customers
  }

  /** A stock names a product. */
  predicate StocksOfProducts(stocks: map<Id, ProductStock>, products: map<Id, Product>) {
    forall k :: k in stocks ==> stocks[k].productId in products
  }

  /** A cart item names a stock and a cart. */
  predicate CartItemRefs(m: map<Id, CartItem>, stocks: map<Id, ProductStock>, cartOwners: map<Id, Id>) {
    forall k :: k in m ==> m[k].stockId in stocks && m[k].cartId in cartOwners
  }

  /** An order item names a stock and an order. */
  predicate OrderItemRefs(m: map<Id, OrderItem>, stocks: map<Id, ProductStock>, orders: map<Id, Order>) {
    forall k :: k in m ==> m[k].stockId in stocks && m[k].orderId in orders
  }

  /** An order names a customer. */
  predicate OrdersOfCustomers(orders: map<Id, Order>, customers: map<Id, Profile>) {
    forall k :: k in orders ==> orders[k].customerId in customers
  }

  /** Foreign keys resolve: carts and customers are linked both ways, stocks
      name products, cart items name a stock and a cart, order items name a
      stock and an order, orders name a customer. */
  predicate References(t: Tables) {
    && CartsLinked(t.carts, t.cartOwners)
    && CartsOfCustomers(t.carts, t.customers)
    && StocksOfProducts(t.stocks, t.products)
    && CartItemRefs(t.cartItems, t.stocks, t.cartOwners)
    && OrderItemRefs(t.orderItems, t.stocks, t.orders)
    && OrdersOfCustomers(t.orders, t.customers)
  }

  /** At most one cart item per (cart, stock) pair. */
  predicate OneItemPerStock(m: map<Id, CartItem>) {
    forall a, b :: a in m && b in m && m[a].cartId == m[b].cartId && m[a].stockId == m[b].stockId ==> a == b
  }

  /** The invariant every service operation preserves. */
  predicate Valid(t: Tables) {
    && IdsBelowNext(t)
    && KeysMatch(t)
    && References(t)
    && OneItemPerStock(t.cartItems)
  }

  /** The empty store is valid. */
  lemma EmptyIsValid()
    ensures Valid(Tables(map[], map[], map[], map[], map[], map[], map[], map[], map[], 1))
  {
  }

  /** Under the link, no two customers share a cart. */
  lemma CartsInjective(t: Tables)
    requires CartsLinked(t.carts, t.cartOwners)
    ensures forall c1, c2 :: c1 in t.carts && c2 in t.carts && t.carts[c1] == t.carts[c2] ==> c1 == c2
  {
  }

  /** Item `k` exists and `customerId` is the customer of the cart it lies
      in (`cartItem.getCart().getCustomer().getPerson_id().equals(customerId)`). */
  predicate OwnsItem(t: Tables, customerId: Id, k: Id) {
    k in t.cartItems && t.cartItems[k].cartId in t.cartOwners && t.cartOwners[t.cartItems[k].cartId] == customerId
  }

  /** The owner of an item's cart is a customer whose cart that is. */
  lemma OwnerHasCart(t: Tables, customerId: Id, k: Id)
    requires References(t) && OwnsItem(t, customerId, k)
    ensures customerId in t.customers && customerId in t.carts && t.carts[customerId] == t.cartItems[k].cartId
  {
  }

  // ---------------------------------------------------------------------
  // Repository queries: table scans in ascending id order
  // ---------------------------------------------------------------------

  /** `cartItemRepository.findByCart`: the items of one cart with an id below
      `n`, in ascending id order. */
  function ItemsOfCart(m: map<Id, CartItem>, cartId: Id, n: nat): (r: seq<CartItem>)
    ensures |r| <= n
  {
    if n == 0 then []
    else ItemsOfCart(m, cartId, n - 1) + (if n - 1 in m && m[n - 1].cartId == cartId then [m[n - 1]] else [])
  }

  /** Every item a cart scan lists belongs to the cart, has an id below `n`
      and is the row stored under that id. */
  lemma {:induction false} ItemsOfCartRows(m: map<Id, CartItem>, cartId: Id, n: nat)
    requires CartItemsKeyed(m)
    ensures forall i :: 0 <= i < |ItemsOfCart(m, cartId, n)| ==>
      ItemsOfCart(m, cartId, n)[i].cartId == cartId && ItemsOfCart(m, cartId, n)[i].id < n &&
      ItemsOfCart(m, cartId, n)[i].id in m && m[ItemsOfCart(m, cartId, n)[i].id] == ItemsOfCart(m, cartId, n)[i]
  {
    if n > 0 {
      ItemsOfCartRows(m, cartId, n - 1);
      var r0 := ItemsOfCart(m, cartId, n - 1);
      var r := ItemsOfCart(m, cartId, n);
      forall i | 0 <= i < |r|
        ensures r[i].cartId == cartId && r[i].id < n && r[i].id in m && m[r[i].id] == r[i]
      {
        if i < |r0| {
          assert r[i] == r0[i];
        }
      }
    }
  }

  /** A cart scan misses none of the cart's items with an id below `n`. */
  lemma {:induction false} ItemsOfCartComplete(m: map<Id, CartItem>, cartId: Id, n: nat)
    ensures forall k :: k < n && k in m && m[k].cartId == cartId ==> m[k] in ItemsOfCart(m, cartId, n)
  {
    if n > 0 {
      ItemsOfCartComplete(m, cartId, n - 1);
      var r0 := ItemsOfCart(m, cartId, n - 1);
      var r := ItemsOfCart(m, cartId, n);
      assert forall x :: x in r0 ==> x in r;
    }
  }

  /** A cart scan lists its items in strictly ascending id order. */
  lemma {:induction false} ItemsOfCartAscending(m: map<Id, CartItem>, cartId: Id, n: nat)
    requires CartItemsKeyed(m)
    ensures forall i, j :: 0 <= i < j < |ItemsOfCart(m, cartId, n)| ==>
      ItemsOfCart(m, cartId, n)[i].id < ItemsOfCart(m, cartId, n)[j].id
  {
    if n > 0 {
      ItemsOfCartAscending(m, cartId, n - 1);
      ItemsOfCartRows(m, cartId, n - 1);
      var r0 := ItemsOfCart(m, cartId, n - 1);
      var r := ItemsOfCart(m, cartId, n);
      forall i, j | 0 <= i < j < |r| ensures r[i].id < r[j].id {
        assert r[i] == r0[i];
        if j < |r0| {
          assert r[j] == r0[j];
        } else {
          assert r0[i].id < n - 1;
        }
      }
    }
  }

  /** Two tables that agree below `n` list the same items of every cart. */
  lemma {:induction false} ItemsOfCartAgree(m1: map<Id, CartItem>, m2: map<Id, CartItem>, cartId: Id, n: nat)
    requires forall k :: k < n ==> (k in m1 <==> k in m2) && (k in m1 ==> m1[k] == m2[k])
    ensures ItemsOfCart(m1, cartId, n) == ItemsOfCart(m2, cartId, n)
  {
    if n > 0 {
      ItemsOfCartAgree(m1, m2, cartId, n - 1);
    }
  }

  /** A cart that holds no item has an empty scan. */
  lemma {:induction false} ItemsOfEmptyCart(m: map<Id, CartItem>, cartId: Id, n: nat)
    requires forall k :: k in m ==> m[k].cartId != cartId
    ensures ItemsOfCart(m, cartId, n) == []
  {
    if n > 0 {
      ItemsOfEmptyCart(m, cartId, n - 1);
    }
  }

  /** Deleting the items of one cart does not change the scan of another. */
  lemma {:induction false} WithoutCartKeepsOthers(m: map<Id, CartItem>, cartId: Id, other: Id, n: nat)
    requires other != cartId
    ensures ItemsOfCart(WithoutCart(m, cartId), other, n) == ItemsOfCart(m, other, n)
  {
    if n > 0 {
      WithoutCartKeepsOthers(m, cartId, other, n - 1);
    }
  }

  /** No two items name the same stock. */
  predicate DistinctStocks(items: seq<CartItem>) {
    forall i, j :: 0 <= i < j < |items| ==> items[i].stockId != items[j].stockId
  }

  /** Under `OneItemPerStock`, the items of one cart name distinct stocks. */
  lemma CartItemsDistinctStocks(m: map<Id, CartItem>, cartId: Id, n: nat)
    requires CartItemsKeyed(m) && OneItemPerStock(m)
    ensures DistinctStocks(ItemsOfCart(m, cartId, n))
  {
    ItemsOfCartRows(m, cartId, n);
    ItemsOfCartAscending(m, cartId, n);
  }

  /** `cartItemRepository.findByCartAndProductStock`: the item of the cart for
      the stock with the least id below `n`, if there is one. */
  function FindItem(m: map<Id, CartItem>, cartId: Id, stockId: Id, n: nat): (r: Option<Id>)
    ensures r.Some? ==> r.value < n && r.value in m && m[r.value].cartId == cartId && m[r.value].stockId == stockId
    ensures r.Some? ==> forall k :: k < r.value && k in m ==> m[k].cartId != cartId || m[k].stockId != stockId
    ensures r.None? ==> forall k :: k < n && k in m ==> m[k].cartId != cartId || m[k].stockId != stockId
  {
    if n == 0 then None
    else match FindItem(m, cartId, stockId, n - 1)
      case Some(k) => Some(k)
      case None =>
        if n - 1 in m && m[n - 1].cartId == cartId && m[n - 1].stockId == stockId then Some(n - 1) else None
  }

  /** `cartItemRepository.deleteByCart`: the table without the items of one cart.
      `WithoutCartKeepsOthers` and `CustomerService.ClearedCart` say what this
      does to the carts: the cleared one is empty with zero sums, the others
      are unchanged. */
  function WithoutCart(m: map<Id, CartItem>, cartId: Id): (r: map<Id, CartItem>)
    ensures forall k :: k in r <==> k in m && m[k].cartId != cartId
    ensures forall k :: k in r ==> r[k] == m[k]
  {
    map k | k in m && m[k].cartId != cartId :: m[k]
  }

  /** The items of one order with an id below `n`, in ascending id order
      (`Order.orderItems`). */
  function ItemsOfOrder(m: map<Id, OrderItem>, orderId: Id, n: nat): (r: seq<OrderItem>)
    ensures |r| <= n
  {
    if n == 0 then []
    else ItemsOfOrder(m, orderId, n - 1) + (if n - 1 in m && m[n - 1].orderId == orderId then [m[n - 1]] else [])
  }

  /** Every item an order scan lists is the row stored under its id. */
  lemma {:induction false} ItemsOfOrderRows(m: map<Id, OrderItem>, orderId: Id, n: nat)
    requires OrderItemsKeyed(m)
    ensures forall i :: 0 <= i < |ItemsOfOrder(m, orderId, n)| ==>
      ItemsOfOrder(m, orderId, n)[i].orderId == orderId && ItemsOfOrder(m, orderId, n)[i].id in m &&
      m[ItemsOfOrder(m, orderId, n)[i].id] == ItemsOfOrder(m, orderId, n)[i]
  {
    if n > 0 {
      ItemsOfOrderRows(m, orderId, n - 1);
      var r0 := ItemsOfOrder(m, orderId, n - 1);
      var r := ItemsOfOrder(m, orderId, n);
      forall i | 0 <= i < |r|
        ensures r[i].orderId == orderId && r[i].id in m && m[r[i].id] == r[i]
      {
        if i < |r0| {
          assert r[i] == r0[i];
        }
      }
    }
  }

  /** Two tables that agree below `n` list the same items of every order. */
  lemma {:induction false} ItemsOfOrderAgree(m1: map<Id, OrderItem>, m2: map<Id, OrderItem>, orderId: Id, n: nat)
    requires forall k :: k < n ==> (k in m1 <==> k in m2) && (k in m1 ==> m1[k] == m2[k])
    ensures ItemsOfOrder(m1, orderId, n) == ItemsOfOrder(m2, orderId, n)
  {
    if n > 0 {
      ItemsOfOrderAgree(m1, m2, orderId, n - 1);
    }
  }

  /** An order without any row below `n` has an empty scan. */
  lemma {:induction false} NoItemsBelow(m: map<Id, OrderItem>, orderId: Id, n: nat)
    requires forall k :: k in m && k < n ==> m[k].orderId != orderId
    ensures ItemsOfOrder(m, orderId, n) == []
  {
    if n > 0 {
      NoItemsBelow(m, orderId, n - 1);
    }
  }

  /** The rows `items` with the ids `start`, `start + 1`, ...
      `SavedItemsOfOrder` shows that these are exactly the rows an order
      reads back after `saveAll`. */
  function Numbered(items: seq<OrderItem>, start: Id): (r: seq<OrderItem>)
    ensures |r| == |items|
    ensures forall i :: 0 <= i < |items| ==> r[i] == items[i].(id := start + i)
  {
    seq(|items|, i requires 0 <= i < |items| => items[i].(id := start + i))
  }

  /** `orderItemRepository.saveAll`: the rows `items` stored under the ids
      `start`, `start + 1`, ..., each carrying its new id. */
  function SaveAll(m: map<Id, OrderItem>, items: seq<OrderItem>, start: Id): map<Id, OrderItem> {
    if items == [] then m
    else
      var last := |items| - 1;
      SaveAll(m, items[..last], start)[start + last := items[last].(id := start + last)]
  }

  /** After `saveAll` the table holds the old rows and, under `start + i`, the
      `i`-th new row carrying that id; nothing else. */
  lemma {:induction false} SaveAllAt(m: map<Id, OrderItem>, items: seq<OrderItem>, start: Id)
    ensures forall k :: k in SaveAll(m, items, start) <==> k in m || start <= k < start + |items|
    ensures forall k :: k in m && !(start <= k < start + |items|) ==> SaveAll(m, items, start)[k] == m[k]
    ensures forall i :: 0 <= i < |items| ==> SaveAll(m, items, start)[start + i] == items[i].(id := start + i)
  {
    if items != [] {
      var last := |items| - 1;
      SaveAllAt(m, items[..last], start);
      assert forall i :: 0 <= i < last ==> items[..last][i] == items[i];
    }
  }

  /** Saved under fresh ids, the rows of a new order are exactly the items of
      that order, numbered, in the order they were given. */
  lemma {:induction false} SavedItemsOfOrder(m: map<Id, OrderItem>, items: seq<OrderItem>, orderId: Id, start: Id)
    requires forall k :: k in m ==> k < start && m[k].orderId != orderId
    requires forall i :: 0 <= i < |items| ==> items[i].orderId == orderId
    ensures ItemsOfOrder(SaveAll(m, items, start), orderId, start + |items|) == Numbered(items, start)
  {
    if items == [] {
      NoItemsBelow(m, orderId, start);
    } else {
      var last := |items| - 1;
      var pre := items[..last];
      var x := items[last].(id := start + last);
      var r0 := SaveAll(m, pre, start);
      SavedItemsOfOrder(m, pre, orderId, start);
      ItemsOfOrderAgree(r0[start + last := x], r0, orderId, start + last);
      NumberedSnoc(items, start);
    }
  }

  /** Numbering a sequence with one more row appends that row, numbered. */
  lemma NumberedSnoc(items: seq<OrderItem>, start: Id)
    requires items != []
    ensures Numbered(items, start) ==
      Numbered(items[..|items| - 1], start) + [items[|items| - 1].(id := start + |items| - 1)]
  {
    var np := Numbered(items[..|items| - 1], start);
    assert forall i :: 0 <= i < |np| ==> Numbered(items, start)[i] == np[i];
  }

  /** A table scan in ascending key order: the keys below `n` whose rows
      satisfy `keep` (`findByAmountGreaterThan`, `findBySellerPersonId`, ...). */
  function KeysWhere<V>(m: map<Id, V>, keep: V -> bool, n: nat): (r: seq<Id>)
    ensures forall k :: k in r <==> k < n && k in m && keep(m[k])
    ensures forall i, j :: 0 <= i < j < |r| ==> r[i] < r[j]
  {
    if n == 0 then []
    else
      var r0 := KeysWhere(m, keep, n - 1);
      assert forall i :: 0 <= i < |r0| ==> r0[i] < n - 1 by {
        forall i | 0 <= i < |r0| ensures r0[i] < n - 1 {
          assert r0[i] in r0;
        }
      }
      r0 + (if n - 1 in m && keep(m[n - 1]) then [n - 1] else [])
  }

  /** Two tables that hold the same keys below `n`, with rows `keep` judges
      alike, scan to the same keys below `n`. */
  lemma {:induction false} KeysWhereAgree<V>(m1: map<Id, V>, m2: map<Id, V>, keep: V -> bool, n: nat)
    requires forall k :: 0 <= k < n ==> (k in m1 <==> k in m2)
    requires forall k :: 0 <= k < n && k in m1 ==> keep(m1[k]) == keep(m2[k])
    ensures KeysWhere(m1, keep, n) == KeysWhere(m2, keep, n)
  {
    if n > 0 {
      KeysWhereAgree(m1, m2, keep, n - 1);
    }
  }

  /** A table with no key from `n` on scans to the same keys below any
      larger bound. */
  lemma {:induction false} KeysWhereBeyond<V>(m: map<Id, V>, keep: V -> bool, n: nat, k: nat)
    requires KeysBelow(m, n) && n <= k
    ensures KeysWhere(m, keep, k) == KeysWhere(m, keep, n)
  {
    if n < k {
      KeysWhereBeyond(m, keep, n, k - 1);
    }
  }

  /** A row added at or above every key of the table comes last in the scan,
      when `keep` accepts it. */
  lemma KeysWhereAdded<V>(m: map<Id, V>, keep: V -> bool, n: nat, k: nat, v: V)
    requires KeysBelow(m, n) && n <= k
    ensures KeysWhere(m[k := v], keep, k + 1) == KeysWhere(m, keep, n) + (if keep(v) then [k] else [])
  {
    KeysWhereAgree(m[k := v], m, keep, k);
    KeysWhereBeyond(m, keep, n, k);
  }

  /** The rows stored under a sequence of keys. */
  function RowsAt<V>(m: map<Id, V>, ks: seq<Id>): (r: seq<V>)
    requires forall i :: 0 <= i < |ks| ==> ks[i] in m
    ensures |r| == |ks|
    ensures forall i :: 0 <= i < |ks| ==> r[i] == m[ks[i]]
  {
    if ks == [] then [] else [m[ks[0]]] + RowsAt(m, ks[1..])
  }

  // ---------------------------------------------------------------------
  // Cart arithmetic
  // ---------------------------------------------------------------------

  /** quantity × unit price of one cart item. */
  function LineTotal(c: CartItem): int {
    c.quantity * c.priceAtTimeOfAdd
  }

  /** Σ quantity × priceAtTimeOfAdd. */
  function CartTotal(items: seq<CartItem>): int {
    if items == [] then 0 else LineTotal(items[0]) + CartTotal(items[1..])
  }

  /** Σ quantity. */
  function ItemCount(items: seq<CartItem>): int {
    if items == [] then 0 else items[0].quantity + ItemCount(items[1..])
  }

  /** Both sums split over a concatenation. */
  lemma {:induction false} SumsAppend(a: seq<CartItem>, b: seq<CartItem>)
    ensures CartTotal(a + b) == CartTotal(a) + CartTotal(b)
    ensures ItemCount(a + b) == ItemCount(a) + ItemCount(b)
  {
    if a == [] {
      assert a + b == b;
    } else {
      assert (a + b)[0] == a[0];
      assert (a + b)[1..] == a[1..] + b;
      SumsAppend(a[1..], b);
    }
  }

  /** Σ quantity × priceAtTimeOfAdd over the items of one cart with an id below `n`. */
  function CartSum(m: map<Id, CartItem>, cartId: Id, n: nat): int {
    if n == 0 then 0
    else CartSum(m, cartId, n - 1) + (if n - 1 in m && m[n - 1].cartId == cartId then LineTotal(m[n - 1]) else 0)
  }

  /** Σ quantity over the items of one cart with an id below `n`. */
  function CartCount(m: map<Id, CartItem>, cartId: Id, n: nat): int {
    if n == 0 then 0
    else CartCount(m, cartId, n - 1) + (if n - 1 in m && m[n - 1].cartId == cartId then m[n - 1].quantity else 0)
  }

  /** The sums over a cart's scan are the per-cart sums of the table. */
  lemma {:induction false} ScanSums(m: map<Id, CartItem>, cartId: Id, n: nat)
    ensures CartTotal(ItemsOfCart(m, cartId, n)) == CartSum(m, cartId, n)
    ensures ItemCount(ItemsOfCart(m, cartId, n)) == CartCount(m, cartId, n)
  {
    if n > 0 {
      var j := n - 1;
      ScanSums(m, cartId, j);
      var r0 := ItemsOfCart(m, cartId, j);
      if j in m && m[j].cartId == cartId {
        assert ItemsOfCart(m, cartId, n) == r0 + [m[j]];
        SumsAppend(r0, [m[j]]);
        SumsSingleton(m[j]);
      } else {
        assert ItemsOfCart(m, cartId, n) == r0;
      }
    }
  }

  /** The sums of a single item. */
  lemma SumsSingleton(x: CartItem)
    ensures CartTotal([x]) == LineTotal(x) && ItemCount([x]) == x.quantity
  {
    assert [x][1..] == [];
  }

  /** Rewriting one item in place (same cart) changes that cart's sums by the
      difference between the new and the old row, and other carts' sums not at all. */
  lemma {:induction false} SumsUpdate(m: map<Id, CartItem>, k: Id, x: CartItem, cartId: Id, n: nat)
    requires k in m && x.cartId == m[k].cartId
    ensures CartSum(m[k := x], cartId, n) ==
      CartSum(m, cartId, n) + (if k < n && x.cartId == cartId then LineTotal(x) - LineTotal(m[k]) else 0)
    ensures CartCount(m[k := x], cartId, n) ==
      CartCount(m, cartId, n) + (if k < n && x.cartId == cartId then x.quantity - m[k].quantity else 0)
  {
    if n > 0 {
      SumsUpdate(m, k, x, cartId, n - 1);
    }
  }

  /** Deleting one item lowers its cart's sums by that item's line, and
      leaves other carts' sums as they were. */
  lemma {:induction false} SumsRemove(m: map<Id, CartItem>, k: Id, cartId: Id, n: nat)
    requires k in m
    ensures CartSum(m - {k}, cartId, n) ==
      CartSum(m, cartId, n) - (if k < n && m[k].cartId == cartId then LineTotal(m[k]) else 0)
    ensures CartCount(m - {k}, cartId, n) ==
      CartCount(m, cartId, n) - (if k < n && m[k].cartId == cartId then m[k].quantity else 0)
  {
    if n > 0 {
      SumsRemove(m, k, cartId, n - 1);
    }
  }

  /** Storing a new item under an unused id `k` below `n` adds its line to
      its cart's sums. */
  lemma {:induction false} SumsAdd(m: map<Id, CartItem>, k: Id, x: CartItem, cartId: Id, n: nat)
    requires k !in m
    ensures CartSum(m[k := x], cartId, n) ==
      CartSum(m, cartId, n) + (if k < n && x.cartId == cartId then LineTotal(x) else 0)
    ensures CartCount(m[k := x], cartId, n) ==
      CartCount(m, cartId, n) + (if k < n && x.cartId == cartId then x.quantity else 0)
  {
    if n > 0 {
      SumsAdd(m, k, x, cartId, n - 1);
    }
  }

  /** A cart without items has zero sums. */
  lemma {:induction false} SumsOfEmptyCart(m: map<Id, CartItem>, cartId: Id, n: nat)
    requires forall k :: k in m ==> m[k].cartId != cartId
    ensures CartSum(m, cartId, n) == 0 && CartCount(m, cartId, n) == 0
  {
    if n > 0 {
      SumsOfEmptyCart(m, cartId, n - 1);
    }
  }

  /** Raising the scan bound past every stored id changes no sum. */
  lemma {:induction false} SumsBeyond(m: map<Id, CartItem>, cartId: Id, n: nat, n': nat)
    requires n <= n' && forall k :: k in m ==> k < n
    ensures CartSum(m, cartId, n') == CartSum(m, cartId, n)
    ensures CartCount(m, cartId, n') == CartCount(m, cartId, n)
  {
    if n < n' {
      SumsBeyond(m, cartId, n, n' - 1);
    }
  }
}

/** The persistent store the services work on: one mutable table per
    repository the services use, and the shared id sequence. */
module Repositories {
  import opened Base
  import opened Persons
  import opened Schema

  /** The repositories (`CustomerRepository`, `SellerRepository`,
      `ShoppingCartRepository` (both directions of the customer/cart link),
      `ProductRepository`, `ProductStockRepository`, `CartItemRepository`,
      `OrderRepository`, `OrderItemRepository`) as tables keyed by id. The
      services read and assign these fields. */
  class Store {
    var customers: map<Id, Profile>
    var sellers: map<Id, Profile>
    var carts: map<Id, Id>
    var cartOwners: map<Id, Id>
    var products: map<Id, Product>
    var stocks: map<Id, ProductStock>
    var cartItems: map<Id, CartItem>
    var orders: map<Id, Order>
    var orderItems: map<Id, OrderItem>
    var nextId: Id

    /** The current contents of every table. */
    function State(): Tables
      reads this
    {
      Tables(customers, sellers, carts, cartOwners, products, stocks, cartItems, orders, orderItems, nextId)
    }

    /** The integrity constraints hold. */
    predicate Valid()
      reads this
    {
      Schema.Valid(State())
    }

    /** An empty store; the first id handed out is 1 (0 marks an unsaved row). */
    constructor ()
      ensures Valid()
      ensures State() == Tables(map[], map[], map[], map[], map[], map[], map[], map[], map[], 1)
    {
      customers, sellers, carts, cartOwners := map[], map[], map[], map[];
      products, stocks, cartItems := map[], map[], map[];
      orders, orderItems := map[], map[];
      nextId := 1;
      EmptyIsValid();
    }

    /** `productStock.setAmount(amount)` and `productStockRepository.save`:
        one stock's amount overwritten in place. */
    method SetAmount(stockId: Id, amount: int)
      requires Valid() && stockId in stocks
      modifies this
      ensures Valid()
      ensures State() == old(State()).(stocks := old(stocks)[stockId := old(stocks)[stockId].(amount := amount)])
    {
      stocks := stocks[stockId := stocks[stockId].(amount := amount)];
    }
  }
}

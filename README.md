# StoreManager: cart, checkout and stock bookkeeping

This project models the service layer of the StoreManager backend, a Spring
application over JPA repositories, and proves properties of that model. It
covers the customer's shopping cart, checkout into an order, and the seller's
products and stock. It also covers the mappers that turn entities into
transfer objects (dtos) and requests into entities, and the `ApiResponseDto`
envelope.

## How the model is built

- **The database.** The repositories are one mutable object,
  `Repositories.Store`. It holds one table per entity (customers, sellers,
  carts, products, product stocks, cart items, orders, order items), each a
  `map` from id to row, and one id counter, `nextId`, shared by every table.
  Its contents, read out as a value, are `Schema.Tables`.
- **Integrity constraints.** `Schema.Valid` is what the relational store and
  the services keep true together:
  - every id is below `nextId`;
  - every row is stored under its own id;
  - every foreign key names an existing row;
  - a customer and a cart are linked both ways;
  - a cart holds at most one item per product stock.
- **Service operations** (`CustomerService`, `OrderService`,
  `SellerService`):
  - Each operation that writes is a `method` on the `Store`.
  - Its contract gives each failure as an `Err` of `Schema.Error` that leaves
    the store unchanged. The messages are those of the Java exceptions.
  - On success the new contents equal a pure function of the old contents,
    which names the writes in the order the Java code issues them
    (`AddedToCart`, `CheckedOut`, `ProductAdded`, …).
  - Lemmas then prove what those functions mean: the stock taken, the order
    created, the cart totals, the invariant kept.
- **Loops.** The two loops of `checkout` (stock validation, then stock
  decrement) are `while` loops with invariants. Everything else the services
  do is straight-line code or a repository query.
- **Queries.** Queries (`findByCart`, `findByAmountGreaterThan`,
  `findBySellerPersonId`, …) are functions that scan a table in ascending id
  order.
- **Pure mappers.** Each pure mapper is a function over datatypes.
- **Mappers that change an entity in place** (`updateFromDto`,
  `updateOwnerFromDto`) are methods on the `Customer`, `Seller` and `Owner`
  classes of module `Persons`. So are the registration mappers, which
  allocate a new entity.
- **Null.** A Java `null` is `Option.None`. A nullable `String` is
  `NString`.
- **Java `int`.** Integers are unbounded; where the services add or
  subtract `int`s (the merged cart quantity, the stock decrement, the
  cart's item count) the result goes through `Base.Int32`, which wraps it
  into 32 bits as the JVM does.

Where the repository's description and its code disagree, the model follows
the code:
- The `ProductStock` entity as written has no seller field
  (model/ProductStock.java:15-21). Yet `SellerService` reads
  `productStock.getSeller()` and the mappers build the stock's seller id and
  name. The model gives every stock row a `sellerId`.
- `updateProductStock` and `addToCart` accept any integer. The model proves
  only what the code enforces, with no `quantity > 0` or `amount >= 0`
  invariant.

## Model

| member | source | states |
|---|---|---|
| Schema.CartsInjective | backend/store-manager/src/main/java/com/dietergandalf/store_manager/model/ShoppingCart.java:27-28 | because the customer–cart link is one-to-one, no two customers share a cart |
| Schema.OwnerHasCart | backend/store-manager/src/main/java/com/dietergandalf/store_manager/service/CustomerService.java:204-210 | the customer who owns an item's cart has that cart, so `getCartDto(customer.getCart())` after the ownership check reads an existing cart |
| Schema.ItemsOfCart | backend/store-manager/src/main/java/com/dietergandalf/store_manager/repository/CartItemRepository.java:14 | `findByCart` lists at most as many items as there are ids below the bound |
| Schema.ItemsOfCartRows | backend/store-manager/src/main/java/com/dietergandalf/store_manager/repository/CartItemRepository.java:14 | every item `findByCart` lists belongs to the cart and is the row stored under its id |
| Schema.ItemsOfCartComplete | backend/store-manager/src/main/java/com/dietergandalf/store_manager/repository/CartItemRepository.java:14 | `findByCart` misses none of the cart's items |
| Schema.ItemsOfCartAscending | backend/store-manager/src/main/java/com/dietergandalf/store_manager/repository/CartItemRepository.java:14 | `findByCart` lists items in strictly ascending id order, so each at most once |
| Schema.ItemsOfCartAgree | backend/store-manager/src/main/java/com/dietergandalf/store_manager/repository/CartItemRepository.java:14 | two tables that agree on every id list the same items for every cart |
| Schema.ItemsOfEmptyCart | backend/store-manager/src/main/java/com/dietergandalf/store_manager/repository/CartItemRepository.java:14 | a cart that holds no item lists nothing |
| Schema.WithoutCartKeepsOthers | backend/store-manager/src/main/java/com/dietergandalf/store_manager/repository/CartItemRepository.java:16 | `deleteByCart` of one cart does not change the item list of any other cart |
| Schema.CartItemsDistinctStocks | backend/store-manager/src/main/java/com/dietergandalf/store_manager/service/CustomerService.java:128-150 | because a cart holds at most one item per stock, the items of one cart name pairwise distinct stocks |
| Schema.FindItem | backend/store-manager/src/main/java/com/dietergandalf/store_manager/repository/CartItemRepository.java:15 | `findByCartAndProductStock` answers the least-id item of that cart for that stock, or none exactly when the cart holds no such item |
| Schema.WithoutCart | backend/store-manager/src/main/java/com/dietergandalf/store_manager/repository/CartItemRepository.java:16 | `deleteByCart` removes exactly the cart's items and keeps every other row as it was |
| Schema.ItemsOfOrderRows | backend/store-manager/src/main/java/com/dietergandalf/store_manager/model/Order.java:37-38 | every item an order lists belongs to the order and is the row stored under its id |
| Schema.ItemsOfOrderAgree | backend/store-manager/src/main/java/com/dietergandalf/store_manager/model/Order.java:37-38 | two tables that agree on every id list the same items for every order |
| Schema.NoItemsBelow | backend/store-manager/src/main/java/com/dietergandalf/store_manager/model/Order.java:37-38 | an order with no stored item lists nothing |
| Schema.Numbered | backend/store-manager/src/main/java/com/dietergandalf/store_manager/service/OrderService.java:88-90 | the rows `saveAll` hands out: the given rows in order, the i-th carrying id start + i |
| Schema.SaveAllAt | backend/store-manager/src/main/java/com/dietergandalf/store_manager/service/OrderService.java:88-90 | after `saveAll` the table holds the old rows and the i-th new row under start + i, carrying that id, and nothing else |
| Schema.SavedItemsOfOrder | backend/store-manager/src/main/java/com/dietergandalf/store_manager/service/OrderService.java:88-90 | rows of a new order saved under fresh ids become exactly that order's items, in the order given |
| Schema.NumberedSnoc | backend/store-manager/src/main/java/com/dietergandalf/store_manager/service/OrderService.java:88-90 | numbering one more row appends that row, numbered |
| Schema.KeysWhere | backend/store-manager/src/main/java/com/dietergandalf/store_manager/repository/ProductStockRepository.java:19 | a filtering table scan lists exactly the ids whose rows pass the filter, in strictly ascending order |
| Schema.KeysWhereAgree | backend/store-manager/src/main/java/com/dietergandalf/store_manager/repository/ProductStockRepository.java:16-17 | tables with the same ids whose rows the filter judges alike scan alike |
| Schema.KeysWhereBeyond | backend/store-manager/src/main/java/com/dietergandalf/store_manager/repository/ProductStockRepository.java:16-17 | raising the scan bound past every stored id changes no scan |
| Schema.KeysWhereAdded | backend/store-manager/src/main/java/com/dietergandalf/store_manager/repository/ProductStockRepository.java:16-17 | a row saved above every stored id comes last in a scan, exactly when the filter accepts it |
| Schema.RowsAt | backend/store-manager/src/main/java/com/dietergandalf/store_manager/repository/OrderRepository.java:18-19 | the rows stored under a list of ids, one per id, in the same order |
| Schema.SumsAppend | backend/store-manager/src/main/java/com/dietergandalf/store_manager/service/CustomerService.java:252-258 | Σ quantity × priceAtTimeOfAdd and Σ quantity split over a concatenation |
| Schema.ScanSums | backend/store-manager/src/main/java/com/dietergandalf/store_manager/service/CustomerService.java:250-258 | the cart snapshot's two stream sums over `findByCart` equal the per-cart sums over the table |
| Schema.SumsSingleton | backend/store-manager/src/main/java/com/dietergandalf/store_manager/service/CustomerService.java:252-258 | the sums over one item are its line total and its quantity |
| Schema.SumsUpdate | backend/store-manager/src/main/java/com/dietergandalf/store_manager/service/CustomerService.java:140-141 | rewriting one item changes its cart's sums by the new row minus the old row, and other carts' sums not at all |
| Schema.SumsRemove | backend/store-manager/src/main/java/com/dietergandalf/store_manager/service/CustomerService.java:209 | deleting one item lowers its cart's sums by that item's line total and quantity, and no other cart's sums |
| Schema.SumsAdd | backend/store-manager/src/main/java/com/dietergandalf/store_manager/service/CustomerService.java:143-149 | saving a new item under an unused id adds its line total and quantity to its cart's sums |
| Schema.SumsOfEmptyCart | backend/store-manager/src/main/java/com/dietergandalf/store_manager/service/CustomerService.java:249-258 | a cart without items has total amount 0 and item count 0 |
| Schema.SumsBeyond | backend/store-manager/src/main/java/com/dietergandalf/store_manager/service/CustomerService.java:249-258 | cart sums do not depend on a scan bound above every stored id |
| Base.Show | backend/store-manager/src/main/java/com/dietergandalf/store_manager/service/CustomerService.java:263 | Java string concatenation prints a null string as "null" and any other string as itself |
| Base.FullName | backend/store-manager/src/main/java/com/dietergandalf/store_manager/service/CustomerService.java:263 | the display name is the first name, one space, then the last name, with null printed as "null" |
| Base.Int32 | backend/store-manager/src/main/java/com/dietergandalf/store_manager/service/CustomerService.java:133 | Java `int` + and −: the result lies in the `int` range and is the exact value whenever that is in range |
| Base.Int32Period | backend/store-manager/src/main/java/com/dietergandalf/store_manager/service/OrderService.java:95 | values 2^32 apart wrap to the same `int`, which with the range and identity clauses makes `Int32` reduction modulo 2^32 |
| Base.Int32Add | backend/store-manager/src/main/java/com/dietergandalf/store_manager/service/CustomerService.java:256-258 | wrapping after every addition equals wrapping the total once, so the stream sum of `int`s is the wrapped Σ |
| Persons.ToAddressDto | backend/store-manager/src/main/java/com/dietergandalf/store_manager/util/CustomerMapper.java:84-96 | a null address gives a null dto; any other address gives a dto with its street, postalCode, city, province and country copied field by field |
| Persons.FromAddressDto | backend/store-manager/src/main/java/com/dietergandalf/store_manager/util/CustomerMapper.java:98-111 | a null dto gives a null address; any other dto gives an address with its street, postalCode, city, province and country copied field by field |
| Persons.AddressRoundTrip | backend/store-manager/src/main/java/com/dietergandalf/store_manager/util/CustomerMapper.java:84-111 | address to dto and back gives the same address, null included |
| Persons.AddressDtoRoundTrip | backend/store-manager/src/main/java/com/dietergandalf/store_manager/util/CustomerMapper.java:84-111 | dto to address and back gives the same dto, null included |
| Persons.FromRegister | backend/store-manager/src/main/java/com/dietergandalf/store_manager/util/CustomerMapper.java:46-60 | a registered person has the request's names, birth date, phone, email and password, and its address converted from the request's |
| Persons.MergeOverwritesOnlyGiven | backend/store-manager/src/main/java/com/dietergandalf/store_manager/util/CustomerMapper.java:63-82 | field by field, a field the request carries takes the request's value and a null one keeps the profile's (the address through the dto conversion); the password never changes |
| Persons.MergeNothing | backend/store-manager/src/main/java/com/dietergandalf/store_manager/util/SellerMapper.java:62-81 | an update that carries no field changes nothing |
| Persons.MergeIdempotent | backend/store-manager/src/main/java/com/dietergandalf/store_manager/util/SellerMapper.java:62-81 | applying the same update twice equals applying it once |
| Persons.MergeSequence | backend/store-manager/src/main/java/com/dietergandalf/store_manager/util/OwnerMapper.java:67-84 | two successive updates equal one combined update where the later request wins field by field |
| Persons.ToPersonDto | backend/store-manager/src/main/java/com/dietergandalf/store_manager/util/CustomerMapper.java:23-30 | the person part of a dto carries the person's id, first and last name, date of birth, phone number and email, and an address that converts back to the person's |
| Persons.PersonDtoHidesPassword | backend/store-manager/src/main/java/com/dietergandalf/store_manager/util/CustomerMapper.java:18-33 | the dto of a person does not depend on the password |
| Persons.ShoppingCart.constructor | backend/store-manager/src/main/java/com/dietergandalf/store_manager/model/ShoppingCart.java:22-31 | `new ShoppingCart()` has id 0 and no customer |
| Persons.Customer.constructor | backend/store-manager/src/main/java/com/dietergandalf/store_manager/model/Customer.java:18-21 | `new Customer()` has no id, a profile of nulls and no cart |
| Persons.Seller.constructor | backend/store-manager/src/main/java/com/dietergandalf/store_manager/model/Seller.java:19-24 | `new Seller()` has no id, a profile of nulls, no product-stock list and no stand |
| Persons.Owner.constructor | backend/store-manager/src/main/java/com/dietergandalf/store_manager/model/Owner.java:14-16 | `new Owner()` has no id, a profile of nulls and no stand list |
| Repositories.Store.SetAmount | backend/store-manager/src/main/java/com/dietergandalf/store_manager/service/SellerService.java:122-123 | `setAmount` and `save` overwrite one stock's amount, keep every other row, and keep the constraints |
| ApiResponse.Success | backend/store-manager/src/main/java/com/dietergandalf/store_manager/dto/ApiResponseDto.java:18-23 | success is true, data is the argument, and message and error are null |
| ApiResponse.SuccessWith | backend/store-manager/src/main/java/com/dietergandalf/store_manager/dto/ApiResponseDto.java:25-31 | success is true, with the given data and message, and error is null |
| ApiResponse.Failure | backend/store-manager/src/main/java/com/dietergandalf/store_manager/dto/ApiResponseDto.java:33-38 | success is false, error is the argument, and data and message are null |
| ApiResponse.FailureWith | backend/store-manager/src/main/java/com/dietergandalf/store_manager/dto/ApiResponseDto.java:40-46 | success is false, with the given error and message, and data is null |
| ProductMapper.ToDto | backend/store-manager/src/main/java/com/dietergandalf/store_manager/util/ProductMapper.java:17-28 | null exactly for null; otherwise id, name, description and price copied |
| ProductMapper.ToStockDto | backend/store-manager/src/main/java/com/dietergandalf/store_manager/util/ProductMapper.java:30-43 | null exactly for null; otherwise the stock's id, amount and product dto; seller id and name are null exactly when the stock has no seller, else the seller's id and "first last" |
| ProductMapper.ToDtoList | backend/store-manager/src/main/java/com/dietergandalf/store_manager/util/ProductMapper.java:45-49 | one dto per product, same length and same order |
| ProductMapper.ToStockDtoList | backend/store-manager/src/main/java/com/dietergandalf/store_manager/util/ProductMapper.java:51-55 | one dto per stock, same length and same order |
| ProductMapper.FromCreateRequest | backend/store-manager/src/main/java/com/dietergandalf/store_manager/util/ProductMapper.java:57-68 | null exactly for null; otherwise an unsaved product with the request's name, description and price |
| ProductMapper.CreateProductStock | backend/store-manager/src/main/java/com/dietergandalf/store_manager/util/ProductMapper.java:70-77 | an unsaved stock bound to exactly the given product and seller, holding the initial stock, or 0 when it is null |
| ProductMapper.CreateThenDto | backend/store-manager/src/main/java/com/dietergandalf/store_manager/util/ProductMapper.java:17-68 | mapping a created product back to a dto gives the request's fields with the id still unset |
| CartItemMapper.ToDto | backend/store-manager/src/main/java/com/dietergandalf/store_manager/util/CartItemMapper.java:17-29 | null exactly for null; otherwise id, quantity and priceAtTimeOfAdd copied unchanged, the stock's dto, and totalPrice = quantity × priceAtTimeOfAdd |
| CartItemMapper.ToDtoList | backend/store-manager/src/main/java/com/dietergandalf/store_manager/util/CartItemMapper.java:31-35 | one dto per item, same length and same order |
| CartItemMapper.ToDtoListSums | backend/store-manager/src/main/java/com/dietergandalf/store_manager/util/CartItemMapper.java:27-35 | the dtos' totalPrices add up to Σ quantity × priceAtTimeOfAdd of the items, and their quantities to Σ quantity |
| OrderItemMapper.ValidResolves | backend/store-manager/src/main/java/com/dietergandalf/store_manager/util/OrderItemMapper.java:21-23 | in a consistent database every order item's stock and that stock's product exist |
| OrderItemMapper.ToDto | backend/store-manager/src/main/java/com/dietergandalf/store_manager/util/OrderItemMapper.java:16-30 | null exactly for null; otherwise id, stock id, quantity and unit price copied, the product's name and description, and totalPrice = quantity × priceAtTimeOfOrder |
| OrderItemMapper.ToDtoList | backend/store-manager/src/main/java/com/dietergandalf/store_manager/util/OrderItemMapper.java:32-36 | one dto per item, same length and same order |
| OrderItemMapper.FromCartItem | backend/store-manager/src/main/java/com/dietergandalf/store_manager/util/OrderItemMapper.java:38-45 | an unsaved item of the given order with the cart item's stock and quantity, and priceAtTimeOfAdd as priceAtTimeOfOrder |
| OrderItemMapper.FromCartItems | backend/store-manager/src/main/java/com/dietergandalf/store_manager/util/OrderItemMapper.java:47-51 | exactly one order item per cart item, in the same order |
| OrderItemMapper.FromCartItemsTotal | backend/store-manager/src/main/java/com/dietergandalf/store_manager/util/OrderItemMapper.java:38-51 | the copied order items' total equals the cart items' total |
| OrderItemMapper.NumberedTotal | backend/store-manager/src/main/java/com/dietergandalf/store_manager/service/OrderService.java:88-90 | giving saved rows their ids does not change their total |
| OrderItemMapper.ToDtoListTotal | backend/store-manager/src/main/java/com/dietergandalf/store_manager/util/OrderItemMapper.java:28-36 | the item dtos' totalPrices add up to the items' total |
| OrderMapper.ItemsOf | backend/store-manager/src/main/java/com/dietergandalf/store_manager/model/Order.java:37-38 | every item of an order belongs to that order and resolves to a stock and a product |
| OrderMapper.ToDto | backend/store-manager/src/main/java/com/dietergandalf/store_manager/util/OrderMapper.java:25-44 | null exactly for null; otherwise every column copied, customerName = first + " " + last, and one item dto per item of the order |
| OrderMapper.ToDtoList | backend/store-manager/src/main/java/com/dietergandalf/store_manager/util/OrderMapper.java:46-50 | one dto per order, same length and same order |
| OrderMapper.FromCartItemsAndRequest | backend/store-manager/src/main/java/com/dietergandalf/store_manager/util/OrderMapper.java:52-70 | an unsaved order of the customer dated `now`, with addresses, payment method and notes copied from the request, PENDING in status and payment status, whose total is that of the order items copied from the cart |
| CustomerMapper.ToDto | backend/store-manager/src/main/java/com/dietergandalf/store_manager/util/CustomerMapper.java:18-33 | null exactly for null; otherwise the person dto, and a cart id that is null exactly when the customer has no cart |
| CustomerMapper.ToDtoList | backend/store-manager/src/main/java/com/dietergandalf/store_manager/util/CustomerMapper.java:35-39 | one dto per customer, same length and same order |
| CustomerMapper.FromRegisterRequest | backend/store-manager/src/main/java/com/dietergandalf/store_manager/util/CustomerMapper.java:41-61 | null exactly for null; otherwise a new customer with the request's profile and a new cart whose customer is that customer |
| CustomerMapper.UpdateFromDto | backend/store-manager/src/main/java/com/dietergandalf/store_manager/util/CustomerMapper.java:63-82 | the customer's profile becomes the partial update of the old profile; id and cart are left alone |
| SellerMapper.Dto | backend/store-manager/src/main/java/com/dietergandalf/store_manager/util/SellerMapper.java:18-37 | the seller dto: the person part; product-stock ids in order, empty when there are none; and the stand id, null without a stand |
| SellerMapper.ToDto | backend/store-manager/src/main/java/com/dietergandalf/store_manager/util/SellerMapper.java:18-37 | null exactly for null; otherwise the dto of the seller's id, profile, stocks and stand |
| SellerMapper.ToDtoList | backend/store-manager/src/main/java/com/dietergandalf/store_manager/util/SellerMapper.java:39-43 | one dto per seller, same length and same order |
| SellerMapper.FromRegisterRequest | backend/store-manager/src/main/java/com/dietergandalf/store_manager/util/SellerMapper.java:45-60 | null exactly for null; otherwise a new seller with the request's profile, no stocks and no stand |
| SellerMapper.UpdateFromDto | backend/store-manager/src/main/java/com/dietergandalf/store_manager/util/SellerMapper.java:62-81 | the seller's profile becomes the partial update of the old profile; id, stocks and stand are left alone |
| OwnerMapper.ToDtoAsWritten | backend/store-manager/src/main/java/com/dietergandalf/store_manager/util/OwnerMapper.java:18-38 | toDto as written: null for null |
| OwnerMapper.NullStandsThrow | backend/store-manager/src/main/java/com/dietergandalf/store_manager/model/Owner.java:27-30 | as written, mapping an owner whose stand list is null throws a NullPointerException |
| OwnerMapper.ToDto | backend/store-manager/src/main/java/com/dietergandalf/store_manager/util/OwnerMapper.java:18-38 | null exactly for null; otherwise the person dto, the stand ids or an empty list when stands is null, rent 0, and hasAvailableStands exactly when there is a stand |
| OwnerMapper.ToDtoAgreesWhereDefined | backend/store-manager/src/main/java/com/dietergandalf/store_manager/util/OwnerMapper.java:18-38 | wherever the mapper as written returns, it returns the corrected dto; it throws exactly for a non-null owner with a null stand list |
| OwnerMapper.ToDtoList | backend/store-manager/src/main/java/com/dietergandalf/store_manager/util/OwnerMapper.java:40-44 | one dto per owner, same length and same order |
| OwnerMapper.FromRegisterRequest | backend/store-manager/src/main/java/com/dietergandalf/store_manager/util/OwnerMapper.java:46-60 | null exactly for null; otherwise a new owner with the request's profile and a null stand list |
| OwnerMapper.UpdateOwnerFromDto | backend/store-manager/src/main/java/com/dietergandalf/store_manager/util/OwnerMapper.java:62-85 | does nothing when the request is null; otherwise the profile becomes the partial update; id and stands are left alone |
| CustomerService.Snapshot | backend/store-manager/src/main/java/com/dietergandalf/store_manager/service/CustomerService.java:249-268 | the cart dto: cart and customer id, "first last", the item dtos in table order, totalAmount = Σ of their totalPrices = Σ quantity × priceAtTimeOfAdd of the cart, totalItems = Σ quantity wrapped into an `int`, as the `int` stream sum wraps |
| CustomerService.GetCart | backend/store-manager/src/main/java/com/dietergandalf/store_manager/service/CustomerService.java:155-169 | null exactly when the customer is unknown or has no cart; otherwise the cart's snapshot |
| CustomerService.AvailableStockIds | backend/store-manager/src/main/java/com/dietergandalf/store_manager/repository/ProductStockRepository.java:19 | every id `findByAmountGreaterThan(0)` lists is a stock with a positive amount |
| CustomerService.AvailableStockIdsExactly | backend/store-manager/src/main/java/com/dietergandalf/store_manager/repository/ProductStockRepository.java:19 | the scan lists every stock with a positive amount, exactly once, and nothing else |
| CustomerService.AvailableProducts | backend/store-manager/src/main/java/com/dietergandalf/store_manager/service/CustomerService.java:94-97 | one stock dto per stock with a positive amount, in scan order, each showing a positive amount |
| CustomerService.NewCartKeepsValid | backend/store-manager/src/main/java/com/dietergandalf/store_manager/service/CustomerService.java:119-125 | creating a missing cart, linked both ways under a new id, keeps the constraints |
| CustomerService.SetQuantityKeepsValid | backend/store-manager/src/main/java/com/dietergandalf/store_manager/service/CustomerService.java:140-141 | overwriting an item's quantity keeps the constraints |
| CustomerService.NewItemKeepsValid | backend/store-manager/src/main/java/com/dietergandalf/store_manager/service/CustomerService.java:143-149 | saving an item for a stock the cart does not yet hold keeps the constraints, in particular one item per (cart, stock) |
| CustomerService.RemoveItemKeepsValid | backend/store-manager/src/main/java/com/dietergandalf/store_manager/service/CustomerService.java:209 | deleting one item keeps the constraints |
| CustomerService.WithoutCartKeepsValid | backend/store-manager/src/main/java/com/dietergandalf/store_manager/service/CustomerService.java:182 | deleting all items of a cart keeps the constraints |
| CustomerService.WithCart | backend/store-manager/src/main/java/com/dietergandalf/store_manager/service/CustomerService.java:118-125 | after the get-or-create step the customer has a cart |
| CustomerService.AddedToCart | backend/store-manager/src/main/java/com/dietergandalf/store_manager/service/CustomerService.java:118-150 | a successful addToCart writes only carts and cart items: customers, sellers, products, stocks, orders and order items are unchanged |
| CustomerService.WithCartExisting | backend/store-manager/src/main/java/com/dietergandalf/store_manager/service/CustomerService.java:119-128 | a newly created cart holds no item, so the item lookup answers as it did before the cart was made |
| CustomerService.AddedToCartItem | backend/store-manager/src/main/java/com/dietergandalf/store_manager/service/CustomerService.java:128-150 | a re-added stock's item gets the `int` sum of its quantity and the new one (wrapping) and keeps its priceAtTimeOfAdd; otherwise one new item with the quantity and the product's current price is stored under an unused id; every other item is left as it was |
| CustomerService.AddedToCartTotals | backend/store-manager/src/main/java/com/dietergandalf/store_manager/service/CustomerService.java:128-150 | adding raises the cart's item count by what the item gained (the quantity unless the merged `int` wraps) and its amount by that × the unit price the item records |
| CustomerService.Added | backend/store-manager/src/main/java/com/dietergandalf/store_manager/service/CustomerService.java:130-141 | what addToCart adds to the item: the quantity for a new item; for a merged one the wrapped sum minus the old quantity, which is the quantity whenever the sum fits an `int` |
| CustomerService.AddedToCartKeepsValid | backend/store-manager/src/main/java/com/dietergandalf/store_manager/service/CustomerService.java:118-150 | a whole successful addToCart, a cart created if missing and the item merged or saved, keeps the constraints |
| CustomerService.AddedToCartSound | backend/store-manager/src/main/java/com/dietergandalf/store_manager/service/CustomerService.java:118-150 | addToCart keeps the cart tables sound: items name a stock and a cart, carts are linked both ways, at most one item per (cart, stock) |
| CustomerService.FirstAdd | backend/store-manager/src/main/java/com/dietergandalf/store_manager/service/CustomerService.java:142-149 | the first add of a stock the cart does not hold creates one item for it under the next id, with that quantity and the product's current price, and raises the cart's totals by the quantity and quantity × price |
| CustomerService.AddedAgain | backend/store-manager/src/main/java/com/dietergandalf/store_manager/service/CustomerService.java:128-141 | a further add finds that same item, stores the `int` sum of the quantities, keeps the first add's price, and the cart's totals stay the starting totals plus the item's quantity and quantity × price |
| CustomerService.RepeatedAddsSum | backend/store-manager/src/main/java/com/dietergandalf/store_manager/service/CustomerService.java:128-150 | any run of adds of one stock to a cart without it ends with one item whose quantity is the `int`-wrapped sum of all the quantities (their plain sum whenever it fits an `int`) at the first add's price, and cart totals raised by that quantity and quantity × price |
| CustomerService.ThreeThenFour | backend/store-manager/src/main/java/com/dietergandalf/store_manager/service/CustomerService.java:128-150 | adding 3 and then 4 of a stock priced 5 leaves one item of 7 at price 5, the cart's quantity raised by 7 and its amount by 35 |
| CustomerService.MergedTotals | backend/store-manager/src/main/java/com/dietergandalf/store_manager/service/CustomerService.java:130-141 | merging into an existing item raises the sums by the wrapped merged quantity minus the old one, and by that × the item's recorded price |
| CustomerService.MergeWrapsPastCheck | backend/store-manager/src/main/java/com/dietergandalf/store_manager/service/CustomerService.java:130-141 | one more of a stock whose item is at `Integer.MAX_VALUE` passes the merged check against any non-negative stock, and the item is stored at `Integer.MIN_VALUE` |
| CustomerService.NewItemTotals | backend/store-manager/src/main/java/com/dietergandalf/store_manager/service/CustomerService.java:142-149 | a new item raises the sums by the quantity and by quantity × the product's price |
| CustomerService.GetOrCreateCart | backend/store-manager/src/main/java/com/dietergandalf/store_manager/service/CustomerService.java:118-125 | the customer's cart id; a cart is created only when the customer has none, and otherwise nothing changes |
| CustomerService.SaveCart | backend/store-manager/src/main/java/com/dietergandalf/store_manager/service/CustomerService.java:121-124 | `shoppingCartRepository.save` of a new cart under the next id, linked to the customer |
| CustomerService.SetQuantity | backend/store-manager/src/main/java/com/dietergandalf/store_manager/service/CustomerService.java:243-244 | overwrites one item's quantity and keeps the constraints |
| CustomerService.SaveNewItem | backend/store-manager/src/main/java/com/dietergandalf/store_manager/service/CustomerService.java:144-149 | stores the new item under the next id and keeps the constraints |
| CustomerService.AddToCart | backend/store-manager/src/main/java/com/dietergandalf/store_manager/service/CustomerService.java:99-153 | fails with no change exactly on an unknown customer, an unknown stock, amount < quantity, or (cart already holding the stock) amount < the `int` sum of the held and the new quantity, and with no other error; otherwise the database becomes `AddedToCart` and the result is the cart snapshot; stock amounts never change |
| CustomerService.AddAvailable | backend/store-manager/src/main/java/com/dietergandalf/store_manager/service/CustomerService.java:118-152 | after the three checks: fails with no change (and no new cart) exactly when the wrapped merged quantity is short; otherwise `AddedToCart` and the snapshot |
| CustomerService.RemovedTotals | backend/store-manager/src/main/java/com/dietergandalf/store_manager/service/CustomerService.java:209-210 | deleting the customer's item lowers the cart's count by its quantity and its amount by its line total, and no other customer's sums change |
| CustomerService.UpdatedTotals | backend/store-manager/src/main/java/com/dietergandalf/store_manager/service/CustomerService.java:243-246 | a new quantity moves the cart's count and amount by the difference, and no other customer's sums change |
| CustomerService.ClearedCart | backend/store-manager/src/main/java/com/dietergandalf/store_manager/service/CustomerService.java:181-183 | a cleared cart has no items and zero sums; every other customer's cart is unchanged |
| CustomerService.DeleteItem | backend/store-manager/src/main/java/com/dietergandalf/store_manager/service/CustomerService.java:209 | `cartItemRepository.delete` removes exactly that item and keeps the constraints |
| CustomerService.RemoveFromCart | backend/store-manager/src/main/java/com/dietergandalf/store_manager/service/CustomerService.java:189-211 | fails with no change exactly on an unknown customer, an unknown item, or an item in another customer's cart; otherwise deletes only that item and returns the snapshot |
| CustomerService.UpdateCartItemQuantity | backend/store-manager/src/main/java/com/dietergandalf/store_manager/service/CustomerService.java:213-247 | with quantity ≤ 0, exactly removeFromCart; otherwise fails with no change exactly on an unknown customer or item, another customer's item, or stock < quantity, and with no other error; else it overwrites only that item's quantity and returns the snapshot |
| CustomerService.DeleteCartItems | backend/store-manager/src/main/java/com/dietergandalf/store_manager/repository/CartItemRepository.java:16 | `deleteByCart` removes exactly the items of that cart |
| CustomerService.ClearCart | backend/store-manager/src/main/java/com/dietergandalf/store_manager/service/CustomerService.java:171-187 | true exactly when the customer exists and has a cart, and then every item of that cart is deleted; false changes nothing |
| OrderService.FirstShort | backend/store-manager/src/main/java/com/dietergandalf/store_manager/service/OrderService.java:76-81 | the index of the first item whose stock holds less than its quantity, with every earlier item covered; none exactly when every item is covered |
| OrderService.Decremented | backend/store-manager/src/main/java/com/dietergandalf/store_manager/service/OrderService.java:93-97 | the decrement loop changes no set of stock ids |
| OrderService.DecrementedExactly | backend/store-manager/src/main/java/com/dietergandalf/store_manager/service/OrderService.java:93-97 | after the loop each stock an item names is as before but for its amount, the old amount minus the total ordered of it wrapped into an `int`; every stock no item names is unchanged |
| OrderService.OrderedDistinct | backend/store-manager/src/main/java/com/dietergandalf/store_manager/service/OrderService.java:93-97 | with distinct stocks, the total ordered of an item's stock is that item's quantity, and of any other stock 0 |
| OrderService.CheckedStockNotNegative | backend/store-manager/src/main/java/com/dietergandalf/store_manager/service/OrderService.java:76-97 | with no short item and distinct stocks, every ordered stock asked no more than it held and ends at amount − quantity wrapped into an `int`, which is that difference (≥ 0) whenever it fits an `int`; every other stock is unchanged |
| OrderService.DuplicateStockGoesNegative | backend/store-manager/src/main/java/com/dietergandalf/store_manager/service/OrderService.java:76-97 | two items on one stock can each pass validation and together take it to −1, so the one-item-per-stock premise is needed |
| OrderService.MinQuantityWrapsStock | backend/store-manager/src/main/java/com/dietergandalf/store_manager/service/OrderService.java:76-97 | an item of quantity `Integer.MIN_VALUE` passes validation against a stock of 5, and the subtraction wraps that stock to 5 + `Integer.MIN_VALUE` < 0 |
| OrderService.CartInStock | backend/store-manager/src/main/java/com/dietergandalf/store_manager/service/OrderService.java:70 | every item of a readable cart names an existing stock |
| OrderService.CheckoutStocks | backend/store-manager/src/main/java/com/dietergandalf/store_manager/service/OrderService.java:76-97 | a checkout that passed validation leaves the stocks as `TakenOnce` states: each stock of the cart ends at old amount − its item's quantity wrapped into an `int` (the non-negative difference itself when it fits), every other stock unchanged, no stock added or removed |
| OrderService.CheckoutOrder | backend/store-manager/src/main/java/com/dietergandalf/store_manager/service/OrderService.java:84-105 | the new order is stored under an unused id, for the customer, dated `now`, totalAmount = the pre-checkout cart total, status CONFIRMED and paymentStatus "CONFIRMED", with the request's fields; other orders are kept |
| OrderService.CheckoutOrderItems | backend/store-manager/src/main/java/com/dietergandalf/store_manager/service/OrderService.java:84-90 | the new order has one item per cart item, in cart order, with its stock, quantity and priceAtTimeOfAdd as priceAtTimeOfOrder |
| OrderService.NoItemsOfNextOrder | backend/store-manager/src/main/java/com/dietergandalf/store_manager/service/OrderService.java:84-90 | no stored order item belongs to the order about to be saved, and none has a higher id |
| OrderService.CheckoutKeepsOrderItems | backend/store-manager/src/main/java/com/dietergandalf/store_manager/service/OrderService.java:88-90 | the order items stored before a checkout are kept |
| OrderService.CheckedOutItemRows | backend/store-manager/src/main/java/com/dietergandalf/store_manager/service/OrderService.java:88-90 | checkout stores the copies of the cart's items with `saveAll` under the ids after the order's, one id per item |
| OrderService.SavedCartItems | backend/store-manager/src/main/java/com/dietergandalf/store_manager/service/OrderService.java:88-90 | saving the copies for a new order gives that order exactly those items, in order |
| OrderService.SavedInOrder | backend/store-manager/src/main/java/com/dietergandalf/store_manager/service/OrderService.java:88-90 | the saved copies are the order's items, numbered after the order's id |
| OrderService.NumberedCopies | backend/store-manager/src/main/java/com/dietergandalf/store_manager/util/OrderItemMapper.java:38-51 | the numbered copies are one per cart item, in order, with its stock, quantity and unit price |
| OrderService.KeptOnSave | backend/store-manager/src/main/java/com/dietergandalf/store_manager/service/OrderService.java:88-90 | saving rows under ids above every stored id keeps the stored rows |
| OrderService.CheckoutCart | backend/store-manager/src/main/java/com/dietergandalf/store_manager/service/OrderService.java:100 | after checkout the customer keeps the cart, which has no items and zero sums |
| OrderService.SaveOrderKeepsValid | backend/store-manager/src/main/java/com/dietergandalf/store_manager/service/OrderService.java:84-85 | saving an order of a known customer keeps the constraints |
| OrderService.SaveItemsKeepsValid | backend/store-manager/src/main/java/com/dietergandalf/store_manager/service/OrderService.java:88-90 | saving order items that name existing stocks and orders keeps the constraints |
| OrderService.DecrementedKeepsValid | backend/store-manager/src/main/java/com/dietergandalf/store_manager/service/OrderService.java:93-97 | taking quantities off stocks keeps the constraints |
| OrderService.OrderUpdateKeepsValid | backend/store-manager/src/main/java/com/dietergandalf/store_manager/service/OrderService.java:103-105 | rewriting an order's columns other than its id and customer keeps the constraints |
| OrderService.CheckoutKeepsValid | backend/store-manager/src/main/java/com/dietergandalf/store_manager/service/OrderService.java:56-108 | a whole checkout keeps the constraints |
| OrderService.ValidateStock | backend/store-manager/src/main/java/com/dietergandalf/store_manager/service/OrderService.java:76-81 | the validation loop stops at the first short item, or at none |
| OrderService.SaveOrder | backend/store-manager/src/main/java/com/dietergandalf/store_manager/service/OrderService.java:84-85 | `orderRepository.save` of a new order under the next id |
| OrderService.SaveOrderItems | backend/store-manager/src/main/java/com/dietergandalf/store_manager/service/OrderService.java:88-90 | `saveAll` under the next ids |
| OrderService.DecrementStocks | backend/store-manager/src/main/java/com/dietergandalf/store_manager/service/OrderService.java:93-97 | the decrement loop lowers each item's stock in turn by the item's quantity, in `int` arithmetic |
| OrderService.ConfirmOrder | backend/store-manager/src/main/java/com/dietergandalf/store_manager/service/OrderService.java:103-105 | sets paymentStatus "CONFIRMED" and status CONFIRMED, then saves |
| OrderService.PlaceOrder | backend/store-manager/src/main/java/com/dietergandalf/store_manager/service/OrderService.java:84-105 | the writes of a validated checkout, in the order issued, give `CheckedOut` |
| OrderService.Checkout | backend/store-manager/src/main/java/com/dietergandalf/store_manager/service/OrderService.java:56-108 | fails with no writes exactly on an unknown customer, no cart, an empty cart, or a short item (naming the first short item's product), and with no other error; otherwise the database becomes `CheckedOut` and the result is the new order's dto |
| OrderService.ValidRenderable | backend/store-manager/src/main/java/com/dietergandalf/store_manager/util/OrderMapper.java:25-44 | in a consistent database every order can be mapped to a dto |
| OrderService.StatusSetKeepsValid | backend/store-manager/src/main/java/com/dietergandalf/store_manager/service/OrderService.java:131-132 | replacing a status keeps the constraints |
| OrderService.StatusSetDto | backend/store-manager/src/main/java/com/dietergandalf/store_manager/service/OrderService.java:131-134 | a status change shows in that order's dto as the new status and nothing else, and in no other dto |
| OrderService.UpdateOrderStatus | backend/store-manager/src/main/java/com/dietergandalf/store_manager/service/OrderService.java:123-135 | fails with "Order not found" and no change exactly for an unknown id; otherwise sets any status, whatever the old one, changes nothing else, and returns the dto |
| OrderService.GetOrderById | backend/store-manager/src/main/java/com/dietergandalf/store_manager/service/OrderService.java:115-121 | null exactly for an unknown id; otherwise the dto of the order stored under that id |
| OrderService.PrependNewest | backend/store-manager/src/main/java/com/dietergandalf/store_manager/repository/OrderRepository.java:18-19 | an order no older than the first of a newest-first list can go in front |
| OrderService.InsertByDate | backend/store-manager/src/main/java/com/dietergandalf/store_manager/repository/OrderRepository.java:18-19 | inserting into a newest-first list keeps it newest first and adds exactly that order |
| OrderService.SortByDate | backend/store-manager/src/main/java/com/dietergandalf/store_manager/repository/OrderRepository.java:18-19 | the result is newest first and a permutation of the input |
| OrderService.OrderIdsOf | backend/store-manager/src/main/java/com/dietergandalf/store_manager/repository/OrderRepository.java:18 | the listed ids are the customer's orders, ascending |
| OrderService.CustomerOrders | backend/store-manager/src/main/java/com/dietergandalf/store_manager/repository/OrderRepository.java:18-19 | the customer's orders, newest orderDate first, a permutation of the customer's rows |
| OrderService.CustomerOrdersRows | backend/store-manager/src/main/java/com/dietergandalf/store_manager/repository/OrderRepository.java:18 | every order returned belongs to the customer and is a stored row |
| OrderService.CustomerOrdersComplete | backend/store-manager/src/main/java/com/dietergandalf/store_manager/repository/OrderRepository.java:18 | every order of the customer is returned, and no more than that |
| OrderService.ValidRowsRenderable | backend/store-manager/src/main/java/com/dietergandalf/store_manager/util/OrderMapper.java:46-50 | stored orders of a consistent database can all be mapped |
| OrderService.GetCustomerOrders | backend/store-manager/src/main/java/com/dietergandalf/store_manager/service/OrderService.java:110-113 | one dto per order of the query, each of that customer, newest orderDate first |
| OrderService.AllOrderIds | backend/store-manager/src/main/java/com/dietergandalf/store_manager/service/OrderService.java:137-140 | the ids of stored orders, ascending |
| OrderService.AllOrderIdsExactly | backend/store-manager/src/main/java/com/dietergandalf/store_manager/service/OrderService.java:137-140 | the scan lists every order |
| OrderService.GetAllOrders | backend/store-manager/src/main/java/com/dietergandalf/store_manager/service/OrderService.java:137-140 | the dto of every order, one per order |
| SellerService.SellerSavedKeepsValid | backend/store-manager/src/main/java/com/dietergandalf/store_manager/service/SellerService.java:60 | saving a new seller keeps the constraints |
| SellerService.SellerDeletedKeepsValid | backend/store-manager/src/main/java/com/dietergandalf/store_manager/service/SellerService.java:78 | deleting a seller keeps the constraints |
| SellerService.RegisteredEmailTaken | backend/store-manager/src/main/java/com/dietergandalf/store_manager/service/SellerService.java:55-60 | once a seller is saved its email is taken, so registering the same request again fails |
| SellerService.SavedThenDeleted | backend/store-manager/src/main/java/com/dietergandalf/store_manager/service/SellerService.java:60-78 | deleting the seller just saved restores the seller table; only the id stays used |
| SellerService.CreateSeller | backend/store-manager/src/main/java/com/dietergandalf/store_manager/service/SellerService.java:54-62 | fails with "Email already exists" and creates nothing exactly when the email is taken; otherwise saves the request's profile under the next id and returns its dto with no stocks and no stand |
| SellerService.SaveSeller | backend/store-manager/src/main/java/com/dietergandalf/store_manager/service/SellerService.java:60 | `sellerRepository.save` under the next id |
| SellerService.DeleteSeller | backend/store-manager/src/main/java/com/dietergandalf/store_manager/service/SellerService.java:76-82 | true exactly when the seller exists, and then the seller is deleted; false changes nothing |
| SellerService.ProductAddedKeepsValid | backend/store-manager/src/main/java/com/dietergandalf/store_manager/service/SellerService.java:94-99 | saving the product and its stock keeps the constraints |
| SellerService.AddedStock | backend/store-manager/src/main/java/com/dietergandalf/store_manager/service/SellerService.java:94-101 | the new stock is the seller's, of the new product, holding initialStock or 0; its dto shows the request's product and the seller |
| SellerService.SellerStockIds | backend/store-manager/src/main/java/com/dietergandalf/store_manager/repository/ProductStockRepository.java:16-17 | every listed stock belongs to the seller, ascending |
| SellerService.SellerStockIdsExactly | backend/store-manager/src/main/java/com/dietergandalf/store_manager/repository/ProductStockRepository.java:16-17 | the scan lists exactly the seller's stocks |
| SellerService.AddedProductListed | backend/store-manager/src/main/java/com/dietergandalf/store_manager/service/SellerService.java:84-107 | after addProduct the seller's list is the old list followed by the new stock; other sellers' lists are as they were |
| SellerService.GetSellerProducts | backend/store-manager/src/main/java/com/dietergandalf/store_manager/service/SellerService.java:104-107 | one dto per stock of the seller, in scan order; each shows the seller when the seller exists |
| SellerService.SaveProduct | backend/store-manager/src/main/java/com/dietergandalf/store_manager/service/SellerService.java:95 | `productRepository.save` under the next id |
| SellerService.SaveStock | backend/store-manager/src/main/java/com/dietergandalf/store_manager/service/SellerService.java:99 | `productStockRepository.save` under the next id |
| SellerService.AddProduct | backend/store-manager/src/main/java/com/dietergandalf/store_manager/service/SellerService.java:84-102 | fails with "Seller not found" and creates nothing exactly for an unknown seller; otherwise creates one product and one stock of it for that seller and returns the stock's dto |
| SellerService.PriceSet | backend/store-manager/src/main/java/com/dietergandalf/store_manager/service/SellerService.java:158-160 | a price change keeps every stock row; every stock of that product shows the new price, all others keep their product |
| SellerService.PriceSetKeepsValid | backend/store-manager/src/main/java/com/dietergandalf/store_manager/service/SellerService.java:158-160 | changing a price keeps the constraints |
| SellerService.StockRemovedKeepsValid | backend/store-manager/src/main/java/com/dietergandalf/store_manager/service/SellerService.java:141 | deleting a stock no row refers to keeps the constraints |
| SellerService.AmountSetDto | backend/store-manager/src/main/java/com/dietergandalf/store_manager/service/SellerService.java:122-125 | a new amount shows in that stock's dto as that amount and nothing else; no other stock changes; the later of two amounts wins |
| SellerService.PriceSetDto | backend/store-manager/src/main/java/com/dietergandalf/store_manager/service/SellerService.java:158-162 | a new price shows in the stock's dto as the product's price and nothing else; the amount is unchanged |
| SellerService.AddedThenRemoved | backend/store-manager/src/main/java/com/dietergandalf/store_manager/service/SellerService.java:84-143 | removing the stock addProduct just made leaves the product row behind |
| SellerService.UpdateProductStock | backend/store-manager/src/main/java/com/dietergandalf/store_manager/service/SellerService.java:109-126 | fails with "Product stock not found" or "Product does not belong to this seller", saving nothing; otherwise sets the amount to the given value with no lower bound and returns the dto |
| SellerService.UpdateProductPrice | backend/store-manager/src/main/java/com/dietergandalf/store_manager/service/SellerService.java:145-163 | the same two failures, saving nothing; otherwise changes only the product's price and returns the stock's dto |
| SellerService.RemoveProduct | backend/store-manager/src/main/java/com/dietergandalf/store_manager/service/SellerService.java:128-143 | false with no change exactly for an unknown stock; fails for another seller's stock, or one still referenced, changing nothing; otherwise deletes only that stock and answers true |

## Left out

- The REST controllers, HTTP status mapping, Spring wiring and the OpenAPI configuration are not part of this model. They are framework plumbing around the services.
- Transactions and concurrency are not modelled. Every operation runs alone, and its contract states atomicity directly: a failure leaves the database unchanged. The race between two checkouts on one stock is out of scope.
- Prices and totals are `Double` in the source. The model uses `int` (for example cents), so rounding is not modelled.
- The clock: `LocalDateTime.now()` in `fromCartItemsAndRequest` is the parameter `now`. An order date is an `int`.
- Ids: one counter, `nextId`, is shared by every table. Database identity columns are independent per table; the model only relies on each new id being unused.
- Query order: the source leaves the order of `findByCart`, `findByAmountGreaterThan`, `findBySellerPersonId` and `findAll` to the database. The model scans in ascending id order.
- OrderService.CustomerOrders: orders with the same orderDate come in an order the model fixes (insertion before the first order dated no later). SQL leaves it open, and the contract states only newest-first and permutation.
- JPA lazy loading, cascades and orphan removal are not modelled. The store's tables are read directly.
- `cartOwners`, the reverse of `carts`, stands for the `ShoppingCart.customer` side of the one-to-one link.
- The `ProductStock` seller: the entity as written has no seller field. The model gives each stock a `sellerId`, as the services and mappers use it.
- SellerService.RemoveProduct: the `StockReferenced` failure stands for the database's foreign-key constraint when a cart item or order item still names the stock. No Java code raises it.
- SellerService.DeleteSeller: deleting a seller whose stocks still point at it is not refused. No foreign key from a stock to its seller is modelled, because the entity shows no such mapping.
- Null requests (`registerRequest == null` in `createSeller`, `productRequest == null` in `addProduct`) throw a NullPointerException in the source. The services take non-null request values.
- Null entities handed to the mappers: the `toDto` methods that return null for a null entity model that with an `Option` or nullable (`Customer?`) argument, and so does `OwnerMapper.UpdateOwnerFromDto`, the only update that guards null (OwnerMapper.java:63). The other mappers throw on null, and the model takes a value for them instead: `OrderItemMapper.fromCartItem(null, …)` throws at `cartItem.getProductStock()` (OrderItemMapper.java:41), and every list mapper (`toDtoList`, `fromCartItems`) throws on a null list at `stream()`.
- CustomerMapper.UpdateFromDto: a null `dto` throws a NullPointerException at its first getter (CustomerMapper.java:64), and a null `customer` throws at the first setter once any field is given (CustomerMapper.java:65). The model takes a non-null customer and request.
- SellerMapper.UpdateFromDto: likewise, a null `dto` throws at SellerMapper.java:63 and a null `seller` at the first setter once any field is given (SellerMapper.java:64). The model takes a non-null seller and request.
- SellerService.UpdateProductPrice: a null `newPrice` (SellerService.java:145) passes both checks and is stored as the product's price (SellerService.java:159); so is a null `price` in `addProduct`'s request (CreateProductRequestDto.java:15, stored at ProductMapper.java:65). Neither is refused there; such a price makes a later cart-item or order-item dto throw on unboxing at the `totalPrice` product (CartItemMapper.java:27, OrderItemMapper.java:28). The model takes an `int` price in both operations, so a product always has a price.
- Quantities and amounts are unchecked in the source. `addToCart` accepts zero or negative quantities and `updateProductStock` any amount. The model adds no precondition and claims no lower bound. Checkout keeps a stock non-negative only while the difference fits an `int` (OrderService.CheckoutStocks); OrderService.MinQuantityWrapsStock shows a stock that a wrapped subtraction drives negative.
- Parameters that are Java `int`s (quantities, amounts) are unbounded integers in the model, not restricted to the `int` range. Only the arithmetic on them wraps.
- `updateCartItemQuantity` with a null `newQuantity` fails on unboxing in the source. The model takes an `int`.
- CustomerService.AddToCart: a null `addToCartRequest` throws a NullPointerException once the customer is found (CustomerService.java:106); a null product stock id makes `findById` throw there; a null quantity throws on unboxing at the stock check (CustomerService.java:114). The model takes a non-null request with an id and an `int` quantity.
- OrderService.Checkout: a null `checkoutRequest` throws a NullPointerException in `fromCartItemsAndRequest` (OrderMapper.java:56), after the stock validation. The model takes a non-null request.
- SellerService.UpdateProductStock: a null `newQuantity` throws on unboxing at `setAmount` (SellerService.java:122), after both checks. The model takes an `int`.
- The other service operations (`getAllCustomers`, `getCustomerById`, `createCustomer`, `updateCustomer`, `deleteCustomer`, `getAllSellers`, `getSellerById`, `updateSeller`, the whole `OwnerService`) are outside the cart, checkout and stock core.
- The login, register and changePassword stubs of the person entities, `Owner.getRent` (a constant 0, modelled as the dto's rent) and the payment classes are not modelled.
- Stand, the `OrderRepository` queries other than the customer query, and e-mail matching by database collation are not modelled.
- The frontend is not part of this model.

## Findings

| source | as written | input that shows it | evidently intended | confidence | as-written member | corrected member |
|---|---|---|---|---|---|---|
| backend/store-manager/src/main/java/com/dietergandalf/store_manager/util/OwnerMapper.java:31-36 | `toDto` falls back to an empty stand-id list when `getStands()` is null, but the same builder then calls `owner.hasAvailableStand()`, which calls `stands.size()` (model/Owner.java:27-30) | an `Owner` whose `stands` is null, such as one fresh from `fromRegisterRequest`; `toDtoList` (OwnerMapper.java:40-44) maps `toDto` and throws on such an owner too | the dto of such an owner has no stand ids and `hasAvailableStands` false; the model's OwnerMapper.ToDtoList maps the corrected `ToDto` | not executed | OwnerMapper.NullStandsThrow | OwnerMapper.ToDto |

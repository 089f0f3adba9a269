/** `SellerService`: registering and deleting sellers, and a seller's
    products: adding a product with its stock, listing the seller's stocks,
    re-stocking, re-pricing and removing a stock. */
module SellerService {
  import opened Base
  import opened Persons
  import opened Schema
  import opened Repositories
  import SellerMapper
  import ProductMapper

  // ---------------------------------------------------------------------
  // Registration and deletion
  // ---------------------------------------------------------------------

  /** `sellerRepository.existsByEmail`: some seller has this email (a null
      email matches a seller whose email is null). */
  predicate EmailTaken(t: Tables, email: NString) {
    exists k :: k in t.sellers && t.sellers[k].email == email
  }

  /** `sellerRepository.save` of a new seller: its profile under the next id. */
  function SellerSaved(t: Tables, p: Profile): Tables {
    t.(sellers := t.sellers[t.nextId := p], nextId := t.nextId + 1)
  }

  /** `sellerRepository.deleteById`: the seller's row gone, if there was one. */
  function SellerDeleted(t: Tables, sellerId: Id): Tables {
    t.(sellers := t.sellers - {sellerId})
  }

  lemma SellerSavedKeepsValid(t: Tables, p: Profile)
    requires Valid(t)
    ensures Valid(SellerSaved(t, p))
  {
  }

  lemma SellerDeletedKeepsValid(t: Tables, sellerId: Id)
    requires Valid(t)
    ensures Valid(SellerDeleted(t, sellerId))
  {
  }

  /** Once a seller is saved its email is taken, so registering the same
      request again fails. */
  lemma RegisteredEmailTaken(t: Tables, d: RegisterRequest)
    ensures EmailTaken(SellerSaved(t, FromRegister(d)), d.email)
  {
    assert SellerSaved(t, FromRegister(d)).sellers[t.nextId].email == d.email;
  }

  /** Deleting the seller just saved gives back the old tables, except that
      the id stays used. */
  lemma SavedThenDeleted(t: Tables, p: Profile)
    requires KeysBelow(t.sellers, t.nextId)
    ensures SellerDeleted(SellerSaved(t, p), t.nextId) == t.(nextId := t.nextId + 1)
  {
    assert t.sellers[t.nextId := p] - {t.nextId} == t.sellers;
  }

  /** `createSeller`: fails with "Email already exists", saving nothing, when
      some seller has the request's email; otherwise saves a seller with the
      request's profile under the next id and returns its dto, which lists
      no product stocks and no stand. */
  method CreateSeller(db: Store, d: RegisterRequest) returns (r: Result<SellerMapper.SellerDto, Error>)
    requires db.Valid()
    modifies db
    ensures db.Valid()
    ensures r.Err? <==> EmailTaken(old(db.State()), d.email)
    ensures r.Err? ==> unchanged(db) && r.error == EmailExists
    ensures r.Ok? ==> db.State() == SellerSaved(old(db.State()), FromRegister(d))
    ensures r.Ok? ==> r.value == SellerMapper.Dto(Some(old(db.nextId)), FromRegister(d), None, None)
  {
    if exists k :: k in db.sellers && db.sellers[k].email == d.email {
      return Err(EmailExists);
    }
    var s := SellerMapper.FromRegisterRequest(Some(d));
    SellerSavedKeepsValid(db.State(), s.profile);
    var sellerId := SaveSeller(db, s.profile);
    s.personId := Some(sellerId);
    var dto := SellerMapper.ToDto(s);
    r := Ok(dto.value);
  }

  /** `sellerRepository.save` of a new seller; the id it was given. */
  method SaveSeller(db: Store, p: Profile) returns (sellerId: Id)
    modifies db
    ensures sellerId == old(db.nextId)
    ensures db.State() == SellerSaved(old(db.State()), p)
  {
    sellerId := db.nextId;
    db.sellers := db.sellers[sellerId := p];
    db.nextId := db.nextId + 1;
  }

  /** `deleteSeller`: deletes the seller and answers true exactly when the
      seller exists; otherwise answers false and changes nothing. */
  method DeleteSeller(db: Store, sellerId: Id) returns (deleted: bool)
    requires db.Valid()
    modifies db
    ensures db.Valid()
    ensures deleted <==> sellerId in old(db.sellers)
    ensures !deleted ==> unchanged(db)
    ensures db.State() == SellerDeleted(old(db.State()), sellerId)
  {
    if sellerId in db.sellers {
      SellerDeletedKeepsValid(db.State(), sellerId);
      db.sellers := db.sellers - {sellerId};
      return true;
    }
    assert db.sellers - {sellerId} == db.sellers;
    return false;
  }

  // ---------------------------------------------------------------------
  // Adding and listing products
  // ---------------------------------------------------------------------

  /** `productRepository.save` of a new product, under the next id. */
  function ProductSaved(t: Tables, p: Product): Tables {
    t.(products := t.products[t.nextId := p.(id := t.nextId)], nextId := t.nextId + 1)
  }

  /** `productStockRepository.save` of a new stock, under the next id. */
  function StockSaved(t: Tables, s: ProductStock): Tables {
    t.(stocks := t.stocks[t.nextId := s.(id := t.nextId)], nextId := t.nextId + 1)
  }

  /** The tables after `addProduct` succeeds: the request's product saved
      under the next id, then a stock of it for the seller saved under the id
      after that. */
  function ProductAdded(t: Tables, sellerId: Id, req: ProductMapper.CreateProductRequest): Tables {
    var p := ProductMapper.FromCreateRequest(Some(req)).value;
    StockSaved(ProductSaved(t, p), ProductMapper.CreateProductStock(t.nextId, sellerId, req.initialStock))
  }

  lemma ProductAddedKeepsValid(t: Tables, sellerId: Id, req: ProductMapper.CreateProductRequest)
    requires Valid(t)
    ensures Valid(ProductAdded(t, sellerId, req))
  {
  }

  /** The new stock of `addProduct`: the seller's, of the new product, holding
      the request's initial stock or none when it is not given; its dto shows
      the request's product and the seller. */
  lemma AddedStock(t: Tables, sellerId: Id, req: ProductMapper.CreateProductRequest)
    requires sellerId in t.sellers
    ensures var u := ProductAdded(t, sellerId, req);
      t.nextId + 1 in u.stocks &&
      u.stocks[t.nextId + 1] == ProductStock(t.nextId + 1, t.nextId, sellerId, req.initialStock.GetOr(0))
    ensures var u := ProductAdded(t, sellerId, req);
      ProductMapper.ToStockDto(u, Some(u.stocks[t.nextId + 1])) ==
        Some(ProductMapper.ProductStockDto(t.nextId + 1,
               Some(ProductMapper.ProductDto(t.nextId, req.name, req.description, req.price)),
               Some(sellerId), Some(FullName(t.sellers[sellerId].firstName, t.sellers[sellerId].lastName)),
               req.initialStock.GetOr(0)))
  {
  }

  /** The filter of `findBySellerPersonId`: the stock is the seller's. */
  function OwnedBy(sellerId: Id): ProductStock -> bool {
    (s: ProductStock) => s.sellerId == sellerId
  }

  /** `productStockRepository.findBySellerPersonId`: the ids of the seller's
      stocks, ascending. */
  function SellerStockIds(t: Tables, sellerId: Id): (r: seq<Id>)
    ensures forall i :: 0 <= i < |r| ==> r[i] in t.stocks && t.stocks[r[i]].sellerId == sellerId
    ensures forall i, j :: 0 <= i < j < |r| ==> r[i] < r[j]
  {
    var r := KeysWhere(t.stocks, OwnedBy(sellerId), t.nextId);
    assert forall i :: 0 <= i < |r| ==> r[i] in r;
    r
  }

  /** When every stock id is below `nextId`, the scan lists exactly the
      seller's stocks. */
  lemma SellerStockIdsExactly(t: Tables, sellerId: Id)
    requires KeysBelow(t.stocks, t.nextId)
    ensures forall k :: k in SellerStockIds(t, sellerId) <==> k in t.stocks && t.stocks[k].sellerId == sellerId
  {
  }

  /** After `addProduct` the seller's stock list is the old one followed by the
      new stock; every other seller's list is as it was. */
  lemma AddedProductListed(t: Tables, sellerId: Id, req: ProductMapper.CreateProductRequest, other: Id)
    requires KeysBelow(t.stocks, t.nextId)
    ensures SellerStockIds(ProductAdded(t, sellerId, req), sellerId) == SellerStockIds(t, sellerId) + [t.nextId + 1]
    ensures other != sellerId ==> SellerStockIds(ProductAdded(t, sellerId, req), other) == SellerStockIds(t, other)
  {
    var s := ProductMapper.CreateProductStock(t.nextId, sellerId, req.initialStock).(id := t.nextId + 1);
    assert ProductAdded(t, sellerId, req).stocks == t.stocks[t.nextId + 1 := s];
    KeysWhereAdded(t.stocks, OwnedBy(sellerId), t.nextId, t.nextId + 1, s);
    KeysWhereAdded(t.stocks, OwnedBy(other), t.nextId, t.nextId + 1, s);
  }

  /** `getSellerProducts`: the dtos of the seller's stocks in scan order; each
      shows the seller when the seller exists. */
  function GetSellerProducts(t: Tables, sellerId: Id): (r: seq<ProductMapper.ProductStockDto>)
    ensures |r| == |SellerStockIds(t, sellerId)|
    ensures forall i :: 0 <= i < |r| ==>
      Some(r[i]) == ProductMapper.ToStockDto(t, Some(t.stocks[SellerStockIds(t, sellerId)[i]]))
    ensures sellerId in t.sellers ==> forall i :: 0 <= i < |r| ==> r[i].sellerId == Some(sellerId)
  {
    ProductMapper.ToStockDtoList(t, RowsAt(t.stocks, SellerStockIds(t, sellerId)))
  }

  /** `productRepository.save` of a new product; the id it was given. */
  method SaveProduct(db: Store, p: Product) returns (productId: Id)
    modifies db
    ensures productId == old(db.nextId)
    ensures db.State() == ProductSaved(old(db.State()), p)
  {
    productId := db.nextId;
    db.products := db.products[productId := p.(id := productId)];
    db.nextId := db.nextId + 1;
  }

  /** `productStockRepository.save` of a new stock; the id it was given. */
  method SaveStock(db: Store, s: ProductStock) returns (stockId: Id)
    modifies db
    ensures stockId == old(db.nextId)
    ensures db.State() == StockSaved(old(db.State()), s)
  {
    stockId := db.nextId;
    db.stocks := db.stocks[stockId := s.(id := stockId)];
    db.nextId := db.nextId + 1;
  }

  /** `addProduct`: fails with "Seller not found", creating nothing, for an
      unknown seller; otherwise the tables become `ProductAdded` of the old
      ones and the dto of the new stock is returned. */
  method AddProduct(db: Store, sellerId: Id, req: ProductMapper.CreateProductRequest)
    returns (r: Result<ProductMapper.ProductStockDto, Error>)
    requires db.Valid()
    modifies db
    ensures db.Valid()
    ensures r.Err? <==> sellerId !in old(db.sellers)
    ensures r.Err? ==> unchanged(db) && r.error == SellerNotFound
    ensures r.Ok? ==> db.State() == ProductAdded(old(db.State()), sellerId, req)
    ensures r.Ok? ==> (old(db.nextId) + 1 in db.stocks &&
      Some(r.value) == ProductMapper.ToStockDto(db.State(), Some(db.stocks[old(db.nextId) + 1])))
  {
    if sellerId !in db.sellers {
      return Err(SellerNotFound);
    }
    ProductAddedKeepsValid(db.State(), sellerId, req);
    var product := ProductMapper.FromCreateRequest(Some(req));
    var productId := SaveProduct(db, product.value);
    var stockId := SaveStock(db, ProductMapper.CreateProductStock(productId, sellerId, req.initialStock));
    r := Ok(ProductMapper.ToStockDto(db.State(), Some(db.stocks[stockId])).value);
  }

  // ---------------------------------------------------------------------
  // Changing and removing a seller's stock
  // ---------------------------------------------------------------------

  /** Why a change to stock `stockId` on behalf of `sellerId` is refused:
      the stock is unknown, or it is another seller's. */
  function OwnershipError(t: Tables, sellerId: Id, stockId: Id): Option<Error> {
    if stockId !in t.stocks then Some(StockNotFound)
    else if t.stocks[stockId].sellerId != sellerId then Some(NotSellersProduct)
    else None
  }

  /** One stock's amount replaced; nothing else changes. */
  function AmountSet(t: Tables, stockId: Id, amount: int): Tables
    requires stockId in t.stocks
  {
    t.(stocks := t.stocks[stockId := t.stocks[stockId].(amount := amount)])
  }

  /** The price of the product of stock `stockId` replaced; nothing else
      changes, and every stock of that product now shows the new price. */
  function PriceSet(t: Tables, stockId: Id, price: int): (r: Tables)
    requires stockId in t.stocks && t.stocks[stockId].productId in t.products
    ensures r.stocks == t.stocks
    ensures forall j :: j in t.stocks && t.stocks[j].productId == t.stocks[stockId].productId ==>
      ProductMapper.ProductOf(r, t.stocks[j]) == Some(t.products[t.stocks[stockId].productId].(price := price))
    ensures forall j :: j in t.stocks && t.stocks[j].productId != t.stocks[stockId].productId ==>
      ProductMapper.ProductOf(r, t.stocks[j]) == ProductMapper.ProductOf(t, t.stocks[j])
  {
    var p := t.stocks[stockId].productId;
    t.(products := t.products[p := t.products[p].(price := price)])
  }

  /** `productStockRepository.delete`: the stock's row gone. */
  function StockRemoved(t: Tables, stockId: Id): Tables {
    t.(stocks := t.stocks - {stockId})
  }

  /** Some cart item or order item still names the stock, so the database's
      foreign keys refuse to delete it. */
  predicate StockInUse(t: Tables, stockId: Id) {
    || (exists k :: k in t.cartItems && t.cartItems[k].stockId == stockId)
    || (exists k :: k in t.orderItems && t.orderItems[k].stockId == stockId)
  }

  lemma PriceSetKeepsValid(t: Tables, stockId: Id, price: int)
    requires Valid(t) && stockId in t.stocks
    ensures Valid(PriceSet(t, stockId, price))
  {
  }

  lemma StockRemovedKeepsValid(t: Tables, stockId: Id)
    requires Valid(t) && !StockInUse(t, stockId)
    ensures Valid(StockRemoved(t, stockId))
  {
  }

  /** A new amount shows in the stock's dto as that amount and nothing else;
      no other stock changes; the last of two amounts set wins. */
  lemma AmountSetDto(t: Tables, stockId: Id, amount: int, later: int)
    requires stockId in t.stocks
    ensures var u := AmountSet(t, stockId, amount);
      ProductMapper.ToStockDto(u, Some(u.stocks[stockId])).value ==
        ProductMapper.ToStockDto(t, Some(t.stocks[stockId])).value.(amount := amount)
    ensures forall j :: j in t.stocks && j != stockId ==> AmountSet(t, stockId, amount).stocks[j] == t.stocks[j]
    ensures AmountSet(AmountSet(t, stockId, amount), stockId, later) == AmountSet(t, stockId, later)
  {
  }

  /** A new price shows in the stock's dto as the product's price and
      nothing else: in particular its amount is unchanged. */
  lemma PriceSetDto(t: Tables, stockId: Id, price: int)
    requires stockId in t.stocks && t.stocks[stockId].productId in t.products
    ensures var u := PriceSet(t, stockId, price); var d := ProductMapper.ToStockDto(t, Some(t.stocks[stockId])).value;
      ProductMapper.ToStockDto(u, Some(u.stocks[stockId])).value ==
        d.(product := Some(d.product.value.(price := price)))
  {
  }

  /** Removing the stock `addProduct` just created leaves the product row
      behind: only the stock goes. */
  lemma AddedThenRemoved(t: Tables, sellerId: Id, req: ProductMapper.CreateProductRequest)
    requires KeysBelow(t.stocks, t.nextId)
    ensures StockRemoved(ProductAdded(t, sellerId, req), t.nextId + 1) ==
      ProductSaved(t, ProductMapper.FromCreateRequest(Some(req)).value).(nextId := t.nextId + 2)
    ensures t.nextId in StockRemoved(ProductAdded(t, sellerId, req), t.nextId + 1).products
  {
    var u := ProductAdded(t, sellerId, req);
    assert u.stocks - {t.nextId + 1} == t.stocks;
  }

  /** `updateProductStock`: fails with "Product stock not found" or "Product
      does not belong to this seller", saving nothing; otherwise sets the
      stock's amount to the given value, negative or not, and returns the
      stock's dto. */
  method UpdateProductStock(db: Store, sellerId: Id, stockId: Id, amount: int)
    returns (r: Result<ProductMapper.ProductStockDto, Error>)
    requires db.Valid()
    modifies db
    ensures db.Valid()
    ensures r.Err? <==> OwnershipError(old(db.State()), sellerId, stockId).Some?
    ensures r.Err? ==> unchanged(db) && Some(r.error) == OwnershipError(old(db.State()), sellerId, stockId)
    ensures r.Ok? ==> stockId in old(db.stocks) && db.State() == AmountSet(old(db.State()), stockId, amount)
    ensures r.Ok? ==> Some(r.value) == ProductMapper.ToStockDto(db.State(), Some(db.stocks[stockId]))
  {
    if stockId !in db.stocks {
      return Err(StockNotFound);
    }
    if db.stocks[stockId].sellerId != sellerId {
      return Err(NotSellersProduct);
    }
    db.SetAmount(stockId, amount);
    r := Ok(ProductMapper.ToStockDto(db.State(), Some(db.stocks[stockId])).value);
  }

  /** `updateProductPrice`: the same two failures, saving nothing; otherwise
      sets the price of the stock's product and returns the stock's dto. */
  method UpdateProductPrice(db: Store, sellerId: Id, stockId: Id, price: int)
    returns (r: Result<ProductMapper.ProductStockDto, Error>)
    requires db.Valid()
    modifies db
    ensures db.Valid()
    ensures r.Err? <==> OwnershipError(old(db.State()), sellerId, stockId).Some?
    ensures r.Err? ==> unchanged(db) && Some(r.error) == OwnershipError(old(db.State()), sellerId, stockId)
    ensures r.Ok? ==> (stockId in old(db.stocks) && old(db.stocks[stockId].productId) in old(db.products) &&
      db.State() == PriceSet(old(db.State()), stockId, price))
    ensures r.Ok? ==> Some(r.value) == ProductMapper.ToStockDto(db.State(), Some(db.stocks[stockId]))
  {
    if stockId !in db.stocks {
      return Err(StockNotFound);
    }
    var stock := db.stocks[stockId];
    if stock.sellerId != sellerId {
      return Err(NotSellersProduct);
    }
    PriceSetKeepsValid(db.State(), stockId, price);
    db.products := db.products[stock.productId := db.products[stock.productId].(price := price)];
    r := Ok(ProductMapper.ToStockDto(db.State(), Some(stock)).value);
  }

  /** `removeProduct`: false, changing nothing, for an unknown stock; fails
      with "Product does not belong to this seller" for another seller's
      stock, and with a foreign-key violation for a stock some cart item or
      order item names, changing nothing; otherwise deletes the stock (and
      only the stock) and answers true. */
  method RemoveProduct(db: Store, sellerId: Id, stockId: Id) returns (r: Result<bool, Error>)
    requires db.Valid()
    modifies db
    ensures db.Valid()
    ensures r == Ok(false) <==> stockId !in old(db.stocks)
    ensures r == Err(NotSellersProduct) <==> stockId in old(db.stocks) && old(db.stocks[stockId].sellerId) != sellerId
    ensures r == Err(StockReferenced) <==>
      OwnershipError(old(db.State()), sellerId, stockId).None? && StockInUse(old(db.State()), stockId)
    ensures r.Err? ==> r.error == NotSellersProduct || r.error == StockReferenced
    ensures r != Ok(true) ==> unchanged(db)
    ensures r == Ok(true) ==> db.State() == StockRemoved(old(db.State()), stockId)
  {
    if stockId !in db.stocks {
      return Ok(false);
    }
    if db.stocks[stockId].sellerId != sellerId {
      return Err(NotSellersProduct);
    }
    if (exists k :: k in db.cartItems && db.cartItems[k].stockId == stockId) ||
       (exists k :: k in db.orderItems && db.orderItems[k].stockId == stockId) {
      return Err(StockReferenced);
    }
    StockRemovedKeepsValid(db.State(), stockId);
    db.stocks := db.stocks - {stockId};
    r := Ok(true);
  }
}

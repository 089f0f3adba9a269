/** `ProductMapper`: products and product stocks to their dtos, a creation
    request to a new product, and a new stock row binding a product to a seller. */
module ProductMapper {
  import opened Base
  import opened Persons
  import opened Schema

  /** `ProductDto`. */
  datatype ProductDto = ProductDto(productId: Id, name: NString, description: NString, price: int)

  /** `ProductStockDto`: the stock's product as a dto, and its seller's id and
      full name, both null when the stock has no seller. */
  datatype ProductStockDto = ProductStockDto(productStockId: Id, product: Option<ProductDto>,
                                             sellerId: Option<Id>, sellerName: Option<string>,
                                             amount: int)

  /** `CreateProductRequestDto`. */
  datatype CreateProductRequest = CreateProductRequest(name: NString, description: NString,
                                                       price: int, initialStock: Option<int>)

  /** `toDto`: null for null, otherwise every column copied. */
  function ToDto(p: Option<Product>): (r: Option<ProductDto>)
    ensures r.None? <==> p.None?
    ensures p.Some? ==> (r.value.productId == p.value.id && r.value.name == p.value.name
      && r.value.description == p.value.description && r.value.price == p.value.price)
  {
    match p
    case None => None
    case Some(x) => Some(ProductDto(x.id, x.name, x.description, x.price))
  }

  /** The product a stock row refers to, if the table holds it. */
  function ProductOf(t: Tables, s: ProductStock): Option<Product> {
    if s.productId in t.products then Some(t.products[s.productId]) else None
  }

  /** `toStockDto`: null for null; the seller's id and "first last" name when
      the stock's seller exists, both null otherwise. */
  function ToStockDto(t: Tables, s: Option<ProductStock>): (r: Option<ProductStockDto>)
    ensures r.None? <==> s.None?
    ensures s.Some? ==> r.value.productStockId == s.value.id && r.value.amount == s.value.amount
    ensures s.Some? ==> r.value.product == ToDto(ProductOf(t, s.value))
    ensures s.Some? ==> (r.value.sellerId.Some? <==> s.value.sellerId in t.sellers)
    ensures s.Some? ==> (r.value.sellerName.Some? <==> s.value.sellerId in t.sellers)
    ensures s.Some? && s.value.sellerId in t.sellers ==>
      r.value.sellerId == Some(s.value.sellerId) &&
      r.value.sellerName == Some(FullName(t.sellers[s.value.sellerId].firstName,
                                          t.sellers[s.value.sellerId].lastName))
  {
    match s
    case None => None
    case Some(x) =>
      var seller := if x.sellerId in t.sellers then Some(t.sellers[x.sellerId]) else None;
      Some(ProductStockDto(x.id, ToDto(ProductOf(t, x)),
                           if seller.Some? then Some(x.sellerId) else None,
                           if seller.Some? then Some(FullName(seller.value.firstName, seller.value.lastName)) else None,
                           x.amount))
  }

  /** `toDtoList`: one dto per product, in the same order. */
  function ToDtoList(ps: seq<Product>): (r: seq<ProductDto>)
    ensures |r| == |ps|
    ensures forall i :: 0 <= i < |ps| ==> Some(r[i]) == ToDto(Some(ps[i]))
  {
    if ps == [] then [] else [ToDto(Some(ps[0])).value] + ToDtoList(ps[1..])
  }

  /** `toStockDtoList`: one dto per stock, in the same order. */
  function ToStockDtoList(t: Tables, ss: seq<ProductStock>): (r: seq<ProductStockDto>)
    ensures |r| == |ss|
    ensures forall i :: 0 <= i < |ss| ==> Some(r[i]) == ToStockDto(t, Some(ss[i]))
  {
    if ss == [] then [] else [ToStockDto(t, Some(ss[0])).value] + ToStockDtoList(t, ss[1..])
  }

  /** `fromCreateRequest`: null for null, otherwise an unsaved product with the
      request's name, description and price. */
  function FromCreateRequest(d: Option<CreateProductRequest>): (r: Option<Product>)
    ensures r.None? <==> d.None?
    ensures d.Some? ==> (r.value.id == Unsaved && r.value.name == d.value.name
      && r.value.description == d.value.description && r.value.price == d.value.price)
  {
    match d
    case None => None
    case Some(x) => Some(Product(Unsaved, x.name, x.description, x.price))
  }

  /** `createProductStock`: an unsaved stock row for the product and seller,
      holding the initial stock, or none when it is not given. */
  function CreateProductStock(productId: Id, sellerId: Id, initialStock: Option<int>): (r: ProductStock)
    ensures r.id == Unsaved && r.productId == productId && r.sellerId == sellerId
    ensures initialStock.Some? ==> r.amount == initialStock.value
    ensures initialStock.None? ==> r.amount == 0
  {
    ProductStock(Unsaved, productId, sellerId, initialStock.GetOr(0))
  }

  /** Creating a product from a request and mapping it back gives the request's
      fields, with the id still unset. */
  lemma CreateThenDto(d: CreateProductRequest)
    ensures ToDto(FromCreateRequest(Some(d))) ==
      Some(ProductDto(Unsaved, d.name, d.description, d.price))
  {
  }
}

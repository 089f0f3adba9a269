/** `OrderMapper`: an order row with its items to a dto, and a checkout
    request with the cart's items to a new pending order. */
module OrderMapper {
  import opened Base
  import opened Persons
  import opened Schema
  import OrderItemMapper

  /** `CheckoutRequestDto`. */
  datatype CheckoutRequest = CheckoutRequest(shippingAddress: NString, billingAddress: NString,
                                             paymentMethod: NString, orderNotes: NString)

  /** `OrderDto`. */
  datatype OrderDto = OrderDto(orderId: Id, customerId: Id, customerName: string,
                               orderItems: seq<OrderItemMapper.OrderItemDto>, orderDate: int,
                               totalAmount: int, shippingAddress: NString, billingAddress: NString,
                               paymentMethod: NString, paymentStatus: NString, status: OrderStatus,
                               orderNotes: NString)

  /** What `toDto` dereferences: the order's customer and every item's stock and product. */
  predicate Renderable(t: Tables, o: Order) {
    && o.customerId in t.customers
    && OrderItemMapper.AllResolve(t)
    && OrderItemsKeyed(t.orderItems)
  }

  /** The items of an order, as `Order.orderItems` loads them. */
  function ItemsOf(t: Tables, o: Order): (r: seq<OrderItem>)
    requires Renderable(t, o)
    ensures forall x :: x in r ==> OrderItemMapper.Resolves(t, x) && x.orderId == o.id
  {
    ItemsOfOrderRows(t.orderItems, o.id, t.nextId);
    ItemsOfOrder(t.orderItems, o.id, t.nextId)
  }

  /** The dto of a (non-null) order: its columns, its customer's id and
      "first last" name, and the dtos of its items in table order. */
  function Render(t: Tables, o: Order): OrderDto
    requires Renderable(t, o)
  {
    var c := t.customers[o.customerId];
    OrderDto(o.id, o.customerId, FullName(c.firstName, c.lastName),
             OrderItemMapper.ToDtoList(t, ItemsOf(t, o)),
             o.orderDate, o.totalAmount, o.shippingAddress, o.billingAddress,
             o.paymentMethod, o.paymentStatus, o.status, o.orderNotes)
  }

  /** `toDto`: null for null; otherwise every column of the order copied, the
      customer's "first last" name, and one item dto per item of the order. */
  function ToDto(t: Tables, o: Option<Order>): (r: Option<OrderDto>)
    requires o.Some? ==> Renderable(t, o.value)
    ensures r.None? <==> o.None?
    ensures o.Some? ==> (r.value.orderId == o.value.id && r.value.customerId == o.value.customerId
      && r.value.orderDate == o.value.orderDate && r.value.totalAmount == o.value.totalAmount
      && r.value.status == o.value.status && r.value.paymentStatus == o.value.paymentStatus
      && r.value.shippingAddress == o.value.shippingAddress && r.value.billingAddress == o.value.billingAddress
      && r.value.paymentMethod == o.value.paymentMethod && r.value.orderNotes == o.value.orderNotes)
    ensures o.Some? ==>
      r.value.customerName == FullName(t.customers[o.value.customerId].firstName,
                                       t.customers[o.value.customerId].lastName)
    ensures o.Some? ==>
      r.value.orderItems == OrderItemMapper.ToDtoList(t, ItemsOf(t, o.value))
  {
    match o
    case None => None
    case Some(x) => Some(Render(t, x))
  }

  /** `toDtoList`: one dto per order, in the same order. */
  function ToDtoList(t: Tables, os: seq<Order>): (r: seq<OrderDto>)
    requires forall i :: 0 <= i < |os| ==> Renderable(t, os[i])
    ensures |r| == |os|
    ensures forall i :: 0 <= i < |os| ==> r[i] == Render(t, os[i])
  {
    seq(|os|, i requires 0 <= i < |os| => Render(t, os[i]))
  }

  /** `fromCartItemsAndRequest`: an unsaved order of the customer dated `now`,
      with the request's addresses, payment method and notes, pending in both
      payment and status, whose total is Σ quantity × priceAtTimeOfAdd. */
  function FromCartItemsAndRequest(customerId: Id, items: seq<CartItem>, req: CheckoutRequest,
                                   now: int): (r: Order)
    ensures r.id == Unsaved && r.customerId == customerId && r.orderDate == now
    ensures r.shippingAddress == req.shippingAddress && r.billingAddress == req.billingAddress
    ensures r.paymentMethod == req.paymentMethod && r.orderNotes == req.orderNotes
    ensures r.paymentStatus == Some("PENDING") && r.status == Pending
    ensures forall orderId :: r.totalAmount == OrderItemMapper.OrderTotal(OrderItemMapper.FromCartItems(items, orderId))
  {
    forall orderId ensures CartTotal(items) == OrderItemMapper.OrderTotal(OrderItemMapper.FromCartItems(items, orderId)) {
      OrderItemMapper.FromCartItemsTotal(items, orderId);
    }
    Order(Unsaved, customerId, now, CartTotal(items), req.shippingAddress, req.billingAddress,
          req.paymentMethod, Some("PENDING"), Pending, req.orderNotes)
  }
}

/** `CustomerMapper`: customer entity to dto, registration request to a new
    customer with a fresh cart, and the in-place partial profile update. */
module CustomerMapper {
  import opened Base
  import opened Persons

  /** `CustomerDto`: the person fields plus the id of the customer's cart. */
  datatype CustomerDto = CustomerDto(person: PersonDto, cartId: Option<Id>)

  /** `toDto`: null for a null customer; the cart id is null exactly when the
      customer has no cart. */
  function ToDto(c: Customer?): (r: Option<CustomerDto>)
    reads c, if c != null then {c.cart} else {}
    ensures r.None? <==> c == null
    ensures c != null ==> r.value.person == ToPersonDto(c.personId, c.profile)
    ensures c != null ==> (r.value.cartId.None? <==> c.cart == null)
    ensures c != null && c.cart != null ==> r.value.cartId == Some(c.cart.cartId)
  {
    if c == null then None
    else Some(CustomerDto(ToPersonDto(c.personId, c.profile),
                          if c.cart != null then Some(c.cart.cartId) else None))
  }

  /** `toDtoList`: one dto per customer, in the same order. */
  function ToDtoList(cs: seq<Customer>): (r: seq<CustomerDto>)
    reads set i | 0 <= i < |cs| :: cs[i], set i | 0 <= i < |cs| :: cs[i].cart
    ensures |r| == |cs|
    ensures forall i :: 0 <= i < |cs| ==> Some(r[i]) == ToDto(cs[i])
  {
    if cs == [] then [] else [ToDto(cs[0]).value] + ToDtoList(cs[1..])
  }

  /** `fromRegisterRequest`: null for a null request; otherwise a new customer
      with the request's profile and a new, unsaved cart whose customer is the
      new customer. */
  method FromRegisterRequest(d: Option<RegisterRequest>) returns (c: Customer?)
    ensures d.None? <==> c == null
    ensures c != null ==> fresh(c) && c.personId.None? && c.profile == FromRegister(d.value)
    ensures c != null ==> c.cart != null && fresh(c.cart) && c.cart.customer == c && c.cart.cartId == 0
  {
    if d.None? {
      return null;
    }
    var dto := d.value;
    c := new Customer();
    c.profile := c.profile.(firstName := dto.firstName);
    c.profile := c.profile.(lastName := dto.lastName);
    c.profile := c.profile.(dateOfBirth := dto.dateOfBirth);
    c.profile := c.profile.(phoneNumber := dto.phoneNumber);
    c.profile := c.profile.(email := dto.email);
    c.profile := c.profile.(password := dto.password);
    c.profile := c.profile.(address := FromAddressDto(dto.address));
    var cart := new ShoppingCart();
    cart.customer := c;
    c.cart := cart;
  }

  /** `updateFromDto`: overwrites, in place, exactly the profile fields the
      request carries; the id and the cart are left alone. */
  method UpdateFromDto(c: Customer, d: UpdateProfileRequest)
    modifies c
    ensures c.profile == Merge(old(c.profile), d)
    ensures c.personId == old(c.personId) && c.cart == old(c.cart)
  {
    if d.firstName.Some? {
      c.profile := c.profile.(firstName := d.firstName);
    }
    if d.lastName.Some? {
      c.profile := c.profile.(lastName := d.lastName);
    }
    if d.dateOfBirth.Some? {
      c.profile := c.profile.(dateOfBirth := d.dateOfBirth);
    }
    if d.phoneNumber.Some? {
      c.profile := c.profile.(phoneNumber := d.phoneNumber);
    }
    if d.email.Some? {
      c.profile := c.profile.(email := d.email);
    }
    if d.address.Some? {
      c.profile := c.profile.(address := FromAddressDto(d.address));
    }
  }
}

/** The person side of the domain: the fields every Customer, Seller and Owner
    shares (Person), their embedded Address, the request bodies that create or
    update them, and the entity objects the mappers read and write. */
module Persons {
  import opened Base

  /** The embedded `Address` value of a person. */
  datatype Address = Address(street: NString, postalCode: NString, city: NString,
                             province: NString, country: NString)

  /** The transfer form of an address; it has the same five fields. */
  datatype AddressDto = AddressDto(street: NString, postalCode: NString, city: NString,
                                   province: NString, country: NString)

  /** `toAddressDto`: a null address stays null, otherwise every field is copied. */
  function ToAddressDto(a: Option<Address>): (r: Option<AddressDto>)
    ensures r.None? <==> a.None?
    ensures a.Some? ==>
      && r.value.street == a.value.street && r.value.postalCode == a.value.postalCode
      && r.value.city == a.value.city && r.value.province == a.value.province && r.value.country == a.value.country
  {
    match a
    case None => None
    case Some(x) => Some(AddressDto(x.street, x.postalCode, x.city, x.province, x.country))
  }

  /** `fromAddressDto`: a null dto gives a null address, otherwise every field is copied. */
  function FromAddressDto(d: Option<AddressDto>): (r: Option<Address>)
    ensures r.None? <==> d.None?
    ensures d.Some? ==>
      && r.value.street == d.value.street && r.value.postalCode == d.value.postalCode
      && r.value.city == d.value.city && r.value.province == d.value.province && r.value.country == d.value.country
  {
    match d
    case None => None
    case Some(x) => Some(Address(x.street, x.postalCode, x.city, x.province, x.country))
  }

  /** Converting an address to its transfer form and back gives the same address. */
  lemma AddressRoundTrip(a: Option<Address>)
    ensures FromAddressDto(ToAddressDto(a)) == a
  {
  }

  /** Converting a transfer address to an address and back gives the same dto. */
  lemma AddressDtoRoundTrip(d: Option<AddressDto>)
    ensures ToAddressDto(FromAddressDto(d)) == d
  {
  }

  /** The columns of `Person` other than its id. */
  datatype Profile = Profile(firstName: NString, lastName: NString, dateOfBirth: NString,
                             phoneNumber: NString, address: Option<Address>,
                             email: NString, password: NString)

  /** The profile of a person object just created with `new`: every field null. */
  const EmptyProfile := Profile(None, None, None, None, None, None, None)

  /** `RegisterRequestDto`. */
  datatype RegisterRequest = RegisterRequest(firstName: NString, lastName: NString,
                                             dateOfBirth: NString, phoneNumber: NString,
                                             address: Option<AddressDto>, email: NString,
                                             password: NString, userType: NString)

  /** `UpdateProfileRequestDto`: every field is optional; there is no password field. */
  datatype UpdateProfileRequest = UpdateProfileRequest(firstName: NString, lastName: NString,
                                                       dateOfBirth: NString, phoneNumber: NString,
                                                       address: Option<AddressDto>,
                                                       email: NString)

  /** The profile that `fromRegisterRequest` gives a new person: the request's
      fields, its address converted, its password stored as given. */
  function FromRegister(d: RegisterRequest): (p: Profile)
    ensures p.firstName == d.firstName && p.lastName == d.lastName
    ensures p.dateOfBirth == d.dateOfBirth && p.phoneNumber == d.phoneNumber
    ensures p.email == d.email && p.password == d.password
    ensures ToAddressDto(p.address) == d.address
  {
    AddressDtoRoundTrip(d.address);
    Profile(d.firstName, d.lastName, d.dateOfBirth, d.phoneNumber,
            FromAddressDto(d.address), d.email, d.password)
  }

  /** The partial-update rule shared by the customer, seller and owner mappers:
      a field of the request that is non-null overwrites the profile's field,
      a null one leaves it alone. */
  function Merge(p: Profile, d: UpdateProfileRequest): (r: Profile)
  {
    Profile(if d.firstName.Some? then d.firstName else p.firstName,
            if d.lastName.Some? then d.lastName else p.lastName,
            if d.dateOfBirth.Some? then d.dateOfBirth else p.dateOfBirth,
            if d.phoneNumber.Some? then d.phoneNumber else p.phoneNumber,
            if d.address.Some? then FromAddressDto(d.address) else p.address,
            if d.email.Some? then d.email else p.email,
            p.password)
  }

  /** The request with every field null. */
  const NoChanges := UpdateProfileRequest(None, None, None, None, None, None)

  /** Field by field, a field the request carries is the request's value
      afterwards and a field it leaves null keeps the profile's value; the
      password is never touched. */
  lemma MergeOverwritesOnlyGiven(p: Profile, d: UpdateProfileRequest)
    ensures var r := Merge(p, d);
      && (d.firstName.Some? ==> r.firstName == d.firstName) && (d.firstName.None? ==> r.firstName == p.firstName)
      && (d.lastName.Some? ==> r.lastName == d.lastName) && (d.lastName.None? ==> r.lastName == p.lastName)
      && (d.dateOfBirth.Some? ==> r.dateOfBirth == d.dateOfBirth)
      && (d.dateOfBirth.None? ==> r.dateOfBirth == p.dateOfBirth)
      && (d.phoneNumber.Some? ==> r.phoneNumber == d.phoneNumber)
      && (d.phoneNumber.None? ==> r.phoneNumber == p.phoneNumber)
      && (d.email.Some? ==> r.email == d.email) && (d.email.None? ==> r.email == p.email)
      && (d.address.Some? ==> ToAddressDto(r.address) == d.address)
      && (d.address.None? ==> r.address == p.address)
      && r.password == p.password
  {
    AddressDtoRoundTrip(d.address);
  }

  /** An update that carries no field changes nothing. */
  lemma MergeNothing(p: Profile)
    ensures Merge(p, NoChanges) == p
  {
  }

  /** Applying the same update twice is the same as applying it once. */
  lemma MergeIdempotent(p: Profile, d: UpdateProfileRequest)
    ensures Merge(Merge(p, d), d) == Merge(p, d)
  {
  }

  /** The request whose non-null fields are those of `d2`, falling back to `d1`. */
  function Then(d1: UpdateProfileRequest, d2: UpdateProfileRequest): UpdateProfileRequest {
    UpdateProfileRequest(if d2.firstName.Some? then d2.firstName else d1.firstName,
                         if d2.lastName.Some? then d2.lastName else d1.lastName,
                         if d2.dateOfBirth.Some? then d2.dateOfBirth else d1.dateOfBirth,
                         if d2.phoneNumber.Some? then d2.phoneNumber else d1.phoneNumber,
                         if d2.address.Some? then d2.address else d1.address,
                         if d2.email.Some? then d2.email else d1.email)
  }

  /** Two successive updates have the effect of one combined update in which
      the later request wins field by field. */
  lemma MergeSequence(p: Profile, d1: UpdateProfileRequest, d2: UpdateProfileRequest)
    ensures Merge(Merge(p, d1), d2) == Merge(p, Then(d1, d2))
  {
  }

  /** The fields of `PersonDto` that all three person dtos share. The password
      is deliberately not among them. */
  datatype PersonDto = PersonDto(personId: Option<Id>, firstName: NString, lastName: NString,
                                 dateOfBirth: NString, phoneNumber: NString,
                                 address: Option<AddressDto>, email: NString)

  /** The common part of the person dtos, built from a person's id and profile. */
  function ToPersonDto(id: Option<Id>, p: Profile): (r: PersonDto)
    ensures r.personId == id && r.email == p.email
    ensures r.firstName == p.firstName && r.lastName == p.lastName
    ensures r.dateOfBirth == p.dateOfBirth && r.phoneNumber == p.phoneNumber
    ensures FromAddressDto(r.address) == p.address
  {
    AddressRoundTrip(p.address);
    PersonDto(id, p.firstName, p.lastName, p.dateOfBirth, p.phoneNumber,
              ToAddressDto(p.address), p.email)
  }

  /** The person dto does not depend on the password: two profiles that
      differ only in their password give the same dto. */
  lemma PersonDtoHidesPassword(id: Option<Id>, p: Profile, pw: NString)
    ensures ToPersonDto(id, p) == ToPersonDto(id, p.(password := pw))
  {
  }

  /** `ShoppingCart` as the customer mapper sees it: its id (0 until the store
      saves it, Java's primitive default) and its customer. */
  class ShoppingCart {
    var cartId: Id
    var customer: Customer?

    constructor ()
      ensures cartId == 0 && customer == null
    {
      cartId := 0;
      customer := null;
    }
  }

  /** The `Customer` entity: a person with an optional shopping cart. */
  class Customer {
    var personId: Option<Id>
    var profile: Profile
    var cart: ShoppingCart?

    constructor ()
      ensures personId.None? && profile == EmptyProfile && cart == null
    {
      personId := None;
      profile := EmptyProfile;
      cart := null;
    }
  }

  /** The `Seller` entity: a person with a possibly-null list of product stocks
      (kept as their ids) and an optional stand (kept as its id). */
  class Seller {
    var personId: Option<Id>
    var profile: Profile
    var products: Option<seq<Id>>
    var stand: Option<Id>

    constructor ()
      ensures personId.None? && profile == EmptyProfile && products.None? && stand.None?
    {
      personId := None;
      profile := EmptyProfile;
      products := None;
      stand := None;
    }
  }

  /** The `Owner` entity: a person with a possibly-null list of stands (kept as their ids). */
  class Owner {
    var personId: Option<Id>
    var profile: Profile
    var stands: Option<seq<Id>>

    constructor ()
      ensures personId.None? && profile == EmptyProfile && stands.None?
    {
      personId := None;
      profile := EmptyProfile;
      stands := None;
    }
  }
}

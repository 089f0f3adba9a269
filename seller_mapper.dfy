/** `SellerMapper`: seller entity to dto, registration request to a new
    seller, and the in-place partial profile update. */
module SellerMapper {
  import opened Base
  import opened Persons

  /** `SellerDto`: the person fields, the ids of the seller's product stocks
      and the id of the seller's stand. */
  datatype SellerDto = SellerDto(person: PersonDto, productStockIds: seq<Id>, standId: Option<Id>)

  /** The dto of a seller given by its parts; `ToDto` and the seller service
      both build it this way. */
  function Dto(id: Option<Id>, p: Profile, products: Option<seq<Id>>, stand: Option<Id>): (r: SellerDto)
    ensures r.person == ToPersonDto(id, p)
    ensures products.Some? ==> r.productStockIds == products.value
    ensures products.None? ==> r.productStockIds == []
    ensures r.standId == stand
  {
    SellerDto(ToPersonDto(id, p), if products.Some? then products.value else [], stand)
  }

  /** `toDto`: null for a null seller, otherwise the seller's dto. */
  function ToDto(s: Seller?): (r: Option<SellerDto>)
    reads s
    ensures r.None? <==> s == null
    ensures s != null ==> r.value == Dto(s.personId, s.profile, s.products, s.stand)
  {
    if s == null then None else Some(Dto(s.personId, s.profile, s.products, s.stand))
  }

  /** `toDtoList`: one dto per seller, in the same order. */
  function ToDtoList(ss: seq<Seller>): (r: seq<SellerDto>)
    reads set i | 0 <= i < |ss| :: ss[i]
    ensures |r| == |ss|
    ensures forall i :: 0 <= i < |ss| ==> Some(r[i]) == ToDto(ss[i])
  {
    if ss == [] then [] else [ToDto(ss[0]).value] + ToDtoList(ss[1..])
  }

  /** `fromRegisterRequest`: null for a null request; otherwise a new seller
      with the request's profile, no products and no stand. */
  method FromRegisterRequest(d: Option<RegisterRequest>) returns (s: Seller?)
    ensures d.None? <==> s == null
    ensures s != null ==> fresh(s) && s.personId.None? && s.profile == FromRegister(d.value)
    ensures s != null ==> s.products.None? && s.stand.None?
  {
    if d.None? {
      return null;
    }
    var dto := d.value;
    s := new Seller();
    s.profile := s.profile.(firstName := dto.firstName);
    s.profile := s.profile.(lastName := dto.lastName);
    s.profile := s.profile.(dateOfBirth := dto.dateOfBirth);
    s.profile := s.profile.(phoneNumber := dto.phoneNumber);
    s.profile := s.profile.(email := dto.email);
    s.profile := s.profile.(password := dto.password);
    s.profile := s.profile.(address := FromAddressDto(dto.address));
  }

  /** `updateFromDto`: overwrites, in place, exactly the profile fields the
      request carries; id, products and stand are left alone. */
  method UpdateFromDto(s: Seller, d: UpdateProfileRequest)
    modifies s
    ensures s.profile == Merge(old(s.profile), d)
    ensures s.personId == old(s.personId) && s.products == old(s.products) && s.stand == old(s.stand)
  {
    if d.firstName.Some? {
      s.profile := s.profile.(firstName := d.firstName);
    }
    if d.lastName.Some? {
      s.profile := s.profile.(lastName := d.lastName);
    }
    if d.dateOfBirth.Some? {
      s.profile := s.profile.(dateOfBirth := d.dateOfBirth);
    }
    if d.phoneNumber.Some? {
      s.profile := s.profile.(phoneNumber := d.phoneNumber);
    }
    if d.email.Some? {
      s.profile := s.profile.(email := d.email);
    }
    if d.address.Some? {
      s.profile := s.profile.(address := FromAddressDto(d.address));
    }
  }
}

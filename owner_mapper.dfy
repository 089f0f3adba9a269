/** `OwnerMapper`: owner entity to dto, registration request to a new owner,
    and the null-guarded in-place partial profile update. */
module OwnerMapper {
  import opened Base
  import opened Persons

  /** `OwnerDto`: the person fields, the ids of the owner's stands, the rent
      (`Owner.getRent`, a constant 0) and whether the owner has a stand. */
  datatype OwnerDto = OwnerDto(person: PersonDto, standIds: seq<Id>, totalRent: int,
                               hasAvailableStands: bool)

  /** What `toDto` does as written: either it returns (possibly null) or the
      call `owner.hasAvailableStand()` throws a NullPointerException. */
  datatype Outcome = Returned(dto: Option<OwnerDto>) | NullPointer

  /** `toDto` as written. The stand ids fall back to the empty list when the
      stand list is null, but the same builder then calls `hasAvailableStand`,
      which calls `size()` on that null list. */
  function ToDtoAsWritten(o: Owner?): (r: Outcome)
    reads o
    ensures o == null ==> r == Returned(None)
  {
    if o == null then Returned(None)
    else if o.stands.None? then NullPointer
    else Returned(Some(OwnerDto(ToPersonDto(o.personId, o.profile), o.stands.value, 0,
                                |o.stands.value| > 0)))
  }

  /** As written, an owner without a stand list cannot be mapped at all: the
      empty-list fallback for its stand ids is never returned. */
  lemma NullStandsThrow(o: Owner)
    requires o.stands.None?
    ensures ToDtoAsWritten(o) == NullPointer
  {
  }

  /** `toDto` as evidently intended: a null owner gives null; a null stand
      list gives no stand ids and no available stand. */
  function ToDto(o: Owner?): (r: Option<OwnerDto>)
    reads o
    ensures r.None? <==> o == null
    ensures o != null ==> r.value.person == ToPersonDto(o.personId, o.profile)
    ensures o != null ==> r.value.standIds == o.stands.GetOr([])
    ensures o != null ==> r.value.totalRent == 0
    ensures o != null ==> (r.value.hasAvailableStands <==> |r.value.standIds| > 0)
  {
    if o == null then None
    else
      var ids := if o.stands.Some? then o.stands.value else [];
      Some(OwnerDto(ToPersonDto(o.personId, o.profile), ids, 0, |ids| > 0))
  }

  /** Wherever the mapper as written returns, the intended mapper returns the
      same dto; they differ only where the original throws. */
  lemma ToDtoAgreesWhereDefined(o: Owner?)
    ensures ToDtoAsWritten(o).Returned? ==> ToDtoAsWritten(o).dto == ToDto(o)
    ensures ToDtoAsWritten(o).NullPointer? <==> (o != null && o.stands.None?)
  {
  }

  /** `toDtoList`: one dto per owner, in the same order. */
  function ToDtoList(os: seq<Owner>): (r: seq<OwnerDto>)
    reads set i | 0 <= i < |os| :: os[i]
    ensures |r| == |os|
    ensures forall i :: 0 <= i < |os| ==> Some(r[i]) == ToDto(os[i])
  {
    if os == [] then [] else [ToDto(os[0]).value] + ToDtoList(os[1..])
  }

  /** `fromRegisterRequest`: null for a null request; otherwise a new owner
      with the request's profile and a null stand list. */
  method FromRegisterRequest(d: Option<RegisterRequest>) returns (o: Owner?)
    ensures d.None? <==> o == null
    ensures o != null ==> fresh(o) && o.personId.None? && o.profile == FromRegister(d.value)
    ensures o != null ==> o.stands.None?
  {
    if d.None? {
      return null;
    }
    var dto := d.value;
    o := new Owner();
    o.profile := o.profile.(firstName := dto.firstName);
    o.profile := o.profile.(lastName := dto.lastName);
    o.profile := o.profile.(dateOfBirth := dto.dateOfBirth);
    o.profile := o.profile.(phoneNumber := dto.phoneNumber);
    o.profile := o.profile.(address := FromAddressDto(dto.address));
    o.profile := o.profile.(email := dto.email);
    o.profile := o.profile.(password := dto.password);
  }

  /** `updateOwnerFromDto`: does nothing when the owner or the request is
      null; otherwise overwrites, in place, exactly the profile fields the
      request carries. */
  method UpdateOwnerFromDto(o: Owner?, d: Option<UpdateProfileRequest>)
    modifies o
    ensures o != null && d.Some? ==> o.profile == Merge(old(o.profile), d.value)
    ensures o != null && d.None? ==> o.profile == old(o.profile)
    ensures o != null ==> o.personId == old(o.personId) && o.stands == old(o.stands)
  {
    if d.None? || o == null {
      return;
    }
    var dto := d.value;
    if dto.firstName.Some? {
      o.profile := o.profile.(firstName := dto.firstName);
    }
    if dto.lastName.Some? {
      o.profile := o.profile.(lastName := dto.lastName);
    }
    if dto.dateOfBirth.Some? {
      o.profile := o.profile.(dateOfBirth := dto.dateOfBirth);
    }
    if dto.phoneNumber.Some? {
      o.profile := o.profile.(phoneNumber := dto.phoneNumber);
    }
    if dto.address.Some? {
      o.profile := o.profile.(address := FromAddressDto(dto.address));
    }
    if dto.email.Some? {
      o.profile := o.profile.(email := dto.email);
    }
  }
}

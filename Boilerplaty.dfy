/** The hand-written `Gateway` record. Its constructor assigns `Id` and then
    `OrganizationId`; each `init` accessor only checks its value and stores
    nothing, so construction is validation alone and the record carries no
    state. */
module Boilerplaty {
  import opened Wrappers
  import opened Guids

  datatype Gateway = Gateway

  /** The `Id` init accessor: refuses `default(Guid)`. */
  method InitId(value: Guid) returns (thrown: Option<Exception>)
    ensures thrown.Some? <==> value == Empty
    ensures thrown.Some? ==> thrown.value == ArgumentException("Id")
  {
    if value == Empty {
      return Some(ArgumentException("Id"));
    }
    return None;
  }

  /** The `OrganizationId` init accessor: refuses `string.Empty` only; a null
      string passes. */
  method InitOrganizationId(value: Nullable<string>) returns (thrown: Option<Exception>)
    ensures thrown.Some? <==> value == Val("")
    ensures thrown.Some? ==> thrown.value == ArgumentException("OrganizationId")
  {
    if value == Val("") {
      return Some(ArgumentException("OrganizationId"));
    }
    return None;
  }

  /** The constructor: `Id` is checked first, so when both arguments are
      invalid the exception is about `Id`. */
  method New(id: Guid, organizationId: Nullable<string>) returns (r: Result<Gateway>)
    ensures r.Ok? <==> id != Empty && organizationId != Val("")
    ensures id == Empty ==> r == Throws(ArgumentException("Id"))
    ensures id != Empty && organizationId == Val("") ==> r == Throws(ArgumentException("OrganizationId"))
    ensures organizationId == Null && id != Empty ==> r == Ok(Gateway)
  {
    var thrown := InitId(id);
    if thrown.Some? {
      return Throws(thrown.value);
    }
    thrown := InitOrganizationId(organizationId);
    if thrown.Some? {
      return Throws(thrown.value);
    }
    return Ok(Gateway);
  }
}

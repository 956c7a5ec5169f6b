/** `GatewayId`: a `NonEmptyGuid` under its own name. Its constructor only
    calls the base constructor. */
module GatewayId {
  import opened Wrappers
  import opened Guids
  import NonEmptyGuid

  datatype GatewayId = GatewayId(base: NonEmptyGuid.NonEmptyGuid)

  function New(value: Guid): (r: Result<GatewayId>)
    ensures r.Ok? <==> NonEmptyGuid.New(value).Ok?
    ensures r.Throws? ==> r == Throws(NonEmptyGuid.New(value).exception)
    ensures r.Ok? ==> ToGuid(r.value) == value
  {
    var b := NonEmptyGuid.New(value);
    if b.Ok? then Ok(GatewayId(b.value)) else Throws(b.exception)
  }

  /** The inherited conversion to `Guid`. */
  function ToGuid(id: GatewayId): Guid {
    NonEmptyGuid.ToGuid(id.base)
  }

  /** `GatewayId(Guid.Empty)` throws the base class's exception, and every
      instance holds a non-zero Guid. */
  lemma RejectsEmpty(id: GatewayId)
    ensures New(Empty) == Throws(ArgumentOutOfRangeException("_value"))
    ensures ToGuid(id) != Empty
  {
  }

  /** Unwrapping loses nothing. */
  lemma UnwrapThenNew(id: GatewayId)
    ensures New(ToGuid(id)) == Ok(id)
  {
  }
}

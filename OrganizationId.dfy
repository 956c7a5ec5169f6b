/** `OrganizationId`: a `NonEmptyString` under its own name. Its constructor
    only calls the base constructor. */
module OrganizationId {
  import opened Wrappers
  import NonEmptyString

  datatype OrganizationId = OrganizationId(base: NonEmptyString.NonEmptyString)

  function New(value: Nullable<string>): (r: Result<OrganizationId>)
    ensures r.Ok? <==> NonEmptyString.New(value).Ok?
    ensures r.Throws? ==> r == Throws(NonEmptyString.New(value).exception)
    ensures r.Ok? ==> ToString(r.value) == value.value
  {
    var b := NonEmptyString.New(value);
    if b.Ok? then Ok(OrganizationId(b.value)) else Throws(b.exception)
  }

  /** The inherited conversion to `string`. */
  function ToString(id: OrganizationId): string {
    NonEmptyString.ToString(id.base)
  }

  /** The string-subtype tests: null and `""` throw, and
      `"=== string ==="` is accepted and unwraps to itself. */
  lemma Examples()
    ensures New(Val("")) == Throws(ArgumentOutOfRangeException("value"))
    ensures New(Null) == Throws(ArgumentOutOfRangeException("value"))
    ensures New(Val("=== string ===")).Ok? && ToString(New(Val("=== string ===")).value) == "=== string ==="
  {
  }

  /** The values used by the gateway tests, `"Foo"` and `"a"`, are accepted
      and unwrap to themselves. */
  lemma GatewayTestValues()
    ensures New(Val("Foo")).Ok? && ToString(New(Val("Foo")).value) == "Foo"
    ensures New(Val("a")).Ok? && ToString(New(Val("a")).value) == "a"
  {
  }

  /** Unwrapping loses nothing. */
  lemma UnwrapThenNew(id: OrganizationId)
    ensures New(Val(ToString(id))) == Ok(id)
  {
  }
}

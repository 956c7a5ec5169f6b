/** `NonEmptyGuid`: a record holding a Guid other than `Guid.Empty`. Its
    field is private, so not even a `with` expression can reset it; the
    subset type below makes the same guarantee. */
module NonEmptyGuid {
  import opened Wrappers
  import opened Guids
  import NonDefaultGeneric

  datatype Record = Record(value: Guid)

  /** Every instance holds a non-zero Guid. */
  type NonEmptyGuid = w: Record | w.value != Empty witness Record([1, 0, 0, 0, 0, 0, 0, 0, 0, 0, 0, 0, 0, 0, 0, 0])

  /** The constructor, with the `value == default` guard. The exception
      names the field `_value`, not the parameter. */
  function New(value: Guid): (r: Result<NonEmptyGuid>)
    ensures r.Ok? <==> value != Empty
    ensures r.Ok? ==> ToGuid(r.value) == value
    ensures r.Throws? ==> r.exception == ArgumentOutOfRangeException("_value")
  {
    if value == Empty then Throws(ArgumentOutOfRangeException("_value")) else Ok(Record(value))
  }

  /** The implicit conversion to `Guid`. */
  function ToGuid(w: NonEmptyGuid): Guid {
    w.value
  }

  /** Every instance holds a non-zero Guid, and unwrapping loses nothing. */
  lemma UnwrapThenNew(w: NonEmptyGuid)
    ensures ToGuid(w) != Empty
    ensures New(ToGuid(w)) == Ok(w)
  {
  }

  /** A Guid can never be null, so `NonEmptyGuid` accepts exactly what
      `NonDefaultGeneric<Guid>` accepts, and both unwrap to the argument. */
  lemma SameRuleAsNonDefaultGeneric(g: Guid)
    ensures New(g).Ok? <==> NonDefaultGeneric.New(ValueType(Empty), Val(g)).Ok?
    ensures New(g).Ok? ==> ToGuid(New(g).value) == NonDefaultGeneric.ToT(NonDefaultGeneric.New(ValueType(Empty), Val(g)).value)
  {
  }
}

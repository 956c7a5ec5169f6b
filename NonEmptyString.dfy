/** `NonEmptyString`: a record holding a string that is neither null nor
    empty (`string.IsNullOrEmpty` is false). Its field is private and
    read-only, so the constructor is the only way to obtain an instance;
    the subset type below says the same thing to the verifier. */
module NonEmptyString {
  import opened Wrappers
  import NonDefaultGeneric

  datatype Record = Record(value: string)

  /** Every instance holds a string of length at least one. */
  type NonEmptyString = w: Record | |w.value| > 0 witness Record("?")

  /** The constructor, with the `string.IsNullOrEmpty` guard. */
  function New(value: Nullable<string>): (r: Result<NonEmptyString>)
    ensures r.Ok? <==> value.Val? && |value.value| > 0
    ensures r.Ok? ==> ToString(r.value) == value.value
    ensures r.Throws? ==> r.exception == ArgumentOutOfRangeException("value")
  {
    if value == Null || value.value == "" then Throws(ArgumentOutOfRangeException("value"))
    else Ok(Record(value.value))
  }

  /** The implicit conversion to `string`. */
  function ToString(w: NonEmptyString): string {
    w.value
  }

  /** Unwrapping loses nothing. */
  lemma UnwrapThenNew(w: NonEmptyString)
    ensures New(Val(ToString(w))) == Ok(w)
  {
  }

  /** `NonEmptyString` refuses exactly what `NonDefaultGeneric<string>`
      refuses, plus the empty string, which the generic wrapper keeps. */
  lemma ContrastWithNonDefaultGeneric(x: Nullable<string>)
    ensures New(x).Ok? <==> NonDefaultGeneric.New(ReferenceType, x).Ok? && x != Val("")
    ensures New(Val("")).Throws? && NonDefaultGeneric.New(ReferenceType, Val("")).Ok?
  {
  }
}

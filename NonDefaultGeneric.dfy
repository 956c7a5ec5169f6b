/** `NonDefaultGeneric<T>`: a record that holds a `T` which is neither null
    nor `default(T)`. The type argument's kind decides what `default(T)` is,
    so the rule differs between reference and value types. */
module NonDefaultGeneric {
  import opened Wrappers
  import Guids

  datatype NonDefaultGeneric<T> = NonDefaultGeneric(value: T)

  /** What the constructor lets through: neither null nor `default(T)`. */
  predicate Accepts<T(==)>(k: TypeKind<T>, x: Nullable<T>) {
    x != Null && x != Default(k)
  }

  /** The invariant of every instance. */
  predicate Valid<T(==)>(k: TypeKind<T>, w: NonDefaultGeneric<T>) {
    Accepts(k, Val(w.value))
  }

  /** The constructor: throws `ArgumentOutOfRangeException("value")` on a
      null or default argument, and otherwise stores the argument. */
  function New<T(==)>(k: TypeKind<T>, value: Nullable<T>): (r: Result<NonDefaultGeneric<T>>)
    ensures r.Ok? <==> Accepts(k, value)
    ensures r.Ok? ==> Valid(k, r.value) && Val(ToT(r.value)) == value
    ensures r.Throws? ==> r.exception == ArgumentOutOfRangeException("value")
  {
    if value == Null || value == Default(k) then Throws(ArgumentOutOfRangeException("value"))
    else Ok(NonDefaultGeneric(value.value))
  }

  /** The implicit conversion back to `T`. */
  function ToT<T>(w: NonDefaultGeneric<T>): T {
    w.value
  }

  /** The explicit cast from `T`, which is the constructor. */
  function FromT<T(==)>(k: TypeKind<T>, value: Nullable<T>): (r: Result<NonDefaultGeneric<T>>)
    ensures r.Ok? <==> value != Null && value != Default(k)
    ensures r.Ok? ==> Val(r.value.value) == value
    ensures r.Throws? ==> r.exception == ArgumentOutOfRangeException("value")
  {
    New(k, value)
  }

  /** Unwrapping loses nothing: rebuilding from the unwrapped value gives
      back the same instance. */
  lemma UnwrapThenNew<T>(k: TypeKind<T>, w: NonDefaultGeneric<T>)
    requires Valid(k, w)
    ensures New(k, Val(ToT(w))) == Ok(w)
  {
  }

  /** For `string`, `default` is null, so the empty string is accepted and
      unwraps to itself. */
  lemma StringAcceptsEmpty()
    ensures New(ReferenceType, Val("")) == Ok(NonDefaultGeneric(""))
    ensures ToT(New(ReferenceType, Val("")).value) == ""
    ensures New<string>(ReferenceType, Null).Throws?
  {
  }

  /** For `bool`, `default` is `false`: `false` is refused, `true` kept. */
  lemma BoolRejectsFalse()
    ensures New(ValueType(false), Val(false)) == Throws(ArgumentOutOfRangeException("value"))
    ensures New(ValueType(false), Val(true)) == Ok(NonDefaultGeneric(true))
  {
  }

  /** For `Guid`, `default` is `Guid.Empty`: it is refused, and any other
      Guid is kept and unwraps to itself. */
  lemma GuidRejectsEmpty(g: Guids.Guid)
    ensures New(ValueType(Guids.Empty), Val(Guids.Empty)).Throws?
    ensures g != Guids.Empty ==> New(ValueType(Guids.Empty), Val(g)) == Ok(NonDefaultGeneric(g))
  {
  }
}

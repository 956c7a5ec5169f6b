/** `NonEmptyGeneric<T>`: the same guard as `NonDefaultGeneric<T>`, written
    a second time in another namespace. */
module NonEmptyGeneric {
  import opened Wrappers
  import NonDefaultGeneric

  datatype NonEmptyGeneric<T> = NonEmptyGeneric(value: T)

  /** The invariant of every instance: the stored value is not `default(T)`
      (it is never null, since only a non-null argument is stored). */
  predicate Valid<T(==)>(k: TypeKind<T>, w: NonEmptyGeneric<T>) {
    Val(w.value) != Default(k)
  }

  /** The constructor: throws `ArgumentOutOfRangeException("value")` on a
      null or default argument, and otherwise stores the argument. */
  function New<T(==)>(k: TypeKind<T>, value: Nullable<T>): (r: Result<NonEmptyGeneric<T>>)
    ensures r.Ok? <==> value.Val? && value != Default(k)
    ensures r.Ok? ==> Valid(k, r.value) && Val(ToT(r.value)) == value
    ensures r.Throws? ==> r.exception == ArgumentOutOfRangeException("value")
  {
    if value == Null || value == Default(k) then Throws(ArgumentOutOfRangeException("value"))
    else Ok(NonEmptyGeneric(value.value))
  }

  /** The implicit conversion back to `T`. */
  function ToT<T>(w: NonEmptyGeneric<T>): T {
    w.value
  }

  /** Both generic wrappers accept and refuse exactly the same arguments, for
      every type kind, throw the same exception, and unwrap to the same value. */
  lemma SameRuleAsNonDefaultGeneric<T>(k: TypeKind<T>, x: Nullable<T>)
    ensures New(k, x).Ok? <==> NonDefaultGeneric.New(k, x).Ok?
    ensures New(k, x).Throws? ==> New(k, x).exception == NonDefaultGeneric.New(k, x).exception
    ensures New(k, x).Ok? ==> ToT(New(k, x).value) == NonDefaultGeneric.ToT(NonDefaultGeneric.New(k, x).value)
  {
  }

  /** Unwrapping loses nothing. */
  lemma UnwrapThenNew<T>(k: TypeKind<T>, w: NonEmptyGeneric<T>)
    requires Valid(k, w)
    ensures New(k, Val(ToT(w))) == Ok(w)
  {
  }
}

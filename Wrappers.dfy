/** Value-level building blocks shared by the whole model: C#'s nullable
    references, LanguageExt's Option and Either, and the exceptions that
    the validating constructors throw. */
module Wrappers {

  /** A C# reference (or unconstrained generic) that may be null. */
  datatype Nullable<+T> = Null | Val(value: T)

  /** LanguageExt `Option<T>`. */
  datatype Option<+T> = None | Some(value: T) {

    function Map<U>(f: T -> U): Option<U> {
      match this
      case None => None
      case Some(v) => Some(f(v))
    }

    function Bind<U>(f: T -> Option<U>): Option<U> {
      match this
      case None => None
      case Some(v) => f(v)
    }

    /** `Some(v)` survives only when `p(v)` holds. */
    function Filter(p: T -> bool): Option<T> {
      match this
      case None => None
      case Some(v) => if p(v) then this else None
    }

    /** The single point where an absence becomes a classified failure. */
    function ToEither<L>(left: L): Either<L, T> {
      match this
      case None => Left(left)
      case Some(v) => Right(v)
    }
  }

  /** LanguageExt `Optional(x)`: a null reference becomes `None`. */
  function Optional<T>(x: Nullable<T>): Option<T> {
    match x
    case Null => None
    case Val(v) => Some(v)
  }

  /** LanguageExt `Either<L, R>`; by convention the right value is the success. */
  datatype Either<+L, +R> = Left(left: L) | Right(right: R) {

    function Map<U>(f: R -> U): Either<L, U> {
      match this
      case Left(l) => Left(l)
      case Right(r) => Right(f(r))
    }

    function Bind<U>(f: R -> Either<L, U>): Either<L, U> {
      match this
      case Left(l) => Left(l)
      case Right(r) => f(r)
    }

    function MapLeft<M>(f: L -> M): Either<M, R> {
      match this
      case Left(l) => Left(f(l))
      case Right(r) => Right(r)
    }
  }

  /** How C#'s `default(T)` comes about for a type argument `T`: `null` for a
      reference type, the type's all-zero value (`false`, `0`, `Guid.Empty`)
      for a value type. */
  datatype TypeKind<T> = ReferenceType | ValueType(zero: T)

  function Default<T>(k: TypeKind<T>): Nullable<T> {
    match k
    case ReferenceType => Null
    case ValueType(z) => Val(z)
  }

  /** The .NET exceptions thrown by the validating constructors; the string
      is the argument the source passes to the exception's constructor. */
  datatype Exception =
    | ArgumentOutOfRangeException(paramName: string)
    | ArgumentException(message: string)

  /** The outcome of a call that either returns a value or throws. */
  datatype Result<+T> = Ok(value: T) | Throws(exception: Exception)
}

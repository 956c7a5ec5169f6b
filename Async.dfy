/** The asynchronous layer of LanguageExt as the pipelines use it. Every
    awaited step is sequential and depends on the one before, so an awaited
    `Task` is modelled by what it observably does: the calls it made to
    external collaborators, in order, and the value it produced. The
    combinators below append the calls of the steps they actually run, which
    is how short-circuiting shows up in the model. */
module Async {
  datatype Task<C, T> = Task(calls: seq<C>, result: T)
}

/** LanguageExt `OptionAsync<T>`: a task that yields an `Option<T>`. */
module OptionAsync {
  import opened Wrappers
  import opened Async

  type OptionAsync<C, T> = Task<C, Option<T>>

  /** `OptionalAsync(task)`: a null task result becomes `None`. */
  function OptionalAsync<C, T>(t: Task<C, Nullable<T>>): OptionAsync<C, T> {
    Task(t.calls, Optional(t.result))
  }

  /** Runs `f` only on `Some`; a `None` makes no further call. */
  function Bind<C, T, U>(o: OptionAsync<C, T>, f: T -> OptionAsync<C, U>): OptionAsync<C, U> {
    match o.result
    case None => Task(o.calls, None)
    case Some(v) => Task(o.calls + f(v).calls, f(v).result)
  }

  /** LINQ `select`. */
  function Map<C, T, U>(o: OptionAsync<C, T>, f: T -> U): OptionAsync<C, U> {
    Task(o.calls, o.result.Map(f))
  }

  /** LINQ `where`. */
  function Filter<C, T>(o: OptionAsync<C, T>, p: T -> bool): OptionAsync<C, T> {
    Task(o.calls, o.result.Filter(p))
  }

  /** LINQ's second `from`: bind, then combine both values with `project`. */
  function SelectMany<C, T, U, V>(o: OptionAsync<C, T>, f: T -> OptionAsync<C, U>, project: (T, U) -> V)
    : OptionAsync<C, V>
  {
    Bind(o, (t: T) => Map(f(t), (u: U) => project(t, u)))
  }

  function ToEither<C, T, L>(o: OptionAsync<C, T>, left: L): Task<C, Either<L, T>> {
    Task(o.calls, o.result.ToEither(left))
  }

  /** The C# compiler's translation of
        `from t in o from u in f(t) where p(u) select u`
      (`SelectMany` into a pair, `Where` and `Select` on that pair) is
      `o.Bind(f).Filter(p)`, calls included. */
  lemma LinqWhereSelect<C, T, U>(o: OptionAsync<C, T>, f: T -> OptionAsync<C, U>, p: U -> bool)
    ensures Map(Filter(SelectMany(o, f, (t: T, u: U) => (t, u)), (x: (T, U)) => p(x.1)), (x: (T, U)) => x.1)
         == Filter(Bind(o, f), p)
  {
  }
}

/** LanguageExt `EitherAsync<L, R>`: a task that yields an `Either<L, R>`. */
module EitherAsync {
  import opened Wrappers
  import opened Async

  type EitherAsync<C, L, R> = Task<C, Either<L, R>>

  /** Runs `f` only on `Right`; a `Left` makes no further call. */
  function Bind<C, L, R, U>(e: EitherAsync<C, L, R>, f: R -> EitherAsync<C, L, U>): EitherAsync<C, L, U> {
    match e.result
    case Left(l) => Task(e.calls, Left(l))
    case Right(r) => Task(e.calls + f(r).calls, f(r).result)
  }

  /** The `Bind` overload whose continuation is a plain (synchronous) `Either`. */
  function BindEither<C, L, R, U>(e: EitherAsync<C, L, R>, f: R -> Either<L, U>): EitherAsync<C, L, U> {
    Task(e.calls, e.result.Bind(f))
  }

  function MapLeft<C, L, R, M>(e: EitherAsync<C, L, R>, f: L -> M): EitherAsync<C, M, R> {
    Task(e.calls, e.result.MapLeft(f))
  }

  /** LINQ's second `from` on `EitherAsync`. */
  function SelectMany<C, L, R, U, V>(e: EitherAsync<C, L, R>, f: R -> EitherAsync<C, L, U>, project: (R, U) -> V)
    : EitherAsync<C, L, V>
  {
    Bind(e, (r: R) => Task(f(r).calls, f(r).result.Map((u: U) => project(r, u))))
  }

  /** `from _ in e from u in f(_) select u` is `e.Bind(f)`, calls included. */
  lemma LinqSelectSecond<C, L, R, U>(e: EitherAsync<C, L, R>, f: R -> EitherAsync<C, L, U>)
    ensures SelectMany(e, f, (r: R, u: U) => u) == Bind(e, f)
  {
  }
}

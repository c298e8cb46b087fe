/**
 * PromiseOrValue: a value that is either available now or delivered later by a
 * promise. Pending computation itself is not modelled, only what it settles to.
 */
module Deferred {
  import opened Wrappers

  /** `T | Promise<T>`: `Now(v)` is a plain value, `Later(v)` a promise that settles to `v`. */
  datatype PV<+T> = Now(value: T) | Later(value: T)

  /**
   * What evaluating a JavaScript expression of type `PromiseOrValue<T>` gives:
   * `Now(Err(e))` is a synchronous throw, `Later(Err(e))` a rejected promise.
   */
  type Eval<T> = PV<Result<T>>

  /**
   * `PromiseOrValue.map`: apply `f` at once to a plain value; chain it with
   * `then` on a promise, which yields a promise for whatever `f` settles to.
   */
  function Map<T, U>(p: PV<T>, f: T -> PV<U>): (r: PV<U>)
    ensures p.Now? ==> r == f(p.value)
    ensures p.Later? ==> r.Later?
    ensures r.value == f(p.value).value
  {
    match p
    case Now(v) => f(v)
    case Later(v) => Later(f(v).value)
  }

  /** Feeds a settled outcome to `f` unless it is an error, which passes on unchanged. */
  function OnSuccess<T, U>(f: T -> Eval<U>): Result<T> -> Eval<U> {
    (r: Result<T>) => match r
      case Ok(v) => f(v)
      case Err(e) => Now(Err(e))
  }

  /**
   * `PromiseOrValue.map` applied to the outcome of an expression that may itself
   * have thrown: a synchronous throw propagates before `map` is reached, a rejected
   * promise skips the `then` callback, and otherwise `f` runs on the value.
   * It is `Map` after `OnSuccess`, not the library's `PromiseOrValue.then`.
   */
  function Then<T, U>(e: Eval<T>, f: T -> Eval<U>): (r: Eval<U>)
    ensures e.value.Err? ==> r.value == Err(e.value.error) && (r.Now? <==> e.Now?)
    ensures e.value.Ok? ==> r.value == f(e.value.value).value
    ensures r.Now? <==> e.Now? && (e.value.Ok? ==> f(e.value.value).Now?)
  {
    Map(e, OnSuccess(f))
  }

  /** Mapping with `Now` changes nothing: a plain value stays plain and a promise stays a promise. */
  lemma MapIdentity<T>(p: PV<T>)
    ensures Map(p, (x: T) => Now(x)) == p
  {
  }

  /** Mapping twice is mapping once with the composed continuation (promise flattening). */
  lemma MapCompose<T, U, V>(p: PV<T>, f: T -> PV<U>, g: U -> PV<V>)
    ensures Map(Map(p, f), g) == Map(p, (x: T) => Map(f(x), g))
  {
  }
}

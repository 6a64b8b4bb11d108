/** The two pure functions of `ConnectionPool.ts`: checking the `pool` option and filling in its defaults. */
module PoolOptions {

  /** A JavaScript value where a number of things or seconds is expected. */
  datatype JsValue = Undefined | Number(n: real) | NaNOrInfinite | NotANumber

  datatype PoolOption =
    | Absent
    | NotAnObject
    | Pool(min: JsValue, max: JsValue, idleTimeoutSeconds: JsValue, acquireTimeoutSeconds: JsValue)

  datatype Resolved = Resolved(min: real, max: real, idleTimeoutMs: real, acquireTimeoutMs: real)

  const DEFAULT_MIN := 0.0
  const DEFAULT_MAX := 10.0
  const DEFAULT_IDLE_SECONDS := 180.0
  const DEFAULT_ACQUIRE_SECONDS := 30.0

  predicate NonNegativeInt(v: JsValue) {
    v.Number? && v.n.Floor as real == v.n && v.n >= 0.0
  }

  function Validate(o: PoolOption): bool {
    match o
    case Absent => true
    case NotAnObject => false
    case Pool(min, max, idle, acquire) =>
      if !min.Undefined? && !NonNegativeInt(min) then false
      else if !max.Undefined? && !NonNegativeInt(max) then false
      else if !max.Undefined? && max.n < 1.0 then false
      else if min.Number? && min.n > (if max.Undefined? then DEFAULT_MAX else max.n) then false
      else if !idle.Undefined? && !NonNegativeInt(idle) then false
      else if !acquire.Undefined? && !NonNegativeInt(acquire) then false
      else true
  }

  function Or(v: JsValue, default: real): real {
    if v.Number? then v.n else default
  }

  function Resolve(o: PoolOption): Resolved
    requires Validate(o)
  {
    if o.Absent? then Resolved(1.0, 1.0, 0.0, 30000.0)
    else Resolved(Or(o.min, DEFAULT_MIN), Or(o.max, DEFAULT_MAX),
                  Or(o.idleTimeoutSeconds, DEFAULT_IDLE_SECONDS) * 1000.0,
                  Or(o.acquireTimeoutSeconds, DEFAULT_ACQUIRE_SECONDS) * 1000.0)
  }

  predicate Sizes(min: real, max: real) {
    min.Floor as real == min && max.Floor as real == max && 0.0 <= min <= max && 1.0 <= max
  }

  predicate Whole(v: JsValue) {
    v.Undefined? || NonNegativeInt(v)
  }

  /** The check accepts an option exactly when every knob given is a whole number, none negative, and the
      sizes the pool will run with make sense together. */
  lemma AcceptsExactlySoundSizes(o: PoolOption)
    ensures Validate(o) <==>
            o.Absent? ||
            (o.Pool? && Whole(o.min) && Whole(o.max) && Whole(o.idleTimeoutSeconds) && Whole(o.acquireTimeoutSeconds) &&
             Sizes(Or(o.min, 0.0), Or(o.max, 10.0)))
    ensures Validate(o) ==> Sizes(Resolve(o).min, Resolve(o).max)
  {
    if o.Pool? {
      assert DEFAULT_MIN.Floor as real == DEFAULT_MIN && DEFAULT_MAX.Floor as real == DEFAULT_MAX;
    }
  }

  /** Every knob that is given is used as given, in milliseconds where it is a time; without a `pool` option there is one
      connection, never evicted, and otherwise the defaults are 0 to 10 connections, 180 s and 30 s. */
  lemma KnobsAreUsedAsGiven(o: PoolOption)
    requires Validate(o)
    ensures o == Absent ==> Resolve(o) == Resolved(1.0, 1.0, 0.0, 30000.0)
    ensures o.Pool? ==>
      && (o.min.Undefined? || o.min.Number?) && (o.max.Undefined? || o.max.Number?)
      && Resolve(o).min == (if o.min.Number? then o.min.n else 0.0)
      && Resolve(o).max == (if o.max.Number? then o.max.n else 10.0)
      && Resolve(o).idleTimeoutMs == (if o.idleTimeoutSeconds.Number? then o.idleTimeoutSeconds.n * 1000.0 else 180000.0)
      && Resolve(o).acquireTimeoutMs == (if o.acquireTimeoutSeconds.Number? then o.acquireTimeoutSeconds.n * 1000.0 else 30000.0)
  {
  }
}

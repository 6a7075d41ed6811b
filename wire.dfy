/** How the views talk to the backend services: the outcome of an awaited call,
    the three result shapes that different call sites test (`"ok" in r`,
    `"Ok" in r`, `r.success`), the zero-or-one-element sequences that stand for
    optional values, and the integer time scales. */
module Wire {
  import opened Base
  import opened JsValue

  /** An awaited remote call: the promise rejected (the call threw), or it
      resolved to a value. */
  datatype Reply<+T> = Threw | Resolved(value: T)

  /** A Candid `Result` with lower-case tags, `{ok: T}` or `{err: E}`; call sites
      test it with `"ok" in result`. */
  datatype LowerResult<+T> = LowerOk(ok: T) | LowerErr(err: Value)

  /** A Candid `Result` with capitalised tags, `{Ok: T}` or `{Err: E}`; call
      sites test it with `"Ok" in result`. */
  datatype UpperResult<+T> = UpperOk(okValue: T) | UpperErr(errValue: Value)

  /** A record reply `{success, message}`; call sites test `result.success`. */
  datatype SuccessFlag = SuccessFlag(success: bool, message: Value)

  /** `(await actors.service?.method?.(args)) || []`: the handle or the method
      may be missing (the expression is then `undefined`), the call may reject,
      or it returns a list. */
  datatype ListCall<+T> = MethodMissing | CallThrew | Listed(items: seq<T>)

  /** The list a `ListCall` leaves behind when it did not throw. */
  function ListOrEmpty<T>(c: ListCall<T>): seq<T>
    requires !c.CallThrew?
  {
    if c.Listed? then c.items else []
  }

  /** `prefix + ": " + Object.keys(err)[0]`, the message for a failed result;
      when `Object.keys` throws on the error the handler's catch leaves the
      bare `prefix`. */
  function FailureText(prefix: string, err: Value): string
  {
    if Nullish(err) then prefix else prefix + ": " + KeyText(err)
  }

  /** A variant error is reported by its tag, and a missing error by the bare
      message. */
  lemma FailureNamesTag(prefix: string, tag: string)
    ensures FailureText(prefix, Variant(tag)) == prefix + ": " + tag
    ensures FailureText(prefix, Null) == prefix
  {
    VariantTag(tag, tag);
  }

  // ------------------------------------------------------------ optionals

  /** Reading an optional: `x.length > 0 ? x[0] : fallback`.  Only element 0 is
      looked at; longer sequences are not rejected. */
  function OptionalFirst<T>(s: seq<T>): (r: Option<T>)
    ensures r.None? <==> |s| == 0
    ensures r.Some? ==> r.value == s[0]
  {
    if |s| > 0 then Some(s[0]) else None
  }

  /** Writing an optional: `v ? [v] : []`. */
  function OptionalOf(v: Value): (r: seq<Value>)
    ensures |r| <= 1
    ensures |r| == 1 <==> Truthy(v)
    ensures |r| == 1 ==> r[0] == v
  {
    if Truthy(v) then [v] else []
  }

  /** Writing and then reading an optional gives back the value exactly when it
      was truthy; a falsy value (such as the empty string) comes back absent. */
  lemma OptionalRoundTrip(v: Value)
    ensures OptionalFirst(OptionalOf(v)) == if Truthy(v) then Some(v) else None
  {
  }

  // ------------------------------------------------------------ time scales

  const NanosPerMilli: int := 1_000_000
  const NanosPerDay: int := 86_400_000_000_000

  /** `BigInt(ms * 1000000)`: a millisecond instant as a nanosecond timestamp. */
  function MillisToNanos(ms: int): (ns: int)
    ensures ns / NanosPerMilli == ms && ns % NanosPerMilli == 0
  {
    ms * 1000000
  }

  /** Division truncating toward zero, as `new Date(x)` drops the fraction of a
      fractional millisecond count. */
  function TruncDiv(a: int, b: int): int
    requires b > 0
  {
    if a >= 0 then a / b else -((-a) / b)
  }

  /** `new Date(Number(ns) / 1000000)`: the millisecond instant a nanosecond
      timestamp is displayed as. */
  function NanosToMillis(ns: int): int
  {
    TruncDiv(ns, NanosPerMilli)
  }

  /** The displayed instant of an encoded instant is the instant itself. */
  lemma MillisRoundTrip(ms: int)
    ensures NanosToMillis(MillisToNanos(ms)) == ms
  {
    var ns := MillisToNanos(ms);
    if ms < 0 {
      assert -ns == MillisToNanos(-ms);
    }
  }

  /** Any displayed instant lies within one millisecond of the timestamp, on the
      side of zero. */
  lemma NanosToMillisBounds(ns: int)
    ensures var back := MillisToNanos(NanosToMillis(ns));
      if ns >= 0 then 0 <= ns - back < NanosPerMilli else 0 <= back - ns < NanosPerMilli
  {
    if ns < 0 {
      var q := (-ns) / NanosPerMilli;
      assert MillisToNanos(-q) == -(q * NanosPerMilli);
    }
  }

  /** `BigInt(days * 24 * 60 * 60 * 1000000000)`: a loan duration in nanoseconds. */
  function DaysToNanos(days: int): (ns: int)
    ensures ns == days * NanosPerDay
  {
    days * 24 * 60 * 60 * 1000000000
  }

  /** `Math.round(Number(ns) / (24 * 60 * 60 * 1000000000))`: the day count shown
      for a duration, rounded to the nearest day with halves rounded up. */
  function NanosToDays(ns: int): int
  {
    (2 * ns + NanosPerDay) / (2 * NanosPerDay)
  }

  /** The shown day count is the whole number of days nearest to the duration. */
  lemma NanosToDaysNearest(ns: int)
    ensures var d := NanosToDays(ns);
      -NanosPerDay <= 2 * (ns - DaysToNanos(d)) < NanosPerDay
  {
    var d := NanosToDays(ns);
    var m := 2 * ns + NanosPerDay;
    assert d * (2 * NanosPerDay) <= m < d * (2 * NanosPerDay) + 2 * NanosPerDay;
  }

  /** An encoded whole-day duration is shown as its original day count. */
  lemma DaysRoundTrip(days: int)
    ensures NanosToDays(DaysToNanos(days)) == days
  {
    var m := 2 * DaysToNanos(days) + NanosPerDay;
    assert m == days * (2 * NanosPerDay) + NanosPerDay;
    assert days * (2 * NanosPerDay) <= m < days * (2 * NanosPerDay) + 2 * NanosPerDay;
  }
}

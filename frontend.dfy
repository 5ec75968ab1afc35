/**
  What the frontend stores and composables share: the show objects the API
  hands them, the outcome of a request, and the freshness test of their
  time-stamped caches. Times are milliseconds and are passed in
  (`Date.now()` is an input).
 */
module Frontend {
  import opened Wrappers

  /** A show object as the API returns it, by the fields the frontend reads or writes. */
  datatype Item = Item(id: int, popularity: int, itemType: Option<string>)

  /** An awaited request: rejected, or resolved with the value the code reads from it. */
  datatype Outcome<T> = Failed | Answered(value: T)

  /** `entry.timestamp > Date.now() - CACHE_EXPIRATION`. */
  predicate Fresh(timestamp: int, now: int, expiration: int) {
    timestamp > now - expiration
  }

  /** A JavaScript string is truthy when it is not empty. */
  predicate JsTruthy(s: Option<string>) {
    s.Some? && s.value != ""
  }

  /** `x || fallback` on a number: 0 and undefined fall back. */
  function OrNumber(x: Option<int>, fallback: int): (r: int)
    ensures x.Some? && x.value != 0 ==> r == x.value
    ensures x.None? || x.value == 0 ==> r == fallback
  {
    if x.Some? && x.value != 0 then x.value else fallback
  }
}

/** `isStale` of src/lib/content/stale.ts. `Date.parse` is a parameter giving
    milliseconds since the epoch, or `None` where it returns NaN; the clock
    reading `Date.now()` is the parameter `now`. */
module Stale {
  import opened Wrappers

  const DefaultDays := 180
  const MsPerDay := 24 * 60 * 60 * 1000

  /** `isStale(dateString, days)`: a date that cannot be parsed is never
      stale; a parsed one is stale exactly when it lies strictly before the
      instant `days` days before `now`. */
  function IsStale(parse: string -> Option<int>, dateString: string, now: int, days: int): (r: bool)
    ensures parse(dateString).None? ==> !r
    ensures parse(dateString).Some? && parse(dateString).value < now - days * MsPerDay ==> r
    ensures parse(dateString).Some? && parse(dateString).value >= now - days * MsPerDay ==> !r
  {
    match parse(dateString)
    case None => false
    case Some(parsed) => now - parsed > days * MsPerDay
  }

  /** An unparseable date is never stale; a parsed one is stale exactly when
      its age exceeds the threshold, so an age equal to it is not. */
  lemma StaleIff(parse: string -> Option<int>, dateString: string, now: int, days: int)
    ensures parse(dateString).None? ==> !IsStale(parse, dateString, now, days)
    ensures parse(dateString).Some? ==>
      (IsStale(parse, dateString, now, days) <==> parse(dateString).value < now - days * 86400000)
    ensures parse(dateString) == Some(now - days * 86400000) ==> !IsStale(parse, dateString, now, days)
  {
  }

  /** Any date earlier than a stale date is stale too. */
  lemma StaleEarlier(parse: string -> Option<int>, d1: string, d2: string, now: int, days: int)
    requires IsStale(parse, d1, now, days)
    requires parse(d2).Some? && parse(d2).value <= parse(d1).value
    ensures IsStale(parse, d2, now, days)
  {
  }

  /** A longer threshold never makes a date stale. */
  lemma StaleMonotoneInDays(parse: string -> Option<int>, d: string, now: int, days: int, days': int)
    requires days <= days'
    requires IsStale(parse, d, now, days')
    ensures IsStale(parse, d, now, days)
  {
    assert days * MsPerDay <= days' * MsPerDay;
  }

  /** With a non-negative threshold, a date not in the past is not stale. */
  lemma FutureNotStale(parse: string -> Option<int>, d: string, now: int, days: int)
    requires days >= 0
    requires parse(d).Some? && parse(d).value >= now
    ensures !IsStale(parse, d, now, days)
  {
  }
}

/**
 * How the remaining lifetime of a credential is classified. `checkToken` does
 * it for the transcriber token at startup (an expired token ends the process);
 * `getKalturaClient` does it for the Kaltura app token without the fatal case.
 * Both compare `diff.days` of a timedelta, which is the floor of the remaining
 * seconds divided by a day. Decoding the JWT, reading the clock and logging are
 * not modelled: the remaining time is a whole number of seconds.
 */
module TokenExpiry {
  import opened Wrappers

  datatype Warning = Expired | ExpiresWithinWeek | ExpiresWithinMonth | NoWarning

  const SecondsPerDay: int := 86400

  /** `timedelta.days`: Dafny's division by a positive number rounds down, as Python's does. */
  function Days(seconds: int): int {
    seconds / SecondsPerDay
  }

  /** `checkToken`: fatal below zero seconds, then the week and month thresholds. */
  function TranscriberTokenWarning(remaining: int): (w: Warning)
    ensures w == Expired <==> remaining < 0
    ensures w == ExpiresWithinWeek <==> 0 <= remaining < 7 * SecondsPerDay
    ensures w == ExpiresWithinMonth <==> 7 * SecondsPerDay <= remaining < 30 * SecondsPerDay
    ensures w == NoWarning <==> 30 * SecondsPerDay <= remaining
  {
    if remaining < 0 then Expired
    else if Days(remaining) < 7 then ExpiresWithinWeek
    else if Days(remaining) < 30 then ExpiresWithinMonth
    else NoWarning
  }

  /**
   * The Kaltura app-token check: skipped when the token has no expiry (None or
   * 0), otherwise the same two thresholds; an already expired token only gets
   * the week warning.
   */
  function KalturaTokenWarning(expiry: Option<int>, now: int): (w: Warning)
    ensures w != Expired
    ensures w == ExpiresWithinWeek <==>
      expiry.Some? && expiry.value != 0 && expiry.value - now < 7 * SecondsPerDay
    ensures w == ExpiresWithinMonth <==>
      expiry.Some? && expiry.value != 0 && 7 * SecondsPerDay <= expiry.value - now < 30 * SecondsPerDay
  {
    if expiry.None? || expiry.value == 0 then NoWarning
    else
      var diff := expiry.value - now;
      if Days(diff) < 7 then ExpiresWithinWeek
      else if Days(diff) < 30 then ExpiresWithinMonth
      else NoWarning
  }

  /** On a token that has not expired the two checks give the same warning. */
  lemma ChecksAgreeBeforeExpiry(expiry: int, now: int)
    requires expiry != 0 && expiry >= now
    ensures KalturaTokenWarning(Some(expiry), now) == TranscriberTokenWarning(expiry - now)
  {
  }
}

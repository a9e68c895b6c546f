/**
 * The denylist of revoked tokens: each token maps to the instant it stops
 * being denied. Expired entries are deleted lazily, when they are looked up.
 * The clock is the `now` argument, in seconds.
 */
module TokenDenylist {
  import opened Common

  const DEFAULT_EXPIRES_IN: int := 30
  const DEFAULT_TIME_UNIT: string := "days"

  /** The ValueError raised for a time unit other than the five accepted names. */
  datatype Error = InvalidTimeUnit

  /** Seconds in one unit of each accepted name; months count 30 days and years 365 days. */
  function UnitSeconds(unit: string): (r: Option<int>)
    ensures r.Some? <==> unit in ["minutes", "hours", "days", "months", "years"]
    ensures r.Some? ==> r.value >= MINUTE
  {
    if unit == "minutes" then Some(MINUTE)
    else if unit == "hours" then Some(HOUR)
    else if unit == "days" then Some(DAY)
    else if unit == "months" then Some(30 * DAY)
    else if unit == "years" then Some(365 * DAY)
    else None
  }

  /** The instant a token added at `now` for `expiresIn` units stops being denied. */
  function Expiry(now: int, expiresIn: int, unit: string): Option<int> {
    match UnitSeconds(unit)
    case Some(seconds) => Some(now + expiresIn * seconds)
    case None => None
  }

  /** The duration table: a month is 30 days, a year 365 days, and the default is 30 days. */
  lemma ExpiryDurations(now: int, n: int)
    ensures Expiry(now, n, "minutes") == Some(now + n * 60)
    ensures Expiry(now, n, "hours") == Some(now + n * 3600)
    ensures Expiry(now, n, "days") == Some(now + n * 86400)
    ensures Expiry(now, n, "months") == Some(now + n * 30 * 86400)
    ensures Expiry(now, n, "years") == Some(now + n * 365 * 86400)
    ensures Expiry(now, DEFAULT_EXPIRES_IN, DEFAULT_TIME_UNIT) == Some(now + 30 * 86400)
    ensures Expiry(now, n, "weeks") == None
  {
  }

  class TokenBlacklist {
    /** `blacklist[token]`: the instant the token stops being denied. */
    var blacklist: map<string, int>

    constructor ()
      ensures blacklist == map[]
    {
      blacklist := map[];
    }

    /**
     * Denies `token` until `now + expiresIn` units; a token already present
     * gets the new expiry. An unknown unit is an error and changes nothing.
     */
    method AddToken(token: string, now: int, expiresIn: int := DEFAULT_EXPIRES_IN, timeUnit: string := DEFAULT_TIME_UNIT)
      returns (r: Result<(), Error>)
      modifies this
      ensures r.Err? <==> UnitSeconds(timeUnit).None?
      ensures r.Err? ==> blacklist == old(blacklist)
      ensures r.Ok? ==> blacklist == old(blacklist)[token := now + expiresIn * UnitSeconds(timeUnit).value]
    {
      var seconds := UnitSeconds(timeUnit);
      if seconds.None? {
        return Err(InvalidTimeUnit);
      }
      blacklist := blacklist[token := now + expiresIn * seconds.value];
      return Ok(());
    }

    /**
     * True exactly when the token is present and not yet expired; a present
     * but expired token is deleted, and nothing else changes.
     */
    method IsTokenBlacklisted(token: string, now: int) returns (denied: bool)
      modifies this
      ensures denied <==> token in old(blacklist) && now < old(blacklist)[token]
      ensures token in old(blacklist) && !denied ==> blacklist == old(blacklist) - {token}
      ensures token !in old(blacklist) || denied ==> blacklist == old(blacklist)
    {
      if token in blacklist {
        if now < blacklist[token] {
          return true;
        }
        blacklist := blacklist - {token};
      }
      return false;
    }
  }

  /**
   * A token added for one minute is denied 59 s later, is released and
   * forgotten at 60 s, and re-adding it for one hour replaces the expiry.
   */
  method OneMinuteRevocation() returns (at59: bool, at60: bool, forgotten: bool, readded: bool)
    ensures at59 && !at60 && forgotten && readded
  {
    var list := new TokenBlacklist();
    var r := list.AddToken("t", 1000, 1, "minutes");
    at59 := list.IsTokenBlacklisted("t", 1059);
    at60 := list.IsTokenBlacklisted("t", 1060);
    forgotten := "t" !in list.blacklist;
    r := list.AddToken("t", 2000, 1, "minutes");
    r := list.AddToken("t", 2000, 1, "hours");
    readded := list.blacklist == map["t" := 2000 + 3600];
  }
}

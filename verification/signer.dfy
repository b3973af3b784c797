/**
 * Signed activation URLs. The signing library (an HMAC signer that also
 * embeds the signing time) is abstract: `sign` and `unsign` are parameters,
 * and so are the clock and the timestamp the library reads back from a
 * token. The application's token secret is a parameter as well.
 */
module Signer {
  import opened GoTypes

  /** The library's Sign: secret, payload and the current time give a token. */
  type SignFn = (string, string, Time) -> string

  /** The library's Unsign: secret and token give the payload or an error message. */
  type UnsignFn = (string, string) -> Result<string, string>

  const HashParam := "hash="

  /** One minute as a time.Duration. */
  const Minute: int := 60_000_000_000

  /** The largest minute count whose duration fits in an int64. */
  const MaxMinutes: int := MaxInt64 / Minute

  /**
   * The string that is signed: the URL with a `hash=` parameter appended,
   * after `&` when the URL already has a query string and after `?` when it
   * has none.
   */
  function URLToSign(data: string): (r: string)
    ensures |r| == |data| + 6
    ensures r[..|data|] == data
    ensures r[|data| + 1..] == HashParam
    ensures r[|data|] == (if '?' in data then '&' else '?')
  {
    if '?' in data then data + "&" + HashParam else data + "?" + HashParam
  }

  /** The signed URL always has a query string, and adds a `?` only to a URL without one. */
  lemma URLToSignHasQuery(data: string)
    ensures '?' in URLToSign(data)
    ensures '?' !in data ==> URLToSign(data)[|data|] == '?' && '?' !in URLToSign(data)[..|data|]
  {
    var r := URLToSign(data);
    if '?' in data {
      var i :| 0 <= i < |data| && data[i] == '?';
      assert r[i] == r[..|data|][i];
    } else {
      assert r[|data|] == '?';
    }
  }

  /** Dropping the appended parameter gives back the URL. */
  lemma URLToSignRecoversURL(data: string)
    ensures var r := URLToSign(data); r[..|r| - 6] == data
  {
  }

  /** GenerateTokenFromString: the signer's output on URLToSign(data), and nothing else. */
  function GenerateTokenFromString(sign: SignFn, secret: string, now: Time, data: string): (token: string)
    ensures token == sign(secret, URLToSign(data), now)
  {
    sign(secret, URLToSign(data), now)
  }

  /** VerifyToken: true exactly when unsigning reports no error. */
  function VerifyToken(unsign: UnsignFn, secret: string, token: string): (ok: bool)
    ensures ok <==> unsign(secret, token).Ok?
  {
    match unsign(secret, token)
    case Err(_) => false
    case Ok(_) => true
  }

  /** time.Since: the clock minus the timestamp, clamped to the range of a Duration. */
  function Since(now: Time, ts: Time): (d: Duration)
    ensures MinInt64 <= now - ts <= MaxInt64 ==> d as int == now - ts
  {
    Saturate64(now - ts)
  }

  /** `time.Duration(minutes) * time.Minute`, with int64 wrap-around. */
  function MinutesDuration(minutes: Int64): (d: Duration)
    ensures -MaxMinutes <= minutes as int <= MaxMinutes ==> d as int == minutes as int * Minute
  {
    Wrap64(minutes as int * Minute)
  }

  /** TokenExpired: the time since the token's timestamp strictly exceeds the limit. */
  function TokenExpired(parse: string -> Time, now: Time, token: string, minutesUntilExpire: Int64): (expired: bool)
    ensures -MaxMinutes <= minutesUntilExpire as int <= MaxMinutes && MinInt64 <= now - parse(token) <= MaxInt64 ==>
      (expired <==> now - parse(token) > minutesUntilExpire as int * Minute)
  {
    Since(now, parse(token)) > MinutesDuration(minutesUntilExpire)
  }

  /** Elapsed time exactly equal to the limit is not expired. */
  lemma ExpiryBoundaryNotExpired(parse: string -> Time, token: string, minutes: Int64)
    requires -MaxMinutes <= minutes as int <= MaxMinutes
    ensures !TokenExpired(parse, parse(token) + minutes as int * Minute, token, minutes)
  {
  }

  /** A token expired under a limit is expired under every smaller limit (no wrap-around in either). */
  lemma TokenExpiredMonotone(parse: string -> Time, now: Time, token: string, m: Int64, smaller: Int64)
    requires -MaxMinutes <= smaller as int && smaller <= m && m as int <= MaxMinutes
    requires TokenExpired(parse, now, token, m)
    ensures TokenExpired(parse, now, token, smaller)
  {
    var d := Since(now, parse(token));
    assert MinutesDuration(m) as int == m as int * Minute;
    assert MinutesDuration(smaller) as int == smaller as int * Minute;
    assert smaller as int * Minute <= m as int * Minute;
  }

  /**
   * A limit one minute past MaxMinutes wraps to a negative duration, so a
   * token signed at this instant already counts as expired.
   */
  lemma TokenExpiredOverflow(parse: string -> Time, token: string)
    ensures TokenExpired(parse, parse(token), token, (MaxMinutes + 1) as Int64)
  {
    assert MinutesDuration((MaxMinutes + 1) as Int64) as int < 0;
  }
}

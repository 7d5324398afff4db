/** Servlet cookies, the response they are added to, and the conversions the service applies. */
module Cookies {
  import opened Wrappers

  const MinInt: int := -0x8000_0000
  const MaxInt: int := 0x7fff_ffff

  /** A Java `long`. */
  type Long = x: int | -0x8000_0000_0000_0000 <= x < 0x8000_0000_0000_0000

  /** `Long.intValue()`: keeps the low 32 bits, read as a two's-complement `int`. */
  function IntValue(x: Long): (r: int)
    ensures MinInt <= r <= MaxInt
    ensures (r - x) % 0x1_0000_0000 == 0
    ensures MinInt <= x <= MaxInt ==> r == x
  {
    var low := x % 0x1_0000_0000;
    if low <= MaxInt then low else low - 0x1_0000_0000
  }

  /** A `javax.servlet.http.Cookie`; `value` is `None` for a cookie built with a null value. */
  datatype Cookie = Cookie(name: string, value: Option<string>, path: string, maxAge: int, httpOnly: bool, secure: bool)

  /** The tokens the JWT provider issues at login. */
  datatype TokenInfo = TokenInfo(accessToken: string, refreshToken: string, refreshTokenExpirationTime: Long)

  const AccessTokenCookie := "accessToken"
  const RefreshTokenCookie := "refreshToken"

  /** The max age the service gives the access-token cookie, `30 * 60 * 1000L`. */
  const AccessTokenCookieMaxAge: Long := 30 * 60 * 1000

  /** `createCookie`: a readable, non-secure cookie for the whole site whose max age is the given
      `long` cut to an `int`. */
  function CreateCookie(name: string, value: string, maxAge: Long): (c: Cookie)
    ensures c.name == name && c.value == Some(value)
    ensures c.path == "/" && !c.httpOnly && !c.secure
    ensures MinInt <= maxAge <= MaxInt ==> c.maxAge == maxAge
    ensures MinInt <= c.maxAge <= MaxInt
  {
    Cookie(name, Some(value), "/", IntValue(maxAge), false, false)
  }

  /** The cookie `deleteCookies` emits for a name: no value, whole site, expire at once. */
  function ExpiredCookie(name: string): Cookie
  {
    Cookie(name, None, "/", 0, false, false)
  }

  /** The two cookies `addTokenCookiesToResponse` adds, access token first. */
  function TokenCookies(info: TokenInfo): seq<Cookie>
  {
    [CreateCookie(AccessTokenCookie, info.accessToken, AccessTokenCookieMaxAge),
     CreateCookie(RefreshTokenCookie, info.refreshToken, info.refreshTokenExpirationTime)]
  }

  /** The position of the first cookie called `name`, or `|cookies|` when there is none. */
  function FirstNamed(cookies: seq<Cookie>, name: string): (k: nat)
    ensures k <= |cookies|
    ensures k < |cookies| ==> cookies[k].name == name
    ensures forall j :: 0 <= j < k ==> cookies[j].name != name
  {
    if |cookies| == 0 then 0
    else if cookies[0].name == name then 0
    else 1 + FirstNamed(cookies[1..], name)
  }

  /** Thirty minutes, in the seconds that `Cookie.setMaxAge` counts. */
  const HalfHourSeconds: Long := 30 * 60

  /** As written, the access-token cookie is given the half hour counted in milliseconds, so the
      browser keeps it a thousand times longer than thirty minutes (500 hours). */
  lemma AccessCookieOutlivesHalfHour(info: TokenInfo)
    ensures TokenCookies(info)[0].name == AccessTokenCookie
    ensures TokenCookies(info)[0].maxAge == 1000 * HalfHourSeconds
    ensures TokenCookies(info)[0].maxAge == 500 * 60 * 60
  {
  }

  /** The token cookies with the access-token max age in seconds, as evidently intended. */
  function TokenCookiesInSeconds(info: TokenInfo): (cs: seq<Cookie>)
    ensures |cs| == 2
    ensures cs[0].name == AccessTokenCookie && cs[0].value == Some(info.accessToken)
    ensures cs[0].maxAge == HalfHourSeconds && cs[0].maxAge * 1000 == AccessTokenCookieMaxAge
    ensures cs[1] == TokenCookies(info)[1]
  {
    [CreateCookie(AccessTokenCookie, info.accessToken, HalfHourSeconds),
     CreateCookie(RefreshTokenCookie, info.refreshToken, info.refreshTokenExpirationTime)]
  }

  /** The cookies an `HttpServletResponse` has been given, in the order `addCookie` was called. */
  class Response {
    var cookies: seq<Cookie>

    constructor ()
      ensures cookies == []
    {
      cookies := [];
    }

    method AddCookie(c: Cookie)
      modifies this
      ensures cookies == old(cookies) + [c]
    {
      cookies := cookies + [c];
    }
  }
}

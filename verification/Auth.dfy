/** The registry's single-sign-on token cache: one bearer token per user
    name, reused while it has more than a minute to live. */
module Auth {
  import opened Wrappers
  import opened Text

  datatype CachedToken = CachedToken(accessToken: string, expiresAt: int)

  /** Cached tokens by user name. */
  type TokenCache = map<string, CachedToken>

  /** What the SSO endpoint answers a password grant: a token valid for
      `expiresIn` seconds, or an error with an optional description. */
  datatype SsoReply = Granted(accessToken: string, expiresIn: int) | Denied(errorDescription: Option<string>)

  /** One call: its result (the token, or the message it is rejected with),
      the cache afterwards, and whether a request went to the SSO. */
  datatype TokenStep = TokenStep(result: Result<string, string>, cache: TokenCache, requested: bool)

  /** A token is reused only while it has more than 60 seconds left. */
  const SafetyMarginMs := 60000

  const AuthFailedMessage := "Błąd autentykacji IRZ+"

  predicate Fresh(cache: TokenCache, username: string, now: int) {
    username in cache && cache[username].expiresAt > now + SafetyMarginMs
  }

  /** `fetchNewToken`: the reply arrives at `receivedAt` (milliseconds).
      Success stores the token under the user name; a failure leaves the
      cache as it was. */
  function FetchNewToken(cache: TokenCache, username: string, reply: SsoReply, receivedAt: int): (r: TokenStep)
    ensures r.requested
    ensures reply.Granted? ==>
      r.result == Ok(reply.accessToken) &&
      r.cache == cache[username := CachedToken(reply.accessToken, receivedAt + reply.expiresIn * 1000)]
    ensures reply.Denied? ==> r.cache == cache && r.result.Err?
    ensures reply.Denied? ==> (Truthy(reply.errorDescription) ==> r.result.error == reply.errorDescription.value)
    ensures reply.Denied? ==> (!Truthy(reply.errorDescription) ==> r.result.error == AuthFailedMessage)
  {
    match reply
    case Granted(token, expiresIn) =>
      TokenStep(Ok(token), cache[username := CachedToken(token, receivedAt + expiresIn * 1000)], true)
    case Denied(desc) =>
      TokenStep(Err(OrElse(desc, AuthFailedMessage)), cache, true)
  }

  /** `getToken`: the cache is consulted at `now`; on a miss the SSO is
      asked, `sso` standing for its answer to the user name and password. */
  function GetToken(cache: TokenCache, username: string, password: string, now: int,
                    sso: (string, string) -> SsoReply, receivedAt: int): (r: TokenStep)
    ensures r.requested <==> !Fresh(cache, username, now)
    ensures !r.requested ==> r.result == Ok(cache[username].accessToken) && r.cache == cache
    ensures r.requested ==> r == FetchNewToken(cache, username, sso(username, password), receivedAt)
    ensures forall u :: u != username ==> (u in r.cache <==> u in cache) && (u in cache ==> r.cache[u] == cache[u])
  {
    if Fresh(cache, username, now) then TokenStep(Ok(cache[username].accessToken), cache, false)
    else FetchNewToken(cache, username, sso(username, password), receivedAt)
  }

  /** `clearToken`. */
  function ClearToken(cache: TokenCache, username: string): (r: TokenCache)
    ensures username !in r
    ensures forall u :: u != username ==> (u in r <==> u in cache) && (u in r ==> r[u] == cache[u])
  {
    cache - {username}
  }

  /** While a token is fresh neither the password nor the SSO matter. */
  lemma CachedTokenIgnoresCredentials(cache: TokenCache, username: string, p1: string, p2: string, now: int,
                                      sso1: (string, string) -> SsoReply, sso2: (string, string) -> SsoReply,
                                      t1: int, t2: int)
    requires Fresh(cache, username, now)
    ensures GetToken(cache, username, p1, now, sso1, t1) == GetToken(cache, username, p2, now, sso2, t2)
  {
  }

  /** A token just granted is reused by the next call exactly when it still
      has more than the safety margin left at that call's time. */
  lemma GrantedTokenReusedIff(cache: TokenCache, username: string, password: string, now: int,
                              token: string, expiresIn: int, receivedAt: int, later: int,
                              sso: (string, string) -> SsoReply, t: int)
    requires !Fresh(cache, username, now)
    requires sso(username, password) == Granted(token, expiresIn)
    ensures var first := GetToken(cache, username, password, now, sso, receivedAt);
            var second := GetToken(first.cache, username, password, later, sso, t);
            (!second.requested <==> receivedAt + expiresIn * 1000 > later + SafetyMarginMs) &&
            (!second.requested ==> second.result == Ok(token))
  {
  }

  /** A token granted for more than a minute is reused by a call made at
      the moment it arrived. */
  lemma GrantedTokenReusedAtOnce(cache: TokenCache, username: string, password: string, now: int,
                                 token: string, expiresIn: int, receivedAt: int,
                                 sso: (string, string) -> SsoReply, t: int)
    requires !Fresh(cache, username, now)
    requires sso(username, password) == Granted(token, expiresIn)
    requires expiresIn > 60
    ensures var first := GetToken(cache, username, password, now, sso, receivedAt);
            GetToken(first.cache, username, password, receivedAt, sso, t) == TokenStep(Ok(token), first.cache, false)
  {
    GrantedTokenReusedIff(cache, username, password, now, token, expiresIn, receivedAt, receivedAt, sso, t);
  }

  /** After `clearToken` the next call goes to the SSO. */
  lemma ClearedTokenRefetched(cache: TokenCache, username: string, password: string, now: int,
                              sso: (string, string) -> SsoReply, t: int)
    ensures GetToken(ClearToken(cache, username), username, password, now, sso, t).requested
  {
  }

  /** A token valid for 60 seconds or less is never reused, whatever the
      clock says, so every call with it asks the SSO again. */
  lemma ShortLivedTokenNeverReused(cache: TokenCache, username: string, password: string, now: int,
                                   token: string, expiresIn: int, receivedAt: int, later: int,
                                   sso: (string, string) -> SsoReply, t: int)
    requires !Fresh(cache, username, now)
    requires sso(username, password) == Granted(token, expiresIn)
    requires expiresIn <= 60 && later >= receivedAt
    ensures var first := GetToken(cache, username, password, now, sso, receivedAt);
            GetToken(first.cache, username, password, later, sso, t).requested
  {
  }
}

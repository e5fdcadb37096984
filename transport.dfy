/**
 * The shared HTTP client every page uses: its request interceptor (bearer
 * credential, cache suppression on reads) and its response interceptor
 * (global sign-out on 401), together with the browser's `localStorage` auth
 * keys and location that they touch, and the sign-in and sign-out steps
 * of the login, register and navigation-bar components.
 */
module Transport {
  import opened Wrappers
  import opened Text
  import opened Client

  const AuthorizationHeader := "Authorization"
  const CacheControlHeader := "Cache-Control"
  const PragmaHeader := "Pragma"
  const NoCache := "no-cache"
  const CacheBuster := "_t"

  const TokenKey := "token"
  const UserIdKey := "userId"
  const UserEmailKey := "userEmail"
  const LoginPath := "/login"

  /** Query parameter values: strings, or the numeric cache-busting timestamp. */
  datatype ParamValue = Str(text: string) | Number(n: int)

  /** The parts of an outgoing request configuration the interceptor looks at or must leave alone. */
  datatype Config = Config(
    verb: string,             // `config.method`, already lower-cased by the client
    url: string,
    headers: map<string, string>,
    params: Option<map<string, ParamValue>>,   // absent is `undefined`
    data: Option<string>)

  /** `if (token)`: a stored, non-empty token. */
  predicate HasToken(token: Option<string>) {
    token.Some? && token.value != ""
  }

  /**
   * The request interceptor applied to `c`, with the stored token and the
   * clock value `now` used for `_t`.
   */
  function InterceptRequest(c: Config, token: Option<string>, now: int): (r: Config)
    ensures r.verb == c.verb && r.url == c.url && r.data == c.data
    ensures HasToken(token) ==>
      AuthorizationHeader in r.headers && r.headers[AuthorizationHeader] == "Bearer " + token.value
    ensures !HasToken(token) ==>
      Get(r.headers, AuthorizationHeader) == Get(c.headers, AuthorizationHeader)
    ensures c.verb == "get" ==>
      && CacheControlHeader in r.headers && r.headers[CacheControlHeader] == NoCache
      && PragmaHeader in r.headers && r.headers[PragmaHeader] == NoCache
      && r.params.Some? && CacheBuster in r.params.value && r.params.value[CacheBuster] == Number(now)
      && r.params.value - {CacheBuster} == (if c.params.Some? then c.params.value else map[]) - {CacheBuster}
    ensures c.verb != "get" ==>
      && Get(r.headers, CacheControlHeader) == Get(c.headers, CacheControlHeader)
      && Get(r.headers, PragmaHeader) == Get(c.headers, PragmaHeader)
      && r.params == c.params
    ensures r.headers - {AuthorizationHeader, CacheControlHeader, PragmaHeader}
         == c.headers - {AuthorizationHeader, CacheControlHeader, PragmaHeader}
  {
    var headers := if HasToken(token) then c.headers[AuthorizationHeader := "Bearer " + token.value] else c.headers;
    if c.verb == "get" then
      var params := if c.params.Some? then c.params.value else map[];
      c.(headers := headers[CacheControlHeader := NoCache][PragmaHeader := NoCache],
         params := Some(params[CacheBuster := Number(now)]))
    else
      c.(headers := headers)
  }

  /** The storage left after the three auth keys are removed; every other key is kept. */
  function WithoutAuth(storage: map<string, string>): (r: map<string, string>)
    ensures r.Keys == storage.Keys - {TokenKey, UserIdKey, UserEmailKey}
    ensures forall k :: k in r ==> r[k] == storage[k]
  {
    storage - {TokenKey, UserIdKey, UserEmailKey}
  }

  /** Tearing the session down twice leaves the same storage as once. */
  lemma TeardownIdempotent(storage: map<string, string>)
    ensures WithoutAuth(WithoutAuth(storage)) == WithoutAuth(storage)
  {
  }

  /** The auth session the storage holds: token, user id and email, when a token is stored. */
  function SessionOf(storage: map<string, string>): (s: Option<(string, string, string)>)
    ensures s.Some? <==> TokenKey in storage
    ensures s.Some? ==> s.value.0 == storage[TokenKey]
  {
    if TokenKey in storage then
      Some((storage[TokenKey], if UserIdKey in storage then storage[UserIdKey] else "",
            if UserEmailKey in storage then storage[UserEmailKey] else ""))
    else None
  }

  /** Whether a settled call is the authorization failure that triggers the teardown. */
  predicate IsUnauthorized<T>(outcome: Response<T>) {
    outcome.Err? && outcome.error.status == Some(401)
  }

  /** The browser state the client shares across pages. */
  class Browser {
    var storage: map<string, string>
    var location: string

    constructor (storage: map<string, string>, location: string)
      ensures this.storage == storage && this.location == location
    {
      this.storage := storage;
      this.location := location;
    }

    /** The request interceptor reads the stored token; it changes nothing in the browser. */
    method PrepareRequest(c: Config, now: int) returns (r: Config)
      ensures r == InterceptRequest(c, Get(storage, TokenKey), now)
    {
      var token := Get(storage, TokenKey);
      r := InterceptRequest(c, token, now);
    }

    /** The login and register pages storing a successful response's three auth values. */
    method StoreSession(token: string, userId: int, userEmail: string)
      modifies this`storage
      ensures storage == old(storage)[TokenKey := token][UserIdKey := DecimalString(userId)][UserEmailKey := userEmail]
      ensures SessionOf(storage) == Some((token, DecimalString(userId), userEmail))
    {
      storage := storage[TokenKey := token];
      storage := storage[UserIdKey := DecimalString(userId)];
      storage := storage[UserEmailKey := userEmail];
    }

    /** The navigation bar's sign-out: the same three removals. */
    method Logout()
      modifies this`storage
      ensures storage == WithoutAuth(old(storage)) && SessionOf(storage).None?
    {
      storage := storage - {TokenKey};
      storage := storage - {UserIdKey};
      storage := storage - {UserEmailKey};
    }

    /**
     * The response interceptor: every outcome is passed on unchanged (a
     * success resolved, an error rejected); a 401, whichever call produced
     * it, also removes the auth keys and sends the browser to the login page.
     */
    method InterceptResponse<T>(outcome: Response<T>) returns (delivered: Response<T>)
      modifies this
      ensures delivered == outcome
      ensures IsUnauthorized(outcome) ==> storage == WithoutAuth(old(storage)) && location == LoginPath
      ensures !IsUnauthorized(outcome) ==> storage == old(storage) && location == old(location)
    {
      if outcome.Err? && outcome.error.status == Some(401) {
        storage := storage - {TokenKey};
        storage := storage - {UserIdKey};
        storage := storage - {UserEmailKey};
        location := LoginPath;
      }
      delivered := outcome;
    }
  }
}

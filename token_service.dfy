/**
 * The one-slot CODEF token cache (`CodefTokenService.kt`). The read/write lock is
 * not modelled: operations run one at a time. Each clock reading the source takes
 * is a parameter, and the answer of the token endpoint is an `Exchange`.
 */
module CodefTokens {
  import opened Wrappers
  import opened Failures
  import opened Codef
  import opened CodefClient

  /** The cache holds a token that is not expired when the clock reads `now`. */
  predicate Fresh(cache: Option<CodefToken>, now: Instant)
  {
    cache.Some? && !cache.value.IsExpired(now)
  }

  /** What one `getValidToken` does: the new cache, what it returns or throws, and whether it called the token endpoint. */
  datatype Step = Step(cache: Option<CodefToken>, result: Result<string, Failure>, issued: bool)

  /**
   * `getValidToken` on cache `cache`, with the clock reading `readNow` under the read lock and `writeNow`
   * under the write lock, and the token endpoint answering `issuance` if it is called.
   */
  function ValidToken(cache: Option<CodefToken>, readNow: Instant, writeNow: Instant, issuance: Exchange<CodefToken>): (s: Step)
    // The endpoint is called exactly when both checks find no usable token.
    ensures s.issued <==> !Fresh(cache, readNow) && !Fresh(cache, writeNow)
    // A usable cached token is returned as it is and the cache stays.
    ensures !s.issued ==> s.cache == cache && s.result == Ok(cache.value.accessToken)
    // The token obtained by issuance replaces the cache.
    ensures s.issued && IssueToken(issuance).Ok? ==>
              s.cache == Some(IssueToken(issuance).value) && s.result == Ok(IssueToken(issuance).value.accessToken)
    // A failed issuance propagates and leaves the cache untouched.
    ensures s.issued && IssueToken(issuance).Err? ==> s.cache == cache && s.result == Err(IssueToken(issuance).error)
    // After success the cache holds the token whose access token was returned.
    ensures s.result.Ok? ==> s.cache.Some? && s.cache.value.accessToken == s.result.value
    // A cached token is only returned when it was unexpired at the check that accepted it.
    ensures s.result.Ok? && !s.issued ==> Fresh(cache, readNow) || Fresh(cache, writeNow)
  {
    if Fresh(cache, readNow) then Step(cache, Ok(cache.value.accessToken), false)
    else if Fresh(cache, writeNow) then Step(cache, Ok(cache.value.accessToken), false)
    else match IssueToken(issuance)
      case Ok(t) => Step(Some(t), Ok(t.accessToken), true)
      case Err(f) => Step(cache, Err(f), true)
  }

  /** `refreshToken`: always calls the endpoint; a new token replaces the cache whatever its state, a failure leaves it. */
  function Refreshed(cache: Option<CodefToken>, issuance: Exchange<CodefToken>): (s: Step)
    ensures s.issued
    ensures s.result.Ok? <==> IssueToken(issuance).Ok?
    ensures s.result.Ok? ==> s.cache == Some(IssueToken(issuance).value) && s.result.value == s.cache.value.accessToken
    ensures s.result.Err? ==> s.cache == cache && s.result.error == IssueToken(issuance).error
  {
    match IssueToken(issuance)
    case Ok(t) => Step(Some(t), Ok(t.accessToken), true)
    case Err(f) => Step(cache, Err(f), true)
  }

  /** The cache slot and the client that fills it. */
  class CodefTokenService {
    const config: ClientConfig
    var cachedToken: Option<CodefToken>

    constructor(config: ClientConfig)
      ensures this.config == config && cachedToken == None
    {
      this.config := config;
      cachedToken := None;
    }

    /**
     * `getValidToken()`. `call` is the request sent to the token endpoint, if one was sent.
     * The new state and the result are those of `ValidToken`.
     */
    method GetValidToken(readNow: Instant, writeNow: Instant, issuance: Exchange<CodefToken>)
      returns (r: Result<string, Failure>, call: Option<HttpRequest>)
      modifies this
      ensures var s := ValidToken(old(cachedToken), readNow, writeNow, issuance);
              r == s.result && cachedToken == s.cache && call == (if s.issued then Some(TokenCall(config)) else None)
    {
      call := None;
      // fast path, under the read lock
      var token := cachedToken;
      if token.Some? && !token.value.IsExpired(readNow) {
        return Ok(token.value.accessToken), call;
      }
      // double check, under the write lock
      token := cachedToken;
      if token.Some? && !token.value.IsExpired(writeNow) {
        return Ok(token.value.accessToken), call;
      }
      call := Some(TokenCall(config));
      var issued := IssueToken(issuance);
      if issued.Err? {
        return Err(issued.error), call;
      }
      cachedToken := Some(issued.value);
      r := Ok(issued.value.accessToken);
    }

    /** `refreshToken()`: the new state and the result are those of `Refreshed`. */
    method RefreshToken(issuance: Exchange<CodefToken>) returns (r: Result<string, Failure>, call: HttpRequest)
      modifies this
      ensures var s := Refreshed(old(cachedToken), issuance);
              r == s.result && cachedToken == s.cache && call == TokenCall(config)
    {
      call := TokenCall(config);
      var issued := IssueToken(issuance);
      if issued.Err? {
        return Err(issued.error), call;
      }
      cachedToken := Some(issued.value);
      r := Ok(issued.value.accessToken);
    }
  }

  /**
   * When the clock does not go backwards between the two checks, the second check never rescues a token
   * the first rejected: the endpoint is called exactly when the first check fails.
   */
  lemma RecheckAgreesWithFirstCheck(cache: Option<CodefToken>, readNow: Instant, writeNow: Instant, issuance: Exchange<CodefToken>)
    requires readNow <= writeNow
    ensures ValidToken(cache, readNow, writeNow, issuance).issued <==> !Fresh(cache, readNow)
  {
    if cache.Some? && cache.value.IsExpired(readNow) {
      ExpiryMonotone(cache.value, readNow, writeNow);
    }
  }

  /** A token obtained by `getValidToken` is served from the cache, without a new issuance, until it expires. */
  lemma IssuedTokenIsReused(cache: Option<CodefToken>, now1: Instant, now2: Instant, issuance: Exchange<CodefToken>,
                            later: Instant, later2: Instant, issuance2: Exchange<CodefToken>)
    requires ValidToken(cache, now1, now2, issuance).result.Ok?
    requires var c := ValidToken(cache, now1, now2, issuance).cache; !c.value.IsExpired(later)
    ensures var s := ValidToken(cache, now1, now2, issuance);
            var s2 := ValidToken(s.cache, later, later2, issuance2);
            !s2.issued && s2.result == s.result && s2.cache == s.cache
  {
  }

  /** After a successful refresh, `getValidToken` returns the refreshed token while it is unexpired. */
  lemma RefreshThenGet(cache: Option<CodefToken>, issuance: Exchange<CodefToken>, now: Instant, now2: Instant, issuance2: Exchange<CodefToken>)
    requires Refreshed(cache, issuance).result.Ok?
    requires !IssueToken(issuance).value.IsExpired(now)
    ensures ValidToken(Refreshed(cache, issuance).cache, now, now2, issuance2).result == Ok(IssueToken(issuance).value.accessToken)
    ensures !ValidToken(Refreshed(cache, issuance).cache, now, now2, issuance2).issued
  {
  }
}

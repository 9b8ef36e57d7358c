/** The CODEF access token and response envelope records (`Codef.kt`). */
module Codef {
  import opened Wrappers

  /** A clock reading: nanoseconds on the local date-time line, the resolution of `LocalDateTime`. */
  type Instant = int

  const NanosPerSecond: int := 1_000_000_000

  /** The result code CODEF uses for success. */
  const SuccessCode: string := "CF-00000"

  /** An issued access token. `issuedAt` is the reading of the clock when the token record was created. */
  datatype CodefToken = CodefToken(
    accessToken: string,
    tokenType: string := "Bearer",
    expiresIn: int,
    scope: string,
    issuedAt: Instant)
  {
    /** `issuedAt.plusSeconds(expiresIn)`. */
    function ExpiryTime(): Instant
    {
      issuedAt + expiresIn * NanosPerSecond
    }

    /** `isExpired()` when the clock reads `now`: `now` is strictly after the expiry instant. */
    predicate IsExpired(now: Instant)
    {
      now > ExpiryTime()
    }
  }

  /** The expiry instant itself still counts as valid; one tick later the token is expired. */
  lemma ExpiryBoundary(t: CodefToken)
    ensures !t.IsExpired(t.ExpiryTime())
    ensures t.IsExpired(t.ExpiryTime() + 1)
  {
  }

  /** Expiry is monotone in time: once expired, expired at every later reading. */
  lemma ExpiryMonotone(t: CodefToken, earlier: Instant, later: Instant)
    requires earlier <= later && t.IsExpired(earlier)
    ensures t.IsExpired(later)
  {
  }

  /** A token record built without a type is a bearer token. */
  lemma TokenTypeDefault(accessToken: string, expiresIn: int, scope: string, issuedAt: Instant)
    ensures CodefToken(accessToken := accessToken, expiresIn := expiresIn, scope := scope, issuedAt := issuedAt).tokenType == "Bearer"
  {
  }

  /** The client-credentials request of section 4.4 of RFC 6749. */
  datatype CodefTokenRequest = CodefTokenRequest(
    grantType: string := "client_credentials",
    scope: string := "read")

  /** The `result` part of every CODEF response. */
  datatype CodefResult = CodefResult(code: string, message: string, extraMessage: Option<string> := None)
  {
    /** `isSuccess()`. */
    predicate IsSuccess()
    {
      code == SuccessCode
    }
  }

  /** A CODEF response envelope: the result is always there, the payload may be absent. */
  datatype CodefApiResponse<T> = CodefApiResponse(result: CodefResult, data: Option<T>)

  /** Only the sentinel code counts as success; an error code such as "CF-99999" does not. */
  lemma SuccessOnlyForSentinel(r: CodefResult)
    ensures r.IsSuccess() <==> r.code == "CF-00000"
    ensures !CodefResult("CF-99999", r.message).IsSuccess()
  {
  }
}

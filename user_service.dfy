/**
 * The in-memory user registry (`UserService.kt`): users keyed by email, looked up
 * by id, and the two operations that go through CODEF. Operations run one at a
 * time; the clock readings and the generated UUID are parameters (the two CODEF
 * operations share one reading), and CODEF's answers are `Exchange` values.
 */
module Users {
  import opened Wrappers
  import opened JsonData
  import opened Failures
  import opened Codef
  import opened UserDomain
  import opened CodefClient
  import opened CodefTokens

  /** The attributes of the OAuth2 principal that `saveOrUpdateUser` reads; an absent attribute is `None`. */
  datatype OAuth2Claims = OAuth2Claims(email: Option<string>, name: Option<string>, sub: Option<string>, picture: Option<string>)

  /**
   * The user `saveOrUpdateUser` creates for an email it has not seen. The two timestamps are the two
   * clock readings of `User`'s default arguments, taken in order.
   */
  function NewUser(claims: OAuth2Claims, email: string, id: string, createdAt: Instant, updatedAt: Instant): (u: User)
    ensures u.id == id && u.email == email && u.provider == GOOGLE
    ensures u.name == OrElse(claims.name, "Unknown") && u.providerId == OrElse(claims.sub, "")
    ensures u.profileImageUrl == claims.picture && u.codefConnectedId == None
    ensures u.createdAt == createdAt && u.updatedAt == updatedAt
  {
    User(id := id, email := email, name := OrElse(claims.name, "Unknown"), provider := GOOGLE,
         providerId := OrElse(claims.sub, ""), profileImageUrl := claims.picture,
         createdAt := createdAt, updatedAt := updatedAt)
  }

  class UserService {
    const tokenService: CodefTokenService
    var userStore: map<string, User>

    /** Every entry is keyed by its own user's email. */
    predicate Valid()
      reads this
    {
      forall e :: e in userStore ==> userStore[e].email == e
    }

    /** No two stored users share an id. */
    predicate UniqueIds()
      reads this
    {
      forall e1, e2 :: e1 in userStore && e2 in userStore && userStore[e1].id == userStore[e2].id ==> e1 == e2
    }

    /** Some stored user has id `id`. */
    predicate HasId(id: string)
      reads this
    {
      exists e :: e in userStore && userStore[e].id == id
    }

    constructor(tokenService: CodefTokenService)
      ensures this.tokenService == tokenService && userStore == map[]
      ensures Valid() && UniqueIds()
    {
      this.tokenService := tokenService;
      userStore := map[];
    }

    /**
     * `saveOrUpdateUser`: an unknown email gets a new user with id `freshId`, created at `now` and updated at
     * `nowAgain` (the second clock reading); a known one gets its record back with `updatedAt` set to `now`.
     * Either way the record is stored under the email.
     */
    method SaveOrUpdateUser(claims: OAuth2Claims, now: Instant, nowAgain: Instant, freshId: string) returns (r: Result<User, Failure>)
      requires Valid()
      modifies this
      ensures Valid()
      ensures claims.email.None? ==>
                r == Err(IllegalArgumentException("Email not found in OAuth2 user")) && userStore == old(userStore)
      ensures claims.email.Some? && claims.email.value in old(userStore) ==>
                r == Ok(old(userStore)[claims.email.value].(updatedAt := now))
      ensures claims.email.Some? && claims.email.value !in old(userStore) ==>
                r == Ok(NewUser(claims, claims.email.value, freshId, now, nowAgain))
      ensures r.Ok? ==> userStore == old(userStore)[r.value.email := r.value]
      ensures old(UniqueIds()) && (r.Ok? ==> r.value.id == freshId ==> !old(HasId(freshId))) ==> UniqueIds()
    {
      if claims.email.None? {
        return Err(IllegalArgumentException("Email not found in OAuth2 user"));
      }
      var email := claims.email.value;
      if email in userStore {
        var updated := userStore[email].(updatedAt := now);
        userStore := userStore[email := updated];
        r := Ok(updated);
      } else {
        var newUser := NewUser(claims, email, freshId, now, nowAgain);
        userStore := userStore[email := newUser];
        r := Ok(newUser);
      }
    }

    /** `findByEmail`. */
    function FindByEmail(email: string): (r: Option<User>)
      reads this
      ensures r.Some? <==> email in userStore
      ensures r.Some? ==> r.value == userStore[email]
    {
      if email in userStore then Some(userStore[email]) else None
    }

    /** `userStore.values.find { it.id == userId }`: the map's iteration order is unspecified, so any match may come first. */
    method FindById(userId: string) returns (r: Option<User>)
      ensures r.None? <==> !HasId(userId)
      ensures r.Some? ==> r.value.id == userId && r.value in userStore.Values
    {
      var remaining := userStore.Keys;
      while remaining != {}
        invariant remaining <= userStore.Keys
        invariant forall e :: e in userStore && e !in remaining ==> userStore[e].id != userId
        decreases remaining
      {
        var e :| e in remaining;
        if userStore[e].id == userId {
          return Some(userStore[e]);
        }
        remaining := remaining - {e};
      }
      return None;
    }

    /**
     * `registerCodefConnection`: finds the user by id, obtains a token, asks CODEF for a connected id and stores
     * it on the user, overwriting any earlier one. The clock reads `now` throughout. `call` is the
     * connected-id request, when one is sent.
     */
    method RegisterCodefConnection(userId: string, request: CodefRegistrationRequest, now: Instant,
                                   issuance: Exchange<CodefToken>, reply: Exchange<CodefApiResponse<Json>>)
      returns (r: Result<CodefConnectedIdResponse, Failure>, call: Option<HttpRequest>)
      requires Valid()
      modifies this, tokenService
      ensures Valid()
      // unknown id: fails before the token service is consulted
      ensures !old(HasId(userId)) ==>
                r == Err(IllegalArgumentException("User not found: " + userId)) && unchanged(tokenService)
      // known id: the token service takes one step, and its failure is ours
      ensures old(HasId(userId)) ==>
                tokenService.cachedToken == ValidToken(old(tokenService.cachedToken), now, now, issuance).cache
      ensures old(HasId(userId)) && ValidToken(old(tokenService.cachedToken), now, now, issuance).result.Err? ==>
                r == Err(ValidToken(old(tokenService.cachedToken), now, now, issuance).result.error)
      ensures old(HasId(userId)) && ValidToken(old(tokenService.cachedToken), now, now, issuance).result.Ok? ==>
                r == ConnectedIdReply(request, reply, now)
      // CODEF is asked exactly when a token was obtained, with that token and the caller's request
      ensures call.Some? <==> old(HasId(userId)) && ValidToken(old(tokenService.cachedToken), now, now, issuance).result.Ok?
      ensures call.Some? ==>
                && call.value.path == CreateAccountPath && call.value.contentType == ApplicationJson
                && call.value.authorization == "Bearer " + ValidToken(old(tokenService.cachedToken), now, now, issuance).result.value
                && IsConnectedIdBody(request, call.value.body)
      // any failure leaves the store as it was
      ensures r.Err? ==> userStore == old(userStore)
      // success changes one user: its connected id and its update time
      ensures r.Ok? ==>
                exists e :: e in old(userStore) && old(userStore)[e].id == userId &&
                  userStore == old(userStore)[e := old(userStore)[e].(codefConnectedId := Some(r.value.connectedId), updatedAt := now)]
      ensures old(UniqueIds()) ==> UniqueIds()
    {
      call := None;
      var user := FindById(userId);
      if user.None? {
        return Err(IllegalArgumentException("User not found: " + userId)), call;
      }
      var u := user.value;
      var token, _ := tokenService.GetValidToken(now, now, issuance);
      if token.Err? {
        return Err(token.error), call;
      }
      var sent, response := CreateConnectedId(token.value, request, reply, now);
      call := Some(sent);
      if response.Err? {
        return Err(response.error), call;
      }
      var updated := u.(codefConnectedId := Some(response.value.connectedId), updatedAt := now);
      userStore := userStore[u.email := updated];
      r := response;
    }

    /**
     * `getUserAccounts`: finds the user by id, requires a stored connected id, obtains a token and lists the
     * user's accounts. `call` is the account-list request, when one is sent.
     */
    method GetUserAccounts(userId: string, now: Instant, issuance: Exchange<CodefToken>, reply: Exchange<CodefApiResponse<Json>>)
      returns (r: Result<seq<Json>, Failure>, call: Option<HttpRequest>)
      modifies tokenService
      ensures !HasId(userId) ==>
                r == Err(IllegalArgumentException("User not found: " + userId)) && call == None && unchanged(tokenService)
      ensures HasId(userId) && (forall u :: u in userStore.Values && u.id == userId ==> u.codefConnectedId.None?) ==>
                r == Err(IllegalStateException("User has no CODEF connection")) && call == None && unchanged(tokenService)
      ensures HasId(userId) && (forall u :: u in userStore.Values && u.id == userId ==> u.codefConnectedId.Some?) ==>
                var s := ValidToken(old(tokenService.cachedToken), now, now, issuance);
                tokenService.cachedToken == s.cache
                && (s.result.Err? ==> r == Err(s.result.error) && call == None)
                && (s.result.Ok? ==> r == GetAccounts(reply) && call.Some?)
      // the request carries the connected id stored on the user
      ensures call.Some? ==>
                var s := ValidToken(old(tokenService.cachedToken), now, now, issuance);
                s.result.Ok? &&
                exists u :: u in userStore.Values && u.id == userId && u.codefConnectedId.Some? &&
                  call.value == AccountsCall(s.result.value, u.codefConnectedId.value)
    {
      call := None;
      var user := FindById(userId);
      if user.None? {
        return Err(IllegalArgumentException("User not found: " + userId)), call;
      }
      var connectedId := user.value.codefConnectedId;
      if connectedId.None? {
        return Err(IllegalStateException("User has no CODEF connection")), call;
      }
      var token, _ := tokenService.GetValidToken(now, now, issuance);
      if token.Err? {
        return Err(token.error), call;
      }
      call := Some(AccountsCall(token.value, connectedId.value));
      r := GetAccounts(reply);
    }
  }
}

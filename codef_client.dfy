/**
 * The CODEF gateway (`CodefClient.kt`): the requests it sends and how it reads
 * the answers. Sending is not modelled: each operation receives the outcome of
 * its HTTP call as an `Exchange` value.
 */
module CodefClient {
  import opened Wrappers
  import opened Dicts
  import opened Text
  import opened JsonData
  import opened Failures
  import opened Codef
  import opened UserDomain
  import Utf8
  import Base64

  /** The client's CODEF credentials (the constructor's `clientId` and `clientSecret`). */
  datatype ClientConfig = ClientConfig(clientId: string, clientSecret: string)

  /** One POST: its path, Authorization header, content type and body fields. */
  datatype HttpRequest = HttpRequest(path: string, authorization: string, contentType: string, body: map<string, string>)

  /** What the HTTP client hands back for a call: the deserialised body (absent when there was none) or what it threw. */
  datatype Exchange<T> = Received(body: Option<T>) | Raised(failure: Failure)

  const TokenPath: string := "/v1/oauth/2.0/token"
  const CreateAccountPath: string := "/v1/account/create"
  const AccountListPath: string := "/v1/kr/bank/p/account/account-list"
  const FormUrlEncoded: string := "application/x-www-form-urlencoded"
  const ApplicationJson: string := "application/json"

  /** The organization code `getAccounts` always asks for. */
  const AccountsOrganization: string := "0004"

  /** The HTTP Basic header of section 2 of RFC 7617: "Basic " and the base64 of the UTF-8 bytes of "id:secret". */
  function BasicAuthorization(config: ClientConfig): string
  {
    "Basic " + Base64.Encode(Utf8.Encode(config.clientId + ":" + config.clientSecret))
  }

  /** `issueToken`'s request: the client-credentials grant of section 4.4 of RFC 6749, form-encoded, Basic-authenticated. */
  function TokenCall(config: ClientConfig): (call: HttpRequest)
    ensures call.body == map["grant_type" := CodefTokenRequest().grantType, "scope" := CodefTokenRequest().scope]
    ensures call.path == TokenPath && call.contentType == FormUrlEncoded
    ensures call.authorization == BasicAuthorization(config)
    ensures |call.authorization| >= 6 && call.authorization[..6] == "Basic "
  {
    HttpRequest(TokenPath, BasicAuthorization(config), FormUrlEncoded,
                map["grant_type" := "client_credentials", "scope" := "read"])
  }

  /** The server recovers the credentials from the Authorization header: the base64 decodes to the UTF-8 of "id:secret". */
  lemma {:induction false} BasicAuthorizationDecodes(config: ClientConfig)
    ensures var h := BasicAuthorization(config);
            |h| >= 6 && h[..6] == "Basic "
            && Base64.Decode(h[6..]) == Some(Utf8.Encode(config.clientId + ":" + config.clientSecret))
            && Utf8.Decode(Base64.Decode(h[6..]).value) == Some(config.clientId + ":" + config.clientSecret)
  {
    var pair := config.clientId + ":" + config.clientSecret;
    var h := BasicAuthorization(config);
    assert h[6..] == Base64.Encode(Utf8.Encode(pair));
    Base64.DecodeEncode(Utf8.Encode(pair));
    Utf8.DecodeEncode(pair);
  }

  /** When the client id has no colon, the first colon of the decoded pair separates id from secret, as RFC 7617 reads it. */
  lemma CredentialsSplitAtFirstColon(config: ClientConfig)
    requires ':' !in config.clientId
    ensures var pair := config.clientId + ":" + config.clientSecret;
            Find(pair, ":") == Some(|config.clientId|)
            && pair[..|config.clientId|] == config.clientId
            && pair[|config.clientId| + 1..] == config.clientSecret
  {
    FindAfterPrefix(config.clientId, ":", config.clientSecret);
  }

  /** `issueToken`, given the outcome of `TokenCall(config)`: the token, or a failure when the body is absent. */
  function IssueToken(reply: Exchange<CodefToken>): (r: Result<CodefToken, Failure>)
    ensures r.Ok? <==> reply.Received? && reply.body.Some?
    ensures r.Ok? ==> r.value == reply.body.value
    ensures reply == Received(None) ==> r == Err(CodefApiException("Failed to issue token"))
    ensures reply.Raised? ==> r == Err(reply.failure)
  {
    match reply
    case Raised(f) => Err(f)
    case Received(None) => Err(CodefApiException("Failed to issue token"))
    case Received(Some(t)) => Ok(t)
  }

  /** The message of a non-success envelope. */
  function ApiErrorMessage(result: CodefResult): string
  {
    "CODEF API error: " + result.code + " - " + result.message
  }

  /** The envelope checks shared by both data calls: a body must be present and its result code must be the success code. */
  function CheckEnvelope(reply: Exchange<CodefApiResponse<Json>>, noBody: string): (r: Result<Option<Json>, Failure>)
    ensures r.Ok? <==> reply.Received? && reply.body.Some? && reply.body.value.result.IsSuccess()
    ensures r.Ok? ==> r.value == reply.body.value.data
    ensures reply == Received(None) ==> r == Err(CodefApiException(noBody))
    ensures reply.Received? && reply.body.Some? && !reply.body.value.result.IsSuccess() ==>
              r == Err(CodefApiException(ApiErrorMessage(reply.body.value.result)))
  {
    match reply
    case Raised(f) => Err(f)
    case Received(None) => Err(CodefApiException(noBody))
    case Received(Some(response)) =>
      if !response.result.IsSuccess() then Err(CodefApiException(ApiErrorMessage(response.result)))
      else Ok(response.data)
  }

  /** `body` holds the request's five fields, and each certificate field exactly when it is set. */
  predicate IsConnectedIdBody(request: CodefRegistrationRequest, body: map<string, string>)
  {
    && body.Keys == {"organization", "loginType", "userName", "identity", "phoneNo"}
                    + (if request.certFile.Some? then {"certFile"} else {})
                    + (if request.certPassword.Some? then {"certPassword"} else {})
    && body["organization"] == request.organization && body["loginType"] == request.loginType
    && body["userName"] == request.userName && body["identity"] == request.identity
    && body["phoneNo"] == request.phoneNo
    && (request.certFile.Some? ==> body["certFile"] == request.certFile.value)
    && (request.certPassword.Some? ==> body["certPassword"] == request.certPassword.value)
  }

  /** `createConnectedId`'s JSON body: five fields always, then each certificate field when it is not null. */
  method BuildConnectedIdBody(request: CodefRegistrationRequest) returns (body: map<string, string>)
    ensures IsConnectedIdBody(request, body)
  {
    body := map["organization" := request.organization, "loginType" := request.loginType,
                "userName" := request.userName, "identity" := request.identity, "phoneNo" := request.phoneNo];
    if request.certFile.Some? {
      body := body["certFile" := request.certFile.value];
    }
    if request.certPassword.Some? {
      body := body["certPassword" := request.certPassword.value];
    }
  }

  /** How `createConnectedId` reads CODEF's answer; the organization is echoed from the request. */
  function ConnectedIdReply(request: CodefRegistrationRequest, reply: Exchange<CodefApiResponse<Json>>, now: Instant)
    : (r: Result<CodefConnectedIdResponse, Failure>)
    ensures r.Ok? <==>
      && CheckEnvelope(reply, "Failed to create connected ID").Ok?
      && reply.body.value.data.Some? && reply.body.value.data.value.JObject?
      && Get(reply.body.value.data.value.fields, "connectedId").Some?
      && Get(reply.body.value.data.value.fields, "connectedId").value.JString?
    ensures r.Ok? ==> r.value == CodefConnectedIdResponse(
      Get(reply.body.value.data.value.fields, "connectedId").value.s, request.organization, now)
    ensures CheckEnvelope(reply, "Failed to create connected ID").Err? ==>
      r == Err(CheckEnvelope(reply, "Failed to create connected ID").error)
    ensures CheckEnvelope(reply, "Failed to create connected ID").Ok? && !(reply.body.value.data.Some? && reply.body.value.data.value.JObject?) ==>
      r == Err(CodefApiException("Invalid response data"))
  {
    match CheckEnvelope(reply, "Failed to create connected ID")
    case Err(f) => Err(f)
    case Ok(data) =>
      if !(data.Some? && data.value.JObject?) then Err(CodefApiException("Invalid response data"))
      else
        var field: Option<Json> := Get(data.value.fields, "connectedId");
        if field.None? || field.value.JNull? then
          Err(NullPointerException("null cannot be cast to non-null type kotlin.String"))
        else if field.value.JString? then Ok(CodefConnectedIdResponse(field.value.s, request.organization, now))
        else Err(ClassCastException)
  }

  /**
   * `createConnectedId(token, request)`: returns the request it sends and, given CODEF's answer `reply`,
   * the connected id. `now` is the clock reading that stamps the response record.
   */
  method CreateConnectedId(token: string, request: CodefRegistrationRequest, reply: Exchange<CodefApiResponse<Json>>, now: Instant)
    returns (sent: HttpRequest, r: Result<CodefConnectedIdResponse, Failure>)
    ensures sent.path == CreateAccountPath && sent.contentType == ApplicationJson
    ensures sent.authorization == "Bearer " + token
    ensures IsConnectedIdBody(request, sent.body)
    ensures r == ConnectedIdReply(request, reply, now)
  {
    var body := BuildConnectedIdBody(request);
    sent := HttpRequest(CreateAccountPath, "Bearer " + token, ApplicationJson, body);
    r := ConnectedIdReply(request, reply, now);
  }

  /** `getAccounts`' request: the connected id and the fixed organization "0004". */
  function AccountsCall(token: string, connectedId: string): (call: HttpRequest)
    ensures call.body.Keys == {"connectedId", "organization"}
    ensures call.body["connectedId"] == connectedId && call.body["organization"] == AccountsOrganization
  {
    HttpRequest(AccountListPath, "Bearer " + token, ApplicationJson,
                map["connectedId" := connectedId, "organization" := AccountsOrganization])
  }

  /**
   * How `getAccounts` reads CODEF's answer: a list payload is returned as it is (the element type is
   * erased at run time, so elements are not checked); any other or absent payload gives an empty list.
   */
  function GetAccounts(reply: Exchange<CodefApiResponse<Json>>): (r: Result<seq<Json>, Failure>)
    ensures r.Ok? <==> CheckEnvelope(reply, "Failed to get accounts").Ok?
    ensures r.Err? ==> r.error == CheckEnvelope(reply, "Failed to get accounts").error
    ensures r.Ok? && reply.body.value.data.Some? && reply.body.value.data.value.JArray? ==>
              r.value == reply.body.value.data.value.items
    ensures r.Ok? && !(reply.body.value.data.Some? && reply.body.value.data.value.JArray?) ==> r.value == []
  {
    match CheckEnvelope(reply, "Failed to get accounts")
    case Err(f) => Err(f)
    case Ok(data) =>
      match data
      case Some(JArray(items)) => Ok(items)
      case _ => Ok([])
  }
}

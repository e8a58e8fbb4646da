/**
 * The client side of the token exchange (`getToken` in application-client/src/App.tsx): how the
 * HTTP response of POST /token becomes either the token or the error `joinRoom` catches.
 */
module TokenClient {
  import opened Wrappers
  import opened Livekit
  import TokenServer

  /** The JSON object in a response body, as far as `getToken` reads it. */
  datatype TokenJson = TokenJson(token: Option<Jwt>, errorMessage: Option<string>)

  /** A fetch response: its status and its body (`None` when `response.json()` rejects). */
  datatype TokenResponse = TokenResponse(status: int, body: Option<TokenJson>)

  /** What `getToken` throws. */
  datatype TokenError =
    | FetchRejected
    | BodyUnparsable
    | Rejected(message: string)

  /** `response.ok`: the status is in the range 200-299. */
  predicate IsOk(status: int) {
    200 <= status <= 299
  }

  /** How a template literal renders an optional string field: absent is "undefined". */
  function Rendered(field: Option<string>): string {
    match field
    case None => "undefined"
    case Some(s) => s
  }

  const RejectedPrefix := "Failed to get token: "

  /** getToken after the fetch: `fetched` is `None` when fetch itself rejected. */
  function GetToken(fetched: Option<TokenResponse>): (r: Result<Option<Jwt>, TokenError>)
    ensures fetched.None? ==> r == Err(FetchRejected)
    ensures fetched.Some? && fetched.value.body.None? ==> r == Err(BodyUnparsable)
    ensures fetched.Some? && fetched.value.body.Some? && !IsOk(fetched.value.status) ==>
      r == Err(Rejected(RejectedPrefix + Rendered(fetched.value.body.value.errorMessage)))
    ensures fetched.Some? && fetched.value.body.Some? && IsOk(fetched.value.status) ==>
      r == Ok(fetched.value.body.value.token)
    ensures r.Ok? <==> fetched.Some? && IsOk(fetched.value.status) && fetched.value.body.Some?
  {
    match fetched
    case None => Err(FetchRejected)
    case Some(response) =>
      match response.body
      case None => Err(BodyUnparsable)
      case Some(json) =>
        if !IsOk(response.status) then Err(Rejected(RejectedPrefix + Rendered(json.errorMessage)))
        else Ok(json.token)
  }

  /** The body `getToken` sends: `JSON.stringify({ roomName, participantName })`. */
  function TokenRequest(roomName: string, participantName: string): TokenServer.Request {
    TokenServer.Request(None, map["roomName" := roomName, "participantName" := participantName])
  }

  /** What the client reads of a server response once it has crossed the wire as JSON. */
  function OverTheWire(r: TokenServer.Response): TokenResponse {
    TokenResponse(r.status,
      match r.body
      case ErrorBody(m) => Some(TokenJson(None, Some(m)))
      case TokenBody(t) => Some(TokenJson(Some(t), None))
      case ClassBody(_, _) => Some(TokenJson(None, None))
      case NoBody => None)
  }

  /**
   * The token exchange end to end: the client obtains a token granting `participantName`
   * entry to `roomName`, or, when either name is empty, the server's message behind the
   * client's prefix.
   */
  lemma TokenExchange(config: TokenServer.ServerConfig, roomName: string, participantName: string)
    ensures var r := GetToken(Some(OverTheWire(TokenServer.HandleToken(config, TokenRequest(roomName, participantName)))));
      && (roomName != "" && participantName != "" ==>
           r == Ok(Some(Jwt(config.apiKey, config.apiSecret, Grant(participantName, true, roomName)))))
      && (roomName == "" || participantName == "" ==>
           r == Err(Rejected(RejectedPrefix + TokenServer.TokenFieldsRequired)))
  {
    var req := TokenRequest(roomName, participantName);
    assert req.body["roomName"] == roomName && req.body["participantName"] == participantName;
  }

  /** Scenario: a 401 carrying `{errorMessage: "bad identity"}` becomes that rejection. */
  lemma RejectedWithServerMessage()
    ensures GetToken(Some(TokenResponse(401, Some(TokenJson(None, Some("bad identity"))))))
         == Err(Rejected("Failed to get token: bad identity"))
  {
    assert RejectedPrefix + "bad identity" == "Failed to get token: bad identity";
  }
}

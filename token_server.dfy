/**
 * The token server (application-server/index.js): three Express handlers, each a straight-line
 * map from request fields to a status and a JSON body, plus the configuration read from the
 * environment. Request fields follow JavaScript truthiness: an absent field and `""` both count
 * as missing.
 */
module TokenServer {
  import opened Wrappers
  import opened Livekit

  /** Where the server listens: a string from the environment, or the numeric default. */
  datatype PortSetting = PortFromEnv(value: string) | DefaultPort(number: nat)

  datatype ServerConfig = ServerConfig(port: PortSetting, apiKey: string, apiSecret: string)

  /** An incoming request: its Authorization header and its parsed JSON body. */
  datatype Request = Request(authorization: Option<string>, body: map<string, string>)

  datatype ResponseBody =
    | ErrorBody(errorMessage: string)
    | TokenBody(token: Jwt)
    | ClassBody(classId: string, userId: string)
    | NoBody

  datatype Response = Response(status: int, body: ResponseBody)

  const TokenFieldsRequired := "roomName and participantName are required"
  const AuthorizationRequired := "Authorization header is required"
  const ClassFieldsRequired := "classId, className, classStartTime and courseName are required"
  /** The user id `/check-token` answers with; token verification is not wired in. */
  const FixedUserId := "1234"

  /** `process.env[name] || fallback`: an unset or empty variable yields the fallback. */
  function EnvOr(env: map<string, string>, name: string, fallback: string): (r: string)
    ensures name in env && env[name] != "" ==> r == env[name]
    ensures name !in env || env[name] == "" ==> r == fallback
  {
    if name in env && env[name] != "" then env[name] else fallback
  }

  /** The three constants read at start-up. */
  function LoadConfig(env: map<string, string>): (c: ServerConfig)
    ensures c.apiKey == EnvOr(env, "LIVEKIT_API_KEY", "devkey")
    ensures c.apiSecret == EnvOr(env, "LIVEKIT_API_SECRET", "secret")
    ensures "SERVER_PORT" !in env || env["SERVER_PORT"] == "" ==> c.port == DefaultPort(6080)
    ensures "SERVER_PORT" in env && env["SERVER_PORT"] != "" ==> c.port == PortFromEnv(env["SERVER_PORT"])
  {
    ServerConfig(
      if "SERVER_PORT" in env && env["SERVER_PORT"] != "" then PortFromEnv(env["SERVER_PORT"]) else DefaultPort(6080),
      EnvOr(env, "LIVEKIT_API_KEY", "devkey"),
      EnvOr(env, "LIVEKIT_API_SECRET", "secret"))
  }

  /** With none of the three variables set, the server uses port 6080, "devkey" and "secret". */
  lemma DefaultsWhenUnset(env: map<string, string>)
    requires "SERVER_PORT" !in env && "LIVEKIT_API_KEY" !in env && "LIVEKIT_API_SECRET" !in env
    ensures LoadConfig(env) == ServerConfig(DefaultPort(6080), "devkey", "secret")
  {
  }

  /** A body field is truthy when present and not the empty string. */
  predicate Truthy(body: map<string, string>, field: string) {
    field in body && body[field] != ""
  }

  /** POST /token: a join token for `participantName` in `roomName`. */
  function HandleToken(config: ServerConfig, req: Request): (r: Response)
    ensures r.status == 400 <==> !Truthy(req.body, "roomName") || !Truthy(req.body, "participantName")
    ensures r.status == 400 ==> r.body == ErrorBody(TokenFieldsRequired)
    ensures r.status != 400 ==> r.status == 200 && r.body.TokenBody?
    ensures r.body.TokenBody? ==>
      r.body.token == Jwt(config.apiKey, config.apiSecret,
                          Grant(req.body["participantName"], true, req.body["roomName"]))
  {
    if !Truthy(req.body, "roomName") || !Truthy(req.body, "participantName") then
      Response(400, ErrorBody(TokenFieldsRequired))
    else
      var grant := Grant(identity := req.body["participantName"], roomJoin := true, room := req.body["roomName"]);
      Response(200, TokenBody(Jwt(config.apiKey, config.apiSecret, grant)))
  }

  /** POST /check-token: header presence, then the three class fields, then a fixed answer. */
  function HandleCheckToken(req: Request): (r: Response)
    ensures r.status == 401 <==> req.authorization.None? || req.authorization.value == ""
    ensures r.status == 401 ==> r.body == ErrorBody(AuthorizationRequired)
    ensures r.status == 400 <==>
      r.status != 401 &&
      (!Truthy(req.body, "classId") || !Truthy(req.body, "className") || !Truthy(req.body, "classStartTime"))
    ensures r.status == 400 ==> r.body == ErrorBody(ClassFieldsRequired)
    ensures r.status !in {400, 401} ==> r == Response(200, ClassBody(req.body["classId"], FixedUserId))
  {
    if req.authorization.None? || req.authorization.value == "" then
      Response(401, ErrorBody(AuthorizationRequired))
    else if !Truthy(req.body, "classId") || !Truthy(req.body, "className") || !Truthy(req.body, "classStartTime") then
      Response(400, ErrorBody(ClassFieldsRequired))
    else
      Response(200, ClassBody(req.body["classId"], FixedUserId))
  }

  /** POST /livekit/webhook: whether or not the event validates, the answer is an empty 200. */
  function HandleWebhook(eventValidates: bool): (r: Response)
    ensures r.status == 200 && r.body == NoBody
  {
    Response(200, NoBody)
  }

  /** Without an Authorization header the body is never looked at. */
  lemma CheckTokenHeaderFirst(a: map<string, string>, b: map<string, string>, header: Option<string>)
    requires header.None? || header == Some("")
    ensures HandleCheckToken(Request(header, a)) == HandleCheckToken(Request(header, b))
  {
  }

  /** `courseName` is named in the error message but never required: its value changes nothing. */
  lemma CourseNameIgnored(req: Request, courseName: string)
    ensures HandleCheckToken(req) == HandleCheckToken(req.(body := req.body["courseName" := courseName]))
    ensures HandleCheckToken(req) == HandleCheckToken(req.(body := req.body - {"courseName"}))
  {
  }

  /** A successful /token issues a grant that joins exactly the requested room as the requested identity. */
  lemma TokenGrantMatchesRequest(config: ServerConfig, roomName: string, participantName: string)
    requires roomName != "" && participantName != ""
    ensures var r := HandleToken(config, Request(None, map["roomName" := roomName, "participantName" := participantName]));
      r.status == 200 && r.body.TokenBody? &&
      r.body.token.grant == Grant(participantName, true, roomName)
  {
  }
}

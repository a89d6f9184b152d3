/** The mock of FlowCrypt's enterprise server (FES) used by the browser
    extension's end-to-end tests: a table of eight literal paths whose
    handlers check the host, method, url, body and bearer token of a request
    and either answer with a canned JSON value or throw.

    Everything is synchronous here: the handlers are `async` in the original
    but never `await`, so each one is a function from the request to its
    outcome. The module-level list of issued access tokens is read by the
    handlers and never written, so it is passed in as `issued`. */
module FesEndpoints {
  import opened JsBuiltins

  // ---------------------------------------------------------------------
  // Requests, JSON values and outcomes
  // ---------------------------------------------------------------------

  /** The parsed request body handed to a handler: a string (a MIME
      multipart message, or raw JSON text) or anything else. */
  datatype Body = Text(text: string) | NonText

  /** What a handler reads of a request: the `host` and `authorization`
      headers, the method, the url and the parsed body. Every header and the
      method and url may be `undefined`. */
  datatype Request = Request(
    host: Option<string>,
    httpMethod: Option<string>,
    url: Option<string>,
    authorization: Option<string>,
    body: Body)

  /** JSON values as the handlers return them. Objects are maps, so the
      order of keys is not modelled. */
  datatype Json = JStr(s: string) | JArr(items: seq<Json>) | JObj(fields: map<string, Json>)

  /** What a handler can throw: an `HttpClientErr` with or without a status
      code, a plain `Error`, or a failed chai assertion. */
  datatype Thrown =
    | HttpClientErr(status: Option<int>, message: string)
    | PlainError(message: string)
    | AssertionError

  /** A handler's result: a value, or what it threw. */
  datatype Result<+T> = Success(value: T) | Failure(err: Thrown)

  type Outcome = Result<Json>

  /** The expected class of a bearer token: `'oidc'` (must not be one this
      mock issued) or `'fes'` (must be one this mock issued). */
  datatype TokenClass = Oidc | Fes

  /** The two calls the mock makes into code outside this file:
      `MockJwt.parseEmail`, and chai's `expect(body).to.match(...)` against
      the pattern `{"emailGatewayMessageId":"<(.+)@standardsubdomainfes.test:8001>"}`. */
  datatype Collaborators = Collaborators(
    parseEmail: string -> string,
    matchesGatewayMessageId: Body -> bool)

  // ---------------------------------------------------------------------
  // Constants
  // ---------------------------------------------------------------------

  /** The one host the mock serves as a working FES. */
  const StandardFesUrl: string := "fes.standardsubdomainfes.test:8001"

  /** Hosts for which service discovery answers an explicit 404, so that the
      extension runs as if no FES were deployed. */
  const LocalhostFesUrl: string := "fes.localhost:8001"
  const GoogleMockFesUrl: string := "fes.google.mock.flowcryptlocal.test:8001"

  /** The module-level `issuedAccessTokens` as the process starts. Nothing in
      the file ever adds to it, so it is also its value at every later point. */
  const IssuedAccessTokens: seq<string> := []

  const BearerPrefix: string := "Bearer "
  const MissingAuthorizationMessage: string := "Mock FES missing authorization header"
  const WrongTokenClassMessage: string := "Mock FES access-token call wrongly with FES token"
  const UnissuedTokenMessage: string := "FES mock received access token it didnt issue"

  const ClientConfigurationUrl: string :=
    "/api/v1/client-configuration?domain=standardsubdomainfes.test:8001"
  const ReplyToken: string := "mock-fes-reply-token"

  /** Markers that select which canned response a submitted message gets. */
  const FromUserMarker: string := "\"from\":\"user@standardsubdomainfes.test:8001\""
  const FromUser2Marker: string := "\"from\":\"user2@standardsubdomainfes.test:8001\""

  /** Substrings both builders expect in a submitted message. */
  const PgpMessageMarker: string := "-----BEGIN PGP MESSAGE-----"
  const ReplyTokenAssociation: string := "\"associateReplyToken\":\"mock-fes-reply-token\""
  const EmptyCc: string := "\"cc\":[]"

  /** Recipient lists the first builder expects. */
  const User1To: string := "\"to\":[\"Mr To <to@example.com>\"]"
  const User1Bcc: string := "\"bcc\":[\"Mr Bcc <bcc@example.com>\"]"

  /** Recipient lists the second builder expects. */
  const User2To: string :=
    "\"to\":[\"sender@domain.com\",\"flowcrypt.compatibility@gmail.com\",\"to@example.com\",\"mock.only.pubkey@flowcrypt.com\"]"
  const EmptyBcc: string := "\"bcc\":[]"

  /** The external ids the builders hand out; the gateway callbacks for them
      are the four `/gateway` routes. */
  const LegacyExternalId: string := "FES-MOCK-EXTERNAL-ID"
  const ToExternalId: string := "FES-MOCK-EXTERNAL-FOR-TO@EXAMPLE.COM-ID"
  const BccExternalId: string := "FES-MOCK-EXTERNAL-FOR-BCC@EXAMPLE.COM-ID"
  const SenderExternalId: string := "FES-MOCK-EXTERNAL-FOR-SENDER@DOMAIN.COM-ID"

  const GatewayExternalIds: set<string> :=
    {LegacyExternalId, ToExternalId, BccExternalId, SenderExternalId}

  /** The web-portal link of a message: `http://${standardFesUrl}/message/<id>`. */
  function MessageUrl(messageId: string): string {
    "http://" + StandardFesUrl + "/message/" + messageId
  }

  /** The path of the gateway callback for an external id. */
  function GatewayPath(externalId: string): string {
    "/api/v1/message/" + externalId + "/gateway"
  }

  /** How a template literal prints a header that may be `undefined`. */
  function TemplateText(v: Option<string>): string {
    v.GetOr("undefined")
  }

  function NotFound(): Outcome {
    Failure(HttpClientErr(Some(404), "Not Found"))
  }

  /** The host is the standard FES and the method is the given one. */
  predicate StandardHostWith(req: Request, httpMethod: string) {
    req.host == Some(StandardFesUrl) && req.httpMethod == Some(httpMethod)
  }

  // ---------------------------------------------------------------------
  // authenticate
  // ---------------------------------------------------------------------

  /** The bearer token of a request: the `authorization` header, or `""`
      when it is absent, with its first `"Bearer "` removed. */
  function BearerToken(authorization: Option<string>): (jwt: string)
    ensures authorization.None? ==> jwt == ""
    ensures authorization.Some? && !Includes(authorization.value, BearerPrefix) ==>
              jwt == authorization.value
  {
    ReplaceFirst(authorization.GetOr(""), BearerPrefix, "")
  }

  /** `authenticate(req, type)`: the email the token carries, when the token
      is non-empty and belongs to the expected class. An `'oidc'` token must
      not be in `issued`, a `'fes'` token must be. */
  function Authenticate(issued: seq<string>, env: Collaborators, req: Request, cls: TokenClass)
    : (r: Result<string>)
    ensures BearerToken(req.authorization) == "" ==>
              r == Failure(PlainError(MissingAuthorizationMessage))
    ensures BearerToken(req.authorization) != "" && cls == Oidc ==>
              (r.Failure? <==> BearerToken(req.authorization) in issued) &&
              (r.Failure? ==> r.err == PlainError(WrongTokenClassMessage))
    ensures BearerToken(req.authorization) != "" && cls == Fes ==>
              (r.Failure? <==> BearerToken(req.authorization) !in issued) &&
              (r.Failure? ==> r.err == HttpClientErr(Some(401), UnissuedTokenMessage))
    ensures r.Success? ==> r.value == env.parseEmail(BearerToken(req.authorization))
    ensures r.Failure? && r.err.HttpClientErr? ==> cls == Fes
  {
    var jwt := BearerToken(req.authorization);
    if jwt == "" then
      Failure(PlainError(MissingAuthorizationMessage))
    else if cls == Oidc && jwt in issued then
      Failure(PlainError(WrongTokenClassMessage))
    else if cls == Fes && jwt !in issued then
      Failure(HttpClientErr(Some(401), UnissuedTokenMessage))
    else
      Success(env.parseEmail(jwt))
  }

  // ---------------------------------------------------------------------
  // Response builders
  // ---------------------------------------------------------------------

  /** One entry of `emailToExternalIdAndUrl`. */
  function Link(url: string, externalId: string): Json {
    JObj(map["url" := JStr(url), "externalId" := JStr(externalId)])
  }

  /** The external id of a `Link` value. */
  function ExternalIdOf(link: Json): Option<string> {
    if link.JObj? && "externalId" in link.fields && link.fields["externalId"].JStr?
    then Some(link.fields["externalId"].s)
    else None
  }

  /** A builder's `emailToExternalIdAndUrl` is an object with exactly the
      given recipients as keys, each mapped to a link whose external id is
      one of the four the gateway routes accept, distinct recipients getting
      distinct ids. */
  predicate RecipientLinks(response: Json, recipients: set<string>) {
    response.JObj? &&
    "emailToExternalIdAndUrl" in response.fields &&
    var links := response.fields["emailToExternalIdAndUrl"];
    links.JObj? && links.fields.Keys == recipients &&
    (forall e :: e in links.fields ==>
       ExternalIdOf(links.fields[e]).Some? &&
       ExternalIdOf(links.fields[e]).value in GatewayExternalIds) &&
    (forall e, f :: e in links.fields && f in links.fields && e != f ==>
       ExternalIdOf(links.fields[e]) != ExternalIdOf(links.fields[f]))
  }

  /** What `processMessageFromUser` returns: top-level legacy `url` and
      `externalId` beside a link for `to@example.com` and one for
      `bcc@example.com`, filled in one key at a time. */
  function FromUserResponse(): (j: Json)
    ensures j.JObj? && j.fields.Keys == {"url", "externalId", "emailToExternalIdAndUrl"}
    ensures j.fields["externalId"] == JStr(LegacyExternalId)
    ensures RecipientLinks(j, {"to@example.com", "bcc@example.com"})
    ensures ExternalIdOf(j.fields["emailToExternalIdAndUrl"].fields["to@example.com"]) ==
              Some(ToExternalId)
    ensures ExternalIdOf(j.fields["emailToExternalIdAndUrl"].fields["bcc@example.com"]) ==
              Some(BccExternalId)
  {
    var links0: map<string, Json> := map[];
    var links1 := links0["to@example.com" :=
      Link(MessageUrl("FES-MOCK-MESSAGE-FOR-TO@EXAMPLE.COM-ID"), ToExternalId)];
    var links2 := links1["bcc@example.com" :=
      Link(MessageUrl("FES-MOCK-MESSAGE-FOR-BCC@EXAMPLE.COM-ID"), BccExternalId)];
    JObj(map[
      "url" := JStr(MessageUrl("FES-MOCK-MESSAGE-ID")),
      "externalId" := JStr(LegacyExternalId),
      "emailToExternalIdAndUrl" := JObj(links2)])
  }

  /** What `processMessageFromUser2` returns: only a link for
      `to@example.com` and one for `sender@domain.com`, with no top-level
      legacy fields. */
  function FromUser2Response(): (j: Json)
    ensures j.JObj? && j.fields.Keys == {"emailToExternalIdAndUrl"}
    ensures RecipientLinks(j, {"to@example.com", "sender@domain.com"})
    ensures ExternalIdOf(j.fields["emailToExternalIdAndUrl"].fields["to@example.com"]) ==
              Some(ToExternalId)
    ensures ExternalIdOf(j.fields["emailToExternalIdAndUrl"].fields["sender@domain.com"]) ==
              Some(SenderExternalId)
  {
    var links0: map<string, Json> := map[];
    var links1 := links0["to@example.com" :=
      Link(MessageUrl("FES-MOCK-MESSAGE-FOR-TO@EXAMPLE.COM-ID"), ToExternalId)];
    var links2 := links1["sender@domain.com" :=
      Link(MessageUrl("FES-MOCK-MESSAGE-FOR-SENDER@DOMAIN.COM-ID"), SenderExternalId)];
    JObj(map["emailToExternalIdAndUrl" := JObj(links2)])
  }

  /** `processMessageFromUser(body)`: the first canned response, once the
      body passes five substring assertions. */
  function ProcessMessageFromUser(body: string): (r: Outcome)
    ensures r.Success? <==>
              Includes(body, PgpMessageMarker) && Includes(body, ReplyTokenAssociation) &&
              Includes(body, User1To) && Includes(body, EmptyCc) && Includes(body, User1Bcc)
    ensures r.Failure? ==> r.err == AssertionError
    ensures r.Success? ==> r.value == FromUserResponse()
  {
    if !Includes(body, PgpMessageMarker) then Failure(AssertionError)
    else if !Includes(body, ReplyTokenAssociation) then Failure(AssertionError)
    else if !Includes(body, User1To) then Failure(AssertionError)
    else if !Includes(body, EmptyCc) then Failure(AssertionError)
    else if !Includes(body, User1Bcc) then Failure(AssertionError)
    else Success(FromUserResponse())
  }

  /** `processMessageFromUser2(body)`: the second canned response, once the
      body passes five substring assertions. */
  function ProcessMessageFromUser2(body: string): (r: Outcome)
    ensures r.Success? <==>
              Includes(body, PgpMessageMarker) && Includes(body, ReplyTokenAssociation) &&
              Includes(body, User2To) && Includes(body, EmptyCc) && Includes(body, EmptyBcc)
    ensures r.Failure? ==> r.err == AssertionError
    ensures r.Success? ==> r.value == FromUser2Response()
  {
    if !Includes(body, PgpMessageMarker) then Failure(AssertionError)
    else if !Includes(body, ReplyTokenAssociation) then Failure(AssertionError)
    else if !Includes(body, User2To) then Failure(AssertionError)
    else if !Includes(body, EmptyCc) then Failure(AssertionError)
    else if !Includes(body, EmptyBcc) then Failure(AssertionError)
    else Success(FromUser2Response())
  }

  // ---------------------------------------------------------------------
  // Route handlers
  // ---------------------------------------------------------------------

  /** The static service descriptor `/api/` returns. */
  function ServiceDescriptor(): Json {
    JObj(map[
      "vendor" := JStr("Mock"),
      "service" := JStr("enterprise-server"),
      "orgId" := JStr("standardsubdomainfes.test"),
      "version" := JStr("MOCK"),
      "apiVersion" := JStr("v1")])
  }

  /** The client configuration `/api/v1/client-configuration` returns. */
  function ClientConfiguration(): Json {
    JObj(map["clientConfiguration" := JObj(map[
      "disallow_attester_search_for_domains" := JArr([JStr("got.this@fromstandardfes.com")])])])
  }

  /** `/api/`: service discovery. */
  function ServiceDiscoveryHandler(req: Request): (r: Outcome)
    ensures StandardHostWith(req, "GET") ==> r == Success(ServiceDescriptor())
    ensures req.host == Some(LocalhostFesUrl) || req.host == Some(GoogleMockFesUrl) ==>
              r == Failure(HttpClientErr(Some(404), "Not found"))
    ensures !StandardHostWith(req, "GET") &&
            req.host != Some(LocalhostFesUrl) && req.host != Some(GoogleMockFesUrl) ==>
              r == Failure(HttpClientErr(None, "Not running any FES here: " + TemplateText(req.host)))
  {
    if req.host.GetOr("") in [StandardFesUrl] && req.httpMethod == Some("GET") then
      Success(ServiceDescriptor())
    else if req.host == Some(LocalhostFesUrl) then
      Failure(HttpClientErr(Some(404), "Not found"))
    else if req.host == Some(GoogleMockFesUrl) then
      Failure(HttpClientErr(Some(404), "Not found"))
    else
      Failure(HttpClientErr(None, "Not running any FES here: " + TemplateText(req.host)))
  }

  /** `/api/v1/client-configuration`. */
  function ClientConfigurationHandler(req: Request): (r: Outcome)
    ensures r.Success? <==>
              StandardHostWith(req, "GET") && req.url == Some(ClientConfigurationUrl)
    ensures r.Success? ==> r.value == ClientConfiguration()
    ensures req.httpMethod != Some("GET") ==> r == Failure(HttpClientErr(None, "Unsupported method"))
    ensures r.Failure? ==> r.err.HttpClientErr? && r.err.status.None?
  {
    if req.httpMethod != Some("GET") then
      Failure(HttpClientErr(None, "Unsupported method"))
    else if req.host == Some(StandardFesUrl) && req.url == Some(ClientConfigurationUrl) then
      Success(ClientConfiguration())
    else
      Failure(HttpClientErr(None, "Unexpected FES domain \"" + TemplateText(req.host) +
                                  "\" and url \"" + TemplateText(req.url) + "\""))
  }

  /** `/api/v1/message/new-reply-token`: an `'oidc'` caller gets the fixed
      reply token. Nothing is recorded in `issued`. */
  function NewReplyTokenHandler(issued: seq<string>, env: Collaborators, req: Request)
    : (r: Outcome)
    ensures !StandardHostWith(req, "POST") ==> r == NotFound()
    ensures StandardHostWith(req, "POST") && Authenticate(issued, env, req, Oidc).Failure? ==>
              r == Failure(Authenticate(issued, env, req, Oidc).err)
    ensures r.Success? <==>
              StandardHostWith(req, "POST") && Authenticate(issued, env, req, Oidc).Success?
    ensures r.Success? ==> r.value == JObj(map["replyToken" := JStr(ReplyToken)])
  {
    if req.host == Some(StandardFesUrl) && req.httpMethod == Some("POST") then
      var auth := Authenticate(issued, env, req, Oidc);
      if auth.Failure? then Failure(auth.err)
      else Success(JObj(map["replyToken" := JStr(ReplyToken)]))
    else
      NotFound()
  }

  /** `/api/v1/message`: a message submitted by the standard host with a
      string body. Authentication comes first; then the `user@` marker is
      looked for before the `user2@` one, and a body with neither is a 404. */
  function MessageHandler(issued: seq<string>, env: Collaborators, req: Request): (r: Outcome)
    ensures !(StandardHostWith(req, "POST") && req.body.Text?) ==> r == NotFound()
    ensures StandardHostWith(req, "POST") && req.body.Text? &&
            Authenticate(issued, env, req, Oidc).Failure? ==>
              r == Failure(Authenticate(issued, env, req, Oidc).err)
    ensures StandardHostWith(req, "POST") && req.body.Text? &&
            Authenticate(issued, env, req, Oidc).Success? ==>
              (Includes(req.body.text, FromUserMarker) ==>
                 r == ProcessMessageFromUser(req.body.text)) &&
              (!Includes(req.body.text, FromUserMarker) && Includes(req.body.text, FromUser2Marker) ==>
                 r == ProcessMessageFromUser2(req.body.text)) &&
              (!Includes(req.body.text, FromUserMarker) && !Includes(req.body.text, FromUser2Marker) ==>
                 r == NotFound())
  {
    if req.host == Some(StandardFesUrl) && req.httpMethod == Some("POST") && req.body.Text? then
      var auth := Authenticate(issued, env, req, Oidc);
      if auth.Failure? then Failure(auth.err)
      else if Includes(req.body.text, FromUserMarker) then ProcessMessageFromUser(req.body.text)
      else if Includes(req.body.text, FromUser2Marker) then ProcessMessageFromUser2(req.body.text)
      else NotFound()
    else
      NotFound()
  }

  /** The four `/api/v1/message/<external id>/gateway` routes, which behave
      alike: an `'oidc'` caller whose body carries an `emailGatewayMessageId`
      gets `{}`. */
  function GatewayHandler(issued: seq<string>, env: Collaborators, req: Request): (r: Outcome)
    ensures !StandardHostWith(req, "POST") ==> r == NotFound()
    ensures StandardHostWith(req, "POST") && Authenticate(issued, env, req, Oidc).Failure? ==>
              r == Failure(Authenticate(issued, env, req, Oidc).err)
    ensures StandardHostWith(req, "POST") && Authenticate(issued, env, req, Oidc).Success? ==>
              r == if env.matchesGatewayMessageId(req.body) then Success(JObj(map[]))
                   else Failure(AssertionError)
  {
    if req.host == Some(StandardFesUrl) && req.httpMethod == Some("POST") then
      var auth := Authenticate(issued, env, req, Oidc);
      if auth.Failure? then Failure(auth.err)
      else if !env.matchesGatewayMessageId(req.body) then Failure(AssertionError)
      else Success(JObj(map[]))
    else
      NotFound()
  }

  // ---------------------------------------------------------------------
  // mockFesEndpoints
  // ---------------------------------------------------------------------

  /** The handlers of the route table. */
  datatype Route =
    | ServiceDiscovery
    | ClientConfigurationRoute
    | NewReplyTokenRoute
    | MessageRoute
    | GatewayRoute(externalId: string)

  /** `mockFesEndpoints`: the exact paths the mock answers. The last four
      are written out literally in the original, e.g.
      `/api/v1/message/FES-MOCK-EXTERNAL-ID/gateway`; here they are spelled
      as the gateway path of each external id. */
  const MockFesEndpoints: map<string, Route> := map[
    "/api/" := ServiceDiscovery,
    "/api/v1/client-configuration" := ClientConfigurationRoute,
    "/api/v1/message/new-reply-token" := NewReplyTokenRoute,
    "/api/v1/message" := MessageRoute,
    GatewayPath(LegacyExternalId) := GatewayRoute(LegacyExternalId),
    GatewayPath(SenderExternalId) := GatewayRoute(SenderExternalId),
    GatewayPath(ToExternalId) := GatewayRoute(ToExternalId),
    GatewayPath(BccExternalId) := GatewayRoute(BccExternalId)]

  function Handle(route: Route, issued: seq<string>, env: Collaborators, req: Request): Outcome {
    match route
    case ServiceDiscovery => ServiceDiscoveryHandler(req)
    case ClientConfigurationRoute => ClientConfigurationHandler(req)
    case NewReplyTokenRoute => NewReplyTokenHandler(issued, env, req)
    case MessageRoute => MessageHandler(issued, env, req)
    case GatewayRoute(_) => GatewayHandler(issued, env, req)
  }

  /** The outcome of a request for `path`, or `None` when the table has no
      handler for it (what happens then is up to the transport). No route
      ever answers 401, since none asks for an `'fes'` token, and only the
      routes that take a body can fail a body assertion. */
  function Dispatch(issued: seq<string>, env: Collaborators, path: string, req: Request)
    : (r: Option<Outcome>)
    ensures r.Some? <==> path in MockFesEndpoints
    ensures r.Some? && r.value.Failure? && r.value.err.HttpClientErr? ==>
              r.value.err.status == None || r.value.err.status == Some(404)
    ensures r.Some? && r.value.Failure? && r.value.err.AssertionError? ==>
              MockFesEndpoints[path] == MessageRoute || MockFesEndpoints[path].GatewayRoute?
  {
    if path in MockFesEndpoints then Some(Handle(MockFesEndpoints[path], issued, env, req))
    else None
  }
}

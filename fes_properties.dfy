/** Properties of the FES mock that relate several of its parts: the bearer
    token round trip, what the never-written token list implies, and the
    coupling between the external ids the builders hand out and the
    `/gateway` routes of the table. */
module FesProperties {
  import opened JsBuiltins
  import opened FesEndpoints

  // ---------------------------------------------------------------------
  // Bearer tokens
  // ---------------------------------------------------------------------

  /** `Bearer <t>` yields `t`, whatever `t` is (a second `Bearer ` inside
      `t` stays, since only the first occurrence is removed). */
  lemma BearerPrefixStripped(t: string)
    ensures BearerToken(Some(BearerPrefix + t)) == t
  {
    ReplaceFirstAtStart(BearerPrefix, t, "");
  }

  /** The token is empty, and `authenticate` reports a missing header,
      exactly for an absent header, an empty one, and `Bearer ` alone. */
  lemma MissingTokenExactly(authorization: Option<string>)
    ensures BearerToken(authorization) == "" <==>
              authorization == None || authorization == Some("") ||
              authorization == Some(BearerPrefix)
  {
    if authorization.Some? {
      DeleteFirstEmpty(authorization.value, BearerPrefix);
    }
  }

  // ---------------------------------------------------------------------
  // The token list
  // ---------------------------------------------------------------------

  /** With the token list as the process holds it, which is empty and never
      grows, an `'oidc'` check rejects only a missing token, and an `'fes'`
      check rejects every request. */
  lemma ProcessLedgerClassChecks(env: Collaborators, req: Request)
    ensures Authenticate(IssuedAccessTokens, env, req, Oidc).Success? <==>
              BearerToken(req.authorization) != ""
    ensures Authenticate(IssuedAccessTokens, env, req, Fes).Failure?
  {
  }

  /** The reply token that `new-reply-token` hands out is never recorded as
      an issued FES token. With the process's token list, a later request
      carrying it as `Bearer <token>` fails the `'fes'` check with 401, yet
      succeeds on every `/gateway` route (which checks `'oidc'`) once its
      body carries an `emailGatewayMessageId`. */
  lemma ReplyTokenAcceptedOnlyByGateway(
    env: Collaborators, req: Request, confirm: Request, externalId: string)
    requires NewReplyTokenHandler(IssuedAccessTokens, env, req).Success?
    requires confirm.authorization == Some(BearerPrefix + ReplyToken)
    ensures NewReplyTokenHandler(IssuedAccessTokens, env, req).value ==
              JObj(map["replyToken" := JStr(ReplyToken)])
    ensures Authenticate(IssuedAccessTokens, env, confirm, Fes) ==
              Failure(HttpClientErr(Some(401), UnissuedTokenMessage))
    ensures StandardHostWith(confirm, "POST") && env.matchesGatewayMessageId(confirm.body) &&
            externalId in GatewayExternalIds ==>
              Dispatch(IssuedAccessTokens, env, GatewayPath(externalId), confirm) ==
                Some(Success(JObj(map[])))
  {
    BearerPrefixStripped(ReplyToken);
    GatewayRouteFor(externalId);
  }

  /** With the process's token list, no route ever throws the plain error
      for a reused FES token: the only plain error a route can throw is the
      one for a missing authorization header. */
  lemma OnlyMissingTokenErrorReachable(env: Collaborators, path: string, req: Request)
    ensures var r := Dispatch(IssuedAccessTokens, env, path, req);
              r.Some? && r.value.Failure? && r.value.err.PlainError? ==>
                r.value.err.message == MissingAuthorizationMessage
  {
    var r := Dispatch(IssuedAccessTokens, env, path, req);
    if path in MockFesEndpoints {
      ProcessLedgerClassChecks(env, req);
    }
  }

  // ---------------------------------------------------------------------
  // External ids and gateway routes
  // ---------------------------------------------------------------------

  const GatewayPathHead: string := "/api/v1/message/"
  const GatewayPathTail: string := "/gateway"

  /** A gateway path splits back into its head, the external id and its tail. */
  lemma GatewayPathParts(externalId: string)
    ensures var p := GatewayPath(externalId);
              |p| == |GatewayPathHead| + |externalId| + |GatewayPathTail| &&
              p[..|GatewayPathHead|] == GatewayPathHead &&
              p[|GatewayPathHead|..|GatewayPathHead| + |externalId|] == externalId &&
              p[|GatewayPathHead| + |externalId|..] == GatewayPathTail
  {
    var p := GatewayPath(externalId);
    assert p == GatewayPathHead + externalId + GatewayPathTail;
  }

  /** Distinct external ids have distinct gateway paths. */
  lemma GatewayPathInjective(a: string, b: string)
    requires GatewayPath(a) == GatewayPath(b)
    ensures a == b
  {
    GatewayPathParts(a);
    GatewayPathParts(b);
  }

  /** The table has a gateway route for an external id exactly when the
      id is one of the four the builders hand out, and that route is the one
      for this id. */
  lemma GatewayRouteFor(externalId: string)
    ensures GatewayPath(externalId) in MockFesEndpoints <==> externalId in GatewayExternalIds
    ensures externalId in GatewayExternalIds ==>
              MockFesEndpoints[GatewayPath(externalId)] == GatewayRoute(externalId)
  {
    var p := GatewayPath(externalId);
    GatewayPathParts(externalId);
    if p in MockFesEndpoints {
      var configuration := "/api/v1/client-configuration";
      var replyToken := "/api/v1/message/new-reply-token";
      assert p != "/api/" && p != "/api/v1/message";
      assert p[8] == GatewayPathHead[8] != configuration[8];
      assert p[|p| - 1] == GatewayPathTail[|GatewayPathTail| - 1] != replyToken[|replyToken| - 1];
      if p == GatewayPath(LegacyExternalId) {
        GatewayPathInjective(externalId, LegacyExternalId);
      } else if p == GatewayPath(SenderExternalId) {
        GatewayPathInjective(externalId, SenderExternalId);
      } else if p == GatewayPath(ToExternalId) {
        GatewayPathInjective(externalId, ToExternalId);
      } else {
        GatewayPathInjective(externalId, BccExternalId);
      }
    }
  }

  /** Every external id either builder emits, for a recipient or at the top
      level, names exactly one route of the table: its own gateway route. */
  lemma EmittedIdsHaveGatewayRoutes(response: Json, recipients: set<string>, email: string)
    requires RecipientLinks(response, recipients) && email in recipients
    ensures var id := ExternalIdOf(response.fields["emailToExternalIdAndUrl"].fields[email]).value;
              GatewayPath(id) in MockFesEndpoints &&
              MockFesEndpoints[GatewayPath(id)] == GatewayRoute(id)
    ensures FromUserResponse().fields["externalId"].JStr? &&
            var legacy := FromUserResponse().fields["externalId"].s;
              GatewayPath(legacy) in MockFesEndpoints &&
              MockFesEndpoints[GatewayPath(legacy)] == GatewayRoute(legacy)
  {
    GatewayRouteFor(ExternalIdOf(response.fields["emailToExternalIdAndUrl"].fields[email]).value);
    GatewayRouteFor(LegacyExternalId);
  }

  /** A submission that succeeds answers with one of the two canned
      responses. */
  lemma SubmittedResponse(issued: seq<string>, env: Collaborators, submit: Request)
    requires MessageHandler(issued, env, submit).Success?
    ensures var response := MessageHandler(issued, env, submit).value;
              response == FromUserResponse() || response == FromUser2Response()
  {
    var r := MessageHandler(issued, env, submit);
    if Includes(submit.body.text, FromUserMarker) {
      assert r == ProcessMessageFromUser(submit.body.text);
    } else {
      assert r == ProcessMessageFromUser2(submit.body.text);
    }
  }

  /** The workflow the mock supports end to end: once a message submission
      succeeds, the gateway callback for any recipient it lists succeeds too,
      for a caller with a usable `'oidc'` token and a body that carries an
      `emailGatewayMessageId`. */
  lemma SubmitThenConfirm(
    issued: seq<string>, env: Collaborators, submit: Request, email: string, confirm: Request)
    requires MessageHandler(issued, env, submit).Success?
    requires StandardHostWith(confirm, "POST")
    requires Authenticate(issued, env, confirm, Oidc).Success?
    requires env.matchesGatewayMessageId(confirm.body)
    ensures var response := MessageHandler(issued, env, submit).value;
              RecipientLinks(response, response.fields["emailToExternalIdAndUrl"].fields.Keys) &&
              (email in response.fields["emailToExternalIdAndUrl"].fields ==>
                 var id := ExternalIdOf(response.fields["emailToExternalIdAndUrl"].fields[email]).value;
                 Dispatch(issued, env, GatewayPath(id), confirm) == Some(Success(JObj(map[]))))
  {
    SubmittedResponse(issued, env, submit);
    var response := MessageHandler(issued, env, submit).value;
    var recipients := if response == FromUserResponse() then {"to@example.com", "bcc@example.com"}
                      else {"to@example.com", "sender@domain.com"};
    assert RecipientLinks(response, recipients);
    var links := response.fields["emailToExternalIdAndUrl"];
    if email in links.fields {
      var id := ExternalIdOf(links.fields[email]).value;
      GatewayRouteFor(id);
      assert MockFesEndpoints[GatewayPath(id)] == GatewayRoute(id);
      assert GatewayHandler(issued, env, confirm) == Success(JObj(map[]));
    }
  }
}

# FES mock endpoints, modelled in Dafny

FlowCrypt's browser extension is tested end to end against mocks of the
services it talks to. One of them emulates the enterprise server (FES):
`test/source/mock/fes/fes-endpoints.ts` maps eight literal paths to
handlers. Each handler looks at the request's `host` header, its method, its
url, its body and its bearer token, and either returns a canned JSON value or
throws: an `HttpClientErr` with status 404, an `HttpClientErr` with no
status, a plain `Error`, or a failed chai assertion.

This project models that file:

- `js_builtins.dfy` (module `JsBuiltins`): the JavaScript string operations
  the file relies on. `includes` (and chai's `to.contain` on a string) is
  specified by "occurs at some index". `replace` with a string pattern
  removes only the first occurrence.
- `fes_endpoints.dfy` (module `FesEndpoints`): the request, JSON value and
  outcome datatypes, the constants, `authenticate`, the two response
  builders, the five kinds of route handler, and the route table
  `mockFesEndpoints` with a dispatcher over it.
- `fes_properties.dfy` (module `FesProperties`): properties that cut across
  these. They cover the bearer-token round trip, the never-written token
  list, and the tie between the external ids the builders hand out and the
  `/gateway` routes. One lemma follows a message submission through to its
  gateway callback.

The handlers are `async` but never `await`, so each is a function from the
request to its outcome. The module-level `issuedAccessTokens` is only read,
so it is a parameter `issued` of every function that reads it.
`IssuedAccessTokens` (the empty list) is its value throughout the process.
No function returns a new token list, so no handler can change it.

The names suggest a ledger: the `new-reply-token` route would record the
token it hands out, and the `/gateway` routes would accept only such a
token. The code does neither, and the model follows the code. Nothing
appends to `issuedAccessTokens`. All four `/gateway` routes call
`authenticate(req, 'oidc')`. So no route ever answers 401
(`FesEndpoints.Dispatch`). With the process's list, the plain error for a
reused token is never thrown (`FesProperties.OnlyMissingTokenErrorReachable`).
The reply token, once handed out, still fails the `'fes'` check with 401 but
is accepted by every `/gateway` route
(`FesProperties.ReplyTokenAcceptedOnlyByGateway`).

## Model

| member | source | states |
|---|---|---|
| `JsBuiltins.IndexOfFrom` | test/source/mock/fes/fes-endpoints.ts:152 | the index returned is an occurrence of the pattern at or after the start, and no earlier index from the start is one; `None` means there is no occurrence from the start on |
| `JsBuiltins.IndexOf` | test/source/mock/fes/fes-endpoints.ts:152 | the result is the first occurrence, or `None` exactly when the pattern occurs nowhere |
| `JsBuiltins.Includes` | test/source/mock/fes/fes-endpoints.ts:102-105 | `includes` is true exactly when the pattern occurs at some index |
| `JsBuiltins.ReplaceFirst` | test/source/mock/fes/fes-endpoints.ts:152 | a string without the pattern is returned unchanged; otherwise the first occurrence, and only it, is replaced |
| `JsBuiltins.ReplaceFirstAtStart` | test/source/mock/fes/fes-endpoints.ts:152 | a string that starts with the pattern loses exactly that prefix |
| `JsBuiltins.DeleteFirstEmpty` | test/source/mock/fes/fes-endpoints.ts:152-153 | deleting the first occurrence of a non-empty pattern leaves the empty string exactly when the input was empty or was the pattern itself |
| `FesEndpoints.BearerToken` | test/source/mock/fes/fes-endpoints.ts:152 | an absent header gives the empty token; a header without `Bearer ` is the token as it is |
| `FesEndpoints.Authenticate` | test/source/mock/fes/fes-endpoints.ts:151-166 | an empty token fails with a plain `Error`; an `'oidc'` token fails with a plain `Error` exactly when it is in the list; an `'fes'` token fails with a 401 exactly when it is not; otherwise the result is `parseEmail(token)`; only the `'fes'` class can give an HTTP error |
| `FesEndpoints.FromUserResponse` | test/source/mock/fes/fes-endpoints.ts:18-33 | top-level keys are exactly `url`, `externalId` and `emailToExternalIdAndUrl`, the legacy external id is `FES-MOCK-EXTERNAL-ID`, and the recipient links have exactly the keys `to@example.com` and `bcc@example.com`; `to@example.com` gets `FES-MOCK-EXTERNAL-FOR-TO@EXAMPLE.COM-ID` and `bcc@example.com` gets `FES-MOCK-EXTERNAL-FOR-BCC@EXAMPLE.COM-ID`, distinct and both among the four gateway ids |
| `FesEndpoints.FromUser2Response` | test/source/mock/fes/fes-endpoints.ts:42-51 | the only top-level key is `emailToExternalIdAndUrl`; its links have exactly the keys `to@example.com` and `sender@domain.com`; `to@example.com` gets `FES-MOCK-EXTERNAL-FOR-TO@EXAMPLE.COM-ID` and `sender@domain.com` gets `FES-MOCK-EXTERNAL-FOR-SENDER@DOMAIN.COM-ID`, distinct and both among the four gateway ids |
| `FesEndpoints.ProcessMessageFromUser` | test/source/mock/fes/fes-endpoints.ts:12-34 | succeeds exactly when the body contains all five expected substrings, and then returns the first response; otherwise it is an assertion failure |
| `FesEndpoints.ProcessMessageFromUser2` | test/source/mock/fes/fes-endpoints.ts:36-52 | succeeds exactly when the body contains all five expected substrings, and then returns the second response; otherwise it is an assertion failure |
| `FesEndpoints.ServiceDiscoveryHandler` | test/source/mock/fes/fes-endpoints.ts:56-77 | standard host with GET gives the fixed descriptor; the two "absent FES" hosts give 404 whatever the method; every other request gives an `HttpClientErr` with no status naming the host |
| `FesEndpoints.ClientConfigurationHandler` | test/source/mock/fes/fes-endpoints.ts:78-89 | succeeds exactly for GET with the standard host and the exact `?domain=` url, with the denylist `got.this@fromstandardfes.com`; a non-GET method gives "Unsupported method"; every failure is an `HttpClientErr` with no status |
| `FesEndpoints.NewReplyTokenHandler` | test/source/mock/fes/fes-endpoints.ts:90-96 | anything but a POST to the standard host is a 404; an `'oidc'` authentication failure is passed on; it succeeds exactly when both hold, with `{replyToken: 'mock-fes-reply-token'}` |
| `FesEndpoints.MessageHandler` | test/source/mock/fes/fes-endpoints.ts:97-110 | anything but a POST to the standard host with a string body is a 404; authentication comes before the sender check, so its failure wins; the `user@` marker is tested before `user2@`; a body with neither is a 404 |
| `FesEndpoints.GatewayHandler` | test/source/mock/fes/fes-endpoints.ts:111-148 | anything but a POST to the standard host is a 404; an `'oidc'` authentication failure is passed on; then the body must match the gateway-id pattern (else an assertion failure) and the result is `{}` |
| `FesEndpoints.Dispatch` | test/source/mock/fes/fes-endpoints.ts:54-149 | there is an outcome exactly for the eight paths of the table; no route answers an HTTP status other than 404 or none (so never 401); only the message and gateway routes can fail an assertion |
| `FesProperties.BearerPrefixStripped` | test/source/mock/fes/fes-endpoints.ts:152 | `Bearer <t>` yields the token `t`, for every `t` |
| `FesProperties.MissingTokenExactly` | test/source/mock/fes/fes-endpoints.ts:152-155 | the token is empty, and so the "missing authorization header" error is thrown, exactly for an absent header, an empty header, and `Bearer ` alone |
| `FesProperties.ProcessLedgerClassChecks` | test/source/mock/fes/fes-endpoints.ts:156-164 | with the process's token list, an `'oidc'` check passes exactly when the token is non-empty, and an `'fes'` check never passes |
| `FesProperties.ReplyTokenAcceptedOnlyByGateway` | test/source/mock/fes/fes-endpoints.ts:90-148 | with the process's token list, after `new-reply-token` succeeds it has returned `mock-fes-reply-token`; a request sent with `Bearer mock-fes-reply-token` then fails the `'fes'` check with 401 and the unissued-token message, while a POST with it to the standard host and a body carrying an `emailGatewayMessageId` succeeds with `{}` on the `/gateway` path of each of the four external ids, so the token was never recorded as issued |
| `FesProperties.OnlyMissingTokenErrorReachable` | test/source/mock/fes/fes-endpoints.ts:151-159 | with the process's token list, the only plain `Error` any route can throw is the missing-authorization one |
| `FesProperties.GatewayPathParts` | test/source/mock/fes/fes-endpoints.ts:111 | a gateway path splits back into `/api/v1/message/`, the external id and `/gateway` |
| `FesProperties.GatewayPathInjective` | test/source/mock/fes/fes-endpoints.ts:111-140 | distinct external ids have distinct gateway paths |
| `FesProperties.GatewayRouteFor` | test/source/mock/fes/fes-endpoints.ts:111-148 | the table has a route at the gateway path of an id exactly when the id is one of the four, and that route is the gateway route of that id |
| `FesProperties.EmittedIdsHaveGatewayRoutes` | test/source/mock/fes/fes-endpoints.ts:22-49 | every external id a builder emits, per recipient or top-level, names exactly one route of the table: its own gateway route |
| `FesProperties.SubmittedResponse` | test/source/mock/fes/fes-endpoints.ts:97-110 | a message submission that succeeds answers with one of the two canned builder responses and nothing else |
| `FesProperties.SubmitThenConfirm` | test/source/mock/fes/fes-endpoints.ts:97-148 | once a message submission succeeds, the gateway callback for any recipient it lists answers `{}` to a POST on the standard host with a usable `'oidc'` token and a matching body |

## Left out

- `MockJwt.parseEmail` is not part of this model: it is a parameter (`Collaborators.parseEmail`), a total function from token to email. If it throws on a malformed token, the model does not capture that.
- chai's `expect(body).to.match(/{"emailGatewayMessageId":"<(.+)@standardsubdomainfes.test:8001>"}/)` is a parameter (`Collaborators.matchesGatewayMessageId`), a predicate on the body. The regular expression itself is not modelled.
- chai's assertion messages: a failed `to.contain` is the single outcome `AssertionError`. So the order of the five checks in each builder is not observable in the model.
- The transport from `../all-apis-mock` (`HandlersDefinition`), `IncomingMessage` and the internals of `HttpClientErr` are left out. Only the status (which may be absent) and the message of an `HttpClientErr` are kept. A path outside the table gives `None`; what the transport then does is not modelled.
- `async`/Promise wrapping is left out; no handler awaits anything.
- Concurrent requests sharing `issuedAccessTokens` are left out; nothing writes the list.
- JSON objects are maps, so the order of their keys is not modelled.
- The four `/gateway` keys of the table are written as `GatewayPath(<external id>)` instead of as the literal strings of the original. Both spell the same paths.

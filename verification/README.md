# VenuzPay PIX adapter — Dafny model

The adapter is a small Express service (`api/index.js`) that sits between a
Telegram bot and the VenuzPay PIX gateway. It has three routes:

- `POST /api/pix/create` builds a creation payload from the bot's loosely typed
  request. It posts the payload to the gateway and answers `201` with a few
  fields picked out of the gateway's reply.
- `GET /api/pix/status/:id` fetches the URL string made of the gateway's
  status URL, a `/` and that id, and passes the reply through.
- `POST /api/webhook/pix` reads two fields of a gateway notification, logs
  them and acknowledges with `200 OK`.

This project models the decision logic of those routes as pure functions over
JSON values. It proves what each decision promises.

- `Js`: JSON values as JavaScript sees them. This covers truthiness, `||`,
  property reads that yield `undefined`, and object spread. It also covers
  `String()` conversion (`ToStr`), when that conversion throws, and the
  `^https?://` test, which converts its argument to a string first.
- `Decimal`: the decimal rendering of the `Date.now()` reading used in
  generated identifiers and in index keys, plus its inverse.
- `Text`: the `/\/+$/` slash stripping of the webhook base URL.
- `CreatePayload`: request destructuring with defaults, the identifier,
  `client.email`, the `source` marker in `metadata`, the callback URL policy,
  the optional due date and the JSON object actually sent.
- `CreateResponse`: picking the reply's fields and the two-step QR fallbacks.
  This includes the TypeErrors a `null` reply or a `null` `pix` throws.
- `Upstream`: the gateway reply or error as the handlers see it, and the shared
  error mapping (`err.response?.status || 500`,
  `err.response?.data || { message }`).
- `Handlers`: each route split into the outbound call it makes and the answer
  it gives for the gateway's reply.

External effects are parameters of the model:

- The clock reading is `now: nat`.
- The `WEBHOOK_BASE_URL` setting is `Option<string>`.
- A request body is the parsed JSON object.
- The gateway's reply is a `Reply`: either the parsed 2xx body or the caught
  error, with its optional `response` and its `message`.

The model keeps to what the code does. In particular the adapter has:

- no alias table for transaction ids or QR data: the answer's QR fields come
  only from `pix.qrCodeImage`/`pix.qrCodeBase64` and
  `pix.qrCodeText`/`pix.payload`, under the keys `qrCodeBase64` and
  `qrCodeText` (`Handlers.PixKeysOutsideCandidatesIgnored`);
- no status-URL fallback list and no not-found signal: one status URL is
  asked and its error is mapped like any other;
- no replacement of a missing status: it stays undefined;
- no validation of `amount`;
- no reading of a nested `transaction` object or of an `event` field in
  webhooks.

The callback URL the payload carries is not always an absolute `http(s)`
URL string:

- A synthesised URL starts with `http://` or `https://` when the configured
  base has a scheme and a host (`CreatePayload.CallbackIsHttpUrl`). A base of
  just `https://` yields `https:/api/webhook/pix`, a URL with no host
  (`CreatePayload.SchemeOnlyBaseLosesSlashes`).
- The regex test converts the caller's value to a string first. An array such
  as `["https://x", "y"]` converts to `https://x,y`, passes, and is forwarded
  as the array itself (`CreatePayload.ArrayCallbackForwarded`).

Two string conversions can throw a TypeError. A value cannot be converted when
it is an object with its own `toString` key, or an array holding one.

- If the create route's `callbackUrl` is such a value, the regex test throws
  outside the `try`. The callback policy then yields the error instead of a
  URL (`CreatePayload.ResolveCallback`), so no body is built, no gateway call
  is made and, under Express 4, the handler sends no answer (`Handlers.CreateCall`).
- If the webhook's `transactionId` or `status` is such a value, the log line's
  template literal throws. Express then answers 500 (`Handlers.WebhookAnswer`).

## Model

| member | source | states |
|---|---|---|
| Decimal.ParseShow | api/index.js:72 | the decimal digits written for a clock reading parse back to that reading |
| Decimal.ShowParse | api/index.js:72 | a non-empty digit string without leading zeros is exactly the rendering of the number it denotes |
| Decimal.ShowInjective | api/index.js:72 | different clock readings are written as different digit strings |
| Text.StripTrailingSlashes | api/index.js:87 | removing `/\/+$/` yields a prefix of the base that does not end in `/`, and only `/` characters are removed |
| Text.StripTrailingSlashesUnique | api/index.js:87 | the run removed is the maximal one: stripping `r + t`, with `t` all slashes and `r` not ending in `/`, gives `r` |
| Text.StripTrailingSlashesIdempotent | api/index.js:87 | stripping an already stripped base changes nothing |
| Text.StripKeepsScheme | api/index.js:87 | a base with an http(s) scheme and a non-slash character anywhere after the scheme keeps its scheme when stripped |
| Js.Indexed | api/index.js:80 | spreading an array or string gives each element under its decimal index, and no other keys |
| Js.MatchesHttpSchemeIsRegexTest | api/index.js:84 | for values `String()` renders (numbers as plain integers), `MatchesHttpScheme` holds iff the string form starts with `http://` or `https://` |
| CreatePayload.Identifier | api/index.js:72 | the identifier is never falsy; a truthy `externalId` is kept unchanged; otherwise it is `tg_` followed by a non-empty digit string, without leading zeros, that denotes the clock reading |
| CreatePayload.GeneratedIdentifierExact | api/index.js:72 | a value is the identifier generated at a clock reading iff it is the string `tg_` followed by that reading's decimal digits |
| CreatePayload.GeneratedIdentifiersDiffer | api/index.js:72 | requests without a truthy `externalId` at different clock readings get different identifiers |
| CreatePayload.ClientEmail | api/index.js:77 | `client.email` is a truthy `customerEmail` unchanged, otherwise `""` |
| CreatePayload.TaggedMetadata | api/index.js:80 | `metadata.source` is `telegram` whatever the caller sent; every other spread key keeps its value; no other key is added |
| CreatePayload.TaggedObjectMetadata | api/index.js:80 | for an object `metadata` the keys sent are the caller's keys plus `source` |
| CreatePayload.ResolveCallback | api/index.js:84-88 | the policy fails with the TypeError iff the caller's value is truthy and cannot be converted to a string; otherwise a truthy caller URL starting with `http://` or `https://` wins, even over a configured base; otherwise a non-empty base gives the stripped base plus `/api/webhook/pix`; otherwise there is no callback URL |
| CreatePayload.CallbackIsHttpUrl | api/index.js:84-88 | when the base has an http(s) scheme and a host, a callback URL sent is a string starting with `http://` or `https://`, or else the caller's own array forwarded unchanged |
| CreatePayload.SchemeOnlyBaseLosesSlashes | api/index.js:86-87 | a base of just `https://` produces `https:/api/webhook/pix`, a URL with no host |
| CreatePayload.ArrayCallbackForwarded | api/index.js:84-85 | the array `["https://x", "y"]` converts to `https://x,y`, passes the test and is forwarded as the array, even with a base configured |
| CreatePayload.DueDate | api/index.js:90 | `dueDate` is sent if and only if a truthy one was given, and then it is unchanged |
| CreatePayload.PayloadJsonFields | api/index.js:71-90 | the JSON object sent holds each payload field under its own key; undefined fields are absent; no other keys appear |
| CreatePayload.WireBodyKeys | api/index.js:57-90 | no body is built iff the callback test throws; a body that is built always has the eight fixed keys; it has `amount` iff the caller sent one, `callbackUrl` iff the policy yields one, `dueDate` iff a truthy one was sent; it has nothing else |
| CreatePayload.WireBodyCopiesAndDefaults | api/index.js:57-81 | in a body that is built, `amount` is copied unvalidated; fees and discount default to 0 and `products`/`splits` to `[]` only when missing; `client.email` falls back to `""`; a truthy due date is copied |
| CreatePayload.WireBodyIdentifier | api/index.js:72 | in a body that is built, the identifier is never falsy; it equals a truthy `externalId`, else it encodes the clock reading |
| CreatePayload.WireBodyMetadata | api/index.js:67-80 | in a body that is built, the metadata is the tagged spread of the request's `metadata`, or of `{}` when it is missing |
| CreateResponse.NormalizeCreateReply | api/index.js:101-103 | it throws iff the reply or its `pix` is null; otherwise `transactionId`, `status`, `fee` and `order` pass through unchanged; each QR field is its first candidate when truthy, else the second; a missing `pix` gives no QR fields |
| CreateResponse.CreatedJsonFields | api/index.js:105 | the answer holds each defined field under its own key and no other keys |
| Upstream.ErrorCode | api/index.js:108 | the code is the gateway's status when a response with a non-zero status exists, otherwise 500; it is never 0 |
| Upstream.ErrorBody | api/index.js:109 | the body is the gateway's data when truthy, otherwise `{message: err.message}`; it is never falsy |
| Upstream.ErrorReplyPassesUpstreamThrough | api/index.js:106-110 | a gateway error with a non-zero status and a truthy body is answered with exactly those; an error without a response is answered 500 with its message |
| Handlers.CreateCall | api/index.js:71-98 | no call is made iff the caller's truthy `callbackUrl` cannot be converted to a string; otherwise it POSTs to the creation URL a body with the fixed keys, a never-falsy identifier equal to a truthy `externalId`, `metadata.source` = `telegram`, and the callback URL by precedence |
| Handlers.CreateAnswer | api/index.js:93-111 | a normalisable reply is answered 201 with the picked fields; a TypeError while normalising is answered 500 with its message; a gateway error goes through the shared error mapping |
| Handlers.StatusUrl | api/index.js:117 | the status URL string is the status base, a `/`, then the id |
| Handlers.StatusUrlRoundTrip | api/index.js:117 | the id can be read back from its status URL string |
| Handlers.StatusUrlInjective | api/index.js:117 | different ids give different status URL strings |
| Handlers.StatusCall | api/index.js:116-121 | the status route fetches the URL string from which the given id reads back |
| Handlers.StatusAnswer | api/index.js:120-127 | a gateway reply is passed through verbatim with 200; an error goes through the shared error mapping |
| Handlers.GatewayErrorsAnsweredAlike | api/index.js:124-126 | the status route answers a gateway error exactly as the create route does |
| Handlers.CreateAnswerNeverInventsStatus | api/index.js:101-105 | when the reply normalises, the 201 create answer has `status` iff the gateway reply had one, with the same value; likewise for `transactionId` |
| Handlers.ForeignQrKeysIgnored | api/index.js:101-105 | a reply whose QR data sits only under `pix.base64` and `pix.code` is answered 201 with `transactionId` and `status` and no QR fields |
| Handlers.PixKeysOutsideCandidatesIgnored | api/index.js:101-103 | setting any key of an object `pix` other than the four QR candidates leaves the normalised reply unchanged |
| Handlers.WebhookAnswer | api/index.js:131-135 | the webhook answers 200 `OK` iff both read values convert to strings; otherwise Express answers 500 with its error page |
| Handlers.WebhookNoticeOf | api/index.js:132 | the notice holds the top-level `transactionId` and `status`, each present iff the body has that key and then equal to it |
| Handlers.WebhookToStringKeyFails | api/index.js:133-135 | a `transactionId` object with its own `toString` key makes the webhook answer 500 |
| Handlers.WebhookReadsTopLevelOnly | api/index.js:132 | the notice depends only on the top-level `transactionId` and `status`; a nested `transaction` object changes nothing |

## Left out

- Environment loading and the exit when a gateway key is missing
  (api/index.js:2, 14-24): this is process start-up. The webhook base setting
  is a parameter instead.
- The MongoDB connection (api/index.js:26-34): it is never used by the routes.
- The Express app, CORS, JSON body parsing, the authentication-header
  middleware and the health checks (api/index.js:9-11, 42-53): this is
  framework plumbing. The header map is a constant that no decision reads.
- The axios calls and their async flow (api/index.js:94-98, 121): they are
  network I/O. Their outcome is the `Reply` input. Axios treats only 2xx
  replies as answers, and that is assumed of `Answered`.
- Console logging (api/index.js:92, 99, 107, 119, 122, 125, 133): it is a
  side-effect sink.
- `app.listen` and the serverless export (api/index.js:139-141): they are
  runtime hosting.
- `Date.now()` (api/index.js:72): it is nondeterministic, so it is the `now`
  parameter. `Decimal.Show` writes it as JavaScript does for integers below
  10^21, which covers every clock reading.
- A request body that is a JSON array is not modelled. Express would parse it,
  and every field read from it is `undefined`, so it behaves as `{}`.
- Express 4 semantics are assumed: `req.body` defaults to `{}` when no JSON
  body was parsed, and a rejected async handler is not caught. Express 5
  would leave `req.body` undefined, so lines 69 and 132 would throw, and
  would answer 500 for the rejection from line 84.
- Key order of JSON objects is not modelled: objects are maps.
- What happens after the create handler's promise rejects is not modelled.
  Node's unhandled-rejection mode decides that: a warning or the process
  ending.
- JSON numbers are exact rationals. Floating-point rounding is not modelled,
  nor are overflow and underflow: `JSON.parse` turns a literal such as `1e400`
  into `Infinity`, which `JSON.stringify` then sends as `null`, and a tiny
  literal into `0`, which is falsy. The adapter copies numbers and tests them
  for truthiness, and both are exact on rationals within range.
- Js.MatchesHttpSchemeIsRegexTest: numbers that are not integers below 10^21
  have no `ToStr` text in the model. JavaScript writes them starting with a
  digit or `-`, so the regex test fails for them as it does for integers, but
  that text is not modelled.
- Strings are sequences of Dafny `char`, which are Unicode scalar values.
  Spreading a string is modelled with one `char` per index. JavaScript uses
  UTF-16 code units, so a character outside the Basic Multilingual Plane would
  take two indices there. That difference is not modelled.
- The TypeError messages are Node's V8 texts. Other engines word them
  differently.
- Handlers.StatusCall: the model gives the URL string axios is handed. How
  axios then parses it is not modelled: an id that Express decoded from
  `%3F`, `%23`, `%2F` or `..` puts a `?`, `#`, `/` or dot segment into that
  string, so the request may reach another path than the id's own.
- `res.status` with a code outside 100-999 is not modelled. Express would
  throw, and axios never yields such a status.

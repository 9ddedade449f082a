# OAuth callback relay, modelled in Dafny

This project models `onRequest` in `functions/auth.js`. It is a Cloudflare Pages Function that completes GitHub's OAuth 2.0 authorization-code grant (section 4.1.3 of RFC 6749) for the Decap CMS admin UI. The handler runs these steps in order:

1. It checks that the injected `GITHUB_CLIENT_ID` and `GITHUB_CLIENT_SECRET` are present.
2. It checks the callback's `provider` and `code` query parameters.
3. It POSTs the code to GitHub's token endpoint and classifies the answer. The error format is section 5.2 of RFC 6749.
4. It calls GitHub's identity endpoint with the token, using it only as a gate.
5. It redirects the browser to `<origin>/admin/#/auth?access_token=…&provider=…&site_id=…&state=…`.

Every failure ends in a 400 or 500 text response.

The handler is a single pure function, `Auth.OnRequest`. Its inputs are:
- the environment (`Env`);
- the parts of the request URL (`CallbackRequest`);
- what each of the two fetches came to (`Fetched<J>`): a rejected promise with its message, a non-ok status with its body text, an ok body that did not parse, or the parsed JSON.

It returns the response together with the upstream calls it issued, in order, so "no upstream call is made" can be stated.

JavaScript truthiness is modelled by `Truthy`: a missing value and `""` are both falsy. Absent query values render as `null` in the Location, and nothing is URL-encoded.

Module layout:
- `wrappers.dfy`: `Option` and `Result`.
- `decimal.dfy`: renders the HTTP status in the error messages as a decimal numeral, and reads it back.
- `query.dfy`: reads a Location's fragment as `key=value` pairs. This is the partner the built redirect is checked against.
- `auth.dfy`: the data model, the stages, the handler and its exit-path lemmas.

At line 51 the error body shows `error_description` when it is non-empty, and `error` only otherwise. So a replayed code (`bad_verification_code` with a description) gives a body that does not contain the error code; `Auth.ReplayedCodeExample` proves this.

## Model

| member | source | states |
|---|---|---|
| Auth.OnRequest | functions/auth.js:5-89 | Status is always 302, 400 or 500. The response is a redirect exactly when it is 302. 302 happens exactly when config, parameters, token answer and identity answer all pass. 400 happens exactly when config passes and parameters do not. No upstream call happens exactly when either check fails. There are at most two calls, and the second happens exactly when a token was granted. |
| Auth.ExchangeBody | functions/auth.js:34-40 | The token-exchange body carries the configured id and secret, the inbound code and state unchanged, and `redirect_uri` = origin + pathname. |
| Auth.ExchangeToken | functions/auth.js:43-58 | It yields a token exactly when the answer is ok, parsed, has no truthy `error` and has a truthy `access_token`; that token is the non-empty `access_token`. A truthy `error` gives "GitHub token error: " + description-or-error, even when a token is present. Field tests use `Truthy`, the JavaScript `!x` of lines 17, 21, 50 and 56. |
| Auth.VerifyIdentity | functions/auth.js:61-73 | The gate passes exactly on an ok, parsed identity answer. A non-ok answer gives a message starting "Failed to get user info from GitHub: ". |
| Auth.RedirectUrl | functions/auth.js:80 | The Location begins with the origin. Absent values are written through `Render`, which gives "null" as `${null}` does. |
| Auth.Caught | functions/auth.js:84-87 | Every thrown error becomes a 500 text body starting "OAuth Error: ". |
| Auth.MissingConfigWins | functions/auth.js:14-19 | A missing or empty id or secret gives 500 "Missing GitHub OAuth App Client ID or Client Secret environment variables." with no calls, whatever the parameters. |
| Auth.InvalidParamsRejected | functions/auth.js:21-24 | With config present, an absent or non-"github" provider, or an absent or empty code, gives 400 "Invalid OAuth parameters." with no calls. |
| Auth.ExchangeRequestShape | functions/auth.js:28-41 | Past both checks, the first call is the exchange, with the configured credentials, code and state verbatim and redirect_uri = origin + pathname. |
| Auth.TokenEndpointNotOk | functions/auth.js:43-46 | A non-ok token answer gives 500 "OAuth Error: Failed to get access token from GitHub: <status> - <text>". The exchange is the only call, so the identity endpoint is never consulted. |
| Auth.TokenErrorField | functions/auth.js:50-52 | A truthy `error` gives 500 "OAuth Error: GitHub token error: " + (`error_description` if non-empty, else `error`), whatever `access_token` holds, and the identity endpoint is not called. |
| Auth.TokenAbsent | functions/auth.js:54-58 | With no error and a missing or empty `access_token`, the result is 500 "OAuth Error: GitHub did not return an access token." and the identity endpoint is not called. |
| Auth.IdentityNotOk | functions/auth.js:61-71 | After a granted token, a non-ok identity answer gives 500 "OAuth Error: Failed to get user info from GitHub: <status> - <text>" and no redirect. The calls made are the exchange, then the lookup with the granted token. |
| Auth.UnexpectedFailure | functions/auth.js:84-87 | A rejected fetch, or a body whose JSON does not parse, on either call gives 500 "OAuth Error: " + its message. |
| Auth.RedirectWhenAllPass | functions/auth.js:80-82 | When every gate passes, the result is 302 to origin + "/admin/#/auth?access_token=" + token + "&provider=github&site_id=" + site_id + "&state=" + state. Values are inserted verbatim, and an absent one is written "null". |
| Auth.TokenOnlyAfterAllGates | functions/auth.js:17-82 | A redirect implies that all four gates passed, and it carries exactly the granted token. |
| Auth.RedirectPieces | functions/auth.js:80 | The built Location is origin + "/admin/" + "#/auth?" followed by the four `key=value` pieces joined by '&'. |
| Auth.RedirectParses | functions/auth.js:80 | If the origin has no '#' and no value has '&', the fragment reads back as exactly (access_token, token), (provider, github), (site_id, …), (state, …). |
| Auth.StateInjectsParameter | functions/auth.js:39-80 | Because nothing is encoded, a state `x&access_token=y` reads back as a state `x` followed by a second pair (access_token, y). |
| Auth.AbsentStateLooksLikeNull | functions/auth.js:10-80 | An absent state and the literal state "null" produce the same Location. |
| Auth.GrantedExample | functions/auth.js:80-82 | Token "abc123" with a passing identity call redirects to origin/admin/#/auth?access_token=abc123&provider=github&site_id=…&state=…. |
| Auth.ReplayedCodeExample | functions/auth.js:50-52 | A replayed code (ok answer, `bad_verification_code` plus a description) gives 500 with the description only. |
| Decimal.Show | functions/auth.js:45 | The rendered status is a non-empty string of digits with no leading zero. |
| Decimal.ParseShow | functions/auth.js:45 | Reading the rendered status back gives the status. |
| Query.Cut | functions/auth.js:80 | Reference reading of the Location built at line 80. Cutting at the first c gives a c-free head. The tail exists exactly when c occurs, and head + c + tail is the input. |
| Query.Split | functions/auth.js:80 | Reference reading of the Location built at line 80. Splitting gives at least one piece, and no piece contains the separator. |
| Query.SplitJoin | functions/auth.js:80 | Reference reading of the Location built at line 80. Splitting a join of separator-free pieces gives those pieces back. |
| Query.JoinSplit | functions/auth.js:80 | Reference reading of the Location built at line 80. Joining the pieces of any split gives the string back. |
| Query.ReadBack | functions/auth.js:80 | Reference reading of the Location built at line 80. A location prefix '#' "/auth?" followed by '&'-joined pieces reads back as the pieces' pairs. |

## Left out

- The real `fetch` calls, their request and response headers (Content-Type, Accept, the `Authorization: token …` header) and async/await. Each fetch result is an input. The identity call is recorded with the token it carries rather than the header text.
- JSON: parsing of both answers, and `JSON.stringify` of the exchange body. The body is the `TokenRequest` record, and an absent state is `None` where the JSON would say `null`.
- Non-string JSON values in `error`, `error_description` and `access_token`, such as numbers or objects. Each field is a string that may be missing.
- A JSON `null` answer, where reading `.error` throws a TypeError, falls under `Unparseable`, and its message is not modelled. Any other non-object answer has every field missing.
- `new URL(request.url)` (line 6). Origin, pathname and the query values are inputs.
- The URL serialisation done by `Response.redirect` (line 82). It percent-encodes some fragment characters, and it throws on an invalid URL. The modelled Location is the string built at line 80.
- The identity answer's contents (`userData`, line 73), which the handler never reads.
- `console.error` logging (line 85) and the loading of `env` from Cloudflare Pages (lines 14-15).
- Response headers, such as the default text/plain content type of the error responses.
- Fetch's limit of statuses to 200-599. `FailureStatus` admits any non-negative status outside 200-299.
- Any validation of `state` against a server-held value. The code only echoes it, and so does the model.

/** The OAuth callback relay of functions/auth.js: a Cloudflare Pages Function that
    completes GitHub's authorization-code grant (section 4.1.3 of RFC 6749) for the
    Decap CMS admin UI. The handler is one pure function of the injected environment,
    the callback URL's parts and what the two upstream fetches came to; it yields the
    response and the upstream calls it issued, in order. */
module Auth {
  import opened Wrappers
  import Decimal
  import Query

  // ---------------------------------------------------------------- data model

  /** The environment variables GITHUB_CLIENT_ID and GITHUB_CLIENT_SECRET. */
  datatype Env = Env(clientId: Option<string>, clientSecret: Option<string>)

  /** The parts of the request URL the handler reads: origin, pathname, and what
      `searchParams.get` returns for each query parameter (None when it is absent). */
  datatype CallbackRequest = CallbackRequest(
    origin: string,
    pathname: string,
    provider: Option<string>,
    siteId: Option<string>,
    code: Option<string>,
    state: Option<string>)

  /** An HTTP status for which a fetch Response is not `ok` (outside 200-299). */
  type FailureStatus = s: nat | s < 200 || 299 < s

  /** What one awaited fetch, together with the awaited read of its body, came to. */
  datatype Fetched<J> =
    | Threw(message: string)                      // the fetch or the read of the body rejected
    | NotOk(status: FailureStatus, text: string)  // not ok; text is the body read as text
    | Unparseable(message: string)                // ok, but json() rejected
    | Parsed(json: J)                             // ok, with the body parsed as JSON

  /** The fields read from the token endpoint's JSON: the error response of section 5.2
      of RFC 6749 and the access token of a successful one. */
  datatype TokenJson = TokenJson(
    error: Option<string>,
    errorDescription: Option<string>,
    accessToken: Option<string>)

  /** The identity endpoint's JSON, which the handler parses but never inspects. */
  datatype UserJson = UserJson

  /** The JSON body POSTed to the token endpoint. */
  datatype TokenRequest = TokenRequest(
    clientId: string,
    clientSecret: string,
    code: string,
    redirectUri: string,
    state: Option<string>)

  /** An upstream call the handler issues: the code-for-token exchange, or the identity
      lookup authorised by the access token. */
  datatype Call = ExchangeCode(body: TokenRequest) | FetchUser(accessToken: string)

  datatype Payload = Location(url: string) | Body(text: string)

  datatype Response = Response(status: nat, payload: Payload)

  /** The response together with the upstream calls issued, in order. */
  datatype Handled = Handled(response: Response, calls: seq<Call>)

  // ---------------------------------------------------------------- the gates

  /** JavaScript truthiness of a string that may be missing: missing and "" are falsy. */
  predicate Truthy(v: Option<string>) {
    v.Some? && v.value != ""
  }

  predicate Configured(env: Env) {
    Truthy(env.clientId) && Truthy(env.clientSecret)
  }

  predicate ValidParams(req: CallbackRequest) {
    req.provider == Some("github") && Truthy(req.code)
  }

  /** The token endpoint granted a token: an ok, parsed answer with no error and a token. */
  predicate Granted(reply: Fetched<TokenJson>) {
    reply.Parsed? && !Truthy(reply.json.error) && Truthy(reply.json.accessToken)
  }

  const MissingConfigMessage := "Missing GitHub OAuth App Client ID or Client Secret environment variables."
  const InvalidParamsMessage := "Invalid OAuth parameters."
  const NoTokenMessage := "GitHub did not return an access token."

  /** How a `${value}` template slot renders a query value: an absent one as "null". */
  function Render(v: Option<string>): string {
    if v.Some? then v.value else "null"
  }

  // ---------------------------------------------------------------- the stages

  /** The body of the token exchange: the configured credentials, the inbound code and
      state unchanged, and the handler's own URL as redirect_uri. */
  function ExchangeBody(env: Env, req: CallbackRequest): (body: TokenRequest)
    requires Configured(env) && ValidParams(req)
    ensures Some(body.clientId) == env.clientId && Some(body.clientSecret) == env.clientSecret
    ensures Some(body.code) == req.code && body.state == req.state
    ensures body.redirectUri == req.origin + req.pathname
  {
    TokenRequest(env.clientId.value, env.clientSecret.value, req.code.value,
                 req.origin + req.pathname, req.state)
  }

  /** Classifies the token endpoint's answer into the access token or the message of the
      Error thrown for it. An error field wins over an access token next to it. */
  function ExchangeToken(reply: Fetched<TokenJson>): (r: Result<string>)
    ensures r.Ok? <==> Granted(reply)
    ensures r.Ok? ==> r.value != "" && reply.json.accessToken == Some(r.value)
    ensures reply.Parsed? && Truthy(reply.json.error) ==>
      r == Err("GitHub token error: " +
               (if Truthy(reply.json.errorDescription) then reply.json.errorDescription.value
                else reply.json.error.value))
  {
    match reply
    case Threw(m) => Err(m)
    case NotOk(status, text) =>
      Err("Failed to get access token from GitHub: " + Decimal.Show(status) + " - " + text)
    case Unparseable(m) => Err(m)
    case Parsed(json) =>
      if Truthy(json.error) then
        Err("GitHub token error: " +
            if Truthy(json.errorDescription) then json.errorDescription.value else json.error.value)
      else if !Truthy(json.accessToken) then Err(NoTokenMessage)
      else Ok(json.accessToken.value)
  }

  /** The identity gate: passes exactly on an ok answer whose body parses. */
  function VerifyIdentity(reply: Fetched<UserJson>): (r: Result<UserJson>)
    ensures r.Ok? <==> reply.Parsed?
    ensures reply.NotOk? ==> "Failed to get user info from GitHub: " <= r.message
  {
    match reply
    case Threw(m) => Err(m)
    case NotOk(status, text) =>
      Err("Failed to get user info from GitHub: " + Decimal.Show(status) + " - " + text)
    case Unparseable(m) => Err(m)
    case Parsed(json) => Ok(json)
  }

  /** The Location of the success redirect, written out with no URL-encoding. */
  function RedirectUrl(origin: string, token: string, provider: string,
                       siteId: Option<string>, state: Option<string>): (url: string)
    ensures |url| >= |origin| && url[..|origin|] == origin
  {
    origin + "/admin/#/auth?access_token=" + token + "&provider=" + provider +
    "&site_id=" + Render(siteId) + "&state=" + Render(state)
  }

  /** The outer catch: every thrown Error becomes a 500 carrying its message. */
  function Caught(message: string): (resp: Response)
    ensures resp.status == 500 && resp.payload.Body?
    ensures "OAuth Error: " <= resp.payload.text
  {
    Response(500, Body("OAuth Error: " + message))
  }

  // ---------------------------------------------------------------- the handler

  /** onRequest: the configuration check, then the parameter check, then the token
      exchange, then the identity gate, then the redirect. */
  function OnRequest(env: Env, req: CallbackRequest,
                     tokenReply: Fetched<TokenJson>, userReply: Fetched<UserJson>): (h: Handled)
    ensures h.response.status in {302, 400, 500}
    ensures h.response.payload.Location? <==> h.response.status == 302
    ensures h.response.status == 302 <==>
      Configured(env) && ValidParams(req) && Granted(tokenReply) && userReply.Parsed?
    ensures h.response.status == 400 <==> Configured(env) && !ValidParams(req)
    ensures h.calls == [] <==> !(Configured(env) && ValidParams(req))
    ensures |h.calls| <= 2
    ensures |h.calls| == 2 <==> Configured(env) && ValidParams(req) && Granted(tokenReply)
  {
    if !Truthy(env.clientId) || !Truthy(env.clientSecret) then
      Handled(Response(500, Body(MissingConfigMessage)), [])
    else if !Truthy(req.provider) || req.provider.value != "github" || !Truthy(req.code) then
      Handled(Response(400, Body(InvalidParamsMessage)), [])
    else
      var exchange := ExchangeCode(ExchangeBody(env, req));
      match ExchangeToken(tokenReply)
      case Err(m) => Handled(Caught(m), [exchange])
      case Ok(token) =>
        var calls := [exchange, FetchUser(token)];
        match VerifyIdentity(userReply)
        case Err(m) => Handled(Caught(m), calls)
        case Ok(_) =>
          Handled(Response(302, Location(RedirectUrl(req.origin, token, req.provider.value,
                                                     req.siteId, req.state))), calls)
  }

  // ---------------------------------------------------------------- exit paths

  /** Missing or empty credentials give the configuration 500 before anything else,
      whatever the parameters, and nothing is fetched. */
  lemma MissingConfigWins(env: Env, req: CallbackRequest,
                          tokenReply: Fetched<TokenJson>, userReply: Fetched<UserJson>)
    requires env.clientId in {None, Some("")} || env.clientSecret in {None, Some("")}
    ensures OnRequest(env, req, tokenReply, userReply) ==
      Handled(Response(500, Body("Missing GitHub OAuth App Client ID or Client Secret environment variables.")), [])
  {
  }

  /** With the configuration present, a missing or foreign provider or a missing or empty
      code gives 400, and nothing is fetched. */
  lemma InvalidParamsRejected(env: Env, req: CallbackRequest,
                              tokenReply: Fetched<TokenJson>, userReply: Fetched<UserJson>)
    requires Configured(env)
    requires req.provider.None? || req.provider.value != "github" || req.code in {None, Some("")}
    ensures OnRequest(env, req, tokenReply, userReply) ==
      Handled(Response(400, Body("Invalid OAuth parameters.")), [])
  {
  }

  /** Past both checks, the first call is the exchange, carrying the configured credentials,
      the inbound code and state verbatim and the handler's own URL as redirect_uri. */
  lemma ExchangeRequestShape(env: Env, req: CallbackRequest,
                             tokenReply: Fetched<TokenJson>, userReply: Fetched<UserJson>)
    requires Configured(env) && ValidParams(req)
    ensures OnRequest(env, req, tokenReply, userReply).calls[0] ==
      ExchangeCode(TokenRequest(env.clientId.value, env.clientSecret.value, req.code.value,
                                req.origin + req.pathname, req.state))
  {
  }

  /** A token endpoint that answers not ok gives 500 with its status and text, and the
      identity endpoint is never called. */
  lemma TokenEndpointNotOk(env: Env, req: CallbackRequest,
                           status: FailureStatus, text: string, userReply: Fetched<UserJson>)
    requires Configured(env) && ValidParams(req)
    ensures var h := OnRequest(env, req, NotOk(status, text), userReply);
      && h.response == Response(500, Body("OAuth Error: " + ("Failed to get access token from GitHub: " +
                                          Decimal.Show(status) + " - " + text)))
      && h.calls == [ExchangeCode(ExchangeBody(env, req))]
  {
  }

  /** A non-empty error field gives 500 with the description, or the error code when the
      description is missing or empty, even when an access token comes with it. */
  lemma TokenErrorField(env: Env, req: CallbackRequest,
                        json: TokenJson, userReply: Fetched<UserJson>)
    requires Configured(env) && ValidParams(req)
    requires Truthy(json.error)
    ensures var h := OnRequest(env, req, Parsed(json), userReply);
      && h.response == Response(500, Body("OAuth Error: " + ("GitHub token error: " +
           (if json.errorDescription.Some? && json.errorDescription.value != ""
            then json.errorDescription.value else json.error.value))))
      && h.calls == [ExchangeCode(ExchangeBody(env, req))]
  {
  }

  /** No error and no (or an empty) access token gives the missing-token 500. */
  lemma TokenAbsent(env: Env, req: CallbackRequest,
                    json: TokenJson, userReply: Fetched<UserJson>)
    requires Configured(env) && ValidParams(req)
    requires json.error in {None, Some("")} && json.accessToken in {None, Some("")}
    ensures var h := OnRequest(env, req, Parsed(json), userReply);
      && h.response == Response(500, Body("OAuth Error: " + "GitHub did not return an access token."))
      && h.calls == [ExchangeCode(ExchangeBody(env, req))]
  {
  }

  /** A granted token whose identity lookup answers not ok gives 500 with the status and
      text; the response is not a redirect. */
  lemma IdentityNotOk(env: Env, req: CallbackRequest, tokenReply: Fetched<TokenJson>,
                      status: FailureStatus, text: string)
    requires Configured(env) && ValidParams(req) && Granted(tokenReply)
    ensures var h := OnRequest(env, req, tokenReply, NotOk(status, text));
      && h.response == Response(500, Body("OAuth Error: " + ("Failed to get user info from GitHub: " +
                                          Decimal.Show(status) + " - " + text)))
      && !h.response.payload.Location?
      && h.calls == [ExchangeCode(ExchangeBody(env, req)), FetchUser(tokenReply.json.accessToken.value)]
  {
  }

  /** A rejected fetch or an unparseable body, on either call, gives 500 with its message. */
  lemma UnexpectedFailure(env: Env, req: CallbackRequest,
                          tokenReply: Fetched<TokenJson>, userReply: Fetched<UserJson>)
    requires Configured(env) && ValidParams(req)
    requires tokenReply.Threw? || tokenReply.Unparseable? ||
             (Granted(tokenReply) && (userReply.Threw? || userReply.Unparseable?))
    ensures OnRequest(env, req, tokenReply, userReply).response ==
      Response(500, Body("OAuth Error: " +
        if tokenReply.Threw? || tokenReply.Unparseable? then tokenReply.message else userReply.message))
  {
  }

  /** When every gate passes, the response is 302 to exactly
      origin/admin/#/auth?access_token=T&provider=github&site_id=S&state=X, the values
      inserted verbatim and an absent one written "null". */
  lemma RedirectWhenAllPass(env: Env, req: CallbackRequest, json: TokenJson, user: UserJson)
    requires Configured(env) && ValidParams(req) && Granted(Parsed(json))
    ensures OnRequest(env, req, Parsed(json), Parsed(user)).response == Response(302, Location(
      req.origin + "/admin/#/auth?access_token=" + json.accessToken.value +
      "&provider=" + "github" +
      "&site_id=" + (if req.siteId.Some? then req.siteId.value else "null") +
      "&state=" + (if req.state.Some? then req.state.value else "null")))
  {
  }

  /** A token reaches the caller only in a redirect, and only the token the endpoint granted. */
  lemma TokenOnlyAfterAllGates(env: Env, req: CallbackRequest,
                               tokenReply: Fetched<TokenJson>, userReply: Fetched<UserJson>)
    requires OnRequest(env, req, tokenReply, userReply).response.payload.Location?
    ensures Configured(env) && ValidParams(req) && Granted(tokenReply) && userReply.Parsed?
    ensures OnRequest(env, req, tokenReply, userReply).response.payload.url ==
      RedirectUrl(req.origin, tokenReply.json.accessToken.value, "github", req.siteId, req.state)
  {
  }

  // ---------------------------------------------------------------- the redirect format

  // Each of these regroups one literal of the Location into the separator and the
  // `key=` that follows it; together they rewrite RedirectUrl as pieces joined by '&'.

  lemma HeadPiece(origin: string, token: string)
    ensures origin + "/admin/#/auth?access_token=" + token ==
            (origin + "/admin/") + "#" + Query.AuthRoute + ("access_token" + "=" + token)
  {
  }

  lemma ProviderPiece(u: string, provider: string)
    ensures u + "&provider=" + provider == u + "&" + ("provider" + "=" + provider)
  {
  }

  lemma SitePiece(u: string, siteId: string)
    ensures u + "&site_id=" + siteId == u + "&" + ("site_id" + "=" + siteId)
  {
  }

  lemma StatePiece(u: string, state: string)
    ensures u + "&state=" + state == u + "&" + ("state" + "=" + state)
  {
  }

  lemma AccessTokenPiece(u: string, token: string)
    ensures u + "&access_token=" + token == u + "&" + ("access_token" + "=" + token)
  {
  }

  lemma Regroup(h: string, a: string, b: string, c: string, d: string)
    ensures h + a + "&" + b + "&" + c + "&" + d == h + (a + "&" + (b + "&" + (c + "&" + d)))
  {
  }

  /** RedirectUrl is the route prefix followed by its four `key=value` pieces, '&' between. */
  lemma RedirectPieces(origin: string, token: string, provider: string,
                       siteId: Option<string>, state: Option<string>)
    ensures RedirectUrl(origin, token, provider, siteId, state) ==
      (origin + "/admin/") + "#" + Query.AuthRoute +
      Query.Join(["access_token" + "=" + token, "provider" + "=" + provider,
                  "site_id" + "=" + Render(siteId), "state" + "=" + Render(state)], '&')
  {
    var head := (origin + "/admin/") + "#" + Query.AuthRoute;
    var s, x := Render(siteId), Render(state);
    var q0, q1 := "access_token" + "=" + token, "provider" + "=" + provider;
    var q2, q3 := "site_id" + "=" + s, "state" + "=" + x;
    calc {
      RedirectUrl(origin, token, provider, siteId, state);
      origin + "/admin/#/auth?access_token=" + token + "&provider=" + provider +
      "&site_id=" + s + "&state=" + x;
      { HeadPiece(origin, token); }
      head + q0 + "&provider=" + provider + "&site_id=" + s + "&state=" + x;
      { ProviderPiece(head + q0, provider); }
      head + q0 + "&" + q1 + "&site_id=" + s + "&state=" + x;
      { SitePiece(head + q0 + "&" + q1, s); }
      head + q0 + "&" + q1 + "&" + q2 + "&state=" + x;
      { StatePiece(head + q0 + "&" + q1 + "&" + q2, x); }
      head + q0 + "&" + q1 + "&" + q2 + "&" + q3;
      { Regroup(head, q0, q1, q2, q3); }
      head + (q0 + "&" + (q1 + "&" + (q2 + "&" + q3)));
      { JoinFour([q0, q1, q2, q3]); }
      head + Query.Join([q0, q1, q2, q3], '&');
    }
  }

  lemma JoinFour(q: seq<string>)
    requires |q| == 4
    ensures Query.Join(q, '&') == q[0] + "&" + (q[1] + "&" + (q[2] + "&" + q[3]))
  {
    assert q[1..][1..][1..] == [q[3]];
    assert Query.Join(q[1..][1..], '&') == q[2] + "&" + q[3];
  }

  /** The redirect reads back, through the fragment, as the four pairs it was built from,
      provided the origin has no '#' and no value holds '&'. */
  lemma RedirectParses(origin: string, token: string, siteId: Option<string>, state: Option<string>)
    requires '#' !in origin
    requires '&' !in token && '&' !in Render(siteId) && '&' !in Render(state)
    ensures Query.AuthParams(RedirectUrl(origin, token, "github", siteId, state)) ==
      Some([("access_token", token), ("provider", "github"),
            ("site_id", Render(siteId)), ("state", Render(state))])
  {
    RedirectPieces(origin, token, "github", siteId, state);
    Query.ReadBackFour(origin + "/admin/", "access_token", token, "provider", "github",
                       "site_id", Render(siteId), "state", Render(state));
  }

  /** A state x&access_token=y makes the Location a route with five pieces instead of four. */
  lemma InjectedPieces(origin: string, token: string, siteId: Option<string>, x: string, y: string)
    ensures RedirectUrl(origin, token, "github", siteId, Some(x + "&access_token=" + y)) ==
      (origin + "/admin/") + "#" + Query.AuthRoute +
      Query.Join(["access_token" + "=" + token, "provider" + "=" + "github",
                  "site_id" + "=" + Render(siteId), "state" + "=" + x, "access_token" + "=" + y], '&')
  {
    var state := x + "&access_token=" + y;
    var q0, q1 := "access_token" + "=" + token, "provider" + "=" + "github";
    var q2, q3, q4 := "site_id" + "=" + Render(siteId), "state" + "=" + x, "access_token" + "=" + y;
    var pieces := [q0, q1, q2, q3, q4];
    RedirectPieces(origin, token, "github", siteId, Some(state));
    calc {
      Query.Join([q0, q1, q2, "state" + "=" + state], '&');
      { JoinFour([q0, q1, q2, "state" + "=" + state]); }
      q0 + "&" + (q1 + "&" + (q2 + "&" + ("state" + "=" + state)));
      { AccessTokenPiece(q3, y); }
      q0 + "&" + (q1 + "&" + (q2 + "&" + (q3 + "&" + q4)));
      { JoinFour(pieces[1..]); }
      Query.Join(pieces, '&');
    }
  }

  /** Nothing is URL-encoded, so a state carrying "&access_token=" adds a second
      access_token pair after the real one. */
  lemma StateInjectsParameter(origin: string, token: string, siteId: Option<string>, x: string, y: string)
    requires '#' !in origin
    requires '&' !in token && '&' !in Render(siteId) && '&' !in x && '&' !in y
    ensures Query.AuthParams(RedirectUrl(origin, token, "github", siteId, Some(x + "&access_token=" + y))) ==
      Some([("access_token", token), ("provider", "github"),
            ("site_id", Render(siteId)), ("state", x), ("access_token", y)])
  {
    InjectedPieces(origin, token, siteId, x, y);
    Query.ReadBackFive(origin + "/admin/", "access_token", token, "provider", "github",
                       "site_id", Render(siteId), "state", x, "access_token", y);
  }

  /** An absent state and the literal state "null" give the same redirect. */
  lemma AbsentStateLooksLikeNull(origin: string, token: string, siteId: Option<string>)
    ensures RedirectUrl(origin, token, "github", siteId, None) ==
            RedirectUrl(origin, token, "github", siteId, Some("null"))
  {
  }

  // ---------------------------------------------------------------- worked examples

  /** A granted token "abc123" with a passing identity call redirects to the admin UI. */
  lemma GrantedExample(origin: string, pathname: string, siteId: string, state: string)
    ensures OnRequest(Env(Some("id"), Some("secret")),
                      CallbackRequest(origin, pathname, Some("github"), Some(siteId), Some("c0de"), Some(state)),
                      Parsed(TokenJson(None, None, Some("abc123"))), Parsed(UserJson)).response ==
      Response(302, Location(origin + "/admin/#/auth?access_token=" + "abc123" +
                             "&provider=" + "github" + "&site_id=" + siteId + "&state=" + state))
  {
  }

  /** A replayed code: GitHub answers ok with bad_verification_code and a description;
      the body shows the description only. */
  lemma ReplayedCodeExample(req: CallbackRequest, userReply: Fetched<UserJson>)
    requires ValidParams(req)
    ensures OnRequest(Env(Some("id"), Some("secret")), req,
                      Parsed(TokenJson(Some("bad_verification_code"),
                                       Some("The code passed is incorrect or expired."), None)),
                      userReply).response ==
      Response(500, Body("OAuth Error: " + ("GitHub token error: " + "The code passed is incorrect or expired.")))
  {
  }
}

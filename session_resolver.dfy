/** The session resolver: asks the authentication engine for the session behind a
    request's cookies and returns the richer bundle the engine's session callback saw. */
module SessionResolver {
  import opened Wrappers
  import opened Http
  import opened Normalizer
  import opened Configuration

  datatype SessionUser = SessionUser(name: Option<string>, email: Option<string>)

  /** The public session shape the engine serialises. */
  datatype Session = Session(user: Option<SessionUser>, expires: string)

  /** A decoded session token, as claim names and values. */
  datatype Jwt = Jwt(claims: map<string, string>)

  datatype AdapterUser = AdapterUser(id: string, email: Option<string>, name: Option<string>)

  /** The argument bundle of the engine's session callback. Every part may be missing:
      before the callback runs the resolver holds an empty object. */
  datatype AuthUser = AuthUser(session: Option<Session>, token: Option<Jwt>, user: Option<AdapterUser>)

  /** The `{}` the resolver starts from. */
  const EmptyBundle := AuthUser(None, None, None)

  /** The engine's response body read as JSON: `null`, a session object, or not JSON at all. */
  datatype SessionBody = NullBody | SessionObject(session: Session) | NotJson

  /** What one engine call yields: its response, that response's body read as a session,
      and the callback bundle, if the engine invoked the session callback. */
  datatype Reply = Reply(response: Response, body: SessionBody, captured: Option<AuthUser>)

  /** The external authentication engine, given a request and a configuration: its reply, or
      the error it rejects with. */
  type Engine = (Request, Config) -> Result<Reply>

  /** The request context: the inbound request and the two fields the middleware attaches. */
  class AuthRequest {
    const http: Request
    var authConfig: AuthConfig?
    var authUser: Option<AuthUser>

    constructor (http: Request)
      ensures this.http == http && authConfig == null && authUser == None
    {
      this.http := http;
      authConfig := null;
      authUser := None;
    }
  }

  /** The session endpoint under a normalised URL: its origin, then the base path and "/session". */
  function SessionEndpoint(u: Url, basePath: string): (r: Url)
    ensures Origin(r) == Origin(u)
    ensures r.path == basePath + "/session" && r.query == ""
    ensures r.username == "" && r.password == ""
  {
    Url(u.protocol, "", "", u.hostname, u.port, basePath + "/session", "")
  }

  /** The session query, written as the string the adapter builds, is the endpoint serialised. */
  lemma SessionEndpointText(u: Url, basePath: string)
    ensures Origin(SessionEndpoint(u, basePath)) + SessionEndpoint(u, basePath).path
         == Origin(u) + basePath + "/session"
  {
  }

  /** The request sent to the engine to read the session: a GET to the endpoint under the
      normalised URL, carrying the inbound headers with `Cookie` set to the inbound cookie or "". */
  function SessionQuery(q: Request, basePath: string, env: Env): Request {
    var prepared := Request(q.verb, PreparedUrl(q.url, q.headers, env.authUrl), q.headers);
    Request("GET", SessionEndpoint(prepared.url, basePath),
            Set(prepared.headers, "Cookie", Get(q.headers, "Cookie").GetOr("")))
  }

  /** The resolver's answer from the engine's reply: the captured bundle (or `{}`) exactly
      when the body is a session with a user, `null` otherwise, a rejection when the body
      is not JSON. */
  function SessionOutcome(body: SessionBody, captured: Option<AuthUser>): (r: Result<Option<AuthUser>>)
    ensures r.Failure? <==> body.NotJson?
    ensures r == Success(None) <==> body.NullBody? || (body.SessionObject? && body.session.user.None?)
    ensures r.Success? && r.value.Some? ==> body.SessionObject? && body.session.user.Some?
    ensures r.Success? && r.value.Some? ==> r.value.value == captured.GetOr(EmptyBundle)
  {
    match body
    case NotJson => Failure("SyntaxError: response body is not JSON")
    case NullBody => Success(None)
    case SessionObject(s) => if s.user.Some? then Success(Some(captured.GetOr(EmptyBundle))) else Success(None)
  }

  /** `getUserFromSession` on a request carrying configuration `c`: an engine rejection
      propagates, a reply is read by `SessionOutcome`. */
  function ResolveUser(q: Request, c: Config, env: Env, engine: Engine): Result<Option<AuthUser>> {
    var d := Defaulted(c, env);
    match engine(SessionQuery(q, d.basePath.value, env), d)
    case Failure(e) => Failure(e)
    case Success(reply) => SessionOutcome(reply.body, reply.captured)
  }

  /** The engine is asked with a GET to `<origin><basePath>/session` of the normalised URL,
      with the inbound `Cookie` or "", and every other inbound header unchanged. */
  lemma SessionQueryShape(q: Request, basePath: string, env: Env)
    ensures var s := SessionQuery(q, basePath, env);
      && s.verb == "GET"
      && Origin(s.url) == Origin(PreparedUrl(q.url, q.headers, env.authUrl))
      && s.url.path == basePath + "/session"
      && Get(s.headers, "Cookie") == Some(Get(q.headers, "Cookie").GetOr(""))
      && (forall n :: Lower(n) != "cookie" ==> Get(s.headers, n) == Get(q.headers, n))
  {
    assert Lower("Cookie") == "cookie";
  }

  /** `getUserFromSession(request, env)`: applies the defaults to the attached configuration
      (in place), then resolves the user through the engine. */
  method GetUserFromSession(request: AuthRequest, env: Env, engine: Engine) returns (r: Result<Option<AuthUser>>)
    requires request.authConfig != null
    modifies request.authConfig
    ensures request.authConfig.Value() == Defaulted(old(request.authConfig.Value()), env)
    ensures r == ResolveUser(request.http, old(request.authConfig.Value()), env, engine)
  {
    var config := request.authConfig;
    SetEnvDefaults(env, config);

    var authReq, _ := PrepareAuthRequest(request.http, env.authUrl);
    var reqHeaders := Set(authReq.headers, "Cookie", Get(request.http.headers, "Cookie").GetOr(""));
    var sessionRequest := Request("GET", SessionEndpoint(authReq.url, config.basePath.value), reqHeaders);

    var authUser := EmptyBundle;
    var answer := engine(sessionRequest, config.Value());
    if answer.Failure? {
      return Failure(answer.error);
    }
    var reply := answer.value;
    if reply.captured.Some? {
      authUser := reply.captured.value;
    }

    match reply.body {
      case NotJson =>
        r := Failure("SyntaxError: response body is not JSON");
      case NullBody =>
        r := Success(None);
      case SessionObject(session) =>
        r := if session.user.Some? then Success(Some(authUser)) else Success(None);
    }
  }
}

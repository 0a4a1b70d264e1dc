/** The three middleware stages the router chains: configure, require, handle.
    A stage that yields a response ends the chain; one that yields none lets it continue. */
module Middleware {
  import opened Wrappers
  import opened Http
  import opened Normalizer
  import opened Configuration
  import opened SessionResolver

  /** What a stage hands back to the router. */
  datatype Step = Continue | Respond(response: Response) | Reject(error: string)

  function Unauthorized(): Response {
    TextResponse(401, "Unauthorized")
  }

  function MissingSecretResponse(): Response {
    TextResponse(500, "Missing AUTH_SECRET")
  }

  /** `!!authUser?.token || !!authUser?.user`. */
  predicate IsAuthenticated(u: Option<AuthUser>) {
    u.Some? && (u.value.token.Some? || u.value.user.Some?)
  }

  /** The step the require stage takes once the resolver has answered. */
  function RequireStep(resolved: Result<Option<AuthUser>>): (s: Step)
    ensures resolved.Failure? <==> s.Reject?
    ensures s == Continue <==> resolved.Success? && IsAuthenticated(resolved.value)
    ensures s == Respond(Unauthorized()) <==> resolved.Success? && !IsAuthenticated(resolved.value)
  {
    match resolved
    case Failure(e) => Reject(e)
    case Success(u) => if IsAuthenticated(u) then Continue else Respond(Unauthorized())
  }

  /** `setupAuth(callback)`: attaches `callback(request)` as the configuration, replacing any
      configuration attached before. */
  method SetupAuth(request: AuthRequest, callback: ConfigHandler)
    modifies request
    ensures request.authConfig != null && fresh(request.authConfig)
    ensures request.authConfig.Value() == callback(request.http)
    ensures request.authUser == old(request.authUser)
  {
    var config := new AuthConfig(callback(request.http));
    request.authConfig := config;
  }

  /** `requireAuth()`: resolves the user; a user with neither token nor user record gets a 401
      and leaves `authUser` as it was, anyone else is attached and the chain continues. */
  method RequireAuth(request: AuthRequest, env: Env, engine: Engine) returns (step: Step)
    requires request.authConfig != null
    modifies request, request.authConfig
    ensures request.authConfig == old(request.authConfig)
    ensures request.authConfig.Value() == Defaulted(old(request.authConfig.Value()), env)
    ensures var resolved := ResolveUser(request.http, old(request.authConfig.Value()), env, engine);
      && step == RequireStep(resolved)
      && (step == Continue ==> request.authUser == resolved.value)
      && (step != Continue ==> request.authUser == old(request.authUser))
  {
    var authUser := GetUserFromSession(request, env, engine);
    if authUser.Failure? {
      return Reject(authUser.error);
    }
    var isAuth := IsAuthenticated(authUser.value);
    if !isAuth {
      step := Respond(Unauthorized());
    } else {
      request.authUser := authUser.value;
      step := Continue;
    }
  }

  /** The secret gate of the handle stage: no secret, or an empty one. */
  predicate MissingSecret(c: Config) {
    !Truthy(c.secret)
  }

  /** The handle stage's answer for configuration `c`: the 500 short-circuit, or the engine's
      response to the normalised request under the defaulted configuration, or its rejection. */
  function HandleStep(q: Request, c: Config, env: Env, engine: Engine): Step {
    if MissingSecret(c) then Respond(MissingSecretResponse())
    else
      var d := Defaulted(c, env);
      match engine(Request(q.verb, PreparedUrl(q.url, q.headers, env.authUrl), q.headers), d)
      case Failure(e) => Reject(e)
      case Success(reply) => Respond(reply.response)
  }

  /** `handleAuthRoutes()`: with no secret configured, a 500 before defaults or the engine;
      otherwise defaults in place and the engine's response, passed on as it is, or the
      engine's rejection. */
  method HandleAuthRoutes(request: AuthRequest, env: Env, engine: Engine) returns (step: Step)
    requires request.authConfig != null
    modifies request.authConfig
    ensures step == HandleStep(request.http, old(request.authConfig.Value()), env, engine)
    ensures MissingSecret(old(request.authConfig.Value())) ==>
              request.authConfig.Value() == old(request.authConfig.Value())
    ensures !MissingSecret(old(request.authConfig.Value())) ==>
              request.authConfig.Value() == Defaulted(old(request.authConfig.Value()), env)
  {
    var config := request.authConfig;
    if !Truthy(config.secret) {
      return Respond(MissingSecretResponse());
    }
    SetEnvDefaults(env, config);
    var authReq, _ := PrepareAuthRequest(request.http, env.authUrl);
    var answer := engine(authReq, config.Value());
    if answer.Failure? {
      return Reject(answer.error);
    }
    var response := answer.value.response;
    step := Respond(Response(response.status, response.headers, response.body));
  }

  // ---------- Properties ----------

  /** A missing or empty secret gives the 500 whatever the bindings (the environment secret
      is not consulted) and whatever the engine would answer (it is not called). */
  lemma MissingSecretShortCircuits(q: Request, c: Config, env: Env, env': Env, engine: Engine, engine': Engine)
    requires c.secret.None? || c.secret == Some("")
    ensures HandleStep(q, c, env, engine) == Respond(MissingSecretResponse())
    ensures HandleStep(q, c, env, engine) == HandleStep(q, c, env', engine')
    ensures HandleStep(q, c, env, engine).response.status == 500
  {
  }

  /** With a secret configured, the engine's response is returned unchanged and its rejection
      propagates, and the engine sees the configuration with that secret and a truthy base path. */
  lemma HandleDelegates(q: Request, c: Config, env: Env, engine: Engine)
    requires !MissingSecret(c)
    ensures var d := Defaulted(c, env);
      var answer := engine(Request(q.verb, PreparedUrl(q.url, q.headers, env.authUrl), q.headers), d);
      && d.secret == c.secret && Truthy(d.basePath)
      && (answer.Success? ==> HandleStep(q, c, env, engine) == Respond(answer.value.response))
      && (answer.Failure? ==> HandleStep(q, c, env, engine) == Reject(answer.error))
  {
  }

  /** A configuration built by `createConfig` without extra options has no secret, so the handle
      stage answers 500 for it, whatever the environment holds. */
  lemma CreatedConfigNeedsSecret(providers: seq<Provider>, basePath: Option<string>, q: Request, env: Env, engine: Engine)
    ensures HandleStep(q, CreateConfig(providers, basePath, None)(q), env, engine) == Respond(MissingSecretResponse())
  {
  }

  /** The require stage lets a request through only when the engine replied, its body held a
      session user and the captured bundle carries a token or a user record; a `null` body
      gets the 401 and an engine rejection propagates. */
  lemma RequireNeedsSessionUser(q: Request, c: Config, env: Env, engine: Engine)
    ensures var d := Defaulted(c, env);
      var answer := engine(SessionQuery(q, d.basePath.value, env), d);
      && (answer.Failure? ==> RequireStep(ResolveUser(q, c, env, engine)) == Reject(answer.error))
      && (RequireStep(ResolveUser(q, c, env, engine)) == Continue <==>
            && answer.Success?
            && answer.value.body.SessionObject? && answer.value.body.session.user.Some?
            && var b := answer.value.captured.GetOr(EmptyBundle); b.token.Some? || b.user.Some?)
      && (answer.Success? && answer.value.body.NullBody? ==>
            RequireStep(ResolveUser(q, c, env, engine)) == Respond(Unauthorized()))
  {
  }

  /** When the engine's body names a user but the engine never ran the session callback, the
      resolver returns the empty bundle `{}`, which the require stage rejects with a 401. */
  lemma UncapturedUserIsRejected(body: SessionBody)
    requires body.SessionObject? && body.session.user.Some?
    ensures SessionOutcome(body, None) == Success(Some(EmptyBundle))
    ensures RequireStep(SessionOutcome(body, None)) == Respond(Unauthorized())
  {
  }

  /** The configure stage is last-write-wins: configuring twice leaves the second configuration. */
  method ConfigureTwice(request: AuthRequest, first: ConfigHandler, second: ConfigHandler)
    modifies request
    ensures request.authConfig != null && request.authConfig.Value() == second(request.http)
  {
    SetupAuth(request, first);
    SetupAuth(request, second);
  }
}

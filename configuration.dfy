/** Auth configuration: the environment bindings, the defaults applied from them,
    and the factory that builds a configuration handler. */
module Configuration {
  import opened Wrappers
  import opened Http

  const DefaultBasePath: string := "/api/auth"

  /** An authentication provider, known here only by its identifier. */
  datatype Provider = Provider(id: string)

  /** The environment bindings of one invocation. `authUrl` is `AUTH_URL` already parsed;
      `None` stands for it being absent or empty, both of which the adapter treats as unset. */
  datatype Env = Env(authSecret: Option<string>, authUrl: Option<Url>)

  /** A configuration value: providers, base path, secret, and every other engine option by name. */
  datatype Config = Config(
    providers: seq<Provider>,
    basePath: Option<string>,
    secret: Option<string>,
    options: map<string, string>)

  /** JavaScript truthiness of an optional string: present and non-empty. */
  predicate Truthy(s: Option<string>) {
    s.Some? && s.value != ""
  }

  /** The configuration after the local defaults: a secret only where none was set
      (`??=`), the default base path wherever it was falsy (`||=`). */
  function Defaulted(c: Config, env: Env): (r: Config)
    ensures c.secret.Some? ==> r.secret == c.secret
    ensures c.secret.None? ==> r.secret == env.authSecret
    ensures Truthy(r.basePath)
    ensures Truthy(c.basePath) <==> r.basePath == c.basePath
    ensures !Truthy(c.basePath) ==> r.basePath == Some(DefaultBasePath)
    ensures r.providers == c.providers && r.options == c.options
  {
    c.(secret := c.secret.OrElse(env.authSecret),
       basePath := if Truthy(c.basePath) then c.basePath else Some(DefaultBasePath))
  }

  /** Applying the defaults twice with the same bindings is applying them once. */
  lemma DefaultedIdempotent(c: Config, env: Env)
    ensures Defaulted(Defaulted(c, env), env) == Defaulted(c, env)
  {
  }

  /** An explicit secret, even the empty string, survives any bindings. */
  lemma DefaultedKeepsExplicitSecret(c: Config, env: Env, s: string)
    requires c.secret == Some(s)
    ensures Defaulted(c, env).secret == Some(s)
  {
  }

  /** A configuration object, whose fields the middleware updates in place. */
  class AuthConfig {
    var providers: seq<Provider>
    var basePath: Option<string>
    var secret: Option<string>
    var options: map<string, string>

    function Value(): Config
      reads this
    {
      Config(providers, basePath, secret, options)
    }

    constructor (c: Config)
      ensures Value() == c
    {
      providers, basePath, secret, options := c.providers, c.basePath, c.secret, c.options;
    }
  }

  /** `setEnvDefaults(env, config)`, the part done by the adapter itself. */
  method SetEnvDefaults(env: Env, config: AuthConfig)
    modifies config
    ensures config.Value() == Defaulted(old(config.Value()), env)
  {
    if config.secret.None? {
      config.secret := env.authSecret;
    }
    if !Truthy(config.basePath) {
      config.basePath := Some(DefaultBasePath);
    }
  }

  /** Engine options other than providers and base path, as passed to `createConfig`. */
  datatype ExtraOptions = ExtraOptions(secret: Option<string>, options: map<string, string>)

  /** What the configure stage calls with the request to obtain its configuration. */
  type ConfigHandler = Request -> Config

  /** `createConfig`: a handler that ignores the request and always yields the providers,
      the base path (`/api/auth` when none is given, an empty one kept) and the extra options;
      it sets a secret only when the extra options carry one. */
  function CreateConfig(providers: seq<Provider>, basePath: Option<string>, additional: Option<ExtraOptions>)
    : (handler: ConfigHandler)
    ensures forall q, q' :: handler(q) == handler(q')
    ensures forall q :: handler(q).providers == providers
    ensures forall q :: basePath.Some? ==> handler(q).basePath == basePath
    ensures forall q :: basePath.None? ==> handler(q).basePath == Some(DefaultBasePath)
    ensures forall q :: handler(q).secret == (if additional.Some? then additional.value.secret else None)
    ensures forall q :: handler(q).options == (if additional.Some? then additional.value.options else map[])
  {
    var extra := additional.GetOr(ExtraOptions(None, map[]));
    q => Config(providers, Some(basePath.GetOr(DefaultBasePath)), extra.secret, extra.options)
  }

  /** A base path given as "" to `createConfig` is kept there and replaced by the defaults. */
  lemma EmptyBasePathDefaultedLater(providers: seq<Provider>, q: Request, env: Env)
    ensures CreateConfig(providers, Some(""), None)(q).basePath == Some("")
    ensures Defaulted(CreateConfig(providers, Some(""), None)(q), env).basePath == Some(DefaultBasePath)
  {
  }
}

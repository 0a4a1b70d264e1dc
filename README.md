# itty-authjs core, modelled in Dafny

itty-authjs is a middleware adapter between the itty-router HTTP router and the Auth.js
authentication engine. This project models its deterministic core, `src/index.ts`:

- **Request-origin normaliser** (`prepareAuthRequest`, module `Normalizer`): with an auth URL,
  it copies protocol, host name, port and credentials onto the request URL and keeps path and query.
  Without one, it reads `x-forwarded-proto` and `x-forwarded-host` (falling back to `host`).
  It adds a trailing ':' to the protocol. It takes the host name and a trailing `:<digits>` port,
  or clears the port. It edits a header set (drop `x-forwarded-host` and `Host`, set `Host`).
  As in the code, the returned request keeps the input's headers: the edited set is never
  attached, so the model returns it separately.
- **Configuration defaults and factory** (`setEnvDefaults`, `createConfig`, module `Configuration`).
  The secret is defaulted with `??=`, so only a missing one is filled and an empty one is kept.
  The base path is defaulted with `||=`, so any falsy one, including "", is replaced.
  `createConfig` returns a handler that ignores the request.
- **Session resolver** (`getUserFromSession`, module `SessionResolver`). It sends a GET to
  `<origin><basePath>/session` with the inbound `Cookie` (or ""). It returns the callback bundle the
  engine captured, but only when the engine's body is a session with a user; otherwise it returns `null`.
- **Middleware stages** (`setupAuth`, `requireAuth`, `handleAuthRoutes`, module `Middleware`).
  Configure attaches a configuration; the last write wins. Require answers 401 `Unauthorized`
  unless the user has a token or a user record; otherwise it attaches the user and continues.
  Handle answers 500 `Missing AUTH_SECRET` when the configured secret is absent or empty,
  before any defaulting or engine call.

A URL is a parsed record (`Http.Url`); its origin is protocol, "//", host name and an optional
":" port. Headers are a map with lower-cased names, read and written case-insensitively.
The authentication engine is a function parameter (`SessionResolver.Engine`). It returns its
response, that response's body read as a session, and the session-callback bundle, if it ran
the callback; or it rejects, and the rejection propagates through the resolver and both stages. Request contexts (`SessionResolver.AuthRequest`) and configurations
(`Configuration.AuthConfig`) are objects, because the middleware updates their fields in place.

Three behaviours of the code that are easy to miss, and that the model keeps:
- The session query carries every inbound header, with `Cookie` set, not only the cookie
  (src/index.ts:81-82 copy the prepared request's headers, which are the inbound ones).
- A session body that is not JSON makes the resolver reject; it does not yield `null`
  (src/index.ts:104 awaits `response.json()` unguarded).
- The normalised request keeps all inbound headers, host-related ones included (src/index.ts:67).

## Model

| member | source | states |
|---|---|---|
| `Http.Get` | src/index.ts:55-56 | over lower-cased names, whenever a stored name equals the asked one up to case, the header read is that stored entry's value |
| `Http.GetMatchesStoredName` | src/index.ts:55-56 | over lower-cased names, a header is found exactly when some stored name equals the asked one up to case |
| `Http.GetCaseInsensitive` | src/index.ts:55-56 | two names that differ only in case, such as `Host` and `host`, read the same header |
| `Http.Set` | src/index.ts:65 | after setting, the name reads back the new value, every name differing case-insensitively reads as before, and lower-cased names stay lower-cased |
| `Http.Delete` | src/index.ts:63-64 | after deleting, the name reads as absent and every other name reads as before |
| `Normalizer.WithColon` | src/index.ts:57 | the stored protocol ends in ':'; it is the header value exactly when that already ends in ':', and the value plus ':' exactly when it does not |
| `Normalizer.TrailingDigitCount` | src/index.ts:60 | the count covers only digits at the end of the value and is maximal: the character before the run is not a digit |
| `Normalizer.PortSuffix` | src/index.ts:60-62 | a port is found only when the host value ends in ':' followed by those one or more digits |
| `Normalizer.PortSuffixComplete` | src/index.ts:60-62 | whenever the host value ends in ':' and digits, those digits are the port found (the match exists and is unique) |
| `Normalizer.HostEnd` | src/index.ts:59 | the host setter's scan stops at the first ':' outside `[...]`, or at the end: every ':' it passes lies inside brackets |
| `Normalizer.HostnameOf` | src/index.ts:59 | the host name is a prefix of the host value in which every ':' lies inside `[...]`, and it ends at the end of the value or at a ':' outside brackets |
| `Normalizer.HostnameOfWhole` | src/index.ts:59 | a host value without a port is its own host name, IPv6 brackets included |
| `Normalizer.PlainHostname` | src/index.ts:59 | a host name without ':' or brackets is kept whole by the host setter |
| `Normalizer.HostPortRoundTrip` | src/index.ts:59-61 | splitting `name:port` gives back exactly the name and the port it was joined from, for bracketed IPv6 names as for plain ones |
| `Normalizer.SetProp` | src/index.ts:49-50 | copying one URL component sets that component and leaves the others, path and query unchanged |
| `Normalizer.PrepareAuthRequest` | src/index.ts:45-69 | the result has the input's method and headers under the normalised URL; the copy loop yields the override URL's origin and credentials; the header set returned is the edited one |
| `Normalizer.OverrideKeepsPathAndQuery` | src/index.ts:46-51 | with an auth URL, protocol, host name, port, username and password are the auth URL's, path and query are the request's, and forwarded headers have no effect |
| `Normalizer.ForwardedProtocol` | src/index.ts:55-57 | without an auth URL, a forwarded protocol becomes the scheme, with ':' appended exactly when missing; without the header the scheme is unchanged |
| `Normalizer.ForwardedPortFromSuffix` | src/index.ts:58-61 | a forwarded host ending in ':' and digits sets the host name and sets the port to those digits |
| `Normalizer.ForwardedPortCleared` | src/index.ts:60-62 | a forwarded host without a port suffix clears the port, whatever port the URL had |
| `Normalizer.ForwardedHostChoice` | src/index.ts:53-58 | `x-forwarded-host` is preferred over `host`; with neither host nor protocol header the URL is unchanged |
| `Normalizer.ForwardedKeepsRest` | src/index.ts:53-62 | without an auth URL, path, query, username and password stay the request's, and without a host header so do the host name and the port |
| `Normalizer.EditedHeadersHost` | src/index.ts:63-65 | the edited headers have no `x-forwarded-host`, exactly one `Host` entry equal to the host value, and every other header unchanged |
| `Normalizer.OverrideExample` | test/routing.test.ts:60-65 | `http://request-base/request-path` under `https://auth-url-base/auth-url-path` becomes `https://auth-url-base/request-path` |
| `Normalizer.ForwardedExample` | test/routing.test.ts:223-237 | on `http://localhost/api/auth/signin`, forwarded `https` and `example.com` give origin `https://example.com` with the path kept, and the edited `Host` is `example.com` with no `x-forwarded-host` |
| `Normalizer.ForwardedPortExample` | src/index.ts:55-65 | a variant of that scenario with ports: forwarded `example.com:9999` over a URL on port 3000 gives origin `https://example.com:9999`, and the edited `Host` is that host |
| `Normalizer.BracketedHostExample` | src/index.ts:59-61 | the host value `[::1]:3000` gives the host name `[::1]` and the port `3000` |
| `Configuration.Defaulted` | src/index.ts:35-37 | an explicit secret, even "", is kept and a missing one becomes the environment's; a truthy base path is kept exactly, any falsy one becomes `/api/auth`; nothing else changes |
| `Configuration.DefaultedIdempotent` | src/index.ts:35-37 | applying the defaults twice with the same bindings equals applying them once |
| `Configuration.DefaultedKeepsExplicitSecret` | src/index.ts:36 | a configured secret survives defaulting under any environment |
| `Configuration.SetEnvDefaults` | src/index.ts:35-39 | the configuration object afterwards holds the defaulted value of what it held before |
| `Configuration.CreateConfig` | src/index.ts:151-170 | the handler yields the same configuration for every request: the providers, the given base path or `/api/auth`, and exactly the extra options' secret and options (none and an empty map without extra options) |
| `Configuration.EmptyBasePathDefaultedLater` | src/index.ts:159-168 | a base path of "" passes `createConfig`'s `??` unchanged and is replaced by `/api/auth` when defaults apply |
| `SessionResolver.SessionEndpoint` | src/index.ts:78-79 | the endpoint has the normalised URL's origin, path `<basePath>/session`, no query and no credentials |
| `SessionResolver.SessionEndpointText` | src/index.ts:78-79 | serialised, the endpoint is the string `origin + basePath + "/session"` |
| `SessionResolver.SessionQueryShape` | src/index.ts:77-87 | the engine is queried with GET at that endpoint, with `Cookie` equal to the inbound cookie or "", and every other inbound header unchanged |
| `SessionResolver.SessionOutcome` | src/index.ts:89-106 | the answer is the captured bundle (or `{}`) exactly when the body is a session with a user, `null` for a `null` body or a session without user, and a rejection exactly when the body is not JSON |
| `SessionResolver.GetUserFromSession` | src/index.ts:73-107 | the attached configuration is defaulted in place, and the answer is the engine-based resolution of the original configuration, an engine rejection included |
| `Middleware.RequireStep` | src/index.ts:113-120 | the chain continues exactly when the resolved user has a token or a user record, the 401 `Unauthorized` is given exactly when it has neither (or is `null`), and a resolver rejection propagates |
| `Middleware.RequireAuth` | src/index.ts:111-122 | the step is the one above; the user is attached only when the chain continues, otherwise `authUser` is untouched |
| `Middleware.SetupAuth` | src/index.ts:124-129 | the attached configuration is the handler's result for the request, replacing any earlier one |
| `Middleware.ConfigureTwice` | src/index.ts:124-129 | configuring twice leaves the second configuration (last write wins) |
| `Middleware.HandleAuthRoutes` | src/index.ts:131-144 | the step is the 500 short-circuit with the configuration untouched, or the engine's response or rejection with the configuration defaulted in place |
| `Middleware.MissingSecretShortCircuits` | src/index.ts:135-137 | a missing or empty secret yields 500 `Missing AUTH_SECRET` whatever the environment secret and whatever the engine would answer |
| `Middleware.HandleDelegates` | src/index.ts:139-142 | with a secret, the engine's response to the normalised request under the defaulted configuration is returned unchanged, and its rejection propagates |
| `Middleware.CreatedConfigNeedsSecret` | test/routing.test.ts:16-27 | a `createConfig` configuration without extra options is answered 500 by the handle stage, whatever the environment |
| `Middleware.RequireNeedsSessionUser` | src/index.ts:91-120 | the require stage continues exactly when the engine replied, its body had a session user and the captured bundle has a token or user record; a `null` body gives 401; an engine rejection propagates |
| `Middleware.UncapturedUserIsRejected` | src/index.ts:89-117 | a session user without a captured bundle resolves to `{}`, which the require stage answers with 401 |

## Left out

- `coreSetEnvDefaults` (src/index.ts:38) is a call into the Auth.js library; only the two defaults the adapter applies itself are modelled.
- `AuthCore` is the `Engine` function parameter, which answers with a reply or a rejection. Its cookie, JWT, CSRF and provider logic is not part of this model.
- `SessionResolver.GetUserFromSession`, `Middleware.RequireAuth` and `Middleware.HandleAuthRoutes` require an attached configuration: the `TypeError` that reading a missing `authConfig` throws (src/index.ts:74-75, 133-135) is not modelled, because `AuthRequest` declares `authConfig: AuthConfig` as a required field (src/index.ts:10-13), so the stages may take it to be present.
- The session-callback wrapper (src/index.ts:93-100) is represented only by the bundle the engine reports as captured. Its merging of the caller's own session callback is not modelled.
- URL parsing and serialisation (`new URL`, `.href`, `.origin`) are not modelled: URLs are already-parsed records, and a thrown `TypeError` on an unparsable URL is not modelled. In particular the session URL is built as a string and parsed again (src/index.ts:79, 84): a truthy base path without a leading '/', such as `api/auth`, runs into the host (`http://localhostapi/auth/session`), or makes the parse throw when the origin has a port; the model keeps the normalised origin in both cases.
- Normalizer.PrepareAuthRequest: does not model the URL setters' normalisation, because that belongs to the URL standard, not to this code. The cases dropped include: a default port reads as ""; a special scheme cannot become a non-special one; an invalid or empty scheme is refused, so `x-forwarded-proto: ""` or `https, http` leaves the protocol unchanged; an upper-case scheme is lower-cased; host names are lower-cased and percent-decoded; an empty host is refused; the host setter stops at '/', '?' and '#'; a port above 65535 is refused, so `example.com:99999` keeps the old port; leading zeros of a port are dropped, so `0443` reads `443`; a comma-joined forwarded host from chained proxies, such as `a.com, b.com`, is refused because a space is a forbidden host code point, so the host name stays as it was (and src/index.ts:62 clears the port), whereas the model takes the whole value as the host name.
- `AUTH_URL` is given already parsed; an absent and an empty `AUTH_URL` are both `None`, as both are falsy at src/index.ts:46.
- A header set holds one value per name; the runtime's joining of repeated headers with ", " is not modelled.
- The secret is a string; Auth.js also accepts an array of secrets, whose emptiness test at src/index.ts:135 is not modelled.
- A configuration handler receives the request's HTTP part and returns a value, and the configure stage allocates a fresh configuration object. A handler that hands out one shared object, which later defaulting would mutate for every request, is not modelled.
- Request and response bodies, streaming, `async`/Promise scheduling and the reconstruction of the engine's response (src/index.ts:142, modelled as the same status, headers and body) are I/O.
- A JSON session body other than `null` or an object (a number, a string) is not modelled; a session `user` counts as present when it is there.
- itty-router dispatch and the `IAuth` namespace and type aliases (src/index.ts:172-189) are re-export glue.

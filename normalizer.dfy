/** The request-origin normaliser: rebuilds the URL a request is seen under,
    either from an operator-supplied auth URL or from proxy-forwarded headers. */
module Normalizer {
  import opened Wrappers
  import opened Http

  // ---------- Protocol ----------

  predicate EndsWithColon(s: string) {
    |s| > 0 && s[|s| - 1] == ':'
  }

  /** The forwarded protocol as the URL stores it: with a trailing ':' added when missing. */
  function WithColon(proto: string): (r: string)
    ensures EndsWithColon(r)
    ensures EndsWithColon(proto) <==> r == proto
    ensures !EndsWithColon(proto) <==> r == proto + ":"
  {
    if EndsWithColon(proto) then proto else proto + ":"
  }

  lemma WithColonIdempotent(proto: string)
    ensures WithColon(WithColon(proto)) == WithColon(proto)
  {
  }

  // ---------- Host and port ----------

  predicate IsDigit(c: char) {
    '0' <= c <= '9'
  }

  predicate AllDigits(s: string) {
    forall i :: 0 <= i < |s| ==> IsDigit(s[i])
  }

  /** `host` ends in ':' followed by the one or more digits `d` (the pattern `:(\d+)$`). */
  predicate EndsWithPort(host: string, d: string) {
    && 0 < |d| < |host|
    && AllDigits(d)
    && host[|host| - |d| - 1] == ':'
    && host[|host| - |d|..] == d
  }

  /** The length of the longest run of digits that ends `s`. */
  function TrailingDigitCount(s: string): (n: nat)
    ensures n <= |s|
    ensures forall i :: |s| - n <= i < |s| ==> IsDigit(s[i])
    ensures n < |s| ==> !IsDigit(s[|s| - n - 1])
  {
    if |s| == 0 || !IsDigit(s[|s| - 1]) then 0
    else 1 + TrailingDigitCount(s[..|s| - 1])
  }

  /** The port of a host value: the digits after its last ':' when only digits follow it. */
  function PortSuffix(host: string): (r: Option<string>)
    ensures r.Some? ==> EndsWithPort(host, r.value)
  {
    var n := TrailingDigitCount(host);
    if 0 < n < |host| && host[|host| - n - 1] == ':' then Some(host[|host| - n..]) else None
  }

  /** The match is the only one: whenever `host` ends in ':' and the digits `d`, the port is `d`. */
  lemma PortSuffixComplete(host: string, d: string)
    requires EndsWithPort(host, d)
    ensures PortSuffix(host) == Some(d)
  {
  }

  /** Whether a host text leaves an IPv6 bracket open: its last '[' or ']' is a '['. */
  function BracketOpen(s: string): bool {
    if |s| == 0 then false
    else if s[|s| - 1] == '[' then true
    else if s[|s| - 1] == ']' then false
    else BracketOpen(s[..|s| - 1])
  }

  /** Where the host setter's host state ends, scanning on from `i` with the bracket state
      `open` of `host[..i]`: at the first ':' outside brackets, or at the end. */
  function HostEnd(host: string, i: nat, open: bool): (n: nat)
    requires i <= |host| && open == BracketOpen(host[..i])
    ensures i <= n <= |host|
    ensures n < |host| ==> host[n] == ':' && !BracketOpen(host[..n])
    ensures forall k :: i <= k < n && host[k] == ':' ==> BracketOpen(host[..k])
    decreases |host| - i
  {
    if i == |host| || (host[i] == ':' && !open) then i
    else
      assert host[..i + 1][..i] == host[..i];
      HostEnd(host, i + 1, if host[i] == '[' then true else if host[i] == ']' then false else open)
  }

  /** A host name the host setter keeps whole: each of its ':' lies inside brackets, and it
      closes every bracket it opens. */
  predicate WholeHostname(name: string) {
    && (forall k :: 0 <= k < |name| && name[k] == ':' ==> BracketOpen(name[..k]))
    && !BracketOpen(name)
  }

  /** A host name without ':' or brackets is kept whole. */
  lemma {:induction false} PlainHostname(name: string)
    requires ':' !in name && '[' !in name && ']' !in name
    ensures WholeHostname(name)
  {
    if |name| > 0 {
      var init := name[..|name| - 1];
      assert forall c :: c in init ==> c in name;
      PlainHostname(init);
    }
  }

  /** The host name part of a `host` value: everything before its first ':' outside
      brackets, so that `[::1]:3000` names the host `[::1]`. */
  function HostnameOf(host: string): (r: string)
    ensures |r| <= |host| && r == host[..|r|]
    ensures |r| < |host| ==> host[|r|] == ':' && !BracketOpen(r)
    ensures forall k :: 0 <= k < |r| && r[k] == ':' ==> BracketOpen(r[..k])
  {
    var n := HostEnd(host, 0, false);
    assert forall k :: 0 <= k <= n ==> host[..n][..k] == host[..k];
    host[..n]
  }

  /** Scanning a host value that is a whole host name, or one followed by ':', stops right
      after the name. */
  lemma {:induction false} HostEndAtName(host: string, name: string, i: nat)
    requires WholeHostname(name) && |name| <= |host| && host[..|name|] == name
    requires |name| < |host| ==> host[|name|] == ':'
    requires i <= |name|
    ensures HostEnd(host, i, BracketOpen(host[..i])) == |name|
    decreases |name| - i
  {
    assert host[..i] == name[..i];
    if i < |name| {
      assert host[..i + 1][..i] == host[..i];
      HostEndAtName(host, name, i + 1);
    }
  }

  /** A whole host name without a port is its own host name. */
  lemma HostnameOfWhole(name: string)
    requires WholeHostname(name)
    ensures HostnameOf(name) == name
  {
    assert name[..|name|] == name;
    HostEndAtName(name, name, 0);
  }

  /** Splitting a `name:port` host value gives back the name and the port it was joined from,
      for bracketed IPv6 names as for plain ones. */
  lemma HostPortRoundTrip(name: string, port: string)
    requires WholeHostname(name) && port != [] && AllDigits(port)
    ensures HostnameOf(name + ":" + port) == name
    ensures PortSuffix(name + ":" + port) == Some(port)
  {
    var host := name + ":" + port;
    assert host[..|name|] == name;
    HostEndAtName(host, name, 0);
    assert host[|host| - |port|..] == port;
    PortSuffixComplete(host, port);
  }

  // ---------- URL components ----------

  /** The URL components the override path copies. */
  datatype Prop = Hostname | Protocol | Port | Password | Username

  /** The order in which the override path copies them. */
  const OriginProps: seq<Prop> := [Hostname, Protocol, Port, Password, Username]

  function GetProp(u: Url, p: Prop): string {
    match p
    case Hostname => u.hostname
    case Protocol => u.protocol
    case Port => u.port
    case Password => u.password
    case Username => u.username
  }

  function SetProp(u: Url, p: Prop, v: string): (r: Url)
    ensures GetProp(r, p) == v
    ensures forall q :: q != p ==> GetProp(r, q) == GetProp(u, q)
    ensures r.path == u.path && r.query == u.query
  {
    match p
    case Hostname => u.(hostname := v)
    case Protocol => u.(protocol := v)
    case Port => u.(port := v)
    case Password => u.(password := v)
    case Username => u.(username := v)
  }

  /** The request URL with its scheme, host, port and credentials taken from the auth URL. */
  function OverrideOrigin(u: Url, authUrl: Url): Url {
    Url(authUrl.protocol, authUrl.username, authUrl.password, authUrl.hostname, authUrl.port, u.path, u.query)
  }

  // ---------- Forwarded headers ----------

  function ForwardedProto(h: Headers): Option<string> {
    Get(h, "x-forwarded-proto")
  }

  /** `x-forwarded-host`, falling back to `host`. */
  function ForwardedHost(h: Headers): Option<string> {
    Get(h, "x-forwarded-host").OrElse(Get(h, "host"))
  }

  /** The request URL as the forwarded headers describe it. */
  function ForwardedUrl(u: Url, h: Headers): Url {
    var withProto := match ForwardedProto(h)
      case Some(proto) => u.(protocol := WithColon(proto))
      case None => u;
    match ForwardedHost(h)
    case Some(host) => withProto.(hostname := HostnameOf(host), port := PortSuffix(host).GetOr(""))
    case None => withProto
  }

  /** The URL of the prepared request. */
  function PreparedUrl(u: Url, h: Headers, authUrl: Option<Url>): Url {
    match authUrl
    case Some(a) => OverrideOrigin(u, a)
    case None => ForwardedUrl(u, h)
  }

  /** The header set as edited on the forwarded path (it is never attached to the prepared request). */
  function EditedHeaders(h: Headers, authUrl: Option<Url>): Headers {
    if authUrl.Some? then h
    else match ForwardedHost(h)
      case Some(host) => Set(Delete(Delete(h, "x-forwarded-host"), "Host"), "Host", host)
      case None => h
  }

  lemma UrlExtensionality(u: Url, v: Url)
    requires forall p :: GetProp(u, p) == GetProp(v, p)
    requires u.path == v.path && u.query == v.query
    ensures u == v
  {
    assert GetProp(u, Hostname) == GetProp(v, Hostname);
    assert GetProp(u, Protocol) == GetProp(v, Protocol);
    assert GetProp(u, Port) == GetProp(v, Port);
    assert GetProp(u, Password) == GetProp(v, Password);
    assert GetProp(u, Username) == GetProp(v, Username);
  }

  /** `prepareAuthRequest(req, authUrl)`: the request under its normalised URL, and the
      header set the forwarded path edits. The request keeps the input's method and headers. */
  method PrepareAuthRequest(req: Request, authUrl: Option<Url>) returns (prepared: Request, headers: Headers)
    ensures prepared == Request(req.verb, PreparedUrl(req.url, req.headers, authUrl), req.headers)
    ensures headers == EditedHeaders(req.headers, authUrl)
  {
    headers := req.headers;
    var url := req.url;
    if authUrl.Some? {
      var a := authUrl.value;
      for i := 0 to |OriginProps|
        invariant forall j :: 0 <= j < i ==> GetProp(url, OriginProps[j]) == GetProp(a, OriginProps[j])
        invariant url.path == req.url.path && url.query == req.url.query
      {
        url := SetProp(url, OriginProps[i], GetProp(a, OriginProps[i]));
      }
      forall p ensures GetProp(url, p) == GetProp(OverrideOrigin(req.url, a), p) {
        assert p == OriginProps[0] || p == OriginProps[1] || p == OriginProps[2]
            || p == OriginProps[3] || p == OriginProps[4];
      }
      UrlExtensionality(url, OverrideOrigin(req.url, a));
    } else {
      var proto := Get(headers, "x-forwarded-proto");
      var host := Get(headers, "x-forwarded-host").OrElse(Get(headers, "host"));
      if proto.Some? {
        url := url.(protocol := WithColon(proto.value));
      }
      if host.Some? {
        // Setting `url.host` may set a port too; the next step overwrites it either way.
        url := url.(hostname := HostnameOf(host.value));
        var portMatch := PortSuffix(host.value);
        if portMatch.Some? {
          url := url.(port := portMatch.value);
        } else {
          url := url.(port := "");
        }
        headers := Delete(headers, "x-forwarded-host");
        headers := Delete(headers, "Host");
        headers := Set(headers, "Host", host.value);
      }
    }
    prepared := Request(req.verb, url, req.headers);
  }

  // ---------- Properties ----------

  /** With an auth URL, scheme, host, port and credentials come from it, path and query
      from the request, and the forwarded headers play no part. */
  lemma OverrideKeepsPathAndQuery(u: Url, h: Headers, h': Headers, a: Url)
    ensures var r := PreparedUrl(u, h, Some(a));
      && r.protocol == a.protocol && r.hostname == a.hostname && r.port == a.port
      && r.username == a.username && r.password == a.password
      && r.path == u.path && r.query == u.query
      && r == PreparedUrl(u, h', Some(a))
  {
  }

  /** Without an auth URL, a forwarded protocol sets the scheme (with ':' added exactly when
      missing); without one the scheme is unchanged. */
  lemma ForwardedProtocol(u: Url, h: Headers)
    ensures var r := PreparedUrl(u, h, None);
      match ForwardedProto(h)
      case Some(proto) => (EndsWithColon(proto) ==> r.protocol == proto)
                       && (!EndsWithColon(proto) ==> r.protocol == proto + ":")
      case None => r.protocol == u.protocol
  {
  }

  /** Without an auth URL, a forwarded host ending in ':' and digits sets the port to those digits. */
  lemma ForwardedPortFromSuffix(u: Url, h: Headers, host: string, d: string)
    requires ForwardedHost(h) == Some(host)
    requires EndsWithPort(host, d)
    ensures PreparedUrl(u, h, None).hostname == HostnameOf(host)
    ensures PreparedUrl(u, h, None).port == d
  {
    PortSuffixComplete(host, d);
  }

  /** Without an auth URL, a forwarded host with no port suffix clears the port,
      whatever port the request URL had. */
  lemma ForwardedPortCleared(u: Url, h: Headers, host: string)
    requires ForwardedHost(h) == Some(host)
    requires forall d :: !EndsWithPort(host, d)
    ensures PreparedUrl(u, h, None).port == ""
  {
  }

  /** `x-forwarded-host` wins over `host`; with neither (nor a forwarded protocol) the URL is unchanged. */
  lemma ForwardedHostChoice(u: Url, h: Headers)
    ensures Get(h, "x-forwarded-host").Some? ==> ForwardedHost(h) == Get(h, "x-forwarded-host")
    ensures Get(h, "x-forwarded-host").None? ==> ForwardedHost(h) == Get(h, "host")
    ensures ForwardedHost(h).None? && ForwardedProto(h).None? ==> PreparedUrl(u, h, None) == u
  {
  }

  /** Without an auth URL only the origin moves: path, query and credentials stay the request's,
      and without a host header so do the host name and the port. */
  lemma ForwardedKeepsRest(u: Url, h: Headers)
    ensures var r := PreparedUrl(u, h, None);
      && r.path == u.path && r.query == u.query
      && r.username == u.username && r.password == u.password
      && (ForwardedHost(h).None? ==> r.hostname == u.hostname && r.port == u.port)
  {
  }

  /** When a host value is used, the edited headers hold no `x-forwarded-host`, exactly one
      `Host` entry equal to that value, and every other header as it was. */
  lemma EditedHeadersHost(h: Headers, host: string)
    requires WellFormed(h)
    requires ForwardedHost(h) == Some(host)
    ensures var e := EditedHeaders(h, None);
      && Get(e, "x-forwarded-host") == None
      && Get(e, "Host") == Some(host)
      && (forall k :: k in e && Lower(k) == "host" ==> k == "host")
      && (forall n :: Lower(n) != "host" && Lower(n) != "x-forwarded-host" ==> Get(e, n) == Get(h, n))
  {
    assert Lower("Host") == "host";
    assert Lower("x-forwarded-host") == "x-forwarded-host";
    var d1 := Delete(h, "x-forwarded-host");
    var d2 := Delete(d1, "Host");
    var e := Set(d2, "Host", host);
    assert e == EditedHeaders(h, None);
    assert Get(d2, "x-forwarded-host") == None;
    assert forall n :: Lower(n) != "host" && Lower(n) != "x-forwarded-host" ==> Get(d2, n) == Get(h, n);
    assert WellFormed(e);
  }

  /** The override scenario of the routing tests: the request's path under the auth URL's origin. */
  lemma OverrideExample()
    ensures PreparedUrl(Url("http:", "", "", "request-base", "", "/request-path", ""), map[],
                        Some(Url("https:", "", "", "auth-url-base", "", "/auth-url-path", "")))
         == Url("https:", "", "", "auth-url-base", "", "/request-path", "")
  {
  }

  /** The routing tests' forwarded scenario: on `http://localhost/api/auth/signin`, forwarded
      `https` and `example.com` give origin `https://example.com`, and the edited headers carry
      `Host: example.com` and no `x-forwarded-host`. */
  lemma ForwardedExample(u: Url, h: Headers)
    requires u == Url("http:", "", "", "localhost", "", "/api/auth/signin", "")
    requires h == map["x-forwarded-proto" := "https", "x-forwarded-host" := "example.com"]
    ensures Origin(PreparedUrl(u, h, None)) == "https://example.com"
    ensures PreparedUrl(u, h, None).path == "/api/auth/signin"
    ensures Get(EditedHeaders(h, None), "Host") == Some("example.com")
    ensures Get(EditedHeaders(h, None), "x-forwarded-host") == None
  {
    ExampleEditedHeaders(h, "example.com");
    ExampleForwardedUrl(u, h, "example.com", "", "localhost");
    ExamplePlainHost();
    var r := PreparedUrl(u, h, None);
    assert r.protocol == "https:" && r.hostname == "example.com" && r.port == "";
    ExampleOriginText();
  }

  /** The same scenario with a port on both sides: forwarded `example.com:9999` over a request
      URL on port 3000 gives origin `https://example.com:9999`, the request's own port replaced. */
  lemma ForwardedPortExample(u: Url, h: Headers)
    requires u == Url("http:", "", "", "localhost", "3000", "/api/auth/signin", "")
    requires h == map["x-forwarded-proto" := "https", "x-forwarded-host" := "example.com:9999"]
    ensures Origin(PreparedUrl(u, h, None)) == "https://example.com:9999"
    ensures Get(EditedHeaders(h, None), "Host") == Some("example.com:9999")
    ensures Get(EditedHeaders(h, None), "x-forwarded-host") == None
  {
    ExampleEditedHeaders(h, "example.com:9999");
    ExampleForwardedUrl(u, h, "example.com:9999", "3000", "localhost");
    ExampleHostSplit();
    var r := PreparedUrl(u, h, None);
    assert r.protocol == "https:" && r.hostname == "example.com" && r.port == "9999";
    OriginWithPort(r);
    ExampleOriginText();
  }

  /** A bracketed IPv6 host keeps its colons: `[::1]:3000` names the host `[::1]` on port 3000. */
  lemma BracketedHostExample()
    ensures HostnameOf("[::1]:3000") == "[::1]"
    ensures PortSuffix("[::1]:3000") == Some("3000")
  {
    var name := "[::1]";
    assert BracketOpen(name[..1]) && BracketOpen(name[..2]) && BracketOpen(name[..3]);
    assert WholeHostname(name);
    HostPortRoundTrip(name, "3000");
    assert name + ":" + "3000" == "[::1]:3000";
  }

  /** The forwarded URL of the example requests, as the forwarded definitions give it. */
  lemma ExampleForwardedUrl(u: Url, h: Headers, host: string, port: string, hostname: string)
    requires u == Url("http:", "", "", hostname, port, "/api/auth/signin", "")
    requires h == map["x-forwarded-proto" := "https", "x-forwarded-host" := host]
    ensures PreparedUrl(u, h, None)
         == u.(protocol := "https:", hostname := HostnameOf(host), port := PortSuffix(host).GetOr(""))
  {
    LowerOfLowerCase("x-forwarded-proto");
    LowerOfLowerCase("x-forwarded-host");
    assert ForwardedProto(h) == Some("https");
    assert ForwardedHost(h) == Some(host);
  }

  /** The header edit of the example requests, whose host comes from `x-forwarded-host`. */
  lemma ExampleEditedHeaders(h: Headers, host: string)
    requires h == map["x-forwarded-proto" := "https", "x-forwarded-host" := host]
    ensures Get(EditedHeaders(h, None), "Host") == Some(host)
    ensures Get(EditedHeaders(h, None), "x-forwarded-host") == None
  {
    LowerOfLowerCase("x-forwarded-proto");
    LowerOfLowerCase("x-forwarded-host");
    assert WellFormed(h);
    assert ForwardedHost(h) == Some(host);
    EditedHeadersHost(h, host);
  }

  lemma ExamplePlainHost()
    ensures HostnameOf("example.com") == "example.com"
    ensures PortSuffix("example.com") == None
  {
    PlainHostname("example.com");
    HostnameOfWhole("example.com");
  }

  lemma ExampleHostSplit()
    ensures HostnameOf("example.com:9999") == "example.com"
    ensures PortSuffix("example.com:9999") == Some("9999")
  {
    PlainHostname("example.com");
    HostPortRoundTrip("example.com", "9999");
    assert "example.com" + ":" + "9999" == "example.com:9999";
  }

  lemma ExampleOriginText()
    ensures "https:" + "//" + "example.com" + "" == "https://example.com"
    ensures "https:" + "//" + "example.com" + ":" + "9999" == "https://example.com:9999"
  {
  }
}

/** The HTTP values the adapter reads and builds: URLs as parsed records,
    header sets with case-insensitive names, requests and responses. */
module Http {
  import opened Wrappers

  /** A URL already parsed into the components the URL API exposes.
      `protocol` keeps its trailing ':' ("https:"), `port` is "" when none is set. */
  datatype Url = Url(
    protocol: string,
    username: string,
    password: string,
    hostname: string,
    port: string,
    path: string,
    query: string)

  /** The serialised origin of a URL: scheme, host and port, no credentials. */
  function Origin(u: Url): string {
    u.protocol + "//" + u.hostname + (if u.port == "" then "" else ":" + u.port)
  }

  lemma OriginWithPort(u: Url)
    requires u.port != ""
    ensures Origin(u) == u.protocol + "//" + u.hostname + ":" + u.port
  {
  }

  /** ASCII lower-casing, as header names are compared. */
  function LowerChar(c: char): char {
    if 'A' <= c <= 'Z' then (c as int - 'A' as int + 'a' as int) as char else c
  }

  function Lower(s: string): (r: string)
    ensures |r| == |s|
    ensures forall i :: 0 <= i < |s| ==> r[i] == LowerChar(s[i])
  {
    seq(|s|, i requires 0 <= i < |s| => LowerChar(s[i]))
  }

  lemma LowerIdempotent(s: string)
    ensures Lower(Lower(s)) == Lower(s)
  {
    assert forall i :: 0 <= i < |s| ==> LowerChar(LowerChar(s[i])) == LowerChar(s[i]);
  }

  /** A name with no upper-case ASCII letter is its own lower-cased form. */
  lemma LowerOfLowerCase(s: string)
    requires forall i :: 0 <= i < |s| ==> !('A' <= s[i] <= 'Z')
    ensures Lower(s) == s
  {
  }

  /** A header set: one value per name, names stored lower-cased. */
  type Headers = map<string, string>

  /** Every stored name is already lower-cased, so no two entries differ only in case. */
  ghost predicate WellFormed(h: Headers) {
    forall k :: k in h ==> Lower(k) == k
  }

  /** `headers.get(name)`: the value stored under `name`, compared case-insensitively. */
  function Get(h: Headers, name: string): (r: Option<string>)
    ensures r.Some? <==> Lower(name) in h
    ensures r.Some? ==> r.value == h[Lower(name)]
    ensures WellFormed(h) ==> forall k {:trigger h[k]} :: k in h && Lower(k) == Lower(name) ==> r == Some(h[k])
  {
    LowerIdempotent(name);
    if Lower(name) in h then Some(h[Lower(name)]) else None
  }

  /** In a set of lower-cased names, a header is found exactly when some stored name equals the
      asked one up to case. */
  lemma GetMatchesStoredName(h: Headers, name: string)
    requires WellFormed(h)
    ensures Get(h, name).Some? <==> exists k :: k in h && Lower(k) == Lower(name)
  {
    LowerIdempotent(name);
  }

  /** Two names that differ only in case read the same header. */
  lemma GetCaseInsensitive(h: Headers, a: string, b: string)
    requires Lower(a) == Lower(b)
    ensures Get(h, a) == Get(h, b)
  {
  }

  /** `headers.set(name, value)`: replaces every entry of that name by one entry. */
  function Set(h: Headers, name: string, value: string): (r: Headers)
    ensures Get(r, name) == Some(value)
    ensures forall other :: Lower(other) != Lower(name) ==> Get(r, other) == Get(h, other)
    ensures WellFormed(h) ==> WellFormed(r)
  {
    LowerIdempotent(name);
    h[Lower(name) := value]
  }

  /** `headers.delete(name)`: removes the entry of that name, if any. */
  function Delete(h: Headers, name: string): (r: Headers)
    ensures Get(r, name) == None
    ensures forall other :: Lower(other) != Lower(name) ==> Get(r, other) == Get(h, other)
    ensures WellFormed(h) ==> WellFormed(r)
  {
    h - {Lower(name)}
  }

  /** What the adapter reads of a request: method (`verb`), URL and headers (the body is not modelled). */
  datatype Request = Request(verb: string, url: Url, headers: Headers)

  datatype Response = Response(status: int, headers: Headers, body: string)

  /** `new Response(body, { status })` with a string body, which the runtime labels as plain text. */
  function TextResponse(status: int, body: string): Response {
    Response(status, map["content-type" := "text/plain;charset=UTF-8"], body)
  }
}

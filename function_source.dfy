/**
 * server/function_source: where a function's source code comes from. A
 * URI is split by a pattern into scheme, host, optional port and optional
 * path (a small subset of the generic syntax of section 3 of RFC 3986).
 * The `local` scheme takes the code from the specification itself; any
 * other scheme fetches the path from the scheme-host-port and maps the
 * HTTP status code of the response (RFC 9110, section 15) to a status.
 */
module FunctionSource {
  import opened Status

  /** FunctionSpecification: the URI and, for the `local` scheme, the code itself. */
  datatype FunctionSpecification = FunctionSpecification(uri: string, sourceCode: Option<string>)

  /** The response to a GET request: its status code and body. */
  datatype HttpResponse = HttpResponse(status: int, body: string)

  /**
   * The HTTP client: GET `path` from the server named by a scheme-host-port
   * string; None when no response arrived at all.
   */
  type Fetcher = (string, string) -> Option<HttpResponse>

  // ---------------------------------------------------------------------
  // The URL pattern

  /**
   * The groups of one match of the pattern
   *   ((?:([a-z]+)://)?([^:/?#]+)(?::(\d+))?)(/.*)?
   * with `None` for a group that did not take part.
   */
  datatype UrlMatch = UrlMatch(scheme: Option<string>, host: string, port: Option<string>, path: Option<string>)

  predicate IsLowerAlpha(c: char) { 'a' <= c <= 'z' }
  predicate IsDigit(c: char) { '0' <= c <= '9' }
  predicate IsHostChar(c: char) { c != ':' && c != '/' && c != '?' && c != '#' }
  /**
   * What `.` does not match when an ECMAScript std::regex runs over the
   * bytes of a std::string: only line feed and carriage return. (U+2028
   * and U+2029 reach the matcher as three UTF-8 bytes, none of them a line
   * terminator.)
   */
  predicate IsLineTerminator(c: char) { c == '\n' || c == '\r' }

  predicate All(s: string, p: char -> bool) {
    forall i :: 0 <= i < |s| ==> p(s[i])
  }

  predicate SchemeOk(scheme: Option<string>) {
    scheme.Some? ==> |scheme.value| > 0 && All(scheme.value, IsLowerAlpha)
  }

  predicate HostOk(host: string) {
    |host| > 0 && All(host, IsHostChar)
  }

  predicate PortOk(port: Option<string>) {
    port.Some? ==> |port.value| > 0 && All(port.value, IsDigit)
  }

  predicate PathOk(path: Option<string>) {
    path.Some? ==> |path.value| > 0 && path.value[0] == '/' && All(path.value, c => !IsLineTerminator(c))
  }

  /** What each group of the pattern accepts. */
  predicate WellFormed(m: UrlMatch) {
    SchemeOk(m.scheme) && HostOk(m.host) && PortOk(m.port) && PathOk(m.path)
  }

  function SchemePrefix(scheme: Option<string>): string {
    if scheme.Some? then scheme.value + "://" else ""
  }

  function PortSuffix(port: Option<string>): string {
    if port.Some? then ":" + port.value else ""
  }

  function PathText(path: Option<string>): string {
    if path.Some? then path.value else ""
  }

  /** Group 1: the scheme, host and port, as they appear in the URI. */
  function SchemeHostPort(m: UrlMatch): string {
    SchemePrefix(m.scheme) + m.host + PortSuffix(m.port)
  }

  /** Group 5: the path, empty when it did not take part. */
  function PathPart(m: UrlMatch): string {
    PathText(m.path)
  }

  /** The text a match covers: the whole URI. */
  function Render(m: UrlMatch): string {
    SchemeHostPort(m) + PathPart(m)
  }

  /** The length of the longest prefix of `s` whose characters all satisfy `p`. */
  function Span(s: string, p: char -> bool): (n: nat)
    ensures n <= |s|
    ensures forall i :: 0 <= i < n ==> p(s[i])
    ensures n < |s| ==> !p(s[n])
  {
    if s == [] || !p(s[0]) then 0 else 1 + Span(s[1..], p)
  }

  lemma SpanOfPrefix(a: string, b: string, p: char -> bool)
    requires All(a, p)
    requires b == [] || !p(b[0])
    ensures Span(a + b, p) == |a|
  {
    var s := a + b;
    assert forall j :: 0 <= j < |a| ==> s[j] == a[j];
    assert |a| < |s| ==> s[|a|] == b[0];
  }

  /** The optional `scheme://` prefix. */
  function SplitScheme(s: string): (r: (Option<string>, string))
    ensures SchemePrefix(r.0) + r.1 == s
    ensures SchemeOk(r.0)
  {
    var k := Span(s, IsLowerAlpha);
    if k > 0 && k + 3 <= |s| && s[k..k + 3] == "://" then
      assert s == s[..k] + "://" + s[k + 3..];
      (Some(s[..k]), s[k + 3..])
    else (None, s)
  }

  /** An optional path: nothing at all, or `/` followed by anything but line terminators. */
  function ParsePath(t: string): (r: Option<Option<string>>)
    ensures r.Some? ==> PathOk(r.value) && PathText(r.value) == t
  {
    if t == [] then Some(None)
    else if t[0] == '/' && All(t, c => !IsLineTerminator(c)) then Some(Some(t))
    else None
  }

  /** The optional `:digits` port, then the path. */
  function ParsePortAndPath(t: string): (r: Option<(Option<string>, Option<string>)>)
    ensures r.Some? ==> PortOk(r.value.0) && PathOk(r.value.1) && PortSuffix(r.value.0) + PathText(r.value.1) == t
  {
    if t != [] && t[0] == ':' then
      var digits := t[1..];
      var d := Span(digits, IsDigit);
      if d == 0 then None
      else match ParsePath(digits[d..])
        case None => None
        case Some(path) =>
          assert t == ":" + digits[..d] + digits[d..];
          Some((Some(digits[..d]), path))
    else match ParsePath(t)
      case None => None
      case Some(path) => Some((None, path))
  }

  /**
   * regex_match of the URL pattern: every group takes as much as it can,
   * which is the only way the pattern can match (a host stops at `:`, `/`,
   * `?` or `#`, and only `:` or `/` may follow it).
   */
  function ParseUrl(s: string): (r: Option<UrlMatch>)
    ensures r.Some? ==> WellFormed(r.value)
    ensures r.Some? ==> Render(r.value) == s
  {
    var split := SplitScheme(s);
    var rest := split.1;
    var h := Span(rest, IsHostChar);
    if h == 0 then None
    else match ParsePortAndPath(rest[h..])
      case None => None
      case Some(portAndPath) =>
        PartsRender(s, split.0, rest, h, portAndPath.0, portAndPath.1);
        Some(UrlMatch(split.0, rest[..h], portAndPath.0, portAndPath.1))
  }

  /** Groups that each accept their part of the URI form a well-formed match of the whole URI. */
  lemma PartsRender(s: string, scheme: Option<string>, rest: string, h: nat,
                    port: Option<string>, path: Option<string>)
    requires SchemeOk(scheme) && SchemePrefix(scheme) + rest == s
    requires 0 < h <= |rest| && forall i :: 0 <= i < h ==> IsHostChar(rest[i])
    requires PortOk(port) && PathOk(path) && PortSuffix(port) + PathText(path) == rest[h..]
    ensures WellFormed(UrlMatch(scheme, rest[..h], port, path))
    ensures Render(UrlMatch(scheme, rest[..h], port, path)) == s
  {
    var m := UrlMatch(scheme, rest[..h], port, path);
    assert HostOk(m.host) by {
      assert forall i :: 0 <= i < h ==> m.host[i] == rest[i];
    }
    assert rest == m.host + AfterHost(m);
    RenderOfParts(m, rest);
  }

  lemma RenderOfParts(m: UrlMatch, rest: string)
    requires rest == m.host + AfterHost(m)
    ensures Render(m) == SchemePrefix(m.scheme) + rest
  {
  }

  lemma ParsePathOf(path: Option<string>)
    requires PathOk(path)
    ensures ParsePath(PathText(path)) == Some(path)
  {
  }

  /** A path may hold the Unicode line and paragraph separators. */
  lemma SeparatorsInPathAccepted(host: string, c: char)
    requires HostOk(host) && (c == '\U{2028}' || c == '\U{2029}')
    ensures ParseUrl("http://" + host + "/" + [c]) == Some(UrlMatch(Some("http"), host, None, Some("/" + [c])))
  {
    var m := UrlMatch(Some("http"), host, None, Some("/" + [c]));
    assert WellFormed(m);
    assert Render(m) == "http://" + host + "/" + [c];
    ParseUrlComplete(m);
  }

  /** What follows the host: the optional port, then the optional path. */
  function AfterHost(m: UrlMatch): string {
    PortSuffix(m.port) + PathText(m.path)
  }

  lemma ParsePortAndPathOf(m: UrlMatch)
    requires PortOk(m.port) && PathOk(m.path)
    ensures ParsePortAndPath(AfterHost(m)) == Some((m.port, m.path))
  {
    ParsePathOf(m.path);
    var t := AfterHost(m);
    var pathText := PathText(m.path);
    if m.port.Some? {
      var p := m.port.value;
      assert t == ":" + (p + pathText);
      var digits := t[1..];
      assert digits == p + pathText;
      SpanOfPrefix(p, pathText, IsDigit);
      assert digits[..|p|] == p;
      assert digits[|p|..] == pathText;
    } else {
      assert t == pathText;
    }
  }

  /** Without a scheme the URI starts with the host, which can never be read as a scheme. */
  lemma SplitSchemeOf(m: UrlMatch)
    requires WellFormed(m)
    ensures SplitScheme(Render(m)) == (m.scheme, m.host + AfterHost(m))
  {
    var rest := m.host + AfterHost(m);
    RenderOfParts(m, rest);
    var s := Render(m);
    if m.scheme.Some? {
      assert s == m.scheme.value + ("://" + rest);
      SpanOfPrefix(m.scheme.value, "://" + rest, IsLowerAlpha);
      var k := |m.scheme.value|;
      assert s[k..k + 3] == "://" && s[k + 3..] == rest && s[..k] == m.scheme.value;
    } else {
      assert s == rest;
      NoSchemeInHost(m, s);
    }
  }

  /** How the text after a host can start: nothing, a path, or a port's colon and first digit. */
  predicate StartsAfterHost(after: string) {
    after == [] || after[0] == '/' || (|after| >= 2 && after[0] == ':' && IsDigit(after[1]))
  }

  lemma AfterHostShape(m: UrlMatch)
    requires PortOk(m.port) && PathOk(m.path)
    ensures StartsAfterHost(AfterHost(m))
  {
    if m.port.Some? {
      assert AfterHost(m) == ":" + (m.port.value + PathText(m.path));
    }
  }

  /** A host followed by what may follow it has no `[a-z]+://` prefix. */
  lemma NoSchemeBeforeHost(host: string, after: string)
    requires HostOk(host) && StartsAfterHost(after)
    ensures var s := host + after; var k := Span(s, IsLowerAlpha); !(k + 3 <= |s| && s[k..k + 3] == "://")
  {
    var s := host + after;
    var k := Span(s, IsLowerAlpha);
    var n := |host|;
    // The lower-case run cannot pass the end of the host.
    assert k <= n by {
      if n < |s| {
        assert s[n] == after[0];
      }
    }
    if k + 3 <= |s| {
      var sep := s[k..k + 3];
      assert sep[0] == s[k] && sep[1] == s[k + 1];
      if k < n {
        assert s[k] == host[k];
      } else {
        assert s[k] == after[0];
        assert after[0] == ':' ==> s[k + 1] == after[1];
      }
    }
  }

  /** A URI that starts with its host has no `[a-z]+://` prefix. */
  lemma NoSchemeInHost(m: UrlMatch, s: string)
    requires WellFormed(m) && s == m.host + AfterHost(m)
    ensures var k := Span(s, IsLowerAlpha); !(k + 3 <= |s| && s[k..k + 3] == "://")
  {
    AfterHostShape(m);
    NoSchemeBeforeHost(m.host, AfterHost(m));
  }

  lemma HostSpan(m: UrlMatch)
    requires WellFormed(m)
    ensures Span(m.host + AfterHost(m), IsHostChar) == |m.host|
  {
    var after := AfterHost(m);
    assert after == [] || after[0] == ':' || after[0] == '/';
    SpanOfPrefix(m.host, after, IsHostChar);
  }

  /**
   * The pattern matches a URI in exactly one way: a well-formed match of
   * the URI is the one ParseUrl finds.
   */
  lemma ParseUrlComplete(m: UrlMatch)
    requires WellFormed(m)
    ensures ParseUrl(Render(m)) == Some(m)
  {
    var rest := m.host + AfterHost(m);
    SplitSchemeOf(m);
    HostSpan(m);
    assert rest[..|m.host|] == m.host && rest[|m.host|..] == AfterHost(m);
    ParsePortAndPathOf(m);
  }

  /** Matching the pattern is exactly the existence of a well-formed split. */
  lemma ParseUrlMatchesPattern(s: string)
    ensures ParseUrl(s).Some? <==> exists m :: WellFormed(m) && Render(m) == s
  {
    if exists m :: WellFormed(m) && Render(m) == s {
      var m :| WellFormed(m) && Render(m) == s;
      ParseUrlComplete(m);
    }
  }

  // ---------------------------------------------------------------------
  // Source resolution

  const UNAUTHORIZED_REQUEST: string := "Unauthenticated or unauthorized request. HTTP status code:"

  /**
   * TranslateResponse: 200 is the body; 400, 401/403 and 404 become the
   * matching client errors; any other code is INTERNAL.
   */
  function TranslateResponse(res: HttpResponse): (r: Result<string>)
    ensures r.Ok? <==> res.status == 200
    ensures r.Ok? ==> r.value == res.body
    ensures res.status == 400 ==> r == Err(InvalidArgumentError("The server returned 400 Bad Request status code."))
    ensures res.status in {401, 403} ==> r.Err? && r.status.code == PERMISSION_DENIED
    // The message ends with the decimal HTTP status code.
    ensures res.status == 401 ==> r == Err(PermissionDeniedError(UNAUTHORIZED_REQUEST + "401"))
    ensures res.status == 403 ==> r == Err(PermissionDeniedError(UNAUTHORIZED_REQUEST + "403"))
    ensures res.status == 404 ==> r == Err(NotFoundError("Resource at the URL was not found."))
    ensures res.status !in {200, 400, 401, 403, 404} ==> r == Err(InternalError("Unable to fetch a URL"))
  {
    match res.status
    case 200 => Ok(res.body)
    case 400 => Err(InvalidArgumentError("The server returned 400 Bad Request status code."))
    case 401 => Err(PermissionDeniedError(UNAUTHORIZED_REQUEST + "401"))
    case 403 => Err(PermissionDeniedError(UNAUTHORIZED_REQUEST + "403"))
    case 404 => Err(NotFoundError("Resource at the URL was not found."))
    case _ => Err(InternalError("Unable to fetch a URL"))
  }

  function InvalidRemoteUriError(spec: FunctionSpecification): Status {
    InvalidArgumentError("Not a valid remote URL: " + spec.uri)
  }

  /**
   * GetFunctionCode: a URI the pattern rejects, or one without a scheme,
   * is INVALID_ARGUMENT; `local` returns the code given in the
   * specification; any other scheme fetches the path from the
   * scheme-host-port.
   */
  function GetFunctionCode(spec: FunctionSpecification, fetch: Fetcher): (r: Result<string>)
    ensures ParseUrl(spec.uri).None? ==> r == Err(InvalidArgumentError("Not a valid URL: " + spec.uri))
    ensures ParseUrl(spec.uri).Some? && ParseUrl(spec.uri).value.scheme.None? ==> r == Err(InvalidRemoteUriError(spec))
  {
    match ParseUrl(spec.uri)
    case None => Err(InvalidArgumentError("Not a valid URL: " + spec.uri))
    case Some(m) =>
      if m.scheme.None? then Err(InvalidRemoteUriError(spec))
      else if m.scheme.value == "local" then
        if spec.sourceCode.None? then
          Err(InvalidArgumentError("Function source code not provided for local function."))
        else Ok(spec.sourceCode.value)
      else
        match fetch(SchemeHostPort(m), PathPart(m))
        case None => Err(InternalError("Unable to fetch a URL"))
        case Some(res) => TranslateResponse(res)
  }

  /** A URI no well-formed split renders to is not a valid URL. */
  lemma InvalidUrlRejected(spec: FunctionSpecification, fetch: Fetcher)
    requires forall m :: WellFormed(m) ==> Render(m) != spec.uri
    ensures GetFunctionCode(spec, fetch) == Err(InvalidArgumentError("Not a valid URL: " + spec.uri))
  {
    ParseUrlMatchesPattern(spec.uri);
  }

  /** The empty URI is not a valid URL. */
  lemma EmptyUriRejected(fetch: Fetcher)
    ensures GetFunctionCode(FunctionSpecification("", None), fetch) == Err(InvalidArgumentError("Not a valid URL: "))
  {
  }

  /** A URI that is nothing but a host, such as `bad-url`, matches the pattern but is not remote. */
  lemma HostOnlyUriIsNotRemote(spec: FunctionSpecification, fetch: Fetcher)
    requires HostOk(spec.uri)
    ensures GetFunctionCode(spec, fetch) == Err(InvalidRemoteUriError(spec))
  {
    var m := UrlMatch(None, spec.uri, None, None);
    assert Render(m) == spec.uri;
    ParseUrlComplete(m);
  }

  /**
   * The `local` scheme never fetches: the code in the specification is
   * the result, and without one the result is INVALID_ARGUMENT.
   */
  lemma LocalSchemeNeverFetches(spec: FunctionSpecification, m: UrlMatch, fetch: Fetcher)
    requires WellFormed(m) && Render(m) == spec.uri && m.scheme == Some("local")
    ensures spec.sourceCode.Some? ==> GetFunctionCode(spec, fetch) == Ok(spec.sourceCode.value)
    ensures spec.sourceCode.None? ==>
              GetFunctionCode(spec, fetch) ==
                Err(InvalidArgumentError("Function source code not provided for local function."))
  {
    ParseUrlComplete(m);
  }

  /**
   * Any other scheme fetches the path from the scheme-host-port, two
   * parts that together are the whole URI, and maps the response.
   */
  lemma RemoteSchemeFetchesUri(spec: FunctionSpecification, m: UrlMatch, fetch: Fetcher)
    requires WellFormed(m) && Render(m) == spec.uri
    requires m.scheme.Some? && m.scheme.value != "local"
    ensures SchemeHostPort(m) + PathPart(m) == spec.uri
    ensures fetch(SchemeHostPort(m), PathPart(m)).None? ==>
              GetFunctionCode(spec, fetch) == Err(InternalError("Unable to fetch a URL"))
    ensures fetch(SchemeHostPort(m), PathPart(m)).Some? ==>
              GetFunctionCode(spec, fetch) == TranslateResponse(fetch(SchemeHostPort(m), PathPart(m)).value)
  {
    ParseUrlComplete(m);
  }
}

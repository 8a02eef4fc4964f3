/**
 * URLs of the form `scheme://host:port` as the container's getters build
 * them, and a reader that takes such a URL apart again.
 */
module Urls {
  import opened Wrappers
  import Decimal

  datatype UrlParts = UrlParts(scheme: string, host: string, port: int)

  /** `scheme + "://" + host + ":" + port`, the port in decimal. */
  function ComposeUrl(scheme: string, host: string, port: int): string {
    scheme + "://" + host + ":" + Decimal.IntToString(port)
  }

  function FirstColon(s: string): (r: Option<nat>)
    ensures r.Some? ==> r.value < |s| && s[r.value] == ':' && ':' !in s[..r.value]
    ensures r.None? ==> ':' !in s
    decreases |s|
  {
    if s == [] then None
    else if s[0] == ':' then Some(0)
    else match FirstColon(s[1..])
      case None => None
      case Some(i) => Some(i + 1)
  }

  function LastColon(s: string): (r: Option<nat>)
    ensures r.Some? ==> r.value < |s| && s[r.value] == ':' && ':' !in s[r.value + 1..]
    ensures r.None? ==> ':' !in s
    decreases |s|
  {
    if s == [] then None
    else if s[|s| - 1] == ':' then Some(|s| - 1)
    else LastColon(s[..|s| - 1])
  }

  /** The host is everything before the last `:`, the port the decimal after it. */
  function ParseAuthority(hostPort: string): Option<(string, int)> {
    match LastColon(hostPort)
    case None => None
    case Some(j) =>
      match Decimal.ParseInt(hostPort[j + 1..])
      case None => None
      case Some(p) => Some((hostPort[..j], p))
  }

  /** The scheme is everything before the first `:`, which must be followed by `//`. */
  function ParseUrl(u: string): Option<UrlParts> {
    match FirstColon(u)
    case None => None
    case Some(i) => ParseAfterScheme(u[..i], u[i + 1..])
  }

  function ParseAfterScheme(scheme: string, rest: string): Option<UrlParts> {
    if |rest| < 2 || rest[..2] != "//" then None
    else
      match ParseAuthority(rest[2..])
      case None => None
      case Some(hp) => Some(UrlParts(scheme, hp.0, hp.1))
  }

  lemma FirstColonAt(a: string, b: string)
    requires ':' !in a && |b| > 0 && b[0] == ':'
    ensures FirstColon(a + b) == Some(|a|)
  {
    var s := a + b;
    assert s[|a|] == ':';
  }

  lemma LastColonAt(a: string, b: string)
    requires ':' !in b
    ensures LastColon(a + ":" + b) == Some(|a|)
  {
    var s := a + ":" + b;
    assert s[|a|] == ':';
  }

  lemma ParseComposedAuthority(host: string, port: int)
    ensures ParseAuthority(host + ":" + Decimal.IntToString(port)) == Some((host, port))
  {
    var digits := Decimal.IntToString(port);
    var hostPort := host + ":" + digits;
    LastColonAt(host, digits);
    assert hostPort[..|host|] == host;
    assert hostPort[|host| + 1..] == digits;
    Decimal.ParseIntToString(port);
  }

  lemma ParseUrlAtScheme(scheme: string, rest: string)
    requires ':' !in scheme
    ensures ParseUrl(scheme + ":" + rest) == ParseAfterScheme(scheme, rest)
  {
    var u := scheme + ":" + rest;
    assert u == scheme + (":" + rest);
    FirstColonAt(scheme, ":" + rest);
    assert u[..|scheme|] == scheme;
    assert u[|scheme| + 1..] == rest;
  }

  lemma ParseAfterSchemeSlashes(scheme: string, hostPort: string)
    ensures ParseAfterScheme(scheme, "//" + hostPort)
         == match ParseAuthority(hostPort)
            case None => None
            case Some(hp) => Some(UrlParts(scheme, hp.0, hp.1))
  {
    var rest := "//" + hostPort;
    assert rest[..2] == "//";
    assert rest[2..] == hostPort;
  }

  /** Every URL the getters compose is read back into its three parts. */
  lemma ParseComposeUrl(scheme: string, host: string, port: int)
    requires ':' !in scheme
    ensures ParseUrl(ComposeUrl(scheme, host, port)) == Some(UrlParts(scheme, host, port))
  {
    var hostPort := host + ":" + Decimal.IntToString(port);
    assert ComposeUrl(scheme, host, port) == scheme + ":" + ("//" + hostPort);
    ParseUrlAtScheme(scheme, "//" + hostPort);
    ParseAfterSchemeSlashes(scheme, hostPort);
    ParseComposedAuthority(host, port);
  }

  lemma ComposedAuthorityOfParse(hostPort: string, host: string, port: int)
    requires ParseAuthority(hostPort) == Some((host, port))
    ensures hostPort == host + ":" + Decimal.IntToString(port)
  {
    var j := LastColon(hostPort).value;
    var digits := hostPort[j + 1..];
    Decimal.IntToStringParseInt(digits, port);
    assert hostPort == hostPort[..j] + ":" + digits;
  }

  lemma ComposedAfterSchemeOfParse(scheme: string, rest: string, parts: UrlParts)
    requires ParseAfterScheme(scheme, rest) == Some(parts)
    ensures parts.scheme == scheme
    ensures rest == "//" + (parts.host + ":" + Decimal.IntToString(parts.port))
  {
    ComposedAuthorityOfParse(rest[2..], parts.host, parts.port);
    assert rest == rest[..2] + rest[2..];
  }

  lemma ParsedSchemeSplit(u: string, parts: UrlParts) returns (i: nat)
    requires ParseUrl(u) == Some(parts)
    ensures i < |u| && u[i] == ':' && ':' !in u[..i]
    ensures ParseAfterScheme(u[..i], u[i + 1..]) == Some(parts)
  {
    i := FirstColon(u).value;
  }

  lemma SplitAtColon(u: string, i: nat)
    requires i < |u| && u[i] == ':'
    ensures u == u[..i] + ":" + u[i + 1..]
  {
  }

  /** A URL is read only if it is exactly the composition of the parts read. */
  lemma ComposeParsedUrl(u: string, parts: UrlParts)
    requires ParseUrl(u) == Some(parts)
    ensures ':' !in parts.scheme
    ensures u == ComposeUrl(parts.scheme, parts.host, parts.port)
  {
    var i := ParsedSchemeSplit(u, parts);
    var scheme, rest := u[..i], u[i + 1..];
    ComposedAfterSchemeOfParse(scheme, rest, parts);
    SplitAtColon(u, i);
    var hostPort := parts.host + ":" + Decimal.IntToString(parts.port);
    assert u == scheme + ":" + ("//" + hostPort);
    assert scheme + ":" + ("//" + hostPort) == scheme + "://" + parts.host + ":" + Decimal.IntToString(parts.port);
  }
}

/**
 * The part of `java.net.URI.create` the remote configuration relies on: splitting a URL into
 * scheme, host, port and path.
 *
 * Character validation is reduced to the characters no URI may hold unescaped, and a host must be
 * made of letters, digits, `-` and `.`; otherwise the authority is "registry based" and the host
 * is absent, as Java reports it.
 */
module Uris {
  import opened Wrappers
  import opened Strings

  /**
   * A parsed URI: its text (`toString()`), its scheme, host and port (-1 when absent), and its
   * path, which is absent for an opaque URI such as `mailto:someone`.
   */
  datatype Uri = Uri(text: string, scheme: Option<string>, host: Option<string>, port: int, path: Option<string>)

  /**
   * A character that may not appear unescaped anywhere in a URI: controls, spaces (Java's
   * `Character.isSpaceChar`) and the ASCII punctuation outside the URI grammar.
   */
  predicate IsUriIllegal(c: char)
  {
    || c <= ' ' || ('\U{7F}' <= c <= '\U{A0}') || c == '\U{1680}' || ('\U{2000}' <= c <= '\U{200A}')
    || c == '\U{2028}' || c == '\U{2029}' || c == '\U{202F}' || c == '\U{205F}' || c == '\U{3000}'
    || c == '"' || c == '<' || c == '>' || c == '\\' || c == '^' || c == '`' || c == '{' || c == '|' || c == '}'
  }

  predicate HasIllegal(s: string)
  {
    exists i :: 0 <= i < |s| && IsUriIllegal(s[i])
  }

  lemma HasIllegalConcat(a: string, b: string)
    ensures HasIllegal(a + b) <==> HasIllegal(a) || HasIllegal(b)
  {
    if HasIllegal(a + b) {
      var i :| 0 <= i < |a + b| && IsUriIllegal((a + b)[i]);
      if i >= |a| {
        assert b[i - |a|] == (a + b)[i];
      }
    }
    if HasIllegal(a) {
      var i :| 0 <= i < |a| && IsUriIllegal(a[i]);
      assert (a + b)[i] == a[i];
    }
    if HasIllegal(b) {
      var i :| 0 <= i < |b| && IsUriIllegal(b[i]);
      assert (a + b)[|a| + i] == b[i];
    }
  }

  predicate IsAlpha(c: char)
  {
    'a' <= c <= 'z' || 'A' <= c <= 'Z'
  }

  /** A scheme: a letter, then letters, digits, `+`, `-` or `.`. */
  predicate IsSchemeName(s: string)
  {
    && |s| > 0 && IsAlpha(s[0])
    && forall i :: 0 <= i < |s| ==> IsAlpha(s[i]) || IsDigit(s[i]) || s[i] == '+' || s[i] == '-' || s[i] == '.'
  }

  /** A server host name: letters, digits, `-` and `.`. */
  predicate IsHostName(s: string)
  {
    |s| > 0 && forall i :: 0 <= i < |s| ==> IsAlpha(s[i]) || IsDigit(s[i]) || s[i] == '-' || s[i] == '.'
  }

  /** The text before the query (`?`) or the fragment (`#`). */
  function BeforeQuery(s: string): (r: string)
    ensures |r| <= |s| && r == s[..|r|]
    ensures '?' !in r && '#' !in r
    ensures '?' !in s && '#' !in s ==> r == s
  {
    if |s| == 0 || s[0] == '?' || s[0] == '#' then []
    else
      var rest := BeforeQuery(s[1..]);
      assert [s[0]] + rest == s[..|rest| + 1];
      [s[0]] + rest
  }

  /**
   * A server authority `[userinfo@]host[:port]`: the host and the port (-1 when not given).
   * A host that is not a host name, or a port that is not digits, gives no host and port -1.
   */
  function ParseServer(auth: string): (r: (Option<string>, int))
    ensures r.0.Some? ==> IsHostName(r.0.value)
    ensures r.1 >= -1
  {
    var at := IndexOf(auth, '@');
    ParseHostPort(if at >= 0 then auth[at + 1..] else auth)
  }

  /** `host[:port]`, the authority after any user information. */
  function ParseHostPort(hostPort: string): (r: (Option<string>, int))
    ensures r.0.Some? ==> IsHostName(r.0.value)
    ensures r.1 >= -1
  {
    var colon := IndexOf(hostPort, ':');
    var host := if colon >= 0 then hostPort[..colon] else hostPort;
    var port := if colon >= 0 then hostPort[colon + 1..] else "";
    if !IsHostName(host) || !AllDigits(port) then (None, -1)
    else (Some(host), if port == "" then -1 else DigitsValue(port))
  }

  /** A hierarchical URI body: `//authority/path`, or just a path. */
  function Hierarchical(text: string, scheme: Option<string>, body: string): (u: Uri)
    ensures u.text == text && u.scheme == scheme && u.path.Some?
  {
    if StartsWith(body, "//") then
      var after := body[2..];
      var k := IndexOf(after, '/');
      var auth := if k < 0 then after else after[..k];
      var server := ParseServer(auth);
      Uri(text, scheme, server.0, server.1, Some(if k < 0 then "" else after[k..]))
    else Uri(text, scheme, None, -1, Some(body))
  }

  /**
   * `URI.create(text)`: a scheme is the text before the first `:` when that comes before any
   * `/`; after it, a `/` starts a hierarchical part and anything else is opaque. Text without a
   * scheme is a relative reference. Malformed text throws `IllegalArgumentException`.
   */
  function ParseUri(text: string): (r: Try<Uri>)
    ensures r.Ok? ==> r.value.text == text
    ensures HasIllegal(text) ==> r.Thrown?
    ensures r.Ok? && r.value.scheme.Some? ==> IsSchemeName(r.value.scheme.value)
  {
    if HasIllegal(text) then Thrown(IllegalArgument("Illegal character in URI: " + text))
    else
      var c := IndexOf(text, ':');
      var slash := IndexOf(text, '/');
      if c == 0 then Thrown(IllegalArgument("Expected scheme name: " + text))
      else if c > 0 && (slash < 0 || c < slash) then
        var scheme := text[..c];
        var rest := text[c + 1..];
        if !IsSchemeName(scheme) then Thrown(IllegalArgument("Illegal character in scheme name: " + text))
        else if rest == "" then Thrown(IllegalArgument("Expected scheme-specific part: " + text))
        else if rest[0] != '/' then Ok(Uri(text, Some(scheme), None, -1, None))
        else Ok(Hierarchical(text, Some(scheme), BeforeQuery(rest)))
      else Ok(Hierarchical(text, None, BeforeQuery(text)))
  }

  /** The authority text for an optional user, a host and an optional port. */
  function Authority(user: Option<string>, host: string, port: Option<nat>): string
  {
    (if user.Some? then user.value + "@" else "") + host + (if port.Some? then ":" + NatToString(port.value) else "")
  }

  /** A user and a host name, with or without a port, come back out of the authority. */
  lemma ParseServerAuthority(user: Option<string>, host: string, port: Option<nat>)
    requires user.Some? ==> '@' !in user.value
    requires IsHostName(host)
    ensures ParseServer(Authority(user, host, port)) == (Some(host), if port.Some? then port.value else -1)
  {
    var portText := if port.Some? then ":" + NatToString(port.value) else "";
    var hostPort := host + portText;
    var userText := if user.Some? then user.value + "@" else "";
    assert Authority(user, host, port) == userText + hostPort;
    NoAtInHostPort(host, portText);
    AtSplit(user, hostPort);
    ParseServerAfterAt(userText + hostPort, hostPort);
    ParseHostAndPort(host, port);
  }

  /** A host name and a port text (`:` and digits) hold no `@`. */
  lemma NoAtInHostPort(host: string, portText: string)
    requires IsHostName(host)
    requires portText == "" || (portText[0] == ':' && AllDigits(portText[1..]))
    ensures '@' !in host + portText
  {
    assert '@' !in host;
    if portText != "" {
      assert portText == [':'] + portText[1..];
      assert '@' !in portText[1..];
    }
  }

  /** What follows the first `@` (or all of it, without one) is what `ParseServer` reads. */
  lemma ParseServerAfterAt(auth: string, hostPort: string)
    requires (if IndexOf(auth, '@') >= 0 then auth[IndexOf(auth, '@') + 1..] else auth) == hostPort
    ensures ParseServer(auth) == ParseHostPort(hostPort)
  {
  }

  /** Host names and ports hold no `@`. */
  lemma AtSplit(user: Option<string>, hostPort: string)
    requires user.Some? ==> '@' !in user.value
    requires '@' !in hostPort
    ensures var auth := (if user.Some? then user.value + "@" else "") + hostPort;
            (if IndexOf(auth, '@') >= 0 then auth[IndexOf(auth, '@') + 1..] else auth) == hostPort
  {
    if user.Some? {
      var auth := user.value + "@" + hostPort;
      assert auth == user.value + ("@" + hostPort);
      IndexOfConcat(user.value, "@" + hostPort, '@');
      assert auth[|user.value| + 1..] == hostPort;
    } else {
      assert "" + hostPort == hostPort;
    }
  }

  lemma ParseHostAndPort(host: string, port: Option<nat>)
    requires IsHostName(host)
    ensures ParseHostPort(host + if port.Some? then ":" + NatToString(port.value) else "")
         == (Some(host), if port.Some? then port.value else -1)
  {
    assert ':' !in host;
    if port.Some? {
      var portText := ":" + NatToString(port.value);
      var hostPort := host + portText;
      IndexOfConcat(host, portText, ':');
      assert hostPort[..|host|] == host;
      assert hostPort[|host| + 1..] == NatToString(port.value);
    } else {
      assert host + "" == host;
    }
  }

  /** A scheme, a `:` and a body starting with `/`: the scheme is split off and the body kept whole. */
  lemma SchemeSplit(scheme: string, rest: string)
    requires IsSchemeName(scheme) && |rest| > 0 && rest[0] == '/'
    ensures var text := scheme + ":" + rest;
            && IndexOf(text, ':') == |scheme| && IndexOf(text, '/') == |scheme| + 1
            && text[..|scheme|] == scheme && text[|scheme| + 1..] == rest
  {
    var text := scheme + ":" + rest;
    assert text == scheme + (":" + rest);
    assert ':' !in scheme && '/' !in scheme;
    IndexOfConcat(scheme, ":" + rest, ':');
    IndexOfConcat(scheme, ":" + rest, '/');
    IndexOfConcat(":", rest, '/');
    assert text[..|scheme|] == scheme;
    assert text[|scheme| + 1..] == rest;
  }

  /** `//authority/path` splits into the authority and the path. */
  lemma HierarchicalServer(text: string, scheme: Option<string>, auth: string, path: string)
    requires '/' !in auth && (path == "" || path[0] == '/')
    ensures Hierarchical(text, scheme, "//" + auth + path)
         == Uri(text, scheme, ParseServer(auth).0, ParseServer(auth).1, Some(path))
  {
    var body := "//" + auth + path;
    assert body[..2] == "//";
    var after := auth + path;
    assert body[2..] == after;
    IndexOfConcat(auth, path, '/');
    if path != "" {
      assert after[..|auth|] == auth;
      assert after[|auth|..] == path;
    } else {
      assert after == auth;
    }
  }

  /**
   * A URL `scheme://authority/path` parses into its scheme, the authority's host and port, and
   * the path, whenever the authority has no `/` and no part holds a character a URI refuses.
   */
  lemma ParseServerUrl(scheme: string, auth: string, path: string)
    requires IsSchemeName(scheme)
    requires '/' !in auth && '?' !in auth && '#' !in auth && !HasIllegal(auth)
    requires (path == "" || path[0] == '/') && '?' !in path && '#' !in path && !HasIllegal(path)
    ensures var text := scheme + "://" + auth + path;
            ParseUri(text) == Ok(Uri(text, Some(scheme), ParseServer(auth).0, ParseServer(auth).1, Some(path)))
  {
    var rest := "//" + auth + path;
    var text := scheme + ":" + rest;
    assert scheme + "://" + auth + path == text;
    ServerUrlIsLegal(scheme, auth, path);
    SchemeSplit(scheme, rest);
    assert BeforeQuery(rest) == rest;
    assert ParseUri(text) == Ok(Hierarchical(text, Some(scheme), rest));
    HierarchicalServer(text, Some(scheme), auth, path);
  }

  /** The text of such a URL holds no character a URI refuses, and its body no query or fragment mark. */
  lemma ServerUrlIsLegal(scheme: string, auth: string, path: string)
    requires IsSchemeName(scheme)
    requires '?' !in auth && '#' !in auth && !HasIllegal(auth)
    requires '?' !in path && '#' !in path && !HasIllegal(path)
    ensures var rest := "//" + auth + path;
            !HasIllegal(scheme + ":" + rest) && '?' !in rest && '#' !in rest
  {
    var rest := "//" + auth + path;
    HasIllegalConcat(scheme + ":", rest);
    HasIllegalConcat("//" + auth, path);
    HasIllegalConcat("//", auth);
    assert !HasIllegal("//");
    assert !HasIllegal(rest);
    assert !HasIllegal(scheme + ":") by {
      forall i | 0 <= i < |scheme + ":"| ensures !IsUriIllegal((scheme + ":")[i]) {
        if i < |scheme| {
          assert (scheme + ":")[i] == scheme[i];
        }
      }
    }
  }
}

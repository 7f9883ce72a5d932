/**
 * `GitHubRepo` and `GitHubRepoBuilder`: deriving the GitHub API address from a remote's URL,
 * splitting `owner/project`, and the builder that gathers the coordinates, the server address
 * and the credentials before connecting.
 *
 * The connection itself (jcabi's `RtGithub`, HTTP, retries) is not modelled: `Build` answers the
 * `Connection` it would open.
 */
module GitHub {
  import opened Wrappers
  import opened Strings
  import opened Config
  import opened Uris
  import RemoteConfig
  import opened Repo

  /** `GitHubRepo.DEFAULT_GITHUB_URI`. */
  const DefaultGithubUri: string := "https://api.github.com"

  /** How Java prints a possibly null string in a concatenation. */
  function NullText(s: Option<string>): string
  {
    s.GetOr("null")
  }

  /** `String.equalsIgnoreCase` called on a possibly null receiver. */
  function SchemeIs(scheme: Option<string>, name: string): Try<bool>
  {
    match scheme
    case None => Thrown(NullDereference)
    case Some(s) => Ok(EqualsIgnoreCase(s, name))
  }

  /**
   * `serverApiFromRemoteUrl` as written: `http` on port 80 and `https` on port 443 give the bare
   * host; every other URL gives `<scheme>://<host>:<port>`, even when the URL has no port and
   * `getPort()` is -1. The scheme is only dereferenced when the port is 80 or 443.
   */
  function ServerApiFromRemoteUrlAsWritten(u: Uri): (r: Try<string>)
    ensures u.port != 80 && u.port != 443 ==>
              r == Ok(NullText(u.scheme) + "://" + NullText(u.host) + ":" + IntToString(u.port))
  {
    var isHttp := if u.port == 80 then SchemeIs(u.scheme, "http") else Ok(false);
    if isHttp.Thrown? then Thrown(isHttp.ex)
    else if isHttp.value then Ok("http://" + NullText(u.host))
    else
      var isHttps := if u.port == 443 then SchemeIs(u.scheme, "https") else Ok(false);
      if isHttps.Thrown? then Thrown(isHttps.ex)
      else if isHttps.value then Ok("https://" + NullText(u.host))
      else Ok(NullText(u.scheme) + "://" + NullText(u.host) + ":" + IntToString(u.port))
  }

  /**
   * A remote URL with no port (`getPort()` is -1) on a host that is not GitHub's gets the API
   * address `<scheme>://<host>:-1`, in which `URI.create` then finds no server host at all: the
   * API requests would have nowhere to go. `https://ghe.example.com/team/project.git` is such a
   * remote.
   */
  lemma AsWrittenLosesHost(u: Uri, scheme: string, host: string)
    requires u.scheme == Some(scheme) && u.host == Some(host) && u.port == -1
    requires IsSchemeName(scheme) && IsHostName(host)
    ensures ServerApiFromRemoteUrlAsWritten(u) == Ok(scheme + "://" + host + ":-1")
    ensures var text := scheme + "://" + host + ":-1";
            ParseUri(text).Ok? && ParseUri(text).value.host.None?
  {
    MinusOneText();
    var prefix := scheme + "://" + host;
    assert NullText(u.scheme) + "://" + NullText(u.host) == prefix;
    assert prefix + ":" + "-1" == prefix + ":-1";
    PortlessAddressHasNoHost(scheme, host);
  }

  /** `<scheme>://<host>:-1` parses, but not as a server: it has no host. */
  lemma PortlessAddressHasNoHost(scheme: string, host: string)
    requires IsSchemeName(scheme) && IsHostName(host)
    ensures var text := scheme + "://" + host + ":-1";
            ParseUri(text).Ok? && ParseUri(text).value.host.None?
  {
    var auth := host + ":-1";
    var text := scheme + "://" + auth + "";
    assert text == scheme + "://" + host + ":-1";
    NegativePortIsPlain(host);
    ParseServerUrl(scheme, auth, "");
    NegativePortHasNoHost(host);
  }

  lemma MinusOneText()
    ensures IntToString(-1) == "-1"
  {
    assert NatToString(1) == "1";
  }

  lemma NegativePortIsPlain(host: string)
    requires IsHostName(host)
    ensures var auth := host + ":-1";
            '/' !in auth && '?' !in auth && '#' !in auth && !HasIllegal(auth)
  {
    HostNameIsLegal(host);
    HasIllegalConcat(host, ":-1");
    assert !IsUriIllegal(':') && !IsUriIllegal('-') && !IsUriIllegal('1');
    assert !HasIllegal(":-1");
  }

  /** A port of `-1` is not digits, so the authority is not a server and has no host. */
  lemma NegativePortHasNoHost(host: string)
    requires IsHostName(host)
    ensures ParseServer(host + ":-1").0.None?
  {
    var auth := host + ":-1";
    HostNameIsLegal(host);
    IndexOfConcat(host, ":-1", '@');
    assert IndexOf(":-1", '@') < 0;
    IndexOfConcat(host, ":-1", ':');
    assert IndexOf(":-1", ':') == 0;
    assert auth[..|host|] == host && auth[|host| + 1..] == "-1";
    assert !IsDigit("-1"[0]);
  }

  /**
   * `serverApiFromRemoteUrl` as evidently intended: like the code, except that a URL without a
   * port (port -1) gives `<scheme>://<host>` instead of a `:-1` suffix.
   */
  function ServerApiFromRemoteUrl(u: Uri): (r: Try<string>)
    ensures u.port != 80 && u.port != 443 && u.port != -1 ==>
              r == ServerApiFromRemoteUrlAsWritten(u)
    ensures u.port == -1 ==> r == Ok(NullText(u.scheme) + "://" + NullText(u.host))
    ensures u.port == 80 || u.port == 443 ==> r == ServerApiFromRemoteUrlAsWritten(u)
  {
    if u.port == -1 then Ok(NullText(u.scheme) + "://" + NullText(u.host))
    else ServerApiFromRemoteUrlAsWritten(u)
  }

  lemma HostNameIsLegal(h: string)
    requires IsHostName(h)
    ensures !HasIllegal(h) && '/' !in h && '?' !in h && '#' !in h && '@' !in h && ':' !in h
  {
  }

  /**
   * Read back with `URI.create`, the API address names the remote's own server: the same host;
   * the bare `http`/`https` scheme and no port for the default ports; otherwise the remote's
   * scheme and port (none when it had none).
   */
  lemma ServerApiNamesSameServer(u: Uri, scheme: string, host: string)
    requires u.scheme == Some(scheme) && u.host == Some(host)
    requires IsSchemeName(scheme) && IsHostName(host) && u.port >= -1
    ensures var r := ServerApiFromRemoteUrl(u);
            && r.Ok?
            && ParseUri(r.value).Ok?
            && ParseUri(r.value).value.host == Some(host)
            && (if u.port == 80 && EqualsIgnoreCase(scheme, "http") then
                  ParseUri(r.value).value.scheme == Some("http") && ParseUri(r.value).value.port == -1
                else if u.port == 443 && EqualsIgnoreCase(scheme, "https") then
                  ParseUri(r.value).value.scheme == Some("https") && ParseUri(r.value).value.port == -1
                else
                  ParseUri(r.value).value.scheme == Some(scheme) && ParseUri(r.value).value.port == u.port)
  {
    var httpDefault := u.port == 80 && EqualsIgnoreCase(scheme, "http");
    var httpsDefault := u.port == 443 && EqualsIgnoreCase(scheme, "https");
    ServerApiText(u, scheme, host);
    if httpDefault {
      assert IsSchemeName("http");
      ParseServerAddress("http", host, None);
    } else if httpsDefault {
      assert IsSchemeName("https");
      ParseServerAddress("https", host, None);
    } else if u.port == -1 {
      ParseServerAddress(scheme, host, None);
    } else {
      ParseServerAddress(scheme, host, Some(u.port));
    }
  }

  /** The API address is `<scheme>://<authority>`, with the bare scheme and no port for the default ports. */
  lemma ServerApiText(u: Uri, scheme: string, host: string)
    requires u.scheme == Some(scheme) && u.host == Some(host) && u.port >= -1
    ensures ServerApiFromRemoteUrl(u) ==
              if u.port == 80 && EqualsIgnoreCase(scheme, "http") then Ok("http" + "://" + Authority(None, host, None))
              else if u.port == 443 && EqualsIgnoreCase(scheme, "https") then Ok("https" + "://" + Authority(None, host, None))
              else if u.port == -1 then Ok(scheme + "://" + Authority(None, host, None))
              else Ok(scheme + "://" + Authority(None, host, Some(u.port)))
  {
    assert Authority(None, host, None) == host;
    assert "http://" + host == "http" + "://" + host;
    assert "https://" + host == "https" + "://" + host;
    if u.port >= 0 {
      assert IntToString(u.port) == NatToString(u.port);
      assert Authority(None, host, Some(u.port)) == host + ":" + NatToString(u.port);
      assert scheme + "://" + host + ":" + NatToString(u.port) == scheme + "://" + Authority(None, host, Some(u.port));
    }
  }

  /** The authority `host[:port]` holds nothing `URI.create` would refuse or read as a path, query or fragment. */
  lemma AuthorityIsPlain(host: string, port: Option<nat>)
    requires IsHostName(host)
    ensures var auth := Authority(None, host, port);
            '/' !in auth && '?' !in auth && '#' !in auth && !HasIllegal(auth)
  {
    HostNameIsLegal(host);
    if port.Some? {
      var portText := ":" + NatToString(port.value);
      PortTextIsPlain(NatToString(port.value));
      PlainConcat(host, portText);
      assert Authority(None, host, port) == host + portText;
    } else {
      assert Authority(None, host, port) == host;
    }
  }

  /** A plain text holds no `/`, `?`, `#` or character `URI.create` refuses. */
  predicate IsPlain(t: string)
  {
    '/' !in t && '?' !in t && '#' !in t && !HasIllegal(t)
  }

  /** `:` and digits are plain. */
  lemma PortTextIsPlain(digits: string)
    requires AllDigits(digits)
    ensures IsPlain(":" + digits)
  {
    assert forall i :: 0 <= i < |digits| ==> IsDigit(digits[i]);
    assert !HasIllegal(digits);
    HasIllegalConcat(":", digits);
  }

  /** Two plain texts make a plain text. */
  lemma PlainConcat(a: string, b: string)
    requires IsPlain(a) && IsPlain(b)
    ensures IsPlain(a + b)
  {
    HasIllegalConcat(a, b);
  }

  /** `scheme://host[:port]` reads back as that scheme, host and port (-1 for none). */
  lemma ParseServerAddress(scheme: string, host: string, port: Option<nat>)
    requires IsSchemeName(scheme) && IsHostName(host)
    ensures var text := scheme + "://" + Authority(None, host, port);
            ParseUri(text) == Ok(Uri(text, Some(scheme), Some(host), if port.Some? then port.value else -1, Some("")))
  {
    var auth := Authority(None, host, port);
    AuthorityIsPlain(host, port);
    ParseServerUrl(scheme, auth, "");
    ParseServerAuthority(None, host, port);
    assert scheme + "://" + auth + "" == scheme + "://" + auth;
  }

  /**
   * `getRemoteUrl(gitLib, remoteName)`: the remote's URL; without one, an
   * `IllegalStateException` naming the remote.
   */
  function GetRemoteUrl(c: Config, remoteName: string): (r: Try<Uri>)
    ensures RemoteConfig.RemoteUrl(c, remoteName) == Ok(None) ==>
              r == Thrown(IllegalState("Can not find a URL for remote named \"" + remoteName + "\""))
    ensures r.Ok? <==> RemoteConfig.RemoteUrl(c, remoteName).Ok? && RemoteConfig.RemoteUrl(c, remoteName).value.Some?
    ensures r.Ok? ==> Some(r.value) == RemoteConfig.RemoteUrl(c, remoteName).value
  {
    match RemoteConfig.RemoteUrl(c, remoteName)
    case Thrown(e) => Thrown(e)
    case Ok(None) => Thrown(IllegalState("Can not find a URL for remote named \"" + remoteName + "\""))
    case Ok(Some(u)) => Ok(u)
  }

  /** The remote's host names GitHub itself: it contains `github.com`, ignoring case. */
  predicate IsGithubHost(host: string)
  {
    ContainsAt(ToLower(host), "github.com", 0)
  }

  /**
   * `getServerApiUri(remoteName, gitLib)`: `https://api.github.com` for a remote on a GitHub
   * host, otherwise the address `serverApiFromRemoteUrl` derives, as written, from the remote's
   * URL (so a URL without a port gets `:-1`). A URL without a host fails on the dereference.
   */
  function GetServerApiUri(c: Config, remoteName: string): (r: Try<string>)
    ensures GetRemoteUrl(c, remoteName).Thrown? ==> r == Thrown(GetRemoteUrl(c, remoteName).ex)
    ensures GetRemoteUrl(c, remoteName).Ok? ==>
              var u := GetRemoteUrl(c, remoteName).value;
              && (u.host.None? ==> r == Thrown(NullDereference))
              && (u.host.Some? && Contains(ToLower(u.host.value), "github.com") ==> r == Ok(DefaultGithubUri))
              && (u.host.Some? && !Contains(ToLower(u.host.value), "github.com") ==> r == ServerApiFromRemoteUrlAsWritten(u))
  {
    match GetRemoteUrl(c, remoteName)
    case Thrown(e) => Thrown(e)
    case Ok(u) =>
      match u.host
      case None => Thrown(NullDereference)
      case Some(h) => if IsGithubHost(h) then Ok(DefaultGithubUri) else ServerApiFromRemoteUrlAsWritten(u)
  }

  /**
   * A remote on a host other than GitHub's whose URL has no port gets the API address
   * `<scheme>://<host>:-1`, which `URI.create` reads back without any host.
   */
  lemma ServerApiUriOfPortlessRemote(c: Config, remoteName: string, scheme: string, host: string)
    requires GetRemoteUrl(c, remoteName).Ok?
    requires GetRemoteUrl(c, remoteName).value.scheme == Some(scheme)
    requires GetRemoteUrl(c, remoteName).value.host == Some(host)
    requires GetRemoteUrl(c, remoteName).value.port == -1
    requires IsSchemeName(scheme) && IsHostName(host) && !Contains(ToLower(host), "github.com")
    ensures GetServerApiUri(c, remoteName) == Ok(scheme + "://" + host + ":-1")
    ensures var text := scheme + "://" + host + ":-1";
            ParseUri(text).Ok? && ParseUri(text).value.host.None?
  {
    AsWrittenLosesHost(GetRemoteUrl(c, remoteName).value, scheme, host);
  }

  /**
   * `getServerApiUri` as evidently intended: the same, except that the address of a remote
   * that is not on GitHub comes from the corrected `serverApiFromRemoteUrl`.
   */
  function GetServerApiUriIntended(c: Config, remoteName: string): (r: Try<string>)
    ensures GetServerApiUri(c, remoteName).Thrown? ==> r == GetServerApiUri(c, remoteName)
    ensures GetRemoteUrl(c, remoteName).Ok? && GetRemoteUrl(c, remoteName).value.port != -1 ==>
              r == GetServerApiUri(c, remoteName)
  {
    match GetRemoteUrl(c, remoteName)
    case Thrown(e) => Thrown(e)
    case Ok(u) =>
      match u.host
      case None => Thrown(NullDereference)
      case Some(h) => if IsGithubHost(h) then Ok(DefaultGithubUri) else ServerApiFromRemoteUrl(u)
  }

  /**
   * The intended API address of a remote that is not on GitHub names the remote's own host,
   * with or without a port.
   */
  lemma IntendedServerApiUriNamesRemoteHost(c: Config, remoteName: string, scheme: string, host: string)
    requires GetRemoteUrl(c, remoteName).Ok?
    requires GetRemoteUrl(c, remoteName).value.scheme == Some(scheme)
    requires GetRemoteUrl(c, remoteName).value.host == Some(host)
    requires GetRemoteUrl(c, remoteName).value.port >= -1
    requires IsSchemeName(scheme) && IsHostName(host) && !Contains(ToLower(host), "github.com")
    ensures var r := GetServerApiUriIntended(c, remoteName);
            r.Ok? && ParseUri(r.value).Ok? && ParseUri(r.value).value.host == Some(host)
  {
    ServerApiNamesSameServer(GetRemoteUrl(c, remoteName).value, scheme, host);
  }

  /** The credentials the connection uses. */
  datatype Auth = TokenAuth(token: string) | BasicAuth(username: Option<string>, password: Option<string>)

  /** What `build()` connects to: the API address, the credentials and the repository coordinates. */
  datatype Connection = Connection(serverApiUri: string, auth: Auth, repoUser: string, projectName: string)

  const RepoNameMessage: string := "There should be exactly one slash in the complete repository name (e.g., \"jdigger/jgit-process\"): "

  /**
   * The `owner/project` split of `repoUserAndProject`: `String.split("/")` must give exactly
   * two pieces, otherwise an `IllegalArgumentException`.
   */
  function SplitRepoName(repoUserAndProject: string): (r: Try<(string, string)>)
    ensures r.Thrown? <==> |JavaSplit(repoUserAndProject, '/')| != 2
    ensures r.Thrown? ==> r.ex == IllegalArgument(RepoNameMessage + repoUserAndProject)
    ensures r.Ok? ==> '/' !in r.value.0 && '/' !in r.value.1 && r.value.1 != ""
  {
    var pieces := JavaSplit(repoUserAndProject, '/');
    if |pieces| != 2 then Thrown(IllegalArgument(RepoNameMessage + repoUserAndProject))
    else
      assert pieces == DropTrailingEmpty(SplitAll(repoUserAndProject, '/'));
      Ok((pieces[0], pieces[1]))
  }

  /** An owner and a non-empty project without slashes come back out of `owner/project`, with or without a trailing slash. */
  lemma SplitRepoNameRoundTrip(owner: string, project: string)
    requires '/' !in owner && '/' !in project && project != ""
    ensures SplitRepoName(owner + "/" + project) == Ok((owner, project))
    ensures SplitRepoName(owner + "/" + project + "/") == Ok((owner, project))
  {
    JavaSplitTwo(owner, project, '/');
    JavaSplitTwoTrailing(owner, project, '/');
  }

  /**
   * `createGithub()`'s choices: the explicit API address when one was given; otherwise the one
   * derived from the explicit remote name, or else from the repository's chosen remote (none is
   * an `IllegalStateException`). `repoConfig` is the configuration of the builder's repository,
   * or of the one opened in the working directory when it has none. A token means token
   * authentication; otherwise the user name and password are used.
   */
  function CreateGithub(serverApiUri: Option<string>, remoteName: Option<string>, repoConfig: Try<Config>,
                        oauth2Token: Option<string>, username: Option<string>, password: Option<string>): (r: Try<(string, Auth)>)
    ensures serverApiUri.Some? ==> r.Ok? && r.value.0 == serverApiUri.value
    ensures serverApiUri.None? && repoConfig.Thrown? ==> r == Thrown(repoConfig.ex)
    ensures serverApiUri.None? && repoConfig.Ok? && remoteName.Some? ==>
              r.Ok? == GetServerApiUri(repoConfig.value, remoteName.value).Ok?
              && (r.Ok? ==> r.value.0 == GetServerApiUri(repoConfig.value, remoteName.value).value)
    ensures serverApiUri.None? && repoConfig.Ok? && remoteName.None? ==>
              match RemoteConfig.RemoteName(repoConfig.value)
              case None => r == Thrown(IllegalState("Could not find a remote"))
              case Some(name) =>
                r.Ok? == GetServerApiUri(repoConfig.value, name).Ok?
                && (r.Ok? ==> r.value.0 == GetServerApiUri(repoConfig.value, name).value)
    ensures r.Ok? ==> r.value.1 == if oauth2Token.Some? then TokenAuth(oauth2Token.value) else BasicAuth(username, password)
  {
    var uri: Try<string> :=
      if serverApiUri.Some? then Ok(serverApiUri.value)
      else match repoConfig
        case Thrown(e) => Thrown(e)
        case Ok(c) =>
          var name := if remoteName.Some? then Some(remoteName.value) else RemoteConfig.RemoteName(c);
          if name.None? then Thrown(IllegalState("Could not find a remote"))
          else GetServerApiUri(c, name.value);
    match uri
    case Thrown(e) => Thrown(e)
    case Ok(u) => Ok((u, if oauth2Token.Some? then TokenAuth(oauth2Token.value) else BasicAuth(username, password)))
  }

  /** Everything a `GitHubRepoBuilder` has gathered. */
  datatype Settings = Settings(
    gitLib: Option<GitLib>, oauth2Token: Option<string>, username: Option<string>, password: Option<string>,
    repoUser: Option<string>, projectName: Option<string>, serverApiUri: Option<string>, remoteName: Option<string>)

  /** `GitHubRepoBuilder`: each setter records one value; `build()` connects with them. */
  class GitHubRepoBuilder {
    var gitLib: Option<GitLib>
    var oauth2Token: Option<string>
    var username: Option<string>
    var password: Option<string>
    var repoUser: Option<string>
    var projectName: Option<string>
    var serverApiUri: Option<string>
    var remoteName: Option<string>

    function Current(): Settings
      reads this
    {
      Settings(gitLib, oauth2Token, username, password, repoUser, projectName, serverApiUri, remoteName)
    }

    constructor ()
      ensures Current() == Settings(None, None, None, None, None, None, None, None)
    {
      gitLib := None;
      oauth2Token := None;
      username := None;
      password := None;
      repoUser := None;
      projectName := None;
      serverApiUri := None;
      remoteName := None;
    }

    /** `oauth2Token(token)`; also what `authorizer(a)` does with the token `a` hands out. */
    method SetOauth2Token(token: string)
      modifies this
      ensures Current() == old(Current()).(oauth2Token := Some(token))
    {
      oauth2Token := Some(token);
    }

    /** `username(name)`. */
    method SetUsername(name: string)
      modifies this
      ensures Current() == old(Current()).(username := Some(name))
    {
      username := Some(name);
    }

    /** `password(secret)`. */
    method SetPassword(secret: string)
      modifies this
      ensures Current() == old(Current()).(password := Some(secret))
    {
      password := Some(secret);
    }

    /** `serverApiUri(uri)`. */
    method SetServerApiUri(uri: string)
      modifies this
      ensures Current() == old(Current()).(serverApiUri := Some(uri))
    {
      serverApiUri := Some(uri);
    }

    /** `remoteName(name)`. */
    method SetRemoteName(name: string)
      modifies this
      ensures Current() == old(Current()).(remoteName := Some(name))
    {
      remoteName := Some(name);
    }

    /**
     * `repoUserAndProject(text)`: sets the owner and the project from `owner/project`; any other
     * shape throws and changes nothing.
     */
    method RepoUserAndProject(text: string) returns (r: Try<()>)
      modifies this
      ensures SplitRepoName(text).Thrown? ==> r == Thrown(SplitRepoName(text).ex) && Current() == old(Current())
      ensures SplitRepoName(text).Ok? ==>
                && r == Ok(())
                && Current() == old(Current()).(repoUser := Some(SplitRepoName(text).value.0),
                                                projectName := Some(SplitRepoName(text).value.1))
    {
      match SplitRepoName(text)
      case Thrown(e) =>
        r := Thrown(e);
      case Ok(pair) =>
        repoUser := Some(pair.0);
        projectName := Some(pair.1);
        r := Ok(());
    }

    /**
     * `gitLib(g)`: the repository name of `g`'s remote must exist (otherwise an
     * `IllegalStateException` naming the working directory); `g` is then kept and the name split
     * into owner and project, which may still throw, after `g` was kept.
     */
    method SetGitLib(g: GitLib, workingDirectory: string) returns (r: Try<()>)
      modifies this
      ensures RemoteConfig.RepositoryName(g.config).Thrown? ==>
                r == Thrown(RemoteConfig.RepositoryName(g.config).ex) && Current() == old(Current())
      ensures RemoteConfig.RepositoryName(g.config) == Ok(None) ==>
                r == Thrown(IllegalState("Can not find a repository name for " + workingDirectory)) && Current() == old(Current())
      ensures RemoteConfig.RepositoryName(g.config).Ok? && RemoteConfig.RepositoryName(g.config).value.Some? ==>
                var split := SplitRepoName(RemoteConfig.RepositoryName(g.config).value.value);
                && (split.Thrown? ==> r == Thrown(split.ex) && Current() == old(Current()).(gitLib := Some(g)))
                && (split.Ok? ==> r == Ok(()) && Current() == old(Current()).(gitLib := Some(g), repoUser := Some(split.value.0),
                                                                               projectName := Some(split.value.1)))
    {
      match RemoteConfig.RepositoryName(g.config)
      case Thrown(e) =>
        r := Thrown(e);
      case Ok(None) =>
        r := Thrown(IllegalState("Can not find a repository name for " + workingDirectory));
      case Ok(Some(name)) =>
        gitLib := Some(g);
        r := RepoUserAndProject(name);
    }

    /**
     * `build()`: with a repository and no token, first takes the token the `Authorizer` hands
     * out (`authorizedToken`); then connects as `CreateGithub` decides. `workingDirectory` is the
     * repository opened in `.` when the builder has none (or the failure to open it).
     */
    method Build(authorizedToken: string, workingDirectory: Try<Config>) returns (r: Try<Connection>)
      requires repoUser.Some? && projectName.Some?
      modifies this
      ensures Current() == old(Current()).(oauth2Token :=
                if old(gitLib.Some? && oauth2Token.None?) then Some(authorizedToken) else old(oauth2Token))
      ensures var created := CreateGithub(serverApiUri, remoteName,
                                          if gitLib.Some? then Ok(gitLib.value.config) else workingDirectory,
                                          oauth2Token, username, password);
              && (created.Thrown? ==> r == Thrown(created.ex))
              && (created.Ok? ==> r == Ok(Connection(created.value.0, created.value.1, repoUser.value, projectName.value)))
    {
      if gitLib.Some? && oauth2Token.None? {
        oauth2Token := Some(authorizedToken);
      }
      var repoConfig := if gitLib.Some? then Ok(gitLib.value.config) else workingDirectory;
      match CreateGithub(serverApiUri, remoteName, repoConfig, oauth2Token, username, password)
      case Thrown(e) =>
        r := Thrown(e);
      case Ok(created) =>
        r := Ok(Connection(created.0, created.1, repoUser.value, projectName.value));
    }
  }
}

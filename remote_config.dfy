/**
 * The remote settings read from and written to the git configuration: which remote to use, the
 * remote-tracking name of a branch, a remote's URL and the repository name derived from it, and
 * the credential helper.
 */
module RemoteConfig {
  import opened Wrappers
  import opened Strings
  import opened Config
  import opened Uris

  const RemoteSection: string := "remote"
  const RemoteNameKey: string := "remoteName"
  /** JGit's `Constants.DEFAULT_REMOTE_NAME`. */
  const DefaultRemoteName: string := "origin"
  const CredentialSection: string := "credential"
  const HelperKey: string := "helper"

  /** Whether any remote is configured: a `remote` section exists. */
  predicate HasRemotes(c: Config)
  {
    RemoteSection in Sections(c)
  }

  /** The configured remote names: the subsections of `remote`. */
  function RemoteNames(c: Config): set<string>
  {
    Subsections(c, RemoteSection)
  }

  /** A named remote implies that remotes exist. */
  lemma RemoteNamesHaveRemotes(c: Config, name: string)
    requires name in RemoteNames(c)
    ensures HasRemotes(c)
  {
    var k :| k in c && k.section == RemoteSection && k.subsection == Some(name);
    assert RemoteSection in Sections(c);
  }

  /** `m` comes first when `names` are sorted as Java sorts strings. */
  predicate IsFirstSorted(names: set<string>, m: string)
  {
    m in names && forall n :: n in names ==> LexLe(m, n)
  }

  lemma {:induction false} FirstSortedExists(names: set<string>)
    requires names != {}
    ensures exists m :: IsFirstSorted(names, m)
    decreases |names|
  {
    var x :| x in names;
    var rest := names - {x};
    LexLeTotal(x, x);
    if rest == {} {
      assert names == {x};
      assert IsFirstSorted(names, x);
    } else {
      FirstSortedExists(rest);
      var m :| IsFirstSorted(rest, m);
      LexLeTotal(x, m);
      if LexLe(x, m) {
        forall n | n in names
          ensures LexLe(x, n)
        {
          if n != x {
            LexLeTransitive(x, m, n);
          }
        }
        assert IsFirstSorted(names, x);
      } else {
        assert IsFirstSorted(names, m);
      }
    }
  }

  lemma FirstSortedUnique(names: set<string>)
    ensures forall a, b :: IsFirstSorted(names, a) && IsFirstSorted(names, b) ==> a == b
  {
    forall a, b | IsFirstSorted(names, a) && IsFirstSorted(names, b)
      ensures a == b
    {
      LexLeAntisymmetric(a, b);
    }
  }

  /** The first of a non-empty set of names in sorted order. */
  function FirstSorted(names: set<string>): (m: string)
    requires names != {}
    ensures IsFirstSorted(names, m)
  {
    FirstSortedExists(names);
    FirstSortedUnique(names);
    var m :| IsFirstSorted(names, m);
    m
  }

  /**
   * `remoteName()`: the `gitProcess.remoteName` setting when present; otherwise `origin` when
   * that remote exists; otherwise the first remote name in sorted order; nothing when there are
   * no remotes.
   */
  function RemoteName(c: Config): (r: Option<string>)
    ensures GetString(c, GitProcessSection, None, RemoteNameKey).Some? ==>
              r == GetString(c, GitProcessSection, None, RemoteNameKey)
    ensures GetString(c, GitProcessSection, None, RemoteNameKey).None? ==>
              && (r.Some? <==> RemoteNames(c) != {})
              && (r.Some? ==> r.value in RemoteNames(c))
              && (DefaultRemoteName in RemoteNames(c) ==> r == Some(DefaultRemoteName))
              && (DefaultRemoteName !in RemoteNames(c) && r.Some? ==> IsFirstSorted(RemoteNames(c), r.value))
  {
    match GetString(c, GitProcessSection, None, RemoteNameKey)
    case Some(name) => Some(name)
    case None =>
      var names := RemoteNames(c);
      if DefaultRemoteName in names then Some(DefaultRemoteName)
      else if names == {} then None
      else Some(FirstSorted(names))
  }

  /** A single remote is the one chosen when nothing is configured. */
  lemma RemoteNameSingle(c: Config, name: string)
    requires GetString(c, GitProcessSection, None, RemoteNameKey).None?
    requires RemoteNames(c) == {name}
    ensures RemoteName(c) == Some(name)
  {
  }

  /**
   * `remoteName(String)`: a blank name is refused with `IllegalArgumentException`; any other
   * name is stored as `gitProcess.remoteName`.
   */
  function SetRemoteName(c: Config, name: string): (r: Try<Config>)
    ensures r.Thrown? <==> IsBlank(name)
    ensures r.Thrown? ==> r.ex == IllegalArgument("remoteName is empty")
    ensures r.Ok? ==> RemoteName(r.value) == Some(name)
    ensures r.Ok? ==> forall k :: k in c && k != ConfigKey(GitProcessSection, None, RemoteNameKey) ==>
                                    k in r.value && r.value[k] == c[k]
  {
    TrimEmptyIffBlank(name);
    if Trim(name) == "" then Thrown(IllegalArgument("remoteName is empty"))
    else Ok(SetString(c, GitProcessSection, None, RemoteNameKey, name))
  }

  /** `remoteBranchName(branchName)`: `<remote>/<branchName>`, or nothing when there is no remote. */
  function RemoteBranchName(c: Config, branchName: string): (r: Option<string>)
    ensures r.None? <==> RemoteName(c).None?
    ensures r.Some? ==> (StartsWith(r.value, RemoteName(c).value + "/")
                         && r.value[|RemoteName(c).value| + 1..] == branchName)
  {
    match RemoteName(c)
    case None => None
    case Some(remote) =>
      var r := remote + "/" + branchName;
      assert r[..|remote| + 1] == remote + "/";
      Some(r)
  }

  /** When the remote name has no `/`, the first `/` of the remote branch name separates the two again. */
  lemma RemoteBranchNameSplits(c: Config, branchName: string)
    requires RemoteName(c).Some? && '/' !in RemoteName(c).value
    ensures var r := RemoteBranchName(c, branchName).value;
            && IndexOf(r, '/') == |RemoteName(c).value|
            && r[..IndexOf(r, '/')] == RemoteName(c).value
            && r[IndexOf(r, '/') + 1..] == branchName
  {
    var remote := RemoteName(c).value;
    var r := remote + "/" + branchName;
    assert r == remote + ("/" + branchName);
    IndexOfConcat(remote, "/" + branchName, '/');
    assert r[..|remote|] == remote;
  }

  // ---------------------------------------------------------------------------------------------
  // Credential helper

  /**
   * `credentialHelper(uri)` as written: the URI-specific `credential.<uri>.helper`, and when that
   * is missing the same URI-specific key is read a second time, so the global `credential.helper`
   * is read only when no URI is given.
   */
  function CredentialHelperAsWritten(c: Config, uri: Option<Uri>): (r: Option<string>)
    ensures uri.Some? ==> r == GetString(c, CredentialSection, Some(uri.value.text), HelperKey)
    ensures uri.None? ==> r == GetString(c, CredentialSection, None, HelperKey)
  {
    if uri.Some? && GetString(c, CredentialSection, Some(uri.value.text), HelperKey).Some? then
      GetString(c, CredentialSection, Some(uri.value.text), HelperKey)
    else
      GetString(c, CredentialSection, if uri.Some? then Some(uri.value.text) else None, HelperKey)
  }

  /** With only a global helper configured, the as-written lookup for a URI finds none. */
  lemma CredentialHelperMissesGlobal()
    ensures var c := map[ConfigKey(CredentialSection, None, HelperKey) := "store"];
            var uri := Uri("https://github.com", Some("https"), Some("github.com"), -1, Some(""));
            && CredentialHelperAsWritten(c, Some(uri)) == None
            && CredentialHelper(c, Some(uri)) == Some("store")
  {
    var uri := Uri("https://github.com", Some("https"), Some("github.com"), -1, Some(""));
    assert ConfigKey(CredentialSection, Some(uri.text), HelperKey) != ConfigKey(CredentialSection, None, HelperKey);
  }

  /**
   * `credentialHelper(uri)` as documented: the helper defined for the URI, or the global one when
   * no URI is given or there is no URI-specific match.
   */
  function CredentialHelper(c: Config, uri: Option<Uri>): (r: Option<string>)
    ensures r.None? <==>
              ConfigKey(CredentialSection, None, HelperKey) !in c
              && (uri.None? || ConfigKey(CredentialSection, Some(uri.value.text), HelperKey) !in c)
  {
    var specific := if uri.Some? then GetString(c, CredentialSection, Some(uri.value.text), HelperKey) else None;
    if specific.Some? then specific else GetString(c, CredentialSection, None, HelperKey)
  }

  /** The URI-specific helper wins; the global helper is the fallback; nothing is found only when neither is set. */
  lemma CredentialHelperFallsBack(c: Config, uri: Option<Uri>)
    ensures uri.Some? && ConfigKey(CredentialSection, Some(uri.value.text), HelperKey) in c ==>
              CredentialHelper(c, uri) == Some(c[ConfigKey(CredentialSection, Some(uri.value.text), HelperKey)])
    ensures (uri.None? || ConfigKey(CredentialSection, Some(uri.value.text), HelperKey) !in c) ==>
              CredentialHelper(c, uri) == GetString(c, CredentialSection, None, HelperKey)
  {
  }

  /** `credentialHelper()`: the global helper. */
  function GlobalCredentialHelper(c: Config): (r: Option<string>)
    ensures r.Some? <==> ConfigKey(CredentialSection, None, HelperKey) in c
    ensures r.Some? ==> r.value == c[ConfigKey(CredentialSection, None, HelperKey)]
  {
    CredentialHelper(c, None)
  }

  // ---------------------------------------------------------------------------------------------
  // URLs

  /** The characters `\S` excludes. */
  predicate IsRegexSpace(c: char)
  {
    c == ' ' || c == '\t' || c == '\n' || c == '\U{0B}' || c == '\U{0C}' || c == '\r'
  }

  /** The characters `.` does not match. */
  predicate IsLineTerminator(c: char)
  {
    c == '\n' || c == '\r' || c == '\U{85}' || c == '\U{2028}' || c == '\U{2029}'
  }

  predicate NoSpace(s: string)
  {
    forall i :: 0 <= i < |s| ==> !IsRegexSpace(s[i])
  }

  predicate NoLineTerminator(s: string)
  {
    forall i :: 0 <= i < |s| ==> !IsLineTerminator(s[i])
  }

  /** `(?<host>\S+?):(?<path>.*)$` matches `t` with the host ending just before index `j`. */
  predicate HostSplitsAt(t: string, j: int)
  {
    1 <= j < |t| && t[j] == ':' && NoSpace(t[..j]) && NoLineTerminator(t[j + 1..])
  }

  /** The reluctant `\S+?` takes the shortest host that lets the rest match. */
  function HostSplit(t: string): (r: Option<nat>)
    ensures r.Some? ==> 1 <= r.value < |t| && t[r.value] == ':'
  {
    HostSplitFrom(t, 1)
  }

  function HostSplitFrom(t: string, from: nat): (r: Option<nat>)
    ensures r.Some? ==> from <= r.value < |t| && t[r.value] == ':'
    decreases |t| - from
  {
    if from >= |t| then None
    else if HostSplitsAt(t, from) then Some(from)
    else HostSplitFrom(t, from + 1)
  }

  lemma {:induction false} HostSplitFromIsFirst(t: string, from: nat)
    requires from >= 1
    ensures HostSplitFrom(t, from).Some? ==>
              HostSplitsAt(t, HostSplitFrom(t, from).value)
              && forall j :: from <= j < HostSplitFrom(t, from).value ==> !HostSplitsAt(t, j)
    ensures HostSplitFrom(t, from).None? ==> forall j :: from <= j ==> !HostSplitsAt(t, j)
    decreases |t| - from
  {
    if from < |t| && !HostSplitsAt(t, from) {
      HostSplitFromIsFirst(t, from + 1);
    }
  }

  /** The host group ends at the first index where the whole pattern matches, and there is none exactly when it fails. */
  lemma HostSplitIsFirst(t: string)
    ensures HostSplit(t).Some? ==>
              HostSplitsAt(t, HostSplit(t).value) && forall j :: 1 <= j < HostSplit(t).value ==> !HostSplitsAt(t, j)
    ensures HostSplit(t).None? <==> forall j :: !HostSplitsAt(t, j)
  {
    HostSplitFromIsFirst(t, 1);
  }

  /** `(?:(?<user>\S+?)@)` matches `s` with the user ending just before index `k`, and the rest matches. */
  predicate UserSplitsAt(s: string, k: int)
  {
    1 <= k < |s| && s[k] == '@' && NoSpace(s[..k]) && HostSplit(s[k + 1..]).Some?
  }

  /** The optional user group is tried first, with the shortest user that lets the rest match. */
  function UserSplit(s: string): (r: Option<nat>)
    ensures r.Some? ==> 1 <= r.value < |s| && HostSplit(s[r.value + 1..]).Some?
  {
    UserSplitFrom(s, 1)
  }

  function UserSplitFrom(s: string, from: nat): (r: Option<nat>)
    ensures r.Some? ==> from <= r.value < |s| && HostSplit(s[r.value + 1..]).Some?
    decreases |s| - from
  {
    if from >= |s| then None
    else if UserSplitsAt(s, from) then Some(from)
    else UserSplitFrom(s, from + 1)
  }

  lemma {:induction false} UserSplitFromIsFirst(s: string, from: nat)
    requires from >= 1
    ensures UserSplitFrom(s, from).Some? ==>
              UserSplitsAt(s, UserSplitFrom(s, from).value)
              && forall k :: from <= k < UserSplitFrom(s, from).value ==> !UserSplitsAt(s, k)
    ensures UserSplitFrom(s, from).None? ==> forall k :: from <= k ==> !UserSplitsAt(s, k)
    decreases |s| - from
  {
    if from >= |s| {
      forall k | from <= k ensures !UserSplitsAt(s, k) {}
    } else if !UserSplitsAt(s, from) {
      UserSplitFromIsFirst(s, from + 1);
      forall k | from <= k && UserSplitsAt(s, k) ensures from + 1 <= k {}
    }
  }

  /** The user group ends at the first `@` after which the rest matches, and there is none exactly when the group is skipped. */
  lemma UserSplitIsFirst(s: string)
    ensures UserSplit(s).Some? ==>
              UserSplitsAt(s, UserSplit(s).value) && forall k :: 1 <= k < UserSplit(s).value ==> !UserSplitsAt(s, k)
    ensures UserSplit(s).None? <==> forall k :: !UserSplitsAt(s, k)
  {
    UserSplitFromIsFirst(s, 1);
  }

  lemma {:induction false} HostSplitFromFinds(t: string, from: nat, j: nat)
    requires 1 <= from <= j && HostSplitsAt(t, j)
    requires forall i :: from <= i < j ==> !HostSplitsAt(t, i)
    ensures HostSplitFrom(t, from) == Some(j)
    decreases j - from
  {
    if from < j {
      HostSplitFromFinds(t, from + 1, j);
    }
  }

  lemma {:induction false} UserSplitFromFinds(s: string, from: nat, k: nat)
    requires 1 <= from <= k && UserSplitsAt(s, k)
    requires forall i :: from <= i < k ==> !UserSplitsAt(s, i)
    ensures UserSplitFrom(s, from) == Some(k)
    decreases k - from
  {
    if from < k {
      UserSplitFromFinds(s, from + 1, k);
    }
  }

  lemma {:induction false} UserSplitFromNone(s: string, from: nat)
    requires forall i :: from <= i ==> !UserSplitsAt(s, i)
    ensures UserSplitFrom(s, from) == None
    decreases |s| - from
  {
    if from < |s| {
      UserSplitFromNone(s, from + 1);
    }
  }

  /** The groups of an scp-like address `[user@]host:path`. */
  datatype ScpAddress = ScpAddress(user: Option<string>, host: string, path: string)

  /** `^(?!http)(?:(?<user>\S+?)@)?(?<host>\S+?):(?<path>.*)$` matched against the whole of `s`. */
  function MatchScp(s: string): (r: Option<ScpAddress>)
    ensures StartsWith(s, "http") ==> r.None?
    ensures ':' !in s ==> r.None?
  {
    if StartsWith(s, "http") then None
    else match UserSplit(s)
      case Some(k) =>
        var t := s[k + 1..];
        var j := HostSplit(t).value;
        Some(ScpAddress(Some(s[..k]), t[..j], t[j + 1..]))
      case None =>
        match HostSplit(s)
        case None => None
        case Some(j) => Some(ScpAddress(None, s[..j], s[j + 1..]))
  }

  /**
   * `normalizeUrl(url)`: an scp-like address `[user@]host:path` becomes
   * `ssh://[user@]host/path`; any other text, and anything starting with `http`, is unchanged.
   */
  function NormalizeUrl(url: string): (r: string)
    ensures StartsWith(url, "http") ==> r == url
    ensures ':' !in url ==> r == url
  {
    match MatchScp(url)
    case None => url
    case Some(a) => "ssh://" + (if a.user.Some? then a.user.value + "@" else "") + a.host + "/" + a.path
  }

  /** `user@host:path`, with no `@` in the user and no `:` in the host, becomes `ssh://user@host/path`. */
  lemma NormalizeScpWithUser(user: string, host: string, path: string)
    requires |user| > 0 && NoSpace(user) && '@' !in user
    requires |host| > 0 && NoSpace(host) && ':' !in host
    requires NoLineTerminator(path)
    requires !StartsWith(user + "@" + host + ":" + path, "http")
    ensures NormalizeUrl(user + "@" + host + ":" + path) == "ssh://" + user + "@" + host + "/" + path
  {
    var t := host + ":" + path;
    assert user + "@" + host + ":" + path == user + "@" + t;
    HostOnly(host, path);
    UserFirst(user, t);
    MatchScpWithUser(user, t, |host|);
    assert t[..|host|] == host && t[|host| + 1..] == path;
  }

  /** Once the user and host groups are found, the rewrite is `ssh://user@host/path`. */
  lemma MatchScpWithUser(user: string, t: string, j: nat)
    requires !StartsWith(user + "@" + t, "http")
    requires UserSplit(user + "@" + t) == Some(|user|) && HostSplit(t) == Some(j)
    ensures NormalizeUrl(user + "@" + t) == "ssh://" + user + "@" + t[..j] + "/" + t[j + 1..]
  {
    var s := user + "@" + t;
    assert s[..|user|] == user && s[|user| + 1..] == t;
    assert MatchScp(s) == Some(ScpAddress(Some(user), t[..j], t[j + 1..]));
    Regroup("ssh://", user, "@");
  }

  /** A user without `@`, then `@`, then text the host group matches: the user group ends at that `@`. */
  lemma UserFirst(user: string, t: string)
    requires |user| > 0 && NoSpace(user) && '@' !in user
    requires HostSplit(t).Some?
    ensures UserSplit(user + "@" + t) == Some(|user|)
  {
    var s := user + "@" + t;
    assert s[..|user|] == user && s[|user| + 1..] == t;
    assert UserSplitsAt(s, |user|);
    forall k | 1 <= k < |user|
      ensures !UserSplitsAt(s, k)
    {
      assert s[k] == user[k];
    }
    UserSplitFromFinds(s, 1, |user|);
  }

  /** `host:path` with no `:` in the host splits right after the host. */
  lemma HostOnly(host: string, path: string)
    requires |host| > 0 && NoSpace(host) && ':' !in host
    requires NoLineTerminator(path)
    ensures HostSplit(host + ":" + path) == Some(|host|)
  {
    var t := host + ":" + path;
    assert t[..|host|] == host && t[|host| + 1..] == path;
    assert HostSplitsAt(t, |host|);
    forall j | 1 <= j < |host|
      ensures !HostSplitsAt(t, j)
    {
      assert t[j] == host[j];
    }
    HostSplitFromFinds(t, 1, |host|);
  }

  /** `host:path` with no `@` anywhere and no `:` in the host becomes `ssh://host/path`. */
  lemma NormalizeScpNoUser(host: string, path: string)
    requires |host| > 0 && NoSpace(host) && ':' !in host && '@' !in host && '@' !in path
    requires NoLineTerminator(path)
    requires !StartsWith(host + ":" + path, "http")
    ensures NormalizeUrl(host + ":" + path) == "ssh://" + host + "/" + path
  {
    var s := host + ":" + path;
    HostOnly(host, path);
    forall k | true
      ensures !UserSplitsAt(s, k)
    {
      if 1 <= k < |s| {
        if k < |host| {
          assert s[k] == host[k];
        } else if k > |host| {
          assert s[k] == path[k - |host| - 1];
        }
      }
    }
    assert s[..|host|] == host && s[|host| + 1..] == path;
    UserSplitFromNone(s, 1);
  }

  /**
   * `remoteUrl(remoteName)`: the remote's `url` setting, normalised and parsed; nothing when the
   * setting is missing; a URL `URI.create` refuses throws.
   */
  function RemoteUrl(c: Config, remoteName: string): (r: Try<Option<Uri>>)
    ensures GetString(c, RemoteSection, Some(remoteName), "url").None? <==> r == Ok(None)
    ensures r.Ok? && r.value.Some? ==>
              r.value.value.text == NormalizeUrl(c[ConfigKey(RemoteSection, Some(remoteName), "url")])
  {
    match GetString(c, RemoteSection, Some(remoteName), "url")
    case None => Ok(None)
    case Some(url) =>
      match ParseUri(NormalizeUrl(url))
      case Thrown(e) => Thrown(e)
      case Ok(uri) => Ok(Some(uri))
  }

  /** The path of a remote URL without a trailing `.git` and then without one leading `/`. */
  function StripRepositoryPath(path: string): (r: string)
    ensures !EndsWith(path, ".git") && !StartsWith(path, "/") ==> r == path
  {
    var p := if EndsWith(path, ".git") then path[..|path| - 4] else path;
    if StartsWith(p, "/") then p[1..] else p
  }

  lemma StripRepositoryPathGit(name: string)
    ensures StripRepositoryPath("/" + name + ".git") == name
  {
    var path := "/" + name + ".git";
    assert path[|path| - 4..] == ".git";
    assert path[..|path| - 4] == "/" + name;
  }

  /**
   * `repositoryName()`: the path of the chosen remote's URL without `.git` and the leading `/`
   * (for example `jdigger/jgit-process`); nothing when there are no remotes, no remote name or no
   * URL. An opaque URL has no path and fails with a null dereference.
   */
  function RepositoryName(c: Config): (r: Try<Option<string>>)
    ensures !HasRemotes(c) || RemoteName(c).None? ==> r == Ok(None)
  {
    if !HasRemotes(c) then Ok(None)
    else match RemoteName(c)
      case None => Ok(None)
      case Some(remote) =>
        match RemoteUrl(c, remote)
        case Thrown(e) => Thrown(e)
        case Ok(None) => Ok(None)
        case Ok(Some(uri)) =>
          match uri.path
          case None => Thrown(NullDereference)
          case Some(p) => Ok(Some(StripRepositoryPath(p)))
  }

  /** A path part of a URL that `URI.create` keeps whole. */
  predicate IsPlainPath(name: string)
  {
    '?' !in name && '#' !in name && !HasIllegal(name)
  }

  /** The `ssh://` URL an scp-like address is rewritten to parses into its user's host and its path. */
  lemma ParseSshUrl(user: string, host: string, path: string)
    requires |user| > 0 && '@' !in user && '/' !in user && !HasIllegal(user) && '?' !in user && '#' !in user
    requires IsHostName(host) && IsPlainPath(path)
    ensures var text := "ssh://" + user + "@" + host + "/" + path;
            ParseUri(text) == Ok(Uri(text, Some("ssh"), Some(host), -1, Some("/" + path)))
  {
    var auth := Authority(Some(user), host, None);
    assert auth == user + "@" + host;
    assert "ssh://" + user + "@" + host + "/" + path == "ssh" + "://" + auth + ("/" + path);
    HasIllegalConcat(user, "@");
    HasIllegalConcat(user + "@", host);
    assert !HasIllegal("@");
    assert !HasIllegal(host) by {
      forall i | 0 <= i < |host| ensures !IsUriIllegal(host[i]) {}
    }
    assert !HasIllegal(auth);
    assert '/' !in host && '?' !in host && '#' !in host;
    assert '/' !in auth && '?' !in auth && '#' !in auth;
    HasIllegalConcat("/", path);
    assert !HasIllegal("/");
    assert IsSchemeName("ssh");
    ParseServerUrl("ssh", auth, "/" + path);
    ParseServerAuthority(Some(user), host, None);
  }

  /** A plain path holds no regex space or line terminator. */
  lemma PlainPathHasNoBreak(name: string)
    requires !HasIllegal(name)
    ensures NoSpace(name) && NoLineTerminator(name)
  {
    forall i | 0 <= i < |name|
      ensures !IsRegexSpace(name[i]) && !IsLineTerminator(name[i])
    {
      assert !IsUriIllegal(name[i]);
    }
  }

  /** A remote whose URL is `user@host:path` has the URL `ssh://user@host/path`. */
  lemma RemoteUrlScp(c: Config, remote: string, user: string, host: string, path: string)
    requires GetString(c, RemoteSection, Some(remote), "url") == Some(user + "@" + host + ":" + path)
    requires |user| > 0 && '@' !in user && '/' !in user && !HasIllegal(user) && '?' !in user && '#' !in user
    requires IsHostName(host) && IsPlainPath(path)
    requires !StartsWith(user + "@" + host + ":" + path, "http")
    ensures RemoteUrl(c, remote)
         == Ok(Some(Uri("ssh://" + user + "@" + host + "/" + path, Some("ssh"), Some(host), -1, Some("/" + path))))
  {
    PlainPathHasNoBreak(user);
    PlainPathHasNoBreak(path);
    assert NoSpace(host) && ':' !in host;
    NormalizeScpWithUser(user, host, path);
    ParseSshUrl(user, host, path);
  }

  /** `user@host:owner/project.git` names the repository `owner/project`. */
  lemma RepositoryNameScp(c: Config, user: string, host: string, name: string)
    requires RemoteName(c).Some?
    requires GetString(c, RemoteSection, Some(RemoteName(c).value), "url") == Some(user + "@" + host + ":" + name + ".git")
    requires |user| > 0 && '@' !in user && '/' !in user && !HasIllegal(user) && '?' !in user && '#' !in user
    requires IsHostName(host) && IsPlainPath(name)
    requires !StartsWith(user + "@" + host + ":" + name + ".git", "http")
    ensures RepositoryName(c) == Ok(Some(name))
  {
    var remote := RemoteName(c).value;
    RemoteNamesHaveRemotes(c, remote) by {
      var k := ConfigKey(RemoteSection, Some(remote), "url");
      assert k in c;
    }
    var path := name + ".git";
    HasIllegalConcat(name, ".git");
    assert !HasIllegal(".git");
    Regroup(user + "@" + host + ":", name, ".git");
    RemoteUrlScp(c, remote, user, host, path);
    RepositoryNameOfUrl(c, remote, "ssh://" + user + "@" + host + "/" + path, Some("ssh"), Some(host), "/" + path);
    StripRepositoryPathGit(name);
    Regroup("/", name, ".git");
  }

  /** The repository name is read off the path of the chosen remote's URL. */
  lemma RepositoryNameOfUrl(c: Config, remote: string, text: string, scheme: Option<string>, host: Option<string>, path: string)
    requires HasRemotes(c) && RemoteName(c) == Some(remote)
    requires RemoteUrl(c, remote) == Ok(Some(Uri(text, scheme, host, -1, Some(path))))
    ensures RepositoryName(c) == Ok(Some(StripRepositoryPath(path)))
  {
  }

  /** An `https://` URL to a host parses into the host, no port, and the path. */
  lemma ParseHttpsUrl(host: string, name: string)
    requires IsHostName(host) && IsPlainPath(name)
    ensures var text := "https://" + host + "/" + name + ".git";
            ParseUri(text) == Ok(Uri(text, Some("https"), Some(host), -1, Some("/" + name + ".git")))
  {
    var path := "/" + name + ".git";
    assert "https://" + host + "/" + name + ".git" == "https" + "://" + host + path;
    assert IsSchemeName("https");
    PlainHost(host);
    PlainGitPath(name);
    ParseServerUrl("https", host, path);
    PlainHostParses(host);
  }

  /** A host name holds no `/`, `?`, `#` or character a URI refuses. */
  lemma PlainHost(host: string)
    requires IsHostName(host)
    ensures '/' !in host && '?' !in host && '#' !in host && !HasIllegal(host)
  {
    assert !HasIllegal(host) by {
      forall i | 0 <= i < |host| ensures !IsUriIllegal(host[i]) {}
    }
  }

  /** A plain path with `/` before it and `.git` after it is still a path a URI keeps whole. */
  lemma PlainGitPath(name: string)
    requires IsPlainPath(name)
    ensures var path := "/" + name + ".git";
            path[0] == '/' && '?' !in path && '#' !in path && !HasIllegal(path)
  {
    HasIllegalConcat("/" + name, ".git");
    HasIllegalConcat("/", name);
  }

  /** A bare host name is the server's host, with no port. */
  lemma PlainHostParses(host: string)
    requires IsHostName(host)
    ensures ParseServer(host) == (Some(host), -1)
  {
    ParseHostAndPort(host, None);
    assert host + "" == host;
  }

  /** `https://host/owner/project.git` names the repository `owner/project`. */
  lemma RepositoryNameHttps(c: Config, host: string, name: string)
    requires RemoteName(c).Some?
    requires GetString(c, RemoteSection, Some(RemoteName(c).value), "url") == Some("https://" + host + "/" + name + ".git")
    requires IsHostName(host) && IsPlainPath(name)
    ensures RepositoryName(c) == Ok(Some(name))
  {
    var remote := RemoteName(c).value;
    RemoteNamesHaveRemotes(c, remote) by {
      var k := ConfigKey(RemoteSection, Some(remote), "url");
      assert k in c;
    }
    var url := "https://" + host + "/" + name + ".git";
    assert url[..4] == "http";
    assert NormalizeUrl(url) == url;
    ParseHttpsUrl(host, name);
    StripRepositoryPathGit(name);
  }
}

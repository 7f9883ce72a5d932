/**
 * The branch settings of `StoredBranchConfig`: the integration branch (`gitProcess.integrationBranch`,
 * else `<remote>/master`, else `master`) and each branch's upstream (`branch.<name>.remote` and
 * `branch.<name>.merge`).
 */
module BranchConfig {
  import opened Wrappers
  import opened Strings
  import opened Refs
  import opened Config
  import RemoteConfig
  import opened Repo
  import opened BranchRefs

  const IntegrationBranchKey: string := "integrationBranch"
  const BranchSection: string := "branch"
  const RemoteKey: string := "remote"
  const MergeKey: string := "merge"
  const Master: string := "master"

  /** `searchForBranch(remoteBranches(), <remote>/master)`: the remote branch whose short name is `<remote>/master`. */
  function IntegrationFromRemote(s: RepoState): (r: Option<Branch>)
    ensures r.Some? ==> RemoteConfig.RemoteName(s.config).Some?
                        && r.value in RemoteBranches(s)
                        && ShortName(r.value) == RemoteConfig.RemoteName(s.config).value + "/" + Master
  {
    match RemoteConfig.RemoteName(s.config)
    case None => None
    case Some(remote) =>
      var full := RRemotes + (remote + "/" + Master);
      if full in s.refs then
        ShortenRemotes(remote + "/" + Master);
        assert full[..|RRemotes|] == RRemotes;
        Some(Branch(full))
      else None
  }

  /** `searchForBranch(localBranches(), master)`: the local branch whose short name is `master`. */
  function IntegrationFromLocal(s: RepoState): (r: Option<Branch>)
    ensures r.Some? ==> r.value in LocalBranches(s) && ShortName(r.value) == Master
  {
    var full := RHeads + Master;
    if full in s.refs then
      ShortenHeads(Master);
      assert full[..|RHeads|] == RHeads;
      assert full[5] == 'h';
      Some(Branch(full))
    else None
  }

  /** The search finds a branch whenever one with the wanted short name is in the list. */
  lemma IntegrationFromRemoteComplete(s: RepoState, b: Branch)
    requires RemoteConfig.RemoteName(s.config).Some?
    requires b in RemoteBranches(s) && ShortName(b) == RemoteConfig.RemoteName(s.config).value + "/" + Master
    ensures IntegrationFromRemote(s) == Some(b)
  {
    var x := b.name[|RRemotes|..];
    assert b.name == RRemotes + x;
    ShortenRemotes(x);
  }

  lemma IntegrationFromLocalComplete(s: RepoState, b: Branch)
    requires b in LocalBranches(s) && ShortName(b) == Master
    ensures IntegrationFromLocal(s) == Some(b)
  {
    BranchesPartition(s);
    var x := b.name[|RHeads|..];
    assert b.name == RHeads + x;
    ShortenHeads(x);
  }

  /**
   * `integrationBranch()`: the configured branch when it is found; otherwise `<remote>/master`
   * when there are remotes and `master` when there are none. Nothing when that is missing too.
   */
  function IntegrationBranch(s: RepoState): (r: Option<Branch>)
    ensures r.Some? ==> r.value.name in s.refs
    ensures GetString(s.config, GitProcessSection, None, IntegrationBranchKey).Some?
            && BranchNamed(s, GetString(s.config, GitProcessSection, None, IntegrationBranchKey).value).Some?
            ==> r == BranchNamed(s, GetString(s.config, GitProcessSection, None, IntegrationBranchKey).value)
    ensures !ConfiguredIntegrationFound(s) ==>
              r == (if RemoteConfig.HasRemotes(s.config) then IntegrationFromRemote(s) else IntegrationFromLocal(s))
  {
    var configured := match GetString(s.config, GitProcessSection, None, IntegrationBranchKey)
      case None => None
      case Some(name) => BranchNamed(s, name);
    if configured.Some? then configured
    else if RemoteConfig.HasRemotes(s.config) then IntegrationFromRemote(s)
    else IntegrationFromLocal(s)
  }

  /** `gitProcess.integrationBranch` is set and names a branch that exists. */
  predicate ConfiguredIntegrationFound(s: RepoState)
  {
    && GetString(s.config, GitProcessSection, None, IntegrationBranchKey).Some?
    && BranchNamed(s, GetString(s.config, GitProcessSection, None, IntegrationBranchKey).value).Some?
  }

  /** Without a usable configured branch, a repository with remotes integrates with `<remote>/master` whenever it has one. */
  lemma IntegrationFallsBackToRemoteMaster(s: RepoState, b: Branch)
    requires !ConfiguredIntegrationFound(s) && RemoteConfig.HasRemotes(s.config)
    requires RemoteConfig.RemoteName(s.config).Some?
    requires b in RemoteBranches(s) && ShortName(b) == RemoteConfig.RemoteName(s.config).value + "/" + Master
    ensures IntegrationBranch(s) == Some(b)
  {
    IntegrationFromRemoteComplete(s, b);
  }

  /** Without a usable configured branch and without remotes, the local `master` is the integration branch whenever it exists. */
  lemma IntegrationFallsBackToLocalMaster(s: RepoState, b: Branch)
    requires !ConfiguredIntegrationFound(s) && !RemoteConfig.HasRemotes(s.config)
    requires b in LocalBranches(s) && ShortName(b) == Master
    ensures IntegrationBranch(s) == Some(b)
  {
    IntegrationFromLocalComplete(s, b);
  }

  /**
   * There is no integration branch exactly when the configured one is missing and so is the
   * fallback: `<remote>/master` among the remote branches when there are remotes, `master`
   * among the local ones otherwise.
   */
  lemma {:induction false} NoIntegrationBranch(s: RepoState)
    ensures IntegrationBranch(s).None? <==>
              && !ConfiguredIntegrationFound(s)
              && (RemoteConfig.HasRemotes(s.config) ==>
                    forall b :: b in RemoteBranches(s) ==>
                      RemoteConfig.RemoteName(s.config).None? || ShortName(b) != RemoteConfig.RemoteName(s.config).value + "/" + Master)
              && (!RemoteConfig.HasRemotes(s.config) ==> forall b :: b in LocalBranches(s) ==> ShortName(b) != Master)
  {
    if !ConfiguredIntegrationFound(s) {
      if RemoteConfig.HasRemotes(s.config) {
        forall b | b in RemoteBranches(s) && RemoteConfig.RemoteName(s.config).Some?
          ensures IntegrationBranch(s).None? ==> ShortName(b) != RemoteConfig.RemoteName(s.config).value + "/" + Master
        {
          if ShortName(b) == RemoteConfig.RemoteName(s.config).value + "/" + Master {
            IntegrationFromRemoteComplete(s, b);
          }
        }
      } else {
        forall b | b in LocalBranches(s)
          ensures IntegrationBranch(s).None? ==> ShortName(b) != Master
        {
          if ShortName(b) == Master {
            IntegrationFromLocalComplete(s, b);
          }
        }
      }
    }
  }

  /** The integration branch depends only on the configuration and on which refs exist. */
  lemma SameKeysSameIntegration(s: RepoState, t: RepoState)
    requires s.refs.Keys == t.refs.Keys && s.head == t.head && s.config == t.config
    ensures IntegrationBranch(t) == IntegrationBranch(s)
  {
    match GetString(s.config, GitProcessSection, None, IntegrationBranchKey)
    case None =>
    case Some(name) => SameKeysSameLookups(s, t, name);
  }

  /** `integrationBranch(branch)`: stores the branch's full name. */
  function SetIntegrationBranch(c: Config, b: Branch): (r: Config)
    ensures GetString(r, GitProcessSection, None, IntegrationBranchKey) == Some(b.name)
    ensures forall k :: k in c && k != ConfigKey(GitProcessSection, None, IntegrationBranchKey) ==> k in r && r[k] == c[k]
  {
    SetString(c, GitProcessSection, None, IntegrationBranchKey, b.name)
  }

  /** A stored branch that exists under its valid full name is the integration branch from then on. */
  lemma SetIntegrationBranchRoundTrip(s: RepoState, b: Branch)
    requires b.name in s.refs && StartsWith(b.name, RRefs)
    ensures IntegrationBranch(s.(config := SetIntegrationBranch(s.config, b))) == Some(b)
  {
    assert SearchPath[0] + b.name == b.name;
  }

  method StoreIntegrationBranch(g: GitLib, b: Branch)
    modifies g
    ensures g.State() == old(g.State()).(config := SetIntegrationBranch(old(g.config), b))
    ensures g.events == old(g.events)
  {
    g.config := SetIntegrationBranch(g.config, b);
  }

  // ---------------------------------------------------------------------------------------------
  // Upstream

  function RemoteKeyOf(b: Branch): ConfigKey
  {
    ConfigKey(BranchSection, Some(ShortName(b)), RemoteKey)
  }

  function MergeKeyOf(b: Branch): ConfigKey
  {
    ConfigKey(BranchSection, Some(ShortName(b)), MergeKey)
  }

  /**
   * `setUpstream(branch, upstream)`: a remote upstream `<remote>/<x>` is stored as remote
   * `<remote>` and merge `refs/heads/<x>`; any other upstream as remote `.` and merge its short
   * name.
   */
  function SetUpstream(c: Config, b: Branch, upstream: Branch): (r: Config)
    ensures r.Keys == c.Keys + {RemoteKeyOf(b), MergeKeyOf(b)}
    ensures RemoteName(c, upstream).Some? ==>
              && r[RemoteKeyOf(b)] == RemoteName(c, upstream).value
              && r[MergeKeyOf(b)] == RHeads + SimpleName(c, upstream).value
    ensures RemoteName(c, upstream).None? ==> r[RemoteKeyOf(b)] == "." && r[MergeKeyOf(b)] == ShortName(upstream)
    ensures forall k :: k in c && k != RemoteKeyOf(b) && k != MergeKeyOf(b) ==> r[k] == c[k]
  {
    match RemoteName(c, upstream)
    case Some(remote) => StoreUpstreamKeys(c, b, remote, RHeads + SimpleName(c, upstream).value)
    case None => StoreUpstreamKeys(c, b, ".", ShortName(upstream))
  }

  /** Stores the two settings of `b`'s upstream, leaving every other setting alone. */
  function StoreUpstreamKeys(c: Config, b: Branch, remote: string, merge: string): (r: Config)
    ensures r.Keys == c.Keys + {RemoteKeyOf(b), MergeKeyOf(b)}
    ensures r[RemoteKeyOf(b)] == remote && r[MergeKeyOf(b)] == merge
    ensures forall k :: k in c && k != RemoteKeyOf(b) && k != MergeKeyOf(b) ==> r[k] == c[k]
  {
    assert RemoteKeyOf(b) != MergeKeyOf(b);
    c[RemoteKeyOf(b) := remote][MergeKeyOf(b) := merge]
  }

  method StoreUpstream(g: GitLib, b: Branch, upstream: Branch)
    modifies g
    ensures g.State() == old(g.State()).(config := SetUpstream(old(g.config), b, upstream))
    ensures g.events == old(g.events)
  {
    g.config := SetUpstream(g.config, b, upstream);
  }

  /**
   * `getUpstream(branch)`: nothing when no upstream remote is set; a remote without a merge
   * setting is an invalid git state; otherwise the branch `<remote>/<merge>` (just `<merge>` for
   * remote `.`), which must exist.
   */
  function GetUpstream(s: RepoState, b: Branch): (r: Try<Option<Branch>>)
    ensures RemoteKeyOf(b) !in s.config <==> r == Ok(None)
    ensures RemoteKeyOf(b) in s.config && MergeKeyOf(b) !in s.config ==> r.Thrown? && r.ex.IllegalState?
    ensures r.Ok? && r.value.Some? ==> r.value.value.name in s.refs
  {
    match GetString(s.config, BranchSection, Some(ShortName(b)), RemoteKey)
    case None => Ok(None)
    case Some(remote) =>
      var remotePath := if remote == "." then "" else remote + "/";
      match GetString(s.config, BranchSection, Some(ShortName(b)), MergeKey)
      case None =>
        Thrown(IllegalState("There is no configuration value for \"" + BranchSection + "." + ShortName(b) + "." + MergeKey
                            + "\", which is an invalid Git state"))
      case Some(merge) =>
        var fullRemotePath := remotePath + ShortenRefName(merge);
        match BranchNamed(s, fullRemotePath)
        case None =>
          Thrown(IllegalArgument("The upstream for \"" + ShortName(b) + "\" (\"" + fullRemotePath + "\") does not exist"))
        case Some(upstream) => Ok(Some(upstream))
  }

  /** A remote named `.` cannot come out of a well-formed remote-tracking ref. */
  lemma NoDotRemote(c: Config, upstream: Branch)
    requires IsValidRefName(upstream.name) && RemoteName(c, upstream).Some?
    ensures RemoteName(c, upstream).value != "."
  {
    var remote := RemoteName(c, upstream).value;
    RemoteNameShape(c, upstream);
    NoDotPrefix(upstream.name, remote);
  }

  lemma NoDotPrefix(n: string, remote: string)
    requires IsValidRefName(n) && StartsWith(n, RRemotes)
    requires |RRemotes| + |remote| < |n| && n[|RRemotes|..|RRemotes| + |remote| + 1] == remote + "/"
    ensures remote != "."
  {
    assert n[12] == RRemotes[12] == '/';
    ValidRefNameNoDotComponent(n, 12);
    if |remote| > 0 {
      assert remote[0] == (remote + "/")[0] == n[13];
    }
  }

  /** A remote branch with a remote part is `refs/remotes/<remote>/...`. */
  lemma RemoteNameShape(c: Config, upstream: Branch)
    requires RemoteName(c, upstream).Some?
    ensures var remote := RemoteName(c, upstream).value;
            StartsWith(upstream.name, RRemotes) && |RRemotes| + |remote| < |upstream.name| && upstream.name[|RRemotes|..|RRemotes| + |remote| + 1] == remote + "/"
  {
    var n := upstream.name;
    var remote := RemoteName(c, upstream).value;
    var short := n[|RRemotes|..];
    PrefixAndRest(n, RRemotes);
    ShortenRemotes(short);
    assert |remote| < |short| && remote + "/" == short[..|remote| + 1];
    SliceOfSuffix(n, |RRemotes|, remote + "/");
  }

  /** A prefix of the suffix from `k` is the slice at `k`. */
  lemma SliceOfSuffix(n: string, k: nat, w: string)
    requires k + |w| <= |n| && n[k..][..|w|] == w
    ensures n[k..k + |w|] == w
  {
  }

  lemma ValidRefNameNoDotComponent(n: string, i: nat)
    requires IsValidRefName(n) && i + 1 < |n| && n[i] == '/'
    ensures n[i + 1] != '.'
  {
    assert !PairAt(n, i, '/', '.');
  }

  /**
   * The upstream that is stored is the one read back, when looking up the upstream's short name
   * finds the upstream itself (no ref of the same short name shadows it).
   */
  lemma SetUpstreamRoundTrip(s: RepoState, b: Branch, upstream: Branch)
    requires WellFormed(s) && upstream.name in s.refs
    requires !StartsWith(ShortName(upstream), RRefs)
    requires BranchNamed(s, ShortName(upstream)) == Some(upstream)
    ensures GetUpstream(s.(config := SetUpstream(s.config, b, upstream)), b) == Ok(Some(upstream))
  {
    match RemoteName(s.config, upstream)
    case Some(remote) => SetUpstreamRoundTripRemote(s, b, upstream, remote);
    case None => SetUpstreamRoundTripLocal(s, b, upstream);
  }

  lemma SetUpstreamRoundTripRemote(s: RepoState, b: Branch, upstream: Branch, remote: string)
    requires WellFormed(s) && upstream.name in s.refs && RemoteName(s.config, upstream) == Some(remote)
    requires BranchNamed(s, ShortName(upstream)) == Some(upstream)
    ensures GetUpstream(s.(config := SetUpstream(s.config, b, upstream)), b) == Ok(Some(upstream))
  {
    var c := SetUpstream(s.config, b, upstream);
    NoDotRemote(s.config, upstream);
    var x := SimpleName(s.config, upstream).value;
    assert GetString(c, BranchSection, Some(ShortName(b)), RemoteKey) == Some(remote);
    assert GetString(c, BranchSection, Some(ShortName(b)), MergeKey) == Some(RHeads + x);
    ShortenHeads(x);
    assert ShortName(upstream) == remote + "/" + x;
  }

  lemma SetUpstreamRoundTripLocal(s: RepoState, b: Branch, upstream: Branch)
    requires RemoteName(s.config, upstream).None?
    requires !StartsWith(ShortName(upstream), RRefs)
    requires BranchNamed(s, ShortName(upstream)) == Some(upstream)
    ensures GetUpstream(s.(config := SetUpstream(s.config, b, upstream)), b) == Ok(Some(upstream))
  {
    var c := SetUpstream(s.config, b, upstream);
    assert GetString(c, BranchSection, Some(ShortName(b)), RemoteKey) == Some(".");
    assert GetString(c, BranchSection, Some(ShortName(b)), MergeKey) == Some(ShortName(upstream));
    assert ShortenRefName(ShortName(upstream)) == ShortName(upstream);
    assert "" + ShortName(upstream) == ShortName(upstream);
  }

}

/**
 * `PullReqCreator`: the JSON body of a pull request (a titled one, or one made from an issue),
 * posting it and reading the answer, and the builder that picks the branches and connects to
 * GitHub.
 *
 * The HTTP exchange is a reply datatype; the connection is `GitHub.Connection`.
 */
module PullReqCreator {
  import opened Wrappers
  import opened Repo
  import opened BranchRefs
  import BranchConfig
  import GitHub
  import RemoteConfig

  /** A JSON value as the creators write it. */
  datatype JsonValue = JString(text: string) | JInt(number: int)

  /** A JSON object: its members in the order they were added. */
  type JsonObject = seq<(string, JsonValue)>

  /** The names of an object's members, in order. */
  function Keys(obj: JsonObject): (r: seq<string>)
    ensures |r| == |obj| && forall i :: 0 <= i < |obj| ==> r[i] == obj[i].0
  {
    if |obj| == 0 then [] else [obj[0].0] + Keys(obj[1..])
  }

  /** The value of member `key`. */
  function Lookup(obj: JsonObject, key: string): (r: Option<JsonValue>)
    ensures r.None? <==> key !in Keys(obj)
  {
    if |obj| == 0 then None
    else if obj[0].0 == key then Some(obj[0].1)
    else
      assert Keys(obj) == [obj[0].0] + Keys(obj[1..]);
      Lookup(obj[1..], key)
  }

  /** The value found is the first member with that name. */
  lemma {:induction false} LookupFindsFirst(obj: JsonObject, key: string)
    ensures Lookup(obj, key).Some? ==>
              exists i :: 0 <= i < |obj| && obj[i] == (key, Lookup(obj, key).value) && key !in Keys(obj[..i])
  {
    if |obj| > 0 && obj[0].0 != key && Lookup(obj, key).Some? {
      LookupFindsFirst(obj[1..], key);
      var i :| 0 <= i < |obj[1..]| && obj[1..][i] == (key, Lookup(obj, key).value) && key !in Keys(obj[1..][..i]);
      assert obj[i + 1] == (key, Lookup(obj, key).value);
      assert obj[..i + 1] == [obj[0]] + obj[1..][..i];
      assert Keys(obj[..i + 1]) == [obj[0].0] + Keys(obj[1..][..i]);
    } else if |obj| > 0 && obj[0].0 == key {
      assert obj[..0] == [];
    }
  }

  /** What a creator sends: a title and an optional body, or the number of an issue to turn into a pull request. */
  datatype Kind = Standard(title: string, body: Option<string>) | FromIssue(issueId: Option<int>)

  /** A `PullReqCreator`: the repository, the head and base branches and what kind of request it makes. */
  datatype Creator = Creator(gitHubRepo: GitHub.Connection, headBranch: Branch, baseBranch: Branch, kind: Kind)

  /**
   * `createPrJson()`. A titled request sends `head` and `base` as the branches' simple names,
   * then `title`, then `body` only when there is one; an issue request sends the short names
   * and the issue number (unboxing a missing number is a null dereference). A simple name that
   * cannot be computed throws.
   */
  function CreatePrJson(c: Config.Config, creator: Creator): (r: Try<JsonObject>)
  {
    match creator.kind
    case Standard(title, body) =>
      StandardJson(SimpleName(c, creator.headBranch), SimpleName(c, creator.baseBranch), title, body)
    case FromIssue(issueId) =>
      if issueId.None? then Thrown(NullDereference)
      else Ok([("head", JString(ShortName(creator.headBranch))), ("base", JString(ShortName(creator.baseBranch))),
               ("issue", JInt(issueId.value))])
  }

  /** A titled request's members, once the head's and then the base's simple names have been computed. */
  function StandardJson(head: Try<string>, base: Try<string>, title: string, body: Option<string>): Try<JsonObject>
  {
    match head
    case Thrown(e) => Thrown(e)
    case Ok(h) =>
      match base
      case Thrown(e) => Thrown(e)
      case Ok(b) =>
        var obj := [("head", JString(h)), ("base", JString(b)), ("title", JString(title))];
        if body.Some? then Ok(obj + [("body", JString(body.value))]) else Ok(obj)
  }

  lemma StandardJsonShape(head: Try<string>, base: Try<string>, title: string, body: Option<string>)
    ensures var r := StandardJson(head, base, title, body);
            && (head.Thrown? ==> r == Thrown(head.ex))
            && (head.Ok? && base.Thrown? ==> r == Thrown(base.ex))
            && (r.Ok? <==> head.Ok? && base.Ok?)
            && (r.Ok? ==>
                  && Keys(r.value) == ["head", "base", "title"] + (if body.Some? then ["body"] else [])
                  && Lookup(r.value, "head") == Some(JString(head.value))
                  && Lookup(r.value, "base") == Some(JString(base.value))
                  && Lookup(r.value, "title") == Some(JString(title))
                  && (body.Some? ==> Lookup(r.value, "body") == Some(JString(body.value)))
                  && (body.None? ==> Lookup(r.value, "body").None?))
  {
    if head.Ok? && base.Ok? {
      var obj := [("head", JString(head.value)), ("base", JString(base.value)), ("title", JString(title))];
      var tail := if body.Some? then [("body", JString(body.value))] else [];
      assert StandardJson(head, base, title, body).value == obj + tail;
      FirstThree(obj, tail);
    }
  }

  /** A titled request's JSON: the simple names, the title and the body when there is one, or the first exception. */
  lemma StandardJsonFacts(c: Config.Config, creator: Creator)
    requires creator.kind.Standard?
    ensures var r := CreatePrJson(c, creator);
            && (SimpleName(c, creator.headBranch).Thrown? ==> r == Thrown(SimpleName(c, creator.headBranch).ex))
            && (SimpleName(c, creator.headBranch).Ok? && SimpleName(c, creator.baseBranch).Thrown? ==>
                  r == Thrown(SimpleName(c, creator.baseBranch).ex))
            && (r.Ok? <==> SimpleName(c, creator.headBranch).Ok? && SimpleName(c, creator.baseBranch).Ok?)
            && (r.Ok? ==>
                  && Keys(r.value) == ["head", "base", "title"] + (if creator.kind.body.Some? then ["body"] else [])
                  && Lookup(r.value, "head") == Some(JString(SimpleName(c, creator.headBranch).value))
                  && Lookup(r.value, "base") == Some(JString(SimpleName(c, creator.baseBranch).value))
                  && Lookup(r.value, "title") == Some(JString(creator.kind.title))
                  && (creator.kind.body.Some? ==> Lookup(r.value, "body") == Some(JString(creator.kind.body.value)))
                  && (creator.kind.body.None? ==> Lookup(r.value, "body").None?))
  {
    StandardJsonShape(SimpleName(c, creator.headBranch), SimpleName(c, creator.baseBranch), creator.kind.title, creator.kind.body);
  }

  /** The first three members of an object that starts with three differently named ones. */
  lemma FirstThree(obj: JsonObject, tail: JsonObject)
    requires |obj| == 3 && obj[0].0 == "head" && obj[1].0 == "base" && obj[2].0 == "title"
    requires |tail| <= 1 && (|tail| == 1 ==> tail[0].0 == "body")
    ensures Keys(obj + tail) == ["head", "base", "title"] + Keys(tail)
    ensures Lookup(obj + tail, "head") == Some(obj[0].1)
    ensures Lookup(obj + tail, "base") == Some(obj[1].1)
    ensures Lookup(obj + tail, "title") == Some(obj[2].1)
    ensures |tail| == 1 ==> Lookup(obj + tail, "body") == Some(tail[0].1)
    ensures |tail| == 0 ==> Lookup(obj + tail, "body").None?
  {
    var all := obj + tail;
    assert all[1..][1..][1..] == tail;
    assert Lookup(all, "base") == Lookup(all[1..], "base");
    assert Lookup(all, "title") == Lookup(all[1..], "title") == Lookup(all[1..][1..], "title");
    assert Lookup(all, "body") == Lookup(all[1..], "body") == Lookup(all[1..][1..], "body") == Lookup(tail, "body");
  }

  /** An issue request's JSON: the short names and the issue number, or a null dereference without a number. */
  lemma IssueJsonFacts(c: Config.Config, creator: Creator)
    requires creator.kind.FromIssue?
    ensures var r := CreatePrJson(c, creator);
            && (creator.kind.issueId.None? <==> r.Thrown?)
            && (r.Thrown? ==> r.ex == NullDereference)
            && (r.Ok? ==>
                  && Keys(r.value) == ["head", "base", "issue"]
                  && Lookup(r.value, "head") == Some(JString(ShortName(creator.headBranch)))
                  && Lookup(r.value, "base") == Some(JString(ShortName(creator.baseBranch)))
                  && Lookup(r.value, "issue") == Some(JInt(creator.kind.issueId.value)))
  {
    var r := CreatePrJson(c, creator);
    if r.Ok? {
      assert r.value[1..][1..][1..] == [];
      assert Lookup(r.value, "base") == Lookup(r.value[1..], "base");
      assert Lookup(r.value, "issue") == Lookup(r.value[1..], "issue") == Lookup(r.value[1..][1..], "issue");
    }
  }

  /** What GitHub answers to the POST: a failure to send or read, or a status with its failure text and the body. */
  datatype HttpReply = RequestFailed(cause: string) | Responded(status: int, statusFailure: string, body: JsonObject)

  /** `HttpURLConnection.HTTP_CREATED`. */
  const HttpCreated: int := 201

  /** `PullRequest`: the JSON object GitHub answered with. */
  datatype PullRequest = PullRequest(json: JsonObject)

  /** The outcome of `createPR()` and the JSON it posted, if it got that far. */
  datatype Posting = Posting(result: Try<Either<PullRequest>>, sent: Option<JsonObject>)

  /**
   * `createPR()`: builds the JSON (which may throw, before anything is sent), posts it, and
   * answers `Right` only for a `201 Created` reply; a failed request or any other status is a
   * `Left` carrying the failure's text.
   */
  function CreatePR(c: Config.Config, creator: Creator, reply: HttpReply): (r: Posting)
    ensures CreatePrJson(c, creator).Thrown? ==> r == Posting(Thrown(CreatePrJson(c, creator).ex), None)
    ensures CreatePrJson(c, creator).Ok? ==> r.sent == Some(CreatePrJson(c, creator).value) && r.result.Ok?
    ensures r.result.Ok? && r.result.value.Right? <==>
              CreatePrJson(c, creator).Ok? && reply.Responded? && reply.status == HttpCreated
    ensures r.result.Ok? && r.result.value.Right? ==> r.result.value.value == PullRequest(reply.body)
    ensures CreatePrJson(c, creator).Ok? && reply.RequestFailed? ==> r.result == Ok(Left(reply.cause))
    ensures CreatePrJson(c, creator).Ok? && reply.Responded? && reply.status != HttpCreated ==>
              r.result == Ok(Left(reply.statusFailure))
  {
    match CreatePrJson(c, creator)
    case Thrown(e) => Posting(Thrown(e), None)
    case Ok(json) =>
      var result :=
        match reply
        case RequestFailed(cause) => Left(cause)
        case Responded(status, failure, body) => if status == HttpCreated then Right(PullRequest(body)) else Left(failure);
      Posting(Ok(result), Some(json))
  }

  const NoCurrentBranchMessage: string := "No branch is currently checked out"
  const NoIntegrationBranchMessage: string := "Could not determine an integration branch"

  /**
   * `createGitHubRepo()`: a GitHub builder given the repository (whose remote names the owner and
   * project), a token from the `Authorizer` (`authorizedToken`; given the user name and password
   * when a user name was set, else fetched by the builder itself since it has a repository and
   * no token) and the remote name when one was set. The working directory only appears in the
   * error for a repository without a name.
   */
  function GitHubRepoFor(c: Config.Config, remoteName: Option<string>, authorizedToken: string, workingDirectory: string): (r: Try<GitHub.Connection>)
  {
    match RemoteConfig.RepositoryName(c)
    case Thrown(e) => Thrown(e)
    case Ok(None) => Thrown(IllegalState("Can not find a repository name for " + workingDirectory))
    case Ok(Some(name)) =>
      match GitHub.SplitRepoName(name)
      case Thrown(e) => Thrown(e)
      case Ok(pair) =>
        match GitHub.CreateGithub(None, remoteName, Ok(c), Some(authorizedToken), None, None)
        case Thrown(e) => Thrown(e)
        case Ok(created) => Ok(GitHub.Connection(created.0, created.1, pair.0, pair.1))
  }

  /**
   * The repository `createGitHubRepo()` connects to is the one its remote names, through that
   * remote (or the one set explicitly), always with token authentication.
   */
  lemma GitHubRepoForConnects(c: Config.Config, remoteName: Option<string>, authorizedToken: string, workingDirectory: string)
    ensures var r := GitHubRepoFor(c, remoteName, authorizedToken, workingDirectory);
            && (RemoteConfig.RepositoryName(c) == Ok(None) ==>
                  r == Thrown(IllegalState("Can not find a repository name for " + workingDirectory)))
            && (r.Ok? ==>
                  && RemoteConfig.RepositoryName(c).Ok? && RemoteConfig.RepositoryName(c).value.Some?
                  && GitHub.SplitRepoName(RemoteConfig.RepositoryName(c).value.value) == Ok((r.value.repoUser, r.value.projectName))
                  && r.value.auth == GitHub.TokenAuth(authorizedToken)
                  && var remote := if remoteName.Some? then remoteName else RemoteConfig.RemoteName(c);
                     remote.Some? && GitHub.GetServerApiUri(c, remote.value) == Ok(r.value.serverApiUri))
  {
  }

  /** Everything a `PullReqCreator.Builder` has gathered. */
  datatype Settings = Settings(
    gitLib: Option<GitLib>, headBranch: Option<Branch>, baseBranch: Option<Branch>, title: Option<string>,
    body: Option<string>, issueId: Option<int>, username: Option<string>, password: Option<string>,
    remoteName: Option<string>)

  /**
   * `Builder.build()` as written: the head and base are always the current branch and the
   * integration branch (a missing one throws), whatever `headBranch` and `baseBranch` were set
   * to; a title makes a titled request, otherwise an issue request.
   */
  function CreatorAsWritten(s: RepoState, st: Settings, authorizedToken: string, workingDirectory: string): (r: Try<Creator>)
    ensures CurrentBranch(s).None? ==> r == Thrown(IllegalState(NoCurrentBranchMessage))
    ensures CurrentBranch(s).Some? && BranchConfig.IntegrationBranch(s).None? ==> r == Thrown(IllegalState(NoIntegrationBranchMessage))
    ensures r.Ok? <==>
              CurrentBranch(s).Some? && BranchConfig.IntegrationBranch(s).Some?
              && GitHubRepoFor(s.config, st.remoteName, authorizedToken, workingDirectory).Ok?
    ensures r.Ok? ==> r.value.gitHubRepo == GitHubRepoFor(s.config, st.remoteName, authorizedToken, workingDirectory).value
  {
    match CurrentBranch(s)
    case None => Thrown(IllegalState(NoCurrentBranchMessage))
    case Some(current) =>
      match BranchConfig.IntegrationBranch(s)
      case None => Thrown(IllegalState(NoIntegrationBranchMessage))
      case Some(integration) =>
        match GitHubRepoFor(s.config, st.remoteName, authorizedToken, workingDirectory)
        case Thrown(e) => Thrown(e)
        case Ok(repo) =>
          Ok(Creator(repo, current, integration, if st.title.Some? then Standard(st.title.value, st.body) else FromIssue(st.issueId)))
  }

  /**
   * The branches given to the builder play no part: a request built with a head branch other
   * than the current branch still asks to pull the current branch.
   */
  lemma AsWrittenIgnoresChosenBranches(s: RepoState, st: Settings, authorizedToken: string, workingDirectory: string)
    ensures var r := CreatorAsWritten(s, st, authorizedToken, workingDirectory);
            && (r.Ok? ==> r.value.headBranch == CurrentBranch(s).value && r.value.baseBranch == BranchConfig.IntegrationBranch(s).value)
            && (r.Ok? && st.headBranch.Some? && st.headBranch.value != CurrentBranch(s).value ==>
                  r.value.headBranch != st.headBranch.value)
            && (r.Ok? && st.baseBranch.Some? && st.baseBranch.value != BranchConfig.IntegrationBranch(s).value ==>
                  r.value.baseBranch != st.baseBranch.value)
  {
  }

  /**
   * `Builder.build()` as evidently intended: the head is the branch given to the builder, else
   * the current branch; the base is the branch given, else the integration branch (a missing
   * default throws as before); the rest is as written.
   */
  function CreatorFor(s: RepoState, st: Settings, authorizedToken: string, workingDirectory: string): (r: Try<Creator>)
    ensures st.headBranch.None? && CurrentBranch(s).None? ==> r == Thrown(IllegalState(NoCurrentBranchMessage))
    ensures (st.headBranch.Some? || CurrentBranch(s).Some?) && st.baseBranch.None? && BranchConfig.IntegrationBranch(s).None? ==>
              r == Thrown(IllegalState(NoIntegrationBranchMessage))
    ensures r.Ok? <==>
              (st.headBranch.Some? || CurrentBranch(s).Some?) && (st.baseBranch.Some? || BranchConfig.IntegrationBranch(s).Some?)
              && GitHubRepoFor(s.config, st.remoteName, authorizedToken, workingDirectory).Ok?
    ensures r.Ok? ==> r.value.gitHubRepo == GitHubRepoFor(s.config, st.remoteName, authorizedToken, workingDirectory).value
  {
    var head := if st.headBranch.Some? then st.headBranch else CurrentBranch(s);
    var base := if st.baseBranch.Some? then st.baseBranch else BranchConfig.IntegrationBranch(s);
    if head.None? then Thrown(IllegalState(NoCurrentBranchMessage))
    else if base.None? then Thrown(IllegalState(NoIntegrationBranchMessage))
    else
      match GitHubRepoFor(s.config, st.remoteName, authorizedToken, workingDirectory)
      case Thrown(e) => Thrown(e)
      case Ok(repo) =>
        Ok(Creator(repo, head.value, base.value, if st.title.Some? then Standard(st.title.value, st.body) else FromIssue(st.issueId)))
  }

  /**
   * The intended builder pulls exactly the branches it was given, falls back to the current and
   * integration branches only when none was given, and otherwise agrees with the code: with no
   * branch given the two are the same.
   */
  lemma CreatorUsesChosenBranches(s: RepoState, st: Settings, authorizedToken: string, workingDirectory: string)
    ensures var r := CreatorFor(s, st, authorizedToken, workingDirectory);
            && (r.Ok? ==> r.value.headBranch == (if st.headBranch.Some? then st.headBranch.value else CurrentBranch(s).value))
            && (r.Ok? ==> r.value.baseBranch == (if st.baseBranch.Some? then st.baseBranch.value else BranchConfig.IntegrationBranch(s).value))
            && (r.Ok? ==> r.value.kind == if st.title.Some? then Standard(st.title.value, st.body) else FromIssue(st.issueId))
            && (st.headBranch.None? && CurrentBranch(s).None? ==> r == Thrown(IllegalState(NoCurrentBranchMessage)))
            && (st.headBranch.None? && st.baseBranch.None? ==> r == CreatorAsWritten(s, st, authorizedToken, workingDirectory))
  {
  }

  /** `PullReqCreator.Builder`: each setter records one value; `build()` makes the creator. */
  class Builder {
    var gitLib: Option<GitLib>
    var headBranch: Option<Branch>
    var baseBranch: Option<Branch>
    var title: Option<string>
    var body: Option<string>
    var issueId: Option<int>
    var username: Option<string>
    var password: Option<string>
    var remoteName: Option<string>

    function Current(): Settings
      reads this
    {
      Settings(gitLib, headBranch, baseBranch, title, body, issueId, username, password, remoteName)
    }

    constructor ()
      ensures Current() == Settings(None, None, None, None, None, None, None, None, None)
    {
      gitLib := None;
      headBranch := None;
      baseBranch := None;
      title := None;
      body := None;
      issueId := None;
      username := None;
      password := None;
      remoteName := None;
    }

    method SetGitLib(g: GitLib)
      modifies this
      ensures Current() == old(Current()).(gitLib := Some(g))
    {
      gitLib := Some(g);
    }

    method SetHeadBranch(b: Branch)
      modifies this
      ensures Current() == old(Current()).(headBranch := Some(b))
    {
      headBranch := Some(b);
    }

    method SetBaseBranch(b: Branch)
      modifies this
      ensures Current() == old(Current()).(baseBranch := Some(b))
    {
      baseBranch := Some(b);
    }

    method SetTitle(t: string)
      modifies this
      ensures Current() == old(Current()).(title := Some(t))
    {
      title := Some(t);
    }

    method SetBody(text: string)
      modifies this
      ensures Current() == old(Current()).(body := Some(text))
    {
      body := Some(text);
    }

    method SetIssueId(id: int)
      modifies this
      ensures Current() == old(Current()).(issueId := Some(id))
    {
      issueId := Some(id);
    }

    method SetUsername(name: string)
      modifies this
      ensures Current() == old(Current()).(username := Some(name))
    {
      username := Some(name);
    }

    method SetPassword(secret: string)
      modifies this
      ensures Current() == old(Current()).(password := Some(secret))
    {
      password := Some(secret);
    }

    method SetRemoteName(name: string)
      modifies this
      ensures Current() == old(Current()).(remoteName := Some(name))
    {
      remoteName := Some(name);
    }

    /** `createGitHubRepo()`: drives a fresh `GitHubRepoBuilder` and builds it. */
    method CreateGitHubRepo(authorizedToken: string, workingDirectory: string) returns (r: Try<GitHub.Connection>)
      requires gitLib.Some?
      ensures r == GitHubRepoFor(gitLib.value.config, remoteName, authorizedToken, workingDirectory)
    {
      var g := gitLib.value;
      var gh := new GitHub.GitHubRepoBuilder();
      var linked := gh.SetGitLib(g, workingDirectory);
      if linked.Thrown? {
        return Thrown(linked.ex);
      }
      if username.Some? {
        gh.SetOauth2Token(authorizedToken);
      }
      if remoteName.Some? {
        gh.SetRemoteName(remoteName.value);
      }
      r := gh.Build(authorizedToken, Ok(g.config));
    }

    /** `build()` as written: see `CreatorAsWritten`. */
    method BuildAsWritten(authorizedToken: string, workingDirectory: string) returns (r: Try<Creator>)
      requires gitLib.Some?
      ensures r == CreatorAsWritten(gitLib.value.State(), Current(), authorizedToken, workingDirectory)
    {
      var s := gitLib.value.State();
      var current := CurrentBranch(s);
      if current.None? {
        return Thrown(IllegalState(NoCurrentBranchMessage));
      }
      var integration := BranchConfig.IntegrationBranch(s);
      if integration.None? {
        return Thrown(IllegalState(NoIntegrationBranchMessage));
      }
      var repo := CreateGitHubRepo(authorizedToken, workingDirectory);
      if repo.Thrown? {
        return Thrown(repo.ex);
      }
      var kind := if title.Some? then Standard(title.value, body) else FromIssue(issueId);
      r := Ok(Creator(repo.value, current.value, integration.value, kind));
    }

    /** `build()` as evidently intended: see `CreatorFor`. */
    method Build(authorizedToken: string, workingDirectory: string) returns (r: Try<Creator>)
      requires gitLib.Some?
      ensures r == CreatorFor(gitLib.value.State(), Current(), authorizedToken, workingDirectory)
    {
      var s := gitLib.value.State();
      var head := if headBranch.Some? then headBranch else CurrentBranch(s);
      if head.None? {
        return Thrown(IllegalState(NoCurrentBranchMessage));
      }
      var base := if baseBranch.Some? then baseBranch else BranchConfig.IntegrationBranch(s);
      if base.None? {
        return Thrown(IllegalState(NoIntegrationBranchMessage));
      }
      var repo := CreateGitHubRepo(authorizedToken, workingDirectory);
      if repo.Thrown? {
        return Thrown(repo.ex);
      }
      var kind := if title.Some? then Standard(title.value, body) else FromIssue(issueId);
      r := Ok(Creator(repo.value, head.value, base.value, kind));
    }
  }
}

/**
 * The command runners: how a built runner turns the options and the command's outcome into an
 * exit code, and how `git pull-req` picks the branches, title and credentials it hands to the
 * pull-request creator.
 */
module Runner {
  import opened Wrappers
  import opened Repo
  import opened BranchRefs
  import BranchConfig
  import Cli
  import PullReqCreator

  /** `Runner.STOP_ON_OPTIONS_CODE`: the options said not to run (help, version, an error). */
  const StopOnOptionsCode: int := 1
  /** `Runner.STOP_ON_FUNCTION_CODE`: the command ran and reported a problem. */
  const StopOnFunctionCode: int := 2

  /** `valueToExitCode(value)`: 0 for a `Right`, `STOP_ON_FUNCTION_CODE` for a `Left`. */
  function ValueToExitCode<V>(value: Either<V>): (code: int)
    ensures code == 0 <==> value.Right?
    ensures code == StopOnFunctionCode <==> value.Left?
  {
    if value.Right? then 0 else StopOnFunctionCode
  }

  /**
   * `AbstractRunner.run()`: `STOP_ON_OPTIONS_CODE` without options; otherwise the exit code of
   * what the command's main function answers (an exception it throws escapes).
   */
  function Run<O, V>(options: Option<O>, mainFunc: O -> Try<Either<V>>): (r: Try<int>)
  {
    match options
    case None => Ok(StopOnOptionsCode)
    case Some(o) =>
      match mainFunc(o)
      case Thrown(e) => Thrown(e)
      case Ok(value) => Ok(ValueToExitCode(value))
  }

  /** What `AbstractBuilder.build()` returns: an `ErrorRunner` with the options' message, or the command's runner. */
  datatype BuiltRunner<O> = ErrorRunner(errorMsg: string) | CommandRunner(gitLib: Option<GitLib>, options: O)

  /** `run()` of a built runner; `ErrorRunner.run()` prints its message and stops with `STOP_ON_OPTIONS_CODE`. */
  function RunBuilt<O, V>(runner: BuiltRunner<O>, mainFunc: O -> Try<Either<V>>): (r: Try<int>)
  {
    match runner
    case ErrorRunner(_) => Ok(StopOnOptionsCode)
    case CommandRunner(_, o) => Run(Some(o), mainFunc)
  }

  /**
   * The exit code says what happened: 0 exactly when the command ran and succeeded, 1 exactly
   * when the options stopped it before it ran, 2 exactly when it ran and answered a problem.
   */
  lemma ExitCodes<O, V>(runner: BuiltRunner<O>, mainFunc: O -> Try<Either<V>>)
    ensures RunBuilt(runner, mainFunc) == Ok(0) <==> runner.CommandRunner? && mainFunc(runner.options).Ok? && mainFunc(runner.options).value.Right?
    ensures RunBuilt(runner, mainFunc) == Ok(StopOnOptionsCode) <==> runner.ErrorRunner?
    ensures RunBuilt(runner, mainFunc) == Ok(StopOnFunctionCode) <==>
              runner.CommandRunner? && mainFunc(runner.options).Ok? && mainFunc(runner.options).value.Left?
    ensures RunBuilt(runner, mainFunc).Thrown? <==> runner.CommandRunner? && mainFunc(runner.options).Thrown?
  {
  }

  /** `AbstractRunner.B.AbstractBuilder`: records the repository and the parsed options, then builds the runner. */
  class AbstractBuilder<O> {
    var gitLib: Option<GitLib>
    var eOptions: Option<Either<O>>

    constructor ()
      ensures gitLib.None? && eOptions.None?
    {
      gitLib := None;
      eOptions := None;
    }

    method SetGitLib(g: GitLib)
      modifies this
      ensures gitLib == Some(g) && eOptions == old(eOptions)
    {
      gitLib := Some(g);
    }

    /** `cliArgs(args)`: `options` is what the command's `create(args)` answered. */
    method CliArgs(options: Either<O>)
      modifies this
      ensures eOptions == Some(options) && gitLib == old(gitLib)
    {
      eOptions := Some(options);
    }

    /**
     * `build()`: options that failed give an `ErrorRunner` with their message, parsed options
     * give the command's runner; building before `cliArgs` dereferences null.
     */
    method Build() returns (r: Try<BuiltRunner<O>>)
      ensures eOptions.None? ==> r == Thrown(NullDereference)
      ensures eOptions.Some? && eOptions.value.Left? ==> r == Ok(ErrorRunner(eOptions.value.msg))
      ensures eOptions.Some? && eOptions.value.Right? ==> r == Ok(CommandRunner(gitLib, eOptions.value.value))
    {
      if eOptions.None? {
        return Thrown(NullDereference);
      }
      match eOptions.value
      case Left(msg) =>
        r := Ok(ErrorRunner(msg));
      case Right(o) =>
        r := Ok(CommandRunner(gitLib, o));
    }
  }

  // ---------------------------------------------------------------- git pull-req

  const NoHeadBranchMessage: string := "Not checked out on a branch, and no head branch was passed in"
  const NoBaseBranchMessage: string := "No integration branch has been set or can be derived, and no base branch was passed in"

  function BranchNotFoundMessage(name: string): string
  {
    "Could not find branch named \"" + name + "\""
  }

  /**
   * `headBranch(opts, branches)`: the branch `--head-branch` names, which must exist, or else
   * the current branch, which must be checked out.
   */
  function HeadBranch(os: Cli.OptionSet, s: RepoState): (r: Try<Branch>)
    ensures Cli.HeadBranchName(os).Some? ==>
              var name := Cli.HeadBranchName(os).value;
              && (r.Ok? <==> BranchNamed(s, name).Some?)
              && (r.Ok? ==> Some(r.value) == BranchNamed(s, name))
              && (r.Thrown? ==> r.ex == IllegalState(BranchNotFoundMessage(name)))
    ensures Cli.HeadBranchName(os).None? ==>
              && (r.Ok? <==> CurrentBranch(s).Some?)
              && (r.Ok? ==> Some(r.value) == CurrentBranch(s))
              && (r.Thrown? ==> r.ex == IllegalState(NoHeadBranchMessage))
  {
    match Cli.HeadBranchName(os)
    case Some(name) =>
      (match BranchNamed(s, name)
       case None => Thrown(IllegalState(BranchNotFoundMessage(name)))
       case Some(b) => Ok(b))
    case None =>
      match CurrentBranch(s)
      case None => Thrown(IllegalState(NoHeadBranchMessage))
      case Some(b) => Ok(b)
  }

  /**
   * `baseBranch(opts, branches)`: the branch `--base-branch` names, which must exist, or else
   * the integration branch, which must be known.
   */
  function BaseBranch(os: Cli.OptionSet, s: RepoState): (r: Try<Branch>)
    ensures Cli.BaseBranchName(os).Some? ==>
              var name := Cli.BaseBranchName(os).value;
              && (r.Ok? <==> BranchNamed(s, name).Some?)
              && (r.Ok? ==> Some(r.value) == BranchNamed(s, name))
              && (r.Thrown? ==> r.ex == IllegalState(BranchNotFoundMessage(name)))
    ensures Cli.BaseBranchName(os).None? ==>
              && (r.Ok? <==> BranchConfig.IntegrationBranch(s).Some?)
              && (r.Ok? ==> Some(r.value) == BranchConfig.IntegrationBranch(s))
              && (r.Thrown? ==> r.ex == IllegalState(NoBaseBranchMessage))
  {
    match Cli.BaseBranchName(os)
    case Some(name) =>
      (match BranchNamed(s, name)
       case None => Thrown(IllegalState(BranchNotFoundMessage(name)))
       case Some(b) => Ok(b))
    case None =>
      match BranchConfig.IntegrationBranch(s)
      case None => Thrown(IllegalState(NoBaseBranchMessage))
      case Some(b) => Ok(b)
  }

  /** `title(opts, headBranch)`: the title argument, else the head branch's short name. */
  function Title(os: Cli.OptionSet, head: Branch): (r: string)
    ensures Cli.PrTitle(os).Some? ==> r == Cli.PrTitle(os).value
    ensures Cli.PrTitle(os).None? ==> r == ShortName(head)
  {
    Cli.PrTitle(os).GetOr(ShortName(head))
  }

  /** The creator's settings `prCreatorBuilder(...)` makes: always a title, never an issue number or a remote name. */
  function CreatorSettings(g: GitLib, head: Branch, base: Branch, title: string, description: Option<string>,
                           username: Option<string>, password: Option<string>): PullReqCreator.Settings
  {
    PullReqCreator.Settings(Some(g), Some(head), Some(base), Some(title), description, None, username, password, None)
  }

  /** `prCreatorBuilder(...)`: a creator builder given the repository, both branches and the title, and the optional values that were given. */
  method PrCreatorBuilder(g: GitLib, head: Branch, base: Branch, title: string, description: Option<string>,
                          username: Option<string>, password: Option<string>) returns (b: PullReqCreator.Builder)
    ensures fresh(b)
    ensures b.Current() == CreatorSettings(g, head, base, title, description, username, password)
  {
    b := new PullReqCreator.Builder();
    b.SetGitLib(g);
    b.SetHeadBranch(head);
    b.SetBaseBranch(base);
    b.SetTitle(title);
    if description.Some? {
      b.SetBody(description.value);
    }
    if username.Some? {
      b.SetUsername(username.value);
    }
    if password.Some? {
      b.SetPassword(password.value);
    }
  }

  /**
   * `pullReqCreator(gitLib, opts)` then `createPR()`, for a given body: the head branch, then the
   * base branch (either may throw), the title, then the creator and its request. With
   * `chosenBranches` false the creator is `build()` as written, which takes the current and
   * integration branches; with it true, the corrected builder that takes the branches it is given.
   */
  function PostingWith(g: GitLib, s: RepoState, os: Cli.OptionSet, body: Option<string>, chosenBranches: bool,
                       authorizedToken: string, workingDirectory: string, reply: PullReqCreator.HttpReply): (r: PullReqCreator.Posting)
    ensures HeadBranch(os, s).Thrown? ==> r == PullReqCreator.Posting(Thrown(HeadBranch(os, s).ex), None)
    ensures HeadBranch(os, s).Ok? && BaseBranch(os, s).Thrown? ==> r == PullReqCreator.Posting(Thrown(BaseBranch(os, s).ex), None)
    ensures r.sent.Some? ==> HeadBranch(os, s).Ok? && BaseBranch(os, s).Ok?
  {
    match HeadBranch(os, s)
    case Thrown(e) => PullReqCreator.Posting(Thrown(e), None)
    case Ok(head) =>
      match BaseBranch(os, s)
      case Thrown(e) => PullReqCreator.Posting(Thrown(e), None)
      case Ok(base) =>
        var settings := CreatorSettings(g, head, base, Title(os, head), body, Cli.Username(os), Cli.Password(os));
        var built := if chosenBranches then PullReqCreator.CreatorFor(s, settings, authorizedToken, workingDirectory)
                     else PullReqCreator.CreatorAsWritten(s, settings, authorizedToken, workingDirectory);
        match built
        case Thrown(e) => PullReqCreator.Posting(Thrown(e), None)
        case Ok(creator) => PullReqCreator.CreatePR(s.config, creator, reply)
  }

  /**
   * What the as-written posting sends is a titled request from the current branch to the
   * integration branch, whatever `--head-branch` and `--base-branch` chose, with the title the
   * runner chose and the body exactly when there is one; nothing is sent off a branch.
   */
  lemma PostingSendsCurrentBranches(g: GitLib, s: RepoState, os: Cli.OptionSet, body: Option<string>, authorizedToken: string,
                                    workingDirectory: string, reply: PullReqCreator.HttpReply)
    ensures var p := PostingWith(g, s, os, body, false, authorizedToken, workingDirectory, reply);
            p.sent.Some? ==>
              && HeadBranch(os, s).Ok? && BaseBranch(os, s).Ok?
              && CurrentBranch(s).Some? && BranchConfig.IntegrationBranch(s).Some?
              && var current := CurrentBranch(s).value;
                 var integration := BranchConfig.IntegrationBranch(s).value;
                 && SimpleName(s.config, current).Ok? && SimpleName(s.config, integration).Ok?
                 && PullReqCreator.Lookup(p.sent.value, "head") == Some(PullReqCreator.JString(SimpleName(s.config, current).value))
                 && PullReqCreator.Lookup(p.sent.value, "base") == Some(PullReqCreator.JString(SimpleName(s.config, integration).value))
                 && PullReqCreator.Lookup(p.sent.value, "title") == Some(PullReqCreator.JString(Title(os, HeadBranch(os, s).value)))
                 && (body.Some? ==> PullReqCreator.Lookup(p.sent.value, "body") == Some(PullReqCreator.JString(body.value)))
                 && (body.None? ==> PullReqCreator.Lookup(p.sent.value, "body").None?)
  {
    var p := PostingWith(g, s, os, body, false, authorizedToken, workingDirectory, reply);
    if HeadBranch(os, s).Ok? && BaseBranch(os, s).Ok? {
      var head := HeadBranch(os, s).value;
      var base := BaseBranch(os, s).value;
      var settings := CreatorSettings(g, head, base, Title(os, head), body, Cli.Username(os), Cli.Password(os));
      var cr := PullReqCreator.CreatorAsWritten(s, settings, authorizedToken, workingDirectory);
      if cr.Ok? {
        PullReqCreator.AsWrittenIgnoresChosenBranches(s, settings, authorizedToken, workingDirectory);
        assert cr.value.kind == PullReqCreator.Standard(Title(os, head), body);
        assert p == PullReqCreator.CreatePR(s.config, cr.value, reply);
        PullReqCreator.StandardJsonFacts(s.config, cr.value);
      }
    }
  }

  /**
   * What the corrected posting sends is a titled request for the branches the runner chose: the
   * head named by `--head-branch` (else the current branch), the base named by `--base-branch`
   * (else the integration branch), the title argument (else the head's short name), and the body
   * exactly when there is one.
   */
  lemma PostingSendsChosenBranches(g: GitLib, s: RepoState, os: Cli.OptionSet, body: Option<string>, authorizedToken: string,
                                   workingDirectory: string, reply: PullReqCreator.HttpReply)
    ensures var p := PostingWith(g, s, os, body, true, authorizedToken, workingDirectory, reply);
            p.sent.Some? ==>
              && HeadBranch(os, s).Ok? && BaseBranch(os, s).Ok?
              && var head := HeadBranch(os, s).value;
                 var base := BaseBranch(os, s).value;
                 && SimpleName(s.config, head).Ok? && SimpleName(s.config, base).Ok?
                 && PullReqCreator.Lookup(p.sent.value, "head") == Some(PullReqCreator.JString(SimpleName(s.config, head).value))
                 && PullReqCreator.Lookup(p.sent.value, "base") == Some(PullReqCreator.JString(SimpleName(s.config, base).value))
                 && PullReqCreator.Lookup(p.sent.value, "title") == Some(PullReqCreator.JString(Title(os, head)))
                 && (body.Some? ==> PullReqCreator.Lookup(p.sent.value, "body") == Some(PullReqCreator.JString(body.value)))
                 && (body.None? ==> PullReqCreator.Lookup(p.sent.value, "body").None?)
  {
    var p := PostingWith(g, s, os, body, true, authorizedToken, workingDirectory, reply);
    if HeadBranch(os, s).Ok? && BaseBranch(os, s).Ok? {
      var head := HeadBranch(os, s).value;
      var base := BaseBranch(os, s).value;
      var settings := CreatorSettings(g, head, base, Title(os, head), body, Cli.Username(os), Cli.Password(os));
      var cr := PullReqCreator.CreatorFor(s, settings, authorizedToken, workingDirectory);
      if cr.Ok? {
        PullReqCreator.CreatorUsesChosenBranches(s, settings, authorizedToken, workingDirectory);
        assert cr.value.headBranch == head && cr.value.baseBranch == base;
        assert cr.value.kind == PullReqCreator.Standard(Title(os, head), body);
        assert p == PullReqCreator.CreatePR(s.config, cr.value, reply);
        PullReqCreator.StandardJsonFacts(s.config, cr.value);
      }
    }
  }

  /** `opts.description()`: the pull-request command's own description, the text its help screen shows. */
  const HelpDescription: string := Cli.Description(Cli.PullReqCommand)

  /**
   * `git pull-req` as written: the creator is `build()` as written, and the body is
   * `opts.description()`, whatever `--description` says. Nothing is sent unless a branch is
   * checked out and an integration branch is known, even when both branches were named.
   */
  function PullRequestPosting(g: GitLib, s: RepoState, os: Cli.OptionSet, authorizedToken: string, workingDirectory: string,
                              reply: PullReqCreator.HttpReply): (r: PullReqCreator.Posting)
    ensures r.sent.Some? ==> CurrentBranch(s).Some? && BranchConfig.IntegrationBranch(s).Some?
    ensures HeadBranch(os, s).Ok? && BaseBranch(os, s).Ok? && CurrentBranch(s).None? ==>
              r == PullReqCreator.Posting(Thrown(IllegalState(PullReqCreator.NoCurrentBranchMessage)), None)
  {
    PostingWith(g, s, os, Some(HelpDescription), false, authorizedToken, workingDirectory, reply)
  }

  /**
   * What `git pull-req` sends is a titled request from the current branch to the integration
   * branch, whatever branches were named, with the chosen title; its body is always the command's
   * help-screen description.
   */
  lemma PullRequestSendsCurrentBranches(g: GitLib, s: RepoState, os: Cli.OptionSet, authorizedToken: string, workingDirectory: string,
                                        reply: PullReqCreator.HttpReply)
    ensures var p := PullRequestPosting(g, s, os, authorizedToken, workingDirectory, reply);
            p.sent.Some? ==>
              && HeadBranch(os, s).Ok? && CurrentBranch(s).Some? && BranchConfig.IntegrationBranch(s).Some?
              && PullReqCreator.Lookup(p.sent.value, "head") == Some(PullReqCreator.JString(SimpleName(s.config, CurrentBranch(s).value).value))
              && PullReqCreator.Lookup(p.sent.value, "base") == Some(PullReqCreator.JString(SimpleName(s.config, BranchConfig.IntegrationBranch(s).value).value))
              && PullReqCreator.Lookup(p.sent.value, "title") == Some(PullReqCreator.JString(Title(os, HeadBranch(os, s).value)))
              && PullReqCreator.Lookup(p.sent.value, "body") == Some(PullReqCreator.JString(HelpDescription))
  {
    PostingSendsCurrentBranches(g, s, os, Some(HelpDescription), authorizedToken, workingDirectory, reply);
  }

  /**
   * The `--description` text never reaches the server: whenever a request is sent, its body is
   * not the text given with `--description` (unless that text is the help description itself).
   */
  lemma DescriptionOptionIgnored(g: GitLib, s: RepoState, os: Cli.OptionSet, authorizedToken: string, workingDirectory: string,
                                 reply: PullReqCreator.HttpReply)
    ensures var p := PullRequestPosting(g, s, os, authorizedToken, workingDirectory, reply);
            p.sent.Some? && Cli.PullReqDescription(os).Some? && Cli.PullReqDescription(os).value != HelpDescription ==>
              PullReqCreator.Lookup(p.sent.value, "body") != Some(PullReqCreator.JString(Cli.PullReqDescription(os).value))
  {
    PullRequestSendsCurrentBranches(g, s, os, authorizedToken, workingDirectory, reply);
  }

  /**
   * `git pull-req` as evidently intended: the corrected creator, so the branches the runner chose
   * are the ones sent, and the body is the `--description` argument, when one is given. When no
   * branch is named, it makes the same request as the as-written creator would for that body.
   */
  function PullRequestPostingIntended(g: GitLib, s: RepoState, os: Cli.OptionSet, authorizedToken: string, workingDirectory: string,
                                      reply: PullReqCreator.HttpReply): (r: PullReqCreator.Posting)
    ensures r.sent.Some? ==> HeadBranch(os, s).Ok? && BaseBranch(os, s).Ok?
    ensures Cli.HeadBranchName(os).None? && Cli.BaseBranchName(os).None? ==>
              r == PostingWith(g, s, os, Cli.PullReqDescription(os), false, authorizedToken, workingDirectory, reply)
  {
    PostingWith(g, s, os, Cli.PullReqDescription(os), true, authorizedToken, workingDirectory, reply)
  }

  /**
   * The intended request goes from the chosen head branch to the chosen base branch, and carries
   * the `--description` text as its body exactly when the option was given, and otherwise no body.
   */
  lemma PullRequestSendsDescription(g: GitLib, s: RepoState, os: Cli.OptionSet, authorizedToken: string, workingDirectory: string,
                                    reply: PullReqCreator.HttpReply)
    ensures var p := PullRequestPostingIntended(g, s, os, authorizedToken, workingDirectory, reply);
            p.sent.Some? ==>
              && HeadBranch(os, s).Ok? && BaseBranch(os, s).Ok?
              && PullReqCreator.Lookup(p.sent.value, "head") == Some(PullReqCreator.JString(SimpleName(s.config, HeadBranch(os, s).value).value))
              && PullReqCreator.Lookup(p.sent.value, "base") == Some(PullReqCreator.JString(SimpleName(s.config, BaseBranch(os, s).value).value))
              && (Cli.PullReqDescription(os).Some? <==> PullReqCreator.Lookup(p.sent.value, "body").Some?)
              && (Cli.PullReqDescription(os).Some? ==>
                    PullReqCreator.Lookup(p.sent.value, "body") == Some(PullReqCreator.JString(Cli.PullReqDescription(os).value)))
  {
    PostingSendsChosenBranches(g, s, os, Cli.PullReqDescription(os), authorizedToken, workingDirectory, reply);
  }

  /**
   * `mainFunc(options)` of `git pull-req`: the outcome of creating the pull request through
   * `build()` as written; options whose option set was never recorded dereference null at the
   * first accessor.
   */
  method PullReqMain(g: GitLib, options: Cli.Options, authorizedToken: string, workingDirectory: string,
                     reply: PullReqCreator.HttpReply) returns (r: Try<Either<PullReqCreator.PullRequest>>)
    ensures options.optionSet.None? ==> r == Thrown(NullDereference)
    ensures options.optionSet.Some? ==>
              r == PullRequestPosting(g, g.State(), options.optionSet.value, authorizedToken, workingDirectory, reply).result
  {
    if options.optionSet.None? {
      return Thrown(NullDereference);
    }
    var os := options.optionSet.value;
    var s := g.State();
    var head := HeadBranch(os, s);
    if head.Thrown? {
      return Thrown(head.ex);
    }
    var base := BaseBranch(os, s);
    if base.Thrown? {
      return Thrown(base.ex);
    }
    var title := Title(os, head.value);
    var builder := PrCreatorBuilder(g, head.value, base.value, title, Some(HelpDescription), Cli.Username(os), Cli.Password(os));
    var creator := builder.BuildAsWritten(authorizedToken, workingDirectory);
    if creator.Thrown? {
      return Thrown(creator.ex);
    }
    r := PullReqCreator.CreatePR(s.config, creator.value, reply).result;
  }
}

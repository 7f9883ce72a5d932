/**
 * `Pusher`: pushes a local branch to a branch of the same or another name on the server, refusing
 * to push the local copy of the mainline, running the optional pre- and post-push hooks, and,
 * without a post-push hook, recording the sync point when the names agree.
 */
module Pusher {
  import opened Wrappers
  import opened Strings
  import opened Commits
  import opened Refs
  import RemoteConfig
  import opened Repo
  import opened BranchRefs
  import BranchConfig

  // ---------------------------------------------------------------------------------------------
  // Push results

  /** JGit's `RemoteRefUpdate.Status`. */
  datatype RefUpdateStatus =
    | NOT_ATTEMPTED | UP_TO_DATE | REJECTED_NONFASTFORWARD | REJECTED_NODELETE
    | REJECTED_REMOTE_CHANGED | REJECTED_OTHER_REASON | NON_EXISTING | AWAITING_REPORT | OK

  /** `goodStatus`: the ref was updated, or already had the pushed value. */
  predicate GoodStatus(status: RefUpdateStatus)
  {
    status.OK? || status.UP_TO_DATE?
  }

  /** One JGit `PushResult`: the status of each remote ref update, and the text of the whole result. */
  datatype JGitPush = JGitPush(updates: seq<RefUpdateStatus>, text: string)

  /** `pushResultSuccessful`: every remote update of one result is good. */
  function PushResultSuccessful(updates: seq<RefUpdateStatus>): (r: bool)
    ensures r <==> forall i :: 0 <= i < |updates| ==> GoodStatus(updates[i])
  {
    if |updates| == 0 then true
    else GoodStatus(updates[0]) && PushResultSuccessful(updates[1..])
  }

  /** `allPushesSuccessful`: every result is successful. */
  function AllPushesSuccessful(results: seq<JGitPush>): (r: bool)
    ensures r <==> forall i, j :: 0 <= i < |results| && 0 <= j < |results[i].updates| ==> GoodStatus(results[i].updates[j])
  {
    if |results| == 0 then true
    else
      var rest := AllPushesSuccessful(results[1..]);
      assert forall i :: 1 <= i < |results| ==> results[i] == results[1..][i - 1];
      PushResultSuccessful(results[0].updates) && rest
  }

  /** `ThePushResult`: the results of a JGit push, or the output and exit code of `git push`. */
  datatype PushResult =
    | JGitPushResult(results: seq<JGitPush>)
    | ProcPushResult(stdout: string, stderr: string, exitCode: int)
  {
    /** `success()`: all updates good for JGit; exit code 0 for the program. */
    predicate Success()
    {
      match this
      case JGitPushResult(results) => AllPushesSuccessful(results)
      case ProcPushResult(_, _, exitCode) => exitCode == 0
    }

    /**
     * `toString()`: the results' texts one per line for JGit; for the program, its standard
     * output, followed on a new line by the trimmed error output when that is not empty.
     */
    function ToString(): string
    {
      match this
      case JGitPushResult(results) => Join(seq(|results|, i requires 0 <= i < |results| => results[i].text), '\n')
      case ProcPushResult(stdout, stderr, _) =>
        if Trim(stderr) == "" then stdout else stdout + "\n" + Trim(stderr)
    }
  }

  /** A `git push` whose error output is blank reports its standard output alone. */
  lemma ProcToStringBlankError(stdout: string, stderr: string, exitCode: int)
    requires IsBlank(stderr)
    ensures ProcPushResult(stdout, stderr, exitCode).ToString() == stdout
  {
    TrimEmptyIffBlank(stderr);
  }

  /** Otherwise the trimmed error output follows the standard output on a line of its own. */
  lemma ProcToStringWithError(stdout: string, stderr: string, exitCode: int)
    requires !IsBlank(stderr)
    ensures var r := ProcPushResult(stdout, stderr, exitCode).ToString();
            && |r| > |stdout| && r[..|stdout|] == stdout && r[|stdout|] == '\n'
            && r[|stdout| + 1..] == Trim(stderr) && Trim(stderr) != ""
  {
    TrimEmptyIffBlank(stderr);
    var r := ProcPushResult(stdout, stderr, exitCode).ToString();
    assert r == stdout + "\n" + Trim(stderr);
    assert r[..|stdout|] == stdout;
    assert r[|stdout| + 1..] == Trim(stderr);
  }

  // ---------------------------------------------------------------------------------------------
  // Options and their builder

  /**
   * A hook (`CheckedRunnable`), represented by what running it does: nothing the model sees, or
   * throw an exception whose printed form (`ExecUtils.toString`) is `failure`.
   */
  datatype Hook = Hook(failure: Option<string>)

  /** `PusherOptions`. */
  datatype PusherOptions = PusherOptions(localBranch: Branch, remoteBranchName: string, prePush: Option<Hook>, postPush: Option<Hook>)

  /** `PusherOptions.Builder`: the fields are filled in one by one and `Build` checks the two required ones. */
  class Builder {
    const gitLib: GitLib
    var localBranch: Option<Branch>
    var remoteBranchName: Option<string>
    var prePush: Option<Hook>
    var postPush: Option<Hook>

    constructor (gitLib: GitLib)
      ensures this.gitLib == gitLib
      ensures localBranch.None? && remoteBranchName.None? && prePush.None? && postPush.None?
    {
      this.gitLib := gitLib;
      localBranch := None;
      remoteBranchName := None;
      prePush := None;
      postPush := None;
    }

    method SetLocalBranch(b: Branch)
      modifies this
      ensures localBranch == Some(b)
      ensures remoteBranchName == old(remoteBranchName) && prePush == old(prePush) && postPush == old(postPush)
    {
      localBranch := Some(b);
    }

    /** `localBranch(String)`: the name must find a branch. */
    method SetLocalBranchNamed(name: string) returns (r: Try<()>)
      modifies this
      ensures BranchNamed(gitLib.State(), name).None? ==>
                r == Thrown(IllegalArgument("\"" + name + "\" is not a known branch")) && localBranch == old(localBranch)
      ensures BranchNamed(gitLib.State(), name).Some? ==> r == Ok(()) && localBranch == BranchNamed(gitLib.State(), name)
      ensures remoteBranchName == old(remoteBranchName) && prePush == old(prePush) && postPush == old(postPush)
    {
      var b := BranchNamed(gitLib.State(), name);
      if b.None? {
        r := Thrown(IllegalArgument("\"" + name + "\" is not a known branch"));
      } else {
        localBranch := b;
        r := Ok(());
      }
    }

    method SetRemoteBranchName(name: string)
      modifies this
      ensures remoteBranchName == Some(name)
      ensures localBranch == old(localBranch) && prePush == old(prePush) && postPush == old(postPush)
    {
      remoteBranchName := Some(name);
    }

    method SetPrePush(hook: Option<Hook>)
      modifies this
      ensures prePush == hook
      ensures localBranch == old(localBranch) && remoteBranchName == old(remoteBranchName) && postPush == old(postPush)
    {
      prePush := hook;
    }

    method SetPostPush(hook: Option<Hook>)
      modifies this
      ensures postPush == hook
      ensures localBranch == old(localBranch) && remoteBranchName == old(remoteBranchName) && prePush == old(prePush)
    {
      postPush := hook;
    }

    /** `build()`: refuses a missing local branch, then a missing remote branch name. */
    method Build() returns (r: Try<PusherOptions>)
      ensures localBranch.None? ==> r == Thrown(IllegalState("localBranch == null"))
      ensures localBranch.Some? && remoteBranchName.None? ==> r == Thrown(IllegalState("remoteBranchName == null"))
      ensures r.Ok? <==> localBranch.Some? && remoteBranchName.Some?
      ensures r.Ok? ==> r.value == PusherOptions(localBranch.value, remoteBranchName.value, prePush, postPush)
    {
      if localBranch.None? {
        return Thrown(IllegalState("localBranch == null"));
      }
      if remoteBranchName.None? {
        return Thrown(IllegalState("remoteBranchName == null"));
      }
      r := Ok(PusherOptions(localBranch.value, remoteBranchName.value, prePush, postPush));
    }
  }

  /** `Pusher`: the options and whether to force the push. */
  datatype Pusher = Pusher(options: PusherOptions, forcePush: bool)

  /** `Pusher.create`: fills a builder with both required fields, so building cannot fail. */
  method Create(g: GitLib, localBranch: Branch, remoteBranchName: string, forcePush: bool,
                prePush: Option<Hook>, postPush: Option<Hook>) returns (p: Pusher)
    ensures p == Pusher(PusherOptions(localBranch, remoteBranchName, prePush, postPush), forcePush)
  {
    var builder := new Builder(g);
    builder.SetLocalBranch(localBranch);
    builder.SetRemoteBranchName(remoteBranchName);
    builder.SetPrePush(prePush);
    builder.SetPostPush(postPush);
    var options := builder.Build();
    p := Pusher(options.value, forcePush);
  }

  // ---------------------------------------------------------------------------------------------
  // Pushing

  /** What JGit's push command answers: an exception's text, or its results. */
  datatype PushReply = PushThrew(text: string) | PushDone(result: PushResult)

  const NoRemoteMessage: string := "Not pushing to the server because there is no remote."
  const NoRemoteNameMessage: string := "Could not find the remote name (e.g., \"origin\") for this repository"

  function MainlineMessage(simpleName: string): string
  {
    "Not pushing to the server because the current branch (" + simpleName + ") is the mainline branch."
  }

  /**
   * The mainline guard: the integration branch's simple name when it is also the local branch's
   * simple name, nothing when they differ or there is no integration branch. Computing a simple
   * name may throw.
   */
  function MainlineGuard(s: RepoState, local: Branch): (r: Try<Option<string>>)
    ensures BranchConfig.IntegrationBranch(s).None? ==> r == Ok(None)
    ensures r.Ok? && r.value.Some? ==> && BranchConfig.IntegrationBranch(s).Some?
                                       && SimpleName(s.config, BranchConfig.IntegrationBranch(s).value) == Ok(r.value.value)
                                       && SimpleName(s.config, local) == Ok(r.value.value)
    ensures r == Ok(None) && BranchConfig.IntegrationBranch(s).Some? ==>
              SimpleName(s.config, BranchConfig.IntegrationBranch(s).value) != SimpleName(s.config, local)
  {
    match BranchConfig.IntegrationBranch(s)
    case None => Ok(None)
    case Some(integration) =>
      match SimpleName(s.config, integration)
      case Thrown(e) => Thrown(e)
      case Ok(simple) =>
        match SimpleName(s.config, local)
        case Thrown(e) => Thrown(e)
        case Ok(localSimple) => Ok(if simple == localSimple then Some(simple) else None)
  }

  /** The remote-tracking ref a push to `<remote>` updates: `refs/remotes/<remote>/<remote branch name>`. */
  function TrackingRefName(remote: string, remoteBranchName: string): string
  {
    RRemotes + remote + "/" + remoteBranchName
  }

  /**
   * `doJGitPush`: pushes `<local short name>:<remote branch name>`. An exception escapes; a
   * successful result moves the remote-tracking ref to the local tip.
   */
  function DoPush(s: RepoState, local: Branch, remote: string, remoteBranchName: string, force: bool, reply: PushReply)
    : (r: Step<Try<PushResult>>)
    ensures r.events == [PushEvent(ShortName(local), remoteBranchName, force)]
    ensures r.state.control == s.control && r.state.head == s.head && r.state.config == s.config
    ensures reply.PushThrew? ==> r.result == Thrown(GitFailure(reply.text)) && r.state == s
    ensures reply.PushDone? ==> r.result == Ok(reply.result)
    ensures !(reply.PushDone? && reply.result.Success()) ==> r.state == s
    ensures reply.PushDone? && reply.result.Success() && local.name in s.refs ==>
              r.state == s.(refs := s.refs[TrackingRefName(remote, remoteBranchName) := s.refs[local.name]])
  {
    var events := [PushEvent(ShortName(local), remoteBranchName, force)];
    match reply
    case PushThrew(text) => Step(Thrown(GitFailure(text)), s, events)
    case PushDone(result) =>
      if result.Success() && local.name in s.refs then
        Step(Ok(result), s.(refs := s.refs[TrackingRefName(remote, remoteBranchName) := s.refs[local.name]]), events)
      else
        Step(Ok(result), s, events)
  }

  /**
   * After a successful push: a post-push hook runs instead of anything else; without one, the sync
   * point is recorded when the local branch's simple name is the remote branch name.
   */
  function AfterPush(s: RepoState, local: Branch, remoteBranchName: string, postPush: Option<Hook>,
                     result: PushResult, recordFailure: Option<string>): (r: Step<Try<Either<PushResult>>>)
    ensures PushSteps(r.events)
    ensures r.state.refs == s.refs && r.state.head == s.head && r.state.config == s.config
    ensures postPush.Some? ==> r.events == [HookEvent(false)] && r.state == s
    ensures postPush.Some? && postPush.value.failure.Some? ==> r.result == Ok(Left(postPush.value.failure.value))
    ensures postPush.Some? && postPush.value.failure.None? ==> r.result == Ok(Right(result))
    ensures postPush.None? ==> r.events == []
    ensures postPush.None? && SimpleName(s.config, local) != Ok(remoteBranchName) ==> r.state == s
    ensures postPush.None? && SimpleName(s.config, local) == Ok(remoteBranchName) ==>
              var (err, t) := RecordLastSynced(s, local, recordFailure);
              r.state == t && r.result == Ok(if err.Some? then Left(err.value) else Right(result))
  {
    match postPush
    case Some(hook) =>
      Step(Ok(if hook.failure.Some? then Left(hook.failure.value) else Right(result)), s, [HookEvent(false)])
    case None =>
      match SimpleName(s.config, local)
      case Thrown(e) => Step(Thrown(e), s, [])
      case Ok(simple) =>
        if simple == remoteBranchName then
          var (err, t) := RecordLastSynced(s, local, recordFailure);
          Step(Ok(if err.Some? then Left(err.value) else Right(result)), t, [])
        else Step(Ok(Right(result)), s, [])
  }

  /** The steps from the pre-push hook on, once the mainline guard has passed. */
  function PushChecked(s: RepoState, local: Branch, remoteBranchName: string, force: bool,
                       prePush: Option<Hook>, postPush: Option<Hook>, reply: PushReply, recordFailure: Option<string>)
    : (r: Step<Try<Either<PushResult>>>)
    ensures PushSteps(r.events)
    ensures r.state.head == s.head && r.state.config == s.config
  {
    var preEvents := if prePush.Some? then [HookEvent(true)] else [];
    if prePush.Some? && prePush.value.failure.Some? then Step(Ok(Left(prePush.value.failure.value)), s, preEvents)
    else match RemoteConfig.RemoteName(s.config)
      case None => Step(Ok(Left(NoRemoteNameMessage)), s, preEvents)
      case Some(remote) =>
        var pushed := DoPush(s, local, remote, remoteBranchName, force, reply);
        match pushed.result
        case Thrown(e) => Step(Thrown(e), pushed.state, preEvents + pushed.events)
        case Ok(result) =>
          if !result.Success() then Step(Ok(Left(result.ToString())), pushed.state, preEvents + pushed.events)
          else
            var after := AfterPush(pushed.state, local, remoteBranchName, postPush, result, recordFailure);
            Step(after.result, after.state, preEvents + pushed.events + after.events)
  }

  /**
   * `push(gitLib, localBranch, remoteBranchName, forcePush, prePush, postPush)`: without remotes,
   * nothing is pushed; the local copy of the mainline is never pushed; a failing pre-push hook
   * stops the push; a push that is not successful is reported by its text.
   */
  function Push(s: RepoState, local: Branch, remoteBranchName: string, force: bool,
                prePush: Option<Hook>, postPush: Option<Hook>, reply: PushReply, recordFailure: Option<string>)
    : (r: Step<Try<Either<PushResult>>>)
    ensures PushSteps(r.events)
    ensures r.state.head == s.head && r.state.config == s.config
    ensures !RemoteConfig.HasRemotes(s.config) ==> r == Step(Ok(Left(NoRemoteMessage)), s, [])
    ensures RemoteConfig.HasRemotes(s.config) && MainlineGuard(s, local).Ok? && MainlineGuard(s, local).value.Some?
            ==> r == Step(Ok(Left(MainlineMessage(MainlineGuard(s, local).value.value))), s, [])
    ensures RemoteConfig.HasRemotes(s.config) && MainlineGuard(s, local) == Ok(None)
            ==> r == PushChecked(s, local, remoteBranchName, force, prePush, postPush, reply, recordFailure)
  {
    if !RemoteConfig.HasRemotes(s.config) then Step(Ok(Left(NoRemoteMessage)), s, [])
    else match MainlineGuard(s, local)
      case Thrown(e) => Step(Thrown(e), s, [])
      case Ok(Some(simple)) => Step(Ok(Left(MainlineMessage(simple))), s, [])
      case Ok(None) => PushChecked(s, local, remoteBranchName, force, prePush, postPush, reply, recordFailure)
  }

  /** Pushing runs hooks and pushes, and nothing else. */
  predicate PushSteps(events: seq<Event>)
  {
    forall i :: 0 <= i < |events| ==> events[i].PushEvent? || events[i].HookEvent?
  }

  /**
   * The protections: something is pushed only when there are remotes, the local branch is not the
   * mainline, the pre-push hook (if any) passed and the remote name is known; and the push is a
   * single push of the local branch with the requested force.
   */
  lemma PushOnlyWhenAllowed(s: RepoState, local: Branch, remoteBranchName: string, force: bool,
                            prePush: Option<Hook>, postPush: Option<Hook>, reply: PushReply, recordFailure: Option<string>)
    ensures var r := Push(s, local, remoteBranchName, force, prePush, postPush, reply, recordFailure);
            (exists i :: 0 <= i < |r.events| && r.events[i].PushEvent?) ==>
              && RemoteConfig.HasRemotes(s.config)
              && MainlineGuard(s, local) == Ok(None)
              && (prePush.Some? ==> prePush.value.failure.None?)
              && RemoteConfig.RemoteName(s.config).Some?
              && r.events[if prePush.Some? then 1 else 0] == PushEvent(ShortName(local), remoteBranchName, force)
  {
    var r := Push(s, local, remoteBranchName, force, prePush, postPush, reply, recordFailure);
    if exists i :: 0 <= i < |r.events| && r.events[i].PushEvent? {
      assert RemoteConfig.HasRemotes(s.config);
      assert MainlineGuard(s, local) == Ok(None);
      assert prePush.Some? ==> prePush.value.failure.None?;
      assert RemoteConfig.RemoteName(s.config).Some?;
    }
  }

  /** Once the guards have passed, every push step is of the local branch to the remote branch asked for. */
  lemma PushCheckedPushesAsAsked(s: RepoState, local: Branch, remoteBranchName: string, force: bool,
                                 prePush: Option<Hook>, postPush: Option<Hook>, reply: PushReply, recordFailure: Option<string>)
    ensures var r := PushChecked(s, local, remoteBranchName, force, prePush, postPush, reply, recordFailure);
            forall i :: 0 <= i < |r.events| && r.events[i].PushEvent? ==> r.events[i] == PushEvent(ShortName(local), remoteBranchName, force)
  {
    var r := PushChecked(s, local, remoteBranchName, force, prePush, postPush, reply, recordFailure);
    var preEvents := if prePush.Some? then [HookEvent(true)] else [];
    if !(prePush.Some? && prePush.value.failure.Some?) && RemoteConfig.RemoteName(s.config).Some? {
      var pushed := DoPush(s, local, RemoteConfig.RemoteName(s.config).value, remoteBranchName, force, reply);
      var after := if pushed.result.Ok? && pushed.result.value.Success()
                   then AfterPush(pushed.state, local, remoteBranchName, postPush, pushed.result.value, recordFailure).events
                   else [];
      assert r.events == preEvents + pushed.events + after;
      PushesOnlyOne(preEvents, pushed.events, after);
    }
  }

  /** Hook steps around one push step leave that push as the only one. */
  lemma PushesOnlyOne(pre: seq<Event>, pushed: seq<Event>, after: seq<Event>)
    requires |pushed| == 1
    requires forall i :: 0 <= i < |pre| ==> pre[i].HookEvent?
    requires forall i :: 0 <= i < |after| ==> after[i].HookEvent?
    ensures forall i :: 0 <= i < |pre + pushed + after| && (pre + pushed + after)[i].PushEvent? ==> (pre + pushed + after)[i] == pushed[0]
  {
    var all := pre + pushed + after;
    forall i | 0 <= i < |all| && i != |pre|
      ensures all[i].HookEvent?
    {
      if i < |pre| {
        assert all[i] == pre[i];
      } else {
        assert all[i] == after[i - |pre| - 1];
      }
    }
    assert all[|pre|] == pushed[0];
  }

  /** The only push a push makes is of the local branch to the remote branch asked for, with the force asked for. */
  lemma PushEventsAsAsked(s: RepoState, local: Branch, remoteBranchName: string, force: bool,
                          prePush: Option<Hook>, postPush: Option<Hook>, reply: PushReply, recordFailure: Option<string>)
    ensures var r := Push(s, local, remoteBranchName, force, prePush, postPush, reply, recordFailure);
            forall i :: 0 <= i < |r.events| && r.events[i].PushEvent? ==> r.events[i] == PushEvent(ShortName(local), remoteBranchName, force)
  {
    if RemoteConfig.HasRemotes(s.config) && MainlineGuard(s, local) == Ok(None) {
      PushCheckedPushesAsAsked(s, local, remoteBranchName, force, prePush, postPush, reply, recordFailure);
    }
  }

  /**
   * A successful push without a post-push hook, to the remote branch of the same name, leaves the
   * remote-tracking ref and the sync point both at the local tip.
   */
  lemma PushRecordsSyncPoint(s: RepoState, local: Branch, force: bool, prePush: Option<Hook>, result: PushResult)
    requires RemoteConfig.HasRemotes(s.config) && MainlineGuard(s, local) == Ok(None)
    requires prePush.Some? ==> prePush.value.failure.None?
    requires RemoteConfig.RemoteName(s.config).Some? && local.name in s.refs
    requires SimpleName(s.config, local).Ok? && result.Success()
    ensures var remote := RemoteConfig.RemoteName(s.config).value;
            var rbn := SimpleName(s.config, local).value;
            var r := Push(s, local, rbn, force, prePush, None, PushDone(result), None);
            && r.result == Ok(Right(result))
            && r.state.refs == s.refs[TrackingRefName(remote, rbn) := s.refs[local.name]]
            && r.state.control == s.control[ShortName(local) := s.refs[local.name]]
  {
  }

  /** `Pusher.push()`: pushes with the pusher's options. */
  method PushIn(g: GitLib, pusher: Pusher, reply: PushReply, recordFailure: Option<string>)
    returns (r: Try<Either<PushResult>>)
    modifies g
    ensures var o := pusher.options;
            var step := Push(old(g.State()), o.localBranch, o.remoteBranchName, pusher.forcePush, o.prePush, o.postPush, reply, recordFailure);
            r == step.result && g.State() == step.state && g.events == old(g.events) + step.events
  {
    var o := pusher.options;
    var step := Push(g.State(), o.localBranch, o.remoteBranchName, pusher.forcePush, o.prePush, o.postPush, reply, recordFailure);
    g.Load(step.state);
    g.events := g.events + step.events;
    r := step.result;
  }
}

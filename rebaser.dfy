/**
 * `Rebaser`: rebases the current branch onto a base branch with JGit's rebase command and turns
 * the command's status into an error message or a `SuccessfulRebase`.
 */
module Rebaser {
  import opened Wrappers
  import opened Strings
  import opened Commits
  import opened Repo
  import opened BranchRefs

  /** JGit's `RebaseResult.Status`. */
  datatype RebaseStatus =
    | OK | ABORTED | STOPPED | EDIT | FAILED | UNCOMMITTED_CHANGES | CONFLICTS
    | UP_TO_DATE | FAST_FORWARD | NOTHING_TO_COMMIT | INTERACTIVE_PREPARED | STASH_APPLY_CONFLICTS

  /** JGit's `Status.isSuccessful()`: the rebase left the branch rebased. */
  predicate IsSuccessful(status: RebaseStatus)
  {
    status.OK? || status.UP_TO_DATE? || status.FAST_FORWARD? || status.STASH_APPLY_CONFLICTS?
  }

  /** The enum constant's name, which is what `toString()` gives. */
  function StatusName(status: RebaseStatus): string
  {
    match status
    case OK => "OK"
    case ABORTED => "ABORTED"
    case STOPPED => "STOPPED"
    case EDIT => "EDIT"
    case FAILED => "FAILED"
    case UNCOMMITTED_CHANGES => "UNCOMMITTED_CHANGES"
    case CONFLICTS => "CONFLICTS"
    case UP_TO_DATE => "UP_TO_DATE"
    case FAST_FORWARD => "FAST_FORWARD"
    case NOTHING_TO_COMMIT => "NOTHING_TO_COMMIT"
    case INTERACTIVE_PREPARED => "INTERACTIVE_PREPARED"
    case STASH_APPLY_CONFLICTS => "STASH_APPLY_CONFLICTS"
  }

  /** `statusToErrorMessage`: the description of each status, and the status's name for the rest. */
  function StatusToErrorMessage(status: RebaseStatus): string
  {
    match status
    case OK => "OK; Rebase was successful, HEAD points to the new commit"
    case STOPPED => "Stopped due to a conflict; must either abort or resolve or skip"
    case ABORTED => "Aborted; the original HEAD was restored"
    case EDIT => "Stopped for editing in the context of an interactive rebase"
    case FAILED => "Failed; the original HEAD was restored"
    case UNCOMMITTED_CHANGES => "The repository contains uncommitted changes and the rebase is not a fast-forward"
    case CONFLICTS => "Conflicts: checkout of target HEAD failed"
    case UP_TO_DATE => "Already up-to-date"
    case FAST_FORWARD => "Fast-forward, HEAD points to the new commit"
    case _ => StatusName(status)
  }

  /** `SuccessfulRebase`: the status of a rebase that succeeded. */
  datatype SuccessfulRebase = SuccessfulRebase(status: RebaseStatus)
  {
    /** `statusMsg()`. */
    function StatusMsg(): string
    {
      StatusToErrorMessage(status)
    }

    /** `toString()`: `SuccessfulRebase{<status message>}`. */
    function ToString(): (r: string)
      ensures var prefix := "SuccessfulRebase{";
              && |r| == |prefix| + |StatusMsg()| + 1
              && r[..|prefix|] == prefix
              && r[|prefix|..|r| - 1] == StatusMsg()
              && r[|r| - 1] == '}'
    {
      var m := StatusMsg();
      Enclosed("SuccessfulRebase{", m, "}");
      "SuccessfulRebase{" + m + "}"
    }
  }

  /** What JGit's rebase command answers: an exception's text, or a status with the new tip and the commits made. */
  datatype RebaseReply =
    | RebaseThrew(text: string)
    | Rebased(status: RebaseStatus, tip: Oid, commits: CommitGraph)

  const NoCurrentBranchMessage: string := "No branch is currently checked out"

  /**
   * `rebase(gitLib, baseBranch)`: without a current branch, an error. The rebase runs inside a
   * `Try` whose failure is reported as the `Either`'s text `Left(<exception>)`; a base without a
   * tip fails there with a null dereference. A successful status moves the current branch to the
   * rebased tip; any other status is reported by its message and leaves the repository as it was.
   */
  function Rebase(s: RepoState, base: Branch, reply: RebaseReply): Step<Either<SuccessfulRebase>>
  {
    match CurrentBranch(s)
    case None => Step(Left(NoCurrentBranchMessage), s, [])
    case Some(current) =>
      match ObjectId(s, base)
      case None => Step(Left("Left(" + NullTipMessage + ")"), s, [])
      case Some(_) =>
        var events := [RebaseEvent(base.name)];
        match reply
        case RebaseThrew(text) => Step(Left("Left(" + text + ")"), s, events)
        case Rebased(status, tip, commits) =>
          if IsSuccessful(status) then
            Step(Right(SuccessfulRebase(status)), MoveTip(s, current.name, tip, commits), events)
          else
            Step(Left(StatusToErrorMessage(status)), s, events)
  }

  /**
   * What a rebase answers and leaves behind, case by case; it succeeds exactly when a branch is
   * checked out, the base has a tip and the command reports a successful status.
   */
  lemma RebaseOutcome(s: RepoState, base: Branch, reply: RebaseReply)
    ensures var r := Rebase(s, base, reply);
            && (CurrentBranch(s).None? ==> r == Step(Left(NoCurrentBranchMessage), s, []))
            && (CurrentBranch(s).Some? && base.name !in s.refs ==> r == Step(Left("Left(" + NullTipMessage + ")"), s, []))
            && (CurrentBranch(s).Some? && base.name in s.refs ==> r.events == [RebaseEvent(base.name)])
            && (r.result.Left? ==> r.state == s)
            && (r.result.Right? <==> CurrentBranch(s).Some? && base.name in s.refs && reply.Rebased? && IsSuccessful(reply.status))
            && (r.result.Right? ==>
                  && r.result.value == SuccessfulRebase(reply.status)
                  && r.state == MoveTip(s, CurrentBranch(s).value.name, reply.tip, reply.commits))
            && (CurrentBranch(s).Some? && base.name in s.refs && reply.Rebased? && !IsSuccessful(reply.status)
                ==> r.result == Left(StatusToErrorMessage(reply.status)))
            && (CurrentBranch(s).Some? && base.name in s.refs && reply.RebaseThrew?
                ==> r.result == Left("Left(" + reply.text + ")"))
  {
  }

  /**
   * A rebase keeps the same branch checked out and the same branches findable by name; the
   * current branch is the only ref that moves.
   */
  lemma RebaseKeepsBranches(s: RepoState, base: Branch, reply: RebaseReply, name: string)
    ensures var t := Rebase(s, base, reply).state;
            && CurrentBranch(t) == CurrentBranch(s)
            && BranchNamed(t, name) == BranchNamed(s, name)
            && forall n :: n in s.refs && (CurrentBranch(s).None? || n != CurrentBranch(s).value.name)
                           ==> n in t.refs && t.refs[n] == s.refs[n]
  {
    RebaseOutcome(s, base, reply);
    SameKeysSameLookups(s, Rebase(s, base, reply).state, name);
  }

  /** `Rebaser.rebase` on the repository. */
  method RebaseIn(g: GitLib, base: Branch, reply: RebaseReply) returns (r: Either<SuccessfulRebase>)
    modifies g
    ensures var step := Rebase(old(g.State()), base, reply);
            r == step.result && g.State() == step.state && g.events == old(g.events) + step.events
  {
    var step := Rebase(g.State(), base, reply);
    g.Load(step.state);
    g.events := g.events + step.events;
    r := step.result;
  }
}

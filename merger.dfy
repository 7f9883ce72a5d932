/**
 * `Merger`: merges a branch into the current branch with JGit's merge command (always
 * committing, with a message naming both branches) and turns the merge status into an error
 * message or a `SuccessfulMerge`.
 */
module Merger {
  import opened Wrappers
  import opened Strings
  import opened Commits
  import opened Repo
  import opened BranchRefs

  /** JGit's `MergeResult.MergeStatus`. */
  datatype MergeStatus =
    | FAST_FORWARD | FAST_FORWARD_SQUASHED | ALREADY_UP_TO_DATE | FAILED | MERGED | MERGED_SQUASHED
    | MERGED_SQUASHED_NOT_COMMITTED | CONFLICTING | ABORTED | MERGED_NOT_COMMITTED | NOT_SUPPORTED
    | CHECKOUT_CONFLICT

  /** JGit's `MergeStatus.isSuccessful()`. */
  predicate IsSuccessful(status: MergeStatus)
  {
    !(status.FAILED? || status.CONFLICTING? || status.ABORTED? || status.NOT_SUPPORTED? || status.CHECKOUT_CONFLICT?)
  }

  /** JGit's `MergeStatus.toString()`. */
  function StatusText(status: MergeStatus): string
  {
    match status
    case FAST_FORWARD => "Fast-forward"
    case FAST_FORWARD_SQUASHED => "Fast-forward-squashed"
    case ALREADY_UP_TO_DATE => "Already-up-to-date"
    case FAILED => "Failed"
    case MERGED => "Merged"
    case MERGED_SQUASHED => "Merged-squashed"
    case MERGED_SQUASHED_NOT_COMMITTED => "Merged-squashed-not-committed"
    case CONFLICTING => "Conflicting"
    case ABORTED => "Aborted"
    case MERGED_NOT_COMMITTED => "Merged-not-committed"
    case NOT_SUPPORTED => "Not-yet-supported"
    case CHECKOUT_CONFLICT => "Checkout Conflict"
  }

  /** `SuccessfulMerge`: the status of a merge that succeeded and the commit HEAD points to afterwards. */
  datatype SuccessfulMerge = SuccessfulMerge(status: MergeStatus, newHead: Oid)
  {
    /** `statusMsg()`. */
    function StatusMsg(): string
    {
      StatusText(status)
    }

    /** `toString()`: `SuccessfulMerge{<status> - <7-character new head>}`. */
    function ToString(): (r: string)
      ensures var prefix := "SuccessfulMerge{" + StatusMsg() + " - ";
              var n := if |newHead| < 7 then |newHead| else 7;
              && |r| == |prefix| + n + 1
              && r[..|prefix|] == prefix
              && r[|prefix|..|prefix| + n] == newHead[..n]
              && r[|r| - 1] == '}'
    {
      var prefix := "SuccessfulMerge{" + StatusMsg() + " - ";
      var sha := Abbreviate(newHead);
      Enclosed(prefix, sha, "}");
      prefix + sha + "}"
    }
  }

  /** What JGit's merge command answers: an exception's text, or a status with the new head and the commits made. */
  datatype MergeReply =
    | MergeThrew(text: string)
    | MergeDone(status: MergeStatus, newHead: Oid, commits: CommitGraph)

  const NoCurrentBranchMessage: string := "There is no branch checked out"

  /** The commit message of the merge: `Sync merge from <merged branch> into <current branch>`. */
  function MergeMessage(mergeBranch: Branch, current: Branch): string
  {
    "Sync merge from " + ShortName(mergeBranch) + " into " + ShortName(current)
  }

  /**
   * `merge(gitLib, mergeBranch)`: without a current branch, an error. The tips of both branches
   * are dereferenced for the log line, so a merge branch without a tip throws. The merge's
   * exception is rethrown as an `IllegalStateException`; a successful status moves the current
   * branch to the new head, and any other status is reported by its text and changes nothing.
   */
  function Merge(s: RepoState, mergeBranch: Branch, reply: MergeReply): Step<Try<Either<SuccessfulMerge>>>
  {
    match CurrentBranch(s)
    case None => Step(Ok(Left(NoCurrentBranchMessage)), s, [])
    case Some(current) =>
      match ObjectId(s, mergeBranch)
      case None => Step(Thrown(NullDereference), s, [])
      case Some(_) =>
        var events := [MergeEvent(mergeBranch.name, MergeMessage(mergeBranch, current))];
        match reply
        case MergeThrew(text) => Step(Thrown(IllegalState(text)), s, events)
        case MergeDone(status, newHead, commits) =>
          if IsSuccessful(status) then
            Step(Ok(Right(SuccessfulMerge(status, newHead))), MoveTip(s, current.name, newHead, commits), events)
          else
            Step(Ok(Left(StatusText(status))), s, events)
  }

  /**
   * What a merge answers and leaves behind, case by case; it succeeds exactly when a branch is
   * checked out, the merged branch has a tip and the command reports a successful status.
   */
  lemma MergeOutcome(s: RepoState, mergeBranch: Branch, reply: MergeReply)
    ensures var r := Merge(s, mergeBranch, reply);
            && (CurrentBranch(s).None? ==> r == Step(Ok(Left(NoCurrentBranchMessage)), s, []))
            && (CurrentBranch(s).Some? && mergeBranch.name !in s.refs ==> r == Step(Thrown(NullDereference), s, []))
            && (CurrentBranch(s).Some? && mergeBranch.name in s.refs
                ==> r.events == [MergeEvent(mergeBranch.name, MergeMessage(mergeBranch, CurrentBranch(s).value))])
            && (!(r.result.Ok? && r.result.value.Right?) ==> r.state == s)
            && (r.result.Thrown? && CurrentBranch(s).Some? && mergeBranch.name in s.refs
                ==> reply.MergeThrew? && r.result.ex == IllegalState(reply.text))
            && (r.result.Ok? && r.result.value.Right?
                <==> CurrentBranch(s).Some? && mergeBranch.name in s.refs && reply.MergeDone? && IsSuccessful(reply.status))
            && (r.result.Ok? && r.result.value.Right? ==>
                  && r.result.value.value == SuccessfulMerge(reply.status, reply.newHead)
                  && r.state == MoveTip(s, CurrentBranch(s).value.name, reply.newHead, reply.commits))
            && (CurrentBranch(s).Some? && mergeBranch.name in s.refs && reply.MergeDone? && !IsSuccessful(reply.status)
                ==> r.result == Ok(Left(StatusText(reply.status))))
  {
  }

  /** A merge keeps the same branch checked out and the same branches findable by name. */
  lemma MergeKeepsBranches(s: RepoState, mergeBranch: Branch, reply: MergeReply, name: string)
    ensures var t := Merge(s, mergeBranch, reply).state;
            && CurrentBranch(t) == CurrentBranch(s)
            && BranchNamed(t, name) == BranchNamed(s, name)
            && forall n :: n in s.refs && (CurrentBranch(s).None? || n != CurrentBranch(s).value.name)
                           ==> n in t.refs && t.refs[n] == s.refs[n]
  {
    MergeOutcome(s, mergeBranch, reply);
    SameKeysSameLookups(s, Merge(s, mergeBranch, reply).state, name);
  }

  /** `Merger.merge` on the repository. */
  method MergeIn(g: GitLib, mergeBranch: Branch, reply: MergeReply) returns (r: Try<Either<SuccessfulMerge>>)
    modifies g
    ensures var step := Merge(old(g.State()), mergeBranch, reply);
            r == step.result && g.State() == step.state && g.events == old(g.events) + step.events
  {
    var step := Merge(g.State(), mergeBranch, reply);
    g.Load(step.state);
    g.events := g.events + step.events;
    r := step.result;
  }
}

# git-process in Dafny

A model of the core of **git-process**, the Java tool behind `git sync`, `git new-fb` and
`git pull-req`. It covers:

- **The sync engine.** `Sync.sync` checks its preconditions, fetches, and rebases or merges the
  current branch onto the integration branch. It then decides how to push. If the remote copy is
  the one last synced against, it pushes: fast-forward when the branch already contains that
  commit, forced when it does not. If the remote copy changed, the branch is first combined with
  the remote branch and then with the integration branch, and the push is forced.
- **The pusher.** `Pusher` refuses to push the integration branch onto itself and runs the
  pre-push and post-push hooks. After a successful push it updates the tracking ref and records
  the sync point in the `gitProcess/<branch>` control ref.
- **Branches.** `Branch` models name resolution, simple and remote names, ancestry, the sync-point
  control ref and the remote tip. `DefaultBranches`/`Branches` cover the branch catalogue, the
  current branch, the `_parking_` branch, and creating and removing branches.
- **The stored configuration.** This covers the integration branch, upstream tracking, the remote
  name and remote URL (including normalising scp-style addresses), the repository name, the
  credential helper, and the general `gitProcess.*` settings.
- **`NewFeatureBranch`**, and the rebase and merge adapters.
- **The command line.** The options of the three commands (help, version, logging flags, the
  merge/rebase choice, arguments) and the runners' exit codes.
- **Pull requests.** How `git pull-req` chooses its branches and title, the JSON the pull-request
  creator sends, and how the GitHub API address is derived from the remote URL.
- **`Network.toHex`.**

**The repository.** It is a value, `Repo.RepoState`, holding:
- the refs (full ref name to commit id);
- the commit graph;
- HEAD;
- the `gitProcess/<branch>` control refs;
- the git configuration, as a map from (section, subsection, name) to value;
- whether the work tree has uncommitted changes.

**`Repo.GitLib`** is the mutable handle the Java code threads through every call. It is a class
whose fields the operations update in place, and it keeps a log of the backend steps taken
(fetch, rebase, merge, checkout, push, hooks).

**What JGit and git do** (fetch, rebase, merge, checkout, push, reading and writing control refs,
running hooks) is not modelled. The answer each one gives is a parameter (`Repo.Replies` and the
`*Reply` datatypes), so every outcome the code handles is covered.

**How orchestrations are written.** Each orchestration is a ghost function returning
`Step(result, state, events)`: what it answers, the repository afterwards, and the backend steps
it took. An imperative method on `GitLib` is then proved to do exactly that. The properties are
lemmas about those functions: which steps run and in what order, when a push is forced, what is
left unchanged, and the round trips.

**Java conventions, in Dafny terms:**
- `null` is `Option`;
- vavr's `Either<String, T>` is `Either` (`Left(msg)`/`Right(value)`);
- an exception escaping a call is `Try` (`Ok`/`Thrown(ex)`);
- a Java `byte` is `Network.JByte`.

## Model

| member | source | states |
|---|---|---|
| Sync.Preconditions | modules/lib/src/main/java/com/mooregreatsoftware/gitprocess/process/Sync.java:64-80 | Sync may go ahead exactly when there is a current branch, an integration branch, HEAD is not on `_parking_` and the work tree is clean; otherwise it names the first check that failed, in the source's order and with its message |
| Sync.SyncChecksPreconditionsFirst | modules/lib/src/main/java/com/mooregreatsoftware/gitprocess/process/Sync.java:51-58 | a failed precondition stops sync with its message before any backend step or state change; any step taken implies the preconditions held |
| Sync.CombinerFor | modules/lib/src/main/java/com/mooregreatsoftware/gitprocess/process/Sync.java:88-107 | the merge adapter is chosen exactly when `doMerge` is set, and the rebase adapter otherwise |
| Sync.SyncUsesChosenCombiner | modules/lib/src/main/java/com/mooregreatsoftware/gitprocess/process/Sync.java:88-107 | a sync only ever merges when asked to merge and only ever rebases when asked to rebase |
| Sync.FetchStep | modules/lib/src/main/java/com/mooregreatsoftware/gitprocess/process/Sync.java:168-177 | no fetch when local-only or without remotes; otherwise exactly one fetch, whose failure message is returned and leaves the repository as it was |
| Sync.FetchIn | modules/lib/src/main/java/com/mooregreatsoftware/gitprocess/process/Sync.java:168-177 | the imperative fetch step does what `FetchStep` specifies to the repository and the step log |
| Sync.SyncFetchesOnlyWhenAllowed | modules/lib/src/main/java/com/mooregreatsoftware/gitprocess/process/Sync.java:51-177 | a sync fetches at most once, as its first step, and only when not local-only, with remotes, and after the preconditions held |
| Sync.LocalOnlySyncStaysLocal | modules/lib/src/main/java/com/mooregreatsoftware/gitprocess/process/Sync.java:146-177 | a local-only sync never fetches, pushes or runs hooks: its only steps are rebases or merges |
| Sync.ApplyFacts | modules/lib/src/main/java/com/mooregreatsoftware/gitprocess/process/Sync.java:326-357 | the combine adapter takes at most one rebase/merge step, of its own kind; it keeps branches, HEAD, config and control refs; it leaves the repository untouched when it fails; a missing base branch throws |
| Sync.ApplyKeeps | modules/lib/src/main/java/com/mooregreatsoftware/gitprocess/process/Sync.java:326-357 | a combine keeps the set of refs, HEAD, the config, the control refs and the worktree state, and changes nothing when it fails |
| Sync.ApplyRuns | modules/lib/src/main/java/com/mooregreatsoftware/gitprocess/process/Sync.java:326-357 | a combine runs at most one step, its own combiner's, exactly when there is a current branch and a base with a tip; a missing base throws |
| Sync.ApplyIn | modules/lib/src/main/java/com/mooregreatsoftware/gitprocess/process/Sync.java:326-357 | the imperative adapter call does what `Apply` specifies |
| Sync.Decide | modules/lib/src/main/java/com/mooregreatsoftware/gitprocess/process/Sync.java:231-290 | the push plan: a failed read of the sync point is reported; force-push exactly when the remote tip is the last-synced commit and not in the branch's history; reconcile exactly when the remote changed since the last sync, or (never synced) when the branch lacks the remote tip; fast-forward otherwise, including no remote tip; a history walk that throws is relayed |
| Sync.DecideIn | modules/lib/src/main/java/com/mooregreatsoftware/gitprocess/process/Sync.java:231-290 | the imperative decision answers what `Decide` specifies |
| Sync.TargetOf | modules/lib/src/main/java/com/mooregreatsoftware/gitprocess/process/Sync.java:245-258 | the pusher targets the branch's simple name with the chosen force flag; a simple-name failure is relayed |
| Sync.ReconcileFacts | modules/lib/src/main/java/com/mooregreatsoftware/gitprocess/process/Sync.java:298-313 | reconciling takes at most two combine steps of the chosen kind, keeps branches, HEAD, config and control refs, and always asks for a forced push when it succeeds |
| Sync.ReconcileSequence | modules/lib/src/main/java/com/mooregreatsoftware/gitprocess/process/Sync.java:298-313 | a successful reconcile first combines the current branch with its remote branch and then with the integration branch, in that order |
| Sync.CombineTwiceSequence | modules/lib/src/main/java/com/mooregreatsoftware/gitprocess/process/Sync.java:302-312 | with the remote branch found, a successful run is exactly those two combines: remote branch, then integration branch |
| Sync.ReintegrateSequence | modules/lib/src/main/java/com/mooregreatsoftware/gitprocess/process/Sync.java:307-312 | the second half of a reconcile combines once with the integration branch |
| Sync.ReconcileIn | modules/lib/src/main/java/com/mooregreatsoftware/gitprocess/process/Sync.java:298-313 | the imperative reconcile does what `ReconcileWithRemoteBranch` specifies |
| Sync.CombineTwiceIn | modules/lib/src/main/java/com/mooregreatsoftware/gitprocess/process/Sync.java:302-312 | the imperative two-step combine does what `CombineTwice` specifies |
| Sync.ReintegrateIn | modules/lib/src/main/java/com/mooregreatsoftware/gitprocess/process/Sync.java:307-312 | the imperative integration combine does what `Reintegrate` specifies |
| Sync.HandleRemoteChangedFacts | modules/lib/src/main/java/com/mooregreatsoftware/gitprocess/process/Sync.java:231-290 | only the reconcile plan touches the repository; a successful answer targets the branch's simple name and is forced exactly when the plan is not fast-forward |
| Sync.HandleRemoteChangedIn | modules/lib/src/main/java/com/mooregreatsoftware/gitprocess/process/Sync.java:231-290 | the imperative remote-change handling does what `HandleRemoteChanged` specifies |
| Sync.PushOutcome | modules/lib/src/main/java/com/mooregreatsoftware/gitprocess/process/Sync.java:185-197 | no message exactly when the push ran and succeeded; the pusher's error, or the result's text for an unsuccessful push, otherwise |
| Sync.PushToTargetFacts | modules/lib/src/main/java/com/mooregreatsoftware/gitprocess/lib/Pusher.java:189-257 | every push step pushes the current branch to the chosen remote branch with the chosen force flag |
| Sync.ForcePushOnlyWhenDecided | modules/lib/src/main/java/com/mooregreatsoftware/gitprocess/process/Sync.java:185-290 | pushing with conflict resolution never fetches; every push it makes goes to the branch's simple name and is forced exactly when the plan was force-push or reconcile |
| Sync.PushesAsTargeted | modules/lib/src/main/java/com/mooregreatsoftware/gitprocess/process/Sync.java:185-197 | pushing with conflict resolution never fetches, keeps HEAD and the config, and every push it makes is the one the handled remote change targets |
| Sync.HandledCombinesOnly | modules/lib/src/main/java/com/mooregreatsoftware/gitprocess/process/Sync.java:231-290 | handling a remote change runs only the combiner's steps and keeps HEAD and the config |
| Sync.PushWithConflictResolutionIn | modules/lib/src/main/java/com/mooregreatsoftware/gitprocess/process/Sync.java:185-197 | the imperative push with conflict resolution does what `PushWithConflictResolution` specifies |
| Sync.PushToTargetIn | modules/lib/src/main/java/com/mooregreatsoftware/gitprocess/process/Sync.java:187-193 | the imperative push to a target does what `PushToTarget` specifies |
| Sync.PushCombinedBranchIn | modules/lib/src/main/java/com/mooregreatsoftware/gitprocess/process/Sync.java:146-162 | pushes only when not local-only and there are remotes, and otherwise does nothing |
| Sync.PushedBranch | modules/lib/src/main/java/com/mooregreatsoftware/gitprocess/process/Sync.java:126-127 | sync answers the current branch exactly when the push reported no error; the error message otherwise |
| Sync.CombineAndPushFacts | modules/lib/src/main/java/com/mooregreatsoftware/gitprocess/process/Sync.java:124-131 | combine-then-push never fetches, takes only steps of the chosen combiner or of pushing, keeps HEAD and config, and a success answers the current branch |
| Sync.FetchThenCombineFacts | modules/lib/src/main/java/com/mooregreatsoftware/gitprocess/process/Sync.java:121-131 | the only fetch is the first step, and a success answers the current branch |
| Sync.CombineSyncFacts | modules/lib/src/main/java/com/mooregreatsoftware/gitprocess/process/Sync.java:110-140 | the combine-based sync fetches at most as its first step; a success answers the branch that was current |
| Sync.CombineSyncIn | modules/lib/src/main/java/com/mooregreatsoftware/gitprocess/process/Sync.java:110-140 | the imperative combine-based sync does what `CombineSync` specifies |
| Sync.CombineAndPushIn | modules/lib/src/main/java/com/mooregreatsoftware/gitprocess/process/Sync.java:124-131 | the imperative combine-and-push does what `CombineAndPush` specifies |
| Sync.SyncKeepsCurrentBranch | modules/lib/src/main/java/com/mooregreatsoftware/gitprocess/process/Sync.java:51-140 | sync never moves HEAD or changes the config, and a successful sync answers the branch that was current |
| Sync.SyncIn | modules/lib/src/main/java/com/mooregreatsoftware/gitprocess/process/Sync.java:51-58 | the imperative `sync` does what the `Sync` specification says, to the repository and the step log |
| Pusher.PushResultSuccessful | modules/lib/src/main/java/com/mooregreatsoftware/gitprocess/lib/Pusher.java:355-364 | a push result is successful exactly when every ref update has a good status |
| Pusher.AllPushesSuccessful | modules/lib/src/main/java/com/mooregreatsoftware/gitprocess/lib/Pusher.java:349-353 | all pushes are successful exactly when every update of every push has a good status |
| Pusher.ProcToStringBlankError | modules/lib/src/main/java/com/mooregreatsoftware/gitprocess/lib/Pusher.java:318-336 | a git-program push with a blank error stream prints as its output alone |
| Pusher.ProcToStringWithError | modules/lib/src/main/java/com/mooregreatsoftware/gitprocess/lib/Pusher.java:318-336 | with a non-blank error stream the text is the output, a newline, then the trimmed error text |
| Pusher.Builder.constructor | modules/lib/src/main/java/com/mooregreatsoftware/gitprocess/lib/Pusher.java:79-101 | a new builder has the repository and no branch, remote branch name or hooks yet |
| Pusher.Builder.SetLocalBranch | modules/lib/src/main/java/com/mooregreatsoftware/gitprocess/lib/Pusher.java:104-108 | sets the local branch and changes nothing else |
| Pusher.Builder.SetLocalBranchNamed | modules/lib/src/main/java/com/mooregreatsoftware/gitprocess/lib/Pusher.java:110-117 | looks the name up: a known branch is set; an unknown one throws `IllegalArgumentException` and sets nothing |
| Pusher.Builder.SetRemoteBranchName | modules/lib/src/main/java/com/mooregreatsoftware/gitprocess/lib/Pusher.java:119-123 | sets the remote branch name and changes nothing else |
| Pusher.Builder.SetPrePush | modules/lib/src/main/java/com/mooregreatsoftware/gitprocess/lib/Pusher.java:125-129 | sets the pre-push hook and changes nothing else |
| Pusher.Builder.SetPostPush | modules/lib/src/main/java/com/mooregreatsoftware/gitprocess/lib/Pusher.java:131-135 | sets the post-push hook and changes nothing else |
| Pusher.Builder.Build | modules/lib/src/main/java/com/mooregreatsoftware/gitprocess/lib/Pusher.java:97-101 | builds exactly when both the local branch and the remote branch name were set, from exactly those settings; otherwise names the missing one |
| Pusher.Create | modules/lib/src/main/java/com/mooregreatsoftware/gitprocess/lib/Pusher.java:148-161 | the pusher carries the given branch, remote branch name, hooks and force flag |
| Pusher.MainlineGuard | modules/lib/src/main/java/com/mooregreatsoftware/gitprocess/lib/Pusher.java:197-203 | refuses exactly when the branch to push and the integration branch have the same simple name |
| Pusher.DoPush | modules/lib/src/main/java/com/mooregreatsoftware/gitprocess/lib/Pusher.java:290-301 | one push step with the requested branch, remote branch and force flag; only a successful push changes the repository, by moving the tracking ref to the local tip |
| Pusher.AfterPush | modules/lib/src/main/java/com/mooregreatsoftware/gitprocess/lib/Pusher.java:233-252 | with a post-push hook, runs it and reports its failure; without one, records the sync point only when pushing to the branch's own name, and reports a failure to record it |
| Pusher.PushChecked | modules/lib/src/main/java/com/mooregreatsoftware/gitprocess/lib/Pusher.java:205-252 | a checked push takes only hook and push steps and never moves HEAD or changes the config |
| Pusher.Push | modules/lib/src/main/java/com/mooregreatsoftware/gitprocess/lib/Pusher.java:189-257 | without remotes, or when pushing the integration branch onto itself, nothing happens and the reason is returned; otherwise the checked push |
| Pusher.PushOnlyWhenAllowed | modules/lib/src/main/java/com/mooregreatsoftware/gitprocess/lib/Pusher.java:189-257 | a push step happens only with remotes, past the mainline guard, after a pre-push hook that did not fail, and it is the first step after that hook |
| Pusher.PushEventsAsAsked | modules/lib/src/main/java/com/mooregreatsoftware/gitprocess/lib/Pusher.java:189-257 | every push step uses exactly the branch, remote branch name and force flag asked for |
| Pusher.PushCheckedPushesAsAsked | modules/lib/src/main/java/com/mooregreatsoftware/gitprocess/lib/Pusher.java:205-252 | the checked push pushes, at most once, exactly the branch, remote branch name and force flag asked for |
| Pusher.PushRecordsSyncPoint | modules/lib/src/main/java/com/mooregreatsoftware/gitprocess/lib/Pusher.java:226-252 | a successful push to the branch's own name without a post-push hook moves the tracking ref and records the pushed tip as the sync point |
| Pusher.PushIn | modules/lib/src/main/java/com/mooregreatsoftware/gitprocess/lib/Pusher.java:167-169 | the imperative push does what `Push` specifies |
| BranchRefs.RemotePrefix | modules/lib/src/main/java/com/mooregreatsoftware/gitprocess/lib/Branch.java:122-139 | a name has a remote prefix exactly when its text before the first `/` is a configured remote name, compared ignoring case, and that prefix is a real prefix of the name |
| BranchRefs.RefNameFor | modules/lib/src/main/java/com/mooregreatsoftware/gitprocess/lib/Branch.java:75-111 | a full ref name is used as given |
| BranchRefs.ComputeRefNameShortens | modules/lib/src/main/java/com/mooregreatsoftware/gitprocess/lib/Branch.java:92-111 | the computed full ref name shortens back to the short name the user gave |
| BranchRefs.ComputeRefNameRemote | modules/lib/src/main/java/com/mooregreatsoftware/gitprocess/lib/Branch.java:92-111 | a short name becomes a remote-tracking ref exactly when there are remotes and it starts with a remote's name |
| BranchRefs.Of | modules/lib/src/main/java/com/mooregreatsoftware/gitprocess/lib/Branch.java:75-88 | an invalid ref name is refused with its message; a valid one resolves exactly when the ref lookup finds it, and always to an existing ref |
| BranchRefs.OfExisting | modules/lib/src/main/java/com/mooregreatsoftware/gitprocess/lib/Branch.java:75-88 | an existing valid full ref name resolves to itself |
| BranchRefs.OfLocal | modules/lib/src/main/java/com/mooregreatsoftware/gitprocess/lib/Branch.java:75-111 | without remotes, a short name resolves to its `refs/heads/` branch |
| BranchRefs.SimpleName | modules/lib/src/main/java/com/mooregreatsoftware/gitprocess/lib/Branch.java:158-167 | a local branch's simple name is its short name; a remote branch's is what follows its remote prefix, and finding no remote prefix throws |
| BranchRefs.RemoteName | modules/lib/src/main/java/com/mooregreatsoftware/gitprocess/lib/Branch.java:179-181 | only remote branches have a remote name, and the short name is the remote name, `/` and the simple name |
| BranchRefs.SimpleNameLocal | modules/lib/src/main/java/com/mooregreatsoftware/gitprocess/lib/Branch.java:158-181 | `refs/heads/x` has simple name `x` and no remote name |
| BranchRefs.SimpleNameRemote | modules/lib/src/main/java/com/mooregreatsoftware/gitprocess/lib/Branch.java:158-181 | `refs/remotes/<remote>/x` has simple name `x` and remote name `<remote>` |
| BranchRefs.RemotePrefixOf | modules/lib/src/main/java/com/mooregreatsoftware/gitprocess/lib/Branch.java:122-139 | a configured remote's name followed by `/` is recognised as the remote prefix |
| BranchRefs.ObjectId | modules/lib/src/main/java/com/mooregreatsoftware/gitprocess/lib/Branch.java:215-217 | the branch's tip, present exactly when its ref exists |
| BranchRefs.Sha | modules/lib/src/main/java/com/mooregreatsoftware/gitprocess/lib/Branch.java:221-223 | the tip's first seven characters, throwing when the ref is missing |
| BranchRefs.ToString | modules/lib/src/main/java/com/mooregreatsoftware/gitprocess/lib/Branch.java:414-416 | the text is `Branch{`, the short name, `(`, the first seven characters of the tip id (all of it when shorter), then `)}` |
| BranchRefs.Contains | modules/lib/src/main/java/com/mooregreatsoftware/gitprocess/lib/Branch.java:249-264 | the history walk answers exactly whether the commit is an ancestor of the branch tip |
| BranchRefs.ContainsAllOf | modules/lib/src/main/java/com/mooregreatsoftware/gitprocess/lib/Branch.java:243-246 | the walk answers whether the other branch's tip is in this branch's history |
| BranchRefs.ContainsAllOfNamed | modules/lib/src/main/java/com/mooregreatsoftware/gitprocess/lib/Branch.java:232-234 | resolves the name first and relays a failure to resolve it |
| BranchRefs.ContainsAllOfSelf | modules/lib/src/main/java/com/mooregreatsoftware/gitprocess/lib/Branch.java:243-246 | a branch contains all of itself |
| BranchRefs.ContainsAllOfTransitive | modules/lib/src/main/java/com/mooregreatsoftware/gitprocess/lib/Branch.java:243-264 | containment is transitive |
| BranchRefs.LastSyncedAgainst | modules/lib/src/main/java/com/mooregreatsoftware/gitprocess/lib/Branch.java:310-319 | the recorded sync point of the branch's control ref, absent when none is recorded; a read failure is reported |
| BranchRefs.RecordLastSynced | modules/lib/src/main/java/com/mooregreatsoftware/gitprocess/lib/Branch.java:293-301 | records the branch's current tip as its sync point, and changes nothing on a write failure or without a tip |
| BranchRefs.RecordLastSyncedAgainst | modules/lib/src/main/java/com/mooregreatsoftware/gitprocess/lib/Branch.java:293-301 | the imperative record does what `RecordLastSynced` specifies |
| BranchRefs.RecordThenRead | modules/lib/src/main/java/com/mooregreatsoftware/gitprocess/lib/Branch.java:293-319 | reading back after recording gives the recorded tip, and other branches' sync points are untouched |
| BranchRefs.RemoteBranchName | modules/lib/src/main/java/com/mooregreatsoftware/gitprocess/lib/Branch.java:377-381 | without remotes there is no remote branch name; otherwise it is the remote name, `/`, and the branch's short name |
| BranchRefs.BranchNamed | modules/lib/src/main/java/com/mooregreatsoftware/gitprocess/lib/DefaultBranches.java:69-72 | finds a ref exactly when one of the search-path candidates for the name exists, and only existing refs |
| BranchRefs.BranchNamedIsOf | modules/lib/src/main/java/com/mooregreatsoftware/gitprocess/lib/Branch.java:75-88 | a branch found by name resolves to itself through `Branch.of` |
| BranchRefs.RemoteOid | modules/lib/src/main/java/com/mooregreatsoftware/gitprocess/lib/Branch.java:370-396 | a remote tip exactly when the branch has a remote branch name and that name resolves to a ref, and then that ref's tip |
| BranchRefs.PreviousRemoteOid | modules/lib/src/main/java/com/mooregreatsoftware/gitprocess/lib/Branch.java:327-357 | fetches once when there are remotes; answers a sync point only when the fetch succeeded and the remote tip has moved away from it |
| BranchRefs.PreviousRemoteOidRecorded | modules/lib/src/main/java/com/mooregreatsoftware/gitprocess/lib/Branch.java:327-357 | after a good fetch, answers the recorded sync point exactly when the remote tip differs from it |
| BranchRefs.PreviousRemoteOidFetchFailed | modules/lib/src/main/java/com/mooregreatsoftware/gitprocess/lib/Branch.java:327-357 | a failed fetch answers nothing and changes nothing |
| BranchRefs.PreviousRemoteOidUnrecorded | modules/lib/src/main/java/com/mooregreatsoftware/gitprocess/lib/Branch.java:327-357 | with no readable sync point, a good fetch answers the remote tip from before the fetch exactly when the fetch moved it |
| BranchRefs.RemoteHasChanged | modules/lib/src/main/java/com/mooregreatsoftware/gitprocess/lib/Branch.java:364-366 | true exactly when there are remotes, the fetch succeeded, there is a previous remote tip (the recorded sync point, or the remote tip before the fetch when none is readable) and the remote tip after the fetch differs from it |
| BranchRefs.PreviousRemoteOID | modules/lib/src/main/java/com/mooregreatsoftware/gitprocess/lib/Branch.java:327-357 | the imperative version does what `PreviousRemoteOid` specifies |
| BranchRefs.Checkout | modules/lib/src/main/java/com/mooregreatsoftware/gitprocess/lib/GitLib.java:242-247 | one checkout step; a failure is reported and changes nothing; a success keeps refs and config and points HEAD at a local branch |
| BranchRefs.CheckoutBranch | modules/lib/src/main/java/com/mooregreatsoftware/gitprocess/lib/Branch.java:268-270 | the imperative checkout does what `Checkout` specifies |
| BranchRefs.CurrentBranch | modules/lib/src/main/java/com/mooregreatsoftware/gitprocess/lib/DefaultBranches.java:48-53 | there is a current branch only when HEAD names an existing ref; in a well-formed repository it is exactly that ref |
| BranchRefs.CurrentIsHeadTarget | modules/lib/src/main/java/com/mooregreatsoftware/gitprocess/lib/DefaultBranches.java:48-53 | HEAD attached to an existing ref under `refs/` makes that ref the current branch |
| BranchRefs.SameKeysSameLookups | modules/lib/src/main/java/com/mooregreatsoftware/gitprocess/lib/DefaultBranches.java:48-72 | lookups by name and the current branch depend only on which refs exist and on HEAD, not on their tips |
| BranchRefs.CheckoutParkingIsOnParking | modules/lib/src/main/java/com/mooregreatsoftware/gitprocess/lib/Branches.java:43-46 | checking out `_parking_` leaves HEAD on `_parking_` |
| BranchRefs.AllBranches | modules/lib/src/main/java/com/mooregreatsoftware/gitprocess/lib/DefaultBranches.java:99-108 | every existing local and remote-tracking branch, and nothing else |
| BranchRefs.RemoteBranches | modules/lib/src/main/java/com/mooregreatsoftware/gitprocess/lib/Branches.java:132-134 | exactly the remote branches among all branches |
| BranchRefs.LocalBranches | modules/lib/src/main/java/com/mooregreatsoftware/gitprocess/lib/Branches.java:137-139 | exactly the local branches among all branches |
| BranchRefs.BranchesPartition | modules/lib/src/main/java/com/mooregreatsoftware/gitprocess/lib/Branches.java:132-139 | local and remote branches are disjoint and together make up all branches |
| Branches.CreateBranch | modules/lib/src/main/java/com/mooregreatsoftware/gitprocess/lib/DefaultBranches.java:77-85 | creating an existing name throws and changes nothing; a success adds exactly the new `refs/heads/` ref at the base's tip and keeps the repository well formed |
| Branches.CreateBranchSucceeds | modules/lib/src/main/java/com/mooregreatsoftware/gitprocess/lib/DefaultBranches.java:77-85 | a new valid name on an existing base is always created |
| Branches.CreatedBranchIsFound | modules/lib/src/main/java/com/mooregreatsoftware/gitprocess/lib/DefaultBranches.java:77-85 | the created branch is found by its name, has the base's tip and contains all of the base |
| Branches.CreateBranchNamed | modules/lib/src/main/java/com/mooregreatsoftware/gitprocess/lib/Branches.java:113-118 | an unknown base name throws; otherwise it creates from that base |
| Branches.CreateBranchIn | modules/lib/src/main/java/com/mooregreatsoftware/gitprocess/lib/DefaultBranches.java:77-85 | the imperative version does what `CreateBranch` specifies |
| Branches.RemoveBranch | modules/lib/src/main/java/com/mooregreatsoftware/gitprocess/lib/DefaultBranches.java:90-95 | throws exactly when the branch is checked out, and then changes nothing; a success removes exactly that ref and exactly the `branch.<name>.*` settings of a local branch, keeping every other key's value, HEAD, control refs, history and the work tree |
| Branches.RemovedBranchIsGone | modules/lib/src/main/java/com/mooregreatsoftware/gitprocess/lib/DefaultBranches.java:90-95 | after removal the branch has no tip and every other branch keeps its tip |
| Branches.RemoveBranchIn | modules/lib/src/main/java/com/mooregreatsoftware/gitprocess/lib/DefaultBranches.java:90-95 | the imperative version does what `RemoveBranch` specifies |
| Branches.Parking | modules/lib/src/main/java/com/mooregreatsoftware/gitprocess/lib/Branches.java:51-58 | an existing `_parking_` is answered unchanged; without it and without an integration branch, throws; a success adds at most the parking ref |
| Branches.ParkingCreatedFromIntegration | modules/lib/src/main/java/com/mooregreatsoftware/gitprocess/lib/Branches.java:51-58 | a missing `_parking_` is created at the integration branch's tip and is then found by name |
| Branches.ParkingIn | modules/lib/src/main/java/com/mooregreatsoftware/gitprocess/lib/Branches.java:51-58 | the imperative version does what `Parking` specifies |
| BranchConfig.IntegrationFromRemote | modules/lib/src/main/java/com/mooregreatsoftware/gitprocess/lib/config/StoredBranchConfig.java:87-101 | a remote `<remote>/master` branch of the configured remote, or nothing |
| BranchConfig.IntegrationFromRemoteComplete | modules/lib/src/main/java/com/mooregreatsoftware/gitprocess/lib/config/StoredBranchConfig.java:87-101 | whenever that remote `master` branch exists, it is found |
| BranchConfig.IntegrationFromLocal | modules/lib/src/main/java/com/mooregreatsoftware/gitprocess/lib/config/StoredBranchConfig.java:104-114 | a local `master` branch, or nothing |
| BranchConfig.IntegrationFromLocalComplete | modules/lib/src/main/java/com/mooregreatsoftware/gitprocess/lib/config/StoredBranchConfig.java:104-114 | whenever a local `master` exists, it is found |
| BranchConfig.IntegrationBranch | modules/lib/src/main/java/com/mooregreatsoftware/gitprocess/lib/config/StoredBranchConfig.java:67-72 | the configured `gitProcess.integrationBranch` when it names an existing branch; the answer is always an existing branch |
| BranchConfig.IntegrationFallsBackToRemoteMaster | modules/lib/src/main/java/com/mooregreatsoftware/gitprocess/lib/config/StoredBranchConfig.java:67-115 | with no usable configured name and remotes, a remote-tracking `<remote>/master` is the integration branch |
| BranchConfig.IntegrationFallsBackToLocalMaster | modules/lib/src/main/java/com/mooregreatsoftware/gitprocess/lib/config/StoredBranchConfig.java:67-115 | with no usable configured name and no remotes, a local `master` is the integration branch |
| BranchConfig.NoIntegrationBranch | modules/lib/src/main/java/com/mooregreatsoftware/gitprocess/lib/config/StoredBranchConfig.java:67-115 | there is no integration branch exactly when no configured name resolves and the fallback (`<remote>/master` with remotes, `master` without) finds nothing |
| BranchConfig.SameKeysSameIntegration | modules/lib/src/main/java/com/mooregreatsoftware/gitprocess/lib/config/StoredBranchConfig.java:67-149 | the integration branch depends only on which refs exist, HEAD and the config |
| BranchConfig.SetIntegrationBranch | modules/lib/src/main/java/com/mooregreatsoftware/gitprocess/lib/config/StoredBranchConfig.java:79-84 | writes the branch's name to `gitProcess.integrationBranch` and keeps every other key |
| BranchConfig.SetIntegrationBranchRoundTrip | modules/lib/src/main/java/com/mooregreatsoftware/gitprocess/lib/config/StoredBranchConfig.java:67-84 | after setting an existing full-named branch, it is the integration branch |
| BranchConfig.StoreIntegrationBranch | modules/lib/src/main/java/com/mooregreatsoftware/gitprocess/lib/config/StoredBranchConfig.java:79-84 | the imperative write does what `SetIntegrationBranch` specifies |
| BranchConfig.SetUpstream | modules/lib/src/main/java/com/mooregreatsoftware/gitprocess/lib/config/StoredBranchConfig.java:153-176 | writes `branch.<b>.remote` and `.merge`: the remote and `refs/heads/<simple name>` for a remote upstream; `.` and the short name for a local one; other keys unchanged |
| BranchConfig.StoreUpstream | modules/lib/src/main/java/com/mooregreatsoftware/gitprocess/lib/config/StoredBranchConfig.java:153-176 | the imperative write does what `SetUpstream` specifies |
| BranchConfig.GetUpstream | modules/lib/src/main/java/com/mooregreatsoftware/gitprocess/lib/config/StoredBranchConfig.java:181-206 | no upstream exactly when no remote is configured for the branch; a remote without a merge key throws; a found upstream exists |
| BranchConfig.NoDotRemote | modules/lib/src/main/java/com/mooregreatsoftware/gitprocess/lib/config/StoredBranchConfig.java:153-206 | a remote branch's remote name is never `.`, so the two kinds of upstream cannot be confused |
| BranchConfig.SetUpstreamRoundTrip | modules/lib/src/main/java/com/mooregreatsoftware/gitprocess/lib/config/StoredBranchConfig.java:153-206 | reading the upstream back after setting it gives the same branch |
| BranchConfig.SetUpstreamRoundTripRemote | modules/lib/src/main/java/com/mooregreatsoftware/gitprocess/lib/config/StoredBranchConfig.java:153-206 | the round trip for a remote-tracking upstream |
| BranchConfig.SetUpstreamRoundTripLocal | modules/lib/src/main/java/com/mooregreatsoftware/gitprocess/lib/config/StoredBranchConfig.java:153-206 | the round trip for a local upstream |
| NewFeatureBranch.BaseBranch | modules/lib/src/main/java/com/mooregreatsoftware/gitprocess/process/NewFeatureBranch.java:90-103 | off `_parking_`, the integration branch; on `_parking_`, the integration branch when it contains all of parking, else parking itself |
| NewFeatureBranch.BaseBranchIn | modules/lib/src/main/java/com/mooregreatsoftware/gitprocess/process/NewFeatureBranch.java:90-97 | the imperative version does what `BaseBranch` specifies |
| NewFeatureBranch.RemoveParking | modules/lib/src/main/java/com/mooregreatsoftware/gitprocess/process/NewFeatureBranch.java:49-73 | nothing is removed unless the command started on `_parking_`; when it did and parking exists, it is removed with its settings exactly when HEAD has left it, keeping every other ref and key |
| NewFeatureBranch.RemoveParkingIn | modules/lib/src/main/java/com/mooregreatsoftware/gitprocess/process/NewFeatureBranch.java:49-73 | the imperative version does what `RemoveParking` specifies |
| NewFeatureBranch.NeedsIntegrationBranch | modules/lib/src/main/java/com/mooregreatsoftware/gitprocess/process/NewFeatureBranch.java:49-73 | without an integration branch the command throws before doing anything |
| NewFeatureBranch.FetchesOnlyWhenNotLocal | modules/lib/src/main/java/com/mooregreatsoftware/gitprocess/process/NewFeatureBranch.java:49-73 | fetches at most once, first, and never when local-only |
| NewFeatureBranch.FetchAndCreateFetchesFirst | modules/lib/src/main/java/com/mooregreatsoftware/gitprocess/process/NewFeatureBranch.java:58-72 | fetch-then-create fetches only as its first step, and never when local-only |
| NewFeatureBranch.CheckOutStepsOnly | modules/lib/src/main/java/com/mooregreatsoftware/gitprocess/process/NewFeatureBranch.java:49-73 | after the fetch, the only backend step is checking out the new branch |
| NewFeatureBranch.SucceedsOnNewBranch | modules/lib/src/main/java/com/mooregreatsoftware/gitprocess/process/NewFeatureBranch.java:49-73 | success answers `refs/heads/<name>` with HEAD on it, and needed an integration branch and a successful checkout |
| NewFeatureBranch.CreatedAndCheckedOut | modules/lib/src/main/java/com/mooregreatsoftware/gitprocess/process/NewFeatureBranch.java:49-73 | a created and checked-out branch is answered with HEAD on it at the base's tip; off `_parking_`, the refs are the old ones plus the new branch and the config is the old one with the integration branch as upstream (the `_parking_` case is `CreatedFromParking`) |
| NewFeatureBranch.CreatedFromParking | modules/lib/src/main/java/com/mooregreatsoftware/gitprocess/process/NewFeatureBranch.java:61-72 | started on `_parking_`, a created and checked-out branch is answered, HEAD is on it, and the refs are the old ones plus the new branch at the base tip and minus parking (the config is `CreatedFromParkingConfig`) |
| NewFeatureBranch.CreatedFromParkingConfig | modules/lib/src/main/java/com/mooregreatsoftware/gitprocess/process/NewFeatureBranch.java:61-72 | started on `_parking_`, a created and checked-out branch has its remote and merge keys set, and the config holds exactly the upstream-set keys outside parking's own section, with their values |
| NewFeatureBranch.CheckedOutWithUpstream | modules/lib/src/main/java/com/mooregreatsoftware/gitprocess/process/NewFeatureBranch.java:61-72 | creating and checking out from parking leaves HEAD on the new branch at the base tip with the integration branch as upstream, parking still findable and distinct from it, and what follows is removing parking |
| NewFeatureBranch.StartedOnParkingRemovesParking | modules/lib/src/main/java/com/mooregreatsoftware/gitprocess/process/NewFeatureBranch.java:49-73 | a successful run that started on `_parking_` removes parking and creates the branch at the chosen base's fetched tip, with HEAD on it and the integration branch as upstream |
| NewFeatureBranch.ParkingRunFetchesAndCreates | modules/lib/src/main/java/com/mooregreatsoftware/gitprocess/process/NewFeatureBranch.java:49-58 | a run on local `_parking_` that gets past the base choice needs an integration branch and fetches and creates from the integration branch when it holds all of parking, else from parking |
| NewFeatureBranch.FetchAndCreateFromParking | modules/lib/src/main/java/com/mooregreatsoftware/gitprocess/process/NewFeatureBranch.java:58-72 | fetching and creating from parking, with a fetch that moves remote-tracking refs only, removes parking and leaves the new branch at the base's fetched tip, checked out, with its upstream set |
| NewFeatureBranch.NewFeatureBranchIn | modules/lib/src/main/java/com/mooregreatsoftware/gitprocess/process/NewFeatureBranch.java:49-73 | the imperative command does what `NewFeatureBranch` specifies |
| NewFeatureBranch.FetchAndCreateIn | modules/lib/src/main/java/com/mooregreatsoftware/gitprocess/process/NewFeatureBranch.java:58-72 | the imperative fetch-then-create does what `FetchAndCreate` specifies |
| NewFeatureBranch.CreateAndCheckOutIn | modules/lib/src/main/java/com/mooregreatsoftware/gitprocess/process/NewFeatureBranch.java:61-72 | the imperative create-and-checkout does what `CreateAndCheckOut` specifies |
| Rebaser.SuccessfulRebase.ToString | modules/lib/src/main/java/com/mooregreatsoftware/gitprocess/lib/Rebaser.java:81-100 | the text is `SuccessfulRebase{`, the status message, then `}`, each part recoverable at its place |
| Rebaser.RebaseOutcome | modules/lib/src/main/java/com/mooregreatsoftware/gitprocess/lib/Rebaser.java:33-48 | no current branch, or a base with no tip, is an error without steps; otherwise one rebase step; success exactly for a successful status and moves only the current branch; each failure gives its message |
| Rebaser.RebaseKeepsBranches | modules/lib/src/main/java/com/mooregreatsoftware/gitprocess/lib/Rebaser.java:33-48 | a rebase keeps the current branch, lookups by name, and every other branch's tip |
| Rebaser.RebaseIn | modules/lib/src/main/java/com/mooregreatsoftware/gitprocess/lib/Rebaser.java:33-48 | the imperative rebase does what `Rebase` specifies |
| Merger.MergeOutcome | modules/lib/src/main/java/com/mooregreatsoftware/gitprocess/lib/Merger.java:32-54 | no current branch is an error; a merge branch with no tip throws; otherwise one merge step with the sync message; success exactly for a successful status, moving only the current branch; a failed status gives its text |
| Merger.MergeKeepsBranches | modules/lib/src/main/java/com/mooregreatsoftware/gitprocess/lib/Merger.java:32-54 | a merge keeps the current branch, lookups by name, and every other branch's tip |
| Merger.SuccessfulMerge.ToString | modules/lib/src/main/java/com/mooregreatsoftware/gitprocess/lib/Merger.java:75-77 | the text is `SuccessfulMerge{`, the status message, ` - `, the first seven characters of the new head id, then `}` |
| Merger.MergeIn | modules/lib/src/main/java/com/mooregreatsoftware/gitprocess/lib/Merger.java:32-54 | the imperative merge does what `Merge` specifies |
| Network.HexPair | modules/lib/src/main/java/com/mooregreatsoftware/gitprocess/lib/Network.java:43-49 | each byte gives exactly two upper-case hexadecimal digits |
| Network.HexPairDecodes | modules/lib/src/main/java/com/mooregreatsoftware/gitprocess/lib/Network.java:43-49 | the two digits give back the byte's unsigned value |
| Network.ToHex | modules/lib/src/main/java/com/mooregreatsoftware/gitprocess/lib/Network.java:43-49 | the loop builds exactly the specified text |
| Network.ToHexFormat | modules/lib/src/main/java/com/mooregreatsoftware/gitprocess/lib/Network.java:43-49 | the text is `2n` characters, or `3n-1` with dashes; each byte's digits at its place decode to its unsigned value; dashes only between bytes and only when asked for |
| Config.GetString | modules/lib/src/main/java/com/mooregreatsoftware/gitprocess/lib/config/AbstractStoredConfig.java:36-38 | a value exactly when the key is set, and then the stored one |
| Config.SetString | modules/lib/src/main/java/com/mooregreatsoftware/gitprocess/lib/config/AbstractStoredConfig.java:42-45 | adds exactly the one key |
| Config.GetAfterSet | modules/lib/src/main/java/com/mooregreatsoftware/gitprocess/lib/config/AbstractStoredConfig.java:36-45 | reading the key just set gives the new value; every other key reads as before |
| Config.ParseBoolean | modules/lib/src/main/java/com/mooregreatsoftware/gitprocess/lib/config/AbstractStoredConfig.java:49-51 | git's true and false spellings, ignoring case, and nothing else |
| Config.GetBoolean | modules/lib/src/main/java/com/mooregreatsoftware/gitprocess/lib/config/AbstractStoredConfig.java:49-51 | the default when unset; otherwise the parsed value, and a value that does not parse throws |
| Config.GetBooleanAfterSet | modules/lib/src/main/java/com/mooregreatsoftware/gitprocess/lib/config/AbstractStoredConfig.java:49-58 | reading back a stored boolean gives it |
| GeneralConfig.DefaultRebaseSync | modules/lib/src/main/java/com/mooregreatsoftware/gitprocess/lib/config/StoredGeneralConfig.java:35-37 | rebase is the default when the key is unset |
| GeneralConfig.DefaultRebaseSyncRoundTrip | modules/lib/src/main/java/com/mooregreatsoftware/gitprocess/lib/config/StoredGeneralConfig.java:35-45 | reading back a stored default gives it |
| GeneralConfig.OauthToken | modules/lib/src/main/java/com/mooregreatsoftware/gitprocess/lib/config/StoredGeneralConfig.java:49-53 | a token exactly when it is configured |
| GeneralConfig.OauthTokenRoundTrip | modules/lib/src/main/java/com/mooregreatsoftware/gitprocess/lib/config/StoredGeneralConfig.java:49-61 | reading back a stored token gives it, and the user name is unaffected |
| GeneralConfig.Username | modules/lib/src/main/java/com/mooregreatsoftware/gitprocess/lib/config/StoredGeneralConfig.java:65-73 | `gitProcess.username` when set; otherwise `github.user`; none only when neither is set |
| GeneralConfig.UsernameRoundTrip | modules/lib/src/main/java/com/mooregreatsoftware/gitprocess/lib/config/StoredGeneralConfig.java:65-81 | reading back a stored user name gives it, and the token is unaffected |
| GeneralConfig.UsernameFallsBackToGithubUser | modules/lib/src/main/java/com/mooregreatsoftware/gitprocess/lib/config/StoredGeneralConfig.java:65-73 | without `gitProcess.username`, `github.user` is used |
| RemoteConfig.RemoteNamesHaveRemotes | modules/lib/src/main/java/com/mooregreatsoftware/gitprocess/lib/config/StoredRemoteConfig.java:68-70 | any configured remote means there are remotes |
| RemoteConfig.RemoteName | modules/lib/src/main/java/com/mooregreatsoftware/gitprocess/lib/config/StoredRemoteConfig.java:86-111 | the configured `gitProcess.remoteName`; else none exactly when there are no remotes; `origin` when it exists; else the first remote name in sorted order |
| RemoteConfig.RemoteNameSingle | modules/lib/src/main/java/com/mooregreatsoftware/gitprocess/lib/config/StoredRemoteConfig.java:86-111 | a single configured remote is the remote name |
| RemoteConfig.SetRemoteName | modules/lib/src/main/java/com/mooregreatsoftware/gitprocess/lib/config/StoredRemoteConfig.java:134-140 | a blank name throws; otherwise it becomes the remote name and no other key changes |
| RemoteConfig.RemoteBranchName | modules/lib/src/main/java/com/mooregreatsoftware/gitprocess/config/RemoteConfig.java:29-33 | none exactly when there is no remote name; otherwise the remote name, `/`, then the branch name |
| RemoteConfig.RemoteBranchNameSplits | modules/lib/src/main/java/com/mooregreatsoftware/gitprocess/config/RemoteConfig.java:29-33 | the remote branch name splits at its first `/` into the remote name and the branch name |
| RemoteConfig.CredentialHelperAsWritten | modules/lib/src/main/java/com/mooregreatsoftware/gitprocess/lib/config/StoredRemoteConfig.java:173-191 | as written, a URI always reads the URI-specific key, even for the fallback |
| RemoteConfig.CredentialHelperMissesGlobal | modules/lib/src/main/java/com/mooregreatsoftware/gitprocess/lib/config/StoredRemoteConfig.java:173-191 | with only a global helper configured, the as-written lookup for a URI finds nothing, where the corrected one finds the global helper |
| RemoteConfig.CredentialHelper | modules/lib/src/main/java/com/mooregreatsoftware/gitprocess/lib/config/StoredRemoteConfig.java:173-191 | corrected: no helper exactly when neither the global helper nor (given a URI) the URI-specific one is set |
| RemoteConfig.CredentialHelperFallsBack | modules/lib/src/main/java/com/mooregreatsoftware/gitprocess/lib/config/StoredRemoteConfig.java:173-191 | corrected: the URI-specific helper wins and the global helper is the fallback |
| RemoteConfig.GlobalCredentialHelper | modules/lib/src/main/java/com/mooregreatsoftware/gitprocess/config/RemoteConfig.java:62-64 | the global `credential.helper`, exactly when set |
| RemoteConfig.MatchScp | modules/lib/src/main/java/com/mooregreatsoftware/gitprocess/lib/config/StoredRemoteConfig.java:247-275 | `http…` addresses and addresses without `:` are not scp-style |
| RemoteConfig.NormalizeUrl | modules/lib/src/main/java/com/mooregreatsoftware/gitprocess/lib/config/StoredRemoteConfig.java:230-275 | `http…` addresses and addresses without `:` are left as they are |
| RemoteConfig.NormalizeScpWithUser | modules/lib/src/main/java/com/mooregreatsoftware/gitprocess/lib/config/StoredRemoteConfig.java:247-275 | `user@host:path` becomes `ssh://user@host/path` |
| RemoteConfig.NormalizeScpNoUser | modules/lib/src/main/java/com/mooregreatsoftware/gitprocess/lib/config/StoredRemoteConfig.java:247-275 | `host:path` becomes `ssh://host/path` |
| RemoteConfig.RemoteUrl | modules/lib/src/main/java/com/mooregreatsoftware/gitprocess/lib/config/StoredRemoteConfig.java:215-227 | no URL exactly when none is configured; a found URL is the normalised configured one |
| RemoteConfig.RemoteUrlScp | modules/lib/src/main/java/com/mooregreatsoftware/gitprocess/lib/config/StoredRemoteConfig.java:215-275 | an scp-style remote URL parses as the corresponding `ssh://` URI |
| RemoteConfig.StripRepositoryPath | modules/lib/src/main/java/com/mooregreatsoftware/gitprocess/lib/config/StoredRemoteConfig.java:196-210 | a path with neither a leading `/` nor a `.git` suffix is the name as it is |
| RemoteConfig.StripRepositoryPathGit | modules/lib/src/main/java/com/mooregreatsoftware/gitprocess/lib/config/StoredRemoteConfig.java:196-210 | `/<name>.git` gives `<name>` |
| RemoteConfig.RepositoryName | modules/lib/src/main/java/com/mooregreatsoftware/gitprocess/lib/config/StoredRemoteConfig.java:196-210 | no repository name without remotes or a remote name |
| RemoteConfig.RepositoryNameOfUrl | modules/lib/src/main/java/com/mooregreatsoftware/gitprocess/lib/config/StoredRemoteConfig.java:196-210 | the repository name is the URL's path without leading `/` and `.git` |
| RemoteConfig.RepositoryNameScp | modules/lib/src/main/java/com/mooregreatsoftware/gitprocess/lib/config/StoredRemoteConfig.java:196-275 | `user@host:<name>.git` gives repository name `<name>` |
| RemoteConfig.RepositoryNameHttps | modules/lib/src/main/java/com/mooregreatsoftware/gitprocess/lib/config/StoredRemoteConfig.java:196-227 | `https://host/<name>.git` gives repository name `<name>` |
| Repo.Fetch | modules/lib/src/main/java/com/mooregreatsoftware/gitprocess/lib/GitLib.java:164-190 | no remotes means no fetch and no change; otherwise one fetch step; a failure changes nothing; a success applies the fetched ref updates |
| Repo.ApplyFetch | modules/lib/src/main/java/com/mooregreatsoftware/gitprocess/lib/GitLib.java:164-190 | a fetch sets the updated refs, drops the removed ones, and keeps all other refs, HEAD, config and control refs |
| Repo.GitLib.DoFetch | modules/lib/src/main/java/com/mooregreatsoftware/gitprocess/lib/GitLib.java:164-172 | the imperative fetch does what `Fetch` specifies |
| Repo.GitLib.SetRemoteName | modules/lib/src/main/java/com/mooregreatsoftware/gitprocess/lib/config/StoredRemoteConfig.java:134-140 | a blank name throws and changes nothing; otherwise the remote name becomes the given one |
| Repo.GitLib.SetDefaultRebaseSync | modules/lib/src/main/java/com/mooregreatsoftware/gitprocess/lib/config/StoredGeneralConfig.java:41-45 | stores the default so that it reads back |
| Repo.GitLib.SetOauthToken | modules/lib/src/main/java/com/mooregreatsoftware/gitprocess/lib/config/StoredGeneralConfig.java:57-61 | stores the token so that it reads back |
| Repo.GitLib.SetUsername | modules/lib/src/main/java/com/mooregreatsoftware/gitprocess/lib/config/StoredGeneralConfig.java:77-81 | stores the user name so that it reads back |
| Commits.Contains | modules/lib/src/main/java/com/mooregreatsoftware/gitprocess/lib/Branch.java:249-264 | the history walk finds the commit exactly when it is reachable from the tip |
| Commits.Abbreviate | modules/lib/src/main/java/com/mooregreatsoftware/gitprocess/process/Sync.java:293-295 | the first seven characters of the id, or the whole of a shorter id |
| GitHub.ServerApiFromRemoteUrlAsWritten | modules/lib/src/main/java/com/mooregreatsoftware/gitprocess/github/GitHubRepo.java:61-73 | as written, any other port is appended, even the `-1` of a URL without a port |
| GitHub.AsWrittenLosesHost | modules/lib/src/main/java/com/mooregreatsoftware/gitprocess/github/GitHubRepo.java:61-73 | for a URL without a port the as-written address ends in `:-1` and parses without a host |
| GitHub.ServerApiFromRemoteUrl | modules/lib/src/main/java/com/mooregreatsoftware/gitprocess/github/GitHubRepo.java:61-73 | corrected: a URL without a port gives `scheme://host`; ports 80 and 443 and all others are handled as written |
| GitHub.ServerApiNamesSameServer | modules/lib/src/main/java/com/mooregreatsoftware/gitprocess/github/GitHubRepo.java:61-73 | the derived API address parses to the remote's host, with the default port dropped for http:80 and https:443 and any other port kept |
| GitHub.GetRemoteUrl | modules/lib/src/main/java/com/mooregreatsoftware/gitprocess/github/GitHubRepo.java:76-81 | the remote's URL; a remote without one throws with its name |
| GitHub.GetServerApiUri | modules/lib/src/main/java/com/mooregreatsoftware/gitprocess/github/GitHubRepo.java:48-58 | a `github.com` host uses the public API; other hosts get the address `serverApiFromRemoteUrl` derives as written, so a URL without a port gets `:-1` appended; a URL without a host throws |
| GitHub.ServerApiUriOfPortlessRemote | modules/lib/src/main/java/com/mooregreatsoftware/gitprocess/github/GitHubRepo.java:48-73 | a remote not on GitHub whose URL has no port gets `<scheme>://<host>:-1`, which parses without a host |
| GitHub.GetServerApiUriIntended | modules/lib/src/main/java/com/mooregreatsoftware/gitprocess/github/GitHubRepo.java:48-58 | corrected: agrees with the code except for a URL without a port, where it uses the corrected derivation |
| GitHub.IntendedServerApiUriNamesRemoteHost | modules/lib/src/main/java/com/mooregreatsoftware/gitprocess/github/GitHubRepo.java:48-73 | corrected: the API address of a remote not on GitHub parses to the remote's own host, with or without a port |
| GitHub.SplitRepoName | modules/lib/src/main/java/com/mooregreatsoftware/gitprocess/github/GitHubRepoBuilder.java:95-101 | `owner/project` splits into its two parts; anything that does not split into two throws with the text |
| GitHub.SplitRepoNameRoundTrip | modules/lib/src/main/java/com/mooregreatsoftware/gitprocess/github/GitHubRepoBuilder.java:95-101 | joining an owner and a project with `/`, even with a trailing `/`, splits back into them |
| GitHub.CreateGithub | modules/lib/src/main/java/com/mooregreatsoftware/gitprocess/github/GitHubRepoBuilder.java:135-164 | an explicit API address wins; otherwise it is derived from the given or configured remote, and a missing remote throws; a token gives token authentication, otherwise user name and password |
| GitHub.GitHubRepoBuilder.constructor | modules/lib/src/main/java/com/mooregreatsoftware/gitprocess/github/GitHubRepoBuilder.java:53-112 | a new builder has no settings |
| GitHub.GitHubRepoBuilder.SetOauth2Token | modules/lib/src/main/java/com/mooregreatsoftware/gitprocess/github/GitHubRepoBuilder.java:53-56 | sets only the token |
| GitHub.GitHubRepoBuilder.SetUsername | modules/lib/src/main/java/com/mooregreatsoftware/gitprocess/github/GitHubRepoBuilder.java:59-62 | sets only the user name |
| GitHub.GitHubRepoBuilder.SetPassword | modules/lib/src/main/java/com/mooregreatsoftware/gitprocess/github/GitHubRepoBuilder.java:65-68 | sets only the password |
| GitHub.GitHubRepoBuilder.SetServerApiUri | modules/lib/src/main/java/com/mooregreatsoftware/gitprocess/github/GitHubRepoBuilder.java:83-86 | sets only the API address |
| GitHub.GitHubRepoBuilder.SetRemoteName | modules/lib/src/main/java/com/mooregreatsoftware/gitprocess/github/GitHubRepoBuilder.java:89-92 | sets only the remote name |
| GitHub.GitHubRepoBuilder.RepoUserAndProject | modules/lib/src/main/java/com/mooregreatsoftware/gitprocess/github/GitHubRepoBuilder.java:95-101 | sets owner and project from `owner/project`, or throws and sets nothing |
| GitHub.GitHubRepoBuilder.SetGitLib | modules/lib/src/main/java/com/mooregreatsoftware/gitprocess/github/GitHubRepoBuilder.java:104-112 | records the repository and takes owner and project from its repository name; throws when there is none |
| GitHub.GitHubRepoBuilder.Build | modules/lib/src/main/java/com/mooregreatsoftware/gitprocess/github/GitHubRepoBuilder.java:120-131 | takes the stored token when none was given, then connects as `CreateGithub` says, relaying its failure |
| PullReqCreator.Keys | modules/lib/src/main/java/com/mooregreatsoftware/gitprocess/github/PullReqCreator.java:124-155 | the keys of a JSON object, in order |
| PullReqCreator.Lookup | modules/lib/src/main/java/com/mooregreatsoftware/gitprocess/github/PullReqCreator.java:124-155 | a value exactly when the key is present |
| PullReqCreator.LookupFindsFirst | modules/lib/src/main/java/com/mooregreatsoftware/gitprocess/github/PullReqCreator.java:124-155 | a lookup answers the first entry with that key |
| PullReqCreator.StandardJsonShape | modules/lib/src/main/java/com/mooregreatsoftware/gitprocess/github/PullReqCreator.java:124-135 | keys `head`, `base`, `title` and `body` only when given, holding those values; a failure to name either branch is relayed |
| PullReqCreator.StandardJsonFacts | modules/lib/src/main/java/com/mooregreatsoftware/gitprocess/github/PullReqCreator.java:124-135 | a titled pull request sends the two branches' simple names, the title and the optional body |
| PullReqCreator.IssueJsonFacts | modules/lib/src/main/java/com/mooregreatsoftware/gitprocess/github/PullReqCreator.java:150-155 | an issue pull request sends `head`, `base` and `issue`; without an issue number it throws |
| PullReqCreator.CreatePR | modules/lib/src/main/java/com/mooregreatsoftware/gitprocess/github/PullReqCreator.java:63-83 | the JSON is posted when it can be built; the pull request is answered exactly on `201 Created`; other statuses and failed requests are reported |
| PullReqCreator.GitHubRepoForConnects | modules/lib/src/main/java/com/mooregreatsoftware/gitprocess/github/PullReqCreator.java:289-306 | connects to the API of the chosen or configured remote with the owner and project of the repository name; without a repository name, throws |
| PullReqCreator.CreatorAsWritten | modules/lib/src/main/java/com/mooregreatsoftware/gitprocess/github/PullReqCreator.java:270-285 | off a branch it throws "No branch is currently checked out", then without an integration branch "Could not determine an integration branch"; it builds exactly when both exist and the GitHub repository connects |
| PullReqCreator.CreatorFor | modules/lib/src/main/java/com/mooregreatsoftware/gitprocess/github/PullReqCreator.java:270-285 | corrected: a missing head falls back to the current branch and a missing base to the integration branch, and the same errors are thrown only when a fallback is needed and missing |
| PullReqCreator.AsWrittenIgnoresChosenBranches | modules/lib/src/main/java/com/mooregreatsoftware/gitprocess/github/PullReqCreator.java:272-285 | as written, the creator always uses the current and integration branches, even when others were chosen |
| PullReqCreator.CreatorUsesChosenBranches | modules/lib/src/main/java/com/mooregreatsoftware/gitprocess/github/PullReqCreator.java:272-285 | corrected: chosen branches are used, with the current and integration branches as fallbacks; a title gives a titled request, else an issue request |
| PullReqCreator.Builder.constructor | modules/lib/src/main/java/com/mooregreatsoftware/gitprocess/github/PullReqCreator.java:204-212 | a new builder has no settings |
| PullReqCreator.Builder.SetGitLib | modules/lib/src/main/java/com/mooregreatsoftware/gitprocess/github/PullReqCreator.java:216-219 | sets only the repository |
| PullReqCreator.Builder.SetHeadBranch | modules/lib/src/main/java/com/mooregreatsoftware/gitprocess/github/PullReqCreator.java:222-225 | sets only the head branch |
| PullReqCreator.Builder.SetBaseBranch | modules/lib/src/main/java/com/mooregreatsoftware/gitprocess/github/PullReqCreator.java:228-231 | sets only the base branch |
| PullReqCreator.Builder.SetTitle | modules/lib/src/main/java/com/mooregreatsoftware/gitprocess/github/PullReqCreator.java:234-237 | sets only the title |
| PullReqCreator.Builder.SetBody | modules/lib/src/main/java/com/mooregreatsoftware/gitprocess/github/PullReqCreator.java:240-243 | sets only the body |
| PullReqCreator.Builder.SetIssueId | modules/lib/src/main/java/com/mooregreatsoftware/gitprocess/github/PullReqCreator.java:246-249 | sets only the issue number |
| PullReqCreator.Builder.SetUsername | modules/lib/src/main/java/com/mooregreatsoftware/gitprocess/github/PullReqCreator.java:252-255 | sets only the user name |
| PullReqCreator.Builder.SetPassword | modules/lib/src/main/java/com/mooregreatsoftware/gitprocess/github/PullReqCreator.java:258-261 | sets only the password |
| PullReqCreator.Builder.SetRemoteName | modules/lib/src/main/java/com/mooregreatsoftware/gitprocess/github/PullReqCreator.java:264-267 | sets only the remote name |
| PullReqCreator.Builder.CreateGitHubRepo | modules/lib/src/main/java/com/mooregreatsoftware/gitprocess/github/PullReqCreator.java:288-306 | connects as `GitHubRepoFor` specifies |
| PullReqCreator.Builder.BuildAsWritten | modules/lib/src/main/java/com/mooregreatsoftware/gitprocess/github/PullReqCreator.java:270-285 | builds the creator as written |
| PullReqCreator.Builder.Build | modules/lib/src/main/java/com/mooregreatsoftware/gitprocess/github/PullReqCreator.java:270-285 | builds the corrected creator |
| Cli.BooleanValue | modules/bin/src/main/java/com/mooregreatsoftware/gitprocess/bin/Options.java:222-228 | a flag is only on when given, and always on when given without an argument |
| Cli.StringValue | modules/bin/src/main/java/com/mooregreatsoftware/gitprocess/bin/Options.java:232-238 | an option's argument exactly when it was given with one |
| Cli.LoggingConflict | modules/bin/src/main/java/com/mooregreatsoftware/gitprocess/bin/Options.java:137-150 | no conflict exactly when at most one of `--verbose`, `--quiet`, `--info` is given; verbose with quiet reports that pair |
| Cli.LogLevelFollowsFlag | modules/bin/src/main/java/com/mooregreatsoftware/gitprocess/bin/Options.java:137-193 | without a conflict, debug exactly for verbose, warn exactly for quiet, info otherwise |
| Cli.Help | modules/bin/src/main/java/com/mooregreatsoftware/gitprocess/bin/Options.java:102-117 | the help opens with the usage line and then the command's description, each followed by a blank line |
| Cli.HelpLayout | modules/bin/src/main/java/com/mooregreatsoftware/gitprocess/bin/Options.java:102-117 | the help starts with the usage line and ends with the version line |
| Cli.HandleStandardOptions | modules/bin/src/main/java/com/mooregreatsoftware/gitprocess/bin/Options.java:89-99 | help first, then the version, then the logging check; the command runs only when none of them answers |
| Cli.ParseOutcomeRuns | modules/bin/src/main/java/com/mooregreatsoftware/gitprocess/bin/Options.java:69-83 | the command runs exactly when parsing succeeded without help, version or a logging conflict, or the parser failed without a message |
| Cli.Options.constructor | modules/bin/src/main/java/com/mooregreatsoftware/gitprocess/bin/Options.java:69-83 | new options have their command and properties and no parsed option set yet |
| Cli.Options.Parse | modules/bin/src/main/java/com/mooregreatsoftware/gitprocess/bin/Options.java:69-83 | records the parsed option set and answers the standard-option outcome |
| Cli.Create | modules/bin/src/main/java/com/mooregreatsoftware/gitprocess/bin/SyncOptions.java:56-62 | `Left` of the message exactly when parsing says not to run; otherwise the parsed options |
| Cli.RebaseIsNotMerge | modules/bin/src/main/java/com/mooregreatsoftware/gitprocess/bin/SyncOptions.java:126-148 | when the configured default can be read, rebase and merge are both known and opposite |
| Cli.SyncFlagsDecide | modules/bin/src/main/java/com/mooregreatsoftware/gitprocess/bin/SyncOptions.java:126-148 | `--merge` wins; `--rebase` alone rebases; neither uses the configured default |
| Cli.SyncRunsWithoutBothFlags | modules/bin/src/main/java/com/mooregreatsoftware/gitprocess/bin/SyncOptions.java:104-118 | a sync that runs has at most one argument and not both `--merge` and `--rebase` |
| Cli.IssueOrPrId | modules/bin/src/main/java/com/mooregreatsoftware/gitprocess/bin/PullReqOptions.java:137-147 | an issue number exactly when the first argument parses as an integer |
| Cli.IssueOrTitle | modules/bin/src/main/java/com/mooregreatsoftware/gitprocess/bin/PullReqOptions.java:137-163 | an argument is either an issue number or a title, never both |
| Cli.IssueNumberRoundTrip | modules/bin/src/main/java/com/mooregreatsoftware/gitprocess/bin/PullReqOptions.java:137-163 | a printed integer is read back as the issue number and gives no title |
| Cli.PullReqDescription | modules/bin/src/main/java/com/mooregreatsoftware/gitprocess/bin/PullReqOptions.java:103 | the `--description` argument exactly when the option was given with one; no accessor of `PullReqOptions` reads it |
| Cli.PullReqAccessors | modules/bin/src/main/java/com/mooregreatsoftware/gitprocess/bin/PullReqOptions.java:173-220 | each accessor gives its option's argument exactly when one was given |
| Cli.PullReqRunsWithDistinctBranches | modules/bin/src/main/java/com/mooregreatsoftware/gitprocess/bin/PullReqOptions.java:112-127 | a pull request that runs has at most one argument and different head and base branches |
| Cli.BranchName | modules/bin/src/main/java/com/mooregreatsoftware/gitprocess/bin/NewFeatureBranchOptions.java:91-93 | the first argument; without one, an index error |
| Cli.NewFeatureBranchHasName | modules/bin/src/main/java/com/mooregreatsoftware/gitprocess/bin/NewFeatureBranchOptions.java:85-93 | a new-feature-branch command that runs has exactly one argument, its branch name |
| Runner.ValueToExitCode | modules/bin/src/main/java/com/mooregreatsoftware/gitprocess/bin/AbstractRunner.java:143-151 | 0 exactly for `Right`, `STOP_ON_FUNCTION_CODE` exactly for `Left` |
| Runner.ExitCodes | modules/bin/src/main/java/com/mooregreatsoftware/gitprocess/bin/AbstractRunner.java:104-151 | exit 0 exactly when the command ran and succeeded; 1 exactly when the options stopped it; 2 exactly when it ran and reported a problem; an exception escapes |
| Runner.AbstractBuilder.constructor | modules/bin/src/main/java/com/mooregreatsoftware/gitprocess/bin/AbstractRunner.java:75-98 | a new builder has neither repository nor options |
| Runner.AbstractBuilder.SetGitLib | modules/bin/src/main/java/com/mooregreatsoftware/gitprocess/bin/AbstractRunner.java:83-86 | sets only the repository |
| Runner.AbstractBuilder.CliArgs | modules/bin/src/main/java/com/mooregreatsoftware/gitprocess/bin/AbstractRunner.java:75-78 | sets only the options |
| Runner.AbstractBuilder.Build | modules/bin/src/main/java/com/mooregreatsoftware/gitprocess/bin/AbstractRunner.java:91-98 | options that say not to run give an `ErrorRunner`; otherwise the command's runner; no options throws |
| Runner.HeadBranch | modules/bin/src/main/java/com/mooregreatsoftware/gitprocess/bin/PullReqRunner.java:141-155 | the named head branch when given and found, else an error naming it; without a name, the current branch, or an error |
| Runner.BaseBranch | modules/bin/src/main/java/com/mooregreatsoftware/gitprocess/bin/PullReqRunner.java:124-138 | the named base branch when given and found, else an error naming it; without a name, the integration branch, or an error |
| Runner.Title | modules/bin/src/main/java/com/mooregreatsoftware/gitprocess/bin/PullReqRunner.java:118-121 | the given title, else the head branch's short name |
| Runner.PrCreatorBuilder | modules/bin/src/main/java/com/mooregreatsoftware/gitprocess/bin/PullReqRunner.java:96-115 | the builder holds the chosen branches, title, body and credentials, and no issue number or remote name |
| Runner.PostingWith | modules/bin/src/main/java/com/mooregreatsoftware/gitprocess/bin/PullReqRunner.java:81-92 | the head branch is resolved before the base branch and either failure is answered before anything is sent; a request is sent only when both resolved |
| Runner.PostingSendsCurrentBranches | modules/lib/src/main/java/com/mooregreatsoftware/gitprocess/github/PullReqCreator.java:270-285 | through `build()` as written, a sent request goes from the current branch's simple name to the integration branch's, whatever branches the runner chose, with the chosen title and the given body exactly when there is one |
| Runner.PostingSendsChosenBranches | modules/bin/src/main/java/com/mooregreatsoftware/gitprocess/bin/PullReqRunner.java:81-115 | through the corrected creator, a sent request carries the chosen branches' simple names, the title, and the given body exactly when there is one |
| Runner.PullRequestPosting | modules/bin/src/main/java/com/mooregreatsoftware/gitprocess/bin/PullReqRunner.java:66-92 | `git pull-req` as written sends nothing unless a branch is checked out and an integration branch is known, and off a branch it fails with the creator's "No branch is currently checked out" even when both branches were named |
| Runner.PullRequestSendsCurrentBranches | modules/bin/src/main/java/com/mooregreatsoftware/gitprocess/bin/PullReqRunner.java:66-92 | a request `git pull-req` sends goes from the current branch to the integration branch, whatever `--head-branch` and `--base-branch` say, with the chosen title and the help description as its body |
| Runner.DescriptionOptionIgnored | modules/bin/src/main/java/com/mooregreatsoftware/gitprocess/bin/PullReqRunner.java:88 | a `--description` text other than the help description is never the body sent |
| Runner.PullRequestPostingIntended | modules/bin/src/main/java/com/mooregreatsoftware/gitprocess/bin/PullReqRunner.java:66-92 | the corrected posting sends only when both branches resolved, and with no branch named it makes the request the as-written creator would make for the same body |
| Runner.PullRequestSendsDescription | modules/bin/src/main/java/com/mooregreatsoftware/gitprocess/bin/PullReqOptions.java:103 | the intended request goes between the chosen branches and carries the `--description` text as its body exactly when the option is given |
| Runner.PullReqMain | modules/bin/src/main/java/com/mooregreatsoftware/gitprocess/bin/PullReqRunner.java:66-92 | without parsed options it throws; otherwise it answers what `git pull-req` as written (`Runner.PullRequestPosting`) answers, through `build()` as written |
| Refs.FindRef | modules/lib/src/main/java/com/mooregreatsoftware/gitprocess/lib/DefaultBranches.java:56-59 | the first candidate along the search path that exists; nothing exactly when none of them exists |
| Refs.ShortenRefName | modules/lib/src/main/java/com/mooregreatsoftware/gitprocess/lib/Branch.java:210-212 | the short name is a suffix of the full name; only a leading `refs/heads/`, `refs/tags/` or `refs/remotes/` is dropped, and any other name (`refs/notes/n` among them) is kept whole |
| RemoteConfig.FirstSorted | modules/lib/src/main/java/com/mooregreatsoftware/gitprocess/lib/config/StoredRemoteConfig.java:86-111 | the remote name that sorts first, which is unique |
| Repo.MoveTip | modules/lib/src/main/java/com/mooregreatsoftware/gitprocess/lib/Rebaser.java:33-48 | a completed rebase or merge moves only the current branch's tip, keeps every other ref, HEAD, config and control refs, and keeps the repository well formed |
| Strings.ParseInt | modules/bin/src/main/java/com/mooregreatsoftware/gitprocess/bin/PullReqOptions.java:137-147 | an issue number is only ever a value in Java's 32-bit `int` range |
| Strings.ParseIntToString | modules/bin/src/main/java/com/mooregreatsoftware/gitprocess/bin/PullReqOptions.java:137-147 | every 32-bit integer's decimal text parses back to it |
| Strings.JavaSplitTwo | modules/lib/src/main/java/com/mooregreatsoftware/gitprocess/github/GitHubRepoBuilder.java:95-101 | `owner/project` splits on `/` into exactly the owner and the project |
| Uris.ParseUri | modules/lib/src/main/java/com/mooregreatsoftware/gitprocess/lib/config/StoredRemoteConfig.java:215-227 | a parsed URI keeps its text; illegal characters throw; a scheme it finds is well formed |
| GitHub.PortlessAddressHasNoHost | modules/lib/src/main/java/com/mooregreatsoftware/gitprocess/github/GitHubRepo.java:61-73 | an address `scheme://host:-1` parses, but without a host |

## Left out

- Logging of every kind (`LOG.*`, the appender setup in `setupLogging`, the debug-only
  dereference of the current branch's tip in `combineWith`) is not modelled. Only the choice of
  level and the flag conflicts are.
- JGit and the `git` program are not modelled. The fetch, rebase, merge, checkout and push
  commands, the control-ref reads and writes, and the hook processes become reply parameters
  (`Repo.Replies`). Their internal states (a rebase stopped part-way, a merge conflict) are only
  the status they report.
- `Repository.shortenRefName` and `RefDatabase.findRef` are modelled by their documented
  behaviour. This is the prefix list `refs/heads/`, `refs/tags/`, `refs/remotes/` (any other name
  is kept whole) and the search path `""`, `refs/`, `refs/tags/`,
  `refs/heads/`, `refs/remotes/`. The `allRefs` text form, the order of `allBranches`, JGit's
  automatic upstream set-up, `resetHard` and `remoteAdd` are left out.
- `normalizeUrl` looks for an ssh `config` file to resolve host aliases. It builds the directory
  from the environment variable `user.home` (`System.getenv`, not the system property), so with
  that variable unset it reads `.ssh/config` relative to the working directory. That reader is
  left out: only the regular-expression rewriting of scp-style addresses is modelled.
- `exceptionTranslator` and the text of JGit's own exceptions are left out. An exception is kept
  by its kind and the message the code gives it.
- The HTTP client (`RtGithub`), JSON serialisation and the `Authorizer`'s token lookup are not
  modelled. The authorised token is a parameter, and the HTTP response is a reply datatype.
- `doGitProgPush` (pushing through the `git` program) is not modelled apart from its result type
  `ProcPushResult`. Nor are the hooks' file lookup and process execution; a hook is given with its
  outcome.
- Parsing the argument array is left out; `joptsimple` is modelled by the option set it produces
  or the exception it throws (`Cli.ParseReply`). Also left out: the option aliases, printing the
  help and messages, `ReadVersionFromClasspath` (the version is a parameter), and the platform
  line separator (taken to be `\n`).
- `PullReqOptions.create` and `NewFeatureBranchOptions.create` treat `parse`'s `Option<String>`
  as a `String`. Both are modelled like the other commands' options.
- `PullReqOptions.remoteName` reads a `remote-name` option the parser never declares. It is
  modelled as written, so it only has a value if such an option appears in the option set.
- `NewFeatureBranch` calls `orElseThrow` on an integration branch that `Branches` returns as a
  nullable value. It is modelled as throwing `IllegalStateException` when there is none.
- `StoredBranchConfig.setUpstream` compares an optional remote name with `null`. It is modelled as
  "the upstream has a remote name".
- `Network.getMacAddress`, `localHost` and the host lookups are I/O and are left out; only `toHex`
  is modelled.
- JGit's configuration is reduced to a map from (section, subsection, name) to one value. Section
  and key names are compared exactly, not ignoring case. A multi-valued key is one value, not the
  last of several. A key set without a value is not read as boolean true.
- `BranchConfig.SetIntegrationBranch`, `BranchConfig.SetUpstream`, `RemoteConfig.SetRemoteName`
  and the general-config setters never fail on the write itself. `RemoteConfig.SetRemoteName`
  still refuses a blank name. The `save()` each Java setter calls, and the exception it can raise
  through `exceptionTranslator`, are left out.
- Ref-name validity (`Repository.isValidRefName`) is a written-out check on the name's text:
  at least one `/`, no forbidden characters, no `//`, `/.`, `..` or `@{`, no `.lock` ending, and
  no `/` or `.` at either end. JGit's platform-specific checks are left out.
- `java.net.URI` is reduced to the parts the code reads: the scheme, the host, the port and the
  path. Character validation covers only the characters no URI may hold unescaped. Its full
  grammar and the percent-decoding in `getPath` are left out.
- `Cli.IssueOrPrId` reads only the ASCII digits `0`-`9` (after an optional sign) as a number,
  through `Strings.ParseInt`. `Integer.valueOf` also accepts every other Unicode decimal digit
  (`Character.digit`), such as full-width or Arabic-Indic digits. An argument written with those
  is a title in the model and an issue number in the program.
- `Strings.ParseInt` rejects non-ASCII decimal digits, for the reason just given.
- `BranchRefs.Contains` treats a commit the graph does not hold as having no parents, so a tip
  missing from the object store contains only itself. JGit's walk throws `MissingObjectException`
  there, which `Branch.contains` turns into an `IllegalStateException`. `Repo.WellFormed` does not
  require the graph to hold every ref's tip or every parent (`Commits.Parents`).
- `Runner.PullRequestPostingIntended` corrects the branches and the body only. The GitHub
  connection it makes still takes its API address from `GitHub.GetServerApiUri`, as written;
  the corrected address (`GitHub.GetServerApiUriIntended`) is not threaded through
  `GitHub.CreateGithub` and the builders.
- `Strings.ToLower` folds ASCII letters only, where Java's `toLowerCase` folds all of Unicode.
- `NewFeatureBranch.StartedOnParkingRemovesParking` assumes the fetch moves remote-tracking refs
  only (`Repo.FetchMovesRemoteTrackingOnly`), which is what git's default refspec does.
- Integers are unbounded. The only Java `int` range that matters, parsing an issue number, is
  checked explicitly (`Strings.ParseInt` rejects values outside 32 bits).

## Findings

| source | as written | input that shows it | evidently intended | confidence | as-written member | corrected member |
|---|---|---|---|---|---|---|
| modules/lib/src/main/java/com/mooregreatsoftware/gitprocess/lib/config/StoredRemoteConfig.java:173-191 | the fallback meant for the global `credential.helper` reads `credential.<uri>.helper` again whenever a URI is given | `credential.helper = store`, no URI-specific helper, URI `https://github.com`: the answer is `null` | fall back to `credential.helper` when no URI-specific helper is set | not executed | RemoteConfig.CredentialHelperAsWritten, RemoteConfig.CredentialHelperMissesGlobal | RemoteConfig.CredentialHelper, RemoteConfig.CredentialHelperFallsBack |
| modules/lib/src/main/java/com/mooregreatsoftware/gitprocess/github/GitHubRepo.java:61-73 | every port other than 80 and 443 is appended, including `-1`, which `URI.getPort()` gives when the URL has no port | remote `https://git.example.com/o/p.git` (no port): the API address is `https://git.example.com:-1`, which parses without a host | leave the port out when the URL has none | not executed | GitHub.ServerApiFromRemoteUrlAsWritten, GitHub.AsWrittenLosesHost, GitHub.ServerApiUriOfPortlessRemote | GitHub.ServerApiFromRemoteUrl, GitHub.ServerApiNamesSameServer, GitHub.GetServerApiUriIntended, GitHub.IntendedServerApiUriNamesRemoteHost |
| modules/lib/src/main/java/com/mooregreatsoftware/gitprocess/github/PullReqCreator.java:270-285 | `build()` uses the current and integration branches and ignores the `headBranch`/`baseBranch` the builder was given | `git pull-req --head-branch feature --base-branch develop` while on `master`: the request is made from `master` to the integration branch | use the chosen branches, falling back to current and integration | not executed | PullReqCreator.Builder.BuildAsWritten, PullReqCreator.CreatorAsWritten, PullReqCreator.AsWrittenIgnoresChosenBranches, Runner.PullRequestSendsCurrentBranches | PullReqCreator.Builder.Build, PullReqCreator.CreatorFor, PullReqCreator.CreatorUsesChosenBranches, Runner.PostingSendsChosenBranches |
| modules/bin/src/main/java/com/mooregreatsoftware/gitprocess/bin/PullReqRunner.java:88 | the pull-request body is `opts.description()`, the command's help text, not the `--description` argument that `PullReqOptions.java:103` declares | `git pull-req -d "Adds retries"`: the request body is "Creates a new pull request for the current branch." | send the `--description` argument as the body, and no body without one | not executed | Runner.PullRequestPosting, Runner.DescriptionOptionIgnored | Runner.PullRequestPostingIntended, Runner.PullRequestSendsDescription |

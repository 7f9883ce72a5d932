/**
 * `Sync`: brings the current branch up to date with the integration branch and the server.
 *
 * After its preconditions, a sync fetches (unless local-only or without remotes), combines the
 * current branch with the integration branch by rebase or merge, and then pushes it to the branch
 * of the same simple name on the server. Before pushing it compares the remote branch with the
 * sync point recorded by the last push: a remote branch that moved, or that the current branch
 * does not hold, is combined in first (reconciled) and then force-pushed.
 *
 * Each private step of the source is a ghost function of the repository content and the
 * backend's replies, and a method on the `GitLib` that performs it and is proved to agree.
 */
module Sync {
  import opened Wrappers
  import opened Commits
  import RemoteConfig
  import opened Repo
  import opened BranchRefs
  import BranchConfig
  import Rebaser
  import Merger
  import Pusher

  // ---------------------------------------------------------------------------------------------
  // Combiners

  /** `Combiners`: rebase or merge. */
  datatype Combiner = REBASER | MERGER

  /** `typeName()`. */
  function TypeName(c: Combiner): string
  {
    match c
    case REBASER => "rebase"
    case MERGER => "merge"
  }

  /** What the backend answers to a rebase and to a merge at one combining step; the combiner in use reads its own. */
  datatype CombineReply = CombineReply(rebase: Rebaser.RebaseReply, merge: Merger.MergeReply)

  /** The only backend steps a combiner runs are its own. */
  predicate CombineSteps(events: seq<Event>, c: Combiner)
  {
    forall i :: 0 <= i < |events| ==> if c == REBASER then events[i].RebaseEvent? else events[i].MergeEvent?
  }

  /** No step talks to the server: no fetch and no push. */
  predicate LocalSteps(events: seq<Event>)
  {
    forall i :: 0 <= i < |events| ==> !events[i].FetchEvent? && !events[i].PushEvent?
  }

  /** No step is a fetch. */
  predicate NoFetch(events: seq<Event>)
  {
    forall i :: 0 <= i < |events| ==> !events[i].FetchEvent?
  }

  /** Every combining step in `events` is one of the combiner's. */
  predicate OnlyCombiner(events: seq<Event>, c: Combiner)
  {
    forall i :: 0 <= i < |events| ==> (events[i].RebaseEvent? ==> c == REBASER) && (events[i].MergeEvent? ==> c == MERGER)
  }

  /** A combine that succeeded. */
  predicate Combined(r: Try<Either<()>>)
  {
    r.Ok? && r.value.Right?
  }

  /**
   * `combiner.apply(gitLib, branch)`: `Rebaser.rebase` or `Merger.merge`, each of which looks at the
   * current branch first and then dereferences the branch, so a null branch throws there.
   */
  function Apply(s: RepoState, c: Combiner, base: Option<Branch>, reply: CombineReply): Step<Try<Either<()>>>
  {
    if base.None? then
      if CurrentBranch(s).None? then
        Step(Ok(Left(if c == REBASER then Rebaser.NoCurrentBranchMessage else Merger.NoCurrentBranchMessage)), s, [])
      else Step(Thrown(NullDereference), s, [])
    else match c
      case REBASER =>
        var step := Rebaser.Rebase(s, base.value, reply.rebase);
        Step(Ok(if step.result.Left? then Left(step.result.msg) else Right(())), step.state, step.events)
      case MERGER =>
        var step := Merger.Merge(s, base.value, reply.merge);
        var result := match step.result
          case Thrown(e) => Thrown(e)
          case Ok(Left(msg)) => Ok(Left(msg))
          case Ok(Right(_)) => Ok(Right(()));
        Step(result, step.state, step.events)
  }

  /** The backend step a combine with `base` runs while `current` is checked out. */
  function CombineEvent(c: Combiner, base: Branch, current: Branch): Event
  {
    if c == REBASER then RebaseEvent(base.name) else MergeEvent(base.name, Merger.MergeMessage(base, current))
  }

  /**
   * A combine runs at most one step, its combiner's; it moves no ref but the current branch's and
   * touches neither HEAD, the configuration nor the sync points; it changes nothing unless it
   * succeeds, which needs a current branch and a base with a tip. A null base throws.
   */
  lemma ApplyFacts(s: RepoState, c: Combiner, base: Option<Branch>, reply: CombineReply)
    ensures var r := Apply(s, c, base, reply);
            && CombineSteps(r.events, c) && |r.events| <= 1
            && r.state.refs.Keys == s.refs.Keys && r.state.head == s.head && r.state.config == s.config
            && r.state.control == s.control && r.state.dirty == s.dirty
            && (!Combined(r.result) ==> r.state == s)
            && (CurrentBranch(s).Some? && base.None? ==> r == Step(Thrown(NullDereference), s, []))
            && (Combined(r.result) ==> CurrentBranch(s).Some? && base.Some? && base.value.name in s.refs)
            && (CurrentBranch(s).Some? && base.Some? && base.value.name in s.refs ==>
                  r.events == [CombineEvent(c, base.value, CurrentBranch(s).value)])
  {
    ApplyKeeps(s, c, base, reply);
    ApplyRuns(s, c, base, reply);
  }

  /** What a combine leaves alone. */
  lemma ApplyKeeps(s: RepoState, c: Combiner, base: Option<Branch>, reply: CombineReply)
    ensures var r := Apply(s, c, base, reply);
            && r.state.refs.Keys == s.refs.Keys && r.state.head == s.head && r.state.config == s.config
            && r.state.control == s.control && r.state.dirty == s.dirty
            && (!Combined(r.result) ==> r.state == s)
  {
    if base.Some? {
      match c
      case REBASER => Rebaser.RebaseOutcome(s, base.value, reply.rebase);
      case MERGER => Merger.MergeOutcome(s, base.value, reply.merge);
    }
  }

  /** The step a combine runs, and when it succeeds. */
  lemma ApplyRuns(s: RepoState, c: Combiner, base: Option<Branch>, reply: CombineReply)
    ensures var r := Apply(s, c, base, reply);
            && CombineSteps(r.events, c) && |r.events| <= 1
            && (CurrentBranch(s).Some? && base.None? ==> r == Step(Thrown(NullDereference), s, []))
            && (Combined(r.result) ==> CurrentBranch(s).Some? && base.Some? && base.value.name in s.refs)
            && (CurrentBranch(s).Some? && base.Some? && base.value.name in s.refs ==>
                  r.events == [CombineEvent(c, base.value, CurrentBranch(s).value)])
  {
    if base.Some? {
      match c
      case REBASER => Rebaser.RebaseOutcome(s, base.value, reply.rebase);
      case MERGER => Merger.MergeOutcome(s, base.value, reply.merge);
    }
  }

  method ApplyIn(g: GitLib, c: Combiner, base: Option<Branch>, reply: CombineReply) returns (r: Try<Either<()>>)
    modifies g
    ensures var step := Apply(old(g.State()), c, base, reply);
            r == step.result && g.State() == step.state && g.events == old(g.events) + step.events
  {
    if base.None? {
      if CurrentBranch(g.State()).None? {
        r := Ok(Left(if c == REBASER then Rebaser.NoCurrentBranchMessage else Merger.NoCurrentBranchMessage));
      } else {
        r := Thrown(NullDereference);
      }
    } else if c == REBASER {
      var rebased := Rebaser.RebaseIn(g, base.value, reply.rebase);
      r := Ok(if rebased.Left? then Left(rebased.msg) else Right(()));
    } else {
      var merged := Merger.MergeIn(g, base.value, reply.merge);
      match merged
      case Thrown(e) => r := Thrown(e);
      case Ok(Left(msg)) => r := Ok(Left(msg));
      case Ok(Right(_)) => r := Ok(Right(()));
    }
  }

  // ---------------------------------------------------------------------------------------------
  // Preconditions and fetching

  /**
   * `verifySyncPreconditions`: checked in this order, the first that fails gives the message:
   * a current branch, an integration branch, not on parking, no uncommitted changes.
   */
  function Preconditions(s: RepoState): (r: Option<string>)
    ensures r.None? <==> CurrentBranch(s).Some? && BranchConfig.IntegrationBranch(s).Some? && !OnParking(s) && !s.dirty
    ensures CurrentBranch(s).None? ==> r == Some("Not currently on a branch")
    ensures CurrentBranch(s).Some? && BranchConfig.IntegrationBranch(s).None? ==> r == Some("There is no integration branch")
    ensures CurrentBranch(s).Some? && BranchConfig.IntegrationBranch(s).Some? && OnParking(s)
            ==> r == Some("You can not do a sync while on _parking_")
    ensures CurrentBranch(s).Some? && BranchConfig.IntegrationBranch(s).Some? && !OnParking(s) && s.dirty
            ==> r == Some("You have uncommitted changes")
  {
    if CurrentBranch(s).None? then Some("Not currently on a branch")
    else if BranchConfig.IntegrationBranch(s).None? then Some("There is no integration branch")
    else if OnParking(s) then Some("You can not do a sync while on _parking_")
    else if s.dirty then Some("You have uncommitted changes")
    else None
  }

  /** `fetch(gitLib, localOnly)`: fetches only when not local-only and there are remotes; the fetch's error text otherwise. */
  function FetchStep(s: RepoState, localOnly: bool, reply: FetchReply): (r: Step<Option<string>>)
    ensures localOnly || !RemoteConfig.HasRemotes(s.config) ==> r == Step(None, s, [])
    ensures r.state.head == s.head && r.state.config == s.config
    ensures !localOnly && RemoteConfig.HasRemotes(s.config) ==>
              && r.events == [FetchEvent] && r.state == Fetch(s, reply).state
              && (r.result.Some? <==> reply.FetchFailed?)
              && (r.result.Some? ==> r.result.value == reply.message && r.state == s)
  {
    if localOnly || !RemoteConfig.HasRemotes(s.config) then Step(None, s, [])
    else
      var fetched := Fetch(s, reply);
      Step(if fetched.result.Left? then Some(fetched.result.msg) else None, fetched.state, fetched.events)
  }

  method FetchIn(g: GitLib, localOnly: bool, reply: FetchReply) returns (err: Option<string>)
    modifies g
    ensures var step := FetchStep(old(g.State()), localOnly, reply);
            err == step.result && g.State() == step.state && g.events == old(g.events) + step.events
  {
    err := None;
    if !localOnly && RemoteConfig.HasRemotes(g.config) {
      var fetched := g.DoFetch(reply);
      if fetched.Left? {
        err := Some(fetched.msg);
      }
    }
  }

  // ---------------------------------------------------------------------------------------------
  // Handling a remote that changed

  /** How to push once the remote branch has been looked at. */
  datatype PushPlan = FastForwardPush | ForcePush | Reconcile

  /**
   * `handleRemoteChanged`'s choice. With a recorded sync point: no remote branch or a remote branch
   * the current branch holds is pushed normally, one still at the sync point but not held is
   * force-pushed, and one that moved away from it is reconciled. Without a sync point: no remote
   * branch or one held is pushed normally, and one not held is reconciled.
   */
  ghost function Decide(s: RepoState, current: Branch, readFailure: Option<string>): (r: Try<Either<PushPlan>>)
    ensures LastSyncedAgainst(s, current, readFailure).Left? ==> r == Ok(Left(LastSyncedAgainst(s, current, readFailure).msg))
    ensures r == Ok(Right(ForcePush)) <==>
              && LastSyncedAgainst(s, current, readFailure).Right?
              && LastSyncedAgainst(s, current, readFailure).value.Some?
              && RemoteOid(s, current) == LastSyncedAgainst(s, current, readFailure).value
              && ContainsSpec(s, current, RemoteOid(s, current).value) == Ok(false)
    ensures r == Ok(Right(Reconcile)) <==>
              && LastSyncedAgainst(s, current, readFailure).Right?
              && RemoteOid(s, current).Some?
              && if LastSyncedAgainst(s, current, readFailure).value.Some?
                 then RemoteOid(s, current) != LastSyncedAgainst(s, current, readFailure).value
                 else ContainsSpec(s, current, RemoteOid(s, current).value) == Ok(false)
    ensures r == Ok(Right(FastForwardPush)) <==>
              && LastSyncedAgainst(s, current, readFailure).Right?
              && (|| RemoteOid(s, current).None?
                  || (&& (LastSyncedAgainst(s, current, readFailure).value.None?
                          || RemoteOid(s, current) == LastSyncedAgainst(s, current, readFailure).value)
                      && ContainsSpec(s, current, RemoteOid(s, current).value) == Ok(true)))
    ensures r.Thrown? ==> && RemoteOid(s, current).Some?
                          && ContainsSpec(s, current, RemoteOid(s, current).value) == Thrown(r.ex)
  {
    var remoteOid := RemoteOid(s, current);
    match LastSyncedAgainst(s, current, readFailure)
    case Left(msg) => Ok(Left(msg))
    case Right(lastSynced) =>
      if remoteOid.None? then Ok(Right(FastForwardPush))
      else if lastSynced.Some? && remoteOid != lastSynced then Ok(Right(Reconcile))
      else
        match ContainsSpec(s, current, remoteOid.value)
        case Thrown(e) => Thrown(e)
        case Ok(true) => Ok(Right(FastForwardPush))
        case Ok(false) => Ok(Right(if lastSynced.Some? then ForcePush else Reconcile))
  }

  /** The choice, walking the current branch's history for the remote commit. */
  method DecideIn(s: RepoState, current: Branch, readFailure: Option<string>) returns (r: Try<Either<PushPlan>>)
    ensures r == Decide(s, current, readFailure)
  {
    var remoteOid := RemoteOid(s, current);
    var lastSynced := LastSyncedAgainst(s, current, readFailure);
    if lastSynced.Left? {
      return Ok(Left(lastSynced.msg));
    }
    if remoteOid.None? {
      return Ok(Right(FastForwardPush));
    }
    if lastSynced.value.Some? && remoteOid != lastSynced.value {
      return Ok(Right(Reconcile));
    }
    var contains := BranchRefs.Contains(s, current, remoteOid.value);
    match contains
    case Thrown(e) => r := Thrown(e);
    case Ok(true) => r := Ok(Right(FastForwardPush));
    case Ok(false) => r := Ok(Right(if lastSynced.value.Some? then ForcePush else Reconcile));
  }

  /** What the sync hands to `Pusher.create`: the remote branch name and whether to force. */
  datatype PushTarget = PushTarget(remoteBranchName: string, force: bool)

  /** `Pusher.create(gitLib, currentBranch, currentBranch.simpleName(), force, null, null)`. */
  function TargetOf(s: RepoState, current: Branch, force: bool): (r: Try<Either<PushTarget>>)
    ensures SimpleName(s.config, current).Ok? ==> r == Ok(Right(PushTarget(SimpleName(s.config, current).value, force)))
    ensures SimpleName(s.config, current).Thrown? ==> r == Thrown(SimpleName(s.config, current).ex)
  {
    match SimpleName(s.config, current)
    case Thrown(e) => Thrown(e)
    case Ok(simple) => Ok(Right(PushTarget(simple, force)))
  }

  /** The backend's replies to the steps of one sync. */
  datatype Replies = Replies(
    fetch: FetchReply,
    integration: CombineReply,
    remote: CombineReply,
    reintegration: CombineReply,
    lastSyncedRead: Option<string>,
    push: Pusher.PushReply,
    recordFailure: Option<string>)

  /** An error result of a combine, passed on unchanged. */
  function Relay<T>(r: Try<Either<()>>): (out: Try<Either<T>>)
    requires !Combined(r)
    ensures r.Thrown? ==> out == Thrown(r.ex)
    ensures r.Ok? ==> r.value.Left? && out == Ok(Left(r.value.msg))
  {
    match r
    case Thrown(e) => Thrown(e)
    case Ok(Left(msg)) => Ok(Left(msg))
  }

  // The step predicates hold of steps run one after the other.

  lemma CombineStepsConcat(a: seq<Event>, b: seq<Event>, c: Combiner)
    requires CombineSteps(a, c) && CombineSteps(b, c)
    ensures CombineSteps(a + b, c)
  {
    assert forall i :: |a| <= i < |a + b| ==> (a + b)[i] == b[i - |a|];
  }

  lemma OnlyCombinerConcat(a: seq<Event>, b: seq<Event>, c: Combiner)
    requires OnlyCombiner(a, c) && OnlyCombiner(b, c)
    ensures OnlyCombiner(a + b, c)
  {
    assert forall i :: |a| <= i < |a + b| ==> (a + b)[i] == b[i - |a|];
  }

  lemma LocalStepsConcat(a: seq<Event>, b: seq<Event>)
    requires LocalSteps(a) && LocalSteps(b)
    ensures LocalSteps(a + b)
  {
    assert forall i :: |a| <= i < |a + b| ==> (a + b)[i] == b[i - |a|];
  }

  /** Only the first group of steps fetches when the second does not. */
  lemma FetchesFirst(a: seq<Event>, b: seq<Event>)
    requires NoFetch(b)
    ensures forall i :: 0 <= i < |a + b| && (a + b)[i].FetchEvent? ==> i < |a| && a[i].FetchEvent?
  {
    assert forall i :: |a| <= i < |a + b| ==> (a + b)[i] == b[i - |a|];
  }

  lemma NoFetchConcat(a: seq<Event>, b: seq<Event>)
    requires NoFetch(a) && NoFetch(b)
    ensures NoFetch(a + b)
  {
    assert forall i :: |a| <= i < |a + b| ==> (a + b)[i] == b[i - |a|];
  }

  // ---------------------------------------------------------------------------------------------
  // Reconciling with the remote branch

  /**
   * `reconcileWithRemoteBranch`: combines with the remote branch, then again with the integration
   * branch so that the result can fast-forward it, then force-pushes to the current branch's
   * simple name.
   */
  function ReconcileWithRemoteBranch(s: RepoState, c: Combiner, current: Branch, w: Replies): Step<Try<Either<PushTarget>>>
  {
    match RemoteBranchName(s.config, current)
    case None =>
      (match ToString(s, current)
       case Thrown(e) => Step(Thrown(e), s, [])
       case Ok(text) => Step(Ok(Left("Could not determine a remote branch name for " + text)), s, []))
    case Some(remoteBranchName) => CombineTwice(s, c, current, BranchNamed(s, remoteBranchName), w)
  }

  /** The two combines of a reconcile: with the remote branch, then with the integration branch. */
  function CombineTwice(s: RepoState, c: Combiner, current: Branch, remoteBranch: Option<Branch>, w: Replies)
    : Step<Try<Either<PushTarget>>>
  {
    var withRemote := Apply(s, c, remoteBranch, w.remote);
    if !Combined(withRemote.result) then Step(Relay(withRemote.result), withRemote.state, withRemote.events)
    else
      var again := Reintegrate(withRemote.state, c, current, w);
      Step(again.result, again.state, withRemote.events + again.events)
  }

  /** The second combine of a reconcile, with the integration branch, and the force push it leads to. */
  function Reintegrate(s: RepoState, c: Combiner, current: Branch, w: Replies): Step<Try<Either<PushTarget>>>
  {
    var again := Apply(s, c, BranchConfig.IntegrationBranch(s), w.reintegration);
    if !Combined(again.result) then Step(Relay(again.result), again.state, again.events)
    else Step(TargetOf(again.state, current, true), again.state, again.events)
  }

  /** What a reconcile may change: only combines ran, and only refs moved. */
  predicate Reconciled(s: RepoState, c: Combiner, current: Branch, r: Step<Try<Either<PushTarget>>>, maxSteps: nat)
  {
    && CombineSteps(r.events, c) && |r.events| <= maxSteps
    && r.state.refs.Keys == s.refs.Keys && r.state.head == s.head && r.state.config == s.config
    && r.state.control == s.control
    && (r.result.Ok? && r.result.value.Right? ==>
          && SimpleName(s.config, current).Ok?
          && r.result.value.value == PushTarget(SimpleName(s.config, current).value, true))
  }

  lemma ReintegrateFacts(s: RepoState, c: Combiner, current: Branch, w: Replies)
    ensures Reconciled(s, c, current, Reintegrate(s, c, current, w), 1)
  {
    ApplyFacts(s, c, BranchConfig.IntegrationBranch(s), w.reintegration);
  }

  lemma CombineTwiceFacts(s: RepoState, c: Combiner, current: Branch, remoteBranch: Option<Branch>, w: Replies)
    ensures Reconciled(s, c, current, CombineTwice(s, c, current, remoteBranch, w), 2)
  {
    var withRemote := Apply(s, c, remoteBranch, w.remote);
    ApplyFacts(s, c, remoteBranch, w.remote);
    if Combined(withRemote.result) {
      ReintegrateFacts(withRemote.state, c, current, w);
      CombineStepsConcat(withRemote.events, Reintegrate(withRemote.state, c, current, w).events, c);
    }
  }

  /**
   * A reconcile runs at most two steps, both of them combines; it moves refs but creates or deletes
   * none, and leaves HEAD, the configuration and the sync points alone. What it asks to push is a
   * force push to the current branch's simple name.
   */
  lemma ReconcileFacts(s: RepoState, c: Combiner, current: Branch, w: Replies)
    ensures Reconciled(s, c, current, ReconcileWithRemoteBranch(s, c, current, w), 2)
  {
    match RemoteBranchName(s.config, current)
    case None =>
    case Some(remoteBranchName) => CombineTwiceFacts(s, c, current, BranchNamed(s, remoteBranchName), w);
  }

  /**
   * A reconcile that gets as far as pushing has combined the current branch first with its remote
   * branch and then with the integration branch, in that order, and nothing else.
   */
  lemma ReconcileSequence(s: RepoState, c: Combiner, current: Branch, w: Replies)
    ensures var r := ReconcileWithRemoteBranch(s, c, current, w);
            r.result.Ok? && r.result.value.Right? ==>
              && RemoteBranchName(s.config, current).Some?
              && BranchNamed(s, RemoteBranchName(s.config, current).value).Some?
              && BranchConfig.IntegrationBranch(s).Some?
              && CurrentBranch(s).Some?
              && r.events == [CombineEvent(c, BranchNamed(s, RemoteBranchName(s.config, current).value).value, CurrentBranch(s).value),
                              CombineEvent(c, BranchConfig.IntegrationBranch(s).value, CurrentBranch(s).value)]
  {
    match RemoteBranchName(s.config, current)
    case None =>
    case Some(remoteBranchName) => CombineTwiceSequence(s, c, current, remoteBranchName, w);
  }

  lemma CombineTwiceSequence(s: RepoState, c: Combiner, current: Branch, remoteBranchName: string, w: Replies)
    ensures var r := CombineTwice(s, c, current, BranchNamed(s, remoteBranchName), w);
            r.result.Ok? && r.result.value.Right? ==>
              && BranchNamed(s, remoteBranchName).Some?
              && BranchConfig.IntegrationBranch(s).Some?
              && CurrentBranch(s).Some?
              && r.events == [CombineEvent(c, BranchNamed(s, remoteBranchName).value, CurrentBranch(s).value),
                              CombineEvent(c, BranchConfig.IntegrationBranch(s).value, CurrentBranch(s).value)]
  {
    var remote := BranchNamed(s, remoteBranchName);
    var withRemote := Apply(s, c, remote, w.remote);
    ApplyFacts(s, c, remote, w.remote);
    if Combined(withRemote.result) {
      var s1 := withRemote.state;
      var again := Reintegrate(s1, c, current, w);
      assert CombineTwice(s, c, current, remote, w).events == withRemote.events + again.events;
      SameKeysSameLookups(s, s1, remoteBranchName);
      BranchConfig.SameKeysSameIntegration(s, s1);
      ReintegrateSequence(s1, c, current, w);
    }
  }

  /** A reintegration that gets as far as pushing has run exactly one combine, with the integration branch. */
  lemma ReintegrateSequence(s: RepoState, c: Combiner, current: Branch, w: Replies)
    ensures var r := Reintegrate(s, c, current, w);
            r.result.Ok? && r.result.value.Right? ==>
              && BranchConfig.IntegrationBranch(s).Some?
              && CurrentBranch(s).Some?
              && r.events == [CombineEvent(c, BranchConfig.IntegrationBranch(s).value, CurrentBranch(s).value)]
  {
    ApplyFacts(s, c, BranchConfig.IntegrationBranch(s), w.reintegration);
  }

  method ReconcileIn(g: GitLib, c: Combiner, current: Branch, w: Replies) returns (r: Try<Either<PushTarget>>)
    modifies g
    ensures var step := ReconcileWithRemoteBranch(old(g.State()), c, current, w);
            r == step.result && g.State() == step.state && g.events == old(g.events) + step.events
  {
    var remoteBranchName := RemoteBranchName(g.config, current);
    if remoteBranchName.None? {
      var text := ToString(g.State(), current);
      r := if text.Thrown? then Thrown(text.ex) else Ok(Left("Could not determine a remote branch name for " + text.value));
    } else {
      r := CombineTwiceIn(g, c, current, BranchNamed(g.State(), remoteBranchName.value), w);
    }
  }

  method CombineTwiceIn(g: GitLib, c: Combiner, current: Branch, remoteBranch: Option<Branch>, w: Replies)
    returns (r: Try<Either<PushTarget>>)
    modifies g
    ensures var step := CombineTwice(old(g.State()), c, current, remoteBranch, w);
            r == step.result && g.State() == step.state && g.events == old(g.events) + step.events
  {
    ghost var e0, first := g.events, Apply(g.State(), c, remoteBranch, w.remote);
    var withRemote := ApplyIn(g, c, remoteBranch, w.remote);
    if !Combined(withRemote) {
      r := Relay(withRemote);
    } else {
      ghost var second := Reintegrate(g.State(), c, current, w);
      r := ReintegrateIn(g, c, current, w);
      AppendSteps(e0, first.events, second.events);
    }
  }

  method ReintegrateIn(g: GitLib, c: Combiner, current: Branch, w: Replies) returns (r: Try<Either<PushTarget>>)
    modifies g
    ensures var step := Reintegrate(old(g.State()), c, current, w);
            r == step.result && g.State() == step.state && g.events == old(g.events) + step.events
  {
    var again := ApplyIn(g, c, BranchConfig.IntegrationBranch(g.State()), w.reintegration);
    if !Combined(again) {
      r := Relay(again);
    } else {
      r := TargetOf(g.State(), current, true);
    }
  }

  // ---------------------------------------------------------------------------------------------
  // Handling a remote that changed, and pushing

  /** `handleRemoteChanged`: the push to make, after reconciling when the decision says so. */
  ghost function HandleRemoteChanged(s: RepoState, c: Combiner, current: Branch, w: Replies): Step<Try<Either<PushTarget>>>
  {
    match Decide(s, current, w.lastSyncedRead)
    case Thrown(e) => Step(Thrown(e), s, [])
    case Ok(Left(msg)) => Step(Ok(Left(msg)), s, [])
    case Ok(Right(FastForwardPush)) => Step(TargetOf(s, current, false), s, [])
    case Ok(Right(ForcePush)) => Step(TargetOf(s, current, true), s, [])
    case Ok(Right(Reconcile)) => ReconcileWithRemoteBranch(s, c, current, w)
  }

  /**
   * Only a reconcile runs steps; the push asked for goes to the current branch's simple name, and
   * is forced exactly when the decision was not a plain fast-forward push.
   */
  lemma HandleRemoteChangedFacts(s: RepoState, c: Combiner, current: Branch, w: Replies)
    ensures var r := HandleRemoteChanged(s, c, current, w);
            var plan := Decide(s, current, w.lastSyncedRead);
            && CombineSteps(r.events, c)
            && r.state.refs.Keys == s.refs.Keys && r.state.head == s.head && r.state.config == s.config
            && r.state.control == s.control
            && (r.result.Ok? && r.result.value.Right? ==>
                  && plan.Ok? && plan.value.Right?
                  && SimpleName(s.config, current).Ok?
                  && r.result.value.value == PushTarget(SimpleName(s.config, current).value, plan.value.value != FastForwardPush))
            && (plan != Ok(Right(Reconcile)) ==> r.events == [] && r.state == s)
            && (plan == Ok(Right(Reconcile)) ==> r == ReconcileWithRemoteBranch(s, c, current, w))
  {
    match Decide(s, current, w.lastSyncedRead)
    case Thrown(_) =>
    case Ok(Left(_)) =>
    case Ok(Right(FastForwardPush)) =>
    case Ok(Right(ForcePush)) =>
    case Ok(Right(Reconcile)) => ReconcileFacts(s, c, current, w);
  }

  method HandleRemoteChangedIn(g: GitLib, c: Combiner, current: Branch, w: Replies) returns (r: Try<Either<PushTarget>>)
    modifies g
    ensures var step := HandleRemoteChanged(old(g.State()), c, current, w);
            r == step.result && g.State() == step.state && g.events == old(g.events) + step.events
  {
    var plan := DecideIn(g.State(), current, w.lastSyncedRead);
    match plan {
      case Thrown(e) => r := Thrown(e);
      case Ok(Left(msg)) => r := Ok(Left(msg));
      case Ok(Right(FastForwardPush)) => r := TargetOf(g.State(), current, false);
      case Ok(Right(ForcePush)) => r := TargetOf(g.State(), current, true);
      case Ok(Right(Reconcile)) => r := ReconcileIn(g, c, current, w);
    }
  }

  /** What `pushWithConflictResolution` makes of the push: nothing on success, else the error text. */
  function PushOutcome(pushed: Try<Either<Pusher.PushResult>>): (r: Try<Option<string>>)
    ensures pushed.Thrown? ==> r == Thrown(pushed.ex)
    ensures pushed.Ok? ==> (r == Ok(None) <==> pushed.value.Right? && pushed.value.value.Success())
    ensures pushed.Ok? && pushed.value.Left? ==> r == Ok(Some(pushed.value.msg))
    ensures pushed.Ok? && pushed.value.Right? && !pushed.value.value.Success() ==> r == Ok(Some(pushed.value.value.ToString()))
  {
    match pushed
    case Thrown(e) => Thrown(e)
    case Ok(Left(msg)) => Ok(Some(msg))
    case Ok(Right(res)) => Ok(if res.Success() then None else Some(res.ToString()))
  }

  /** The push to the chosen target: `Pusher.create` without hooks, then `push()`. */
  function PushToTarget(s: RepoState, current: Branch, target: PushTarget, w: Replies): Step<Try<Option<string>>>
  {
    var pushed := Pusher.Push(s, current, target.remoteBranchName, target.force, None, None, w.push, w.recordFailure);
    Step(PushOutcome(pushed.result), pushed.state, pushed.events)
  }

  /**
   * `pushWithConflictResolution`: pushes as `handleRemoteChanged` says, without hooks; nothing on
   * success, otherwise an error text.
   */
  ghost function PushWithConflictResolution(s: RepoState, c: Combiner, current: Branch, w: Replies): Step<Try<Option<string>>>
  {
    var handled := HandleRemoteChanged(s, c, current, w);
    match handled.result
    case Thrown(e) => Step(Thrown(e), handled.state, handled.events)
    case Ok(Left(msg)) => Step(Ok(Some(msg)), handled.state, handled.events)
    case Ok(Right(target)) =>
      var pushed := PushToTarget(handled.state, current, target, w);
      Step(pushed.result, pushed.state, handled.events + pushed.events)
  }

  /**
   * Pushing with conflict resolution runs only the combiner's steps, pushes and hooks, keeps HEAD
   * and the configuration, and every push it makes is of the current branch to its simple name,
   * forced exactly when the decision was a force push or a reconcile.
   */
  lemma ForcePushOnlyWhenDecided(s: RepoState, c: Combiner, current: Branch, w: Replies)
    ensures var r := PushWithConflictResolution(s, c, current, w);
            var plan := Decide(s, current, w.lastSyncedRead);
            && OnlyCombiner(r.events, c) && NoFetch(r.events)
            && r.state.head == s.head && r.state.config == s.config
            && forall i :: 0 <= i < |r.events| && r.events[i].PushEvent? ==>
                 && plan.Ok? && plan.value.Right? && SimpleName(s.config, current).Ok?
                 && r.events[i] == PushEvent(ShortName(current), SimpleName(s.config, current).value,
                                             plan.value.value == ForcePush || plan.value.value == Reconcile)
  {
    PushesAsTargeted(s, c, current, w);
    HandleRemoteChangedFacts(s, c, current, w);
  }

  /**
   * Pushing with conflict resolution runs only the combiner's steps, pushes and hooks, keeps HEAD
   * and the configuration, and every push it makes is the one the handled remote change targets.
   */
  lemma PushesAsTargeted(s: RepoState, c: Combiner, current: Branch, w: Replies)
    ensures var r := PushWithConflictResolution(s, c, current, w);
            var handled := HandleRemoteChanged(s, c, current, w).result;
            && OnlyCombiner(r.events, c) && NoFetch(r.events)
            && r.state.head == s.head && r.state.config == s.config
            && forall i :: 0 <= i < |r.events| && r.events[i].PushEvent? ==>
                 && handled.Ok? && handled.value.Right?
                 && r.events[i] == PushEvent(ShortName(current), handled.value.value.remoteBranchName, handled.value.value.force)
  {
    var r := PushWithConflictResolution(s, c, current, w);
    var handled := HandleRemoteChanged(s, c, current, w);
    HandledCombinesOnly(s, c, current, w);
    if handled.result.Ok? && handled.result.value.Right? {
      var target := handled.result.value.value;
      var pushed := PushToTarget(handled.state, current, target, w);
      var push := PushEvent(ShortName(current), target.remoteBranchName, target.force);
      assert r.events == handled.events + pushed.events && r.state == pushed.state;
      PushToTargetFacts(handled.state, current, target, w);
      CombineThenPush(handled.events, pushed.events, c, push);
    } else {
      assert r.events == handled.events && r.state == handled.state;
      CombineThenPush(handled.events, [], c, PushEvent(ShortName(current), "", false));
      assert handled.events + [] == handled.events;
    }
  }

  /** Handling a remote change runs only the combiner's steps and keeps HEAD and the configuration. */
  lemma HandledCombinesOnly(s: RepoState, c: Combiner, current: Branch, w: Replies)
    ensures var r := HandleRemoteChanged(s, c, current, w);
            CombineSteps(r.events, c) && r.state.head == s.head && r.state.config == s.config
  {
    HandleRemoteChangedFacts(s, c, current, w);
  }

  /** A push to a target pushes the current branch to the target's name with the target's force, and runs only hooks besides. */
  lemma PushToTargetFacts(s: RepoState, current: Branch, target: PushTarget, w: Replies)
    ensures var r := PushToTarget(s, current, target, w);
            && Pusher.PushSteps(r.events)
            && r.state.head == s.head && r.state.config == s.config
            && forall i :: 0 <= i < |r.events| && r.events[i].PushEvent? ==>
                 r.events[i] == PushEvent(ShortName(current), target.remoteBranchName, target.force)
  {
    Pusher.PushEventsAsAsked(s, current, target.remoteBranchName, target.force, None, None, w.push, w.recordFailure);
  }

  /** Combining steps followed by the steps of a push that pushes only `push`. */
  lemma CombineThenPush(a: seq<Event>, b: seq<Event>, c: Combiner, push: Event)
    requires CombineSteps(a, c) && Pusher.PushSteps(b)
    requires forall i :: 0 <= i < |b| && b[i].PushEvent? ==> b[i] == push
    ensures OnlyCombiner(a + b, c) && NoFetch(a + b)
    ensures forall i :: 0 <= i < |a + b| && (a + b)[i].PushEvent? ==> (a + b)[i] == push
  {
    assert forall i :: |a| <= i < |a + b| ==> (a + b)[i] == b[i - |a|];
  }

  method PushWithConflictResolutionIn(g: GitLib, c: Combiner, current: Branch, w: Replies) returns (r: Try<Option<string>>)
    modifies g
    ensures var step := PushWithConflictResolution(old(g.State()), c, current, w);
            r == step.result && g.State() == step.state && g.events == old(g.events) + step.events
  {
    ghost var e0, first := g.events, HandleRemoteChanged(g.State(), c, current, w);
    var handled := HandleRemoteChangedIn(g, c, current, w);
    match handled {
      case Thrown(e) => r := Thrown(e);
      case Ok(Left(msg)) => r := Ok(Some(msg));
      case Ok(Right(target)) =>
        ghost var second := PushToTarget(g.State(), current, target, w);
        r := PushToTargetIn(g, current, target, w);
        AppendSteps(e0, first.events, second.events);
    }
  }

  method PushToTargetIn(g: GitLib, current: Branch, target: PushTarget, w: Replies) returns (r: Try<Option<string>>)
    modifies g
    ensures var step := PushToTarget(old(g.State()), current, target, w);
            r == step.result && g.State() == step.state && g.events == old(g.events) + step.events
  {
    var pusher := Pusher.Create(g, current, target.remoteBranchName, target.force, None, None);
    var pushed := Pusher.PushIn(g, pusher, w.push, w.recordFailure);
    r := PushOutcome(pushed);
  }

  /** `pushCombinedBranch`: pushes only when not local-only and there are remotes. */
  ghost function PushCombinedBranch(s: RepoState, localOnly: bool, c: Combiner, current: Branch, w: Replies): Step<Try<Option<string>>>
  {
    if localOnly || !RemoteConfig.HasRemotes(s.config) then Step(Ok(None), s, [])
    else PushWithConflictResolution(s, c, current, w)
  }

  method PushCombinedBranchIn(g: GitLib, localOnly: bool, c: Combiner, current: Branch, w: Replies) returns (r: Try<Option<string>>)
    modifies g
    ensures var step := PushCombinedBranch(old(g.State()), localOnly, c, current, w);
            r == step.result && g.State() == step.state && g.events == old(g.events) + step.events
  {
    if localOnly || !RemoteConfig.HasRemotes(g.config) {
      r := Ok(None);
    } else {
      r := PushWithConflictResolutionIn(g, c, current, w);
    }
  }

  // ---------------------------------------------------------------------------------------------
  // The sync

  /**
   * `combineSync`: fetch, combine with the integration branch, push; the current branch on
   * success, the first error otherwise.
   */
  ghost function CombineSync(s: RepoState, localOnly: bool, c: Combiner, w: Replies): Step<Try<Either<Branch>>>
  {
    match BranchConfig.IntegrationBranch(s)
    case None => Step(Ok(Left("No integration branch is set")), s, [])
    case Some(integration) =>
      match CurrentBranch(s)
      case None => Step(Ok(Left("No branch is checked out")), s, [])
      case Some(current) => FetchThenCombine(s, localOnly, c, integration, current, w)
  }

  /** The fetch, then, unless it failed, the combine and the push. */
  ghost function FetchThenCombine(s: RepoState, localOnly: bool, c: Combiner, integration: Branch, current: Branch, w: Replies)
    : Step<Try<Either<Branch>>>
  {
    var fetched := FetchStep(s, localOnly, w.fetch);
    if fetched.result.Some? then Step(Ok(Left(fetched.result.value)), fetched.state, fetched.events)
    else
      var rest := CombineAndPush(fetched.state, localOnly, c, integration, current, w);
      Step(rest.result, rest.state, fetched.events + rest.events)
  }

  /** The part of `combineSync` after the fetch: combine with the integration branch, then push. */
  ghost function CombineAndPush(s: RepoState, localOnly: bool, c: Combiner, integration: Branch, current: Branch, w: Replies)
    : Step<Try<Either<Branch>>>
  {
    var combined := Apply(s, c, Some(integration), w.integration);
    if !Combined(combined.result) then Step(Relay(combined.result), combined.state, combined.events)
    else
      var pushed := PushCombinedBranch(combined.state, localOnly, c, current, w);
      Step(PushedBranch(pushed.result, current), pushed.state, combined.events + pushed.events)
  }

  /** The sync's answer after the push: the current branch when nothing went wrong, else the error. */
  function PushedBranch(pushed: Try<Option<string>>, current: Branch): (r: Try<Either<Branch>>)
    ensures r == Ok(Right(current)) <==> pushed == Ok(None)
    ensures pushed.Thrown? ==> r == Thrown(pushed.ex)
    ensures pushed.Ok? && pushed.value.Some? ==> r == Ok(Left(pushed.value.value))
  {
    match pushed
    case Thrown(e) => Thrown(e)
    case Ok(Some(msg)) => Ok(Left(msg))
    case Ok(None) => Ok(Right(current))
  }

  /** What holds of the steps of a sync after its preconditions. */
  predicate SyncedSteps(s: RepoState, localOnly: bool, c: Combiner, r: Step<Try<Either<Branch>>>)
  {
    && OnlyCombiner(r.events, c)
    && r.state.head == s.head && r.state.config == s.config
    && (localOnly ==> LocalSteps(r.events))
  }

  lemma CombineAndPushFacts(s: RepoState, localOnly: bool, c: Combiner, integration: Branch, current: Branch, w: Replies)
    ensures var r := CombineAndPush(s, localOnly, c, integration, current, w);
            && SyncedSteps(s, localOnly, c, r) && NoFetch(r.events)
            && (r.result.Ok? && r.result.value.Right? ==> r.result.value.value == current)
  {
    var combined := Apply(s, c, Some(integration), w.integration);
    ApplyFacts(s, c, Some(integration), w.integration);
    if Combined(combined.result) {
      var s1 := combined.state;
      var pushed := PushCombinedBranch(s1, localOnly, c, current, w);
      if !localOnly && RemoteConfig.HasRemotes(s1.config) {
        ForcePushOnlyWhenDecided(s1, c, current, w);
      }
      OnlyCombinerConcat(combined.events, pushed.events, c);
      NoFetchConcat(combined.events, pushed.events);
      if localOnly {
        LocalStepsConcat(combined.events, pushed.events);
      }
    }
  }

  /**
   * After its own checks, a combining sync runs only its combiner's steps, keeps HEAD and the
   * configuration, fetches at most once and first, and only when allowed to, talks to no server
   * when local-only, and answers the current branch when it succeeds.
   */
  lemma CombineSyncFacts(s: RepoState, localOnly: bool, c: Combiner, w: Replies)
    ensures var r := CombineSync(s, localOnly, c, w);
            && SyncedSteps(s, localOnly, c, r)
            && (forall i :: 0 <= i < |r.events| && r.events[i].FetchEvent? ==>
                  i == 0 && !localOnly && RemoteConfig.HasRemotes(s.config))
            && (r.result.Ok? && r.result.value.Right? ==> CurrentBranch(s) == Some(r.result.value.value))
  {
    match BranchConfig.IntegrationBranch(s)
    case None =>
    case Some(integration) =>
      match CurrentBranch(s)
      case None =>
      case Some(current) => FetchThenCombineFacts(s, localOnly, c, integration, current, w);
  }

  lemma FetchThenCombineFacts(s: RepoState, localOnly: bool, c: Combiner, integration: Branch, current: Branch, w: Replies)
    ensures var r := FetchThenCombine(s, localOnly, c, integration, current, w);
            && SyncedSteps(s, localOnly, c, r)
            && (forall i :: 0 <= i < |r.events| && r.events[i].FetchEvent? ==>
                  i == 0 && !localOnly && RemoteConfig.HasRemotes(s.config))
            && (r.result.Ok? && r.result.value.Right? ==> r.result.value.value == current)
  {
    var fetched := FetchStep(s, localOnly, w.fetch);
    if fetched.result.None? {
      var rest := CombineAndPush(fetched.state, localOnly, c, integration, current, w);
      CombineAndPushFacts(fetched.state, localOnly, c, integration, current, w);
      OnlyCombinerConcat(fetched.events, rest.events, c);
      if localOnly {
        LocalStepsConcat(fetched.events, rest.events);
      }
      FetchesFirst(fetched.events, rest.events);
    }
  }

  method CombineSyncIn(g: GitLib, localOnly: bool, c: Combiner, w: Replies) returns (r: Try<Either<Branch>>)
    modifies g
    ensures var step := CombineSync(old(g.State()), localOnly, c, w);
            r == step.result && g.State() == step.state && g.events == old(g.events) + step.events
  {
    var integration := BranchConfig.IntegrationBranch(g.State());
    if integration.None? {
      return Ok(Left("No integration branch is set"));
    }
    var current := CurrentBranch(g.State());
    if current.None? {
      return Ok(Left("No branch is checked out"));
    }
    ghost var e0, first := g.events, FetchStep(g.State(), localOnly, w.fetch);
    var fetchErr := FetchIn(g, localOnly, w.fetch);
    if fetchErr.Some? {
      return Ok(Left(fetchErr.value));
    }
    ghost var second := CombineAndPush(g.State(), localOnly, c, integration.value, current.value, w);
    r := CombineAndPushIn(g, localOnly, c, integration.value, current.value, w);
    AppendSteps(e0, first.events, second.events);
  }

  method CombineAndPushIn(g: GitLib, localOnly: bool, c: Combiner, integration: Branch, current: Branch, w: Replies)
    returns (r: Try<Either<Branch>>)
    modifies g
    ensures var step := CombineAndPush(old(g.State()), localOnly, c, integration, current, w);
            r == step.result && g.State() == step.state && g.events == old(g.events) + step.events
  {
    ghost var e0, first := g.events, Apply(g.State(), c, Some(integration), w.integration);
    var combined := ApplyIn(g, c, Some(integration), w.integration);
    if !Combined(combined) {
      r := Relay(combined);
    } else {
      ghost var second := PushCombinedBranch(g.State(), localOnly, c, current, w);
      var pushed := PushCombinedBranchIn(g, localOnly, c, current, w);
      r := PushedBranch(pushed, current);
      AppendSteps(e0, first.events, second.events);
    }
  }

  /** The combiner `doSync` picks: merge when asked to, rebase otherwise. */
  function CombinerFor(doMerge: bool): (c: Combiner)
    ensures c == MERGER <==> doMerge
  {
    if doMerge then MERGER else REBASER
  }

  /**
   * `sync(gitLib, doMerge, localOnly)`: the preconditions' message, or the combining sync with the
   * chosen combiner.
   */
  ghost function Sync(s: RepoState, doMerge: bool, localOnly: bool, w: Replies): Step<Try<Either<Branch>>>
  {
    match Preconditions(s)
    case Some(msg) => Step(Ok(Left(msg)), s, [])
    case None => CombineSync(s, localOnly, CombinerFor(doMerge), w)
  }

  /** A failed precondition stops the sync before any step, with its message. */
  lemma SyncChecksPreconditionsFirst(s: RepoState, doMerge: bool, localOnly: bool, w: Replies)
    ensures Preconditions(s).Some? ==> Sync(s, doMerge, localOnly, w) == Step(Ok(Left(Preconditions(s).value)), s, [])
    ensures Sync(s, doMerge, localOnly, w).events != [] ==> Preconditions(s).None?
  {
  }

  /** A sync combines only with the combiner it was asked for: merges when merging, rebases otherwise. */
  lemma SyncUsesChosenCombiner(s: RepoState, doMerge: bool, localOnly: bool, w: Replies)
    ensures var r := Sync(s, doMerge, localOnly, w);
            forall i :: 0 <= i < |r.events| ==> (r.events[i].MergeEvent? ==> doMerge) && (r.events[i].RebaseEvent? ==> !doMerge)
  {
    if Preconditions(s).None? {
      CombineSyncFacts(s, localOnly, CombinerFor(doMerge), w);
    }
  }

  /** A sync fetches at most once, as its first step, and only when not local-only and there are remotes. */
  lemma SyncFetchesOnlyWhenAllowed(s: RepoState, doMerge: bool, localOnly: bool, w: Replies)
    ensures var r := Sync(s, doMerge, localOnly, w);
            forall i :: 0 <= i < |r.events| && r.events[i].FetchEvent? ==>
              i == 0 && !localOnly && RemoteConfig.HasRemotes(s.config) && Preconditions(s).None?
  {
    if Preconditions(s).None? {
      CombineSyncFacts(s, localOnly, CombinerFor(doMerge), w);
    }
  }

  /** A local-only sync neither fetches nor pushes. */
  lemma LocalOnlySyncStaysLocal(s: RepoState, doMerge: bool, w: Replies)
    ensures LocalSteps(Sync(s, doMerge, true, w).events)
  {
    if Preconditions(s).None? {
      CombineSyncFacts(s, true, CombinerFor(doMerge), w);
    }
  }

  /**
   * A sync never changes which branch is checked out nor the configuration, and when it succeeds
   * its answer is the branch that was checked out.
   */
  lemma SyncKeepsCurrentBranch(s: RepoState, doMerge: bool, localOnly: bool, w: Replies)
    ensures var r := Sync(s, doMerge, localOnly, w);
            && r.state.head == s.head && r.state.config == s.config
            && (r.result.Ok? && r.result.value.Right? ==> Preconditions(s).None? && CurrentBranch(s) == Some(r.result.value.value))
  {
    if Preconditions(s).None? {
      CombineSyncFacts(s, localOnly, CombinerFor(doMerge), w);
    }
  }

  method SyncIn(g: GitLib, doMerge: bool, localOnly: bool, w: Replies) returns (r: Try<Either<Branch>>)
    modifies g
    ensures var step := Sync(old(g.State()), doMerge, localOnly, w);
            r == step.result && g.State() == step.state && g.events == old(g.events) + step.events
  {
    var err := Preconditions(g.State());
    if err.Some? {
      return Ok(Left(err.value));
    }
    r := CombineSyncIn(g, localOnly, CombinerFor(doMerge), w);
  }
}

/**
 * A branch of the repository (`lib/Branch.java`) and the read-only branch lookups of
 * `DefaultBranches`: finding a branch by name, the current branch and the list of all branches.
 *
 * A `Branch` is its full ref name; every question about it (its tip, whether it contains a
 * commit, its remote counterpart) is answered against a `RepoState`. Writing the control ref
 * and checking out change the repository and are methods on a `GitLib`.
 */
module BranchRefs {
  import opened Wrappers
  import opened Strings
  import opened Commits
  import opened Refs
  import opened Config
  import RemoteConfig
  import opened Repo

  /** A branch, named by its full ref name such as `refs/heads/master` or `refs/remotes/origin/master`. */
  datatype Branch = Branch(name: string)

  /** The name of the parking branch. */
  const ParkingBranchName: string := "_parking_"

  /** `isRemote()`: the ref is a remote-tracking ref. */
  predicate IsRemote(b: Branch)
  {
    StartsWith(b.name, RRemotes)
  }

  /** `shortName()`: the name without its `refs/...` prefix, e.g. `origin/master`. */
  function ShortName(b: Branch): string
  {
    ShortenRefName(b.name)
  }

  /**
   * The static `remoteName(gitLib, shortName)`: the part before the first `/` when that part
   * is not empty and equals (ignoring case) a configured remote; otherwise nothing.
   */
  function RemotePrefix(c: Config, shortName: string): (r: Option<string>)
    ensures r.Some? <==> IndexOf(shortName, '/') > 0
                         && exists rn :: rn in RemoteConfig.RemoteNames(c)
                                         && EqualsIgnoreCase(rn, shortName[..IndexOf(shortName, '/')])
    ensures r.Some? ==> |r.value| < |shortName| && r.value + "/" == shortName[..|r.value| + 1]
  {
    var idx := IndexOf(shortName, '/');
    if idx > 0 && exists rn | rn in RemoteConfig.RemoteNames(c) :: EqualsIgnoreCase(rn, shortName[..idx]) then
      assert shortName[..idx] + "/" == shortName[..idx + 1];
      Some(shortName[..idx])
    else None
  }

  /**
   * `computeRefName`: a name that is not fully qualified becomes `refs/remotes/<name>` when it
   * starts with a remote's name, and `refs/heads/<short name>` otherwise (always, without remotes).
   */
  function ComputeRefName(c: Config, name: string): string
  {
    if !RemoteConfig.HasRemotes(c) then RHeads + name
    else if RemotePrefix(c, ShortenRefName(name)).Some? then RRemotes + name
    else RHeads + ShortenRefName(name)
  }

  /** The full ref name `Branch.of` looks for. */
  function RefNameFor(c: Config, name: string): (r: string)
    ensures StartsWith(name, RRefs) ==> r == name
  {
    if StartsWith(name, RRefs) then name else ComputeRefName(c, name)
  }

  /** For a name that is not fully qualified, the computed ref name shortens back to the name itself. */
  lemma ComputeRefNameShortens(c: Config, name: string)
    requires !StartsWith(name, RRefs)
    ensures ShortenRefName(ComputeRefName(c, name)) == name
  {
    if !RemoteConfig.HasRemotes(c) || RemotePrefix(c, name).None? {
      ShortenHeads(name);
    } else {
      ShortenRemotes(name);
    }
  }

  /** A computed ref name is remote exactly when there are remotes and the name starts with one of them. */
  lemma ComputeRefNameRemote(c: Config, name: string)
    requires !StartsWith(name, RRefs)
    ensures IsRemote(Branch(ComputeRefName(c, name)))
            <==> RemoteConfig.HasRemotes(c) && RemotePrefix(c, name).Some?
  {
    var r := ComputeRefName(c, name);
    if !(RemoteConfig.HasRemotes(c) && RemotePrefix(c, name).Some?) {
      assert r[..|RHeads|] == RHeads;
      assert r[5] == 'h';
    } else {
      assert r[..|RRemotes|] == RRemotes;
    }
  }

  /**
   * `Branch.of(gitLib, name)`: resolves the name to a full ref name, refuses an invalid one and
   * looks it up the way `findRef` does; a name that finds nothing is refused too.
   */
  function Of(s: RepoState, name: string): (r: Try<Branch>)
    ensures r.Ok? ==> r.value.name in s.refs && IsValidRefName(RefNameFor(s.config, name))
    ensures !IsValidRefName(RefNameFor(s.config, name)) ==>
              r == Thrown(IllegalArgument("\"" + name + "\" is not a valid branch name"))
    ensures IsValidRefName(RefNameFor(s.config, name)) ==>
              (r.Thrown? <==> FindRef(s.refs, RefNameFor(s.config, name)).None?)
    ensures r.Thrown? ==> r.ex.IllegalArgument?
  {
    var refName := RefNameFor(s.config, name);
    if !IsValidRefName(refName) then Thrown(IllegalArgument("\"" + name + "\" is not a valid branch name"))
    else match FindRef(s.refs, refName)
      case None => Thrown(IllegalArgument(name + " is not a known reference name"))
      case Some(full) => Ok(Branch(full))
  }

  /** A fully qualified name that exists is the branch of that name. */
  lemma OfExisting(s: RepoState, name: string)
    requires StartsWith(name, RRefs) && IsValidRefName(name) && name in s.refs
    ensures Of(s, name) == Ok(Branch(name))
  {
    assert SearchPath[0] + name == name;
  }

  /** Without remotes, a short name means the local branch `refs/heads/<name>`. */
  lemma OfLocal(s: RepoState, name: string)
    requires !RemoteConfig.HasRemotes(s.config) && !StartsWith(name, RRefs)
    requires IsValidRefName(RHeads + name) && RHeads + name in s.refs
    ensures Of(s, name) == Ok(Branch(RHeads + name))
  {
    assert SearchPath[0] + (RHeads + name) == RHeads + name;
  }

  /**
   * `simpleName()`: a remote branch loses its remote prefix (`origin/master` is `master`), a
   * local branch is its short name. A remote-tracking ref whose first part is not a configured
   * remote makes the source dereference null.
   */
  function SimpleName(c: Config, b: Branch): (r: Try<string>)
    ensures !IsRemote(b) ==> r == Ok(ShortName(b))
    ensures IsRemote(b) ==> (r.Ok? <==> RemotePrefix(c, ShortName(b)).Some?)
    ensures r.Thrown? ==> r.ex == NullDereference
    ensures r.Ok? && IsRemote(b) ==> ShortName(b) == RemotePrefix(c, ShortName(b)).value + "/" + r.value
  {
    if IsRemote(b) then
      match RemotePrefix(c, ShortName(b))
      case None => Thrown(NullDereference)
      case Some(remote) =>
        var short := ShortName(b);
        assert short == short[..|remote| + 1] + short[|remote| + 1..];
        Ok(short[|remote| + 1..])
    else Ok(ShortName(b))
  }

  /** `remoteName()`: the remote part of a remote branch's short name, when it names a remote. */
  function RemoteName(c: Config, b: Branch): (r: Option<string>)
    ensures !IsRemote(b) ==> r.None?
    ensures r.Some? <==> IsRemote(b) && SimpleName(c, b).Ok?
    ensures r.Some? ==> ShortName(b) == r.value + "/" + SimpleName(c, b).value
  {
    if IsRemote(b) then RemotePrefix(c, ShortName(b)) else None
  }

  /** A local branch is its own simple name and has no remote part (`not_a_remote/master` stays whole). */
  lemma SimpleNameLocal(c: Config, x: string)
    ensures SimpleName(c, Branch(RHeads + x)) == Ok(x)
    ensures RemoteName(c, Branch(RHeads + x)) == None
  {
    var b := Branch(RHeads + x);
    assert !IsRemote(b) by {
      assert b.name[5] == RHeads[5] == 'h' && RRemotes[5] == 'r';
    }
    ShortenHeads(x);
  }

  /**
   * A remote branch `<remote>/<x>` of a configured remote splits back into the remote and `x`
   * (`origin/master` gives `origin` and `master`).
   */
  lemma SimpleNameRemote(c: Config, remote: string, x: string)
    requires remote in RemoteConfig.RemoteNames(c) && |remote| > 0 && '/' !in remote
    ensures SimpleName(c, Branch(RRemotes + remote + "/" + x)) == Ok(x)
    ensures RemoteName(c, Branch(RRemotes + remote + "/" + x)) == Some(remote)
  {
    var short := remote + "/" + x;
    var b := Branch(RRemotes + short);
    assert b.name == RRemotes + remote + "/" + x;
    ShortenRemotes(short);
    assert IsRemote(b) by {
      assert b.name[..|RRemotes|] == RRemotes;
    }
    assert ShortName(b) == short;
    RemotePrefixOf(c, remote, x);
    assert short[|remote| + 1..] == x;
  }

  /** The remote prefix of `<remote>/<x>` is the remote. */
  lemma RemotePrefixOf(c: Config, remote: string, x: string)
    requires remote in RemoteConfig.RemoteNames(c) && |remote| > 0 && '/' !in remote
    ensures RemotePrefix(c, remote + "/" + x) == Some(remote)
  {
    var short := remote + "/" + x;
    assert short == remote + ("/" + x);
    IndexOfConcat(remote, "/" + x, '/');
    assert IndexOf(short, '/') == |remote|;
    assert short[..|remote|] == remote;
    assert EqualsIgnoreCase(remote, short[..|remote|]);
  }

  /** `objectId()`: the commit the branch points at; nothing when the ref does not exist. */
  function ObjectId(s: RepoState, b: Branch): (r: Option<Oid>)
    ensures r.Some? <==> b.name in s.refs
    ensures r.Some? ==> r.value == s.refs[b.name]
  {
    if b.name in s.refs then Some(s.refs[b.name]) else None
  }

  /** `sha()`: the abbreviated id of the tip; a missing ref dereferences null. */
  function Sha(s: RepoState, b: Branch): (r: Try<string>)
    ensures r.Ok? <==> b.name in s.refs
    ensures r.Ok? ==> |r.value| <= 7 && |r.value| <= |s.refs[b.name]| && r.value == s.refs[b.name][..|r.value|]
    ensures r.Thrown? ==> r.ex == NullDereference
  {
    match ObjectId(s, b)
    case None => Thrown(NullDereference)
    case Some(oid) => Ok(Abbreviate(oid))
  }

  /** `toString()`: `Branch{<short name>(<abbreviated id>)}`. */
  function ToString(s: RepoState, b: Branch): (r: Try<string>)
    ensures r.Ok? <==> b.name in s.refs
    ensures r.Ok? ==>
              var prefix := "Branch{" + ShortName(b) + "(";
              var tip := s.refs[b.name];
              var n := if |tip| < 7 then |tip| else 7;
              && |r.value| == |prefix| + n + 2
              && r.value[..|prefix|] == prefix
              && r.value[|prefix|..|prefix| + n] == tip[..n]
              && r.value[|prefix| + n..] == ")}"
  {
    match Sha(s, b)
    case Thrown(e) => Thrown(e)
    case Ok(sha) =>
      var prefix := "Branch{" + ShortName(b) + "(";
      Enclosed(prefix, sha, ")}");
      Ok(prefix + sha + ")}")
  }

  // ---------------------------------------------------------------------------------------------
  // History

  /** The text of the `IllegalStateException` that wraps a walk started from a missing tip. */
  const NullTipMessage: string := "java.lang.NullPointerException"

  /**
   * `contains(oid)`: whether `oid` is in the history of the branch (its tip included). The
   * walk runs inside a `Try`, so a missing tip becomes an `IllegalStateException`.
   */
  ghost function ContainsSpec(s: RepoState, b: Branch, oid: Oid): Try<bool>
  {
    match ObjectId(s, b)
    case None => Thrown(IllegalState(NullTipMessage))
    case Some(tip) => Ok(Reachable(s.graph, tip, oid))
  }

  /** `contains(oid)`, by walking the history from the tip. */
  method Contains(s: RepoState, b: Branch, oid: Oid) returns (r: Try<bool>)
    ensures r == ContainsSpec(s, b, oid)
  {
    match ObjectId(s, b)
    case None =>
      r := Thrown(IllegalState(NullTipMessage));
    case Some(tip) =>
      var found := Commits.Contains(s.graph, tip, oid);
      r := Ok(found);
  }

  /**
   * `containsAllOf(otherBranch)`: whether the other branch's tip is in this branch's history.
   * A missing other tip is dereferenced outside the `Try` (for the log line) and escapes.
   */
  ghost function ContainsAllOfSpec(s: RepoState, b: Branch, other: Branch): Try<bool>
  {
    match ObjectId(s, other)
    case None => Thrown(NullDereference)
    case Some(oid) => ContainsSpec(s, b, oid)
  }

  method ContainsAllOf(s: RepoState, b: Branch, other: Branch) returns (r: Try<bool>)
    ensures r == ContainsAllOfSpec(s, b, other)
  {
    match ObjectId(s, other)
    case None =>
      r := Thrown(NullDereference);
    case Some(oid) =>
      r := Contains(s, b, oid);
  }

  /** `containsAllOf(otherBranchName)`: resolves the name with `Branch.of` first. */
  method ContainsAllOfNamed(s: RepoState, b: Branch, otherName: string) returns (r: Try<bool>)
    ensures Of(s, otherName).Thrown? ==> r == Thrown(Of(s, otherName).ex)
    ensures Of(s, otherName).Ok? ==> r == ContainsAllOfSpec(s, b, Of(s, otherName).value)
  {
    match Of(s, otherName)
    case Thrown(e) =>
      r := Thrown(e);
    case Ok(other) =>
      r := ContainsAllOf(s, b, other);
  }

  /** Every existing branch contains itself. */
  lemma ContainsAllOfSelf(s: RepoState, b: Branch)
    requires b.name in s.refs
    ensures ContainsAllOfSpec(s, b, b) == Ok(true)
  {
    ReachableRefl(s.graph, s.refs[b.name]);
  }

  /** Containment is transitive: a branch holding all of `b`, which holds all of `c`, holds all of `c`. */
  lemma ContainsAllOfTransitive(s: RepoState, a: Branch, b: Branch, c: Branch)
    requires ContainsAllOfSpec(s, a, b) == Ok(true) && ContainsAllOfSpec(s, b, c) == Ok(true)
    ensures ContainsAllOfSpec(s, a, c) == Ok(true)
  {
    ReachableTrans(s.graph, s.refs[a.name], s.refs[b.name], s.refs[c.name]);
  }

  // ---------------------------------------------------------------------------------------------
  // Sync control ref and the remote counterpart

  /**
   * `lastSyncedAgainst()`: the id recorded in the control ref `gitProcess/<short name>`, nothing
   * when there is no record, or the text of the failure reading it (`readFailure`).
   */
  function LastSyncedAgainst(s: RepoState, b: Branch, readFailure: Option<string>): (r: Either<Option<Oid>>)
    ensures readFailure.Some? ==> r == Left(readFailure.value)
    ensures readFailure.None? ==> r.Right? && (r.value.Some? <==> ShortName(b) in s.control)
    ensures r.Right? && r.value.Some? ==> r.value.value == s.control[ShortName(b)]
  {
    if readFailure.Some? then Left(readFailure.value)
    else if ShortName(b) in s.control then Right(Some(s.control[ShortName(b)]))
    else Right(None)
  }

  /**
   * `recordLastSyncedAgainst()`: force-sets the control ref to the branch's tip and answers
   * nothing; a failed write (`writeFailure`) or a missing tip answers the failure's text and
   * changes nothing.
   */
  function RecordLastSynced(s: RepoState, b: Branch, writeFailure: Option<string>): (r: (Option<string>, RepoState))
    ensures r.0.None? <==> writeFailure.None? && b.name in s.refs
    ensures r.0.Some? ==> r.1 == s
    ensures r.0.None? ==> r.1 == s.(control := s.control[ShortName(b) := s.refs[b.name]])
  {
    if writeFailure.Some? then (writeFailure, s)
    else match ObjectId(s, b)
      case None => (Some(NullTipMessage), s)
      case Some(tip) => (None, s.(control := s.control[ShortName(b) := tip]))
  }

  method RecordLastSyncedAgainst(g: GitLib, b: Branch, writeFailure: Option<string>) returns (err: Option<string>)
    modifies g
    ensures (err, g.State()) == RecordLastSynced(old(g.State()), b, writeFailure)
    ensures g.events == old(g.events)
  {
    if writeFailure.Some? {
      return writeFailure;
    }
    if b.name !in g.refs {
      return Some(NullTipMessage);
    }
    g.control := g.control[ShortName(b) := g.refs[b.name]];
    err := None;
  }

  /** What is recorded is what is read back, and no other branch's record moves. */
  lemma RecordThenRead(s: RepoState, b: Branch, other: Branch)
    requires b.name in s.refs
    requires ShortName(other) != ShortName(b)
    ensures LastSyncedAgainst(RecordLastSynced(s, b, None).1, b, None) == Right(Some(s.refs[b.name]))
    ensures LastSyncedAgainst(RecordLastSynced(s, b, None).1, other, None) == LastSyncedAgainst(s, other, None)
  {
  }

  /** `remoteBranchName()`: `<remote>/<short name>`, or nothing without remotes. */
  function RemoteBranchName(c: Config, b: Branch): (r: Option<string>)
    ensures !RemoteConfig.HasRemotes(c) ==> r.None?
    ensures r.Some? ==> r == RemoteConfig.RemoteBranchName(c, ShortName(b))
  {
    if !RemoteConfig.HasRemotes(c) then None else RemoteConfig.RemoteBranchName(c, ShortName(b))
  }

  /**
   * `DefaultBranches.branch(name)`: the branch `findRef` finds for the name. JGit holds only valid
   * names under `refs/`, where `Branch.of` on the found name gives that same branch
   * (`BranchNamedIsOf`).
   */
  function BranchNamed(s: RepoState, name: string): (r: Option<Branch>)
    ensures r.Some? ==> r.value.name in s.refs
    ensures r.None? <==> forall i :: 0 <= i < |SearchPath| ==> SearchPath[i] + name !in s.refs
  {
    match FindRef(s.refs, name)
    case None => None
    case Some(full) => Some(Branch(full))
  }

  /** HEAD attached to an existing ref under `refs/` has that ref as the current branch. */
  lemma CurrentIsHeadTarget(s: RepoState, name: string)
    requires s.head == Symbolic(name) && name in s.refs && StartsWith(name, RRefs)
    ensures CurrentBranch(s) == Some(Branch(name))
  {
    FindExisting(s.refs, name);
  }

  /** In a well-formed repository the branch found by name is the one `Branch.of` builds from its full name. */
  lemma BranchNamedIsOf(s: RepoState, name: string)
    requires WellFormed(s) && BranchNamed(s, name).Some?
    ensures Of(s, BranchNamed(s, name).value.name) == Ok(BranchNamed(s, name).value)
  {
    OfExisting(s, BranchNamed(s, name).value.name);
  }

  /**
   * `remoteOID()`: the tip of the remote counterpart, the branch found under the name
   * `remoteBranchName()` gives; nothing without such a name or such a branch.
   */
  function RemoteOid(s: RepoState, b: Branch): (r: Option<Oid>)
    ensures r.Some? <==> RemoteBranchName(s.config, b).Some? && BranchNamed(s, RemoteBranchName(s.config, b).value).Some?
    ensures r.Some? ==> r.value == s.refs[BranchNamed(s, RemoteBranchName(s.config, b).value).value.name]
  {
    match RemoteBranchName(s.config, b)
    case None => None
    case Some(rbn) =>
      match BranchNamed(s, rbn)
      case None => None
      case Some(rb) => ObjectId(s, rb)
  }

  /**
   * The `oldSha` of `previousRemoteOID()`: the recorded sync point when it can be read, else the
   * remote tip as it is before the fetch.
   */
  function OldRemoteOid(s: RepoState, b: Branch, readFailure: Option<string>): (r: Option<Oid>)
    ensures readFailure.None? && ShortName(b) in s.control ==> r == Some(s.control[ShortName(b)])
    ensures readFailure.Some? || ShortName(b) !in s.control ==> r == RemoteOid(s, b)
  {
    match LastSyncedAgainst(s, b, readFailure)
    case Right(Some(id)) => Some(id)
    case _ => RemoteOid(s, b)
  }

  /**
   * `previousRemoteOID()`: fetches, and answers the id the remote branch had before (the
   * recorded sync point, else the remote tip before the fetch) only when it differs from the
   * remote tip after the fetch. No remotes or a failed fetch answer nothing.
   */
  function PreviousRemoteOid(s: RepoState, b: Branch, readFailure: Option<string>, reply: FetchReply): (r: Step<Option<Oid>>)
    ensures !RemoteConfig.HasRemotes(s.config) ==> r == Step(None, s, [])
    ensures RemoteConfig.HasRemotes(s.config) ==> r.state == Fetch(s, reply).state && r.events == [FetchEvent]
    ensures r.result.Some? ==> Fetch(s, reply).result.Right? && r.result != RemoteOid(r.state, b)
  {
    if !RemoteConfig.HasRemotes(s.config) then Step(None, s, [])
    else
      var oldSha := OldRemoteOid(s, b, readFailure);
      var fetched := Fetch(s, reply);
      if fetched.result.Left? then Step(None, fetched.state, fetched.events)
      else
        var newSha := RemoteOid(fetched.state, b);
        Step(if oldSha == newSha then None else oldSha, fetched.state, fetched.events)
  }

  /**
   * With a recorded sync point and a successful fetch, the answer is the record exactly when the
   * remote tip moved away from it.
   */
  lemma PreviousRemoteOidRecorded(s: RepoState, b: Branch, reply: FetchReply)
    requires RemoteConfig.HasRemotes(s.config) && ShortName(b) in s.control && reply.Fetched?
    ensures var r := PreviousRemoteOid(s, b, None, reply);
            var recorded := s.control[ShortName(b)];
            r.result == if RemoteOid(r.state, b) == Some(recorded) then None else Some(recorded)
  {
  }

  /**
   * Without a record (or when it cannot be read) and with a successful fetch, the answer is the
   * remote tip from before the fetch exactly when the fetch moved it; a remote branch that the
   * fetch brought for the first time is no answer.
   */
  lemma PreviousRemoteOidUnrecorded(s: RepoState, b: Branch, readFailure: Option<string>, reply: FetchReply)
    requires RemoteConfig.HasRemotes(s.config) && reply.Fetched?
    requires readFailure.Some? || ShortName(b) !in s.control
    ensures var r := PreviousRemoteOid(s, b, readFailure, reply);
            r.result == if RemoteOid(r.state, b) == RemoteOid(s, b) then None else RemoteOid(s, b)
  {
  }

  /** A failed fetch answers nothing. */
  lemma PreviousRemoteOidFetchFailed(s: RepoState, b: Branch, readFailure: Option<string>, message: string)
    requires RemoteConfig.HasRemotes(s.config)
    ensures PreviousRemoteOid(s, b, readFailure, FetchFailed(message)) == Step(None, s, [FetchEvent])
  {
  }

  /**
   * `remoteHasChanged()`: there is a previous remote id. That is, there are remotes, the fetch
   * worked, and the remote tip after it differs from the recorded sync point (or, without a
   * record, from the remote tip before the fetch), which was there.
   */
  function RemoteHasChanged(s: RepoState, b: Branch, readFailure: Option<string>, reply: FetchReply): (r: bool)
    ensures r <==> && RemoteConfig.HasRemotes(s.config) && reply.Fetched?
                   && OldRemoteOid(s, b, readFailure).Some?
                   && OldRemoteOid(s, b, readFailure) != RemoteOid(Fetch(s, reply).state, b)
  {
    PreviousRemoteOid(s, b, readFailure, reply).result.Some?
  }

  method PreviousRemoteOID(g: GitLib, b: Branch, readFailure: Option<string>, reply: FetchReply) returns (r: Option<Oid>)
    modifies g
    ensures var step := PreviousRemoteOid(old(g.State()), b, readFailure, reply);
            r == step.result && g.State() == step.state && g.events == old(g.events) + step.events
  {
    if !RemoteConfig.HasRemotes(g.config) {
      return None;
    }
    var recorded := LastSyncedAgainst(g.State(), b, readFailure);
    var oldSha := if recorded.Right? && recorded.value.Some? then recorded.value else RemoteOid(g.State(), b);
    var fetched := g.DoFetch(reply);
    if fetched.Left? {
      return None;
    }
    var newSha := RemoteOid(g.State(), b);
    r := if oldSha == newSha then None else oldSha;
  }

  /** What JGit answers when asked to check out a branch. */
  datatype CheckoutReply = CheckoutFailed(message: string) | CheckoutDone

  /**
   * `checkout()`: a local branch becomes HEAD's target, any other ref is checked out detached
   * at its tip; a failure is the error's text and changes nothing.
   */
  function Checkout(s: RepoState, b: Branch, reply: CheckoutReply): (r: Step<Either<Branch>>)
    ensures r.events == [CheckoutEvent(b.name)]
    ensures reply.CheckoutFailed? ==> r.result == Left(reply.message) && r.state == s
    ensures reply.CheckoutDone? ==> r.result == Right(b) && r.state.refs == s.refs && r.state.config == s.config
    ensures reply.CheckoutDone? && StartsWith(b.name, RHeads) ==> r.state.head == Symbolic(b.name)
  {
    match reply
    case CheckoutFailed(message) => Step(Left(message), s, [CheckoutEvent(b.name)])
    case CheckoutDone =>
      var head := if StartsWith(b.name, RHeads) then Symbolic(b.name)
                  else if b.name in s.refs then Detached(s.refs[b.name]) else s.head;
      Step(Right(b), s.(head := head), [CheckoutEvent(b.name)])
  }

  method CheckoutBranch(g: GitLib, b: Branch, reply: CheckoutReply) returns (r: Either<Branch>)
    modifies g
    ensures var step := Checkout(old(g.State()), b, reply);
            r == step.result && g.State() == step.state && g.events == old(g.events) + step.events
  {
    var step := Checkout(g.State(), b, reply);
    g.Load(step.state);
    g.events := g.events + step.events;
    r := step.result;
  }

  // ---------------------------------------------------------------------------------------------
  // DefaultBranches lookups

  /**
   * `currentBranch()`: the branch HEAD names; nothing for a detached or missing HEAD, or when
   * the branch HEAD names has no commit yet.
   */
  function CurrentBranch(s: RepoState): (r: Option<Branch>)
    ensures r.Some? ==> s.head.Symbolic? && StartsWith(s.head.target, RRefs) && r.value.name in s.refs
    ensures WellFormed(s) && s.head.Symbolic? && s.head.target in s.refs ==> r == Some(Branch(s.head.target))
  {
    match s.head
    case Symbolic(target) =>
      if StartsWith(target, RRefs) then
        assert SearchPath[0] + target == target;
        BranchNamed(s, target)
      else None
    case _ => None
  }

  /**
   * Looking a branch up depends only on which refs exist and on HEAD, so a step that only moves
   * existing refs (a rebase, a merge) leaves every lookup as it was.
   */
  lemma {:induction false} SameKeysSameLookups(s: RepoState, t: RepoState, name: string)
    requires s.refs.Keys == t.refs.Keys && s.head == t.head
    ensures BranchNamed(t, name) == BranchNamed(s, name)
    ensures CurrentBranch(t) == CurrentBranch(s)
  {
    SameKeysFindFrom(s.refs, t.refs, name, 0);
    if s.head.Symbolic? {
      SameKeysFindFrom(s.refs, t.refs, s.head.target, 0);
    }
  }

  lemma {:induction false} SameKeysFindFrom(a: map<string, Oid>, b: map<string, Oid>, name: string, from: nat)
    requires a.Keys == b.Keys && from <= |SearchPath|
    ensures FindFrom(a, name, from) == FindFrom(b, name, from)
    decreases |SearchPath| - from
  {
    if from < |SearchPath| {
      assert (SearchPath[from] + name in a) == (SearchPath[from] + name in b);
      SameKeysFindFrom(a, b, name, from + 1);
    }
  }

  /** `onParking()`: HEAD names the parking branch. */
  predicate OnParking(s: RepoState)
  {
    CurrentBranch(s).Some? && ShortName(CurrentBranch(s).value) == ParkingBranchName
  }

  /** Checking out the local parking branch puts the repository on parking. */
  lemma CheckoutParkingIsOnParking(s: RepoState, reply: CheckoutReply)
    requires WellFormed(s) && RHeads + ParkingBranchName in s.refs && reply.CheckoutDone?
    ensures OnParking(Checkout(s, Branch(RHeads + ParkingBranchName), reply).state)
  {
    var p := Branch(RHeads + ParkingBranchName);
    assert p.name[..|RHeads|] == RHeads;
    ShortenHeads(ParkingBranchName);
  }

  /** `allBranches()`: every local and remote-tracking branch (JGit's list mode `ALL`). */
  function AllBranches(s: RepoState): (r: set<Branch>)
    ensures forall b :: b in r <==> b.name in s.refs && (StartsWith(b.name, RHeads) || StartsWith(b.name, RRemotes))
  {
    set n | n in s.refs && (StartsWith(n, RHeads) || StartsWith(n, RRemotes)) :: Branch(n)
  }

  /** `remoteBranches()`: the remote-tracking branches. */
  function RemoteBranches(s: RepoState): (r: set<Branch>)
    ensures forall b :: b in r <==> b in AllBranches(s) && IsRemote(b)
  {
    set b | b in AllBranches(s) && IsRemote(b)
  }

  /** `localBranches()`: the branches that are not remote. */
  function LocalBranches(s: RepoState): (r: set<Branch>)
    ensures forall b :: b in r <==> b in AllBranches(s) && !IsRemote(b)
  {
    set b | b in AllBranches(s) && !IsRemote(b)
  }

  /** The local and the remote branches split the branch list, and the local ones are the `refs/heads/` refs. */
  lemma BranchesPartition(s: RepoState)
    ensures LocalBranches(s) + RemoteBranches(s) == AllBranches(s)
    ensures LocalBranches(s) * RemoteBranches(s) == {}
    ensures forall b :: b in LocalBranches(s) <==> b.name in s.refs && StartsWith(b.name, RHeads)
  {
    forall b: Branch | b.name in s.refs && StartsWith(b.name, RHeads)
      ensures !IsRemote(b)
    {
      assert b.name[5] == 'h';
    }
  }
}

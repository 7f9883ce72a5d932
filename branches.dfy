/**
 * The branch writers of `Branches` and `DefaultBranches`: creating a branch from a base,
 * removing one, and finding or creating the parking branch.
 *
 * Branch creation and deletion are JGit's `branchCreate` and `branchDelete` commands; their
 * effect on the refs (and, for a deletion, on the branch's configuration section) is written out
 * here. JGit's failures are rethrown as `IllegalStateException` with JGit's message.
 */
module Branches {
  import opened Wrappers
  import opened Strings
  import opened Commits
  import opened Refs
  import opened Config
  import opened Repo
  import opened BranchRefs
  import BranchConfig

  /**
   * `DefaultBranches.createBranch(name, base)`: refuses a name that already finds a ref; JGit then
   * creates `refs/heads/<name>` at the base's tip, refusing an invalid name or a base without a tip.
   */
  function CreateBranch(s: RepoState, name: string, base: Branch): (r: (Try<Branch>, RepoState))
    ensures BranchNamed(s, name).Some? ==> r == (Thrown(BranchAlreadyExists(name)), s)
    ensures r.0.Thrown? ==> r.1 == s
    ensures r.0.Ok? ==> && r.0.value == Branch(RHeads + name)
                        && BranchNamed(s, name).None? && IsValidRefName(RHeads + name)
                        && base.name in s.refs
                        && r.1 == s.(refs := s.refs[RHeads + name := s.refs[base.name]])
    ensures WellFormed(s) ==> WellFormed(r.1)
  {
    if BranchNamed(s, name).Some? then (Thrown(BranchAlreadyExists(name)), s)
    else if !IsValidRefName(RHeads + name) then (Thrown(IllegalState("Branch name " + name + " is not allowed")), s)
    else match ObjectId(s, base)
      case None => (Thrown(IllegalState("Ref " + base.name + " cannot be resolved")), s)
      case Some(tip) =>
        NewHeadKeepsWellFormed(s, name, tip);
        (Ok(Branch(RHeads + name)), s.(refs := s.refs[RHeads + name := tip]))
  }

  /** A new, valid name on a base with a tip always succeeds. */
  lemma CreateBranchSucceeds(s: RepoState, name: string, base: Branch)
    requires BranchNamed(s, name).None? && IsValidRefName(RHeads + name) && base.name in s.refs
    ensures CreateBranch(s, name, base).0 == Ok(Branch(RHeads + name))
  {
  }

  /**
   * The created branch is what looking the name up finds afterwards (the source's final
   * `branch(name)`), it starts at the base's tip and so contains all of the base, and the
   * repository stays well formed.
   */
  lemma CreatedBranchIsFound(s: RepoState, name: string, base: Branch)
    requires CreateBranch(s, name, base).0.Ok?
    ensures var (r, t) := CreateBranch(s, name, base);
            && BranchNamed(t, name) == Some(r.value)
            && ObjectId(t, r.value) == ObjectId(s, base)
            && ContainsAllOfSpec(t, r.value, base) == Ok(true)
  {
    var tip := s.refs[base.name];
    var full := RHeads + name;
    var t := s.(refs := s.refs[full := tip]);
    assert CreateBranch(s, name, base) == (Ok(Branch(full)), t);
    NewRefIsFound(s, name, tip);
    NewRefContainsTip(s, full, base, tip);
  }

  /** A name that found nothing finds the new `refs/heads/<name>` once it is added. */
  lemma NewRefIsFound(s: RepoState, name: string, tip: Oid)
    requires BranchNamed(s, name).None?
    ensures BranchNamed(s.(refs := s.refs[RHeads + name := tip]), name) == Some(Branch(RHeads + name))
  {
    var t := s.(refs := s.refs[RHeads + name := tip]);
    var full := RHeads + name;
    forall i | 0 <= i < 3
      ensures SearchPath[i] + name !in t.refs
    {
      assert SearchPath[i] + name !in s.refs;
      assert SearchPath[i] + name != full by {
        if i == 0 {
          assert |SearchPath[i] + name| < |full|;
        } else if i == 1 {
          assert |SearchPath[i] + name| < |full|;
        } else {
          assert (SearchPath[i] + name)[5] == 't' && full[5] == 'h';
        }
      }
    }
    assert SearchPath[3] + name == full;
  }

  /** A new ref at the base's tip has the base's tip and so contains all of the base. */
  lemma NewRefContainsTip(s: RepoState, full: string, base: Branch, tip: Oid)
    requires base.name in s.refs && tip == s.refs[base.name]
    ensures var t := s.(refs := s.refs[full := tip]);
            && ObjectId(t, Branch(full)) == ObjectId(s, base)
            && ContainsAllOfSpec(t, Branch(full), base) == Ok(true)
  {
    var t := s.(refs := s.refs[full := tip]);
    ReachableRefl(t.graph, tip);
  }

  /** Adding a local branch under a valid name keeps a well-formed repository well formed. */
  lemma NewHeadKeepsWellFormed(s: RepoState, name: string, tip: Oid)
    requires IsValidRefName(RHeads + name)
    ensures WellFormed(s) ==> WellFormed(s.(refs := s.refs[RHeads + name := tip]))
  {
    assert (RHeads + name)[..|RRefs|] == RRefs;
  }

  /** `createBranch(name, baseName)`: the base is looked up by name first and must exist. */
  function CreateBranchNamed(s: RepoState, name: string, baseName: string): (r: (Try<Branch>, RepoState))
    ensures BranchNamed(s, baseName).None? ==>
              r == (Thrown(IllegalArgument("Could not find branch named \"" + baseName + "\"")), s)
    ensures BranchNamed(s, baseName).Some? ==> r == CreateBranch(s, name, BranchNamed(s, baseName).value)
  {
    match BranchNamed(s, baseName)
    case None => (Thrown(IllegalArgument("Could not find branch named \"" + baseName + "\"")), s)
    case Some(base) => CreateBranch(s, name, base)
  }

  /** Creates a branch in the repository. */
  method CreateBranchIn(g: GitLib, name: string, base: Branch) returns (r: Try<Branch>)
    modifies g
    ensures (r, g.State()) == CreateBranch(old(g.State()), name, base)
    ensures g.events == old(g.events)
  {
    if BranchNamed(g.State(), name).Some? {
      return Thrown(BranchAlreadyExists(name));
    }
    if !IsValidRefName(RHeads + name) {
      return Thrown(IllegalState("Branch name " + name + " is not allowed"));
    }
    if base.name !in g.refs {
      return Thrown(IllegalState("Ref " + base.name + " cannot be resolved"));
    }
    g.refs := g.refs[RHeads + name := g.refs[base.name]];
    r := Ok(Branch(RHeads + name));
  }

  /**
   * `DefaultBranches.removeBranch(branch)`: a forced delete. JGit refuses to delete the checked-out
   * branch; otherwise the ref goes, with the `branch.<short name>` settings of a local branch.
   */
  function RemoveBranch(s: RepoState, b: Branch): (r: (Try<()>, RepoState))
    ensures r.0.Thrown? <==> s.head == Symbolic(b.name)
    ensures r.0.Thrown? ==> r.1 == s
    ensures r.0.Ok? ==> && r.1.refs == s.refs - {b.name}
                        && r.1.head == s.head && r.1.control == s.control && r.1.graph == s.graph && r.1.dirty == s.dirty
                        && (forall k :: k in r.1.config <==> k in s.config && !InSettingsOf(b, k))
                        && (forall k :: k in r.1.config ==> r.1.config[k] == s.config[k])
  {
    if s.head == Symbolic(b.name) then
      (Thrown(IllegalState("Branch " + b.name + " is checked out and can not be deleted")), s)
    else
      var config := map k | k in s.config && !InSettingsOf(b, k) :: s.config[k];
      (Ok(()), s.(refs := s.refs - {b.name}, config := config))
  }

  /** `k` is one of the `branch.<short name>` settings of the local branch `b`; a remote-tracking branch has none. */
  predicate InSettingsOf(b: Branch, k: ConfigKey)
  {
    StartsWith(b.name, RHeads) && k.section == BranchConfig.BranchSection && k.subsection == Some(ShortName(b))
  }

  /** After a removal the branch is gone and every other ref is as it was. */
  lemma RemovedBranchIsGone(s: RepoState, b: Branch, other: Branch)
    requires RemoveBranch(s, b).0.Ok? && other != b
    ensures ObjectId(RemoveBranch(s, b).1, b).None?
    ensures ObjectId(RemoveBranch(s, b).1, other) == ObjectId(s, other)
  {
  }

  method RemoveBranchIn(g: GitLib, b: Branch) returns (r: Try<()>)
    modifies g
    ensures (r, g.State()) == RemoveBranch(old(g.State()), b)
    ensures g.events == old(g.events)
  {
    if g.head == Symbolic(b.name) {
      return Thrown(IllegalState("Branch " + b.name + " is checked out and can not be deleted"));
    }
    g.refs := g.refs - {b.name};
    g.config := map k | k in g.config && !InSettingsOf(b, k) :: g.config[k];
    r := Ok(());
  }

  /**
   * `parking()`: the parking branch when it exists; otherwise it is created from the integration
   * branch, and without one that is an `IllegalStateException`.
   */
  function Parking(s: RepoState): (r: (Try<Branch>, RepoState))
    ensures BranchNamed(s, ParkingBranchName).Some? ==> r == (Ok(BranchNamed(s, ParkingBranchName).value), s)
    ensures BranchNamed(s, ParkingBranchName).None? && BranchConfig.IntegrationBranch(s).None? ==>
              r == (Thrown(IllegalState("No integration branch")), s)
    ensures r.0.Ok? ==> r.1.refs.Keys == s.refs.Keys + {r.0.value.name}
  {
    match BranchNamed(s, ParkingBranchName)
    case Some(p) => (Ok(p), s)
    case None =>
      match BranchConfig.IntegrationBranch(s)
      case None => (Thrown(IllegalState("No integration branch")), s)
      case Some(integration) => CreateBranch(s, ParkingBranchName, integration)
  }

  /** When parking has to be created, it starts at the integration branch's tip and is found by name afterwards. */
  lemma ParkingCreatedFromIntegration(s: RepoState)
    requires BranchNamed(s, ParkingBranchName).None? && BranchConfig.IntegrationBranch(s).Some?
    ensures var (r, t) := Parking(s);
            && r == Ok(Branch(RHeads + ParkingBranchName))
            && ObjectId(t, r.value) == ObjectId(s, BranchConfig.IntegrationBranch(s).value)
            && BranchNamed(t, ParkingBranchName) == Some(r.value)
  {
    var integration := BranchConfig.IntegrationBranch(s).value;
    ParkingRefNameValid();
    CreateBranchSucceeds(s, ParkingBranchName, integration);
    CreatedBranchIsFound(s, ParkingBranchName, integration);
  }

  /** A character of a plain branch name: a letter, a digit, `_` or `-`. */
  predicate IsPlainNameChar(c: char)
  {
    'a' <= c <= 'z' || 'A' <= c <= 'Z' || '0' <= c <= '9' || c == '_' || c == '-'
  }

  /** `refs/heads/<x>` is a valid ref name for a non-empty plain name `x`. */
  lemma PlainHeadsNameValid(x: string)
    requires |x| > 0 && forall i :: 0 <= i < |x| ==> IsPlainNameChar(x[i])
    ensures IsValidRefName(RHeads + x)
  {
    var n := RHeads + x;
    forall i | 0 <= i < |n|
      ensures n[i] != '.' && n[i] != '@' && !IsForbiddenRefChar(n[i])
      ensures n[i] == '/' ==> i == 4 || i == 10
    {
      if i < |RHeads| {
        assert n[i] == RHeads[i];
      } else {
        assert n[i] == x[i - |RHeads|];
      }
    }
    assert n[4] == '/';
    assert n[|n| - 5..][0] == n[|n| - 5];
  }

  lemma ParkingRefNameValid()
    ensures IsValidRefName(RHeads + ParkingBranchName)
  {
    var x := ParkingBranchName;
    assert forall i :: 0 <= i < |x| ==> IsPlainNameChar(x[i]);
    PlainHeadsNameValid(x);
  }

  method ParkingIn(g: GitLib) returns (r: Try<Branch>)
    modifies g
    ensures (r, g.State()) == Parking(old(g.State()))
    ensures g.events == old(g.events)
  {
    var parking := BranchNamed(g.State(), ParkingBranchName);
    if parking.Some? {
      return Ok(parking.value);
    }
    var integration := BranchConfig.IntegrationBranch(g.State());
    if integration.None? {
      return Thrown(IllegalState("No integration branch"));
    }
    r := CreateBranchIn(g, ParkingBranchName, integration.value);
  }
}

/**
 * `NewFeatureBranch`: creates a feature branch off the integration branch (or off parking, when
 * parking holds work the integration branch does not have yet), checks it out, makes the
 * integration branch its upstream and, when the process started on parking, removes parking.
 *
 * As for the sync, the process is a ghost function of the repository content and the backend's
 * replies, and a method on the `GitLib` that performs it step by step and is proved to agree.
 */
module NewFeatureBranch {
  import opened Wrappers
  import opened Strings
  import opened Commits
  import opened Refs
  import opened Repo
  import opened BranchRefs
  import BranchConfig
  import Branches

  /** What the backend answers to the steps of one run: the fetch and the checkout. */
  datatype Replies = Replies(fetch: FetchReply, checkout: CheckoutReply)

  const NoIntegrationBranchMessage: string := "No integration branch"

  /**
   * `baseBranch`: the integration branch, unless the process is on parking and the integration
   * branch does not hold all of parking; then parking. Looking at parking goes through
   * `parking()`, which may create it, and asking for containment may throw.
   */
  ghost function BaseBranch(s: RepoState, integration: Branch): (r: (Try<Branch>, RepoState))
    ensures !OnParking(s) ==> r == (Ok(integration), s)
    ensures OnParking(s) && Branches.Parking(s).0.Ok?
            && ContainsAllOfSpec(Branches.Parking(s).1, integration, Branches.Parking(s).0.value) == Ok(true)
            ==> r == (Ok(integration), Branches.Parking(s).1)
    ensures OnParking(s) && Branches.Parking(s).0.Ok?
            && ContainsAllOfSpec(Branches.Parking(s).1, integration, Branches.Parking(s).0.value) == Ok(false)
            ==> r == Branches.Parking(Branches.Parking(s).1)
    ensures r.0.Ok? ==> r.0.value == integration || (OnParking(s) && r.0 == Branches.Parking(Branches.Parking(s).1).0)
  {
    if !OnParking(s) then (Ok(integration), s)
    else
      var (parking, s1) := Branches.Parking(s);
      match parking
      case Thrown(e) => (Thrown(e), s1)
      case Ok(p) =>
        match ContainsAllOfSpec(s1, integration, p)
        case Thrown(e) => (Thrown(e), s1)
        case Ok(true) => (Ok(integration), s1)
        case Ok(false) => Branches.Parking(s1)
  }

  method BaseBranchIn(g: GitLib, integration: Branch) returns (r: Try<Branch>)
    modifies g
    ensures (r, g.State()) == BaseBranch(old(g.State()), integration)
    ensures g.events == old(g.events)
  {
    if !OnParking(g.State()) {
      return Ok(integration);
    }
    var parking := Branches.ParkingIn(g);
    if parking.Thrown? {
      return Thrown(parking.ex);
    }
    var holdsParking := ContainsAllOf(g.State(), integration, parking.value);
    match holdsParking {
      case Thrown(e) => r := Thrown(e);
      case Ok(true) => r := Ok(integration);
      case Ok(false) => r := Branches.ParkingIn(g);
    }
  }

  /** The final step: removing parking when the process started on it. */
  ghost function RemoveParking(s: RepoState, startedOnParking: bool): (r: (Try<()>, RepoState))
    ensures !startedOnParking ==> r == (Ok(()), s)
    ensures r.1.head == s.head
    ensures startedOnParking && BranchNamed(s, ParkingBranchName).Some? ==>
              var p := BranchNamed(s, ParkingBranchName).value;
              && (r.0.Ok? <==> s.head != Symbolic(p.name))
              && (r.0.Ok? ==> && r.1.refs == s.refs - {p.name}
                              && (forall k :: k in r.1.config <==> k in s.config && !Branches.InSettingsOf(p, k))
                              && (forall k :: k in r.1.config ==> r.1.config[k] == s.config[k]))
    ensures startedOnParking && r.0.Ok? ==> Branches.Parking(s).0.Ok? && Branches.Parking(s).0.value.name !in r.1.refs
  {
    if !startedOnParking then (Ok(()), s)
    else
      var (parking, s1) := Branches.Parking(s);
      match parking
      case Thrown(e) => (Thrown(e), s1)
      case Ok(p) => Branches.RemoveBranch(s1, p)
  }

  method RemoveParkingIn(g: GitLib, startedOnParking: bool) returns (r: Try<()>)
    modifies g
    ensures (r, g.State()) == RemoveParking(old(g.State()), startedOnParking)
    ensures g.events == old(g.events)
  {
    r := Ok(());
    if startedOnParking {
      var parking := Branches.ParkingIn(g);
      match parking {
        case Thrown(e) => r := Thrown(e);
        case Ok(p) => r := Branches.RemoveBranchIn(g, p);
      }
    }
  }

  /**
   * The steps after the fetch: create the branch from the base, check it out (a failed checkout
   * is the answer), set its upstream to the integration branch, remove parking if need be.
   */
  ghost function CreateAndCheckOut(s: RepoState, branchName: string, base: Branch, integration: Branch,
                                   startedOnParking: bool, checkout: CheckoutReply): Step<Try<Either<Branch>>>
  {
    var (created, s1) := Branches.CreateBranch(s, branchName, base);
    match created
    case Thrown(e) => Step(Thrown(e), s1, [])
    case Ok(newBranch) =>
      var checkedOut := Checkout(s1, newBranch, checkout);
      if checkedOut.result.Left? then Step(Ok(Left(checkedOut.result.msg)), checkedOut.state, checkedOut.events)
      else
        var s2 := checkedOut.state.(config := BranchConfig.SetUpstream(checkedOut.state.config, newBranch, integration));
        var (removed, s3) := RemoveParking(s2, startedOnParking);
        Step(if removed.Thrown? then Thrown(removed.ex) else Ok(Right(newBranch)), s3, checkedOut.events)
  }

  /**
   * `newFeatureBranch(gitLib, branchName, localOnly)`: whether the process is on parking is noted
   * first; no integration branch is an `IllegalStateException`; then the base is chosen, the
   * repository fetched unless local-only (the fetch's own result is ignored), and the branch made.
   */
  ghost function NewFeatureBranch(s: RepoState, branchName: string, localOnly: bool, w: Replies): Step<Try<Either<Branch>>>
  {
    var startedOnParking := OnParking(s);
    match BranchConfig.IntegrationBranch(s)
    case None => Step(Thrown(IllegalState(NoIntegrationBranchMessage)), s, [])
    case Some(integration) =>
      var (base, s1) := BaseBranch(s, integration);
      match base
      case Thrown(e) => Step(Thrown(e), s1, [])
      case Ok(baseBranch) => FetchAndCreate(s1, branchName, baseBranch, integration, startedOnParking, localOnly, w)
  }

  /** Fetching unless local-only (ignoring what the fetch says), then making the branch. */
  ghost function FetchAndCreate(s: RepoState, branchName: string, base: Branch, integration: Branch,
                                startedOnParking: bool, localOnly: bool, w: Replies): Step<Try<Either<Branch>>>
  {
    var fetched := if localOnly then Step(Right(false), s, []) else Fetch(s, w.fetch);
    var rest := CreateAndCheckOut(fetched.state, branchName, base, integration, startedOnParking, w.checkout);
    Step(rest.result, rest.state, fetched.events + rest.events)
  }

  method NewFeatureBranchIn(g: GitLib, branchName: string, localOnly: bool, w: Replies) returns (r: Try<Either<Branch>>)
    modifies g
    ensures var step := NewFeatureBranch(old(g.State()), branchName, localOnly, w);
            r == step.result && g.State() == step.state && g.events == old(g.events) + step.events
  {
    var startedOnParking := OnParking(g.State());
    var integration := BranchConfig.IntegrationBranch(g.State());
    if integration.None? {
      return Thrown(IllegalState(NoIntegrationBranchMessage));
    }
    var base := BaseBranchIn(g, integration.value);
    if base.Thrown? {
      return Thrown(base.ex);
    }
    r := FetchAndCreateIn(g, branchName, base.value, integration.value, startedOnParking, localOnly, w);
  }

  method FetchAndCreateIn(g: GitLib, branchName: string, base: Branch, integration: Branch,
                          startedOnParking: bool, localOnly: bool, w: Replies) returns (r: Try<Either<Branch>>)
    modifies g
    ensures var step := FetchAndCreate(old(g.State()), branchName, base, integration, startedOnParking, localOnly, w);
            r == step.result && g.State() == step.state && g.events == old(g.events) + step.events
  {
    ghost var e0, s1 := g.events, g.State();
    if !localOnly {
      var _ := g.DoFetch(w.fetch);
    }
    ghost var fetched := if localOnly then Step(Right(false), s1, []) else Fetch(s1, w.fetch);
    ghost var rest := CreateAndCheckOut(g.State(), branchName, base, integration, startedOnParking, w.checkout);
    r := CreateAndCheckOutIn(g, branchName, base, integration, startedOnParking, w.checkout);
    AppendSteps(e0, fetched.events, rest.events);
  }

  method CreateAndCheckOutIn(g: GitLib, branchName: string, base: Branch, integration: Branch,
                             startedOnParking: bool, checkout: CheckoutReply) returns (r: Try<Either<Branch>>)
    modifies g
    ensures var step := CreateAndCheckOut(old(g.State()), branchName, base, integration, startedOnParking, checkout);
            r == step.result && g.State() == step.state && g.events == old(g.events) + step.events
  {
    var created := Branches.CreateBranchIn(g, branchName, base);
    if created.Thrown? {
      return Thrown(created.ex);
    }
    var newBranch := created.value;
    var checkedOut := CheckoutBranch(g, newBranch, checkout);
    if checkedOut.Left? {
      return Ok(Left(checkedOut.msg));
    }
    BranchConfig.StoreUpstream(g, newBranch, integration);
    var removed := RemoveParkingIn(g, startedOnParking);
    r := if removed.Thrown? then Thrown(removed.ex) else Ok(Right(newBranch));
  }

  // ---------------------------------------------------------------------------------------------
  // Properties

  /** Without an integration branch the process throws before any step and changes nothing. */
  lemma NeedsIntegrationBranch(s: RepoState, branchName: string, localOnly: bool, w: Replies)
    ensures BranchConfig.IntegrationBranch(s).None? ==>
              NewFeatureBranch(s, branchName, localOnly, w) == Step(Thrown(IllegalState(NoIntegrationBranchMessage)), s, [])
  {
  }

  /** The only fetch is the first step, and there is none when local-only. */
  lemma FetchesOnlyWhenNotLocal(s: RepoState, branchName: string, localOnly: bool, w: Replies)
    ensures var r := NewFeatureBranch(s, branchName, localOnly, w);
            forall i :: 0 <= i < |r.events| && r.events[i].FetchEvent? ==> i == 0 && !localOnly
  {
    match BranchConfig.IntegrationBranch(s)
    case None =>
    case Some(integration) =>
      var (base, s1) := BaseBranch(s, integration);
      if base.Ok? {
        FetchAndCreateFetchesFirst(s1, branchName, base.value, integration, OnParking(s), localOnly, w);
      }
  }

  /** Fetching and creating takes a fetch step only as its first step, and none when local-only. */
  lemma FetchAndCreateFetchesFirst(s: RepoState, branchName: string, base: Branch, integration: Branch,
                                   startedOnParking: bool, localOnly: bool, w: Replies)
    ensures var r := FetchAndCreate(s, branchName, base, integration, startedOnParking, localOnly, w);
            forall i :: 0 <= i < |r.events| && r.events[i].FetchEvent? ==> i == 0 && !localOnly
  {
    var fetched := if localOnly then Step(Right(false), s, []) else Fetch(s, w.fetch);
    var rest := CreateAndCheckOut(fetched.state, branchName, base, integration, startedOnParking, w.checkout);
    assert fetched.events == [] || (fetched.events == [FetchEvent] && !localOnly);
    CheckOutStepsOnly(fetched.state, branchName, base, integration, startedOnParking, w.checkout);
    FetchOnlyFirst(fetched.events, rest.events, localOnly);
  }

  lemma FetchOnlyFirst(fetched: seq<Event>, rest: seq<Event>, localOnly: bool)
    requires fetched == [] || (fetched == [FetchEvent] && !localOnly)
    requires forall j :: 0 <= j < |rest| ==> !rest[j].FetchEvent?
    ensures forall i :: 0 <= i < |fetched + rest| && (fetched + rest)[i].FetchEvent? ==> i == 0 && !localOnly
  {
    assert forall i :: |fetched| <= i < |fetched + rest| ==> (fetched + rest)[i] == rest[i - |fetched|];
  }

  /** After the fetch, the only backend step is the checkout of the new branch. */
  lemma CheckOutStepsOnly(s: RepoState, branchName: string, base: Branch, integration: Branch,
                          startedOnParking: bool, checkout: CheckoutReply)
    ensures var r := CreateAndCheckOut(s, branchName, base, integration, startedOnParking, checkout);
            && (r.events == [] || r.events == [CheckoutEvent(RHeads + branchName)])
            && forall j :: 0 <= j < |r.events| ==> !r.events[j].FetchEvent?
  {
  }

  /**
   * A run that succeeds answers `refs/heads/<branchName>`, leaves it checked out, and records the
   * integration branch as its upstream; when the process did not start on parking the new
   * branch starts at the base's tip.
   */
  lemma SucceedsOnNewBranch(s: RepoState, branchName: string, localOnly: bool, w: Replies)
    ensures var r := NewFeatureBranch(s, branchName, localOnly, w);
            r.result.Ok? && r.result.value.Right? ==>
              && r.result.value.value == Branch(RHeads + branchName)
              && r.state.head == Symbolic(RHeads + branchName)
              && BranchConfig.IntegrationBranch(s).Some?
              && w.checkout.CheckoutDone?
  {
    match BranchConfig.IntegrationBranch(s)
    case None =>
    case Some(integration) =>
      var (base, s1) := BaseBranch(s, integration);
      if base.Ok? {
        var fetched := if localOnly then Step(Right(false), s1, []) else Fetch(s1, w.fetch);
        CreatedAndCheckedOut(fetched.state, branchName, base.value, integration, OnParking(s), w.checkout);
      }
  }

  /** What the steps after the fetch leave behind when they succeed. */
  lemma CreatedAndCheckedOut(s: RepoState, branchName: string, base: Branch, integration: Branch,
                             startedOnParking: bool, checkout: CheckoutReply)
    ensures var r := CreateAndCheckOut(s, branchName, base, integration, startedOnParking, checkout);
            r.result.Ok? && r.result.value.Right? ==>
              && r.result.value.value == Branch(RHeads + branchName)
              && r.state.head == Symbolic(RHeads + branchName)
              && checkout.CheckoutDone?
              && base.name in s.refs
              && (!startedOnParking ==>
                    && r.state.refs == s.refs[RHeads + branchName := s.refs[base.name]]
                    && r.state.config == BranchConfig.SetUpstream(s.config, Branch(RHeads + branchName), integration))
  {
    var (created, s1) := Branches.CreateBranch(s, branchName, base);
    if created.Ok? {
      var newBranch := created.value;
      assert StartsWith(newBranch.name, RHeads) by {
        assert newBranch.name[..|RHeads|] == RHeads;
      }
      var checkedOut := Checkout(s1, newBranch, checkout);
      if checkedOut.result.Right? {
        var s2 := checkedOut.state.(config := BranchConfig.SetUpstream(checkedOut.state.config, newBranch, integration));
        assert s2.head == Symbolic(newBranch.name);
      }
    }
  }

  /**
   * Started on parking, with parking found in the repository: once the branch is created and
   * checked out the run succeeds, and it leaves the new branch at the base's tip, checked out,
   * and parking removed.
   */
  lemma CreatedFromParking(s: RepoState, branchName: string, base: Branch, integration: Branch, checkout: CheckoutReply)
    ensures var r := CreateAndCheckOut(s, branchName, base, integration, true, checkout);
            var nb := Branch(RHeads + branchName);
            BranchNamed(s, ParkingBranchName).Some? && Branches.CreateBranch(s, branchName, base).0.Ok? && checkout.CheckoutDone? ==>
              && r.result == Ok(Right(nb))
              && r.state.head == Symbolic(nb.name)
              && r.state.refs == s.refs[nb.name := s.refs[base.name]] - {BranchNamed(s, ParkingBranchName).value.name}
  {
    if BranchNamed(s, ParkingBranchName).Some? && Branches.CreateBranch(s, branchName, base).0.Ok? && checkout.CheckoutDone? {
      var s2 := CheckedOutWithUpstream(s, branchName, base, integration, checkout);
    }
  }

  /**
   * In the same run, the configuration is the old one with the integration branch as the new
   * branch's upstream, less parking's own settings, which never include the new branch's.
   */
  lemma CreatedFromParkingConfig(s: RepoState, branchName: string, base: Branch, integration: Branch, checkout: CheckoutReply)
    ensures var r := CreateAndCheckOut(s, branchName, base, integration, true, checkout);
            var nb := Branch(RHeads + branchName);
            BranchNamed(s, ParkingBranchName).Some? && Branches.CreateBranch(s, branchName, base).0.Ok? && checkout.CheckoutDone? ==>
              var p := BranchNamed(s, ParkingBranchName).value;
              var upstreamSet := BranchConfig.SetUpstream(s.config, nb, integration);
              && BranchConfig.RemoteKeyOf(nb) in r.state.config && BranchConfig.MergeKeyOf(nb) in r.state.config
              && (forall k :: k in r.state.config <==> k in upstreamSet && !Branches.InSettingsOf(p, k))
              && (forall k :: k in r.state.config ==> r.state.config[k] == upstreamSet[k])
  {
    var nb := Branch(RHeads + branchName);
    if BranchNamed(s, ParkingBranchName).Some? && Branches.CreateBranch(s, branchName, base).0.Ok? && checkout.CheckoutDone? {
      var p := BranchNamed(s, ParkingBranchName).value;
      var s2 := CheckedOutWithUpstream(s, branchName, base, integration, checkout);
      assert !Branches.InSettingsOf(p, BranchConfig.RemoteKeyOf(nb)) && !Branches.InSettingsOf(p, BranchConfig.MergeKeyOf(nb)) by {
        if StartsWith(p.name, RHeads) {
          ShortenHeadsDistinct(p.name, nb.name);
        }
      }
    }
  }

  /**
   * Once the branch is created and checked out, with the upstream set, the state `s2` is the old
   * one plus the new branch at the base's tip, with HEAD on it; starting on parking only adds
   * the removal of parking after that.
   */
  lemma CheckedOutWithUpstream(s: RepoState, branchName: string, base: Branch, integration: Branch, checkout: CheckoutReply)
    returns (s2: RepoState)
    requires Branches.CreateBranch(s, branchName, base).0.Ok? && checkout.CheckoutDone?
    ensures var nb := Branch(RHeads + branchName);
            && s2.head == Symbolic(nb.name)
            && s2.refs == s.refs[nb.name := s.refs[base.name]]
            && s2.config == BranchConfig.SetUpstream(s.config, nb, integration)
            && BranchNamed(s, branchName).None?
            && (BranchNamed(s, ParkingBranchName).Some? ==>
                  && BranchNamed(s2, ParkingBranchName) == BranchNamed(s, ParkingBranchName)
                  && BranchNamed(s, ParkingBranchName).value.name != nb.name)
            && var (removed, s3) := RemoveParking(s2, true);
               CreateAndCheckOut(s, branchName, base, integration, true, checkout)
                 == Step(if removed.Thrown? then Thrown(removed.ex) else Ok(Right(nb)), s3, [CheckoutEvent(nb.name)])
  {
    var nb := Branch(RHeads + branchName);
    var s1 := Branches.CreateBranch(s, branchName, base).1;
    var co := Checkout(s1, nb, checkout);
    assert StartsWith(nb.name, RHeads) by {
      assert nb.name[..|RHeads|] == RHeads;
    }
    s2 := co.state.(config := BranchConfig.SetUpstream(co.state.config, nb, integration));
    if BranchNamed(s, ParkingBranchName).Some? {
      NewBranchKeepsParking(s, branchName, s2.refs);
    }
  }

  /** Adding the new branch's ref keeps looking up parking where it was, and parking is not the new branch. */
  lemma NewBranchKeepsParking(s: RepoState, branchName: string, refs: map<string, Oid>)
    requires BranchNamed(s, ParkingBranchName).Some? && BranchNamed(s, branchName).None?
    requires refs.Keys == s.refs.Keys + {RHeads + branchName}
    ensures FindRef(refs, ParkingBranchName) == FindRef(s.refs, ParkingBranchName)
    ensures BranchNamed(s, ParkingBranchName).value.name != RHeads + branchName
  {
    var p := BranchNamed(s, ParkingBranchName).value;
    assert RHeads + branchName !in s.refs by {
      assert SearchPath[3] + branchName == RHeads + branchName;
    }
    NewRefIsNoParkingCandidate(branchName);
    assert BranchNamed(s, branchName) != BranchNamed(s, ParkingBranchName);
    var k :| 0 <= k < |SearchPath| && p.name == SearchPath[k] + ParkingBranchName;
    AgreeingCandidatesFindFrom(s.refs, refs, ParkingBranchName, 0, k);
  }

  /** `refs/heads/<name>` is none of the names looking up parking tries, unless the name is parking. */
  lemma NewRefIsNoParkingCandidate(branchName: string)
    ensures forall i :: 0 <= i < |SearchPath| && SearchPath[i] + ParkingBranchName == RHeads + branchName ==>
              i == 3 && branchName == ParkingBranchName
  {
    var n := RHeads + branchName;
    assert n[0] == 'r' && n[5] == 'h';
    forall i | 0 <= i < |SearchPath| && i != 3
      ensures SearchPath[i] + ParkingBranchName != n
    {
      var c := SearchPath[i] + ParkingBranchName;
      if i == 0 {
        assert c[0] != n[0];
      } else {
        assert c[5] != n[5];
      }
    }
    if SearchPath[3] + ParkingBranchName == n {
      assert branchName == n[|RHeads|..];
    }
  }

  /**
   * A run that starts on the local parking branch and succeeds leaves no parking branch behind.
   * The new branch starts where the base is after the fetch: parking, or the integration branch
   * when that holds all of parking. It is checked out, and the integration branch is its
   * upstream. The fetch here moves remote-tracking refs only.
   */
  lemma StartedOnParkingRemovesParking(s: RepoState, branchName: string, localOnly: bool, w: Replies)
    ensures var r := NewFeatureBranch(s, branchName, localOnly, w);
            var parking := Branch(RHeads + ParkingBranchName);
            var fetched := if localOnly then s else Fetch(s, w.fetch).state;
            && s.head == Symbolic(parking.name) && BranchNamed(s, ParkingBranchName) == Some(parking)
            && FetchMovesRemoteTrackingOnly(w.fetch)
            && r.result.Ok? && r.result.value.Right?
            ==>
              var nb := Branch(RHeads + branchName);
              var integration := BranchConfig.IntegrationBranch(s).value;
              var base := if ContainsAllOfSpec(s, integration, parking) == Ok(true) then integration else parking;
              && BranchConfig.IntegrationBranch(s).Some?
              && parking.name !in r.state.refs
              && base.name in fetched.refs
              && r.state.refs == fetched.refs[nb.name := fetched.refs[base.name]] - {parking.name}
              && r.state.head == Symbolic(nb.name)
              && BranchConfig.RemoteKeyOf(nb) in r.state.config && BranchConfig.MergeKeyOf(nb) in r.state.config
              && (forall k :: k in r.state.config ==>
                    var upstreamSet := BranchConfig.SetUpstream(s.config, nb, integration);
                    k in upstreamSet && r.state.config[k] == upstreamSet[k])
  {
    var r := NewFeatureBranch(s, branchName, localOnly, w);
    var parking := Branch(RHeads + ParkingBranchName);
    if s.head == Symbolic(parking.name) && BranchNamed(s, ParkingBranchName) == Some(parking)
       && FetchMovesRemoteTrackingOnly(w.fetch) && r.result.Ok? && r.result.value.Right? {
      var base := ParkingRunFetchesAndCreates(s, branchName, localOnly, w);
      FetchAndCreateFromParking(s, branchName, base, BranchConfig.IntegrationBranch(s).value, localOnly, w);
    }
  }

  /**
   * A run on local parking that gets past the choice of base is fetching and creating from the
   * base chosen: the integration branch when it holds all of parking, else parking.
   */
  lemma ParkingRunFetchesAndCreates(s: RepoState, branchName: string, localOnly: bool, w: Replies) returns (base: Branch)
    requires s.head == Symbolic(RHeads + ParkingBranchName)
    requires BranchNamed(s, ParkingBranchName) == Some(Branch(RHeads + ParkingBranchName))
    requires NewFeatureBranch(s, branchName, localOnly, w).result.Ok?
    ensures BranchConfig.IntegrationBranch(s).Some?
    ensures var integration := BranchConfig.IntegrationBranch(s).value;
            && base == (if ContainsAllOfSpec(s, integration, Branch(RHeads + ParkingBranchName)) == Ok(true)
                        then integration else Branch(RHeads + ParkingBranchName))
            && NewFeatureBranch(s, branchName, localOnly, w) == FetchAndCreate(s, branchName, base, integration, true, localOnly, w)
  {
    OnLocalParking(s);
    var integration := BranchConfig.IntegrationBranch(s).value;
    BaseFromParking(s, integration);
    var chosen := BaseBranch(s, integration);
    assert chosen.0.Ok? && chosen.1 == s;
    base := chosen.0.value;
  }

  /**
   * Fetching and creating from parking, when the fetch leaves local refs alone, removes parking
   * and leaves the new branch at the base's fetched tip, checked out, with its upstream set.
   */
  lemma FetchAndCreateFromParking(s: RepoState, branchName: string, base: Branch, integration: Branch, localOnly: bool, w: Replies)
    requires BranchNamed(s, ParkingBranchName) == Some(Branch(RHeads + ParkingBranchName))
    requires FetchMovesRemoteTrackingOnly(w.fetch)
    ensures var r := FetchAndCreate(s, branchName, base, integration, true, localOnly, w);
            var parking := Branch(RHeads + ParkingBranchName);
            var fetched := if localOnly then s else Fetch(s, w.fetch).state;
            r.result.Ok? && r.result.value.Right? ==>
              var nb := Branch(RHeads + branchName);
              && parking.name !in r.state.refs
              && base.name in fetched.refs
              && r.state.refs == fetched.refs[nb.name := fetched.refs[base.name]] - {parking.name}
              && r.state.head == Symbolic(nb.name)
              && BranchConfig.RemoteKeyOf(nb) in r.state.config && BranchConfig.MergeKeyOf(nb) in r.state.config
              && (forall k :: k in r.state.config ==>
                    var upstreamSet := BranchConfig.SetUpstream(s.config, nb, integration);
                    k in upstreamSet && r.state.config[k] == upstreamSet[k])
  {
    var fetched := if localOnly then Step(Right(false), s, []) else Fetch(s, w.fetch);
    assert fetched.state.config == s.config;
    FetchKeepsParking(s, localOnly, w.fetch);
    CreatedAndCheckedOut(fetched.state, branchName, base, integration, true, w.checkout);
    CreatedFromParking(fetched.state, branchName, base, integration, w.checkout);
    CreatedFromParkingConfig(fetched.state, branchName, base, integration, w.checkout);
  }

  /** HEAD on `refs/heads/_parking_`, which exists, is being on parking. */
  lemma OnLocalParking(s: RepoState)
    requires s.head == Symbolic(RHeads + ParkingBranchName) && RHeads + ParkingBranchName in s.refs
    ensures OnParking(s)
  {
    var parking := Branch(RHeads + ParkingBranchName);
    assert StartsWith(parking.name, RRefs) by {
      assert parking.name[..|RRefs|] == RRefs;
    }
    CurrentIsHeadTarget(s, parking.name);
    ShortenHeads(ParkingBranchName);
  }

  /**
   * On local parking the base is chosen without changing the repository: the integration branch
   * when it holds all of parking, else parking, and a failed containment check is the answer.
   */
  lemma BaseFromParking(s: RepoState, integration: Branch)
    requires s.head == Symbolic(RHeads + ParkingBranchName) && BranchNamed(s, ParkingBranchName) == Some(Branch(RHeads + ParkingBranchName))
    ensures var parking := Branch(RHeads + ParkingBranchName);
            var holds := ContainsAllOfSpec(s, integration, parking);
            BaseBranch(s, integration) == (if holds.Thrown? then Thrown(holds.ex) else if holds.value then Ok(integration) else Ok(parking), s)
  {
    OnLocalParking(s);
    assert Branches.Parking(s) == (Ok(Branch(RHeads + ParkingBranchName)), s);
  }

  /** A fetch that moves remote-tracking refs only does not change which ref looking up local parking finds. */
  lemma FetchKeepsParking(s: RepoState, localOnly: bool, reply: FetchReply)
    requires BranchNamed(s, ParkingBranchName) == Some(Branch(RHeads + ParkingBranchName))
    requires FetchMovesRemoteTrackingOnly(reply)
    ensures BranchNamed(if localOnly then s else Fetch(s, reply).state, ParkingBranchName) == Some(Branch(RHeads + ParkingBranchName))
  {
    var t := if localOnly then s else Fetch(s, reply).state;
    forall i | 0 <= i <= 3
      ensures SearchPath[i] + ParkingBranchName in s.refs <==> SearchPath[i] + ParkingBranchName in t.refs
    {
      var c := SearchPath[i] + ParkingBranchName;
      assert !StartsWith(c, RRemotes) by {
        if i == 0 {
          assert |c| < |RRemotes|;
        } else {
          assert c[..|RRemotes|][5] == c[5] != RRemotes[5];
        }
      }
    }
    AgreeingCandidatesFindFrom(s.refs, t.refs, ParkingBranchName, 0, 3);
  }
}

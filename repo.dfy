/**
 * The repository a `GitLib` wraps: its refs, the `gitProcess/<branch>` control refs, HEAD, the
 * commit graph, the configuration and whether the working tree has uncommitted changes.
 *
 * Backend steps the model does not compute (fetching from the server, and later rebasing,
 * merging, pushing and checking out) are described by a reply datatype: the step either fails
 * with a message or succeeds with the refs and commits it brings.
 */
module Repo {
  import opened Wrappers
  import opened Strings
  import opened Commits
  import opened Refs
  import opened Config
  import RemoteConfig
  import GeneralConfig

  /**
   * The repository content. `refs` holds the full names under `refs/`; `control` holds the
   * control refs `gitProcess/<short name>` keyed by the short name.
   */
  datatype RepoState = RepoState(
    refs: map<string, Oid>,
    control: map<string, Oid>,
    head: Head,
    graph: CommitGraph,
    config: Config,
    dirty: bool)

  /** JGit stores only valid ref names, all under `refs/`. */
  predicate WellFormed(s: RepoState)
  {
    forall n :: n in s.refs ==> StartsWith(n, RRefs) && IsValidRefName(n)
  }

  /** The backend steps a run performs, in order. */
  datatype Event =
    | FetchEvent
    | RebaseEvent(onto: string)
    | MergeEvent(onto: string, message: string)
    | PushEvent(local: string, remote: string, force: bool)
    | HookEvent(pre: bool)
    | CheckoutEvent(name: string)

  /** What the server answers to a fetch: an error text, or the updated and deleted remote-tracking refs with the commits they need. */
  datatype FetchReply =
    | FetchFailed(message: string)
    | Fetched(updated: map<string, Oid>, removed: set<string>, commits: CommitGraph)

  /** The reply touches remote-tracking refs only, as a fetch with the default refspec does. */
  predicate FetchMovesRemoteTrackingOnly(reply: FetchReply)
  {
    reply.Fetched? ==> forall n :: n in reply.updated.Keys + reply.removed ==> StartsWith(n, RRemotes)
  }

  /** A successful fetch moves the remote-tracking refs (deleting the removed ones) and adds the commits. */
  function ApplyFetch(s: RepoState, updated: map<string, Oid>, removed: set<string>, commits: CommitGraph): (t: RepoState)
    ensures t.control == s.control && t.head == s.head && t.config == s.config && t.dirty == s.dirty
    ensures forall n :: n in updated ==> n in t.refs && t.refs[n] == updated[n]
    ensures forall n :: n in removed && n !in updated ==> n !in t.refs
    ensures forall n :: n in s.refs && n !in removed && n !in updated ==> n in t.refs && t.refs[n] == s.refs[n]
  {
    s.(refs := (s.refs - removed) + updated, graph := s.graph + commits)
  }

  /**
   * A backend step that rewrites one branch (a rebase or a merge) moves that branch's ref to a
   * new tip and brings the commits it made; nothing else changes.
   */
  function MoveTip(s: RepoState, name: string, tip: Oid, commits: CommitGraph): (t: RepoState)
    requires name in s.refs
    ensures t.refs.Keys == s.refs.Keys && t.refs[name] == tip
    ensures forall n :: n in s.refs && n != name ==> t.refs[n] == s.refs[n]
    ensures t.control == s.control && t.head == s.head && t.config == s.config && t.dirty == s.dirty
    ensures WellFormed(s) ==> WellFormed(t)
  {
    s.(refs := s.refs[name := tip], graph := s.graph + commits)
  }

  /** The outcome of a backend step: its result, the new repository content and the steps run. */
  datatype Step<T> = Step(result: T, state: RepoState, events: seq<Event>)

  /** Steps run one after another, however they are grouped. */
  lemma AppendSteps(a: seq<Event>, b: seq<Event>, c: seq<Event>)
    ensures (a + b) + c == a + (b + c)
  {
  }

  /**
   * `GitLib.fetch()`: with remotes, fetches and yields `Right(true)` or `Left(error)`; without
   * remotes does nothing and yields `Right(false)` (the source's `Right(null)`).
   */
  function Fetch(s: RepoState, reply: FetchReply): (r: Step<Either<bool>>)
    ensures !RemoteConfig.HasRemotes(s.config) ==> r == Step(Right(false), s, [])
    ensures RemoteConfig.HasRemotes(s.config) ==> r.events == [FetchEvent]
    ensures r.result.Left? ==> r.state == s
    ensures r.result == Right(true) ==> reply.Fetched? && r.state == ApplyFetch(s, reply.updated, reply.removed, reply.commits)
  {
    if !RemoteConfig.HasRemotes(s.config) then Step(Right(false), s, [])
    else match reply
      case FetchFailed(message) => Step(Left(message), s, [FetchEvent])
      case Fetched(updated, removed, commits) => Step(Right(true), ApplyFetch(s, updated, removed, commits), [FetchEvent])
  }

  /** The repository a process works on; its fields change as refs, HEAD and configuration are written. */
  class GitLib {
    var refs: map<string, Oid>
    var control: map<string, Oid>
    var head: Head
    var graph: CommitGraph
    var config: Config
    var dirty: bool
    /** The backend steps run so far. */
    ghost var events: seq<Event>

    function State(): RepoState
      reads this
    {
      RepoState(refs, control, head, graph, config, dirty)
    }

    constructor (s: RepoState)
      ensures State() == s && events == []
    {
      refs := s.refs;
      control := s.control;
      head := s.head;
      graph := s.graph;
      config := s.config;
      dirty := s.dirty;
      events := [];
    }

    /** Makes `s` the repository content, as a backend step that produced it does. */
    method Load(s: RepoState)
      modifies this
      ensures State() == s && events == old(events)
    {
      refs := s.refs;
      control := s.control;
      head := s.head;
      graph := s.graph;
      config := s.config;
      dirty := s.dirty;
    }

    /** `GitLib.fetch()` against the server's `reply`. */
    method DoFetch(reply: FetchReply) returns (r: Either<bool>)
      modifies this
      ensures var step := Fetch(old(State()), reply);
              r == step.result && State() == step.state && events == old(events) + step.events
    {
      var step := Fetch(State(), reply);
      Load(step.state);
      events := events + step.events;
      r := step.result;
    }

    /** `StoredRemoteConfig.remoteName(String)`: refuses a blank name, otherwise stores it. */
    method SetRemoteName(name: string) returns (r: Try<()>)
      modifies this
      ensures r.Thrown? <==> IsBlank(name)
      ensures r.Ok? ==> State() == old(State()).(config := RemoteConfig.SetRemoteName(old(config), name).value)
      ensures r.Thrown? ==> State() == old(State())
      ensures RemoteConfig.RemoteName(config) == if r.Ok? then Some(name) else RemoteConfig.RemoteName(old(config))
      ensures events == old(events)
    {
      match RemoteConfig.SetRemoteName(config, name)
      case Thrown(e) =>
        r := Thrown(e);
      case Ok(c) =>
        config := c;
        r := Ok(());
    }

    /** `StoredGeneralConfig.defaultRebaseSync(boolean)`. */
    method SetDefaultRebaseSync(value: bool)
      modifies this
      ensures State() == old(State()).(config := GeneralConfig.SetDefaultRebaseSync(old(config), value))
      ensures GeneralConfig.DefaultRebaseSync(config) == Ok(value)
      ensures events == old(events)
    {
      config := GeneralConfig.SetDefaultRebaseSync(config, value);
      GeneralConfig.DefaultRebaseSyncRoundTrip(old(config), value);
    }

    /** `StoredGeneralConfig.oauthToken(String)`. */
    method SetOauthToken(token: string)
      modifies this
      ensures State() == old(State()).(config := GeneralConfig.SetOauthToken(old(config), token))
      ensures GeneralConfig.OauthToken(config) == Some(token)
      ensures events == old(events)
    {
      config := GeneralConfig.SetOauthToken(config, token);
    }

    /** `StoredGeneralConfig.username(String)`. */
    method SetUsername(name: string)
      modifies this
      ensures State() == old(State()).(config := GeneralConfig.SetUsername(old(config), name))
      ensures GeneralConfig.Username(config) == Some(name)
      ensures events == old(events)
    {
      config := GeneralConfig.SetUsername(config, name);
    }
  }
}

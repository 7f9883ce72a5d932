/**
 * The commit graph of a repository: every object id maps to the ids of its parents.
 *
 * `Branch.contains(oid)` walks the history from a branch tip (a JGit `RevWalk`) and asks
 * whether `oid` appears; here that is `Reachable`, and the walk itself is `Contains`.
 */
module Commits {
  /** A commit's object id, as its 40-character hex name. */
  type Oid = string

  type CommitGraph = map<Oid, seq<Oid>>

  /** The parents of `x`; an object the graph does not hold has none. */
  function Parents(g: CommitGraph, x: Oid): seq<Oid>
  {
    if x in g then g[x] else []
  }

  /** `p` follows parent links from `p[0]` to its last element. */
  ghost predicate IsPath(g: CommitGraph, p: seq<Oid>)
  {
    |p| > 0 && forall i :: 0 <= i < |p| - 1 ==> p[i + 1] in Parents(g, p[i])
  }

  /** `to` is in the history of `from`: `from` itself, or an ancestor along parent links. */
  ghost predicate Reachable(g: CommitGraph, from: Oid, to: Oid)
  {
    exists p :: IsPath(g, p) && p[0] == from && p[|p| - 1] == to
  }

  lemma ReachableRefl(g: CommitGraph, x: Oid)
    ensures Reachable(g, x, x)
  {
    assert IsPath(g, [x]);
  }

  /** History is closed under taking parents. */
  lemma ReachableStep(g: CommitGraph, a: Oid, b: Oid, c: Oid)
    requires Reachable(g, a, b) && c in Parents(g, b)
    ensures Reachable(g, a, c)
  {
    var p :| IsPath(g, p) && p[0] == a && p[|p| - 1] == b;
    var q := p + [c];
    assert q[|q| - 2] == b;
    assert IsPath(g, q);
  }

  /** History is transitive: an ancestor of an ancestor is an ancestor. */
  lemma ReachableTrans(g: CommitGraph, a: Oid, b: Oid, c: Oid)
    requires Reachable(g, a, b) && Reachable(g, b, c)
    ensures Reachable(g, a, c)
  {
    var p :| IsPath(g, p) && p[0] == a && p[|p| - 1] == b;
    var q :| IsPath(g, q) && q[0] == b && q[|q| - 1] == c;
    var r := p + q[1..];
    forall i | 0 <= i < |r| - 1
      ensures r[i + 1] in Parents(g, r[i])
    {
      if i < |p| - 1 {
        assert r[i] == p[i] && r[i + 1] == p[i + 1];
      } else {
        var k := i - (|p| - 1);
        assert r[i] == q[k] && r[i + 1] == q[k + 1];
      }
    }
    assert IsPath(g, r);
    assert r[|r| - 1] == c;
  }

  /** Every object the walk from `tip` can meet. */
  function Universe(g: CommitGraph, tip: Oid): set<Oid>
  {
    {tip} + g.Keys + set x, y | x in g && y in g[x] :: y
  }

  lemma ParentsInUniverse(g: CommitGraph, tip: Oid, x: Oid)
    ensures forall y :: y in Parents(g, x) ==> y in Universe(g, tip)
  {
    if x in g {
      forall y | y in g[x]
        ensures y in Universe(g, tip)
      {
        assert y in set a, b | a in g && b in g[a] :: b;
      }
    }
  }

  /** A set closed under parents that holds the start of a path holds all of the path. */
  lemma {:induction false} PathStaysInside(g: CommitGraph, p: seq<Oid>, inside: set<Oid>)
    requires IsPath(g, p) && p[0] in inside
    requires forall x, y :: x in inside && y in Parents(g, x) ==> y in inside
    ensures p[|p| - 1] in inside
    decreases |p|
  {
    if |p| > 1 {
      var q := p[..|p| - 1];
      assert IsPath(g, q);
      PathStaysInside(g, q, inside);
      assert p[|p| - 1] in Parents(g, q[|q| - 1]);
    }
  }

  /** What the walk keeps true: everything queued or seen is in the history, and the seen set is closed up to the queue. */
  ghost predicate WalkInv(g: CommitGraph, tip: Oid, target: Oid, universe: set<Oid>, seen: set<Oid>, work: seq<Oid>)
  {
    && (forall i :: 0 <= i < |work| ==> work[i] in universe && Reachable(g, tip, work[i]))
    && seen <= universe
    && (forall x :: x in seen ==> Reachable(g, tip, x))
    && target !in seen
    && (tip in seen || tip in work)
    && (forall x, y :: x in seen && y in Parents(g, x) ==> y in seen || y in work)
  }

  /** Popping an id already seen keeps the invariant. */
  lemma WalkSkip(g: CommitGraph, tip: Oid, target: Oid, universe: set<Oid>, seen: set<Oid>, work: seq<Oid>)
    requires |work| > 0 && WalkInv(g, tip, target, universe, seen, work) && work[|work| - 1] in seen
    ensures WalkInv(g, tip, target, universe, seen, work[..|work| - 1])
  {
    var rest := work[..|work| - 1];
    forall x, y | x in seen && y in Parents(g, x)
      ensures y in seen || y in rest
    {
      if y !in seen {
        var i :| 0 <= i < |work| && work[i] == y;
        assert i < |work| - 1;
        assert rest[i] == y;
      }
    }
  }

  /** Popping a new id other than the target, marking it seen and queueing its parents keeps the invariant. */
  lemma WalkVisit(g: CommitGraph, tip: Oid, target: Oid, seen: set<Oid>, work: seq<Oid>)
    requires |work| > 0 && WalkInv(g, tip, target, Universe(g, tip), seen, work)
    requires work[|work| - 1] !in seen && work[|work| - 1] != target
    ensures WalkInv(g, tip, target, Universe(g, tip), seen + {work[|work| - 1]},
                    work[..|work| - 1] + Parents(g, work[|work| - 1]))
  {
    var x := work[|work| - 1];
    var rest := work[..|work| - 1];
    var next := rest + Parents(g, x);
    ParentsInUniverse(g, tip, x);
    forall i | 0 <= i < |next|
      ensures next[i] in Universe(g, tip) && Reachable(g, tip, next[i])
    {
      if i < |rest| {
        assert next[i] == work[i];
      } else {
        assert next[i] in Parents(g, x);
        ReachableStep(g, tip, x, next[i]);
      }
    }
    forall z, y | z in seen + {x} && y in Parents(g, z)
      ensures y in seen + {x} || y in next
    {
      if z == x {
        assert y in next[|rest|..];
      } else if y !in seen && y != x {
        var i :| 0 <= i < |work| && work[i] == y;
        assert next[i] == y;
      }
    }
  }

  lemma CardinalityDrops(universe: set<Oid>, seen: set<Oid>, x: Oid)
    requires x in universe && x !in seen
    ensures |universe - (seen + {x})| < |universe - seen|
  {
    var smaller := universe - (seen + {x});
    assert universe - seen == smaller + {x} && x !in smaller;
  }

  /**
   * The history walk: pops an id, stops when it is `target`, otherwise marks it seen and
   * queues its parents. It answers exactly whether `target` is in the history of `tip`.
   */
  method Contains(g: CommitGraph, tip: Oid, target: Oid) returns (found: bool)
    ensures found <==> Reachable(g, tip, target)
  {
    ghost var universe := Universe(g, tip);
    var work := [tip];
    var seen: set<Oid> := {};
    ReachableRefl(g, tip);
    while |work| > 0
      invariant WalkInv(g, tip, target, universe, seen, work)
      decreases |universe - seen|, |work|
    {
      var x := work[|work| - 1];
      if x == target {
        return true;
      }
      if x in seen {
        WalkSkip(g, tip, target, universe, seen, work);
        work := work[..|work| - 1];
      } else {
        WalkVisit(g, tip, target, seen, work);
        CardinalityDrops(universe, seen, x);
        seen := seen + {x};
        work := work[..|work| - 1] + Parents(g, x);
      }
    }
    WalkDone(g, tip, target, universe, seen);
    return false;
  }

  /** An empty queue leaves the seen set closed, so the target is not in the history. */
  lemma WalkDone(g: CommitGraph, tip: Oid, target: Oid, universe: set<Oid>, seen: set<Oid>)
    requires WalkInv(g, tip, target, universe, seen, [])
    ensures !Reachable(g, tip, target)
  {
    if Reachable(g, tip, target) {
      var p :| IsPath(g, p) && p[0] == tip && p[|p| - 1] == target;
      PathStaysInside(g, p, seen);
    }
  }

  /** `ObjectId.abbreviate(7).name()`: the first seven characters of the id. */
  function Abbreviate(oid: Oid): (r: string)
    ensures |r| == if |oid| < 7 then |oid| else 7
    ensures r == oid[..|r|]
  {
    if |oid| < 7 then oid else oid[..7]
  }
}

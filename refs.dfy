/**
 * Reference names and the reference lookup JGit performs for the branch code.
 *
 * `Repository.shortenRefName`, `Repository.isValidRefName` and `RefDatabase.findRef` are JGit's;
 * they are written out here with the behaviour the branch code relies on.
 */
module Refs {
  import opened Wrappers
  import opened Strings
  import opened Commits

  const RRefs: string := "refs/"
  const RHeads: string := "refs/heads/"
  const RTags: string := "refs/tags/"
  const RRemotes: string := "refs/remotes/"

  /** What HEAD holds: nothing (no repository state), a detached commit, or the name of a ref. */
  datatype Head = NoHead | Detached(oid: Oid) | Symbolic(target: string)

  /**
   * `Repository.shortenRefName`: drops a leading `refs/heads/`, `refs/tags/` or `refs/remotes/`;
   * any other name, `refs/notes/n` or `refs/pull/1/head` among them, is kept whole.
   */
  function ShortenRefName(name: string): (r: string)
    ensures |r| <= |name| && r == name[|name| - |r|..]
    ensures !StartsWith(name, RRefs) ==> r == name
    ensures !StartsWith(name, RHeads) && !StartsWith(name, RTags) && !StartsWith(name, RRemotes) ==> r == name
  {
    if StartsWith(name, RHeads) then name[|RHeads|..]
    else if StartsWith(name, RTags) then name[|RTags|..]
    else if StartsWith(name, RRemotes) then name[|RRemotes|..]
    else name
  }

  lemma ShortenHeads(x: string)
    ensures ShortenRefName(RHeads + x) == x
  {
    assert (RHeads + x)[..|RHeads|] == RHeads;
    assert (RHeads + x)[|RHeads|..] == x;
  }

  /** Two different local branch refs have different short names. */
  lemma ShortenHeadsDistinct(a: string, b: string)
    requires StartsWith(a, RHeads) && StartsWith(b, RHeads) && a != b
    ensures ShortenRefName(a) != ShortenRefName(b)
  {
    assert a == RHeads + a[|RHeads|..];
    assert b == RHeads + b[|RHeads|..];
  }

  lemma ShortenRemotes(x: string)
    ensures ShortenRefName(RRemotes + x) == x
  {
    assert (RRemotes + x)[..|RRemotes|] == RRemotes;
    assert (RRemotes + x)[|RRemotes|..] == x;
    assert (RRemotes + x)[..|RHeads|] != RHeads by {
      assert (RRemotes + x)[5] == 'r';
    }
    assert (RRemotes + x)[..|RTags|] != RTags by {
      assert (RRemotes + x)[5] == 'r';
    }
  }

  /** A character git refuses anywhere in a reference name. */
  predicate IsForbiddenRefChar(c: char)
  {
    c <= ' ' || c == '\U{7F}' || c == '~' || c == '^' || c == ':' || c == '?' || c == '[' || c == '*' || c == '\\'
  }

  /**
   * `Repository.isValidRefName`: at least two `/`-separated components, none empty or starting
   * with `.`, no `..` or `@{`, no forbidden character, and no trailing `.`, `/` or `.lock`.
   */
  predicate IsValidRefName(name: string)
  {
    && |name| > 0
    && '/' in name
    && name[0] != '/' && name[0] != '.'
    && name[|name| - 1] != '/' && name[|name| - 1] != '.'
    && !EndsWith(name, ".lock")
    && (forall i :: 0 <= i < |name| ==> !IsForbiddenRefChar(name[i]))
    && (forall i :: 0 <= i < |name| - 1 ==> !PairAt(name, i, '/', '/'))
    && (forall i :: 0 <= i < |name| - 1 ==> !PairAt(name, i, '/', '.'))
    && (forall i :: 0 <= i < |name| - 1 ==> !PairAt(name, i, '.', '.'))
    && (forall i :: 0 <= i < |name| - 1 ==> !PairAt(name, i, '@', '{'))
  }

  /** `name` holds `a` at `i`, followed by `b`. */
  predicate PairAt(name: string, i: int, a: char, b: char)
  {
    0 <= i < |name| - 1 && name[i] == a && name[i + 1] == b
  }

  /** The prefixes `findRef` tries, in order. */
  const SearchPath: seq<string> := ["", RRefs, RTags, RHeads, RRemotes]

  /**
   * `RefDatabase.findRef(name)`: the full name of the first of `name`, `refs/name`,
   * `refs/tags/name`, `refs/heads/name`, `refs/remotes/name` that exists.
   */
  function FindRef(refs: map<string, Oid>, name: string): (r: Option<string>)
    ensures r.Some? ==> r.value in refs
    ensures r.None? <==> forall i :: 0 <= i < |SearchPath| ==> SearchPath[i] + name !in refs
    ensures r.Some? ==> exists i :: 0 <= i < |SearchPath| && r.value == SearchPath[i] + name
                                    && forall j :: 0 <= j < i ==> SearchPath[j] + name !in refs
  {
    FindFrom(refs, name, 0)
  }

  function FindFrom(refs: map<string, Oid>, name: string, from: nat): (r: Option<string>)
    requires from <= |SearchPath|
    ensures r.Some? ==> r.value in refs
    ensures r.None? <==> forall i :: from <= i < |SearchPath| ==> SearchPath[i] + name !in refs
    ensures r.Some? ==> exists i :: from <= i < |SearchPath| && r.value == SearchPath[i] + name
                                    && forall j :: from <= j < i ==> SearchPath[j] + name !in refs
    decreases |SearchPath| - from
  {
    if from == |SearchPath| then None
    else if SearchPath[from] + name in refs then Some(SearchPath[from] + name)
    else FindFrom(refs, name, from + 1)
  }

  /**
   * Two ref sets that agree on the candidates up to one that exists find the same ref: what comes
   * after the first hit does not matter.
   */
  lemma {:induction false} AgreeingCandidatesFindFrom(a: map<string, Oid>, b: map<string, Oid>, name: string, from: nat, k: nat)
    requires from <= k < |SearchPath| && SearchPath[k] + name in a
    requires forall i :: from <= i <= k ==> (SearchPath[i] + name in a <==> SearchPath[i] + name in b)
    ensures FindFrom(a, name, from) == FindFrom(b, name, from)
    decreases k - from
  {
    if SearchPath[from] + name !in a {
      AgreeingCandidatesFindFrom(a, b, name, from + 1, k);
    }
  }

  /** A full ref name that exists is found as it is, by the first candidate. */
  lemma FindExisting(refs: map<string, Oid>, name: string)
    requires name in refs
    ensures FindRef(refs, name) == Some(name)
  {
    assert SearchPath[0] + name == name;
  }
}
